/**
 * GPU buffer handles (Plywood.Graphics.Core/PwBuffer.cs).
 *
 * A buffer is identified by the id the device gave it when it was minted;
 * its size and usage class are fixed at creation.
 */
module Buffers {

  type BufferId = nat

  /** The four named usage classes, plus any other value the C# enum can hold. */
  datatype BufferUsage = Vertex | Index | Uniform | Instance | UnnamedUsage(code: int)

  /** The [Flags] enum: Dynamic = 1, Persistent = 2, Coherent = 4. */
  datatype BufferFlags = BufferFlags(dynamic: bool, persistent: bool, coherent: bool)

  const NoFlags := BufferFlags(false, false, false)

  datatype Buffer = Buffer(id: BufferId, size: int, usage: BufferUsage)
}
