/**
 * Recordable GPU commands (Plywood.Graphics.Core/PwCommand.cs).
 *
 * One constructor per command class, its validity predicate, and the device
 * call it performs when executed.  The unused CreatedTime and Priority
 * properties are not modelled.
 */
module Commands {
  import opened Common
  import opened Buffers
  import opened Textures
  import RenderPasses
  import opened Fences
  import Gpu

  datatype Command =
    | Viewport(x: int, y: int, width: int, height: int)
    | BeginRenderPass(pass: RenderPasses.RenderPass)
    | EndRenderPass(pass: RenderPasses.RenderPass)
    | SetPipeline(pipeline: Gpu.PipelineId)
    | SetVertexBuffer(buffer: Buffer, bindingIndex: int)
    | SetIndexBuffer(buffer: Buffer)
    | SetInstanceBufferOffset(buffer: Buffer, offset: int)
    | SetTexture(texture: TextureId, bindingIndex: int)
    | SetUniformBuffer(buffer: Buffer, bindingIndex: int)
    | DrawIndexedInstanced(indexCount: int, instanceCount: int, firstIndex: int)
    | DrawInstanced(vertexCount: int, instanceCount: int, firstVertex: int)
    | WaitFence(fence: FenceId)
    | SignalFence(fence: FenceId)
  {
    predicate IsDraw() {
      DrawIndexedInstanced? || DrawInstanced?
    }

    predicate IsPassBoundary() {
      BeginRenderPass? || EndRenderPass?
    }
  }

  /** The per-class `IsValid` overrides; classes without one are always valid. */
  predicate IsValid(c: Command) {
    match c
    case Viewport(_, _, width, height) => width > 0 && height > 0
    case BeginRenderPass(pass) => RenderPasses.IsValid(pass.descriptor)
    case SetVertexBuffer(buffer, _) => buffer.usage == Vertex || buffer.usage == Instance
    case SetIndexBuffer(buffer) => buffer.usage == Index
    case SetInstanceBufferOffset(buffer, offset) => 0 <= offset < buffer.size
    case SetUniformBuffer(buffer, _) => buffer.usage == Uniform
    case DrawIndexedInstanced(indexCount, instanceCount, _) => indexCount > 0 && instanceCount > 0
    case DrawInstanced(vertexCount, instanceCount, _) => vertexCount > 0 && instanceCount > 0
    case _ => true
  }

  /** `Execute`: each command forwards its own arguments to one device call. */
  function Execute(c: Command): Gpu.DeviceCall {
    match c
    case Viewport(x, y, w, h) => Gpu.SetViewport(x, y, w, h)
    case BeginRenderPass(p) => Gpu.BeginRenderPass(p)
    case EndRenderPass(p) => Gpu.EndRenderPass(p)
    case SetPipeline(p) => Gpu.SetPipeline(p)
    case SetVertexBuffer(b, i) => Gpu.SetVertexBuffer(b, i)
    case SetIndexBuffer(b) => Gpu.SetIndexBuffer(b)
    case SetInstanceBufferOffset(b, o) => Gpu.SetInstanceBufferOffset(b, o)
    case SetTexture(t, i) => Gpu.SetTexture(t, i)
    case SetUniformBuffer(b, i) => Gpu.SetUniformBuffer(b, i)
    case DrawIndexedInstanced(n, k, f) => Gpu.DrawIndexedInstanced(n, k, f)
    case DrawInstanced(n, k, f) => Gpu.DrawInstanced(n, k, f)
    case WaitFence(f) => Gpu.WaitForFence(f)
    case SignalFence(f) => Gpu.SignalFence(f)
  }

  /** The command, if any, whose execution is this device call. */
  function CommandOf(call: Gpu.DeviceCall): Option<Command> {
    match call
    case SetViewport(x, y, w, h) => Some(Viewport(x, y, w, h))
    case BeginRenderPass(p) => Some(BeginRenderPass(p))
    case EndRenderPass(p) => Some(EndRenderPass(p))
    case SetPipeline(p) => Some(SetPipeline(p))
    case SetVertexBuffer(b, i) => Some(SetVertexBuffer(b, i))
    case SetIndexBuffer(b) => Some(SetIndexBuffer(b))
    case SetInstanceBufferOffset(b, o) => Some(SetInstanceBufferOffset(b, o))
    case SetTexture(t, i) => Some(SetTexture(t, i))
    case SetUniformBuffer(b, i) => Some(SetUniformBuffer(b, i))
    case DrawIndexedInstanced(n, k, f) => Some(DrawIndexedInstanced(n, k, f))
    case DrawInstanced(n, k, f) => Some(DrawInstanced(n, k, f))
    case WaitForFence(f) => Some(WaitFence(f))
    case SignalFence(f) => Some(SignalFence(f))
    case _ => None
  }

  /** Execution loses nothing: the command is recoverable from its device call, and vice versa. */
  lemma ExecuteRoundTrip(c: Command, call: Gpu.DeviceCall)
    ensures CommandOf(Execute(c)) == Some(c)
    ensures CommandOf(call).Some? ==> Execute(CommandOf(call).value) == call
  {
    match c
    case Viewport(_, _, _, _) =>
    case BeginRenderPass(_) =>
    case EndRenderPass(_) =>
    case SetPipeline(_) =>
    case SetVertexBuffer(_, _) =>
    case SetIndexBuffer(_) =>
    case SetInstanceBufferOffset(_, _) =>
    case SetTexture(_, _) =>
    case SetUniformBuffer(_, _) =>
    case DrawIndexedInstanced(_, _, _) =>
    case DrawInstanced(_, _, _) =>
    case WaitFence(_) =>
    case SignalFence(_) =>
  }

  /** Hence two different commands never produce the same device call. */
  lemma ExecuteInjective(c1: Command, c2: Command)
    ensures Execute(c1) == Execute(c2) ==> c1 == c2
  {
    ExecuteRoundTrip(c1, Execute(c1));
    ExecuteRoundTrip(c2, Execute(c2));
  }

  /** Commands never execute as frame, creation or destruction calls. */
  lemma ExecuteIsDispatchOnly(c: Command)
    ensures !Execute(c).BeginFrame? && !Execute(c).EndFrame? && !Execute(c).CreateRenderPass?
    ensures !Execute(c).DestroyBuffer?
    ensures Execute(c).DrawIndexedInstanced? || Execute(c).DrawInstanced? <==> c.IsDraw()
  {
  }

  /** The validity table, variant by variant, for the buffer, viewport and draw commands. */
  lemma ValidityTable(x: int, y: int, w: int, h: int, b: Buffer, i: int, n: int, k: int, f: int)
    ensures IsValid(Viewport(x, y, w, h)) <==> w > 0 && h > 0
    ensures IsValid(SetVertexBuffer(b, i)) <==> b.usage in {Vertex, Instance}
    ensures IsValid(SetIndexBuffer(b)) <==> b.usage == Index
    ensures IsValid(SetUniformBuffer(b, i)) <==> b.usage == Uniform
    ensures IsValid(SetInstanceBufferOffset(b, i)) <==> 0 <= i < b.size
    ensures IsValid(DrawIndexedInstanced(n, k, f)) <==> n > 0 && k > 0
    ensures IsValid(DrawInstanced(n, k, f)) <==> n > 0 && k > 0
  {
  }

  /** The variants without an override accept every argument. */
  lemma UnconditionallyValid(c: Command)
    requires c.EndRenderPass? || c.SetPipeline? || c.SetTexture? || c.WaitFence? || c.SignalFence?
    ensures IsValid(c)
  {
  }
}
