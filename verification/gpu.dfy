/**
 * The device capability interface (Plywood.Graphics.Core/IPwGraphicsDevice.cs),
 * reduced to what the core observes: an append-only trace of the calls it
 * makes, and a counter that hands out fresh ids for the objects the device
 * creates.  Native handles and real GPU work are not modelled.
 */
module Gpu {
  import opened Buffers
  import opened Textures
  import opened RenderPasses
  import opened Fences

  type PipelineId = nat

  datatype DeviceCall =
    | BeginFrame
    | EndFrame
    | CreateRenderPass(descriptor: RenderPassDescriptor)
    | CreateVertexBufferRaw(size: int, flags: BufferFlags)
    | CreateIndexBufferRaw(size: int, flags: BufferFlags)
    | CreateUniformBufferRaw(size: int, flags: BufferFlags)
    | CreateInstanceBufferRaw(size: int, flags: BufferFlags)
    | CreateVertexBuffer(data: seq<int>)
    | CreateIndexBuffer(indices: seq<int>)
    | CreateUniformBuffer(value: int)
    | DestroyBuffer(buffer: Buffer)
    | SetViewport(x: int, y: int, width: int, height: int)
    | BeginRenderPass(pass: RenderPass)
    | EndRenderPass(pass: RenderPass)
    | SetPipeline(pipeline: PipelineId)
    | SetVertexBuffer(buffer: Buffer, bindingIndex: int)
    | SetIndexBuffer(buffer: Buffer)
    | SetInstanceBufferOffset(buffer: Buffer, offset: int)
    | SetTexture(texture: TextureId, bindingIndex: int)
    | SetUniformBuffer(buffer: Buffer, bindingIndex: int)
    | DrawIndexedInstanced(indexCount: int, instanceCount: int, firstIndex: int)
    | DrawInstanced(vertexCount: int, instanceCount: int, firstVertex: int)
    | WaitForFence(fence: FenceId)
    | SignalFence(fence: FenceId)

  datatype Device = Device(trace: seq<DeviceCall>, nextId: nat)

  const NewDevice := Device([], 0)

  /** Whether the backend returns normally from a call (false: it throws). */
  type Backend = DeviceCall -> bool

  function Issue(d: Device, call: DeviceCall): (r: Device)
    ensures r.trace == d.trace + [call] && r.nextId == d.nextId
  {
    d.(trace := d.trace + [call])
  }

  /** The device materialises a pass that carries the descriptor it was given. */
  function MakeRenderPass(d: Device, descriptor: RenderPassDescriptor): (r: (Device, RenderPass))
    ensures r.0.trace == d.trace + [CreateRenderPass(descriptor)]
    ensures r.1 == RenderPass(d.nextId, descriptor) && r.0.nextId == d.nextId + 1
  {
    (Device(d.trace + [CreateRenderPass(descriptor)], d.nextId + 1), RenderPass(d.nextId, descriptor))
  }

  /** The device mints a buffer of the requested size and usage under a fresh id. */
  function MintBuffer(d: Device, call: DeviceCall, size: int, usage: BufferUsage): (r: (Device, Buffer))
    ensures r.0.trace == d.trace + [call]
    ensures r.1 == Buffer(d.nextId, size, usage) && r.0.nextId == d.nextId + 1
  {
    (Device(d.trace + [call], d.nextId + 1), Buffer(d.nextId, size, usage))
  }
}
