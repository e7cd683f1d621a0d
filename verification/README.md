# Plywood.Graphics core, modelled in Dafny

Plywood.Graphics is a small C# rendering layer. It sits between a renderer and a platform GPU
backend. This project models the sequential rules it applies on the way, and proves properties
of them:

- **Commands and the command encoder.** `Commands` has one constructor per command class, its
  validity predicate, and the device call it performs. `CommandEncoder` is the Idle /
  Recording / Recording-in-pass state machine. It keeps a filtered, append-only command list. On
  `End` it closes an open pass and dispatches the list to the device in order; the first call
  that throws stops the rest.
- **The device.** `Gpu` is the device interface, reduced to an append-only trace of the calls
  the core makes plus a counter that hands out fresh ids. Whether the backend throws on a call
  is a parameter (`Backend`) of the frame's dispatch only (`Dispatch` and `End`); every other
  device call returns normally in this model.
- **The buffer pool and frame counter.** `BufferPool` keeps exact-key FIFO queues plus a
  buffer→info map. It supports rent, return and age-based cleanup. `FrameCounter` is the global
  frame clock.
- **Textures, render passes and fences.** `Textures` covers the mip-chain memory estimate.
  `RenderPasses` covers descriptor validity and defaults. `Fences` covers the signalled flag
  across waits and resets.
- **Vertex layouts.** `VertexFormats` holds the type→format, format→size and alignment tables.
  `VertexDescriptors` derives a layout from a vertex type's fields and caches it. A type's fields
  are given as an explicit list of (field type, optional vertex tag) rather than by reflection.
  `PipelineJson` converts a pipeline's JSON form into a descriptor; `Pipelines` holds the
  pipeline state records.
- **The memory manager** (`MemoryManagers`). It models two's-complement alignment rounding, the
  optimised-stride choice, the per-usage creation guards and the requirements cache.
- **The performance profiler** (`Profilers`). It models named sections, the open-section stack,
  call counters and metrics. Stopwatch readings are parameters.
- **The culling system** (`Culling`, with `Lists`). It models box/plane tests over `real`, the
  positive-vertex choice, the draw-distance filter and the sort by distance.
- **The primitive generator** (`Primitives`). It models the index lists and vertex counts of the
  cube, sphere and cylinder.

Errors are values. `Result`/`Option` live in `Common`, and each C# exception is one `Error`
constructor. An operation that changes state before it throws returns an outcome record. That
record holds the state afterwards and the error: `RentOutcome`, `EndOutcome` and
`MemoryManagers.Outcome`.

## Model

| member | source | states |
|---|---|---|
| Commands.ExecuteRoundTrip | Plywood.Graphics.Core/PwCommand.cs:49-324 | Every command executes as exactly one device call carrying the same arguments, and the command can be read back from that call. |
| Commands.ExecuteInjective | Plywood.Graphics.Core/PwCommand.cs:49-324 | Two different commands never make the same device call. |
| Commands.ExecuteIsDispatchOnly | Plywood.Graphics.Core/PwCommand.cs:49-324 | Executing a command never begins or ends a frame, creates a pass or destroys a buffer. It issues a draw call exactly when the command is a draw. |
| Commands.ValidityTable | Plywood.Graphics.Core/PwCommand.cs:54-288 | Viewport is valid iff width and height are positive. Vertex buffers need Vertex or Instance usage, index buffers Index, uniform buffers Uniform. An instance offset must lie in [0, size). Both draws need a positive count and a positive instance count. |
| Commands.UnconditionallyValid | Plywood.Graphics.Core/PwCommand.cs:28 | EndRenderPass, SetPipeline, SetTexture, WaitFence and SignalFence have no validity check. |
| CommandEncoder.NewEncoderInv | Plywood.Graphics.Core/PwCommandEncoder.cs:34-38 | A new encoder is idle, with an empty, well-nested command list. |
| CommandEncoder.Begin | Plywood.Graphics.Core/PwCommandEncoder.cs:44-58 | Begin throws iff the encoder is already recording, and then nothing changes. Otherwise the list is emptied, pass and pipeline are cleared, recording starts, the device begins a frame, and the frame counter advances by exactly one. |
| CommandEncoder.Dispatch | Plywood.Graphics.Core/PwCommandEncoder.cs:385-400 | Commands are executed in list order. Every call before the last one issued succeeded. With no failure every command was issued; after a failure, the last call issued is the one that threw. |
| CommandEncoder.DispatchFailsIffSomeCallThrows | Plywood.Graphics.Core/PwCommandEncoder.cs:385-400 | Dispatch fails exactly when some recorded command's device call throws. |
| CommandEncoder.CloseOpenPass | Plywood.Graphics.Core/PwCommandEncoder.cs:70-73 | An open pass is closed by appending its EndRenderPass; with no open pass nothing changes. Nothing else in the encoder changes. |
| CommandEncoder.End | Plywood.Graphics.Core/PwCommandEncoder.cs:64-80 | End throws NotRecording iff the encoder is idle, and changes nothing then. Otherwise the open pass is closed and the list dispatched in order. End succeeds iff no command's call throws and the device's EndFrame returns. The device trace gains exactly the calls issued up to the first throwing one, then EndFrame unless a command threw. A success stops recording; a throw leaves the encoder recording. |
| CommandEncoder.FailedEndBlocksBegin | Plywood.Graphics.Core/PwCommandEncoder.cs:44-80 | After an End that threw, the next Begin throws AlreadyRecording. |
| CommandEncoder.EmptyFrameHasNoPasses | Plywood.Graphics.Core/PwCommandEncoder.cs:44-80 | A Begin followed directly by End executes an empty list. |
| CommandEncoder.SetDebugLabel | Plywood.Graphics.Core/PwCommandEncoder.cs:87-90 | The label is set, a null label resets it to the default, and nothing else changes. |
| CommandEncoder.SetViewport | Plywood.Graphics.Core/PwCommandEncoder.cs:101-108 | SetViewport throws iff not recording. A valid viewport is appended and an invalid one is silently dropped. No open pass is needed. Nothing but the command list changes. |
| CommandEncoder.OpenPass | Plywood.Graphics.Core/PwCommandEncoder.cs:119-136 | Opening a pass throws NotRecording when idle and PassAlreadyActive when a pass is open. Otherwise the device creates the pass, one BeginRenderPass is appended, and the pass becomes current. |
| CommandEncoder.BeginRenderPass | Plywood.Graphics.Core/PwCommandEncoder.cs:119-136 | BeginRenderPass opens a pass whose colour target is the given texture. |
| CommandEncoder.BeginMainRenderPass | Plywood.Graphics.Core/PwCommandEncoder.cs:141-158 | The main pass is appended unchecked, although its target-less descriptor makes the command invalid. |
| CommandEncoder.EndRenderPass | Plywood.Graphics.Core/PwCommandEncoder.cs:163-172 | EndRenderPass throws NotRecording or NoActivePass. Otherwise it appends one EndRenderPass for the current pass and clears it. The pipeline, the label and the recording flag are unchanged. |
| CommandEncoder.SetPipeline | Plywood.Graphics.Core/PwCommandEncoder.cs:182-191 | SetPipeline throws when idle or given null. Otherwise it appends the command and remembers the pipeline; the pass and the recording flag are unchanged. The label is unchanged as well. |
| CommandEncoder.SetVertexBuffer | Plywood.Graphics.Core/PwCommandEncoder.cs:202-214 | SetVertexBuffer throws when idle or given null. The command is appended only if it is valid, and nothing but the command list changes. |
| CommandEncoder.SetIndexBuffer | Plywood.Graphics.Core/PwCommandEncoder.cs:220-232 | As SetVertexBuffer, for the index-buffer command (valid for index buffers only). |
| CommandEncoder.SetInstanceBuffer | Plywood.Graphics.Core/PwCommandEncoder.cs:239-251 | SetInstanceBuffer records exactly what SetVertexBuffer would record. |
| CommandEncoder.SetInstanceBufferOffset | Plywood.Graphics.Core/PwCommandEncoder.cs:258-270 | As SetVertexBuffer, for the offset command; an offset outside the buffer is dropped. |
| CommandEncoder.SetUniformBuffer | Plywood.Graphics.Core/PwCommandEncoder.cs:292-304 | As SetVertexBuffer, for the uniform-buffer command. |
| CommandEncoder.SetTexture | Plywood.Graphics.Core/PwCommandEncoder.cs:277-285 | SetTexture throws when idle or given null. Otherwise it always appends, and nothing but the command list changes. |
| CommandEncoder.WaitForFence | Plywood.Graphics.Core/PwCommandEncoder.cs:354-362 | WaitForFence throws when idle or given null. Otherwise it appends the wait, and nothing but the command list changes. |
| CommandEncoder.SignalFence | Plywood.Graphics.Core/PwCommandEncoder.cs:368-376 | SignalFence throws when idle or given null. Otherwise it appends the signal, and nothing but the command list changes. |
| CommandEncoder.RecordDraw | Plywood.Graphics.Core/PwCommandEncoder.cs:316-344 | A draw throws NotRecording when idle and NoPassForDraw outside a pass. Otherwise it is appended only if valid. |
| CommandEncoder.DrawIndexedInstanced | Plywood.Graphics.Core/PwCommandEncoder.cs:316-326 | An indexed draw throws NotRecording when idle and NoPassForDraw without an open pass. A non-positive count is dropped. Nothing but the command list changes. |
| CommandEncoder.DrawInstanced | Plywood.Graphics.Core/PwCommandEncoder.cs:334-344 | A non-indexed draw throws NotRecording when idle and NoPassForDraw without an open pass. A non-positive count is dropped. Nothing but the command list changes. |
| CommandEncoder.DrawCount | Plywood.Graphics.Core/PwCommandEncoder.cs:444 | The draw count is zero iff the list has no draw, and equals the length iff every entry is a draw. |
| CommandEncoder.DrawCommandCount | Plywood.Graphics.Core/PwCommandEncoder.cs:439-444 | The draw count never exceeds CommandCount. |
| CommandEncoder.ClearCommands | Plywood.Graphics.Core/PwCommandEncoder.cs:459-464 | ClearCommands throws iff recording. Otherwise the list is empty afterwards and the pass, pipeline and label are unchanged. |
| CommandEncoder.ScanBalancesPasses | Plywood.Graphics.Core/PwCommandEncoder.cs:119-172 | In a well-nested list the begin-pass commands outnumber the end-pass commands by one exactly when a pass is open, and equal them otherwise. |
| CommandEncoder.ScanPrefix | Plywood.Graphics.Core/PwCommandEncoder.cs:119-172 | Every prefix of a well-nested list is well nested, so begin and end strictly alternate, starting with begin. |
| CommandEncoder.DrawsInsidePasses | Plywood.Graphics.Core/PwCommandEncoder.cs:316-344 | In a well-nested list every draw lies inside an open pass. |
| CommandEncoder.EndedFrameIsBalanced | Plywood.Graphics.Core/PwCommandEncoder.cs:64-80 | After a successful End the list holds equally many begin-pass and end-pass commands. |
| CommandEncoder.ApplyPreservesInv | Plywood.Graphics.Core/PwCommandEncoder.cs:44-376 | Every public encoder operation, successful or not, keeps three things: the list is well nested, a pass is only open while recording, and no command that failed its check was kept. |
| CommandEncoder.RunPreservesInv | Plywood.Graphics.Core/PwCommandEncoder.cs:44-376 | Any sequence of encoder operations keeps the invariant. |
| CommandEncoder.RunExtendsTrace | Plywood.Graphics.Core/PwCommandEncoder.cs:44-376 | The device trace only grows: earlier calls are never rewritten. |
| Fences.NewFence | Plywood.Graphics.Core/PwFence.cs:23-28 | A new fence is unsignalled. |
| Fences.Wait | Plywood.Graphics.Core/PwFence.cs:33-40 | A blocking wait leaves the fence signalled. It calls the backend only if the fence was unsignalled. |
| Fences.WaitWithTimeout | Plywood.Graphics.Core/PwFence.cs:47-57 | A signalled fence returns true without the backend. Otherwise the backend's answer is returned and becomes the signalled flag. The result always equals the flag afterwards. |
| Fences.Reset | Plywood.Graphics.Core/PwFence.cs:62-66 | Reset always leaves the fence unsignalled. |
| Fences.WaitsAreIdempotent | Plywood.Graphics.Core/PwFence.cs:33-57 | A second blocking wait, or a timed wait after a successful one, makes no backend call. |
| Fences.ResetThenTimeout | Plywood.Graphics.Core/PwFence.cs:47-66 | After Reset, a timed wait whose backend times out calls the backend, returns false, and leaves the fence unsignalled. |
| FrameCounter.Increment | Plywood.Graphics.Core/PwFrameCounter.cs:33-38 | Increment raises the frame number by exactly one. |
| FrameCounter.Reset | Plywood.Graphics.Core/PwFrameCounter.cs:43-48 | Reset brings the frame number back to 0. |
| FrameCounter.ElapsedFrames | Plywood.Graphics.Core/PwFrameCounter.cs:55-58 | Elapsed frames are max(0, current − from), never negative. |
| FrameCounter.RunWithoutResetAdvances | Plywood.Graphics.Core/PwFrameCounter.cs:20-38 | Between resets the frame number grows by one per increment and never decreases. |
| FrameCounter.StampAgeIsIncrementCount | Plywood.Graphics.Core/PwFrameCounter.cs:33-58 | A frame stamp's age is the number of increments since it was taken. |
| FrameCounter.RunEndingInResetRestarts | Plywood.Graphics.Core/PwFrameCounter.cs:43-48 | Whatever came before, a reset leaves frame 0. |
| RenderPasses.ValidIffSomeTarget | Plywood.Graphics.Core/PwRenderPass.cs:37-68 | A descriptor is valid iff it has a colour or depth target. The default one has neither and is invalid; setting either target makes it valid. |
| Textures.NewTexture | Plywood.Graphics.Core/PwTexture.cs:38-46 | A new texture has one mip level and shader-read usage. |
| Textures.BytesPerPixel | Plywood.Graphics.Core/PwTexture.cs:71-81 | Bytes per pixel are 3 exactly for RGB8 and 4 for the other formats. |
| Textures.CalculateMemoryUsage | Plywood.Graphics.Core/PwTexture.cs:52-66 | The loop computes the mip-chain sum, in which each level counts max(1, W>>mip)·max(1, H>>mip)·bpp. The total is at least levels·bpp. |
| Textures.MipBytesAtLeastOnePixel | Plywood.Graphics.Core/PwTexture.cs:60-62 | Every mip level costs at least one pixel. |
| Textures.MipChainLowerBound | Plywood.Graphics.Core/PwTexture.cs:58-63 | A chain of n levels costs at least n·bpp. |
| Textures.MipChainGrows | Plywood.Graphics.Core/PwTexture.cs:58-63 | Adding a level strictly increases the total. |
| Textures.FreshTextureUsage | Plywood.Graphics.Core/PwTexture.cs:38-66 | A new texture of positive size uses W·H·bpp bytes. |
| VertexFormats.FormatFromType | Plywood.Graphics.Core/PwVertexFormatHelper.cs:16-47 | The ten supported field types map to their formats; any other type throws UnsupportedFieldType. |
| VertexFormats.SizeInBytes | Plywood.Graphics.Core/PwVertexFormatHelper.cs:55-71 | The ten table formats have a size, which is positive and a multiple of 4. The other formats throw. |
| VertexFormats.Alignment | Plywood.Graphics.Core/PwVertexFormatHelper.cs:79-90 | The alignment is total and is one of 4, 8 or 16. |
| VertexFormats.SizedIffProduced | Plywood.Graphics.Core/PwVertexFormatHelper.cs:16-71 | A format has a size iff some supported field type produces it. |
| VertexFormats.SupportedTypeHasSize | Plywood.Graphics.Core/PwVertexFormatHelper.cs:16-71 | Looking up the size of a supported type's format never throws. |
| VertexFormats.FormatFromTypeInjective | Plywood.Graphics.Core/PwVertexFormatHelper.cs:16-33 | No two field types share a format. |
| VertexFormats.AlignmentDividesSize | Plywood.Graphics.Core/PwVertexFormatHelper.cs:55-90 | For every sized format the alignment divides the size. |
| VertexDescriptors.Tagged | Plywood.Graphics.Core/PwVertexDescriptor.cs:77-78 | The fields that take part in the layout are the tagged ones, in field order. |
| VertexDescriptors.UntaggedFieldIsSkipped | Plywood.Graphics.Core/PwVertexDescriptor.cs:77-78 | An untagged field adds nothing to the attributes, the offsets or the stride. |
| VertexDescriptors.UnsupportedIsTagged | Plywood.Graphics.Core/PwVertexDescriptor.cs:77-81 | A layout fails on a field type exactly when a tagged field has an unsupported type. |
| VertexDescriptors.CreateFromTypeInternal | Plywood.Graphics.Core/PwVertexDescriptor.cs:61-103 | A type that is not vertex data throws NotVertexData. An unsupported tagged field throws UnsupportedFieldType, and no partial layout is returned. Otherwise the result is the reference layout. |
| VertexDescriptors.LayoutFields | Plywood.Graphics.Core/PwVertexDescriptor.cs:67-103 | The loop builds exactly the reference layout of the tagged fields, with binding index 0. |
| VertexDescriptors.WalkIsLayout | Plywood.Graphics.Core/PwVertexDescriptor.cs:74-103 | The field-by-field fold equals the reference layout whenever it succeeds. |
| VertexDescriptors.LayoutAttributeAt | Plywood.Graphics.Core/PwVertexDescriptor.cs:85-95 | The k-th attribute's offset is the sum of the sizes before it, and its size is its format's positive size. |
| VertexDescriptors.LayoutAttribute | Plywood.Graphics.Core/PwVertexDescriptor.cs:85-95 | In a derived descriptor, attribute k starts at the summed size of the earlier tagged fields. |
| VertexDescriptors.LayoutIsPacked | Plywood.Graphics.Core/PwVertexDescriptor.cs:85-95 | Attributes are tightly packed with strictly increasing offsets. |
| VertexDescriptors.StrideEndsLastAttribute | Plywood.Graphics.Core/PwVertexDescriptor.cs:95-103 | The stride is where the last attribute ends. |
| VertexDescriptors.SampleVertexLayout | Plywood.Graphics.Sample/Vertex.cs:8-18 | The sample vertex gets offsets 0, 12, 24, 32 and stride 48. |
| VertexDescriptors.SampleInstanceDataLayout | Plywood.Graphics.Sample/Vertex.cs:31-38 | The sample instance data gets offsets 0, 64, 80 and stride 84. |
| VertexDescriptors.GetOrCreate | Plywood.Graphics.Core/PwVertexDescriptor.cs:124-127 | A cached type returns its stored descriptor. A new type is derived, and cached only when derivation succeeds. |
| VertexDescriptors.SetBindingIndex | Plywood.Graphics.Core/PwRenderer.cs:72-76 | A caller's binding-index assignment changes the shared cached descriptor and nothing else. |
| VertexDescriptors.ClearCache | Plywood.Graphics.Core/PwVertexDescriptor.cs:132-135 | Clearing leaves no type cached. |
| VertexDescriptors.SharedDescriptorIsMutated | Plywood.Graphics.Core/PwRenderer.cs:72-76 | After a caller sets binding index 1 on the shared descriptor, the next lookup sees 1. After ClearCache the lookup sees a fresh descriptor with index 0. |
| PipelineJson.NamesRoundTrip | Plywood.Graphics.Core/PwPipelineDescriptorJson.cs:43-193 | Parsing an enum value's own name gives back that value, for all nine enums. |
| PipelineJson.MapAll | Plywood.Graphics.Core/PwPipelineDescriptorJson.cs:39-44 | A list converts element by element in order, and the first failing element's error is the result. |
| PipelineJson.ToAttributeDescriptor | Plywood.Graphics.Core/PwPipelineDescriptorJson.cs:98-107 | The conversion succeeds iff the semantic and format names parse and the format has a size. Semantic and format are then the named values. Index and offset are copied, and the size is the helper's. |
| PipelineJson.JsonSizeAgreesWithHelper | Plywood.Graphics.Core/PwPipelineDescriptorJson.cs:70-81 | The JSON name→size table agrees with the format helper on every format the helper sizes. |
| PipelineJson.ToVertexDescriptor | Plywood.Graphics.Core/PwPipelineDescriptorJson.cs:60-67 | Attributes keep their JSON order and the binding index is copied. A null or empty list gives stride 0. |
| PipelineJson.StrideIsLastEnd | Plywood.Graphics.Core/PwPipelineDescriptorJson.cs:66 | Whenever the conversion succeeds, the stride is the last attribute's offset plus its size. |
| PipelineJson.PackedStrideIsSum | Plywood.Graphics.Core/PwPipelineDescriptorJson.cs:66 | For tightly packed attributes the JSON stride equals the summed size. |
| PipelineJson.GapMakesStrideDifferFromSum | Plywood.Graphics.Core/PwPipelineDescriptorJson.cs:66 | With a gap, the JSON stride differs from the summed size: one Float at offset 16 gives 20, not 4. |
| PipelineJson.ToBlendState | Plywood.Graphics.Core/PwPipelineDescriptorJson.cs:125-134 | The conversion succeeds iff all three names parse; the flag is copied and the names are the values'. |
| PipelineJson.ToDepthStencilState | Plywood.Graphics.Core/PwPipelineDescriptorJson.cs:148-156 | The conversion succeeds iff the comparison parses; both flags are copied. |
| PipelineJson.ToRasterizerState | Plywood.Graphics.Core/PwPipelineDescriptorJson.cs:170-178 | The conversion succeeds iff both mode names parse; the scissor flag is copied. |
| PipelineJson.ToRenderTargetFormat | Plywood.Graphics.Core/PwPipelineDescriptorJson.cs:189-196 | The conversion succeeds iff the format parses; the index is copied. |
| PipelineJson.ToPipelineDescriptor | Plywood.Graphics.Core/PwPipelineDescriptorJson.cs:35-46 | Missing state sections become their defaults and a missing topology becomes TriangleList. Missing lists become empty, present lists keep their length, and an all-missing JSON gives the default descriptor. Every present section is the value its own converter gives, element by element for the lists, and a present topology is the one its name parses to. |
| PipelineJson.NameUniformsTexturesIgnored | Plywood.Graphics.Core/PwPipelineDescriptorJson.cs:8-46 | The result does not depend on the name, the uniforms or the textures. |
| PipelineJson.PipelineConvertsIffSectionsConvert | Plywood.Graphics.Core/PwPipelineDescriptorJson.cs:35-46 | A pipeline converts iff every present section converts. |
| MemoryManagers.AlignRoundsUp | Plywood.Graphics.Core/PwMemoryManager.cs:200-203 | For a power-of-two alignment and a size ≥ 0, the result is a multiple of the alignment in [size, size + alignment). |
| MemoryManagers.AlignIsLeastMultiple | Plywood.Graphics.Core/PwMemoryManager.cs:200-203 | No smaller multiple of the alignment reaches the size. |
| MemoryManagers.AlignKeepsMultiples | Plywood.Graphics.Core/PwMemoryManager.cs:200-203 | A size that is already aligned is kept. |
| MemoryManagers.AlignNeedsPowerOfTwo | Plywood.Graphics.Core/PwMemoryManager.cs:200-203 | Without a power of two the formula does not round: aligning 1 to 3 gives 1. |
| MemoryManagers.OptimizedStrideCoversStride | Plywood.Graphics.Core/PwMemoryManager.cs:191-197 | The optimised stride is at least the descriptor stride and at least the minimum alignment. |
| MemoryManagers.AlignedStrideIsKept | Plywood.Graphics.Core/PwMemoryManager.cs:191-197 | An aligned stride that meets the minimum is left unchanged. |
| MemoryManagers.RestructureVertexData | Plywood.Graphics.Core/PwMemoryManager.cs:140-181 | The elements are always the caller's. A new array is made exactly when the optimised stride differs. |
| MemoryManagers.MemoryTypeFor | Plywood.Graphics.Core/PwMemoryManager.cs:214-221 | Index usage asks for index memory and uniform usage for uniform memory. Every other usage asks for vertex memory. |
| MemoryManagers.GetOrCreateRequirements | Plywood.Graphics.Core/PwMemoryManager.cs:206-227 | The cache is keyed by element type alone. A cached type returns its stored entry. A new type is queried, tagged with its usage's memory type, and cached. |
| MemoryManagers.FirstUsageFixesMemoryType | Plywood.Graphics.Core/PwMemoryManager.cs:206-227 | The first usage of a type fixes its memory type for every later usage. |
| MemoryManagers.IndexAfterVertexGetsVertexMemory | Plywood.Graphics.Core/PwMemoryManager.cs:206-227 | Index data of a type first used as vertices is given vertex memory. |
| MemoryManagers.IndexData | Plywood.Graphics.Core/PwMemoryManager.cs:92-111 | ushort indices pass through and uint indices are cut to their low 16 bits. Other types throw. |
| MemoryManagers.UIntIndicesWrap | Plywood.Graphics.Core/PwMemoryManager.cs:100-105 | uint indices below 65536 are kept; 65536 and 65537 become 0 and 1. |
| MemoryManagers.CreateVertexBufferByReflection | Plywood.Graphics.Core/PwMemoryManager.cs:75-89 | The reflective call succeeds exactly when the runtime type satisfies `CreateVertexBuffer`'s `struct, IPwVertexData` constraint; then one vertex buffer is created from the data, otherwise it throws before the device is called. |
| MemoryManagers.CastArrayElementType | Plywood.Graphics.Core/PwMemoryManager.cs:59-67 | The array built by the cast to `IPwVertexData` has the interface as its element type, which never satisfies the constraint. |
| MemoryManagers.CreateOptimizedBuffer | Plywood.Graphics.Core/PwMemoryManager.cs:44-137 | Corrected version (the vertex path binds the caller's element type). The type is cached first. Creation succeeds iff the usage's guard holds, which makes exactly one device creation call. On failure the device is untouched and the usage's error is thrown. |
| MemoryManagers.CreateOptimizedBufferAsWritten | Plywood.Graphics.Core/PwMemoryManager.cs:44-89 | As written: the type is cached first, and index, uniform and unnamed usages behave as in the corrected version. |
| MemoryManagers.VertexRequestsFailAsWritten | Plywood.Graphics.Core/PwMemoryManager.cs:59-89 | As written, every vertex or instance request throws without a device call: vertex data at the reflective binding, anything else at the guard. The type is still cached. |
| MemoryManagers.VertexRequestsSucceedCorrected | Plywood.Graphics.Core/PwMemoryManager.cs:59-89 | Binding the caller's element type, every vertex or instance request with vertex data creates exactly one vertex buffer, where the as-written version throws. |
| MemoryManagers.FailedCreationStillCaches | Plywood.Graphics.Core/PwMemoryManager.cs:44-56 | A creation that throws still leaves its type cached. |
| MemoryManagers.CreateOptimizedVertexBuffer | Plywood.Graphics.Core/PwMemoryManager.cs:34-41 | The vertex path caches requirements and the layout, then creates one vertex buffer from the caller's data. An unsupported field throws before the device is called. |
| MemoryManagers.GetMemoryUsage | Plywood.Graphics.Core/PwMemoryManager.cs:230-237 | Both statistics fields equal the number of cached types. |
| MemoryManagers.UsageCountsCachedTypes | Plywood.Graphics.Core/PwMemoryManager.cs:206-243 | A lookup of a new type adds one entry, and ClearCache brings the count to zero. |
| BufferPool.EmptyPoolInv | Plywood.Graphics.Core/PwBufferPool.cs:13-18 | A new pool satisfies the pool invariant. |
| BufferPool.RawCreateCall | Plywood.Graphics.Core/PwBufferPool.cs:85-95 | Each named usage picks its own raw creation call (vertex, index, uniform, instance), passing the size and flags through. |
| BufferPool.CreateNewBuffer | Plywood.Graphics.Core/PwBufferPool.cs:85-95 | The device receives exactly the usage's raw creation call and mints a buffer of the requested size and usage under a fresh id. Any other usage throws without a device call. |
| BufferPool.Rent | Plywood.Graphics.Core/PwBufferPool.cs:20-46 | A non-empty queue hands out its oldest buffer without a device call. An empty queue mints a buffer of the requested size and usage. Either way the buffer is marked in use at the current frame. A reused buffer keeps its creation frame; a new one is created and last used at the current frame, after exactly the usage's raw creation call. Every other tracking entry and every other key's queue are unchanged, and a throw leaves the tracking and the device as they were. |
| BufferPool.Return | Plywood.Graphics.Core/PwBufferPool.cs:48-57 | An untracked buffer is ignored. A tracked one is marked free and enqueued at the back of its recorded key's queue; other queues are unchanged. |
| BufferPool.RentPreservesInv | Plywood.Graphics.Core/PwBufferPool.cs:20-46 | Renting keeps the pool invariant: queued buffers are tracked, free and unique per queue, free buffers are queued, and tracked buffers match their keys. |
| BufferPool.ReturnPreservesInv | Plywood.Graphics.Core/PwBufferPool.cs:48-57 | Returning a buffer that is in use keeps the invariant. |
| BufferPool.RentMatchesRequest | Plywood.Graphics.Core/PwBufferPool.cs:20-46 | Under the invariant a rent fails only for an unnamed usage with an empty queue. Every rented buffer is recorded under the requested key and, given that the device mints buffers of the size and usage asked for, has that size and usage. |
| BufferPool.ReturnThenRentReuses | Plywood.Graphics.Core/PwBufferPool.cs:20-57 | A buffer returned to an empty queue is the next one rented for its key, with no device call. |
| BufferPool.DoubleReturnHandsOutTwice | Plywood.Graphics.Core/PwBufferPool.cs:48-57 | Return does not check that a buffer is in use. A double return queues it twice, and two rents hand it out twice. |
| BufferPool.CleanupAsWritten | Plywood.Graphics.Core/PwBufferPool.cs:59-83 | Cleanup as written untracks and destroys exactly the free buffers idle for more than the limit, but leaves every queue as it was. |
| BufferPool.CleanupLeavesDestroyedBufferQueued | Plywood.Graphics.Core/PwBufferPool.cs:28-82 | A concrete pool on which cleanup breaks the invariant. The next rent of that key fails its tracking lookup. |
| BufferPool.CleanupAndPurge | Plywood.Graphics.Core/PwBufferPool.cs:59-83 | The corrected cleanup untracks and destroys the same buffers and also removes them from their queues. |
| BufferPool.CleanupAndPurgePreservesInv | Plywood.Graphics.Core/PwBufferPool.cs:59-83 | The corrected cleanup keeps the pool invariant. |
| BufferPool.RentAfterPurgeNeverMissesInfo | Plywood.Graphics.Core/PwBufferPool.cs:20-83 | After the corrected cleanup no rent fails for lack of a tracking entry. |
| BufferPool.CleanupDestroysExactlyStale | Plywood.Graphics.Core/PwBufferPool.cs:64-82 | A buffer is destroyed iff it is tracked, free and idle for more than the limit. In-use buffers are never destroyed. |
| Profilers.EndSection | Plywood.Graphics.Core/PwPerformanceProfiler.cs:130-136 | Ending a section counts one call, records the reading as the last time, and adds it to the total. |
| Profilers.ResetSection | Plywood.Graphics.Core/PwPerformanceProfiler.cs:138-143 | Reset zeroes every counter and keeps the name. |
| Profilers.AverageTime | Plywood.Graphics.Core/PwPerformanceProfiler.cs:117 | The average is 0 before the first call; otherwise it times the call count gives the total. |
| Profilers.EndEachAccumulates | Plywood.Graphics.Core/PwPerformanceProfiler.cs:130-136 | Ending a section once per reading adds one call per reading and adds their sum to the total. |
| Profilers.AverageOfEndedSection | Plywood.Graphics.Core/PwPerformanceProfiler.cs:117-136 | A section ended once per reading from zero counts the readings and averages them; with no readings the average is 0. |
| Profilers.NewProfilerInv | Plywood.Graphics.Core/PwPerformanceProfiler.cs:13-19 | A new profiler's sections are filed under their names and every open section is filed. |
| Profilers.BeginFrame | Plywood.Graphics.Core/PwPerformanceProfiler.cs:21-30 | BeginFrame zeroes every section's counters and keeps the section set, the stack and the metrics. |
| Profilers.BeginSection | Plywood.Graphics.Core/PwPerformanceProfiler.cs:41-53 | BeginSection creates a section for an unseen name and reuses a known one. It pushes the name; the other sections and the metrics are untouched. |
| Profilers.EndCurrentSection | Plywood.Graphics.Core/PwPerformanceProfiler.cs:55-62 | On an empty stack nothing happens. Otherwise exactly the top section is popped and ended, and every other section is unchanged. |
| Profilers.Dispose | Plywood.Graphics.Core/PwPerformanceProfiler.cs:146-158 | Disposing a scope ends the innermost open section, whichever scope it is. |
| Profilers.OuterScopeEndsInnerSection | Plywood.Graphics.Core/PwPerformanceProfiler.cs:41-62 | Disposing the outer of two nested scopes counts a call to the inner section, and the outer one stays open. |
| Profilers.BeginThenEndCountsOnce | Plywood.Graphics.Core/PwPerformanceProfiler.cs:41-62 | Opening then ending a section restores the stack and counts exactly one call. |
| Profilers.SetMetric | Plywood.Graphics.Core/PwPerformanceProfiler.cs:64-67 | SetMetric adds or overwrites one metric and leaves sections and stack alone. |
| Profilers.GetMetric | Plywood.Graphics.Core/PwPerformanceProfiler.cs:69-72 | A name never set reads 0. |
| Profilers.MetricReadsLastSet | Plywood.Graphics.Core/PwPerformanceProfiler.cs:64-72 | A metric reads back the last value set, and setting one leaves the others. |
| Profilers.GenerateReport | Plywood.Graphics.Core/PwPerformanceProfiler.cs:74-85 | The report reads frame time and FPS as metrics, lists every section, and copies the metrics. |
| Profilers.ReportMetricsSnapshotSectionsLive | Plywood.Graphics.Core/PwPerformanceProfiler.cs:74-85 | An issued report's metrics do not see a later SetMetric. Its sections are the live ones, which a BeginFrame zeroes. |
| Culling.IntersectsIsSymmetric | Plywood.Graphics.Sample/PwCullingSystem.cs:96-101 | Box overlap is symmetric. |
| Culling.IntersectsIffCommonPoint | Plywood.Graphics.Sample/PwCullingSystem.cs:96-101 | Two well-formed boxes overlap iff some point lies in both. |
| Culling.PositiveVertexMaximises | Plywood.Graphics.Sample/PwCullingSystem.cs:178-185 | The positive vertex maximises n·p over the box. |
| Culling.IntersectsBoundingBox | Plywood.Graphics.Sample/PwCullingSystem.cs:167-176 | A box is kept iff every plane accepts its positive vertex. |
| Culling.BoxWithInsidePointIsKept | Plywood.Graphics.Sample/PwCullingSystem.cs:167-185 | A box with a point on the non-negative side of every plane is never rejected, so the test is conservative. |
| Culling.ScaledPlaneGivesSameVerdict | Plywood.Graphics.Sample/PwCullingSystem.cs:167-185 | Scaling a plane by a positive factor, as normalisation does, changes neither the corner choice nor the verdict. |
| Culling.WithinDistanceMatchesRoot | Plywood.Graphics.Sample/PwCullingSystem.cs:55-56 | The squared-distance test agrees with the distance test. |
| Culling.VisibilityIgnoresOcclusionAndLod | Plywood.Graphics.Sample/PwCullingSystem.cs:47-80 | Occlusion culling and LOD never affect visibility. The position matters only through its distance to the camera: moving an object to a point at the same distance keeps its verdict. |
| Culling.RegisterObject | Plywood.Graphics.Sample/PwCullingSystem.cs:17-20 | Registering appends, allowing duplicates. |
| Culling.UnregisterObject | Plywood.Graphics.Sample/PwCullingSystem.cs:22-25 | Unregistering removes the first occurrence only; an absent object leaves the list unchanged. |
| Lists.RemoveFirst | Plywood.Graphics.Sample/PwCullingSystem.cs:22-25 | List removal drops the first occurrence and keeps the rest in order. |
| Culling.RegisterThenUnregister | Plywood.Graphics.Sample/PwCullingSystem.cs:17-25 | Register then unregister restores the objects as a multiset. It restores the exact list when the object was not registered before. |
| Culling.VisibleIn | Plywood.Graphics.Sample/PwCullingSystem.cs:31-41 | The filter keeps exactly the visible objects, with their multiplicity. |
| Lists.SortBy | Plywood.Graphics.Sample/PwCullingSystem.cs:61-69 | The sort returns a sorted permutation of its input. |
| Culling.SortByDistance | Plywood.Graphics.Sample/PwCullingSystem.cs:61-69 | The result is ascending by squared distance to the camera and is a permutation of its input. |
| Culling.CullObjects | Plywood.Graphics.Sample/PwCullingSystem.cs:27-45 | The result holds exactly the visible registered objects, with multiplicity, ascending by distance. It is also stored as the system's visible list. |
| Culling.CulledExactlyVisible | Plywood.Graphics.Sample/PwCullingSystem.cs:27-59 | A registered object is in the result iff it is visible. |
| Culling.CullingForgetsEarlierResult | Plywood.Graphics.Sample/PwCullingSystem.cs:27-45 | Each cull clears and refills the system's visible list, so its result does not depend on an earlier cull. |
| Primitives.GenerateCube | Plywood.Graphics.Sample/PrimitiveGenerator.cs:14-73 | The cube has 24 vertices and 36 indices; face f uses 4f, 4f+1, 4f+2, 4f, 4f+2, 4f+3. |
| Primitives.CubeIndicesCoverVertices | Plywood.Graphics.Sample/PrimitiveGenerator.cs:56-70 | Every cube index is below 24 and every vertex is used. No triangle repeats a vertex. |
| Primitives.GenerateSphere | Plywood.Graphics.Sample/PrimitiveGenerator.cs:75-122 | A negative vertex count throws. Otherwise there are (rings+1)(sectors+1) vertices, and the indices are the ring-by-ring quads cast to ushort. |
| Primitives.SphereRowsLength | Plywood.Graphics.Sample/PrimitiveGenerator.cs:102-119 | A sphere has 6·rings·sectors indices. |
| Primitives.SphereIndicesWellFormed | Plywood.Graphics.Sample/PrimitiveGenerator.cs:102-119 | Every sphere index is a vertex of the mesh, the last one is the last vertex, and no triangle is degenerate. Below 65536 vertices the cast loses nothing. |
| Primitives.GenerateCylinder | Plywood.Graphics.Sample/PrimitiveGenerator.cs:124-175 | A negative vertex count throws, and sectors = −2 fails writing vertex 0. Otherwise there are 2(sectors+1)+2 vertices and the side quads cast to ushort. |
| Primitives.CylinderIndicesWellFormed | Plywood.Graphics.Sample/PrimitiveGenerator.cs:156-172 | A cylinder has 6·sectors indices, all in [2, vertexCount); the cap centres are never used. The last index is the last vertex and no triangle is degenerate. |
| Primitives.SmallIndicesSurvive | Plywood.Graphics.Sample/PrimitiveGenerator.cs:62-69 | The ushort cast changes no index while every index is below 65536. |

## Left out

- Concurrency: the pool's concurrent collections and lock, and the frame counter's interlocked increment, are modelled as sequential updates.
- The GPU backend: native handles, real GPU work and platform objects. The device is a trace of calls plus an id counter. Whether a call throws is a `Backend` parameter only for the calls the encoder dispatches in `End`.
- Device calls outside the frame's dispatch never throw in this model, so the state they would leave behind after a throw is not modelled: `CreateRenderPass` in `BeginRenderPass`/`BeginMainRenderPass` (Plywood.Graphics.Core/PwCommandEncoder.cs:134, 156), the raw creation calls (Plywood.Graphics.Core/PwBufferPool.cs:89-92), `DestroyBuffer` during cleanup (line 80, which would leave the rest of the stale buffers tracked), the memory manager's `CreateVertexBuffer`/`CreateIndexBuffer`/`CreateUniformBuffer` (Plywood.Graphics.Core/PwMemoryManager.cs:40, 98, 105, 122) and `GetMemoryRequirements` (line 213).
- CommandEncoder.Begin: a throwing `device.BeginFrame` is not modelled; Begin always succeeds when idle.
- The encoder's protected `Execute*Command` hooks do nothing, and `GetDebugInfo` only formats a string; neither is modelled. `GetCommands` is the list itself.
- The console message written when a command throws during `ExecuteCommands`.
- `CreatedTime` and `Priority` on commands are never read.
- Every 32-bit width: texture byte sums, strides, offsets, counts and `Current`. The source's `int`/`long` overflow is not modelled; integers are unbounded. Only the `ushort` casts of indices and the 5-bit shift-count mask of `>>` are modelled exactly.
- `Enum.Parse` accepts numeric and comma-separated strings. Only exact names are modelled; anything else is `UnknownName`.
- Null array elements in the JSON lists. A null list is modelled; a null element inside one is not.
- Reflection. Field enumeration and attribute lookup are an explicit field list. Of the reflective vertex-buffer call in `CreateVertexBufferFromVertexData`, only the outcome of binding the generic constraint is modelled (see Findings).
- MemoryManagers.CreateOptimizedBuffer: the sizes of the buffers it mints (`|data|`, the index count, 1) are element counts. `PwBuffer.Size` is in bytes and is chosen by the device implementation, which is not part of this model.
- Textures.BytesPerPixel: `TextureFormat` has only the four named formats, so the `_ => 4` arm for an out-of-range enum value is not modelled.
- BufferPool.RentMatchesRequest: the device interface promises nothing about the size or usage of a buffer it creates. The model's device mints `Buffer(id, size, usage)` from the request, so the rented buffer's size and usage, and the pool invariant's conjunct that a tracked buffer matches its key, rest on that assumption. Only the recorded key comes from the pool itself.
- Profilers.BeginSection: section and metric names are strings that are never null, so the source's behaviour for a null name (an exception from the dictionary) is not modelled.
- Culling.CullObjects: the source returns its internal `visibleObjects` list itself, so a list a caller kept from an earlier cull is cleared and refilled by the next one. The model returns a fresh sequence and does not model that aliasing.
- Culling.UnregisterObject: `PwCullableObject` is a mutable class without `Equals`, so `List.Remove` finds the object by reference. Objects here are immutable values compared by value: of two distinct objects with equal fields, the model may remove the other one, and later changes to an object's fields through a shared reference are not modelled.
- The uniform and per-vertex "optimisation" hooks return their input and are modelled as identity.
- Floating point. The culling system and the profiler use `real`, so NaN, infinities and rounding are absent. A profiler section's total is the exact sum of its readings, and its average the exact mean, where the source's `float` accumulation rounds. The distance test is modelled in squared form, which the model proves equivalent for non-negative distances.
- Plane extraction from the view-projection matrix and its normalisation. Planes are an input; scaling a plane by a positive factor is proved not to change the verdict.
- Vertex positions, normals and texture coordinates of the primitives: they are trigonometry. Only vertex counts and index lists are modelled.
- `PwFrameCounter.DeltaTime`, `FrameRate` and the frame start time (floating point and the wall clock).
- `PwPerformanceProfiler.EndFrame` and `LogPerformance`. They need a stopwatch reading, a float division that may yield infinity, and console output.
- Profilers.GenerateReport: the report's section array is modelled as the set of section names. Its order follows the dictionary's enumeration, which is unspecified.
- BufferPool.CleanupAsWritten: the order in which the tracking dictionary is enumerated is a parameter (`order`), so the destroy calls are promised in that order only.
- Shader archives, platform detection, the UI, the renderer wrapper and the sample application. They are I/O or glue, and only their data types are used here.

## Findings

| source | as written | input that shows it | evidently intended | confidence | as-written member | corrected member |
|---|---|---|---|---|---|---|
| Plywood.Graphics.Core/PwBufferPool.cs:75-82 | Cleanup removes a stale buffer from the tracking dictionary and destroys it, but leaves it in its key's queue. | Pool with key (64, Vertex, no flags) whose queue holds buffer 0, free and last used at frame 0. Cleanup at frame 61 with the default limit 60 destroys buffer 0. The next rent of that key dequeues buffer 0 and throws on its tracking lookup (line 28). | Also remove destroyed buffers from their queues, so every queued buffer stays tracked. | not executed | BufferPool.CleanupLeavesDestroyedBufferQueued | BufferPool.CleanupAndPurgePreservesInv |
| Plywood.Graphics.Core/PwMemoryManager.cs:59-89 | The vertex and instance paths cast the data to `IPwVertexData[]` (line 65), recover that array's element type (line 81), which is the interface, and bind `CreateVertexBuffer<T>` to it (line 83). The method's constraint `where T : struct, IPwVertexData` (Plywood.Graphics.Core/IPwGraphicsDevice.cs:18) rejects an interface, so `MakeGenericMethod` throws ArgumentException. | Any `CreateOptimizedBuffer(data, Vertex)` or `(data, Instance)` whose element type is a vertex-data struct, e.g. the sample `Vertex`: the type is cached, then the call throws and no buffer is created. | Bind the caller's element type `T`, so vertex and instance data become one vertex buffer. | not executed | MemoryManagers.VertexRequestsFailAsWritten | MemoryManagers.VertexRequestsSucceedCorrected |
