/**
 * The command-recording state machine (Plywood.Graphics.Core/PwCommandEncoder.cs).
 *
 * The encoder is Idle when not recording, Recording when recording with no
 * pass open, and Recording-in-pass when a pass is open.  Operations that
 * only touch the encoder map an `Encoder` to a `Result<Encoder>`; those that
 * also call the device or advance the frame clock work on a `Session`.  An
 * `Err` result means the call threw before changing anything.
 */
module CommandEncoder {
  import opened Common
  import opened Buffers
  import opened Textures
  import opened RenderPasses
  import opened Fences
  import opened FrameCounter
  import C = Commands
  import Gpu

  datatype Encoder = Encoder(
    commands: seq<C.Command>,
    currentPass: Option<RenderPass>,
    currentPipeline: Option<Gpu.PipelineId>,
    recording: bool,
    debugLabel: string)

  const DefaultLabel := "PlywoodCommandEncoder"

  /** The encoder as its constructor leaves it. */
  const NewEncoder := Encoder([], None, None, false, DefaultLabel)

  /** The encoder together with the device it drives and the frame clock. */
  datatype Session = Session(encoder: Encoder, device: Gpu.Device, clock: Clock)

  // ---------------------------------------------------------------------------
  // The structure of a recorded list

  /**
   * The pass state after one more command, or None when the command breaks
   * the nesting rules: a begin while a pass is open, an end that does not
   * close the open pass, or a draw outside any pass.
   */
  function PassStep(open: Option<RenderPass>, c: C.Command): Option<Option<RenderPass>> {
    match c
    case BeginRenderPass(p) => if open.None? then Some(Some(p)) else None
    case EndRenderPass(p) => if open == Some(p) then Some(None) else None
    case DrawIndexedInstanced(_, _, _) => if open.Some? then Some(open) else None
    case DrawInstanced(_, _, _) => if open.Some? then Some(open) else None
    case _ => Some(open)
  }

  /** The pass left open by a whole list, or None when the list is not well nested. */
  function PassScan(cmds: seq<C.Command>): Option<Option<RenderPass>>
    decreases |cmds|
  {
    if cmds == [] then Some(None)
    else
      match PassScan(cmds[..|cmds| - 1])
      case None => None
      case Some(open) => PassStep(open, cmds[|cmds| - 1])
  }

  lemma PassScanAppend(cmds: seq<C.Command>, c: C.Command)
    ensures PassScan(cmds + [c]) ==
      match PassScan(cmds)
      case None => None
      case Some(open) => PassStep(open, c)
  {
    assert (cmds + [c])[..|cmds|] == cmds;
  }

  /** Every command the encoder filtered is valid; only begin-pass commands skip the filter. */
  ghost predicate Filtered(cmds: seq<C.Command>) {
    forall i | 0 <= i < |cmds| :: cmds[i].BeginRenderPass? || C.IsValid(cmds[i])
  }

  /**
   * The encoder invariant: the list is well nested and its open pass is the
   * current pass, a pass is only open while recording, and the list holds no
   * command that failed its validity check.
   */
  ghost predicate Inv(e: Encoder) {
    && PassScan(e.commands) == Some(e.currentPass)
    && (e.currentPass.Some? ==> e.recording)
    && Filtered(e.commands)
  }

  lemma NewEncoderInv()
    ensures Inv(NewEncoder)
  {
  }

  // ---------------------------------------------------------------------------
  // Recording helpers

  /** Append unconditionally. */
  function Push(e: Encoder, c: C.Command): Encoder {
    e.(commands := e.commands + [c])
  }

  /** Append only if the command passes its validity check. */
  function PushIfValid(e: Encoder, c: C.Command): Encoder {
    if C.IsValid(c) then Push(e, c) else e
  }

  /** Pushing a command that neither opens, closes nor draws keeps the invariant. */
  lemma PushNeutralKeepsInv(e: Encoder, c: C.Command)
    requires Inv(e)
    requires !c.IsPassBoundary() && !c.IsDraw()
    requires C.IsValid(c)
    ensures Inv(Push(e, c))
  {
    PassScanAppend(e.commands, c);
  }

  lemma PushIfValidNeutralKeepsInv(e: Encoder, c: C.Command)
    requires Inv(e)
    requires !c.IsPassBoundary() && !c.IsDraw()
    ensures Inv(PushIfValid(e, c))
  {
    if C.IsValid(c) {
      PushNeutralKeepsInv(e, c);
    }
  }

  // ---------------------------------------------------------------------------
  // Begin / End

  /** Idle -> Recording: clears the list, opens a device frame, advances the clock. */
  function Begin(s: Session): (r: Result<Session>)
    ensures r.Err? <==> s.encoder.recording
    ensures r.Err? ==> r.error == AlreadyRecording
    ensures r.Ok? ==>
      && r.value.encoder.recording
      && r.value.encoder.commands == []
      && r.value.encoder.currentPass.None?
      && r.value.encoder.currentPipeline.None?
      && r.value.encoder.debugLabel == s.encoder.debugLabel
      && r.value.device.trace == s.device.trace + [Gpu.BeginFrame]
      && ElapsedFrames(r.value.clock, s.clock.current) == 1
      && Inv(r.value.encoder)
  {
    if s.encoder.recording then Err(AlreadyRecording)
    else
      var e := s.encoder.(commands := [], recording := true, currentPass := None, currentPipeline := None);
      Ok(Session(e, Gpu.Issue(s.device, Gpu.BeginFrame), Increment(s.clock)))
  }

  /** What the device did with a recorded list: the calls issued, and whether the last one threw. */
  datatype Dispatched = Dispatched(issued: seq<Gpu.DeviceCall>, failed: bool)

  /**
   * `ExecuteCommands`: execute in list order; the first call that throws
   * stops the rest and the exception propagates.
   */
  function Dispatch(cmds: seq<C.Command>, backend: Gpu.Backend): (r: Dispatched)
    ensures |r.issued| <= |cmds|
    ensures forall i | 0 <= i < |r.issued| :: r.issued[i] == C.Execute(cmds[i])
    ensures forall i | 0 <= i < |r.issued| - 1 :: backend(r.issued[i])
    ensures !r.failed ==> |r.issued| == |cmds| && forall i | 0 <= i < |cmds| :: backend(C.Execute(cmds[i]))
    ensures r.failed ==> |r.issued| > 0 && !backend(r.issued[|r.issued| - 1])
    decreases |cmds|
  {
    if cmds == [] then Dispatched([], false)
    else
      var call := C.Execute(cmds[0]);
      if !backend(call) then Dispatched([call], true)
      else
        var rest := Dispatch(cmds[1..], backend);
        Dispatched([call] + rest.issued, rest.failed)
  }

  /** The dispatch fails exactly when some recorded command's device call throws. */
  lemma DispatchFailsIffSomeCallThrows(cmds: seq<C.Command>, backend: Gpu.Backend)
    ensures Dispatch(cmds, backend).failed <==>
            exists i | 0 <= i < |cmds| :: !backend(C.Execute(cmds[i]))
  {
    var r := Dispatch(cmds, backend);
    if r.failed {
      var k := |r.issued| - 1;
      assert !backend(C.Execute(cmds[k]));
    }
  }

  /** The outcome of `End`: the session afterwards, and the exception it threw, if any. */
  datatype EndOutcome = EndOutcome(session: Session, error: Option<Error>)

  /** Close the open pass, if any, as `End` does before executing. */
  function CloseOpenPass(e: Encoder): (r: Encoder)
    requires e.recording
    ensures Inv(e) ==> Inv(r) && r.currentPass.None?
    ensures r.recording
    ensures e.currentPass.None? ==> r == e
    ensures e.currentPass.Some? ==> r.commands == e.commands + [C.EndRenderPass(e.currentPass.value)]
    ensures e.currentPass.Some? ==>
      r == e.(commands := e.commands + [C.EndRenderPass(e.currentPass.value)], currentPass := None)
  {
    if e.currentPass.Some? then EndRenderPass(e).value else e
  }

  /**
   * Recording -> Idle: close an open pass, execute the list against the
   * device, end the device frame.  A throwing call skips the rest of the
   * list and the end of frame, and leaves the encoder recording.
   */
  function End(s: Session, backend: Gpu.Backend): (r: EndOutcome)
    ensures !s.encoder.recording <==> r.error == Some(NotRecording)
    ensures !s.encoder.recording ==> r.session == s
    ensures s.encoder.recording ==>
      && r.session.encoder == CloseOpenPass(s.encoder).(recording := r.error.Some?)
      && r.session.clock == s.clock
      && (r.error.Some? ==> r.error.value == DeviceFailure)
    ensures r.error.None? ==>
      && !r.session.encoder.recording
      && r.session.device.trace ==
           s.device.trace + Dispatch(r.session.encoder.commands, backend).issued + [Gpu.EndFrame]
      && |Dispatch(r.session.encoder.commands, backend).issued| == |r.session.encoder.commands|
    ensures s.encoder.recording ==>
      var d := Dispatch(CloseOpenPass(s.encoder).commands, backend);
      && (r.error.None? <==> !d.failed && backend(Gpu.EndFrame))
      && r.session.device.nextId == s.device.nextId
      && r.session.device.trace == s.device.trace + d.issued + (if d.failed then [] else [Gpu.EndFrame])
    ensures Inv(s.encoder) ==> Inv(r.session.encoder) && r.session.encoder.currentPass.None?
  {
    if !s.encoder.recording then EndOutcome(s, Some(NotRecording))
    else
      var e := CloseOpenPass(s.encoder);
      var d := Dispatch(e.commands, backend);
      var device := s.device.(trace := s.device.trace + d.issued);
      if d.failed then
        EndOutcome(Session(e, device, s.clock), Some(DeviceFailure))
      else if !backend(Gpu.EndFrame) then
        EndOutcome(Session(e, Gpu.Issue(device, Gpu.EndFrame), s.clock), Some(DeviceFailure))
      else
        EndOutcome(Session(e.(recording := false), Gpu.Issue(device, Gpu.EndFrame), s.clock), None)
  }

  /** A failed `End` leaves the encoder recording, so the next `Begin` throws. */
  lemma FailedEndBlocksBegin(s: Session, backend: Gpu.Backend)
    requires s.encoder.recording
    requires End(s, backend).error.Some?
    ensures Begin(End(s, backend).session) == Err(AlreadyRecording)
  {
  }

  /** Begin then End with nothing recorded executes no pass commands at all. */
  lemma EmptyFrameHasNoPasses(s: Session, backend: Gpu.Backend)
    requires Begin(s).Ok?
    ensures End(Begin(s).value, backend).session.encoder.commands == []
  {
  }

  // ---------------------------------------------------------------------------
  // Recording operations

  function SetDebugLabel(e: Encoder, newLabel: Option<string>): (r: Encoder)
    ensures newLabel.Some? ==> r.debugLabel == newLabel.value
    ensures newLabel.None? ==> r.debugLabel == DefaultLabel
    ensures r.(debugLabel := e.debugLabel) == e
  {
    e.(debugLabel := if newLabel.Some? then newLabel.value else DefaultLabel)
  }

  function SetViewport(e: Encoder, x: int, y: int, width: int, height: int): (r: Result<Encoder>)
    ensures r.Err? <==> !e.recording
    ensures r.Err? ==> r.error == NotRecording
    ensures r.Ok? && width > 0 && height > 0 ==> r.value.commands == e.commands + [C.Viewport(x, y, width, height)]
    ensures r.Ok? && (width <= 0 || height <= 0) ==> r.value == e
    ensures r.Ok? ==> r.value.(commands := e.commands) == e
    ensures r.Ok? && Inv(e) ==> Inv(r.value)
  {
    if !e.recording then Err(NotRecording)
    else
      var r := PushIfValid(e, C.Viewport(x, y, width, height));
      PushIfValidNeutralKeepsInvQuiet(e, C.Viewport(x, y, width, height));
      Ok(r)
  }

  /** Open a pass on the device and record its begin command; the descriptor is not validated. */
  function OpenPass(s: Session, descriptor: RenderPassDescriptor): (r: Result<Session>)
    ensures r.Err? <==> !s.encoder.recording || s.encoder.currentPass.Some?
    ensures r.Err? ==> r.error == (if !s.encoder.recording then NotRecording else PassAlreadyActive)
    ensures r.Ok? ==>
      var pass := RenderPass(s.device.nextId, descriptor);
      && r.value.encoder == Push(s.encoder, C.BeginRenderPass(pass)).(currentPass := Some(pass))
      && r.value.device.trace == s.device.trace + [Gpu.CreateRenderPass(descriptor)]
      && r.value.clock == s.clock
    ensures r.Ok? && Inv(s.encoder) ==> Inv(r.value.encoder)
  {
    if !s.encoder.recording then Err(NotRecording)
    else if s.encoder.currentPass.Some? then Err(PassAlreadyActive)
    else
      var (device, pass) := Gpu.MakeRenderPass(s.device, descriptor);
      var e := Push(s.encoder, C.BeginRenderPass(pass)).(currentPass := Some(pass));
      PassScanAppend(s.encoder.commands, C.BeginRenderPass(pass));
      Ok(Session(e, device, s.clock))
  }

  /** The descriptor `BeginRenderPass` builds for a given target. */
  function TargetPassDescriptor(target: Option<TextureId>): RenderPassDescriptor {
    DefaultDescriptor.(colorTarget := target, clearColor := Color(0.2, 0.3, 0.4, 1.0))
  }

  /** The descriptor `BeginMainRenderPass` builds: no target at all (the main framebuffer). */
  const MainPassDescriptor := DefaultDescriptor.(clearColor := Color(0.1, 0.2, 0.3, 1.0))

  function BeginRenderPass(s: Session, target: Option<TextureId>): (r: Result<Session>)
    ensures r == OpenPass(s, TargetPassDescriptor(target))
    ensures r.Ok? ==> r.value.encoder.currentPass.value.descriptor.colorTarget == target
  {
    OpenPass(s, TargetPassDescriptor(target))
  }

  function BeginMainRenderPass(s: Session): (r: Result<Session>)
    ensures r == OpenPass(s, MainPassDescriptor)
    ensures r.Ok? ==> !C.IsValid(r.value.encoder.commands[|r.value.encoder.commands| - 1])
  {
    OpenPass(s, MainPassDescriptor)
  }

  function EndRenderPass(e: Encoder): (r: Result<Encoder>)
    ensures r.Err? <==> !e.recording || e.currentPass.None?
    ensures r.Err? ==> r.error == (if !e.recording then NotRecording else NoActivePass)
    ensures r.Ok? ==>
      && r.value.commands == e.commands + [C.EndRenderPass(e.currentPass.value)]
      && r.value.currentPass.None?
      && r.value.recording
    ensures r.Ok? ==>
      r.value == e.(commands := e.commands + [C.EndRenderPass(e.currentPass.value)], currentPass := None)
    ensures r.Ok? && Inv(e) ==> Inv(r.value)
  {
    if !e.recording then Err(NotRecording)
    else if e.currentPass.None? then Err(NoActivePass)
    else
      var c := C.EndRenderPass(e.currentPass.value);
      PassScanAppend(e.commands, c);
      Ok(Push(e, c).(currentPass := None))
  }

  function SetPipeline(e: Encoder, pipeline: Option<Gpu.PipelineId>): (r: Result<Encoder>)
    ensures r.Err? <==> !e.recording || pipeline.None?
    ensures r.Err? ==> r.error == (if !e.recording then NotRecording else NullArgument)
    ensures r.Ok? ==> r.value.commands == e.commands + [C.SetPipeline(pipeline.value)]
    ensures r.Ok? ==> r.value.currentPipeline == pipeline
    ensures r.Ok? ==> r.value.currentPass == e.currentPass && r.value.recording == e.recording
    ensures r.Ok? ==>
      r.value == e.(commands := e.commands + [C.SetPipeline(pipeline.value)], currentPipeline := pipeline)
    ensures r.Ok? && Inv(e) ==> Inv(r.value)
  {
    if !e.recording then Err(NotRecording)
    else if pipeline.None? then Err(NullArgument)
    else
      PushNeutralKeepsInvQuiet(e, C.SetPipeline(pipeline.value));
      Ok(Push(e, C.SetPipeline(pipeline.value)).(currentPipeline := pipeline))
  }

  /**
   * The shared shape of the buffer setters: throw when not recording or
   * when the buffer is null, otherwise append the command if it is valid.
   */
  function RecordBufferCommand(e: Encoder, buffer: Option<Buffer>, make: Buffer -> C.Command): (r: Result<Encoder>)
    requires forall b :: !make(b).IsPassBoundary() && !make(b).IsDraw()
    ensures r.Err? <==> !e.recording || buffer.None?
    ensures r.Err? ==> r.error == (if !e.recording then NotRecording else NullArgument)
    ensures r.Ok? ==> r.value == PushIfValid(e, make(buffer.value))
    ensures r.Ok? && Inv(e) ==> Inv(r.value)
  {
    if !e.recording then Err(NotRecording)
    else if buffer.None? then Err(NullArgument)
    else
      PushIfValidNeutralKeepsInvQuiet(e, make(buffer.value));
      Ok(PushIfValid(e, make(buffer.value)))
  }

  function SetVertexBuffer(e: Encoder, buffer: Option<Buffer>, bindingIndex: int): (r: Result<Encoder>)
    ensures r.Err? <==> !e.recording || buffer.None?
    ensures r.Ok? ==>
      r.value.commands == e.commands +
        (if buffer.value.usage in {Vertex, Instance} then [C.SetVertexBuffer(buffer.value, bindingIndex)] else [])
    ensures r.Ok? ==> r.value.(commands := e.commands) == e
    ensures r.Ok? && Inv(e) ==> Inv(r.value)
  {
    RecordBufferCommand(e, buffer, b => C.SetVertexBuffer(b, bindingIndex))
  }

  function SetIndexBuffer(e: Encoder, buffer: Option<Buffer>): (r: Result<Encoder>)
    ensures r.Err? <==> !e.recording || buffer.None?
    ensures r.Ok? ==>
      r.value.commands == e.commands +
        (if buffer.value.usage == Index then [C.SetIndexBuffer(buffer.value)] else [])
    ensures r.Ok? ==> r.value.(commands := e.commands) == e
    ensures r.Ok? && Inv(e) ==> Inv(r.value)
  {
    RecordBufferCommand(e, buffer, b => C.SetIndexBuffer(b))
  }

  /** An instance buffer is bound with the vertex-buffer command, at binding 1 by default. */
  function SetInstanceBuffer(e: Encoder, buffer: Option<Buffer>, bindingIndex: int): (r: Result<Encoder>)
    ensures r == SetVertexBuffer(e, buffer, bindingIndex)
  {
    RecordBufferCommand(e, buffer, b => C.SetVertexBuffer(b, bindingIndex))
  }

  function SetInstanceBufferOffset(e: Encoder, buffer: Option<Buffer>, offset: int): (r: Result<Encoder>)
    ensures r.Err? <==> !e.recording || buffer.None?
    ensures r.Ok? ==>
      r.value.commands == e.commands +
        (if 0 <= offset < buffer.value.size then [C.SetInstanceBufferOffset(buffer.value, offset)] else [])
    ensures r.Ok? ==> r.value.(commands := e.commands) == e
    ensures r.Ok? && Inv(e) ==> Inv(r.value)
  {
    RecordBufferCommand(e, buffer, b => C.SetInstanceBufferOffset(b, offset))
  }

  function SetUniformBuffer(e: Encoder, buffer: Option<Buffer>, bindingIndex: int): (r: Result<Encoder>)
    ensures r.Err? <==> !e.recording || buffer.None?
    ensures r.Ok? ==>
      r.value.commands == e.commands +
        (if buffer.value.usage == Uniform then [C.SetUniformBuffer(buffer.value, bindingIndex)] else [])
    ensures r.Ok? ==> r.value.(commands := e.commands) == e
    ensures r.Ok? && Inv(e) ==> Inv(r.value)
  {
    RecordBufferCommand(e, buffer, b => C.SetUniformBuffer(b, bindingIndex))
  }

  /** Commands the encoder appends without a validity check (texture and fence commands). */
  function RecordUnchecked<T(!new)>(e: Encoder, arg: Option<T>, make: T -> C.Command): (r: Result<Encoder>)
    requires forall a :: !make(a).IsPassBoundary() && !make(a).IsDraw() && C.IsValid(make(a))
    ensures r.Err? <==> !e.recording || arg.None?
    ensures r.Err? ==> r.error == (if !e.recording then NotRecording else NullArgument)
    ensures r.Ok? ==> r.value == Push(e, make(arg.value))
    ensures r.Ok? && Inv(e) ==> Inv(r.value)
  {
    if !e.recording then Err(NotRecording)
    else if arg.None? then Err(NullArgument)
    else
      PushNeutralKeepsInvQuiet(e, make(arg.value));
      Ok(Push(e, make(arg.value)))
  }

  function SetTexture(e: Encoder, texture: Option<TextureId>, bindingIndex: int): (r: Result<Encoder>)
    ensures r.Err? <==> !e.recording || texture.None?
    ensures r.Ok? ==> r.value.commands == e.commands + [C.SetTexture(texture.value, bindingIndex)]
    ensures r.Ok? ==> r.value.(commands := e.commands) == e
    ensures r.Ok? && Inv(e) ==> Inv(r.value)
  {
    RecordUnchecked(e, texture, (t: TextureId) => C.SetTexture(t, bindingIndex))
  }

  function WaitForFence(e: Encoder, fence: Option<FenceId>): (r: Result<Encoder>)
    ensures r.Err? <==> !e.recording || fence.None?
    ensures r.Ok? ==> r.value.commands == e.commands + [C.WaitFence(fence.value)]
    ensures r.Ok? ==> r.value.(commands := e.commands) == e
    ensures r.Ok? && Inv(e) ==> Inv(r.value)
  {
    RecordUnchecked(e, fence, (f: FenceId) => C.WaitFence(f))
  }

  function SignalFence(e: Encoder, fence: Option<FenceId>): (r: Result<Encoder>)
    ensures r.Err? <==> !e.recording || fence.None?
    ensures r.Ok? ==> r.value.commands == e.commands + [C.SignalFence(fence.value)]
    ensures r.Ok? ==> r.value.(commands := e.commands) == e
    ensures r.Ok? && Inv(e) ==> Inv(r.value)
  {
    RecordUnchecked(e, fence, (f: FenceId) => C.SignalFence(f))
  }

  /** Draws need an open pass; an invalid draw is dropped without an error. */
  function RecordDraw(e: Encoder, c: C.Command): (r: Result<Encoder>)
    requires c.IsDraw()
    ensures r.Err? <==> !e.recording || e.currentPass.None?
    ensures r.Err? ==> r.error == (if !e.recording then NotRecording else NoPassForDraw)
    ensures r.Ok? ==> r.value == PushIfValid(e, c)
    ensures r.Ok? && Inv(e) ==> Inv(r.value)
  {
    if !e.recording then Err(NotRecording)
    else if e.currentPass.None? then Err(NoPassForDraw)
    else
      DrawKeepsInv(e, c);
      Ok(PushIfValid(e, c))
  }

  lemma DrawKeepsInv(e: Encoder, c: C.Command)
    requires c.IsDraw() && e.currentPass.Some?
    ensures Inv(e) ==> Inv(PushIfValid(e, c))
  {
    PassScanAppend(e.commands, c);
  }

  function DrawIndexedInstanced(e: Encoder, indexCount: int, instanceCount: int, firstIndex: int): (r: Result<Encoder>)
    ensures r.Err? <==> !e.recording || e.currentPass.None?
    ensures r.Ok? ==>
      r.value.commands == e.commands +
        (if indexCount > 0 && instanceCount > 0
         then [C.DrawIndexedInstanced(indexCount, instanceCount, firstIndex)] else [])
    ensures r.Err? ==> r.error == (if !e.recording then NotRecording else NoPassForDraw)
    ensures r.Ok? ==> r.value.(commands := e.commands) == e
    ensures r.Ok? && Inv(e) ==> Inv(r.value)
  {
    RecordDraw(e, C.DrawIndexedInstanced(indexCount, instanceCount, firstIndex))
  }

  function DrawInstanced(e: Encoder, vertexCount: int, instanceCount: int, firstVertex: int): (r: Result<Encoder>)
    ensures r.Err? <==> !e.recording || e.currentPass.None?
    ensures r.Ok? ==>
      r.value.commands == e.commands +
        (if vertexCount > 0 && instanceCount > 0
         then [C.DrawInstanced(vertexCount, instanceCount, firstVertex)] else [])
    ensures r.Err? ==> r.error == (if !e.recording then NotRecording else NoPassForDraw)
    ensures r.Ok? ==> r.value.(commands := e.commands) == e
    ensures r.Ok? && Inv(e) ==> Inv(r.value)
  {
    RecordDraw(e, C.DrawInstanced(vertexCount, instanceCount, firstVertex))
  }

  // ---------------------------------------------------------------------------
  // Inspection

  function CommandCount(e: Encoder): nat {
    |e.commands|
  }

  /** The number of draw commands in a list. */
  function DrawCount(cmds: seq<C.Command>): (n: nat)
    ensures n <= |cmds|
    ensures n == 0 <==> forall i | 0 <= i < |cmds| :: !cmds[i].IsDraw()
    ensures n == |cmds| <==> forall i | 0 <= i < |cmds| :: cmds[i].IsDraw()
    decreases |cmds|
  {
    if cmds == [] then 0
    else DrawCount(cmds[1..]) + (if cmds[0].IsDraw() then 1 else 0)
  }

  function DrawCommandCount(e: Encoder): (n: nat)
    ensures n <= CommandCount(e)
  {
    DrawCount(e.commands)
  }

  /** Only an idle encoder may have its list cleared. */
  function ClearCommands(e: Encoder): (r: Result<Encoder>)
    ensures r.Err? <==> e.recording
    ensures r.Err? ==> r.error == ClearWhileRecording
    ensures r.Ok? ==> r.value.commands == [] && CommandCount(r.value) == 0
    ensures r.Ok? ==> r.value.(commands := e.commands) == e
    ensures r.Ok? && Inv(e) ==> Inv(r.value)
  {
    if e.recording then Err(ClearWhileRecording)
    else Ok(e.(commands := []))
  }

  /** A copy of the list as recorded. */
  function GetCommands(e: Encoder): seq<C.Command> {
    e.commands
  }

  // ---------------------------------------------------------------------------
  // Properties of every recorded list

  /** The number of begin-pass and end-pass commands in a list. */
  function Begins(cmds: seq<C.Command>): nat
    decreases |cmds|
  {
    if cmds == [] then 0
    else Begins(cmds[..|cmds| - 1]) + (if cmds[|cmds| - 1].BeginRenderPass? then 1 else 0)
  }

  function Ends(cmds: seq<C.Command>): nat
    decreases |cmds|
  {
    if cmds == [] then 0
    else Ends(cmds[..|cmds| - 1]) + (if cmds[|cmds| - 1].EndRenderPass? then 1 else 0)
  }

  /**
   * A well-nested list has exactly one more begin than end while a pass is
   * open, and as many begins as ends otherwise.
   */
  lemma {:induction false} ScanBalancesPasses(cmds: seq<C.Command>)
    requires PassScan(cmds).Some?
    ensures Begins(cmds) == Ends(cmds) + (if PassScan(cmds).value.Some? then 1 else 0)
    decreases |cmds|
  {
    if cmds != [] {
      ScanBalancesPasses(cmds[..|cmds| - 1]);
    }
  }

  /** Every prefix of a well-nested list is well nested. */
  lemma {:induction false} ScanPrefix(cmds: seq<C.Command>, k: nat)
    requires k <= |cmds|
    requires PassScan(cmds).Some?
    ensures PassScan(cmds[..k]).Some?
    decreases |cmds|
  {
    if k < |cmds| {
      assert cmds[..|cmds| - 1][..k] == cmds[..k];
      ScanPrefix(cmds[..|cmds| - 1], k);
    } else {
      assert cmds[..k] == cmds;
    }
  }

  /** In a well-nested list every draw is recorded while a pass is open. */
  lemma DrawsInsidePasses(cmds: seq<C.Command>, i: nat)
    requires PassScan(cmds).Some?
    requires i < |cmds| && cmds[i].IsDraw()
    ensures PassScan(cmds[..i]).Some? && PassScan(cmds[..i]).value.Some?
  {
    ScanPrefix(cmds, i + 1);
    assert cmds[..i + 1] == cmds[..i] + [cmds[i]];
    PassScanAppend(cmds[..i], cmds[i]);
  }

  /** After a successful `End` the list holds as many begins as ends. */
  lemma EndedFrameIsBalanced(s: Session, backend: Gpu.Backend)
    requires Inv(s.encoder)
    requires End(s, backend).error.None?
    ensures Begins(End(s, backend).session.encoder.commands) == Ends(End(s, backend).session.encoder.commands)
  {
    ScanBalancesPasses(End(s, backend).session.encoder.commands);
  }

  /** One public call on the encoder, with its arguments. */
  datatype Call =
    | CallBegin
    | CallEnd
    | CallSetDebugLabel(newLabel: Option<string>)
    | CallSetViewport(x: int, y: int, width: int, height: int)
    | CallBeginRenderPass(target: Option<TextureId>)
    | CallBeginMainRenderPass
    | CallEndRenderPass
    | CallSetPipeline(pipeline: Option<Gpu.PipelineId>)
    | CallSetVertexBuffer(buffer: Option<Buffer>, bindingIndex: int)
    | CallSetIndexBuffer(buffer: Option<Buffer>)
    | CallSetInstanceBuffer(buffer: Option<Buffer>, bindingIndex: int)
    | CallSetInstanceBufferOffset(buffer: Option<Buffer>, offset: int)
    | CallSetTexture(texture: Option<TextureId>, bindingIndex: int)
    | CallSetUniformBuffer(buffer: Option<Buffer>, bindingIndex: int)
    | CallDrawIndexedInstanced(indexCount: int, instanceCount: int, firstIndex: int)
    | CallDrawInstanced(vertexCount: int, instanceCount: int, firstVertex: int)
    | CallWaitForFence(fence: Option<FenceId>)
    | CallSignalFence(fence: Option<FenceId>)
    | CallClearCommands

  /** Lift an encoder-only result to the session; a thrown exception keeps the session. */
  function Lift(s: Session, r: Result<Encoder>): Session {
    if r.Ok? then s.(encoder := r.value) else s
  }

  /** The session after one call, whether or not it threw. */
  function Apply(s: Session, call: Call, backend: Gpu.Backend): Session {
    match call
    case CallBegin => if Begin(s).Ok? then Begin(s).value else s
    case CallEnd => End(s, backend).session
    case CallSetDebugLabel(l) => s.(encoder := SetDebugLabel(s.encoder, l))
    case CallSetViewport(x, y, w, h) => Lift(s, SetViewport(s.encoder, x, y, w, h))
    case CallBeginRenderPass(t) => if BeginRenderPass(s, t).Ok? then BeginRenderPass(s, t).value else s
    case CallBeginMainRenderPass => if BeginMainRenderPass(s).Ok? then BeginMainRenderPass(s).value else s
    case CallEndRenderPass => Lift(s, EndRenderPass(s.encoder))
    case CallSetPipeline(p) => Lift(s, SetPipeline(s.encoder, p))
    case CallSetVertexBuffer(b, i) => Lift(s, SetVertexBuffer(s.encoder, b, i))
    case CallSetIndexBuffer(b) => Lift(s, SetIndexBuffer(s.encoder, b))
    case CallSetInstanceBuffer(b, i) => Lift(s, SetInstanceBuffer(s.encoder, b, i))
    case CallSetInstanceBufferOffset(b, o) => Lift(s, SetInstanceBufferOffset(s.encoder, b, o))
    case CallSetTexture(t, i) => Lift(s, SetTexture(s.encoder, t, i))
    case CallSetUniformBuffer(b, i) => Lift(s, SetUniformBuffer(s.encoder, b, i))
    case CallDrawIndexedInstanced(n, k, f) => Lift(s, DrawIndexedInstanced(s.encoder, n, k, f))
    case CallDrawInstanced(n, k, f) => Lift(s, DrawInstanced(s.encoder, n, k, f))
    case CallWaitForFence(f) => Lift(s, WaitForFence(s.encoder, f))
    case CallSignalFence(f) => Lift(s, SignalFence(s.encoder, f))
    case CallClearCommands => Lift(s, ClearCommands(s.encoder))
  }

  function Run(s: Session, calls: seq<Call>, backend: Gpu.Backend): Session
    decreases |calls|
  {
    if calls == [] then s else Run(Apply(s, calls[0], backend), calls[1..], backend)
  }

  lemma ApplyPreservesInv(s: Session, call: Call, backend: Gpu.Backend)
    requires Inv(s.encoder)
    ensures Inv(Apply(s, call, backend).encoder)
  {
  }

  /**
   * Whatever sequence of calls a client makes, and whichever device calls
   * throw, the recorded list stays well nested, draws stay inside passes and
   * no invalid command is ever recorded.
   */
  lemma {:induction false} RunPreservesInv(s: Session, calls: seq<Call>, backend: Gpu.Backend)
    requires Inv(s.encoder)
    ensures Inv(Run(s, calls, backend).encoder)
    decreases |calls|
  {
    if calls != [] {
      ApplyPreservesInv(s, calls[0], backend);
      RunPreservesInv(Apply(s, calls[0], backend), calls[1..], backend);
    }
  }

  /** The device trace only grows: no call ever removes a device call already issued. */
  lemma {:induction false} RunExtendsTrace(s: Session, calls: seq<Call>, backend: Gpu.Backend)
    ensures |s.device.trace| <= |Run(s, calls, backend).device.trace|
    ensures Run(s, calls, backend).device.trace[..|s.device.trace|] == s.device.trace
    decreases |calls|
  {
    if calls != [] {
      var s' := Apply(s, calls[0], backend);
      assert s'.device.trace[..|s.device.trace|] == s.device.trace;
      RunExtendsTrace(s', calls[1..], backend);
      var t := Run(s', calls[1..], backend).device.trace;
      assert t[..|s.device.trace|] == t[..|s'.device.trace|][..|s.device.trace|];
    }
  }

  // ---------------------------------------------------------------------------
  // Helpers used inside function bodies to discharge the invariant clauses

  lemma PushNeutralKeepsInvQuiet(e: Encoder, c: C.Command)
    requires !c.IsPassBoundary() && !c.IsDraw() && C.IsValid(c)
    ensures Inv(e) ==> Inv(Push(e, c))
  {
    if Inv(e) {
      PushNeutralKeepsInv(e, c);
    }
  }

  lemma PushIfValidNeutralKeepsInvQuiet(e: Encoder, c: C.Command)
    requires !c.IsPassBoundary() && !c.IsDraw()
    ensures Inv(e) ==> Inv(PushIfValid(e, c))
  {
    if Inv(e) {
      PushIfValidNeutralKeepsInv(e, c);
    }
  }
}
