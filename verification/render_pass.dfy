/**
 * Render passes and their descriptors (Plywood.Graphics.Core/PwRenderPass.cs).
 *
 * Targets are referred to by texture id; `None` is the C# null.
 */
module RenderPasses {
  import opened Common
  import opened Textures

  type PassId = nat

  datatype LoadAction = DontCare | Clear | Load

  datatype StoreAction = DontCare | Store

  datatype Color = Color(r: real, g: real, b: real, a: real)

  datatype RenderPassDescriptor = RenderPassDescriptor(
    colorTarget: Option<TextureId>,
    depthTarget: Option<TextureId>,
    clearColor: Color,
    clearDepth: real,
    loadAction: LoadAction,
    storeAction: StoreAction,
    multipleRenderTargets: bool,
    additionalColorTargets: seq<TextureId>)

  /** The property initialisers of a descriptor built with `new` and nothing set. */
  const DefaultDescriptor := RenderPassDescriptor(
    None, None, Color(0.0, 0.0, 0.0, 1.0), 1.0,
    LoadAction.Clear, StoreAction.Store, true, [])

  /** A descriptor is usable when it names a colour or a depth target. */
  predicate IsValid(d: RenderPassDescriptor) {
    d.colorTarget.Some? || d.depthTarget.Some?
  }

  /** A pass as the device materialises it from a descriptor. */
  datatype RenderPass = RenderPass(id: PassId, descriptor: RenderPassDescriptor)

  /** A descriptor is valid exactly when setting a target on the default one. */
  lemma ValidIffSomeTarget(d: RenderPassDescriptor)
    ensures !IsValid(DefaultDescriptor)
    ensures IsValid(d) <==> (d.colorTarget != None || d.depthTarget != None)
    ensures forall t: TextureId :: IsValid(DefaultDescriptor.(colorTarget := Some(t)))
    ensures forall t: TextureId :: IsValid(DefaultDescriptor.(depthTarget := Some(t)))
  {
  }
}
