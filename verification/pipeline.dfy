/**
 * Pipeline state records and their defaults (Plywood.Graphics.Core/PwPipeline.cs),
 * as far as the JSON conversion fills them.  Shaders are not part of this
 * model.
 */
module Pipelines {
  import opened Textures
  import opened VertexDescriptors

  datatype PrimitiveTopology = TriangleList | TriangleStrip | LineList | LineStrip | PointList

  datatype BlendFactor =
    | Zero | One | SourceAlpha | OneMinusSourceAlpha | DestinationAlpha | OneMinusDestinationAlpha

  datatype BlendOperation = Add | Subtract | ReverseSubtract | Min | Max

  datatype ComparisonFunction = Never | Less | Equal | LessEqual | Greater | NotEqual | GreaterEqual | Always

  /** `PwCullMode`; its first member, named "None", is `CullNone` here. */
  datatype CullMode = CullNone | Front | Back

  datatype FillMode = Solid | Wireframe

  datatype BlendState = BlendState(
    blendEnabled: bool, sourceBlend: BlendFactor, destinationBlend: BlendFactor, blendOperation: BlendOperation)

  /** Blending disabled: One, Zero, Add. */
  const DefaultBlendState := BlendState(false, One, Zero, Add)

  datatype DepthStencilState = DepthStencilState(
    depthTestEnabled: bool, depthWriteEnabled: bool, depthComparison: ComparisonFunction)

  /** Depth test and write enabled, Less. */
  const DefaultDepthStencilState := DepthStencilState(true, true, Less)

  datatype RasterizerState = RasterizerState(cullMode: CullMode, fillMode: FillMode, scissorTestEnabled: bool)

  /** Back-face culling, solid fill, no scissor. */
  const DefaultRasterizerState := RasterizerState(Back, Solid, false)

  datatype RenderTargetFormat = RenderTargetFormat(format: TextureFormat, index: int)

  datatype PipelineDescriptor = PipelineDescriptor(
    vertexDescriptors: seq<VertexDescriptor>,
    blendState: BlendState,
    depthStencilState: DepthStencilState,
    rasterizerState: RasterizerState,
    primitiveTopology: PrimitiveTopology,
    renderTargetFormats: seq<RenderTargetFormat>)

  /** A descriptor as its property initialisers leave it. */
  const DefaultPipelineDescriptor := PipelineDescriptor(
    [], DefaultBlendState, DefaultDepthStencilState, DefaultRasterizerState, TriangleList, [])
}
