/**
 * Conversion of a pipeline's JSON form into a pipeline descriptor
 * (Plywood.Graphics.Core/PwPipelineDescriptorJson.cs).
 *
 * A JSON string or object that may be null is an `Option`; a list that may
 * be null is an `Option<seq<_>>`.  Enum names are parsed by exact name;
 * a null name throws `NullArgument`, an unknown one `UnknownName`.
 */
module PipelineJson {
  import opened Common
  import opened Textures
  import opened VertexFormats
  import opened VertexDescriptors
  import opened Pipelines

  // ---------------------------------------------------------------------------
  // The JSON records

  datatype AttributeJson = AttributeJson(semantic: Option<string>, index: int, format: Option<string>, offset: int)

  datatype VertexDescriptorJson = VertexDescriptorJson(
    bindingIndex: int, inputRate: Option<string>, attributes: Option<seq<AttributeJson>>)

  datatype BlendStateJson = BlendStateJson(
    blendEnabled: bool, sourceBlend: Option<string>, destinationBlend: Option<string>, blendOperation: Option<string>)

  datatype DepthStencilStateJson = DepthStencilStateJson(
    depthTestEnabled: bool, depthWriteEnabled: bool, depthComparison: Option<string>)

  datatype RasterizerStateJson = RasterizerStateJson(
    cullMode: Option<string>, fillMode: Option<string>, scissorTestEnabled: bool)

  datatype RenderTargetFormatJson = RenderTargetFormatJson(format: Option<string>, index: int)

  datatype UniformJson = UniformJson(name: Option<string>, uniformType: Option<string>, bindingIndex: int)

  datatype TextureJson = TextureJson(name: Option<string>, format: Option<string>, bindingIndex: int)

  datatype PipelineDescriptorJson = PipelineDescriptorJson(
    name: Option<string>,
    vertexDescriptors: Option<seq<VertexDescriptorJson>>,
    blendState: Option<BlendStateJson>,
    depthStencilState: Option<DepthStencilStateJson>,
    rasterizerState: Option<RasterizerStateJson>,
    primitiveTopology: Option<string>,
    renderTargetFormats: Option<seq<RenderTargetFormatJson>>,
    uniforms: Option<seq<UniformJson>>,
    textures: Option<seq<TextureJson>>)

  // ---------------------------------------------------------------------------
  // Enum names

  function SemanticName(s: VertexSemantic): string {
    match s
    case Position => "Position" case Normal => "Normal" case Tangent => "Tangent"
    case Binormal => "Binormal" case TexCoord => "TexCoord" case Color => "Color"
    case BlendWeight => "BlendWeight" case BlendIndices => "BlendIndices"
    case InstanceTransform => "InstanceTransform" case InstanceColor => "InstanceColor"
    case InstanceScale => "InstanceScale"
  }

  function ParseSemantic(name: Option<string>): (r: Result<VertexSemantic>)
    ensures r.Ok? ==> name == Some(SemanticName(r.value))
    ensures name.None? ==> r == Err(NullArgument)
  {
    if name.None? then Err(NullArgument)
    else match name.value
      case "Position" => Ok(Position) case "Normal" => Ok(Normal) case "Tangent" => Ok(Tangent)
      case "Binormal" => Ok(Binormal) case "TexCoord" => Ok(TexCoord) case "Color" => Ok(Color)
      case "BlendWeight" => Ok(BlendWeight) case "BlendIndices" => Ok(BlendIndices)
      case "InstanceTransform" => Ok(InstanceTransform) case "InstanceColor" => Ok(InstanceColor)
      case "InstanceScale" => Ok(InstanceScale)
      case _ => Err(UnknownName)
  }

  function FormatName(f: VertexFormat): string {
    match f
    case Float => "Float" case Float2 => "Float2" case Float3 => "Float3" case Float4 => "Float4"
    case Int => "Int" case Int2 => "Int2" case Int3 => "Int3" case Int4 => "Int4"
    case UInt => "UInt" case UInt2 => "UInt2" case UInt3 => "UInt3" case UInt4 => "UInt4"
    case Short2 => "Short2" case Short4 => "Short4" case UShort2 => "UShort2" case UShort4 => "UShort4"
    case Byte4 => "Byte4" case UByte4 => "UByte4" case Matrix4x4 => "Matrix4x4"
  }

  function ParseFormat(name: Option<string>): (r: Result<VertexFormat>)
    ensures r.Ok? ==> name == Some(FormatName(r.value))
    ensures name.None? ==> r == Err(NullArgument)
  {
    if name.None? then Err(NullArgument)
    else match name.value
      case "Float" => Ok(Float) case "Float2" => Ok(Float2) case "Float3" => Ok(Float3) case "Float4" => Ok(Float4)
      case "Int" => Ok(Int) case "Int2" => Ok(Int2) case "Int3" => Ok(Int3) case "Int4" => Ok(Int4)
      case "UInt" => Ok(UInt) case "UInt2" => Ok(UInt2) case "UInt3" => Ok(UInt3) case "UInt4" => Ok(UInt4)
      case "Short2" => Ok(Short2) case "Short4" => Ok(Short4) case "UShort2" => Ok(UShort2) case "UShort4" => Ok(UShort4)
      case "Byte4" => Ok(Byte4) case "UByte4" => Ok(UByte4) case "Matrix4x4" => Ok(Matrix4x4)
      case _ => Err(UnknownName)
  }

  function BlendFactorName(b: BlendFactor): string {
    match b
    case Zero => "Zero" case One => "One" case SourceAlpha => "SourceAlpha"
    case OneMinusSourceAlpha => "OneMinusSourceAlpha" case DestinationAlpha => "DestinationAlpha"
    case OneMinusDestinationAlpha => "OneMinusDestinationAlpha"
  }

  function ParseBlendFactor(name: Option<string>): (r: Result<BlendFactor>)
    ensures r.Ok? ==> name == Some(BlendFactorName(r.value))
    ensures name.None? ==> r == Err(NullArgument)
  {
    if name.None? then Err(NullArgument)
    else match name.value
      case "Zero" => Ok(Zero) case "One" => Ok(One) case "SourceAlpha" => Ok(SourceAlpha)
      case "OneMinusSourceAlpha" => Ok(OneMinusSourceAlpha) case "DestinationAlpha" => Ok(DestinationAlpha)
      case "OneMinusDestinationAlpha" => Ok(OneMinusDestinationAlpha)
      case _ => Err(UnknownName)
  }

  function BlendOperationName(b: BlendOperation): string {
    match b
    case Add => "Add" case Subtract => "Subtract" case ReverseSubtract => "ReverseSubtract"
    case Min => "Min" case Max => "Max"
  }

  function ParseBlendOperation(name: Option<string>): (r: Result<BlendOperation>)
    ensures r.Ok? ==> name == Some(BlendOperationName(r.value))
    ensures name.None? ==> r == Err(NullArgument)
  {
    if name.None? then Err(NullArgument)
    else match name.value
      case "Add" => Ok(Add) case "Subtract" => Ok(Subtract) case "ReverseSubtract" => Ok(ReverseSubtract)
      case "Min" => Ok(BlendOperation.Min) case "Max" => Ok(BlendOperation.Max)
      case _ => Err(UnknownName)
  }

  function ComparisonName(c: ComparisonFunction): string {
    match c
    case Never => "Never" case Less => "Less" case Equal => "Equal" case LessEqual => "LessEqual"
    case Greater => "Greater" case NotEqual => "NotEqual" case GreaterEqual => "GreaterEqual"
    case Always => "Always"
  }

  function ParseComparison(name: Option<string>): (r: Result<ComparisonFunction>)
    ensures r.Ok? ==> name == Some(ComparisonName(r.value))
    ensures name.None? ==> r == Err(NullArgument)
  {
    if name.None? then Err(NullArgument)
    else match name.value
      case "Never" => Ok(Never) case "Less" => Ok(Less) case "Equal" => Ok(Equal)
      case "LessEqual" => Ok(LessEqual) case "Greater" => Ok(Greater) case "NotEqual" => Ok(NotEqual)
      case "GreaterEqual" => Ok(GreaterEqual) case "Always" => Ok(Always)
      case _ => Err(UnknownName)
  }

  function CullModeName(c: CullMode): string {
    match c
    case CullNone => "None" case Front => "Front" case Back => "Back"
  }

  function ParseCullMode(name: Option<string>): (r: Result<CullMode>)
    ensures r.Ok? ==> name == Some(CullModeName(r.value))
    ensures name.None? ==> r == Err(NullArgument)
  {
    if name.None? then Err(NullArgument)
    else match name.value
      case "None" => Ok(CullNone) case "Front" => Ok(Front) case "Back" => Ok(Back)
      case _ => Err(UnknownName)
  }

  function FillModeName(f: FillMode): string {
    match f
    case Solid => "Solid" case Wireframe => "Wireframe"
  }

  function ParseFillMode(name: Option<string>): (r: Result<FillMode>)
    ensures r.Ok? ==> name == Some(FillModeName(r.value))
    ensures name.None? ==> r == Err(NullArgument)
  {
    if name.None? then Err(NullArgument)
    else match name.value
      case "Solid" => Ok(Solid) case "Wireframe" => Ok(Wireframe)
      case _ => Err(UnknownName)
  }

  function TopologyName(t: PrimitiveTopology): string {
    match t
    case TriangleList => "TriangleList" case TriangleStrip => "TriangleStrip"
    case LineList => "LineList" case LineStrip => "LineStrip" case PointList => "PointList"
  }

  function ParseTopology(name: Option<string>): (r: Result<PrimitiveTopology>)
    ensures r.Ok? ==> name == Some(TopologyName(r.value))
    ensures name.None? ==> r == Err(NullArgument)
  {
    if name.None? then Err(NullArgument)
    else match name.value
      case "TriangleList" => Ok(TriangleList) case "TriangleStrip" => Ok(TriangleStrip)
      case "LineList" => Ok(LineList) case "LineStrip" => Ok(LineStrip) case "PointList" => Ok(PointList)
      case _ => Err(UnknownName)
  }

  function TextureFormatName(f: TextureFormat): string {
    match f
    case RGBA8 => "RGBA8" case RGB8 => "RGB8" case Depth32Float => "Depth32Float"
    case Depth24Stencil8 => "Depth24Stencil8"
  }

  function ParseTextureFormat(name: Option<string>): (r: Result<TextureFormat>)
    ensures r.Ok? ==> name == Some(TextureFormatName(r.value))
    ensures name.None? ==> r == Err(NullArgument)
  {
    if name.None? then Err(NullArgument)
    else match name.value
      case "RGBA8" => Ok(RGBA8) case "RGB8" => Ok(RGB8) case "Depth32Float" => Ok(Depth32Float)
      case "Depth24Stencil8" => Ok(Depth24Stencil8)
      case _ => Err(UnknownName)
  }

  /** Every enum value's name parses back to it. */
  lemma NamesRoundTrip(s: VertexSemantic, f: VertexFormat, bf: BlendFactor, bo: BlendOperation,
                       c: ComparisonFunction, cm: CullMode, fm: FillMode, t: PrimitiveTopology, tf: TextureFormat)
    ensures ParseSemantic(Some(SemanticName(s))) == Ok(s)
    ensures ParseFormat(Some(FormatName(f))) == Ok(f)
    ensures ParseBlendFactor(Some(BlendFactorName(bf))) == Ok(bf)
    ensures ParseBlendOperation(Some(BlendOperationName(bo))) == Ok(bo)
    ensures ParseComparison(Some(ComparisonName(c))) == Ok(c)
    ensures ParseCullMode(Some(CullModeName(cm))) == Ok(cm)
    ensures ParseFillMode(Some(FillModeName(fm))) == Ok(fm)
    ensures ParseTopology(Some(TopologyName(t))) == Ok(t)
    ensures ParseTextureFormat(Some(TextureFormatName(tf))) == Ok(tf)
  {
    SemanticRoundTrip(s);
    FormatRoundTrip(f);
    BlendFactorRoundTrip(bf);
    BlendOperationRoundTrip(bo);
    ComparisonRoundTrip(c);
    CullModeRoundTrip(cm);
    FillModeRoundTrip(fm);
    TopologyRoundTrip(t);
    TextureFormatRoundTrip(tf);
  }

  lemma SemanticRoundTrip(s: VertexSemantic)
    ensures ParseSemantic(Some(SemanticName(s))) == Ok(s)
  {
  }

  lemma FormatRoundTrip(f: VertexFormat)
    ensures ParseFormat(Some(FormatName(f))) == Ok(f)
  {
  }

  lemma BlendFactorRoundTrip(bf: BlendFactor)
    ensures ParseBlendFactor(Some(BlendFactorName(bf))) == Ok(bf)
  {
  }

  lemma BlendOperationRoundTrip(bo: BlendOperation)
    ensures ParseBlendOperation(Some(BlendOperationName(bo))) == Ok(bo)
  {
  }

  lemma ComparisonRoundTrip(c: ComparisonFunction)
    ensures ParseComparison(Some(ComparisonName(c))) == Ok(c)
  {
  }

  lemma CullModeRoundTrip(cm: CullMode)
    ensures ParseCullMode(Some(CullModeName(cm))) == Ok(cm)
  {
  }

  lemma FillModeRoundTrip(fm: FillMode)
    ensures ParseFillMode(Some(FillModeName(fm))) == Ok(fm)
  {
  }

  lemma TopologyRoundTrip(t: PrimitiveTopology)
    ensures ParseTopology(Some(TopologyName(t))) == Ok(t)
  {
  }

  lemma TextureFormatRoundTrip(tf: TextureFormat)
    ensures ParseTextureFormat(Some(TextureFormatName(tf))) == Ok(tf)
  {
  }

  // ---------------------------------------------------------------------------
  // Lists

  /** Convert every element in order; the first failure is the result. */
  function MapAll<A, B>(xs: seq<A>, f: A -> Result<B>): (r: Result<seq<B>>)
    ensures r.Ok? <==> forall i | 0 <= i < |xs| :: f(xs[i]).Ok?
    ensures r.Ok? ==> |r.value| == |xs| && forall i | 0 <= i < |xs| :: r.value[i] == f(xs[i]).value
    ensures r.Err? ==> exists i | 0 <= i < |xs| :: f(xs[i]) == Err(r.error) && forall j | 0 <= j < i :: f(xs[j]).Ok?
    decreases |xs|
  {
    if xs == [] then Ok([])
    else
      match f(xs[0])
      case Err(e) => Err(e)
      case Ok(y) =>
        match MapAll(xs[1..], f)
        case Err(e) =>
          var i :| 0 <= i < |xs[1..]| && f(xs[1..][i]) == Err(e) && forall j | 0 <= j < i :: f(xs[1..][j]).Ok?;
          assert f(xs[i + 1]) == Err(e) && forall j | 0 <= j < i + 1 :: f(xs[j]).Ok?;
          Err(e)
        case Ok(ys) => Ok([y] + ys)
  }

  /** A null list converts to the empty list. */
  function MapOptional<A, B>(xs: Option<seq<A>>, f: A -> Result<B>): (r: Result<seq<B>>)
    ensures xs.None? ==> r == Ok([])
    ensures xs.Some? ==> r == MapAll(xs.value, f)
  {
    if xs.None? then Ok([]) else MapAll(xs.value, f)
  }

  // ---------------------------------------------------------------------------
  // Attributes and vertex descriptors

  /**
   * `ToAttributeDescriptor`: semantic, index and offset are copied, the
   * size comes from the format helper; an unparseable name or a format
   * without a size throws.
   */
  function ToAttributeDescriptor(a: AttributeJson): (r: Result<AttributeDescriptor>)
    ensures r.Ok? <==> ParseSemantic(a.semantic).Ok? && ParseFormat(a.format).Ok? && Sized(ParseFormat(a.format).value)
    ensures r.Ok? ==>
      && a.semantic == Some(SemanticName(r.value.semantic))
      && a.format == Some(FormatName(r.value.format))
      && r.value.index == a.index
      && r.value.offset == a.offset
      && r.value.size == SizeInBytes(r.value.format).value
  {
    var semantic :- ParseSemantic(a.semantic);
    var format :- ParseFormat(a.format);
    var size :- SizeInBytes(format);
    Ok(AttributeDescriptor(semantic, a.index, format, a.offset, size))
  }

  /** `GetAttributeSize`: the JSON path's own size table, 4 for every other name and for null. */
  function JsonAttributeSize(format: Option<string>): (n: int)
    ensures n in {4, 8, 12, 16, 64}
  {
    if format.None? then 4
    else match format.value
      case "Float" => 4
      case "Float2" => 8
      case "Float3" => 12
      case "Float4" => 16
      case "Matrix4x4" => 64
      case _ => 4
  }

  /** The JSON size table agrees with the format helper on every format the helper sizes. */
  lemma JsonSizeAgreesWithHelper(f: VertexFormat)
    requires Sized(f)
    ensures JsonAttributeSize(Some(FormatName(f))) == SizeInBytes(f).value
  {
  }

  /**
   * `ToVertexDescriptor`: the attributes in JSON order and the binding
   * index as given; the stride is the last attribute's declared offset plus
   * the JSON size of its format name, or 0 for a null or empty list.
   */
  function ToVertexDescriptor(v: VertexDescriptorJson): (r: Result<VertexDescriptor>)
    ensures r.Ok? <==> v.attributes.None? || forall i | 0 <= i < |v.attributes.value| :: ToAttributeDescriptor(v.attributes.value[i]).Ok?
    ensures r.Ok? ==>
      && r.value.bindingIndex == v.bindingIndex
      && r.value.attributes == MapOptional(v.attributes, ToAttributeDescriptor).value
      && (v.attributes.None? || |v.attributes.value| == 0 ==> r.value.stride == 0)
  {
    var attributes :- MapOptional(v.attributes, ToAttributeDescriptor);
    var stride :=
      if v.attributes.None? || |v.attributes.value| == 0 then 0
      else
        var last := v.attributes.value[|v.attributes.value| - 1];
        last.offset + JsonAttributeSize(last.format);
    Ok(VertexDescriptor(attributes, stride, v.bindingIndex))
  }

  /** Whenever the conversion succeeds, the stride ends where the last attribute ends. */
  lemma StrideIsLastEnd(v: VertexDescriptorJson)
    requires ToVertexDescriptor(v).Ok?
    requires |ToVertexDescriptor(v).value.attributes| > 0
    ensures var d := ToVertexDescriptor(v).value;
      d.stride == d.attributes[|d.attributes| - 1].offset + d.attributes[|d.attributes| - 1].size
  {
    var attrs := v.attributes.value;
    var last := attrs[|attrs| - 1];
    assert ToAttributeDescriptor(last).Ok?;
    JsonSizeAgreesWithHelper(ToAttributeDescriptor(last).value.format);
  }

  /** The summed size of a list of attributes. */
  function SumAttributeSizes(attrs: seq<AttributeDescriptor>): int
    decreases |attrs|
  {
    if attrs == [] then 0 else SumAttributeSizes(attrs[..|attrs| - 1]) + attrs[|attrs| - 1].size
  }

  /** Each attribute starts where the previous one ends, the first at 0. */
  predicate TightlyPacked(attrs: seq<AttributeDescriptor>) {
    && (|attrs| > 0 ==> attrs[0].offset == 0)
    && forall k | 0 <= k < |attrs| - 1 :: attrs[k + 1].offset == attrs[k].offset + attrs[k].size
  }

  lemma {:induction false} PackedOffsetsAreSums(attrs: seq<AttributeDescriptor>, k: nat)
    requires TightlyPacked(attrs) && k < |attrs|
    ensures attrs[k].offset == SumAttributeSizes(attrs[..k])
  {
    if k > 0 {
      PackedOffsetsAreSums(attrs, k - 1);
      assert attrs[..k][..k - 1] == attrs[..k - 1];
    }
  }

  /** For a tightly packed list the last-end stride equals the summed size. */
  lemma PackedStrideIsSum(v: VertexDescriptorJson)
    requires ToVertexDescriptor(v).Ok?
    requires TightlyPacked(ToVertexDescriptor(v).value.attributes)
    ensures ToVertexDescriptor(v).value.stride == SumAttributeSizes(ToVertexDescriptor(v).value.attributes)
  {
    var attrs := ToVertexDescriptor(v).value.attributes;
    if |attrs| > 0 {
      StrideIsLastEnd(v);
      PackedEndIsSum(attrs);
    }
  }

  /** In a tightly packed list the last attribute ends at the summed size. */
  lemma PackedEndIsSum(attrs: seq<AttributeDescriptor>)
    requires TightlyPacked(attrs) && |attrs| > 0
    ensures attrs[|attrs| - 1].offset + attrs[|attrs| - 1].size == SumAttributeSizes(attrs)
  {
    PackedOffsetsAreSums(attrs, |attrs| - 1);
    assert attrs[..|attrs|][..|attrs| - 1] == attrs[..|attrs| - 1];
  }

  /** With a gap the stride is not the summed size: one Float at offset 16 gives stride 20, not 4. */
  lemma GapMakesStrideDifferFromSum()
    ensures var v := VertexDescriptorJson(0, None, Some([AttributeJson(Some("Position"), 0, Some("Float"), 16)]));
      && ToVertexDescriptor(v).Ok?
      && ToVertexDescriptor(v).value.stride == 20
      && SumAttributeSizes(ToVertexDescriptor(v).value.attributes) == 4
  {
    var v := VertexDescriptorJson(0, None, Some([AttributeJson(Some("Position"), 0, Some("Float"), 16)]));
    var attrs := ToVertexDescriptor(v).value.attributes;
    assert attrs[..0] == [];
  }

  // ---------------------------------------------------------------------------
  // State records

  function ToBlendState(b: BlendStateJson): (r: Result<BlendState>)
    ensures r.Ok? <==> ParseBlendFactor(b.sourceBlend).Ok? && ParseBlendFactor(b.destinationBlend).Ok?
                       && ParseBlendOperation(b.blendOperation).Ok?
    ensures r.Ok? ==>
      && r.value.blendEnabled == b.blendEnabled
      && b.sourceBlend == Some(BlendFactorName(r.value.sourceBlend))
      && b.destinationBlend == Some(BlendFactorName(r.value.destinationBlend))
      && b.blendOperation == Some(BlendOperationName(r.value.blendOperation))
  {
    var source :- ParseBlendFactor(b.sourceBlend);
    var destination :- ParseBlendFactor(b.destinationBlend);
    var operation :- ParseBlendOperation(b.blendOperation);
    Ok(BlendState(b.blendEnabled, source, destination, operation))
  }

  function ToDepthStencilState(d: DepthStencilStateJson): (r: Result<DepthStencilState>)
    ensures r.Ok? <==> ParseComparison(d.depthComparison).Ok?
    ensures r.Ok? ==>
      && r.value.depthTestEnabled == d.depthTestEnabled
      && r.value.depthWriteEnabled == d.depthWriteEnabled
      && d.depthComparison == Some(ComparisonName(r.value.depthComparison))
  {
    var comparison :- ParseComparison(d.depthComparison);
    Ok(DepthStencilState(d.depthTestEnabled, d.depthWriteEnabled, comparison))
  }

  function ToRasterizerState(s: RasterizerStateJson): (r: Result<RasterizerState>)
    ensures r.Ok? <==> ParseCullMode(s.cullMode).Ok? && ParseFillMode(s.fillMode).Ok?
    ensures r.Ok? ==>
      && s.cullMode == Some(CullModeName(r.value.cullMode))
      && s.fillMode == Some(FillModeName(r.value.fillMode))
      && r.value.scissorTestEnabled == s.scissorTestEnabled
  {
    var cull :- ParseCullMode(s.cullMode);
    var fill :- ParseFillMode(s.fillMode);
    Ok(RasterizerState(cull, fill, s.scissorTestEnabled))
  }

  function ToRenderTargetFormat(t: RenderTargetFormatJson): (r: Result<RenderTargetFormat>)
    ensures r.Ok? <==> ParseTextureFormat(t.format).Ok?
    ensures r.Ok? ==> t.format == Some(TextureFormatName(r.value.format)) && r.value.index == t.index
  {
    var format :- ParseTextureFormat(t.format);
    Ok(RenderTargetFormat(format, t.index))
  }

  /** A missing state section converts to the given default; a present one is converted. */
  function OrDefault<J, S>(section: Option<J>, convert: J -> Result<S>, default: S): (r: Result<S>)
    ensures section.None? ==> r == Ok(default)
    ensures section.Some? ==> r == convert(section.value)
  {
    if section.None? then Ok(default) else convert(section.value)
  }

  // ---------------------------------------------------------------------------
  // The whole pipeline

  /**
   * `ToPipelineDescriptor`: each section converted in declaration order,
   * missing sections replaced by their defaults, a missing topology read as
   * "TriangleList".  Name, uniforms and textures are not carried over.
   */
  function ToPipelineDescriptor(p: PipelineDescriptorJson): (r: Result<PipelineDescriptor>)
    ensures p.vertexDescriptors.None? && p.blendState.None? && p.depthStencilState.None?
            && p.rasterizerState.None? && p.primitiveTopology.None? && p.renderTargetFormats.None?
            ==> r == Ok(DefaultPipelineDescriptor)
    ensures r.Ok? ==>
      && (p.blendState.None? ==> r.value.blendState == DefaultBlendState)
      && (p.depthStencilState.None? ==> r.value.depthStencilState == DefaultDepthStencilState)
      && (p.rasterizerState.None? ==> r.value.rasterizerState == DefaultRasterizerState)
      && (p.primitiveTopology.None? ==> r.value.primitiveTopology == TriangleList)
      && (p.vertexDescriptors.None? ==> r.value.vertexDescriptors == [])
      && (p.renderTargetFormats.None? ==> r.value.renderTargetFormats == [])
      && (p.vertexDescriptors.Some? ==> |r.value.vertexDescriptors| == |p.vertexDescriptors.value|)
      && (p.renderTargetFormats.Some? ==> |r.value.renderTargetFormats| == |p.renderTargetFormats.value|)
    ensures r.Ok? ==>
      && (p.blendState.Some? ==> ToBlendState(p.blendState.value) == Ok(r.value.blendState))
      && (p.depthStencilState.Some? ==> ToDepthStencilState(p.depthStencilState.value) == Ok(r.value.depthStencilState))
      && (p.rasterizerState.Some? ==> ToRasterizerState(p.rasterizerState.value) == Ok(r.value.rasterizerState))
      && (p.primitiveTopology.Some? ==> p.primitiveTopology == Some(TopologyName(r.value.primitiveTopology)))
      && (p.vertexDescriptors.Some? ==> forall i | 0 <= i < |p.vertexDescriptors.value| ::
            ToVertexDescriptor(p.vertexDescriptors.value[i]) == Ok(r.value.vertexDescriptors[i]))
      && (p.renderTargetFormats.Some? ==> forall i | 0 <= i < |p.renderTargetFormats.value| ::
            ToRenderTargetFormat(p.renderTargetFormats.value[i]) == Ok(r.value.renderTargetFormats[i]))
  {
    var vertexDescriptors :- MapOptional(p.vertexDescriptors, ToVertexDescriptor);
    var blend :- OrDefault(p.blendState, ToBlendState, DefaultBlendState);
    var depthStencil :- OrDefault(p.depthStencilState, ToDepthStencilState, DefaultDepthStencilState);
    var rasterizer :- OrDefault(p.rasterizerState, ToRasterizerState, DefaultRasterizerState);
    var topology :- ParseTopology(Some(if p.primitiveTopology.Some? then p.primitiveTopology.value else "TriangleList"));
    var targets :- MapOptional(p.renderTargetFormats, ToRenderTargetFormat);
    Ok(PipelineDescriptor(vertexDescriptors, blend, depthStencil, rasterizer, topology, targets))
  }

  /** The produced descriptor does not depend on the name, the uniforms or the textures. */
  lemma NameUniformsTexturesIgnored(p: PipelineDescriptorJson, name: Option<string>,
                                    uniforms: Option<seq<UniformJson>>, textures: Option<seq<TextureJson>>)
    ensures ToPipelineDescriptor(p.(name := name, uniforms := uniforms, textures := textures)) == ToPipelineDescriptor(p)
  {
  }

  /** A pipeline converts exactly when every present section converts. */
  lemma {:induction false} PipelineConvertsIffSectionsConvert(p: PipelineDescriptorJson)
    ensures ToPipelineDescriptor(p).Ok? <==>
      && MapOptional(p.vertexDescriptors, ToVertexDescriptor).Ok?
      && (p.blendState.Some? ==> ToBlendState(p.blendState.value).Ok?)
      && (p.depthStencilState.Some? ==> ToDepthStencilState(p.depthStencilState.value).Ok?)
      && (p.rasterizerState.Some? ==> ToRasterizerState(p.rasterizerState.value).Ok?)
      && (p.primitiveTopology.Some? ==> ParseTopology(p.primitiveTopology).Ok?)
      && MapOptional(p.renderTargetFormats, ToRenderTargetFormat).Ok?
  {
  }
}
