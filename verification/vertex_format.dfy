/**
 * Vertex attribute vocabulary (Plywood.Graphics.Core/PwVertexSemantic.cs) and
 * the type -> format -> size tables (Plywood.Graphics.Core/PwVertexFormatHelper.cs).
 *
 * A C# field type is one of the ten types the table knows, or any other
 * type, named.
 */
module VertexFormats {
  import opened Common

  datatype VertexSemantic =
    | Position | Normal | Tangent | Binormal | TexCoord | Color
    | BlendWeight | BlendIndices | InstanceTransform | InstanceColor | InstanceScale

  datatype VertexFormat =
    | Float | Float2 | Float3 | Float4
    | Int | Int2 | Int3 | Int4
    | UInt | UInt2 | UInt3 | UInt4
    | Short2 | Short4 | UShort2 | UShort4
    | Byte4 | UByte4
    | Matrix4x4

  datatype FieldType =
    | FloatType | Vector2Type | Vector3Type | Vector4Type
    | IntType | UIntType | Matrix4x4Type
    | ShortType | UShortType | ByteType
    | OtherType(name: string)

  /** `GetFormatFromType`: the fixed table; every other type is unsupported. */
  function FormatFromType(t: FieldType): (r: Result<VertexFormat>)
    ensures r.Err? <==> t.OtherType?
    ensures r.Err? ==> r.error == UnsupportedFieldType
  {
    match t
    case FloatType => Ok(Float)
    case Vector2Type => Ok(Float2)
    case Vector3Type => Ok(Float3)
    case Vector4Type => Ok(Float4)
    case IntType => Ok(Int)
    case UIntType => Ok(UInt)
    case Matrix4x4Type => Ok(Matrix4x4)
    case ShortType => Ok(Short2)
    case UShortType => Ok(UShort2)
    case ByteType => Ok(Byte4)
    case OtherType(_) => Err(UnsupportedFieldType)
  }

  /** The formats the size table defines. */
  predicate Sized(f: VertexFormat) {
    f in {Float, Float2, Float3, Float4, Int, UInt, Matrix4x4, Short2, UShort2, Byte4}
  }

  /** `GetSizeInBytes`: defined for ten formats, throws for the other nine. */
  function SizeInBytes(f: VertexFormat): (r: Result<int>)
    ensures r.Ok? <==> Sized(f)
    ensures r.Err? ==> r.error == FormatWithoutSize
    ensures r.Ok? ==> r.value > 0 && r.value % 4 == 0
  {
    match f
    case Float => Ok(4)
    case Float2 => Ok(8)
    case Float3 => Ok(12)
    case Float4 => Ok(16)
    case Int => Ok(4)
    case UInt => Ok(4)
    case Matrix4x4 => Ok(64)
    case Short2 => Ok(4)
    case UShort2 => Ok(4)
    case Byte4 => Ok(4)
    case _ => Err(FormatWithoutSize)
  }

  /** `GetAlignment`: total, 4 unless the table says otherwise. */
  function Alignment(f: VertexFormat): (r: int)
    ensures r in {4, 8, 16}
  {
    match f
    case Float => 4
    case Float2 => 8
    case Float3 => 4
    case Float4 => 16
    case Matrix4x4 => 16
    case _ => 4
  }

  /** The field type the table maps to a sized format. */
  function TypeOfFormat(f: VertexFormat): FieldType
    requires Sized(f)
  {
    match f
    case Float => FloatType
    case Float2 => Vector2Type
    case Float3 => Vector3Type
    case Float4 => Vector4Type
    case Int => IntType
    case UInt => UIntType
    case Matrix4x4 => Matrix4x4Type
    case Short2 => ShortType
    case UShort2 => UShortType
    case Byte4 => ByteType
  }

  /** The size table is defined on exactly the formats the type table produces. */
  lemma SizedIffProduced(f: VertexFormat)
    ensures SizeInBytes(f).Ok? <==> exists t :: FormatFromType(t) == Ok(f)
  {
    if SizeInBytes(f).Ok? {
      assert FormatFromType(TypeOfFormat(f)) == Ok(f);
    }
  }

  /** Hence deriving a size from a supported field type never throws. */
  lemma SupportedTypeHasSize(t: FieldType)
    requires !t.OtherType?
    ensures SizeInBytes(FormatFromType(t).value).Ok?
  {
  }

  /** Distinct supported types map to distinct formats. */
  lemma FormatFromTypeInjective(t1: FieldType, t2: FieldType)
    requires FormatFromType(t1).Ok? && FormatFromType(t1) == FormatFromType(t2)
    ensures t1 == t2
  {
  }

  /** For every sized format the alignment divides the size. */
  lemma AlignmentDividesSize(f: VertexFormat)
    requires Sized(f)
    ensures SizeInBytes(f).value % Alignment(f) == 0
  {
  }
}
