/**
 * Vertex layout derivation and its cache (Plywood.Graphics.Core/PwVertexDescriptor.cs).
 *
 * Reflection over a struct's public fields becomes an explicit `VertexShape`:
 * the fields in declaration order, each with its C# type and the
 * vertex-attribute tag it carries, if any, plus whether the struct
 * implements the vertex-data marker interface.
 */
module VertexDescriptors {
  import opened Common
  import opened VertexFormats

  /** The `[PwVertex(semantic, index)]` tag on a field. */
  datatype VertexTag = VertexTag(semantic: VertexSemantic, index: int)

  datatype Field = Field(fieldType: FieldType, tag: Option<VertexTag>)

  datatype VertexShape = VertexShape(name: string, isVertexData: bool, fields: seq<Field>)

  datatype AttributeDescriptor = AttributeDescriptor(
    semantic: VertexSemantic, index: int, format: VertexFormat, offset: int, size: int)

  datatype VertexDescriptor = VertexDescriptor(attributes: seq<AttributeDescriptor>, stride: int, bindingIndex: int)

  // ---------------------------------------------------------------------------
  // The layout a shape should get

  /** The fields that carry a tag, in declaration order. */
  function Tagged(fs: seq<Field>): (r: seq<Field>)
    ensures |r| <= |fs|
    ensures forall i | 0 <= i < |r| :: r[i].tag.Some?
    decreases |fs|
  {
    if fs == [] then []
    else Tagged(fs[..|fs| - 1]) + (if fs[|fs| - 1].tag.Some? then [fs[|fs| - 1]] else [])
  }

  /** A tagged field whose type is outside the format table. */
  predicate Unsupported(f: Field) {
    f.tag.Some? && f.fieldType.OtherType?
  }

  /** The byte size of a supported field (0 for an unsupported one). */
  function FieldSize(f: Field): (n: int)
    ensures n >= 0
  {
    match FormatFromType(f.fieldType)
    case Ok(fmt) => SupportedTypeHasSize(f.fieldType); SizeInBytes(fmt).value
    case Err(_) => 0
  }

  /** The summed size of a list of fields. */
  function SumSizes(fs: seq<Field>): (n: int)
    ensures n >= 0
    decreases |fs|
  {
    if fs == [] then 0 else SumSizes(fs[..|fs| - 1]) + FieldSize(fs[|fs| - 1])
  }

  /** The attribute a tagged, supported field yields at a given offset. */
  function AttributeAt(f: Field, offset: int): AttributeDescriptor
    requires f.tag.Some? && !f.fieldType.OtherType?
  {
    var fmt := FormatFromType(f.fieldType).value;
    SupportedTypeHasSize(f.fieldType);
    AttributeDescriptor(f.tag.value.semantic, f.tag.value.index, fmt, offset, SizeInBytes(fmt).value)
  }

  lemma AttributeAtFacts(f: Field, offset: int)
    requires f.tag.Some? && !f.fieldType.OtherType?
    ensures AttributeAt(f, offset).offset == offset
    ensures AttributeAt(f, offset).size == FieldSize(f) > 0
  {
    SupportedTypeHasSize(f.fieldType);
  }

  /** Every field in `fs` is tagged with a type the format table knows. */
  predicate AllSupported(fs: seq<Field>) {
    forall i | 0 <= i < |fs| :: fs[i].tag.Some? && !fs[i].fieldType.OtherType?
  }

  /** Reference layout: each field's attribute placed at the summed size of the fields before it. */
  function LayoutOf(fs: seq<Field>): (r: seq<AttributeDescriptor>)
    requires AllSupported(fs)
    ensures |r| == |fs|
    decreases |fs|
  {
    if fs == [] then []
    else
      var init := fs[..|fs| - 1];
      LayoutOf(init) + [AttributeAt(fs[|fs| - 1], SumSizes(init))]
  }

  /**
   * `d` is the layout of `shape`: the layout of its tagged fields, with
   * the stride the summed size of all of them and binding index 0.
   */
  predicate IsLayoutOf(shape: VertexShape, d: VertexDescriptor) {
    var tagged := Tagged(shape.fields);
    && AllSupported(tagged)
    && d.attributes == LayoutOf(tagged)
    && d.stride == SumSizes(tagged)
    && d.bindingIndex == 0
  }

  lemma TaggedAppend(fs: seq<Field>, f: Field)
    ensures Tagged(fs + [f]) == Tagged(fs) + (if f.tag.Some? then [f] else [])
  {
    assert (fs + [f])[..|fs|] == fs;
  }

  lemma SumSizesAppend(fs: seq<Field>, f: Field)
    ensures SumSizes(fs + [f]) == SumSizes(fs) + FieldSize(f)
  {
    assert (fs + [f])[..|fs|] == fs;
  }

  /** An untagged field contributes nothing to the attributes or the stride. */
  lemma UntaggedFieldIsSkipped(fs: seq<Field>, f: Field)
    requires f.tag.None?
    ensures Tagged(fs + [f]) == Tagged(fs)
    ensures SumSizes(Tagged(fs + [f])) == SumSizes(Tagged(fs))
  {
    TaggedAppend(fs, f);
  }

  lemma {:induction false} UnsupportedIsTagged(fs: seq<Field>)
    ensures (exists i | 0 <= i < |fs| :: Unsupported(fs[i])) <==>
            (exists i | 0 <= i < |Tagged(fs)| :: Tagged(fs)[i].fieldType.OtherType?)
    decreases |fs|
  {
    if fs != [] {
      var init := fs[..|fs| - 1];
      var last := fs[|fs| - 1];
      UnsupportedIsTagged(init);
      assert fs == init + [last];
      TaggedAppend(init, last);
      if exists i | 0 <= i < |fs| :: Unsupported(fs[i]) {
        var i :| 0 <= i < |fs| && Unsupported(fs[i]);
        if i < |fs| - 1 {
          assert init[i] == fs[i];
          var j :| 0 <= j < |Tagged(init)| && Tagged(init)[j].fieldType.OtherType?;
          assert Tagged(fs)[j] == Tagged(init)[j];
        } else {
          assert Tagged(fs)[|Tagged(fs)| - 1] == last;
        }
      }
      if exists j | 0 <= j < |Tagged(fs)| :: Tagged(fs)[j].fieldType.OtherType? {
        var j :| 0 <= j < |Tagged(fs)| && Tagged(fs)[j].fieldType.OtherType?;
        if j < |Tagged(init)| {
          assert Tagged(init)[j] == Tagged(fs)[j];
          var i :| 0 <= i < |init| && Unsupported(init[i]);
          assert fs[i] == init[i];
        } else {
          assert Unsupported(fs[|fs| - 1]);
        }
      }
    }
  }

  // ---------------------------------------------------------------------------
  // The derivation

  /**
   * `CreateFromTypeInternal`: a type that is not vertex data throws;
   * otherwise its fields are laid out by `LayoutFields`.
   */
  method CreateFromTypeInternal(shape: VertexShape) returns (r: Result<VertexDescriptor>)
    ensures r.Ok? <==> shape.isVertexData && forall i | 0 <= i < |shape.fields| :: !Unsupported(shape.fields[i])
    ensures r.Ok? ==> IsLayoutOf(shape, r.value)
    ensures r.Err? ==> r.error == (if !shape.isVertexData then NotVertexData else UnsupportedFieldType)
  {
    if !shape.isVertexData {
      return Err(NotVertexData);
    }
    r := LayoutFields(shape.fields);
  }

  /**
   * The field walk of `CreateFromTypeInternal`: skip untagged fields and lay
   * each tagged one out at the running offset; a tagged field of an
   * unsupported type throws, so no partial layout is returned.
   */
  method LayoutFields(fields: seq<Field>) returns (r: Result<VertexDescriptor>)
    ensures r.Ok? <==> forall i | 0 <= i < |fields| :: !Unsupported(fields[i])
    ensures r.Err? ==> r.error == UnsupportedFieldType
    ensures r.Ok? ==>
      && AllSupported(Tagged(fields))
      && r.value.attributes == LayoutOf(Tagged(fields))
      && r.value.stride == SumSizes(Tagged(fields))
      && r.value.bindingIndex == 0
  {
    var attributes: seq<AttributeDescriptor> := [];
    var currentOffset := 0;
    WalkIsLayout(fields);
    var i := 0;
    while i < |fields|
      invariant 0 <= i <= |fields|
      invariant WalkFrom(fields, i, attributes, currentOffset) == WalkFrom(fields, 0, [], 0)
    {
      var f := fields[i];
      if f.tag.Some? {
        var attribute := PlaceField(f, currentOffset);
        if attribute.Err? {
          return Err(attribute.error);
        }
        attributes := attributes + [attribute.value];
        currentOffset := currentOffset + attribute.value.size;
      }
      i := i + 1;
    }
    return Ok(VertexDescriptor(attributes, currentOffset, 0));
  }

  /**
   * The rest of the walk from field `i`, given the attributes and offset so
   * far: the loop's invariant is that this never changes.
   */
  function WalkFrom(fields: seq<Field>, i: nat, attrs: seq<AttributeDescriptor>, offset: int): Result<VertexDescriptor>
    requires i <= |fields|
    decreases |fields| - i
  {
    if i == |fields| then Ok(VertexDescriptor(attrs, offset, 0))
    else if fields[i].tag.None? then WalkFrom(fields, i + 1, attrs, offset)
    else if fields[i].fieldType.OtherType? then Err(UnsupportedFieldType)
    else WalkFrom(fields, i + 1, attrs + [AttributeAt(fields[i], offset)], offset + FieldSize(fields[i]))
  }

  /** Whatever was laid out before, the walk fails exactly at an unsupported tagged field. */
  lemma {:induction false} WalkFails(fields: seq<Field>, i: nat, attrs: seq<AttributeDescriptor>, offset: int)
    requires i <= |fields|
    ensures var w := WalkFrom(fields, i, attrs, offset);
      && (w.Ok? <==> forall j | i <= j < |fields| :: !Unsupported(fields[j]))
      && (w.Err? ==> w.error == UnsupportedFieldType)
    decreases |fields| - i
  {
    if i < |fields| {
      if fields[i].tag.None? {
        WalkFails(fields, i + 1, attrs, offset);
      } else if !fields[i].fieldType.OtherType? {
        WalkFails(fields, i + 1, attrs + [AttributeAt(fields[i], offset)], offset + FieldSize(fields[i]));
      } else {
        assert Unsupported(fields[i]);
      }
    }
  }

  /** From a correctly laid-out prefix, a walk that succeeds yields the layout of all tagged fields. */
  lemma {:induction false} WalkFromPrefix(fields: seq<Field>, i: nat)
    requires i <= |fields| && AllSupported(Tagged(fields[..i]))
    ensures var w := WalkFrom(fields, i, LayoutOf(Tagged(fields[..i])), SumSizes(Tagged(fields[..i])));
      w.Ok? ==> AllSupported(Tagged(fields)) && w.value == VertexDescriptor(LayoutOf(Tagged(fields)), SumSizes(Tagged(fields)), 0)
    decreases |fields| - i
  {
    if i == |fields| {
      assert fields[..i] == fields;
    } else if !Unsupported(fields[i]) {
      WalkAdvance(fields, i);
      WalkFromPrefix(fields, i + 1);
    }
  }

  /** One step of the walk from a laid-out prefix lands on the laid-out prefix one longer. */
  lemma WalkAdvance(fields: seq<Field>, i: nat)
    requires i < |fields| && AllSupported(Tagged(fields[..i])) && !Unsupported(fields[i])
    ensures AllSupported(Tagged(fields[..i + 1]))
    ensures WalkFrom(fields, i, LayoutOf(Tagged(fields[..i])), SumSizes(Tagged(fields[..i])))
         == WalkFrom(fields, i + 1, LayoutOf(Tagged(fields[..i + 1])), SumSizes(Tagged(fields[..i + 1])))
  {
    TaggedPrefixStep(fields, i);
    var t := Tagged(fields[..i]);
    if fields[i].tag.Some? {
      WalkAdvanceTagged(fields, i, t);
    } else {
      assert t + [] == t;
    }
  }

  lemma WalkAdvanceTagged(fields: seq<Field>, i: nat, t: seq<Field>)
    requires i < |fields| && AllSupported(t) && fields[i].tag.Some? && !fields[i].fieldType.OtherType?
    ensures AllSupported(t + [fields[i]])
    ensures WalkFrom(fields, i, LayoutOf(t), SumSizes(t)) == WalkFrom(fields, i + 1, LayoutOf(t + [fields[i]]), SumSizes(t + [fields[i]]))
  {
    ExtendLayout(t, fields[i]);
  }

  lemma WalkIsLayout(fields: seq<Field>)
    ensures var w := WalkFrom(fields, 0, [], 0);
      && (w.Ok? <==> forall j | 0 <= j < |fields| :: !Unsupported(fields[j]))
      && (w.Err? ==> w.error == UnsupportedFieldType)
      && (w.Ok? ==> AllSupported(Tagged(fields)) && w.value == VertexDescriptor(LayoutOf(Tagged(fields)), SumSizes(Tagged(fields)), 0))
  {
    assert fields[..0] == [];
    WalkFails(fields, 0, [], 0);
    WalkFromPrefix(fields, 0);
  }

  lemma TaggedPrefixStep(fs: seq<Field>, i: nat)
    requires i < |fs|
    ensures Tagged(fs[..i + 1]) == Tagged(fs[..i]) + (if fs[i].tag.Some? then [fs[i]] else [])
  {
    assert fs[..i + 1] == fs[..i] + [fs[i]];
    TaggedAppend(fs[..i], fs[i]);
  }

  /** One tagged field: its format from the table (an unsupported type throws) and its size, at `offset`. */
  method PlaceField(f: Field, offset: int) returns (r: Result<AttributeDescriptor>)
    requires f.tag.Some?
    ensures r.Ok? <==> !f.fieldType.OtherType?
    ensures r.Err? ==> r.error == UnsupportedFieldType
    ensures r.Ok? ==> r.value == AttributeAt(f, offset) && r.value.size == FieldSize(f)
  {
    var format := FormatFromType(f.fieldType);
    if format.Err? {
      return Err(format.error);
    }
    SupportedTypeHasSize(f.fieldType);
    var size := SizeInBytes(format.value).value;
    return Ok(AttributeDescriptor(f.tag.value.semantic, f.tag.value.index, format.value, offset, size));
  }

  lemma ExtendLayout(tagged: seq<Field>, f: Field)
    requires AllSupported(tagged)
    requires f.tag.Some? && !f.fieldType.OtherType?
    ensures AllSupported(tagged + [f])
    ensures LayoutOf(tagged + [f]) == LayoutOf(tagged) + [AttributeAt(f, SumSizes(tagged))]
    ensures SumSizes(tagged + [f]) == SumSizes(tagged) + FieldSize(f)
  {
    assert (tagged + [f])[..|tagged|] == tagged;
    SumSizesAppend(tagged, f);
  }

  lemma UnsupportedAt(fs: seq<Field>, i: nat)
    requires i < |fs| && Unsupported(fs[i])
    ensures exists j | 0 <= j < |fs| :: Unsupported(fs[j])
  {
  }

  /** Attribute `k` of a layout starts at the summed size of the fields before it and is as large as its field. */
  lemma {:induction false} LayoutAttributeAt(fs: seq<Field>, k: nat)
    requires AllSupported(fs) && k < |fs|
    ensures LayoutOf(fs)[k].offset == SumSizes(fs[..k])
    ensures LayoutOf(fs)[k].size == FieldSize(fs[k]) > 0
    decreases |fs|
  {
    var init := fs[..|fs| - 1];
    if k < |fs| - 1 {
      LayoutAttributeAt(init, k);
      assert init[..k] == fs[..k];
    } else {
      AttributeAtFacts(fs[k], SumSizes(init));
    }
  }

  lemma LayoutAttribute(shape: VertexShape, d: VertexDescriptor, k: nat)
    requires IsLayoutOf(shape, d) && k < |d.attributes|
    ensures d.attributes[k].offset == SumSizes(Tagged(shape.fields)[..k])
    ensures d.attributes[k].size == FieldSize(Tagged(shape.fields)[k]) > 0
  {
    LayoutAttributeAt(Tagged(shape.fields), k);
  }

  /** Offsets are strictly increasing and each attribute ends where the next begins. */
  lemma {:induction false} LayoutIsPacked(shape: VertexShape, d: VertexDescriptor, k: nat)
    requires IsLayoutOf(shape, d)
    requires k + 1 < |d.attributes|
    ensures d.attributes[k + 1].offset == d.attributes[k].offset + d.attributes[k].size
    ensures d.attributes[k].offset < d.attributes[k + 1].offset
  {
    var tagged := Tagged(shape.fields);
    LayoutAttribute(shape, d, k);
    LayoutAttribute(shape, d, k + 1);
    assert tagged[..k + 1] == tagged[..k] + [tagged[k]];
    SumSizesAppend(tagged[..k], tagged[k]);
  }

  /** The stride ends where the last attribute ends. */
  lemma StrideEndsLastAttribute(shape: VertexShape, d: VertexDescriptor)
    requires IsLayoutOf(shape, d) && |d.attributes| > 0
    ensures d.stride == d.attributes[|d.attributes| - 1].offset + d.attributes[|d.attributes| - 1].size
  {
    var tagged := Tagged(shape.fields);
    var n := |tagged|;
    LayoutAttribute(shape, d, n - 1);
    assert tagged == tagged[..n - 1] + [tagged[n - 1]];
    SumSizesAppend(tagged[..n - 1], tagged[n - 1]);
  }

  // ---------------------------------------------------------------------------
  // The sample vertex types

  const SampleVertex := VertexShape("Vertex", true, [
    Field(Vector3Type, Some(VertexTag(Position, 0))),
    Field(Vector3Type, Some(VertexTag(Normal, 0))),
    Field(Vector2Type, Some(VertexTag(TexCoord, 0))),
    Field(Vector4Type, Some(VertexTag(Color, 0)))])

  const SampleInstanceData := VertexShape("InstanceData", true, [
    Field(Matrix4x4Type, Some(VertexTag(InstanceTransform, 0))),
    Field(Vector4Type, Some(VertexTag(InstanceColor, 0))),
    Field(FloatType, Some(VertexTag(InstanceScale, 0)))])

  function Offsets(d: VertexDescriptor): (r: seq<int>)
    ensures |r| == |d.attributes|
    ensures forall i | 0 <= i < |r| :: r[i] == d.attributes[i].offset
  {
    seq(|d.attributes|, i requires 0 <= i < |d.attributes| => d.attributes[i].offset)
  }

  /** When every field is tagged, the tagged fields are all of them. */
  lemma {:induction false} AllTagged(fs: seq<Field>)
    requires forall i | 0 <= i < |fs| :: fs[i].tag.Some?
    ensures Tagged(fs) == fs
    decreases |fs|
  {
    if fs != [] {
      var init := fs[..|fs| - 1];
      AllTagged(init);
      assert fs == init + [fs[|fs| - 1]];
      TaggedAppend(init, fs[|fs| - 1]);
    }
  }

  lemma SumSizesStep(fs: seq<Field>, k: nat)
    requires k < |fs|
    ensures SumSizes(fs[..k + 1]) == SumSizes(fs[..k]) + FieldSize(fs[k])
  {
    assert fs[..k + 1] == fs[..k] + [fs[k]];
    SumSizesAppend(fs[..k], fs[k]);
  }

  /** Every field is tagged and has the listed type. */
  predicate TaggedTypes(fs: seq<Field>, types: seq<FieldType>) {
    |fs| == |types| && forall i | 0 <= i < |fs| :: fs[i].tag.Some? && fs[i].fieldType == types[i]
  }

  lemma VertexLikeSums(fs: seq<Field>)
    requires TaggedTypes(fs, [Vector3Type, Vector3Type, Vector2Type, Vector4Type])
    ensures Tagged(fs) == fs
    ensures SumSizes(fs[..0]) == 0 && SumSizes(fs[..1]) == 12 && SumSizes(fs[..2]) == 24
    ensures SumSizes(fs[..3]) == 32 && SumSizes(fs) == 48
  {
    AllTagged(fs);
    assert fs[..0] == [] && fs[..4] == fs;
    SumSizesStep(fs, 0);
    SumSizesStep(fs, 1);
    SumSizesStep(fs, 2);
    SumSizesStep(fs, 3);
  }

  lemma InstanceLikeSums(fs: seq<Field>)
    requires TaggedTypes(fs, [Matrix4x4Type, Vector4Type, FloatType])
    ensures Tagged(fs) == fs
    ensures SumSizes(fs[..0]) == 0 && SumSizes(fs[..1]) == 64 && SumSizes(fs[..2]) == 80 && SumSizes(fs) == 84
  {
    AllTagged(fs);
    assert fs[..0] == [] && fs[..3] == fs;
    SumSizesStep(fs, 0);
    SumSizesStep(fs, 1);
    SumSizesStep(fs, 2);
  }

  /** Any struct tagged like the sample vertex (three-, three-, two- and four-component vectors) gets its layout. */
  lemma VertexLikeLayout(shape: VertexShape, d: VertexDescriptor)
    requires TaggedTypes(shape.fields, [Vector3Type, Vector3Type, Vector2Type, Vector4Type])
    requires IsLayoutOf(shape, d)
    ensures Offsets(d) == [0, 12, 24, 32] && d.stride == 48
  {
    VertexLikeSums(shape.fields);
    LayoutAttribute(shape, d, 0);
    LayoutAttribute(shape, d, 1);
    LayoutAttribute(shape, d, 2);
    LayoutAttribute(shape, d, 3);
  }

  /** Any struct tagged like the sample instance data (a matrix, a four-vector, a float) gets its layout. */
  lemma InstanceLikeLayout(shape: VertexShape, d: VertexDescriptor)
    requires TaggedTypes(shape.fields, [Matrix4x4Type, Vector4Type, FloatType])
    requires IsLayoutOf(shape, d)
    ensures Offsets(d) == [0, 64, 80] && d.stride == 84
  {
    InstanceLikeSums(shape.fields);
    LayoutAttribute(shape, d, 0);
    LayoutAttribute(shape, d, 1);
    LayoutAttribute(shape, d, 2);
  }

  /** The sample `Vertex`: position at 0, normal at 12, texture coordinate at 24, colour at 32; 48 bytes. */
  lemma SampleVertexLayout(d: VertexDescriptor)
    requires IsLayoutOf(SampleVertex, d)
    ensures Offsets(d) == [0, 12, 24, 32] && d.stride == 48
  {
    VertexLikeLayout(SampleVertex, d);
  }

  /** The sample `InstanceData`: transform at 0, colour at 64, scale at 80; 84 bytes. */
  lemma SampleInstanceDataLayout(d: VertexDescriptor)
    requires IsLayoutOf(SampleInstanceData, d)
    ensures Offsets(d) == [0, 64, 80] && d.stride == 84
  {
    InstanceLikeLayout(SampleInstanceData, d);
  }

  // ---------------------------------------------------------------------------
  // The cache

  /**
   * `PwVertexDescriptorCache`: one shared descriptor per type.  The cache
   * hands out the stored object itself, so a caller that changes it changes
   * what every later lookup returns.
   */
  type Cache = map<VertexShape, VertexDescriptor>

  /** `GetOrCreate`: the stored descriptor, or a freshly derived one that is stored. A failed derivation stores nothing. */
  method GetOrCreate(cache: Cache, shape: VertexShape) returns (cache': Cache, r: Result<VertexDescriptor>)
    ensures shape in cache ==> cache' == cache && r == Ok(cache[shape])
    ensures shape !in cache ==> (r.Ok? <==> shape.isVertexData && forall i | 0 <= i < |shape.fields| :: !Unsupported(shape.fields[i]))
    ensures shape !in cache && r.Ok? ==> IsLayoutOf(shape, r.value) && cache' == cache[shape := r.value]
    ensures r.Err? ==> cache' == cache && r.error == (if !shape.isVertexData then NotVertexData else UnsupportedFieldType)
  {
    if shape in cache {
      return cache, Ok(cache[shape]);
    }
    r := CreateFromTypeInternal(shape);
    cache' := if r.Ok? then cache[shape := r.value] else cache;
  }

  /** A caller overwriting the binding index of the descriptor it was handed. */
  function SetBindingIndex(cache: Cache, shape: VertexShape, bindingIndex: int): (r: Cache)
    requires shape in cache
    ensures r.Keys == cache.Keys
    ensures r[shape] == cache[shape].(bindingIndex := bindingIndex)
    ensures forall s | s in cache && s != shape :: r[s] == cache[s]
  {
    cache[shape := cache[shape].(bindingIndex := bindingIndex)]
  }

  function ClearCache(cache: Cache): (r: Cache)
    ensures forall s :: s !in r
  {
    map[]
  }

  /**
   * The renderer sets the instance layout's binding index to 1 on the shared
   * descriptor; from then on every lookup of that type returns binding 1,
   * not the derived 0, until the cache is cleared.
   */
  method SharedDescriptorIsMutated(shape: VertexShape)
    returns (before: Result<VertexDescriptor>, after: Result<VertexDescriptor>, afterClear: Result<VertexDescriptor>)
    requires shape.isVertexData && forall i | 0 <= i < |shape.fields| :: !Unsupported(shape.fields[i])
    ensures before.Ok? && before.value.bindingIndex == 0
    ensures after.Ok? && after.value.bindingIndex == 1
    ensures after.value.attributes == before.value.attributes && after.value.stride == before.value.stride
    ensures afterClear == before
  {
    var cache: Cache := map[];
    cache, before := GetOrCreate(cache, shape);
    cache := SetBindingIndex(cache, shape, 1);
    cache, after := GetOrCreate(cache, shape);
    cache := ClearCache(cache);
    cache, afterClear := GetOrCreate(cache, shape);
  }
}
