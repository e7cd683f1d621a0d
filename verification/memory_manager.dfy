/**
 * Platform-tuned buffer creation (Plywood.Graphics.Core/PwMemoryManager.cs):
 * alignment rounding, the optimised-stride choice, the per-usage creation
 * guards and the requirements cache.
 *
 * The C# element type `T` is an `ElementType`; a struct is described by its
 * vertex shape, which also says whether it implements IPwVertexData.  Element
 * values are integers.  What the device reports for a type
 * (`GetMemoryRequirements<T>`) is the `RequirementsQuery` parameter.
 */
module MemoryManagers {
  import opened Common
  import opened Buffers
  import Textures
  import opened VertexDescriptors
  import opened Gpu

  datatype MemoryType = VertexBuffer | IndexBuffer | UniformBuffer | Texture

  datatype MemoryRequirements = MemoryRequirements(size: int, alignment: int, minAlignment: int, memoryType: MemoryType)

  datatype ElementType = UShortElement | UIntElement | StructElement(shape: VertexShape)

  predicate IsVertexData(t: ElementType) {
    t.StructElement? && t.shape.isVertexData
  }

  type RequirementsQuery = ElementType -> MemoryRequirements

  /** The manager's state: the requirements cache, keyed by element type alone. */
  datatype Manager = Manager(cache: map<ElementType, MemoryRequirements>)

  const NewManager := Manager(map[])

  // ---------------------------------------------------------------------------
  // Two's-complement bit arithmetic

  /** Distance from the fixed points 0 and -1 of halving. */
  function BitMeasure(x: int): nat {
    if x < 0 then -x - 1 else x
  }

  /** `x & y` on two's-complement integers of unbounded width, bit by bit from the lowest. */
  function BitAnd(x: int, y: int): int
    decreases BitMeasure(x) + BitMeasure(y)
  {
    if (x == 0 || x == -1) && (y == 0 || y == -1) then (if x == -1 && y == -1 then -1 else 0)
    else 2 * BitAnd(x / 2, y / 2) + (x % 2) * (y % 2)
  }

  /** `x` with its low `k` bits dropped, by halving `k` times. */
  function DropBits(x: nat, k: nat): nat {
    if k == 0 then x else DropBits(x / 2, k - 1)
  }

  lemma {:induction false} AndAllOnes(x: nat)
    ensures BitAnd(x, -1) == x
  {
    if x != 0 {
      AndAllOnes(x / 2);
    }
  }

  /** Masking with `-2^k` (that is `~(2^k - 1)`) rounds a natural number down to a multiple of `2^k`. */
  lemma {:induction false} AndMaskRoundsDown(x: nat, k: nat)
    ensures BitAnd(x, -(Textures.Pow2(k) as int)) == Textures.Pow2(k) * DropBits(x, k)
    ensures Textures.Pow2(k) * DropBits(x, k) <= x < Textures.Pow2(k) * (DropBits(x, k) + 1)
  {
    if k == 0 {
      AndAllOnes(x);
    } else {
      var p: int := Textures.Pow2(k - 1);
      AndMaskRoundsDown(x / 2, k - 1);
      assert Textures.Pow2(k) == 2 * p;
      AndMaskHalves(x, p);
      DoubledBounds(x, p, DropBits(x / 2, k - 1));
    }
  }

  /** One step of `BitAnd` against an even negative mask. */
  lemma AndMaskHalves(x: nat, p: int)
    requires p >= 1
    ensures BitAnd(x, -2 * p) == 2 * BitAnd(x / 2, -p)
  {
    assert (-2 * p) / 2 == -p && (-2 * p) % 2 == 0;
  }

  /** Bounds on `x / 2` by multiples of `p` double to bounds on `x` by multiples of `2 * p`. */
  lemma DoubledBounds(x: nat, p: int, q: int)
    requires p * q <= x / 2 < p * (q + 1)
    ensures (2 * p) * q <= x < (2 * p) * (q + 1)
    ensures 2 * (p * q) == (2 * p) * q
  {
    assert 2 * (p * q) == (2 * p) * q;
    assert 2 * (p * (q + 1)) == (2 * p) * (q + 1);
  }

  // ---------------------------------------------------------------------------
  // Alignment and stride

  /** `AlignToRequirement`: `(size + alignment - 1) & ~(alignment - 1)`, where `~m == -m - 1`. */
  function Align(size: int, alignment: int): int {
    BitAnd(size + alignment - 1, -alignment)
  }

  lemma MultipleHasNoRemainder(a: int, q: int)
    requires a >= 1
    ensures (a * q) % a == 0
  {
    var d := (a * q) / a;
    assert a * q == a * d + (a * q) % a;
    assert a * (q - d) == (a * q) % a;
    OnlyZeroMultipleBelow(a, q - d);
  }

  lemma OnlyZeroMultipleBelow(a: int, m: int)
    requires a >= 1 && 0 <= a * m < a
    ensures m == 0
  {
    if m >= 1 {
      MultiplyMonotone(1, m, a);
      assert false;
    } else if m <= -1 {
      MultiplyMonotone(m, -1, a);
      assert false;
    }
  }

  /** Between two multiples of `a` that differ by less than `a` there is no third. */
  lemma LeastMultipleStep(size: int, a: int, q: int, c: int)
    requires a >= 1 && a * q <= size + a - 1 && c * a >= size
    ensures c * a >= a * q
  {
    if c < q {
      MultiplyMonotone(c, q - 1, a);
      assert false;
    }
  }

  lemma MultiplyMonotone(x: int, y: int, a: int)
    requires x <= y && a >= 0
    ensures x * a <= y * a
  {
    assert y * a - x * a == (y - x) * a;
  }

  /** For a power-of-two alignment the result is a multiple of it, at least `size`, within one alignment of it. */
  lemma AlignRoundsUp(size: int, k: nat)
    requires size >= 0
    ensures Align(size, Textures.Pow2(k)) % Textures.Pow2(k) == 0
    ensures size <= Align(size, Textures.Pow2(k)) < size + Textures.Pow2(k)
  {
    var a := Textures.Pow2(k);
    var q := DropBits(size + a - 1, k);
    AndMaskRoundsDown(size + a - 1, k);
    MultipleHasNoRemainder(a, q);
    assert a * (q + 1) == a * q + a;
  }

  /** ... and no smaller multiple of the alignment reaches `size`. */
  lemma AlignIsLeastMultiple(size: int, k: nat, c: int)
    requires size >= 0 && c * Textures.Pow2(k) >= size
    ensures c * Textures.Pow2(k) >= Align(size, Textures.Pow2(k))
  {
    var a := Textures.Pow2(k);
    AndMaskRoundsDown(size + a - 1, k);
    LeastMultipleStep(size, a, DropBits(size + a - 1, k), c);
  }

  /** A size that is already a multiple of the alignment is left as it is. */
  lemma AlignKeepsMultiples(size: int, k: nat)
    requires size >= 0 && size % Textures.Pow2(k) == 0
    ensures Align(size, Textures.Pow2(k)) == size
  {
    var a := Textures.Pow2(k);
    var c := size / a;
    assert c * a == size;
    AlignIsLeastMultiple(size, k, c);
    AlignRoundsUp(size, k);
  }

  /** Without a power of two the formula does not round to a multiple: aligning 1 to 3 gives 1. */
  lemma AlignNeedsPowerOfTwo()
    ensures Align(1, 3) == 1 && Align(1, 3) % 3 != 0
  {
    assert BitAnd(0, -1) == 0;
    assert BitAnd(1, -2) == 2 * BitAnd(0, -1);
    assert BitAnd(3, -3) == 2 * BitAnd(1, -2) + 1;
  }

  /** `CalculateOptimizedStride`: the aligned stride, raised to the minimum alignment. */
  function OptimizedStride(stride: int, req: MemoryRequirements): int {
    Max(Align(stride, req.alignment), req.minAlignment)
  }

  lemma OptimizedStrideCoversStride(stride: int, req: MemoryRequirements, k: nat)
    requires stride >= 0 && req.alignment == Textures.Pow2(k)
    ensures OptimizedStride(stride, req) >= stride
    ensures OptimizedStride(stride, req) >= req.minAlignment
    ensures Align(stride, req.alignment) >= req.minAlignment ==> OptimizedStride(stride, req) % req.alignment == 0
  {
    AlignRoundsUp(stride, k);
  }

  /** An aligned stride that already meets the minimum is kept. */
  lemma AlignedStrideIsKept(stride: int, req: MemoryRequirements, k: nat)
    requires stride >= 0 && req.alignment == Textures.Pow2(k)
    requires stride % req.alignment == 0 && stride >= req.minAlignment
    ensures OptimizedStride(stride, req) == stride
  {
    AlignKeepsMultiples(stride, k);
  }

  // ---------------------------------------------------------------------------
  // Restructuring

  /** The array handed on, and whether it is a new array rather than the caller's. */
  datatype Restructured = Restructured(elements: seq<int>, copied: bool)

  /**
   * `RestructureVertexData`: the caller's array when the optimised stride
   * equals the descriptor's, otherwise a new array filled element by element
   * (the per-element optimisation returns its input).
   */
  method RestructureVertexData(data: seq<int>, descriptor: VertexDescriptor, req: MemoryRequirements)
    returns (r: Restructured)
    ensures r.elements == data
    ensures r.copied <==> OptimizedStride(descriptor.stride, req) != descriptor.stride
  {
    if OptimizedStride(descriptor.stride, req) == descriptor.stride {
      return Restructured(data, false);
    }
    var optimized := [];
    for i := 0 to |data|
      invariant optimized == data[..i]
    {
      optimized := optimized + [data[i]];
    }
    return Restructured(optimized, true);
  }

  // ---------------------------------------------------------------------------
  // The requirements cache

  /** The memory type a usage asks for; instance and unnamed usages ask for vertex memory. */
  function MemoryTypeFor(usage: BufferUsage): (r: MemoryType)
    ensures r != Texture
    ensures r == IndexBuffer <==> usage.Index?
    ensures r == UniformBuffer <==> usage.Uniform?
  {
    match usage
    case Vertex => VertexBuffer
    case Index => IndexBuffer
    case Uniform => UniformBuffer
    case Instance => VertexBuffer
    case UnnamedUsage(_) => VertexBuffer
  }

  /**
   * `GetOrCreateRequirements`: a cached entry for the element type is
   * returned whatever the usage; otherwise the device's answer, stamped with
   * the usage's memory type, is cached and returned.
   */
  function GetOrCreateRequirements(m: Manager, t: ElementType, usage: BufferUsage, query: RequirementsQuery)
    : (r: (Manager, MemoryRequirements))
    ensures t in r.0.cache && r.0.cache[t] == r.1
    ensures r.0.cache.Keys == m.cache.Keys + {t}
    ensures forall u | u in m.cache :: r.0.cache[u] == m.cache[u]
    ensures t !in m.cache ==> r.1 == query(t).(memoryType := MemoryTypeFor(usage))
  {
    if t in m.cache then (m, m.cache[t])
    else
      var req := query(t).(memoryType := MemoryTypeFor(usage));
      (Manager(m.cache[t := req]), req)
  }

  /** The first usage of a type fixes its memory type for every later usage. */
  lemma FirstUsageFixesMemoryType(m: Manager, t: ElementType, first: BufferUsage, later: BufferUsage,
                                  query: RequirementsQuery)
    requires t !in m.cache
    ensures var (m1, r1) := GetOrCreateRequirements(m, t, first, query);
      && GetOrCreateRequirements(m1, t, later, query) == (m1, r1)
      && r1.memoryType == MemoryTypeFor(first)
  {
  }

  /** Concretely: index data of a type first used for vertices is given vertex memory. */
  lemma IndexAfterVertexGetsVertexMemory(m: Manager, t: ElementType, query: RequirementsQuery)
    requires t !in m.cache
    ensures var m1 := GetOrCreateRequirements(m, t, Vertex, query).0;
      GetOrCreateRequirements(m1, t, Index, query).1.memoryType == VertexBuffer
  {
  }

  // ---------------------------------------------------------------------------
  // Creation

  /** Index data of `ushort` passes through; `uint` is cut to its low 16 bits; other types throw. */
  function IndexData(t: ElementType, data: seq<int>): (r: Result<seq<int>>)
    ensures r.Ok? <==> t.UShortElement? || t.UIntElement?
    ensures r.Err? ==> r.error == UnsupportedIndexType
    ensures t.UShortElement? ==> r == Ok(data)
    ensures t.UIntElement? ==> |r.value| == |data| && forall i | 0 <= i < |data| ::
      0 <= r.value[i] < 65536 && (r.value[i] - data[i]) % 65536 == 0
  {
    match t
    case UShortElement => Ok(data)
    case UIntElement => Ok(seq(|data|, i requires 0 <= i < |data| => data[i] % 65536))
    case StructElement(_) => Err(UnsupportedIndexType)
  }

  /** `uint` indices below 65536 survive the cast; larger ones wrap: 65536 and 65537 become 0 and 1. */
  lemma UIntIndicesWrap(data: seq<int>)
    ensures (forall i | 0 <= i < |data| :: 0 <= data[i] < 65536) ==> IndexData(UIntElement, data) == Ok(data)
    ensures IndexData(UIntElement, [65536, 65537]) == Ok([0, 1])
  {
    if forall i | 0 <= i < |data| :: 0 <= data[i] < 65536 {
      assert IndexData(UIntElement, data).value == data;
    }
    assert IndexData(UIntElement, [65536, 65537]).value == [0, 1];
  }

  datatype Outcome = Outcome(manager: Manager, device: Device, result: Result<Buffer>)

  /** Whether `CreateOptimizedBuffer` gets past its guards for this usage and element type. */
  predicate Creatable(t: ElementType, data: seq<int>, usage: BufferUsage) {
    match usage
    case Vertex => IsVertexData(t)
    case Instance => IsVertexData(t)
    case Index => t.UShortElement? || t.UIntElement?
    case Uniform => |data| == 1
    case UnnamedUsage(_) => false
  }

  /** The exception each usage's path throws when its guard fails. */
  function CreationError(usage: BufferUsage): Error {
    match usage
    case Index => UnsupportedIndexType
    case Uniform => UniformCount
    case UnnamedUsage(_) => UnknownUsage
    case _ => NotVertexData
  }

  // ---------------------------------------------------------------------------
  // The reflective vertex path

  /** A runtime type as reflection sees it: the `IPwVertexData` interface itself, or an element type. */
  datatype RuntimeType = VertexDataInterface | ElementRuntimeType(element: ElementType)

  /**
   * Whether `MakeGenericMethod` can bind `IPwGraphicsDevice.CreateVertexBuffer<T>`
   * (constraint `where T : struct, IPwVertexData`) to a runtime type: an
   * interface is not a value type.
   */
  predicate BindsCreateVertexBuffer(rt: RuntimeType) {
    rt.ElementRuntimeType? && IsVertexData(rt.element)
  }

  /**
   * `CreateVertexBufferFromVertexData`: the generic `CreateVertexBuffer` is
   * bound to the array's runtime element type and invoked.  A type that
   * breaks the constraint throws before the device is called.  The size of
   * the minted buffer is the element count: the byte size a real device
   * reports is not part of this model.
   */
  function CreateVertexBufferByReflection(d: Device, elementType: RuntimeType, data: seq<int>): (r: (Device, Result<Buffer>))
    ensures r.1.Ok? <==> BindsCreateVertexBuffer(elementType)
    ensures r.1.Err? ==> r.0 == d && r.1.error == GenericConstraintViolated
    ensures r.1.Ok? ==> r.0 == Device(d.trace + [CreateVertexBuffer(data)], d.nextId + 1)
                        && r.1.value == Buffer(d.nextId, |data|, Vertex)
  {
    if BindsCreateVertexBuffer(elementType) then
      var (d', b) := MintBuffer(d, CreateVertexBuffer(data), |data|, Vertex);
      (d', Ok(b))
    else (d, Err(GenericConstraintViolated))
  }

  /**
   * The runtime element type of the array `Cast<IPwVertexData>().ToArray()`
   * builds: always the interface, whatever the element type of the input.
   */
  function CastArrayElementType(t: ElementType): (r: RuntimeType)
    requires IsVertexData(t)
    ensures !BindsCreateVertexBuffer(r)
  {
    VertexDataInterface
  }

  // ---------------------------------------------------------------------------
  // Creation by usage

  /**
   * `CreateOptimizedBuffer`: the requirements are looked up (and cached)
   * first, then the usage picks the creation path.  Vertex and instance data
   * must be vertex data and both become a vertex buffer, bound to the
   * caller's element type; index data goes through `IndexData`; a uniform
   * buffer needs exactly one element.  Buffer sizes are element counts.
   */
  function CreateOptimizedBuffer(m: Manager, d: Device, t: ElementType, data: seq<int>, usage: BufferUsage,
                                 query: RequirementsQuery): (r: Outcome)
    ensures r.manager == GetOrCreateRequirements(m, t, usage, query).0
    ensures r.result.Ok? <==> Creatable(t, data, usage)
    ensures r.result.Err? ==> r.device == d
    ensures r.result.Err? ==> r.result.error == CreationError(usage)
    ensures r.result.Ok? ==> r.result.value.id == d.nextId && r.device.nextId == d.nextId + 1
    ensures r.result.Ok? && (usage.Vertex? || usage.Instance?) ==>
      r.device.trace == d.trace + [CreateVertexBuffer(data)] && r.result.value.usage == Vertex
    ensures r.result.Ok? && usage.Index? ==>
      r.device.trace == d.trace + [CreateIndexBuffer(IndexData(t, data).value)] && r.result.value.usage == Index
    ensures r.result.Ok? && usage.Uniform? ==>
      r.device.trace == d.trace + [CreateUniformBuffer(data[0])] && r.result.value.usage == Uniform
  {
    var (m', _) := GetOrCreateRequirements(m, t, usage, query);
    match usage
    case Vertex =>
      if IsVertexData(t) then
        var (d', result) := CreateVertexBufferByReflection(d, ElementRuntimeType(t), data);
        Outcome(m', d', result)
      else Outcome(m', d, Err(NotVertexData))
    case Instance =>
      if IsVertexData(t) then
        var (d', result) := CreateVertexBufferByReflection(d, ElementRuntimeType(t), data);
        Outcome(m', d', result)
      else Outcome(m', d, Err(NotVertexData))
    case Index =>
      (match IndexData(t, data)
       case Err(e) => Outcome(m', d, Err(e))
       case Ok(indices) =>
         var (d', b) := MintBuffer(d, CreateIndexBuffer(indices), |indices|, Index);
         Outcome(m', d', Ok(b)))
    case Uniform =>
      if |data| != 1 then Outcome(m', d, Err(UniformCount))
      else
        var (d', b) := MintBuffer(d, CreateUniformBuffer(data[0]), 1, Uniform);
        Outcome(m', d', Ok(b))
    case UnnamedUsage(_) => Outcome(m', d, Err(UnknownUsage))
  }

  /**
   * `CreateOptimizedBuffer` as written: the vertex and instance paths hand
   * the reflective call the cast array, whose element type is the
   * interface.  Index, uniform and unnamed usages are as in
   * `CreateOptimizedBuffer`.
   */
  function CreateOptimizedBufferAsWritten(m: Manager, d: Device, t: ElementType, data: seq<int>, usage: BufferUsage,
                                          query: RequirementsQuery): (r: Outcome)
    ensures r.manager == GetOrCreateRequirements(m, t, usage, query).0
    ensures !(usage.Vertex? || usage.Instance?) ==> r == CreateOptimizedBuffer(m, d, t, data, usage, query)
  {
    if (usage.Vertex? || usage.Instance?) && IsVertexData(t) then
      var (m', _) := GetOrCreateRequirements(m, t, usage, query);
      var (d', result) := CreateVertexBufferByReflection(d, CastArrayElementType(t), data);
      Outcome(m', d', result)
    else CreateOptimizedBuffer(m, d, t, data, usage, query)
  }

  /**
   * As written, no vertex or instance request yields a buffer: vertex data
   * gets through the guard and fails at the reflective binding, anything
   * else fails the guard.  The device is never called, and the type is cached.
   */
  lemma VertexRequestsFailAsWritten(m: Manager, d: Device, t: ElementType, data: seq<int>, usage: BufferUsage,
                                    query: RequirementsQuery)
    requires usage.Vertex? || usage.Instance?
    ensures var r := CreateOptimizedBufferAsWritten(m, d, t, data, usage, query);
      && r.result == Err(if IsVertexData(t) then GenericConstraintViolated else NotVertexData)
      && r.device == d
      && t in r.manager.cache
  {
  }

  /**
   * Binding the caller's element type instead, every vertex or instance
   * request with vertex data creates exactly one vertex buffer.
   */
  lemma VertexRequestsSucceedCorrected(m: Manager, d: Device, t: ElementType, data: seq<int>, usage: BufferUsage,
                                       query: RequirementsQuery)
    requires (usage.Vertex? || usage.Instance?) && IsVertexData(t)
    ensures var r := CreateOptimizedBuffer(m, d, t, data, usage, query);
      && r.result == Ok(Buffer(d.nextId, |data|, Vertex))
      && r.device.trace == d.trace + [CreateVertexBuffer(data)]
      && CreateOptimizedBufferAsWritten(m, d, t, data, usage, query).result.Err?
  {
  }

  /** A creation that throws still leaves the element type cached. */
  lemma FailedCreationStillCaches(m: Manager, d: Device, t: ElementType, data: seq<int>, usage: BufferUsage,
                                  query: RequirementsQuery)
    requires t !in m.cache && !Creatable(t, data, usage)
    ensures var r := CreateOptimizedBuffer(m, d, t, data, usage, query);
      r.result.Err? && t in r.manager.cache && |r.manager.cache| == |m.cache| + 1
  {
    var r := CreateOptimizedBuffer(m, d, t, data, usage, query);
    assert r.manager.cache.Keys == m.cache.Keys + {t};
  }

  /**
   * `CreateOptimizedVertexBuffer`: requirements for vertex usage, the shared
   * layout of the type, then the restructured data handed to the device.
   * The generic constraint makes the type vertex data.
   */
  method CreateOptimizedVertexBuffer(m: Manager, layouts: VertexDescriptors.Cache, d: Device, shape: VertexShape,
                                     data: seq<int>, query: RequirementsQuery)
    returns (m': Manager, layouts': VertexDescriptors.Cache, d': Device, r: Result<Buffer>)
    requires shape.isVertexData
    ensures m' == GetOrCreateRequirements(m, StructElement(shape), Vertex, query).0
    ensures r.Ok? <==> shape in layouts || forall i | 0 <= i < |shape.fields| :: !Unsupported(shape.fields[i])
    ensures r.Err? ==> r.error == UnsupportedFieldType && d' == d && layouts' == layouts
    ensures r.Ok? ==> shape in layouts'
    ensures r.Ok? ==> d'.trace == d.trace + [CreateVertexBuffer(data)] && r.value == Buffer(d.nextId, |data|, Vertex)
  {
    var req;
    m', req := GetOrCreateRequirements(m, StructElement(shape), Vertex, query).0,
               GetOrCreateRequirements(m, StructElement(shape), Vertex, query).1;
    var descriptor;
    layouts', descriptor := VertexDescriptors.GetOrCreate(layouts, shape);
    if descriptor.Err? {
      d', r := d, Err(descriptor.error);
      return;
    }
    var optimized := RestructureVertexData(data, descriptor.value, req);
    var b;
    d', b := MintBuffer(d, CreateVertexBuffer(optimized.elements), |optimized.elements|, Vertex).0,
             MintBuffer(d, CreateVertexBuffer(optimized.elements), |optimized.elements|, Vertex).1;
    r := Ok(b);
  }

  // ---------------------------------------------------------------------------
  // Statistics

  datatype MemoryUsageInfo = MemoryUsageInfo(cacheEntries: int, totalCachedTypes: int)

  /** `GetMemoryUsage`: both fields count the cached element types. */
  function GetMemoryUsage(m: Manager): (r: MemoryUsageInfo)
    ensures r.cacheEntries == r.totalCachedTypes == |m.cache.Keys|
  {
    MemoryUsageInfo(|m.cache|, |m.cache.Keys|)
  }

  function ClearCache(m: Manager): (r: Manager)
    ensures forall t :: t !in r.cache
  {
    Manager(map[])
  }

  /** Looking up a new type adds one entry; clearing brings the count back to zero. */
  lemma UsageCountsCachedTypes(m: Manager, t: ElementType, usage: BufferUsage, query: RequirementsQuery)
    requires t !in m.cache
    ensures GetMemoryUsage(GetOrCreateRequirements(m, t, usage, query).0).cacheEntries == GetMemoryUsage(m).cacheEntries + 1
    ensures GetMemoryUsage(ClearCache(m)) == MemoryUsageInfo(0, 0)
  {
    var m1 := GetOrCreateRequirements(m, t, usage, query).0;
    assert m1.cache.Keys == m.cache.Keys + {t};
    assert ClearCache(m).cache.Keys == {};
  }
}
