/**
 * Index generation for the sample meshes (Plywood.Graphics.Sample/PrimitiveGenerator.cs).
 *
 * Vertex contents (positions, normals, texture coordinates) are
 * trigonometry in floating point and are not modelled; a mesh is its vertex
 * count and its index list.  Indices are stored as `ushort`, so each emitted
 * index is the computed integer modulo 65536.
 */
module Primitives {
  import opened Common

  datatype PrimitiveData = PrimitiveData(vertexCount: int, indices: seq<int>)

  /** The `(ushort)` cast. */
  function UShort(x: int): (r: int)
    ensures 0 <= r < 65536
  {
    x % 65536
  }

  function Truncated(xs: seq<int>): (r: seq<int>)
    ensures |r| == |xs| && forall i | 0 <= i < |xs| :: r[i] == UShort(xs[i])
  {
    seq(|xs|, i requires 0 <= i < |xs| => UShort(xs[i]))
  }

  lemma TruncatedAppend(a: seq<int>, b: seq<int>)
    ensures Truncated(a + b) == Truncated(a) + Truncated(b)
  {
  }

  /** Indices below 65536 survive the cast unchanged. */
  lemma SmallIndicesSurvive(xs: seq<int>, bound: int)
    requires bound <= 65536
    requires forall i | 0 <= i < |xs| :: 0 <= xs[i] < bound
    ensures Truncated(xs) == xs
  {
  }

  /** Every consecutive triple (a triangle) has three different corners. */
  predicate TrianglesDistinct(xs: seq<int>)
    decreases |xs|
  {
    if |xs| < 3 then xs == []
    else xs[0] != xs[1] && xs[1] != xs[2] && xs[0] != xs[2] && TrianglesDistinct(xs[3..])
  }

  lemma {:induction false} TrianglesDistinctAppend(a: seq<int>, b: seq<int>)
    requires TrianglesDistinct(a) && TrianglesDistinct(b)
    ensures TrianglesDistinct(a + b)
    decreases |a|
  {
    if |a| >= 3 {
      assert (a + b)[3..] == a[3..] + b;
      TrianglesDistinctAppend(a[3..], b);
    } else {
      assert a + b == b;
    }
  }

  /** Every index lies in `[lo, hi)`. */
  predicate AllWithin(xs: seq<int>, lo: int, hi: int) {
    forall i | 0 <= i < |xs| :: lo <= xs[i] < hi
  }

  lemma AllWithinAppend(a: seq<int>, b: seq<int>, lo: int, hi: int)
    requires AllWithin(a, lo, hi) && AllWithin(b, lo, hi)
    ensures AllWithin(a + b, lo, hi)
  {
  }

  // ---------------------------------------------------------------------------
  // Cube

  /** Corner of face `f` used at position `c` of its six indices: 0 1 2, 0 2 3. */
  function CubeCorner(c: int): int
    requires 0 <= c < 6
  {
    if c == 0 then 0 else if c == 1 then 1 else if c == 2 then 2
    else if c == 3 then 0 else if c == 4 then 2 else 3
  }

  /** The `k`-th cube index: face `k / 6`, whose four vertices start at `4 * face`. */
  function CubeIndex(k: int): int
    requires 0 <= k
  {
    4 * (k / 6) + CubeCorner(k % 6)
  }

  /** `GenerateCube`: 24 vertices, four per face, and two triangles per face. */
  method GenerateCube() returns (p: PrimitiveData)
    ensures p.vertexCount == 24 && |p.indices| == 36
    ensures forall k | 0 <= k < 36 :: p.indices[k] == CubeIndex(k)
  {
    var indices := [];
    for i := 0 to 6
      invariant |indices| == 6 * i
      invariant forall k | 0 <= k < 6 * i :: indices[k] == CubeIndex(k)
    {
      var baseIndex := i * 4;
      indices := indices + [UShort(baseIndex + 0), UShort(baseIndex + 1), UShort(baseIndex + 2),
                            UShort(baseIndex + 0), UShort(baseIndex + 2), UShort(baseIndex + 3)];
      forall k | 6 * i <= k < 6 * i + 6
        ensures CubeIndex(k) == baseIndex + CubeCorner(k - 6 * i)
      {
        assert k / 6 == i;
      }
    }
    p := PrimitiveData(24, indices);
  }

  /** Some index of the cube names vertex `v`. */
  predicate CubeUses(v: int) {
    exists k | 0 <= k < 36 :: CubeIndex(k) == v
  }

  /** The cube's indices stay below 24, use every one of the 24 vertices, and form proper triangles. */
  lemma CubeIndicesCoverVertices()
    ensures forall k | 0 <= k < 36 :: 0 <= CubeIndex(k) < 24
    ensures forall v | 0 <= v < 24 :: CubeUses(v)
    ensures forall t | 0 <= t < 12 ::
      CubeIndex(3 * t) != CubeIndex(3 * t + 1) && CubeIndex(3 * t + 1) != CubeIndex(3 * t + 2) && CubeIndex(3 * t) != CubeIndex(3 * t + 2)
  {
    forall v | 0 <= v < 24
      ensures CubeUses(v)
    {
      var f := v / 4;
      var c := v % 4;
      var k := 6 * f + (if c == 3 then 5 else c);
      assert k / 6 == f && k % 6 == (if c == 3 then 5 else c);
      assert CubeIndex(k) == v;
    }
    forall t | 0 <= t < 12
      ensures CubeIndex(3 * t) != CubeIndex(3 * t + 1) && CubeIndex(3 * t + 1) != CubeIndex(3 * t + 2)
              && CubeIndex(3 * t) != CubeIndex(3 * t + 2)
    {
      var f := t / 2;
      assert (3 * t) / 6 == f && (3 * t + 1) / 6 == f && (3 * t + 2) / 6 == f;
    }
  }

  // ---------------------------------------------------------------------------
  // Sphere

  /** The two triangles of the quad at ring `r`, sector `s`. */
  function SphereQuad(r: int, s: int, sectors: int): seq<int> {
    var current := r * (sectors + 1) + s;
    var next := current + sectors + 1;
    [current, next, current + 1, current + 1, next, next + 1]
  }

  /** The quads of ring `r` for sectors `0 .. s - 1`. */
  function SphereRow(r: int, s: int, sectors: int): (xs: seq<int>)
    ensures |xs| == 6 * (if s < 0 then 0 else s)
    decreases s
  {
    if s <= 0 then [] else SphereRow(r, s - 1, sectors) + SphereQuad(r, s - 1, sectors)
  }

  /** All quads of rings `0 .. r - 1`, in the order the loops emit them. */
  function SphereRows(r: int, sectors: int): seq<int>
    decreases r
  {
    if r <= 0 then [] else SphereRows(r - 1, sectors) + SphereRow(r - 1, sectors, sectors)
  }

  /**
   * `GenerateSphere`: `(rings + 1) * (sectors + 1)` vertices (a negative count
   * throws on allocation) and the quads of every ring and sector, cast to
   * `ushort`.
   */
  method GenerateSphere(rings: int, sectors: int) returns (res: Result<PrimitiveData>)
    ensures res.Err? <==> (rings + 1) * (sectors + 1) < 0
    ensures res.Err? ==> res.error == NegativeLength
    ensures res.Ok? ==> res.value.vertexCount == (rings + 1) * (sectors + 1)
    ensures res.Ok? ==> res.value.indices == Truncated(SphereRows(rings, sectors))
  {
    var vertexCount := (rings + 1) * (sectors + 1);
    if vertexCount < 0 {
      return Err(NegativeLength);
    }
    var indices := [];
    var r := 0;
    while r < rings
      invariant 0 <= r <= (if rings < 0 then 0 else rings)
      invariant indices == Truncated(SphereRows(r, sectors))
    {
      var row := EmitSphereRow(r, sectors);
      TruncatedAppend(SphereRows(r, sectors), SphereRow(r, sectors, sectors));
      indices := indices + row;
      r := r + 1;
    }
    assert rings <= 0 ==> SphereRows(rings, sectors) == [];
    return Ok(PrimitiveData(vertexCount, indices));
  }

  /** The inner loop of `GenerateSphere`: the quads of ring `r`. */
  method EmitSphereRow(r: int, sectors: int) returns (row: seq<int>)
    ensures row == Truncated(SphereRow(r, sectors, sectors))
  {
    row := [];
    var ringStart := r * (sectors + 1);
    var s := 0;
    while s < sectors
      invariant 0 <= s <= (if sectors < 0 then 0 else sectors)
      invariant row == Truncated(SphereRow(r, s, sectors))
    {
      var current := ringStart + s;
      var next := current + sectors + 1;
      SphereRowStep(r, s, sectors, ringStart);
      row := row + [UShort(current), UShort(next), UShort(current + 1),
                    UShort(current + 1), UShort(next), UShort(next + 1)];
      s := s + 1;
    }
    assert sectors <= 0 ==> s == 0;
  }

  /** One more sector appends its quad, cast to 16 bits. */
  lemma SphereRowStep(r: int, s: int, sectors: int, ringStart: int)
    requires 0 <= s && ringStart == r * (sectors + 1)
    ensures var current := ringStart + s;
      var next := current + sectors + 1;
      Truncated(SphereRow(r, s + 1, sectors)) == Truncated(SphereRow(r, s, sectors)) +
        [UShort(current), UShort(next), UShort(current + 1), UShort(current + 1), UShort(next), UShort(next + 1)]
  {
    TruncatedAppend(SphereRow(r, s, sectors), SphereQuad(r, s, sectors));
  }

  lemma MultiplyMonotone(x: int, y: int, a: int)
    requires x <= y && a >= 0
    ensures x * a <= y * a
  {
    assert y * a - x * a == (y - x) * a;
  }

  /**
   * The quad at `(r, s)` joins rings `r` and `r + 1`, whose vertices start at
   * `r * (sectors + 1)`: it stays below `hi` when two rings' worth fit.
   */
  lemma SphereQuadFacts(r: int, s: int, sectors: int, hi: int)
    requires 0 <= s < sectors && 0 <= r * (sectors + 1) && r * (sectors + 1) + 2 * (sectors + 1) <= hi
    ensures AllWithin(SphereQuad(r, s, sectors), 0, hi)
    ensures TrianglesDistinct(SphereQuad(r, s, sectors))
  {
    var q := SphereQuad(r, s, sectors);
    assert q[3..][3..] == [];
  }

  lemma {:induction false} SphereRowFacts(r: int, s: int, sectors: int, hi: int)
    requires 0 <= s <= sectors && 0 <= r * (sectors + 1) && r * (sectors + 1) + 2 * (sectors + 1) <= hi
    ensures AllWithin(SphereRow(r, s, sectors), 0, hi)
    ensures TrianglesDistinct(SphereRow(r, s, sectors))
    decreases s
  {
    if s > 0 {
      SphereRowFacts(r, s - 1, sectors, hi);
      SphereQuadFacts(r, s - 1, sectors, hi);
      AllWithinAppend(SphereRow(r, s - 1, sectors), SphereQuad(r, s - 1, sectors), 0, hi);
      TrianglesDistinctAppend(SphereRow(r, s - 1, sectors), SphereQuad(r, s - 1, sectors));
    }
  }

  /** The first `r` rings use vertices below `(r + 1) * (sectors + 1)`, in proper triangles. */
  lemma {:induction false} SphereRowsFacts(r: int, sectors: int, hi: int)
    requires 0 <= r && 0 <= sectors && (r + 1) * (sectors + 1) <= hi
    ensures AllWithin(SphereRows(r, sectors), 0, hi)
    ensures TrianglesDistinct(SphereRows(r, sectors))
    decreases r
  {
    if r > 0 {
      var rowStart := (r - 1) * (sectors + 1);
      assert r * (sectors + 1) == rowStart + (sectors + 1);
      assert (r + 1) * (sectors + 1) == rowStart + 2 * (sectors + 1);
      MultiplyMonotone(0, r - 1, sectors + 1);
      SphereRowsFacts(r - 1, sectors, hi);
      SphereRowFacts(r - 1, sectors, sectors, hi);
      AllWithinAppend(SphereRows(r - 1, sectors), SphereRow(r - 1, sectors, sectors), 0, hi);
      TrianglesDistinctAppend(SphereRows(r - 1, sectors), SphereRow(r - 1, sectors, sectors));
    }
  }

  lemma {:induction false} SphereRowsLength(r: int, sectors: int)
    requires 0 <= r && 0 <= sectors
    ensures |SphereRows(r, sectors)| == 6 * r * sectors
    decreases r
  {
    if r > 0 {
      SphereRowsLength(r - 1, sectors);
      PeelFactor(r, 6 * sectors);
    }
  }

  lemma PeelFactor(r: int, a: int)
    ensures r * a == (r - 1) * a + a
  {
  }

  /**
   * A sphere with at least one ring and one sector has `6 * rings * sectors`
   * indices, every one a vertex of the mesh, the last one the last vertex,
   * and no degenerate triangle; below 65536 vertices the cast loses nothing.
   */
  lemma SphereIndicesWellFormed(rings: int, sectors: int)
    requires rings >= 1 && sectors >= 1
    ensures var raw := SphereRows(rings, sectors); var count := (rings + 1) * (sectors + 1);
      && |raw| == 6 * rings * sectors
      && AllWithin(raw, 0, count)
      && raw[|raw| - 1] == count - 1
      && TrianglesDistinct(raw)
      && (count <= 65536 ==> Truncated(raw) == raw)
  {
    var count := (rings + 1) * (sectors + 1);
    SphereRowsFacts(rings, sectors, count);
    SphereRowsLength(rings, sectors);
    var raw := SphereRows(rings, sectors);
    assert raw[|raw| - 1] == SphereQuad(rings - 1, sectors - 1, sectors)[5];
    assert (rings - 1) * (sectors + 1) + sectors + 1 == rings * (sectors + 1);
    assert count == rings * (sectors + 1) + sectors + 1;
    if count <= 65536 {
      SmallIndicesSurvive(raw, count);
    }
  }

  // ---------------------------------------------------------------------------
  // Cylinder

  /** The two side triangles between sector `i` and `i + 1`; top rim from vertex 2, bottom rim after it. */
  function CylinderQuad(i: int, sectors: int): seq<int> {
    var topCurrent := 2 + i;
    var bottomCurrent := 2 + sectors + 1 + i;
    [topCurrent, bottomCurrent, topCurrent + 1, topCurrent + 1, bottomCurrent, bottomCurrent + 1]
  }

  function CylinderQuads(n: int, sectors: int): (xs: seq<int>)
    ensures |xs| == 6 * (if n < 0 then 0 else n)
    decreases n
  {
    if n <= 0 then [] else CylinderQuads(n - 1, sectors) + CylinderQuad(n - 1, sectors)
  }

  /**
   * `GenerateCylinder`: `(sectors + 1) * 2 + 2` vertices, the two cap centres
   * first (written before any check, so a zero-length array throws), then
   * the side quads.
   */
  method GenerateCylinder(sectors: int) returns (res: Result<PrimitiveData>)
    ensures res.Err? <==> sectors < -1
    ensures res.Err? ==> res.error == (if sectors < -2 then NegativeLength else IndexOutOfRange)
    ensures res.Ok? ==> res.value.vertexCount == (sectors + 1) * 2 + 2
    ensures res.Ok? ==> res.value.indices == Truncated(CylinderQuads(sectors, sectors))
  {
    var vertexCount := (sectors + 1) * 2 + 2;
    if vertexCount < 0 {
      return Err(NegativeLength);
    }
    if vertexCount < 2 {
      return Err(IndexOutOfRange);
    }
    var indices := EmitCylinderSides(sectors);
    return Ok(PrimitiveData(vertexCount, indices));
  }

  /** The side quads, sector by sector; the caps are never indexed. */
  method EmitCylinderSides(sectors: int) returns (indices: seq<int>)
    ensures indices == Truncated(CylinderQuads(sectors, sectors))
  {
    indices := [];
    var i := 0;
    while i < sectors
      invariant 0 <= i <= (if sectors < 0 then 0 else sectors)
      invariant indices == Truncated(CylinderQuads(i, sectors))
    {
      var topCurrent := 2 + i;
      var topNext := 2 + i + 1;
      var bottomCurrent := 2 + sectors + 1 + i;
      var bottomNext := 2 + sectors + 1 + i + 1;
      CylinderQuadsStep(i, sectors);
      indices := indices + [UShort(topCurrent), UShort(bottomCurrent), UShort(topNext),
                            UShort(topNext), UShort(bottomCurrent), UShort(bottomNext)];
      i := i + 1;
    }
    assert sectors <= 0 ==> i == 0;
  }

  /** One more sector appends its side quad, cast to 16 bits. */
  lemma CylinderQuadsStep(i: int, sectors: int)
    requires 0 <= i
    ensures Truncated(CylinderQuads(i + 1, sectors)) == Truncated(CylinderQuads(i, sectors)) +
      [UShort(2 + i), UShort(2 + sectors + 1 + i), UShort(2 + i + 1),
       UShort(2 + i + 1), UShort(2 + sectors + 1 + i), UShort(2 + sectors + 1 + i + 1)]
  {
    TruncatedAppend(CylinderQuads(i, sectors), CylinderQuad(i, sectors));
  }

  lemma {:induction false} CylinderQuadsFacts(n: int, sectors: int)
    requires 0 <= n <= sectors
    ensures AllWithin(CylinderQuads(n, sectors), 2, (sectors + 1) * 2 + 2)
    ensures TrianglesDistinct(CylinderQuads(n, sectors))
    decreases n
  {
    if n > 0 {
      CylinderQuadsFacts(n - 1, sectors);
      var q := CylinderQuad(n - 1, sectors);
      assert q[3..][3..] == [];
      AllWithinAppend(CylinderQuads(n - 1, sectors), q, 2, (sectors + 1) * 2 + 2);
      TrianglesDistinctAppend(CylinderQuads(n - 1, sectors), q);
    }
  }

  /**
   * A cylinder with at least one sector has `6 * sectors` indices, all in
   * `[2, vertexCount)` (the cap centres 0 and 1 are never used), the last
   * one the last vertex, and no degenerate triangle.
   */
  lemma CylinderIndicesWellFormed(sectors: int)
    requires sectors >= 1
    ensures var raw := CylinderQuads(sectors, sectors); var count := (sectors + 1) * 2 + 2;
      && |raw| == 6 * sectors
      && AllWithin(raw, 2, count)
      && (forall i | 0 <= i < |raw| :: raw[i] != 0 && raw[i] != 1)
      && raw[|raw| - 1] == count - 1
      && TrianglesDistinct(raw)
      && (count <= 65536 ==> Truncated(raw) == raw)
  {
    CylinderQuadsFacts(sectors, sectors);
    var raw := CylinderQuads(sectors, sectors);
    var count := (sectors + 1) * 2 + 2;
    assert raw[|raw| - 1] == CylinderQuad(sectors - 1, sectors)[5];
    if count <= 65536 {
      SmallIndicesSurvive(raw, count);
    }
  }
}
