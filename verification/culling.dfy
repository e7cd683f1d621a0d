/**
 * The sample's frustum and distance culling (Plywood.Graphics.Sample/PwCullingSystem.cs),
 * over real numbers.
 *
 * The frustum's planes are given: extracting them from a view-projection
 * matrix and normalising them are floating-point work outside this model,
 * and `ScaledPlaneGivesSameVerdict` shows normalising by a positive length
 * does not change the test.  A distance `sqrt(d2) <= max` is checked in the
 * squared form `0 <= max && d2 <= max * max`.
 */
module Culling {
  import opened Lists

  datatype Vec3 = Vec3(x: real, y: real, z: real)

  function Dot(a: Vec3, b: Vec3): real {
    a.x * b.x + a.y * b.y + a.z * b.z
  }

  function Scale(k: real, v: Vec3): Vec3 {
    Vec3(k * v.x, k * v.y, k * v.z)
  }

  /** `Vector3.DistanceSquared`. */
  function DistanceSquared(a: Vec3, b: Vec3): (r: real)
    ensures r >= 0.0
  {
    (a.x - b.x) * (a.x - b.x) + (a.y - b.y) * (a.y - b.y) + (a.z - b.z) * (a.z - b.z)
  }

  /** `PwBoundingBox`, corners as given (nothing forces `min <= max`). */
  datatype BoundingBox = BoundingBox(min: Vec3, max: Vec3)

  predicate WellFormed(b: BoundingBox) {
    b.min.x <= b.max.x && b.min.y <= b.max.y && b.min.z <= b.max.z
  }

  predicate Contains(b: BoundingBox, p: Vec3) {
    && b.min.x <= p.x <= b.max.x
    && b.min.y <= p.y <= b.max.y
    && b.min.z <= p.z <= b.max.z
  }

  /** `PwBoundingBox.Intersects`: closed-interval overlap on every axis. */
  predicate Intersects(a: BoundingBox, b: BoundingBox) {
    && a.min.x <= b.max.x && a.max.x >= b.min.x
    && a.min.y <= b.max.y && a.max.y >= b.min.y
    && a.min.z <= b.max.z && a.max.z >= b.min.z
  }

  lemma IntersectsIsSymmetric(a: BoundingBox, b: BoundingBox)
    ensures Intersects(a, b) <==> Intersects(b, a)
  {
  }

  function RealMax(a: real, b: real): real {
    if a >= b then a else b
  }

  /** For well-formed boxes, overlap means exactly that some point lies in both. */
  lemma IntersectsIffCommonPoint(a: BoundingBox, b: BoundingBox)
    requires WellFormed(a) && WellFormed(b)
    ensures Intersects(a, b) <==> exists p :: Contains(a, p) && Contains(b, p)
  {
    if Intersects(a, b) {
      var p := Vec3(RealMax(a.min.x, b.min.x), RealMax(a.min.y, b.min.y), RealMax(a.min.z, b.min.z));
      assert Contains(a, p) && Contains(b, p);
    }
  }

  // ---------------------------------------------------------------------------
  // Planes and the frustum test

  /** A plane `n . v + d = 0`; its non-negative side is inside. */
  datatype Plane = Plane(normal: Vec3, d: real)

  /** `Plane.DotCoordinate`. */
  function DotCoordinate(p: Plane, v: Vec3): real {
    Dot(p.normal, v) + p.d
  }

  /** `GetPositiveVertex`: per axis the max corner where the normal is non-negative, else the min corner. */
  function PositiveVertex(b: BoundingBox, n: Vec3): Vec3 {
    Vec3(if n.x >= 0.0 then b.max.x else b.min.x,
         if n.y >= 0.0 then b.max.y else b.min.y,
         if n.z >= 0.0 then b.max.z else b.min.z)
  }

  /** On one axis: `c` is the end of the interval that `n` points to, so it maximises `n * p`. */
  lemma AxisExtreme(n: real, p: real, c: real)
    requires if n >= 0.0 then p <= c else c <= p
    ensures n * p <= n * c
  {
    if n >= 0.0 {
      assert n * (c - p) >= 0.0;
    } else {
      assert n * (p - c) <= 0.0;
    }
  }

  lemma SumOfThree(a1: real, a2: real, a3: real, b1: real, b2: real, b3: real)
    requires a1 <= b1 && a2 <= b2 && a3 <= b3
    ensures a1 + a2 + a3 <= b1 + b2 + b3
  {
  }

  /** Over a box, the positive vertex maximises `n . p`. */
  lemma PositiveVertexMaximises(b: BoundingBox, n: Vec3, p: Vec3)
    requires Contains(b, p)
    ensures Dot(n, p) <= Dot(n, PositiveVertex(b, n))
  {
    var v := PositiveVertex(b, n);
    AxisExtreme(n.x, p.x, v.x);
    AxisExtreme(n.y, p.y, v.y);
    AxisExtreme(n.z, p.z, v.z);
    SumOfThree(n.x * p.x, n.y * p.y, n.z * p.z, n.x * v.x, n.y * v.y, n.z * v.z);
  }

  /** Whether the positive vertex lies on the inner side of the plane. */
  predicate PlaneAccepts(p: Plane, b: BoundingBox) {
    DotCoordinate(p, PositiveVertex(b, p.normal)) >= 0.0
  }

  /** `IntersectsBoundingBox`: planes tried in order; the first that rejects ends the test. */
  function IntersectsBoundingBox(planes: seq<Plane>, b: BoundingBox): (r: bool)
    ensures r <==> forall i | 0 <= i < |planes| :: PlaneAccepts(planes[i], b)
    decreases |planes|
  {
    if planes == [] then true
    else if DotCoordinate(planes[0], PositiveVertex(b, planes[0].normal)) < 0.0 then false
    else IntersectsBoundingBox(planes[1..], b)
  }

  /** The test is conservative: a box holding a point inside every plane is never rejected. */
  lemma BoxWithInsidePointIsKept(planes: seq<Plane>, b: BoundingBox, p: Vec3)
    requires Contains(b, p)
    requires forall i | 0 <= i < |planes| :: DotCoordinate(planes[i], p) >= 0.0
    ensures IntersectsBoundingBox(planes, b)
  {
    forall i | 0 <= i < |planes|
      ensures PlaneAccepts(planes[i], b)
    {
      PositiveVertexMaximises(b, planes[i].normal, p);
    }
  }

  /** Scaling a plane by a positive factor (as normalising does) changes neither the corner nor the verdict. */
  lemma ScaledPlaneGivesSameVerdict(p: Plane, k: real, b: BoundingBox)
    requires k > 0.0
    ensures PositiveVertex(b, Scale(k, p.normal)) == PositiveVertex(b, p.normal)
    ensures PlaneAccepts(Plane(Scale(k, p.normal), k * p.d), b) <==> PlaneAccepts(p, b)
  {
    var n := p.normal;
    var v := PositiveVertex(b, n);
    assert (k * n.x >= 0.0) == (n.x >= 0.0) by {
      if n.x < 0.0 { assert k * n.x < 0.0; }
    }
    assert (k * n.y >= 0.0) == (n.y >= 0.0) by {
      if n.y < 0.0 { assert k * n.y < 0.0; }
    }
    assert (k * n.z >= 0.0) == (n.z >= 0.0) by {
      if n.z < 0.0 { assert k * n.z < 0.0; }
    }
    var s := DotCoordinate(p, v);
    assert DotCoordinate(Plane(Scale(k, n), k * p.d), v) == k * s;
    if s < 0.0 {
      assert k * s < 0.0;
    } else {
      assert k * s >= 0.0;
    }
  }

  // ---------------------------------------------------------------------------
  // Objects and the system

  /**
   * `PwCullableObject`.  `id` stands for the object's identity: the source
   * compares objects by reference.
   */
  datatype CullableObject = CullableObject(
    id: nat,
    position: Vec3,
    boundingBox: BoundingBox,
    maxDrawDistance: real,
    enableOcclusionCulling: bool,
    lodLevel: int)

  /** A new object: draw distance 100, occlusion culling on, level of detail 0. */
  function NewObject(id: nat, position: Vec3, boundingBox: BoundingBox): CullableObject {
    CullableObject(id, position, boundingBox, 100.0, true, 0)
  }

  /** `distance <= max` for the non-negative root `distance` of `d2`, without the root. */
  predicate WithinDistance(d2: real, max: real) {
    max >= 0.0 && d2 <= max * max
  }

  /** The squared form agrees with comparing the root itself. */
  lemma WithinDistanceMatchesRoot(distance: real, max: real)
    requires distance >= 0.0
    ensures WithinDistance(distance * distance, max) <==> distance <= max
  {
    if distance <= max {
      SquareMonotone(distance, max);
    } else if max >= 0.0 {
      SquareStrictlyMonotone(max, distance);
    }
  }

  lemma PositiveProduct(x: real, y: real)
    requires x > 0.0 && y > 0.0
    ensures x * y > 0.0
  {
  }

  lemma SquareStrictlyMonotone(a: real, b: real)
    requires 0.0 <= a < b
    ensures a * a < b * b
  {
    assert b * b - a * a == (b - a) * (b + a);
    PositiveProduct(b - a, b + a);
  }

  lemma SquareMonotone(a: real, b: real)
    requires 0.0 <= a <= b
    ensures a * a <= b * b
  {
    if a < b {
      SquareStrictlyMonotone(a, b);
    }
  }

  /** `IsObjectVisible`: inside the frustum by bounding box, and within its draw distance of the camera. */
  predicate IsObjectVisible(o: CullableObject, planes: seq<Plane>, camera: Vec3) {
    && IntersectsBoundingBox(planes, o.boundingBox)
    && WithinDistance(DistanceSquared(o.position, camera), o.maxDrawDistance)
  }

  /**
   * Occlusion culling and level of detail never affect visibility, and the
   * position only enters through its distance to the camera: an object moved
   * to another point at the same distance (its box left where it was) keeps
   * its verdict.
   */
  lemma VisibilityIgnoresOcclusionAndLod(o: CullableObject, planes: seq<Plane>, camera: Vec3, occlusion: bool, lod: int,
                                         p: Vec3)
    ensures IsObjectVisible(o.(enableOcclusionCulling := occlusion, lodLevel := lod), planes, camera)
            == IsObjectVisible(o, planes, camera)
    ensures DistanceSquared(p, camera) == DistanceSquared(o.position, camera) ==>
            IsObjectVisible(o.(position := p), planes, camera) == IsObjectVisible(o, planes, camera)
  {
  }

  datatype CullingSystem = CullingSystem(objects: seq<CullableObject>, visibleObjects: seq<CullableObject>)

  const NewCullingSystem := CullingSystem([], [])

  /** `RegisterObject`: appended, duplicates allowed. */
  function RegisterObject(s: CullingSystem, o: CullableObject): (r: CullingSystem)
    ensures multiset(r.objects) == multiset(s.objects) + multiset{o}
    ensures |r.objects| == |s.objects| + 1 && r.objects[..|s.objects|] == s.objects && r.objects[|s.objects|] == o
    ensures r.visibleObjects == s.visibleObjects
  {
    s.(objects := s.objects + [o])
  }

  function UnregisterObject(s: CullingSystem, o: CullableObject): (r: CullingSystem)
    ensures r.objects == RemoveFirst(s.objects, o) && r.visibleObjects == s.visibleObjects
  {
    s.(objects := RemoveFirst(s.objects, o))
  }

  /**
   * Registering then unregistering an object keeps the registered multiset;
   * the list itself comes back only if the object was not already there
   * (otherwise the earlier registration is the one removed).
   */
  lemma RegisterThenUnregister(s: CullingSystem, o: CullableObject)
    ensures multiset(UnregisterObject(RegisterObject(s, o), o).objects) == multiset(s.objects)
    ensures o !in s.objects ==> UnregisterObject(RegisterObject(s, o), o).objects == s.objects
  {
    var xs := s.objects + [o];
    if o !in s.objects {
      var i := IndexOf(xs, o);
      assert xs[..i] == s.objects;
    }
  }

  // ---------------------------------------------------------------------------
  // Filter and sort

  /** The objects that pass the test, in registration order. */
  function VisibleIn(objects: seq<CullableObject>, planes: seq<Plane>, camera: Vec3): (r: seq<CullableObject>)
    ensures forall i | 0 <= i < |r| :: IsObjectVisible(r[i], planes, camera)
    ensures forall o :: multiset(r)[o] == if IsObjectVisible(o, planes, camera) then multiset(objects)[o] else 0
    decreases |objects|
  {
    if objects == [] then []
    else
      var rest := VisibleIn(objects[1..], planes, camera);
      assert objects == [objects[0]] + objects[1..];
      if IsObjectVisible(objects[0], planes, camera) then [objects[0]] + rest else rest
  }

  /** The sort key of `SortObjectsByDistance`. */
  function DistanceKey(camera: Vec3): CullableObject -> real {
    (o: CullableObject) => DistanceSquared(o.position, camera)
  }

  /**
   * `SortObjectsByDistance`: ascending squared distance to the camera.  The
   * source's sort is unstable, so only the order of keys and the contents are
   * promised, not the order of ties.
   */
  function SortByDistance(xs: seq<CullableObject>, camera: Vec3): (r: seq<CullableObject>)
    ensures forall i, j | 0 <= i < j < |r| :: DistanceSquared(r[i].position, camera) <= DistanceSquared(r[j].position, camera)
    ensures multiset(r) == multiset(xs)
  {
    SortBy(xs, DistanceKey(camera))
  }

  /**
   * `CullObjects`: the internal list is cleared, refilled with the visible
   * registered objects and sorted, and returned.  The result is a value; the
   * source hands out the internal list itself, so a caller holding an earlier
   * result would see it refilled.
   */
  function CullObjects(s: CullingSystem, planes: seq<Plane>, camera: Vec3): (r: (CullingSystem, seq<CullableObject>))
    ensures r.0.objects == s.objects && r.0.visibleObjects == r.1
    ensures forall i, j | 0 <= i < j < |r.1| :: DistanceSquared(r.1[i].position, camera) <= DistanceSquared(r.1[j].position, camera)
    ensures forall o :: multiset(r.1)[o] == if IsObjectVisible(o, planes, camera) then multiset(s.objects)[o] else 0
  {
    var visible := SortByDistance(VisibleIn(s.objects, planes, camera), camera);
    (s.(visibleObjects := visible), visible)
  }

  /** A registered object is returned exactly when it is visible. */
  lemma CulledExactlyVisible(s: CullingSystem, planes: seq<Plane>, camera: Vec3, o: CullableObject)
    requires o in s.objects
    ensures o in CullObjects(s, planes, camera).1 <==> IsObjectVisible(o, planes, camera)
  {
    var r := CullObjects(s, planes, camera).1;
    assert o in multiset(s.objects);
    assert o in r <==> o in multiset(r);
  }

  /** Each call starts from an empty list: what an earlier call returned does not matter. */
  lemma CullingForgetsEarlierResult(s: CullingSystem, planes1: seq<Plane>, camera1: Vec3, planes2: seq<Plane>, camera2: Vec3)
    ensures CullObjects(CullObjects(s, planes1, camera1).0, planes2, camera2) == CullObjects(s, planes2, camera2)
  {
  }
}
