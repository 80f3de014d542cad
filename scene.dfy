/**
 * The scene of the ray tracer (`raytracer_scene`): a camera with its
 * viewport, an append-only list of spheres, the mapping between canvas
 * pixels and world coordinates, the ray/sphere quadratic and the
 * nearest-hit scan of `scene_trace_ray`.
 *
 * `real32` arithmetic is modelled by exact `real` arithmetic, `sqrtf` by a
 * parameter `sqrt` that is an exact square root (`IsSqrt`), and the `(i32)`
 * casts by truncation toward zero.
 */
module Scene {
  import opened CTypes
  import opened RtMath
  import opened Canvas

  /** The sphere id that stands for "no sphere hit yet". */
  const SPHERE_NULL: int := -1

  datatype Viewport = Viewport(left: real, right: real, top: real, bottom: real,
                               front: real, back: real, fov: real)

  datatype Camera = Camera(viewport: Viewport, position: V4)

  datatype Sphere = Sphere(position: V4, radius: real, color: Color32)

  // ---------------------------------------------------------------------
  // Ray / sphere intersection
  // ---------------------------------------------------------------------

  /**
   * A `real32` result of the intersection test.  When the ray has no
   * length both divisions are `0 / 0`, which is NaN in IEEE arithmetic.
   */
  datatype Dist = Num(value: real) | NaN

  /** The outcome of `_scene_get_ray_sphere_intersection`: 0 or 2 roots. */
  datatype Roots = NoRoots | TwoRoots(t0: Dist, t1: Dist)

  /** The coefficients `a`, `b`, `c` of `a t^2 + b t + c = 0`. */
  datatype Quadratic = Quadratic(a: real, b: real, c: real)

  /**
   * `CO = cameraPosition - sphere.position`, `D = rayDirection * rayDistance`,
   * `a = D.D`, `b = 2 CO.D`, `c = CO.CO - radius^2`.  The C code leaves the
   * fourth slot of `CO` and `D` uninitialised; `dot3` never reads it.
   */
  function Coefficients(origin: V4, sphere: Sphere, direction: V4, distance: real): (q: Quadratic)
    ensures 0.0 <= q.a
    ensures q.a == 0.0 <==> Degenerate(direction, distance)
  {
    LengthOfRay(direction, distance);
    var co := Subtract3(origin, sphere.position, Zero());
    var d := Scalar3(direction, distance, Zero());
    Quadratic(Dot3(d, d), 2.0 * Dot3(co, d), Dot3(co, co) - sphere.radius * sphere.radius)
  }

  function Discriminant(q: Quadratic): real {
    q.b * q.b - 4.0 * q.a * q.c
  }

  /** `t` solves the quadratic `q`. */
  predicate Solves(q: Quadratic, t: real) {
    q.a * (t * t) + q.b * t + q.c == 0.0
  }

  /** The ray has no length: `D` is the zero vector. */
  predicate Degenerate(direction: V4, distance: real) {
    distance == 0.0 || (direction.x == 0.0 && direction.y == 0.0 && direction.z == 0.0)
  }

  /**
   * `_scene_get_ray_sphere_intersection` for the sphere `sphere` seen from
   * the camera at `origin`.
   */
  function RaySphere(origin: V4, sphere: Sphere, direction: V4, distance: real,
                     sqrt: real -> real): (r: Roots)
    ensures r.NoRoots? <==> Discriminant(Coefficients(origin, sphere, direction, distance)) < 0.0
  {
    Solve(Coefficients(origin, sphere, direction, distance), sqrt)
  }

  /**
   * No roots when the discriminant is negative, otherwise the two results
   * of the quadratic formula, `(-b + d) / 2a` first; these are `0 / 0` when
   * `a` is 0 (see `DegenerateRayGivesNaN`).  The `a = 0` branch stands for
   * `a = b = 0`, the only flat quadratic `Coefficients` produces
   * (`CoefficientsOfRay`); for `a = 0` with `b != 0` C would divide a
   * non-zero numerator by zero, which this function does not model.
   */
  function Solve(q: Quadratic, sqrt: real -> real): (r: Roots)
    ensures r.NoRoots? <==> Discriminant(q) < 0.0
  {
    if Discriminant(q) < 0.0 then NoRoots
    else
      var d := sqrt(Discriminant(q));
      if q.a == 0.0 then TwoRoots(NaN, NaN)
      else TwoRoots(Num((-q.b + d) / (2.0 * q.a)), Num((-q.b - d) / (2.0 * q.a)))
  }

  /**
   * With an exact square root, the two roots reported for a ray of non-zero
   * length solve the quadratic and come out larger first; `a` is then
   * positive.
   */
  lemma RootsSolveQuadratic(origin: V4, sphere: Sphere, direction: V4, distance: real,
                            sqrt: real -> real)
    requires IsSqrt(sqrt)
    requires RaySphere(origin, sphere, direction, distance, sqrt).TwoRoots?
    requires !Degenerate(direction, distance)
    ensures var q := Coefficients(origin, sphere, direction, distance);
      var r := RaySphere(origin, sphere, direction, distance, sqrt);
      0.0 < q.a && r.t0.Num? && r.t1.Num? &&
      Solves(q, r.t0.value) && Solves(q, r.t1.value) && r.t1.value <= r.t0.value
  {
    var q := Coefficients(origin, sphere, direction, distance);
    LengthOfRay(direction, distance);
    var d := sqrt(Discriminant(q));
    assert d * d == q.b * q.b - 4.0 * q.a * q.c && 0.0 <= d;
    QuadraticRoot(q.a, q.b, q.c, d, (-q.b + d) / (2.0 * q.a));
    QuadraticRoot(q.a, q.b, q.c, d, (-q.b - d) / (2.0 * q.a));
    QuotientsOrdered(q.b, d, q.a);
  }

  /**
   * A ray of no length hits every sphere at NaN, NaN: `a` and `b` are 0, so
   * the discriminant is 0 and both quotients are `0 / 0`.  A ray of non-zero
   * length never yields a NaN.
   */
  lemma DegenerateRayGivesNaN(origin: V4, sphere: Sphere, direction: V4, distance: real,
                              sqrt: real -> real)
    ensures Degenerate(direction, distance) <==>
      RaySphere(origin, sphere, direction, distance, sqrt) == TwoRoots(NaN, NaN)
    ensures !Degenerate(direction, distance) ==>
      RaySphere(origin, sphere, direction, distance, sqrt) == NoRoots ||
      (RaySphere(origin, sphere, direction, distance, sqrt).t0.Num? &&
       RaySphere(origin, sphere, direction, distance, sqrt).t1.Num?)
  {
    CoefficientsOfRay(origin, sphere, direction, distance);
    SolveCases(Coefficients(origin, sphere, direction, distance), sqrt);
  }

  /** `a` is positive for a ray of non-zero length; for one of no length `a` and `b` are 0. */
  lemma CoefficientsOfRay(origin: V4, sphere: Sphere, direction: V4, distance: real)
    ensures !Degenerate(direction, distance) ==> 0.0 < Coefficients(origin, sphere, direction, distance).a
    ensures Degenerate(direction, distance) ==>
      Coefficients(origin, sphere, direction, distance).a == 0.0 &&
      Coefficients(origin, sphere, direction, distance).b == 0.0
  {
    var co := Subtract3(origin, sphere.position, Zero());
    var dv := Scalar3(direction, distance, Zero());
    assert Coefficients(origin, sphere, direction, distance).a == Dot3(dv, dv);
    assert Coefficients(origin, sphere, direction, distance).b == 2.0 * Dot3(co, dv);
    LengthOfRay(direction, distance);
    if Degenerate(direction, distance) {
      ScaledZero(direction, distance);
    }
  }

  /** How `Solve` comes out: NaN, NaN for a flat quadratic, numbers when `a` is not 0. */
  lemma SolveCases(q: Quadratic, sqrt: real -> real)
    ensures q.a == 0.0 && q.b == 0.0 ==> Solve(q, sqrt) == TwoRoots(NaN, NaN)
    ensures q.a != 0.0 ==>
      Solve(q, sqrt) == NoRoots || (Solve(q, sqrt).t0.Num? && Solve(q, sqrt).t1.Num?)
  {
    if q.a == 0.0 && q.b == 0.0 {
      FlatQuadratic(q);
    }
  }

  /** With `a = b = 0` the discriminant is 0. */
  lemma FlatQuadratic(q: Quadratic)
    requires q.a == 0.0 && q.b == 0.0
    ensures Discriminant(q) == 0.0
  {
  }

  /** `a = D.D` is zero exactly for a ray of no length, and never negative. */
  lemma LengthOfRay(direction: V4, distance: real)
    ensures 0.0 <= Dot3(Scalar3(direction, distance, Zero()), Scalar3(direction, distance, Zero()))
    ensures Degenerate(direction, distance) <==>
      Dot3(Scalar3(direction, distance, Zero()), Scalar3(direction, distance, Zero())) == 0.0
  {
    SelfDot(Scalar3(direction, distance, Zero()));
    ScaledZero(direction, distance);
  }

  /** `D` is the zero vector exactly for a ray of no length. */
  lemma ScaledZero(direction: V4, distance: real)
    ensures var dv := Scalar3(direction, distance, Zero());
      Degenerate(direction, distance) <==> dv.x == 0.0 && dv.y == 0.0 && dv.z == 0.0
  {
    ProductZero(direction.x, distance);
    ProductZero(direction.y, distance);
    ProductZero(direction.z, distance);
  }

  /** `v.v` is never negative and is zero exactly when the first three slots are. */
  lemma SelfDot(v: V4)
    ensures 0.0 <= Dot3(v, v)
    ensures Dot3(v, v) == 0.0 <==> v.x == 0.0 && v.y == 0.0 && v.z == 0.0
  {
    DotSelfIsMagnitudeSquared(v);
  }

  lemma ProductZero(a: real, b: real)
    ensures a * b == 0.0 <==> a == 0.0 || b == 0.0
  {
  }

  /** The quadratic formula: either root solves the quadratic. */
  lemma QuadraticRoot(a: real, b: real, c: real, d: real, t: real)
    requires a != 0.0 && d * d == b * b - 4.0 * a * c
    requires t == (-b + d) / (2.0 * a) || t == (-b - d) / (2.0 * a)
    ensures a * (t * t) + b * t + c == 0.0
  {
    var u := 2.0 * a * t;
    if t == (-b + d) / (2.0 * a) {
      TimesQuotient(-b + d, 2.0 * a);
    } else {
      TimesQuotient(-b - d, 2.0 * a);
    }
    SquareOfShifted(u, b, d);
    ScaledQuadratic(a, b, c, t, u);
    NonZeroFactor(4.0 * a, a * (t * t) + b * t + c);
  }

  lemma TimesQuotient(n: real, k: real)
    requires k != 0.0
    ensures k * (n / k) == n
  {
  }

  lemma ScaledQuadratic(a: real, b: real, c: real, t: real, u: real)
    requires u == 2.0 * a * t
    ensures 4.0 * a * (a * (t * t) + b * t + c) == u * u + 2.0 * b * u + 4.0 * a * c
  {
  }

  lemma NonZeroFactor(k: real, x: real)
    requires k != 0.0 && k * x == 0.0
    ensures x == 0.0
  {
  }

  lemma SquareOfShifted(u: real, b: real, d: real)
    requires u == -b + d || u == -b - d
    ensures u * u + 2.0 * b * u == d * d - b * b
  {
  }

  lemma QuotientsOrdered(b: real, d: real, a: real)
    requires 0.0 < a && 0.0 <= d
    ensures (-b - d) / (2.0 * a) <= (-b + d) / (2.0 * a)
  {
    var k := 2.0 * a;
    assert (-b + d) / k - (-b - d) / k == (2.0 * d) / k;
  }

  // ---------------------------------------------------------------------
  // The nearest-hit scan
  // ---------------------------------------------------------------------

  /** The C `<` on `real32`: false whenever either side is NaN. */
  predicate Less(s: Dist, t: Dist) {
    s.Num? && t.Num? && s.value < t.value
  }

  /** The state of the scan: no sphere yet, or the closest sphere and its distance. */
  datatype Nearest = Nothing | Hit(id: nat, distance: Dist)

  /** `closestSphereId` and `closestDistance` read as a `Nearest`. */
  function Current(id: int, distance: Dist): Nearest
    requires SPHERE_NULL <= id
  {
    if id == SPHERE_NULL then Nothing else Hit(id, distance)
  }

  /** One step of the inner loop: take `t` when nothing is held or `t` is strictly closer. */
  function Consider(n: Nearest, i: nat, t: Dist): Nearest {
    if n.Nothing? || Less(t, n.distance) then Hit(i, t) else n
  }

  /** The inner loop over the distances `ts` reported for sphere `i`. */
  function ConsiderAll(n: Nearest, i: nat, ts: seq<Dist>): (r: Nearest)
    ensures r == n || (r.Hit? && r.id == i && r.distance in ts)
    decreases |ts|
  {
    if |ts| == 0 then n else Consider(ConsiderAll(n, i, ts[..|ts| - 1]), i, ts[|ts| - 1])
  }

  /** `distances[0 .. intersections)` */
  function RootList(r: Roots): (ts: seq<Dist>)
    ensures |ts| == 0 || |ts| == 2
  {
    match r
    case NoRoots => []
    case TwoRoots(t0, t1) => [t0, t1]
  }

  /** The outer loop over the outcomes `rs` of spheres `0 .. |rs|)`. */
  function Scan(rs: seq<Roots>): (r: Nearest)
    ensures r.Hit? ==> r.id < |rs| && r.distance in RootList(rs[r.id])
    decreases |rs|
  {
    if |rs| == 0 then Nothing
    else ConsiderAll(Scan(rs[..|rs| - 1]), |rs| - 1, RootList(rs[|rs| - 1]))
  }

  /** The intersection outcome of every sphere, in index order. */
  function RootsOf(origin: V4, spheres: seq<Sphere>, direction: V4, distance: real,
                   sqrt: real -> real): (rs: seq<Roots>)
    ensures |rs| == |spheres|
    ensures forall k :: 0 <= k < |rs| ==> rs[k] == RaySphere(origin, spheres[k], direction, distance, sqrt)
  {
    seq(|spheres|, k requires 0 <= k < |spheres| => RaySphere(origin, spheres[k], direction, distance, sqrt))
  }

  /** Every reported distance is a number. */
  predicate AllNumeric(rs: seq<Roots>) {
    forall k :: 0 <= k < |rs| && rs[k].TwoRoots? ==> rs[k].t0.Num? && rs[k].t1.Num?
  }

  lemma ConsiderTwo(n: Nearest, i: nat, t0: Dist, t1: Dist)
    ensures ConsiderAll(n, i, [t0, t1]) == Consider(Consider(n, i, t0), i, t1)
  {
    assert [t0, t1][..1] == [t0];
    assert ConsiderAll(n, i, [t0]) == Consider(n, i, t0) by {
      assert [t0][..0] == [];
    }
  }

  /**
   * The scan ends holding a sphere exactly when some sphere reported roots;
   * the sphere it holds reported roots, and its distance is one of them.
   */
  lemma {:induction false} ScanHitsIff(rs: seq<Roots>)
    ensures Scan(rs).Hit? <==> exists k :: 0 <= k < |rs| && rs[k].TwoRoots?
    ensures Scan(rs).Hit? ==>
      Scan(rs).id < |rs| && rs[Scan(rs).id].TwoRoots? &&
      Scan(rs).distance in RootList(rs[Scan(rs).id])
    decreases |rs|
  {
    if |rs| > 0 {
      var pre := rs[..|rs| - 1];
      var last := rs[|rs| - 1];
      ScanHitsIff(pre);
      assert forall k :: 0 <= k < |pre| ==> pre[k] == rs[k];
      match last
      case NoRoots =>
        assert Scan(rs) == Scan(pre);
      case TwoRoots(t0, t1) =>
        ConsiderTwo(Scan(pre), |rs| - 1, t0, t1);
        assert rs[|rs| - 1].TwoRoots?;
    }
  }

  /**
   * When every distance is a number, the scan ends on a distance no larger
   * than any reported one (negative distances included), and every sphere
   * before the winner reported only strictly larger distances: on a tie the
   * lowest index wins.
   */
  lemma {:induction false} ScanFindsNearest(rs: seq<Roots>)
    requires AllNumeric(rs)
    requires Scan(rs).Hit?
    ensures Scan(rs).distance.Num?
    ensures forall k :: 0 <= k < |rs| ==> AtMost(Scan(rs).distance.value, rs[k])
    ensures forall k :: 0 <= k < |rs| && k < Scan(rs).id ==> Below(Scan(rs).distance.value, rs[k])
    decreases |rs|
  {
    ScanHitsIff(rs);
    var pre := rs[..|rs| - 1];
    var i := |rs| - 1;
    assert forall k :: 0 <= k < |pre| ==> pre[k] == rs[k];
    ScanHitsIff(pre);
    if Scan(pre).Hit? {
      ScanFindsNearest(pre);
    } else {
      assert forall k :: 0 <= k < |pre| ==> pre[k].NoRoots?;
    }
    match rs[i]
    case NoRoots =>
      assert Scan(rs) == Scan(pre);
    case TwoRoots(t0, t1) =>
      ConsiderTwo(Scan(pre), i, t0, t1);
      ConsiderStep(Scan(pre), pre, t0, t1);
  }

  /**
   * One sphere's step of the scan keeps the invariant of `ScanFindsNearest`
   * when `pre` holds the outcomes of the earlier spheres and `t0`, `t1` are
   * numbers.
   */
  lemma ConsiderStep(n: Nearest, pre: seq<Roots>, t0: Dist, t1: Dist)
    requires t0.Num? && t1.Num?
    requires n.Nothing? ==> forall k :: 0 <= k < |pre| ==> pre[k].NoRoots?
    requires n.Hit? ==> n.id < |pre| && n.distance.Num?
    requires n.Hit? ==> forall k :: 0 <= k < |pre| ==> AtMost(n.distance.value, pre[k])
    requires n.Hit? ==> forall k :: 0 <= k < n.id ==> Below(n.distance.value, pre[k])
    ensures var m := Consider(Consider(n, |pre|, t0), |pre|, t1);
      var rs := pre + [TwoRoots(t0, t1)];
      m.Hit? && m.distance.Num? && m.id <= |pre| &&
      (forall k :: 0 <= k < |rs| ==> AtMost(m.distance.value, rs[k])) &&
      (forall k :: 0 <= k < m.id ==> Below(m.distance.value, rs[k]))
  {
    var rs := pre + [TwoRoots(t0, t1)];
    assert forall k :: 0 <= k < |pre| ==> rs[k] == pre[k];
    var m1 := Consider(n, |pre|, t0);
    var m := Consider(m1, |pre|, t1);
    assert m.distance.value <= m1.distance.value;
    if n.Hit? {
      assert m1.distance.value <= n.distance.value;
      forall k | 0 <= k < |pre| ensures AtMost(m.distance.value, rs[k]) {
        Lower(n.distance.value, m.distance.value, pre[k]);
      }
      if m.id == n.id {
        forall k | 0 <= k < m.id ensures Below(m.distance.value, rs[k]) {
          Lower(n.distance.value, m.distance.value, pre[k]);
        }
      } else {
        assert m.distance.value < n.distance.value;
        forall k | 0 <= k < m.id ensures Below(m.distance.value, rs[k]) {
          Lower(n.distance.value, m.distance.value, pre[k]);
        }
      }
    }
  }

  /** `d` is no larger than any distance `r` reports. */
  predicate AtMost(d: real, r: Roots) {
    match r
    case NoRoots => true
    case TwoRoots(t0, t1) => t0.Num? && t1.Num? && d <= t0.value && d <= t1.value
  }

  /** `d` is strictly smaller than every distance `r` reports. */
  predicate Below(d: real, r: Roots) {
    match r
    case NoRoots => true
    case TwoRoots(t0, t1) => t0.Num? && t1.Num? && d < t0.value && d < t1.value
  }

  lemma Lower(d: real, e: real, r: Roots)
    requires e <= d && AtMost(d, r)
    ensures AtMost(e, r)
    ensures e < d ==> Below(e, r)
  {
  }

  /**
   * When every sphere reports NaN, NaN (a ray of no length) the first sphere
   * wins: no comparison with NaN is true, so nothing replaces it.
   */
  lemma {:induction false} ScanAllNaN(rs: seq<Roots>)
    requires 0 < |rs|
    requires forall k :: 0 <= k < |rs| ==> rs[k] == TwoRoots(NaN, NaN)
    ensures Scan(rs) == Hit(0, NaN)
    decreases |rs|
  {
    var pre := rs[..|rs| - 1];
    ConsiderTwo(Scan(pre), |rs| - 1, NaN, NaN);
    if |pre| > 0 {
      assert forall k :: 0 <= k < |pre| ==> pre[k] == rs[k];
      ScanAllNaN(pre);
    }
  }

  /**
   * The outcomes `scene_trace_ray` scans are all numeric for a ray of
   * non-zero length, and all NaN, NaN for a ray of no length.
   */
  lemma RootsOfCases(origin: V4, spheres: seq<Sphere>, direction: V4, distance: real,
                     sqrt: real -> real)
    ensures !Degenerate(direction, distance) ==>
      AllNumeric(RootsOf(origin, spheres, direction, distance, sqrt))
    ensures Degenerate(direction, distance) ==>
      forall k :: 0 <= k < |spheres| ==>
        RootsOf(origin, spheres, direction, distance, sqrt)[k] == TwoRoots(NaN, NaN)
  {
    var rs := RootsOf(origin, spheres, direction, distance, sqrt);
    forall k | 0 <= k < |spheres|
      ensures rs[k] == RaySphere(origin, spheres[k], direction, distance, sqrt)
      ensures Degenerate(direction, distance) <==> rs[k] == TwoRoots(NaN, NaN)
      ensures !Degenerate(direction, distance) && rs[k].TwoRoots? ==> rs[k].t0.Num? && rs[k].t1.Num?
    {
      DegenerateRayGivesNaN(origin, spheres[k], direction, distance, sqrt);
    }
  }

  /**
   * What `scene_trace_ray` finds among `spheres` seen from `origin`: a hit
   * exactly when some sphere reported roots.  The winner reported the
   * distance it holds.  For a ray of non-zero length that distance is no
   * larger than any reported root, negative roots included, and every
   * earlier sphere reported only larger ones.  For a ray of no length the
   * first sphere wins with NaN.
   */
  lemma NearestHit(origin: V4, spheres: seq<Sphere>, direction: V4, distance: real,
                   sqrt: real -> real)
    ensures var rs := RootsOf(origin, spheres, direction, distance, sqrt);
      Scan(rs).Hit? <==> exists k :: 0 <= k < |spheres| && rs[k].TwoRoots?
    ensures var rs := RootsOf(origin, spheres, direction, distance, sqrt);
      Scan(rs).Hit? ==>
        Scan(rs).id < |spheres| && Scan(rs).distance in RootList(rs[Scan(rs).id])
    ensures var rs := RootsOf(origin, spheres, direction, distance, sqrt);
      !Degenerate(direction, distance) && Scan(rs).Hit? ==>
        Scan(rs).distance.Num? &&
        (forall k :: 0 <= k < |spheres| ==> AtMost(Scan(rs).distance.value, rs[k])) &&
        (forall k :: 0 <= k < Scan(rs).id ==> Below(Scan(rs).distance.value, rs[k]))
    ensures Degenerate(direction, distance) && 0 < |spheres| ==>
      Scan(RootsOf(origin, spheres, direction, distance, sqrt)) == Hit(0, NaN)
  {
    var rs := RootsOf(origin, spheres, direction, distance, sqrt);
    ScanHitsIff(rs);
    RootsOfCases(origin, spheres, direction, distance, sqrt);
    if !Degenerate(direction, distance) && Scan(rs).Hit? {
      ScanFindsNearest(rs);
    }
    if Degenerate(direction, distance) && 0 < |spheres| {
      ScanAllNaN(rs);
    }
  }

  // ---------------------------------------------------------------------
  // The scene
  // ---------------------------------------------------------------------

  class RaytracerScene {
    var camera: Camera
    var spheres: seq<Sphere>

    /**
     * `scene_init`: the default viewport and a camera at the origin.  The C
     * code leaves the sphere list and its count uninitialised; the model
     * starts from an empty list.
     */
    constructor Init()
      ensures camera.viewport.left == -1.0 && camera.viewport.right == 1.0
      ensures camera.viewport.top == 1.0 && camera.viewport.bottom == -1.0
      ensures camera.viewport.front == 1.0 && camera.viewport.back == camera.viewport.front + 100.0
      ensures camera.viewport.fov == 90.0
      ensures camera.position == Zero()
      ensures spheres == []
    {
      camera := Camera(Viewport(-1.0, 1.0, 1.0, -1.0, 1.0, 1.0 + 100.0, 90.0),
                       RtMath.Init(0.0, 0.0, 0.0, 0.0));
      spheres := [];
    }

    /**
     * `scene_set_camera_viewport`: stores the bounds, the front plane and the
     * field of view, and puts the back plane `distance` behind the front one.
     */
    method SetCameraViewport(left: real, right: real, top: real, bottom: real,
                             front: real, distance: real, fov: real)
      modifies this
      ensures camera.viewport == Viewport(left, right, top, bottom, front, front + distance, fov)
      ensures camera.viewport.back - camera.viewport.front == distance
      ensures camera.position == old(camera.position)
      ensures spheres == old(spheres)
    {
      var vp := camera.viewport;
      vp := vp.(left := left, right := right, top := top, bottom := bottom, front := front);
      vp := vp.(back := vp.front + distance);
      vp := vp.(fov := fov);
      camera := camera.(viewport := vp);
    }

    /** `scene_get_camera_position` */
    method GetCameraPosition() returns (p: V4)
      ensures p == camera.position
    {
      p := camera.position;
    }

    /**
     * `scene_create_sphere`: appends one sphere and returns its index, the
     * previous count.  Earlier spheres and the camera are unchanged.
     */
    method CreateSphere(position: V4, radius: real, c: Color32) returns (index: int)
      modifies this
      ensures index == |old(spheres)| && |spheres| == index + 1
      ensures spheres == old(spheres) + [Sphere(position, radius, c)]
      ensures spheres[index] == Sphere(position, radius, c)
      ensures forall k :: 0 <= k < index ==> spheres[k] == old(spheres)[k]
      ensures camera == old(camera)
    {
      index := |spheres|;
      spheres := spheres + [Sphere(position, radius, c)];
    }

    /**
     * `scene_canvas_to_world_coordinates`: pixel `(x, y)` on the viewport
     * plane, offset by the camera position.  The fourth slot of `out` is
     * not written.
     */
    function CanvasToWorld(canvas: RaytracerCanvas, x: int, y: int, out: V4): (o: V4)
      reads this
      requires canvas.width != 0 && canvas.height != 0
      ensures o.w == out.w
    {
      var vp := camera.viewport;
      var pos := camera.position;
      out.(x := x as real * ((vp.right - vp.left) / canvas.width as real) + vp.left + pos.x,
           y := (-y) as real * ((vp.top - vp.bottom) / canvas.height as real) - vp.bottom + pos.y,
           z := vp.front + pos.z)
    }

    /** `scene_world_to_canvas_x`; the camera position is not subtracted. */
    function WorldToCanvasX(canvas: RaytracerCanvas, world: V4): (px: int)
      reads this
      requires camera.viewport.right != camera.viewport.left
      ensures 0.0 <= CanvasX(canvas, world) ==>
        px as real <= CanvasX(canvas, world) < px as real + 1.0
      ensures CanvasX(canvas, world) < 0.0 ==>
        px as real - 1.0 < CanvasX(canvas, world) <= px as real
    {
      Trunc(CanvasX(canvas, world))
    }

    /** The value `scene_world_to_canvas_x` truncates. */
    function CanvasX(canvas: RaytracerCanvas, world: V4): real
      reads this
      requires camera.viewport.right != camera.viewport.left
    {
      var vp := camera.viewport;
      (world.x - vp.left) * (canvas.width as real / (vp.right - vp.left))
    }

    /** `scene_world_to_canvas_y`; the camera position is not subtracted. */
    function WorldToCanvasY(canvas: RaytracerCanvas, world: V4): (py: int)
      reads this
      requires camera.viewport.top != camera.viewport.bottom
      ensures 0.0 <= CanvasY(canvas, world) ==>
        py as real <= CanvasY(canvas, world) < py as real + 1.0
      ensures CanvasY(canvas, world) < 0.0 ==>
        py as real - 1.0 < CanvasY(canvas, world) <= py as real
    {
      Trunc(CanvasY(canvas, world))
    }

    /** The value `scene_world_to_canvas_y` truncates. */
    function CanvasY(canvas: RaytracerCanvas, world: V4): real
      reads this
      requires camera.viewport.top != camera.viewport.bottom
    {
      var vp := camera.viewport;
      -(world.y + vp.bottom) * (canvas.height as real / (vp.top - vp.bottom))
    }

    /**
     * Pixel `(0, 0)` is the top-left corner `(left, -bottom)` moved by the
     * camera position, and the depth is the front plane whatever the pixel.
     */
    lemma CanvasOrigin(canvas: RaytracerCanvas, x: int, y: int, out: V4)
      requires canvas.width != 0 && canvas.height != 0
      ensures CanvasToWorld(canvas, 0, 0, out).x == camera.viewport.left + camera.position.x
      ensures CanvasToWorld(canvas, 0, 0, out).y == -camera.viewport.bottom + camera.position.y
      ensures CanvasToWorld(canvas, x, y, out).z == camera.viewport.front + camera.position.z
    {
    }

    /**
     * The mapping is affine: one pixel right moves `(right - left) / width`
     * in world x, one pixel down moves `(top - bottom) / height` down in
     * world y, and neither step changes the other coordinate.
     */
    lemma CanvasToWorldAffine(canvas: RaytracerCanvas, x: int, y: int, out: V4)
      requires canvas.width != 0 && canvas.height != 0
      ensures CanvasToWorld(canvas, x + 1, y, out).x == CanvasToWorld(canvas, x, y, out).x
        + (camera.viewport.right - camera.viewport.left) / canvas.width as real
      ensures CanvasToWorld(canvas, x + 1, y, out).y == CanvasToWorld(canvas, x, y, out).y
      ensures CanvasToWorld(canvas, x, y + 1, out).y == CanvasToWorld(canvas, x, y, out).y
        - (camera.viewport.top - camera.viewport.bottom) / canvas.height as real
      ensures CanvasToWorld(canvas, x, y + 1, out).x == CanvasToWorld(canvas, x, y, out).x
    {
      var kx := (camera.viewport.right - camera.viewport.left) / canvas.width as real;
      var ky := (camera.viewport.top - camera.viewport.bottom) / canvas.height as real;
      assert (x + 1) as real * kx == x as real * kx + kx;
      assert (-(y + 1)) as real * ky == (-y) as real * ky - ky;
    }

    /**
     * Mapping a pixel to the world and back, before truncation, gives the
     * pixel shifted by the camera position measured in pixels, because the
     * inverse maps do not subtract the position.
     */
    lemma WorldToCanvasOffset(canvas: RaytracerCanvas, x: int, y: int, out: V4)
      requires canvas.width != 0 && canvas.height != 0
      requires camera.viewport.right != camera.viewport.left
      requires camera.viewport.top != camera.viewport.bottom
      ensures CanvasX(canvas, CanvasToWorld(canvas, x, y, out)) ==
        x as real + camera.position.x *
          (canvas.width as real / (camera.viewport.right - camera.viewport.left))
      ensures CanvasY(canvas, CanvasToWorld(canvas, x, y, out)) ==
        y as real - camera.position.y *
          (canvas.height as real / (camera.viewport.top - camera.viewport.bottom))
    {
      var vp := camera.viewport;
      assert (-y) as real == -(y as real);
      ForwardBackX(x as real, vp.left, camera.position.x, vp.right - vp.left, canvas.width as real);
      ForwardBackY(y as real, vp.bottom, camera.position.y, vp.top - vp.bottom, canvas.height as real);
    }

    /** With the camera at the origin the inverse maps undo the forward map. */
    lemma WorldToCanvasRoundTrip(canvas: RaytracerCanvas, x: int, y: int, out: V4)
      requires canvas.width != 0 && canvas.height != 0
      requires camera.viewport.right != camera.viewport.left
      requires camera.viewport.top != camera.viewport.bottom
      requires camera.position.x == 0.0 && camera.position.y == 0.0
      ensures WorldToCanvasX(canvas, CanvasToWorld(canvas, x, y, out)) == x
      ensures WorldToCanvasY(canvas, CanvasToWorld(canvas, x, y, out)) == y
    {
      WorldToCanvasOffset(canvas, x, y, out);
      TruncOfIntegral(x);
      TruncOfIntegral(y);
    }

    /**
     * `scene_trace_ray`: scans every root of every sphere, keeping the first
     * strictly closer one.  On a hit the colour of the closest sphere is
     * returned; otherwise `outColor` comes back unchanged.
     */
    method TraceRay(direction: V4, distance: real, outColor: Color32, sqrt: real -> real)
      returns (hit: bool, color: Color32)
      ensures var n := Scan(RootsOf(camera.position, spheres, direction, distance, sqrt));
        (hit <==> n.Hit?) &&
        (hit ==> n.id < |spheres| && color == spheres[n.id].color) &&
        (!hit ==> color == outColor)
    {
      ghost var rs := RootsOf(camera.position, spheres, direction, distance, sqrt);
      var closestSphereId := SPHERE_NULL;
      // Uninitialised in C; never read while closestSphereId is SPHERE_NULL.
      var closestDistance := NaN;
      var i := 0;
      while i < |spheres|
        invariant 0 <= i <= |spheres|
        invariant SPHERE_NULL <= closestSphereId < i
        invariant Current(closestSphereId, closestDistance) == Scan(rs[..i])
      {
        var distances := RootList(RaySphere(camera.position, spheres[i], direction, distance, sqrt));
        var j := 0;
        while j < |distances|
          invariant 0 <= j <= |distances|
          invariant SPHERE_NULL <= closestSphereId <= i
          invariant Current(closestSphereId, closestDistance) == ConsiderAll(Scan(rs[..i]), i, distances[..j])
        {
          assert distances[..j + 1][..j] == distances[..j];
          if closestSphereId != SPHERE_NULL {
            if Less(distances[j], closestDistance) {
              closestSphereId := i;
              closestDistance := distances[j];
            }
          } else {
            closestSphereId := i;
            closestDistance := distances[j];
          }
          j := j + 1;
        }
        assert distances[..j] == distances;
        assert rs[..i + 1][..i] == rs[..i];
        i := i + 1;
      }
      assert rs[..i] == rs;
      if closestSphereId != SPHERE_NULL {
        color := spheres[closestSphereId].color;
        hit := true;
      } else {
        color := outColor;
        hit := false;
      }
    }
  }

  /** The x map followed by its inverse, over reals. */
  lemma ForwardBackX(n: real, l: real, p: real, s: real, w: real)
    requires s != 0.0 && w != 0.0
    ensures (n * (s / w) + l + p - l) * (w / s) == n + p * (w / s)
  {
    ScaleCancels(n, s, w);
    assert n * (s / w) + l + p - l == n * (s / w) + p;
    Distribute(n * (s / w), p, w / s);
  }

  /** The y map followed by its inverse, over reals. */
  lemma ForwardBackY(n: real, b: real, p: real, s: real, h: real)
    requires s != 0.0 && h != 0.0
    ensures -((-n) * (s / h) - b + p + b) * (h / s) == n - p * (h / s)
  {
    ScaleCancels(-n, s, h);
    assert (-n) * (s / h) - b + p + b == (-n) * (s / h) + p;
    Distribute((-n) * (s / h), p, h / s);
    Negate((-n) * (s / h) + p, h / s);
  }

  lemma ScaleCancels(n: real, p: real, q: real)
    requires p != 0.0 && q != 0.0
    ensures n * (p / q) * (q / p) == n
  {
    assert (p / q) * (q / p) == 1.0;
  }

  lemma Negate(a: real, k: real)
    ensures -a * k == -(a * k)
  {
  }

  lemma Distribute(a: real, b: real, k: real)
    ensures (a + b) * k == a * k + b * k
  {
  }
}
