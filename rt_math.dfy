/**
 * The vector module of the ray tracer: the four-slot `v4` union and the
 * component-wise operations on it.
 *
 * The C functions write their result through an output pointer.  Here each
 * of them is a function that returns the updated copy of `out`, so that the
 * "3" variants can be seen to leave the fourth slot as it was.  The
 * four-slot variants overwrite every slot, so their result does not depend
 * on `out` and they take no `out`.  `float` arithmetic is modelled by exact
 * `real` arithmetic, and `sqrtf` by a parameter that is an exact square root.
 */
module RtMath {

  /**
   * The `v4` union.  The slots are `x, y, z, w`; the colour view `r, g, b, a`
   * and the array view `_[0..3]` name the same four slots in the same order.
   */
  datatype V4 = V4(x: real, y: real, z: real, w: real) {
    function r(): real { x }
    function g(): real { y }
    function b(): real { z }
    function a(): real { w }

    /** The array view `_[i]` of the union. */
    function Slot(i: nat): real
      requires i < 4
    {
      if i == 0 then x else if i == 1 then y else if i == 2 then z else w
    }
  }

  function Zero(): V4 { V4(0.0, 0.0, 0.0, 0.0) }

  /** `sqrt` behaves as an exact square root on every non-negative argument. */
  ghost predicate IsSqrt(sqrt: real -> real) {
    forall s :: 0.0 <= s ==> 0.0 <= sqrt(s) && sqrt(s) * sqrt(s) == s
  }

  /** `vec4_init`: the arguments fill the slots in order. */
  function Init(r: real, g: real, b: real, a: real): (v: V4)
    ensures v.Slot(0) == r && v.Slot(1) == g && v.Slot(2) == b && v.Slot(3) == a
    ensures v.r() == r && v.g() == g && v.b() == b && v.a() == a
    ensures v.x == r && v.y == g && v.z == b && v.w == a
  {
    V4(r, g, b, a)
  }

  /** `vec4_add` */
  function Add(lhs: V4, rhs: V4): (o: V4)
    ensures forall i :: 0 <= i < 4 ==> o.Slot(i) == lhs.Slot(i) + rhs.Slot(i)
  {
    V4(lhs.x + rhs.x, lhs.y + rhs.y, lhs.z + rhs.z, lhs.w + rhs.w)
  }

  /** `vec4_add3`: the fourth slot of `out` is kept. */
  function Add3(lhs: V4, rhs: V4, out: V4): (o: V4)
    ensures forall i :: 0 <= i < 3 ==> o.Slot(i) == lhs.Slot(i) + rhs.Slot(i)
    ensures o.w == out.w
  {
    out.(x := lhs.x + rhs.x, y := lhs.y + rhs.y, z := lhs.z + rhs.z)
  }

  /** `vec4_subtract` */
  function Subtract(lhs: V4, rhs: V4): (o: V4)
    ensures forall i :: 0 <= i < 4 ==> o.Slot(i) == lhs.Slot(i) - rhs.Slot(i)
  {
    V4(lhs.x - rhs.x, lhs.y - rhs.y, lhs.z - rhs.z, lhs.w - rhs.w)
  }

  /** `vec4_subtract3`: the fourth slot of `out` is kept. */
  function Subtract3(lhs: V4, rhs: V4, out: V4): (o: V4)
    ensures forall i :: 0 <= i < 3 ==> o.Slot(i) == lhs.Slot(i) - rhs.Slot(i)
    ensures o.w == out.w
  {
    out.(x := lhs.x - rhs.x, y := lhs.y - rhs.y, z := lhs.z - rhs.z)
  }

  /** `vec4_scalar` */
  function Scalar(v: V4, scalar: real): (o: V4)
    ensures forall i :: 0 <= i < 4 ==> o.Slot(i) == v.Slot(i) * scalar
  {
    V4(v.x * scalar, v.y * scalar, v.z * scalar, v.w * scalar)
  }

  /** `vec4_scalar3`: the fourth slot of `out` is kept. */
  function Scalar3(v: V4, scalar: real, out: V4): (o: V4)
    ensures forall i :: 0 <= i < 3 ==> o.Slot(i) == v.Slot(i) * scalar
    ensures o.w == out.w
  {
    out.(x := v.x * scalar, y := v.y * scalar, z := v.z * scalar)
  }

  /**
   * The square `t * t` of `t`: never negative, and positive unless `t` is 0.
   * `SqIsProduct` states that it is the product.
   */
  function Sq(t: real): (s: real)
    ensures 0.0 <= s
    ensures t != 0.0 ==> 0.0 < s
  {
    if t < 0.0 then PosProduct(-t, -Same(t)); t * Same(t)
    else if 0.0 < t then PosProduct(t, Same(t)); t * Same(t)
    else 0.0
  }

  /** The identity on reals: `Sq(t)` is `t` times `Same(t)`, i.e. `t` times itself. */
  function Same(t: real): real { t }

  lemma PosProduct(a: real, b: real)
    requires 0.0 < a && 0.0 < b
    ensures 0.0 < a * b
  {
  }

  lemma SqIsProduct(t: real)
    ensures Sq(t) == t * t
  {
  }

  /** `vec4_magnitude_squared`: zero exactly for the zero vector. */
  function MagnitudeSquared(v: V4): (m: real)
    ensures 0.0 <= m
    ensures m == 0.0 <==> v == Zero()
  {
    Sq(v.x) + Sq(v.y) + Sq(v.z) + Sq(v.w)
  }

  /** `vec4_magnitude3_squared`: zero exactly when the first three slots are. */
  function Magnitude3Squared(v: V4): (m: real)
    ensures 0.0 <= m
    ensures m == 0.0 <==> v.x == 0.0 && v.y == 0.0 && v.z == 0.0
  {
    Sq(v.x) + Sq(v.y) + Sq(v.z)
  }

  /** `vec4_magnitude` */
  function Magnitude(v: V4, sqrt: real -> real): (m: real)
    requires IsSqrt(sqrt)
    ensures 0.0 <= m && m * m == MagnitudeSquared(v)
  {
    sqrt(MagnitudeSquared(v))
  }

  /** `vec4_magnitude3` */
  function Magnitude3(v: V4, sqrt: real -> real): (m: real)
    requires IsSqrt(sqrt)
    ensures 0.0 <= m && m * m == Magnitude3Squared(v)
  {
    sqrt(Magnitude3Squared(v))
  }

  /**
   * `vec4_dot3`: the dot product of the first three slots, which is 0 when
   * either argument is zero in those slots.  Of a vector with itself it is
   * the 3-slot squared magnitude (`DotSelfIsMagnitudeSquared`).
   */
  function Dot3(lhs: V4, rhs: V4): (d: real)
    ensures lhs.x == 0.0 && lhs.y == 0.0 && lhs.z == 0.0 ==> d == 0.0
    ensures rhs.x == 0.0 && rhs.y == 0.0 && rhs.z == 0.0 ==> d == 0.0
  {
    lhs.x * rhs.x + lhs.y * rhs.y + lhs.z * rhs.z
  }

  /**
   * `vec4_dot`: `dot3` plus the product of the fourth slots; of a vector
   * with itself it is the squared magnitude.
   */
  function Dot(lhs: V4, rhs: V4): (d: real)
    ensures d == Dot3(lhs, rhs) + lhs.w * rhs.w
    ensures lhs == rhs ==> d == MagnitudeSquared(lhs)
  {
    SqIsProduct(lhs.w);
    lhs.x * rhs.x + lhs.y * rhs.y + lhs.z * rhs.z + lhs.w * rhs.w
  }

  /** `vec4_cross3`: orthogonal to both arguments; the fourth slot of `out` is kept. */
  function Cross3(lhs: V4, rhs: V4, out: V4): (o: V4)
    ensures o.w == out.w
    ensures Dot3(o, lhs) == 0.0 && Dot3(o, rhs) == 0.0
  {
    out.(x := lhs.y * rhs.z - lhs.z * rhs.y,
         y := lhs.z * rhs.x - lhs.x * rhs.z,
         z := lhs.x * rhs.y - lhs.y * rhs.x)
  }

  /**
   * `vec4_normal`: the first three slots of `v` divided by its 3-component
   * magnitude.  The C code divides by zero for a zero vector, so callers must
   * not pass one.
   */
  function Normal(v: V4, out: V4, sqrt: real -> real): (o: V4)
    requires IsSqrt(sqrt) && Magnitude3Squared(v) != 0.0
    ensures o.w == out.w
    ensures Magnitude3Squared(o) == 1.0
    ensures Scalar3(o, Magnitude3(v, sqrt), v) == v
  {
    var mag := Magnitude3(v, sqrt);
    UnitAfterDivision(v, mag);
    out.(x := v.x / mag, y := v.y / mag, z := v.z / mag)
  }

  lemma UnitAfterDivision(v: V4, mag: real)
    requires mag != 0.0 && mag * mag == Magnitude3Squared(v)
    ensures Magnitude3Squared(V4(v.x / mag, v.y / mag, v.z / mag, v.w)) == 1.0
  {
    SqOfQuotient(v.x, mag);
    SqOfQuotient(v.y, mag);
    SqOfQuotient(v.z, mag);
    SqIsProduct(mag);
    SharedDenominator(Sq(v.x), Sq(v.y), Sq(v.z), Sq(mag));
  }

  lemma SqOfQuotient(a: real, m: real)
    requires m != 0.0
    ensures Sq(a / m) == Sq(a) / Sq(m)
  {
  }

  lemma SharedDenominator(p: real, q: real, r: real, k: real)
    requires k != 0.0 && k == p + q + r
    ensures p / k + q / k + r / k == 1.0
  {
  }

  /**
   * `vec4_normal(out, out)` as the C statements run when `out` and `v` are the
   * same storage: the magnitude is taken first, then each slot is overwritten
   * in turn, each write reading the storage as the previous ones left it.
   */
  function NormalInPlace(v: V4, sqrt: real -> real): V4
    requires IsSqrt(sqrt) && Magnitude3Squared(v) != 0.0
  {
    var mag := Magnitude3(v, sqrt);
    var s1 := v.(x := v.x / mag);
    var s2 := s1.(y := s1.y / mag);
    s2.(z := s2.z / mag)
  }

  /**
   * `vec4_direction`: writes `rhs - lhs` into `out`, then normalises `out` in
   * place.  The result is the unit vector from `lhs` to `rhs`; scaled by the
   * distance between the two it gives back `rhs - lhs`.
   */
  function Direction(lhs: V4, rhs: V4, out: V4, sqrt: real -> real): (o: V4)
    requires IsSqrt(sqrt) && (lhs.x != rhs.x || lhs.y != rhs.y || lhs.z != rhs.z)
    ensures o.w == out.w
    ensures Magnitude3Squared(o) == 1.0
    ensures Scalar3(o, Distance3(lhs, rhs, sqrt), out) == Subtract3(rhs, lhs, out)
  {
    var d := out.(x := rhs.x - lhs.x, y := rhs.y - lhs.y, z := rhs.z - lhs.z);
    DirectionIsScaledDifference(lhs, rhs, d, sqrt);
    NormalInPlace(d, sqrt)
  }

  lemma DirectionIsScaledDifference(lhs: V4, rhs: V4, d: V4, sqrt: real -> real)
    requires IsSqrt(sqrt)
    requires d.x == rhs.x - lhs.x && d.y == rhs.y - lhs.y && d.z == rhs.z - lhs.z
    requires Magnitude3Squared(d) != 0.0
    ensures NormalInPlace(d, sqrt).w == d.w
    ensures Magnitude3Squared(NormalInPlace(d, sqrt)) == 1.0
    ensures Scalar3(NormalInPlace(d, sqrt), Distance3(lhs, rhs, sqrt), d) == d
  {
    NormalInPlaceIsNormal(d, sqrt);
    assert Magnitude3Squared(d) == Distance3Radicand(lhs, rhs);
  }

  /** `vec4_distance3` */
  function Distance3(lhs: V4, rhs: V4, sqrt: real -> real): (d: real)
    requires IsSqrt(sqrt)
    ensures 0.0 <= d && d * d == Magnitude3Squared(Subtract3(rhs, lhs, Zero()))
  {
    assert Distance3Radicand(lhs, rhs) == Magnitude3Squared(Subtract3(rhs, lhs, Zero()));
    sqrt(Distance3Radicand(lhs, rhs))
  }

  /** The argument `vec4_distance3` passes to `sqrtf`. */
  function Distance3Radicand(lhs: V4, rhs: V4): real {
    Sq(rhs.x - lhs.x) + Sq(rhs.y - lhs.y) + Sq(rhs.z - lhs.z)
  }

  // ---------------------------------------------------------------------
  // Properties
  // ---------------------------------------------------------------------

  /** The component-wise operations undo each other. */
  lemma AddSubtractRoundTrip(lhs: V4, rhs: V4, out: V4)
    ensures Subtract(Add(lhs, rhs), rhs) == lhs
    ensures Subtract3(Add3(lhs, rhs, out), rhs, out) == out.(x := lhs.x, y := lhs.y, z := lhs.z)
  {
  }

  /** Scaling by a non-zero factor and then by its inverse is the identity. */
  lemma ScalarRoundTrip(v: V4, s: real, out: V4)
    requires s != 0.0
    ensures Scalar(Scalar(v, s), 1.0 / s) == v
    ensures Scalar3(Scalar3(v, s, out), 1.0 / s, out) == out.(x := v.x, y := v.y, z := v.z)
  {
  }

  /**
   * The "3" variants, `dot3`, `magnitude3(_squared)` and `distance3` read
   * only the first three slots of their inputs.
   */
  lemma ThreeVariantsIgnoreW(lhs: V4, rhs: V4, out: V4, p: real, q: real, s: real,
                             sqrt: real -> real)
    requires IsSqrt(sqrt)
    ensures Add3(lhs.(w := p), rhs.(w := q), out) == Add3(lhs, rhs, out)
    ensures Subtract3(lhs.(w := p), rhs.(w := q), out) == Subtract3(lhs, rhs, out)
    ensures Scalar3(lhs.(w := p), s, out) == Scalar3(lhs, s, out)
    ensures Cross3(lhs.(w := p), rhs.(w := q), out) == Cross3(lhs, rhs, out)
    ensures Dot3(lhs.(w := p), rhs.(w := q)) == Dot3(lhs, rhs)
    ensures Magnitude3Squared(lhs.(w := p)) == Magnitude3Squared(lhs)
    ensures Magnitude3(lhs.(w := p), sqrt) == Magnitude3(lhs, sqrt)
    ensures Distance3(lhs.(w := p), rhs.(w := q), sqrt) == Distance3(lhs, rhs, sqrt)
  {
  }

  /** A vector's dot product with itself is its squared magnitude. */
  lemma DotSelfIsMagnitudeSquared(v: V4)
    ensures Dot(v, v) == MagnitudeSquared(v)
    ensures Dot3(v, v) == Magnitude3Squared(v)
    ensures Dot(v, v) == Dot3(v, v) + v.w * v.w
  {
    SqIsProduct(v.x);
    SqIsProduct(v.y);
    SqIsProduct(v.z);
    SqIsProduct(v.w);
  }

  lemma DotSymmetric(lhs: V4, rhs: V4)
    ensures Dot(lhs, rhs) == Dot(rhs, lhs)
    ensures Dot3(lhs, rhs) == Dot3(rhs, lhs)
  {
  }

  /** The cross product of a vector with itself has zero first three slots. */
  lemma Cross3Self(v: V4, out: V4)
    ensures Cross3(v, v, out) == out.(x := 0.0, y := 0.0, z := 0.0)
  {
  }

  /** Swapping the arguments of the cross product negates it. */
  lemma Cross3AntiCommutative(lhs: V4, rhs: V4, out: V4)
    ensures Cross3(rhs, lhs, out) == Scalar3(Cross3(lhs, rhs, out), -1.0, out)
  {
  }

  /**
   * `vec4_normal` takes the magnitude before it writes, so running it on
   * aliased storage, as `vec4_direction` does, gives what it gives for a
   * separate output.
   */
  lemma NormalInPlaceIsNormal(v: V4, sqrt: real -> real)
    requires IsSqrt(sqrt) && Magnitude3Squared(v) != 0.0
    ensures NormalInPlace(v, sqrt) == Normal(v, v, sqrt)
  {
  }

  /**
   * `vec4_cross3(lhs, rhs, lhs)` as the C statements run when `out` is the
   * storage of `lhs`: the second and third writes read the first slot that
   * the first write already replaced.
   */
  function Cross3IntoLhs(lhs: V4, rhs: V4): V4 {
    var s1 := lhs.(x := lhs.y * rhs.z - lhs.z * rhs.y);
    var s2 := s1.(y := s1.z * rhs.x - s1.x * rhs.z);
    s2.(z := s2.x * rhs.y - s2.y * rhs.x)
  }

  /**
   * Unlike `vec4_normal`, `vec4_cross3` is not safe on aliased storage: with
   * `out == lhs` the first slot comes out right, but the second is computed
   * from the already replaced first slot, so it is off by
   * `(lhs.x - o.x) * rhs.z`, where `o` is the true cross product.  For
   * `(1,0,0) x (0,0,1)` that is `0` instead of `-1`.
   */
  lemma Cross3IntoLhsDiffers(lhs: V4, rhs: V4)
    ensures Cross3IntoLhs(lhs, rhs).x == Cross3(lhs, rhs, lhs).x
    ensures Cross3IntoLhs(lhs, rhs).y
         == Cross3(lhs, rhs, lhs).y + (lhs.x - Cross3(lhs, rhs, lhs).x) * rhs.z
  {
  }

  /**
   * The radicand of `vec4_distance3(a, b)` is the squared length of `b - a`:
   * the distance is the 3-component magnitude of the difference.
   */
  lemma Distance3IsMagnitudeOfDifference(lhs: V4, rhs: V4, out: V4, sqrt: real -> real)
    requires IsSqrt(sqrt)
    ensures Distance3(lhs, rhs, sqrt) == Magnitude3(Subtract3(rhs, lhs, out), sqrt)
  {
    var diff := Subtract3(rhs, lhs, out);
    assert diff.x == rhs.x - lhs.x && diff.y == rhs.y - lhs.y && diff.z == rhs.z - lhs.z;
    assert Magnitude3Squared(diff) == Distance3Radicand(lhs, rhs);
  }

  /** `vec4_distance3` is symmetric in its arguments. */
  lemma Distance3Symmetric(lhs: V4, rhs: V4, sqrt: real -> real)
    requires IsSqrt(sqrt)
    ensures Distance3(lhs, rhs, sqrt) == Distance3(rhs, lhs, sqrt)
  {
    var x, y, z := rhs.x - lhs.x, rhs.y - lhs.y, rhs.z - lhs.z;
    assert (-x) * (-x) == x * x && (-y) * (-y) == y * y && (-z) * (-z) == z * z;
    assert Distance3Radicand(lhs, rhs) == Distance3Radicand(rhs, lhs);
  }
}
