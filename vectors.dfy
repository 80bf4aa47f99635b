/** Unity's `Vector2` over the reals. Lengths are square roots, which Dafny cannot compute on
    `real`; wherever Unity takes `magnitude` or `normalized`, the model receives the length
    together with its defining property `IsLength`. */
module Vectors {
  import opened Mathf

  datatype Vec2 = Vec2(x: real, y: real)

  const Zero: Vec2 := Vec2(0.0, 0.0)

  /** The identity on reals. `Sq` multiplies a value by `Copy` of itself: the verifier's
      arithmetic then keeps `Sq(a)` as a product of two factors, where `a * a` of a literal
      can leave it unable to decide the goal. */
  function Copy(a: real): real
  {
    a
  }

  function Sq(a: real): real
  {
    a * Copy(a)
  }

  lemma SqPositive(a: real)
    requires a != 0.0
    ensures Sq(a) > 0.0
  {
  }

  lemma SqNonNeg(a: real)
    ensures Sq(a) >= 0.0
  {
  }

  lemma SqScale(k: real, a: real)
    ensures Sq(k * a) == Sq(k) * Sq(a)
  {
  }

  function NormSq(v: Vec2): real
  {
    Sq(v.x) + Sq(v.y)
  }

  /** `v * k` for a float k. */
  function Scale(v: Vec2, k: real): Vec2
  {
    Vec2(k * v.x, k * v.y)
  }

  /** Scaling by k multiplies the squared length by the square of k. */
  lemma ScaleNormSq(v: Vec2, k: real)
    ensures NormSq(Scale(v, k)) == Sq(k) * NormSq(v)
  {
    SqScale(k, v.x);
    SqScale(k, v.y);
  }

  lemma ScaleZero(k: real)
    ensures Scale(Zero, k) == Zero
  {
  }

  /** `len` is the Euclidean length of `v`. */
  predicate IsLength(v: Vec2, len: real)
  {
    len >= 0.0 && Sq(len) == NormSq(v)
  }

  lemma LengthZero(v: Vec2, len: real)
    requires IsLength(v, len)
    ensures len == 0.0 <==> v == Zero
  {
    SqNonNeg(v.x);
    SqNonNeg(v.y);
    if len != 0.0 {
      SqPositive(len);
    }
    if v.x != 0.0 {
      SqPositive(v.x);
    }
    if v.y != 0.0 {
      SqPositive(v.y);
    }
  }

  /** The zero vector has length 0 (and no other, by LengthZero). */
  lemma ZeroLength()
    ensures IsLength(Zero, 0.0)
  {
    assert Sq(0.0) == 0.0;
  }

  /** Vector2.normalized: the unit vector in the direction of `v`, or the zero vector when
      `v` is zero. That the result has length 1 is `NormalizedUnit`. */
  function Normalized(v: Vec2, len: real): (u: Vec2)
    requires IsLength(v, len)
    ensures u == Zero <==> v == Zero
    ensures u.x * len == v.x && u.y * len == v.y
  {
    LengthZero(v, len);
    if len == 0.0 then Zero
    else
      var u := Scale(v, 1.0 / len);
      assert u.x * len == v.x && u.y * len == v.y;
      u
  }

  /** The normalised form of a non-zero vector has length 1. */
  lemma NormalizedUnit(v: Vec2, len: real)
    requires IsLength(v, len) && v != Zero
    ensures IsLength(Normalized(v, len), 1.0)
  {
    LengthZero(v, len);
    ScaleNormSq(v, 1.0 / len);
    SqScale(1.0 / len, len);
    assert Sq(1.0 / len) * Sq(len) == 1.0;
  }

  /** A unit vector scaled by a non-negative k has length k. */
  lemma ScaleUnit(u: Vec2, k: real)
    requires IsLength(u, 1.0)
    requires k >= 0.0
    ensures IsLength(Scale(u, k), k)
  {
    ScaleNormSq(u, k);
  }

  /** Normalising keeps the sign of each component. */
  lemma NormalizedSigns(v: Vec2, len: real)
    requires IsLength(v, len)
    ensures var u := Normalized(v, len);
      (u.x > 0.0 <==> v.x > 0.0) && (u.x < 0.0 <==> v.x < 0.0) &&
      (u.y > 0.0 <==> v.y > 0.0) && (u.y < 0.0 <==> v.y < 0.0)
  {
    LengthZero(v, len);
    if len > 0.0 {
      MulSign(len, Normalized(v, len).x);
      MulSign(len, Normalized(v, len).y);
    }
  }

  /** Scaling by a positive factor keeps the sign of each component. */
  lemma ScaleSigns(u: Vec2, k: real)
    requires k > 0.0
    ensures (Scale(u, k).x > 0.0 <==> u.x > 0.0) && (Scale(u, k).x < 0.0 <==> u.x < 0.0)
    ensures (Scale(u, k).y > 0.0 <==> u.y > 0.0) && (Scale(u, k).y < 0.0 <==> u.y < 0.0)
  {
    MulSign(k, u.x);
    MulSign(k, u.y);
  }

  /** If u times len is a, then u scaled by k, times len, is k times a. */
  lemma ScaleTimes(u: Vec2, k: real, len: real, a: Vec2)
    requires u.x * len == a.x && u.y * len == a.y
    ensures Proportional(Scale(u, k), len, k, a.x, a.y)
  {
    assert (k * u.x) * len == k * (u.x * len);
    assert (k * u.y) * len == k * (u.y * len);
  }

  /** Scaling the normalised zero vector gives the zero vector. */
  lemma NormalizedScaleZero(v: Vec2, len: real, k: real)
    requires IsLength(v, len)
    ensures v == Zero ==> Scale(Normalized(v, len), k) == Zero
  {
    ScaleZero(k);
  }

  /** Scaling the normalised vector by a positive k keeps the sign of each component of v. */
  lemma NormalizedScaleSigns(v: Vec2, len: real, k: real)
    requires IsLength(v, len)
    ensures var w := Scale(Normalized(v, len), k);
      k > 0.0 ==>
        (w.x > 0.0 <==> v.x > 0.0) && (w.x < 0.0 <==> v.x < 0.0) &&
        (w.y > 0.0 <==> v.y > 0.0) && (w.y < 0.0 <==> v.y < 0.0)
  {
    NormalizedSigns(v, len);
    if k > 0.0 {
      ScaleSigns(Normalized(v, len), k);
    }
  }

  /** `w * len == k * (ax, ay)`: w is the vector (ax, ay) scaled by k and divided by len. */
  predicate Proportional(w: Vec2, len: real, k: real, ax: real, ay: real)
  {
    w.x * len == k * ax && w.y * len == k * ay
  }

  /** `v.normalized * k`: the vector along v whose length is k (`DirectedLength`), or the
      zero vector when v is zero. Times the length of v it is k times v, and for a positive k
      each component has the sign of v's. */
  function Directed(v: Vec2, len: real, k: real): (w: Vec2)
    requires IsLength(v, len)
    ensures Proportional(w, len, k, v.x, v.y)
    ensures v == Zero ==> w == Zero
    ensures k > 0.0 ==>
      (w.x > 0.0 <==> v.x > 0.0) && (w.x < 0.0 <==> v.x < 0.0) &&
      (w.y > 0.0 <==> v.y > 0.0) && (w.y < 0.0 <==> v.y < 0.0)
  {
    ScaleTimes(Normalized(v, len), k, len, v);
    NormalizedScaleZero(v, len, k);
    NormalizedScaleSigns(v, len, k);
    Scale(Normalized(v, len), k)
  }

  /** Pointed along a non-zero vector, a non-negative k is the length of the result. */
  lemma DirectedLength(v: Vec2, len: real, k: real)
    requires IsLength(v, len) && v != Zero
    requires k >= 0.0
    ensures IsLength(Directed(v, len, k), k)
  {
    NormalizedUnit(v, len);
    ScaleUnit(Normalized(v, len), k);
  }
}
