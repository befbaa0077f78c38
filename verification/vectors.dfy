/**
 * The value part of the source's `Vec2d` (space.js:3-39): a pair of coordinates.
 * Reals are exact where the source's doubles round; square roots are avoided by
 * comparing squared lengths.
 */
module Vectors {

  datatype Vec2 = Vec2(x: real, y: real)

  const Zero := Vec2(0.0, 0.0)

  /** `a.sum(b)`: component-wise addition. */
  function Sum(a: Vec2, b: Vec2): Vec2 {
    Vec2(a.x + b.x, a.y + b.y)
  }

  /** `a.diff(b)`: component-wise subtraction. */
  function Diff(a: Vec2, b: Vec2): Vec2 {
    Vec2(a.x - b.x, a.y - b.y)
  }

  /** `v.getMultiplied(k)`. */
  function Scaled(v: Vec2, k: real): Vec2 {
    Vec2(v.x * k, v.y * k)
  }

  /** The dot product: the component of `a` along `b` when `b` has length 1. */
  function Dot(a: Vec2, b: Vec2): real {
    a.x * b.x + a.y * b.y
  }

  /** The square of what `calcDist` returns. */
  function SqLen(v: Vec2): real {
    v.x * v.x + v.y * v.y
  }

  /** `v.calcDist() <= r`, without the square root. */
  predicate Within(v: Vec2, r: real) {
    0.0 <= r && SqLen(v) <= r * r
  }

  /** `v.calcDist() < r`, without the square root. */
  predicate StrictlyWithin(v: Vec2, r: real) {
    0.0 < r && SqLen(v) < r * r
  }

  /** `v.diff(u).sum(u)` gives back `v`. */
  lemma DiffThenSum(v: Vec2, u: Vec2)
    ensures Sum(Diff(v, u), u) == v
    ensures Diff(Sum(v, u), u) == v
  {
  }

  lemma SqLenNonNegative(v: Vec2)
    ensures SqLen(v) >= 0.0
  {
    assert v.x * v.x >= 0.0;
    assert v.y * v.y >= 0.0;
  }

  lemma SquareMonotone(a: real, b: real)
    requires 0.0 <= a <= b
    ensures a * a <= b * b
  {
    assert a * a <= a * b;
    assert a * b <= b * b;
  }

  lemma SquareStrictMonotone(a: real, b: real)
    requires 0.0 <= a < b
    ensures a * a < b * b
  {
    var ab := a * b;
    assert a * a <= ab;
    assert (b - a) * b > 0.0;
    assert ab < b * b;
  }

  /**
   * The squared test is the source's distance test: whenever `len` is the length
   * that `calcDist` computes (non-negative, squaring to `SqLen(v)`), `Within(v, r)`
   * holds exactly when `len <= r`, and `StrictlyWithin(v, r)` exactly when `len < r`.
   */
  lemma WithinIsLengthTest(v: Vec2, len: real, r: real)
    requires 0.0 <= len && len * len == SqLen(v)
    ensures Within(v, r) <==> len <= r
    ensures StrictlyWithin(v, r) <==> len < r
  {
    if len <= r {
      SquareMonotone(len, r);
    } else if 0.0 <= r {
      SquareStrictMonotone(r, len);
    }
    if len < r {
      SquareStrictMonotone(len, r);
    } else if 0.0 <= r {
      SquareMonotone(r, len);
    }
  }

  /** Scaling by `k` multiplies the squared length by `k * k`. */
  lemma SqLenScaled(v: Vec2, k: real)
    ensures SqLen(Scaled(v, k)) == k * k * SqLen(v)
  {
    calc {
      SqLen(Scaled(v, k));
      (v.x * k) * (v.x * k) + (v.y * k) * (v.y * k);
      k * k * (v.x * v.x) + k * k * (v.y * v.y);
    }
  }
}
