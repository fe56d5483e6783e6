/** Two-dimensional vectors over the reals: the part of pygame.Vector2 that the
    simulators use (component-wise arithmetic, dot product, lengths). */
module Vectors {

  datatype Vec2 = Vec2(x: real, y: real)

  const Zero: Vec2 := Vec2(0.0, 0.0)

  function Add(a: Vec2, b: Vec2): Vec2 { Vec2(a.x + b.x, a.y + b.y) }

  function Sub(a: Vec2, b: Vec2): Vec2 { Vec2(a.x - b.x, a.y - b.y) }

  function Scale(k: real, a: Vec2): Vec2 { Vec2(k * a.x, k * a.y) }

  function Dot(a: Vec2, b: Vec2): real { a.x * b.x + a.y * b.y }

  /** The z component of the cross product; zero when `a` lies along `b`. */
  function Cross(a: Vec2, b: Vec2): real { a.x * b.y - a.y * b.x }

  /** pygame's length_squared(). */
  function LengthSquared(a: Vec2): real { a.x * a.x + a.y * a.y }

  /** `norm` is the Euclidean length: the non-negative square root of the
      squared length. pygame's length() is given to the model this way, as a
      parameter, because Dafny's reals have no square root. */
  ghost predicate IsNorm(norm: Vec2 -> real)
  {
    forall v :: norm(v) >= 0.0 && norm(v) * norm(v) == LengthSquared(v)
  }

  lemma LengthSquaredNonNegative(a: Vec2)
    ensures LengthSquared(a) >= 0.0
  {
  }

  /** The square of a non-zero real is positive. */
  lemma SquarePositive(t: real)
    requires t != 0.0
    ensures t * t > 0.0
  {
    if t > 0.0 {
      assert t * t > 0.0 * t;
    } else {
      var u := -t;
      assert u * u > 0.0 * u;
      assert t * t == u * u;
    }
  }

  /** A sum of two squares is positive unless both are zero. */
  lemma SumOfSquaresPositive(a: real, b: real)
    requires a != 0.0 || b != 0.0
    ensures a * a + b * b > 0.0
  {
    if a != 0.0 {
      SquarePositive(a);
      assert b * b >= 0.0 by {
        if b != 0.0 { SquarePositive(b); }
      }
    } else {
      SquarePositive(b);
    }
  }

  /** Only the zero vector has squared length zero. */
  lemma LengthSquaredPositive(a: Vec2)
    requires a != Zero
    ensures LengthSquared(a) > 0.0
  {
    assert a.x != 0.0 || a.y != 0.0;
    calc {
      LengthSquared(a);
    ==
      a.x * a.x + a.y * a.y;
    > { SumOfSquaresPositive(a.x, a.y); }
      0.0;
    }
  }

  /** Scaling a vector by k scales its squared length by k². */
  lemma LengthSquaredScale(k: real, a: Vec2)
    ensures LengthSquared(Scale(k, a)) == k * k * LengthSquared(a)
  {
    ProductSquare(k, a.x);
    ProductSquare(k, a.y);
  }

  lemma ProductSquare(k: real, t: real)
    ensures (k * t) * (k * t) == k * k * (t * t)
  {
  }

  /** Two non-negative reals with equal squares are equal: a length is
      determined by its square. */
  lemma SquareRootUnique(a: real, b: real)
    requires a >= 0.0 && b >= 0.0 && a * a == b * b
    ensures a == b
  {
    if a < b {
      SquareMonotone(a, b);
      assert false;
    } else if b < a {
      SquareMonotone(b, a);
      assert false;
    }
  }

  lemma SquareMonotone(lo: real, hi: real)
    requires 0.0 <= lo < hi
    ensures lo * lo < hi * hi
  {
    var l2, lh, h2 := lo * lo, lo * hi, hi * hi;
    assert l2 <= lh;
    assert lh < h2;
  }

  /** A vector whose squared length is `len²`, `len >= 0`, has norm `len`. */
  lemma NormOfLength(norm: Vec2 -> real, v: Vec2, len: real)
    requires IsNorm(norm) && len >= 0.0 && LengthSquared(v) == len * len
    ensures norm(v) == len
  {
    assert norm(v) >= 0.0 && norm(v) * norm(v) == LengthSquared(v);
    SquareRootUnique(norm(v), len);
  }

  /** A vector whose squared length is not zero has a positive length. */
  lemma NormNonZero(norm: Vec2 -> real, v: Vec2)
    requires IsNorm(norm) && LengthSquared(v) != 0.0
    ensures norm(v) > 0.0
  {
    var n := norm(v);
    assert n >= 0.0 && n * n == LengthSquared(v);
    if n == 0.0 {
      assert false;
    }
  }

  /** pygame's scale_to_length(len): a vector along `v` whose length is `len`.
      pygame raises ValueError for a vector of length zero, which the
      precondition excludes. */
  function ScaleToLength(norm: Vec2 -> real, v: Vec2, len: real): (r: Vec2)
    requires IsNorm(norm) && LengthSquared(v) != 0.0
    ensures LengthSquared(r) == len * len
    ensures Scale(norm(v), r) == Scale(len, v)
  {
    NormNonZero(norm, v);
    var n := norm(v);
    var k := len / n;
    LengthSquaredScale(k, v);
    KeepsRatio(k, n, len, v.x);
    KeepsRatio(k, n, len, v.y);
    assert k * k * (n * n) == len * len by {
      ProductSquare(k, n);
    }
    Scale(k, v)
  }

  lemma KeepsRatio(k: real, n: real, len: real, t: real)
    requires n != 0.0 && k == len / n
    ensures n * (k * t) == len * t
  {
    assert n * k == len;
    assert n * (k * t) == (n * k) * t;
  }

  /** The dot product is linear in its first argument. */
  lemma DotSub(a: Vec2, b: Vec2, d: Vec2)
    ensures Dot(Sub(a, b), d) == Dot(a, d) - Dot(b, d)
  {
  }

  /** Reversing the second argument of a dot product negates it. */
  lemma DotReversed(a: Vec2, p: Vec2, q: Vec2)
    ensures Dot(a, Sub(q, p)) == -Dot(a, Sub(p, q))
  {
  }

  lemma LengthSquaredReversed(p: Vec2, q: Vec2)
    ensures LengthSquared(Sub(q, p)) == LengthSquared(Sub(p, q))
  {
  }

  /** `a - k d`: `a` moved by `k` times `d` backwards. Its dot product with
      `d` drops by k |d|², and |a - k d|² = |a|² - 2k (a . d) + k² |d|². */
  function SubScaled(a: Vec2, k: real, d: Vec2): (r: Vec2)
    ensures Dot(r, d) == Dot(a, d) - k * LengthSquared(d)
    ensures LengthSquared(r) == LengthSquared(a) - 2.0 * k * Dot(a, d) + k * k * LengthSquared(d)
  {
    assert (a.x - k * d.x) * d.x == a.x * d.x - k * (d.x * d.x);
    assert (a.y - k * d.y) * d.y == a.y * d.y - k * (d.y * d.y);
    SquareOfDifference(a.x, k, d.x);
    SquareOfDifference(a.y, k, d.y);
    Sub(a, Scale(k, d))
  }

  lemma SquareOfDifference(a: real, k: real, d: real)
    ensures (a - k * d) * (a - k * d) == a * a - 2.0 * k * (a * d) + k * k * (d * d)
  {
  }
}
