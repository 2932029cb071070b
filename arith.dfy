/**
 * Numeric helpers shared by the whole model: Python's int() on a float,
 * ceiling, a square-root oracle standing in for math.hypot and `** 0.5`,
 * and the "accumulate a step until a bound is reached" countdown used by
 * projectiles (travelled distance) and explosions (elapsed time).
 */
module Arith {

  /** Python's int(v) on a float, and pygame's conversion of a float
      coordinate: truncation toward zero. */
  function Trunc(v: real): (t: int)
    ensures 0.0 <= v ==> 0 <= t && t as real <= v < t as real + 1.0
    ensures v < 0.0 ==> t <= 0 && t as real - 1.0 < v <= t as real
  {
    if v >= 0.0 then v.Floor else -((-v).Floor)
  }

  /** Truncation never reverses the order of two values. */
  lemma {:induction false} TruncMonotone(a: real, b: real)
    requires a <= b
    ensures Trunc(a) <= Trunc(b)
  {
    if 0.0 <= a {
      assert a.Floor <= b.Floor;
    } else if b < 0.0 {
      assert (-b).Floor <= (-a).Floor;
    }
  }

  /** Smallest integer not below v. */
  function Ceil(v: real): (n: int)
    ensures v <= n as real < v + 1.0
  {
    -((-v).Floor)
  }

  function MaxReal(a: real, b: real): real { if a >= b then a else b }
  function MinReal(a: real, b: real): real { if a <= b then a else b }
  function MaxInt(a: int, b: int): int { if a >= b then a else b }
  function MinInt(a: int, b: int): int { if a <= b then a else b }

  /** The square root that math.hypot and `** 0.5` compute, supplied from
      outside: the model only relies on it being the non-negative root. */
  ghost predicate SqrtOracle(sqrt: real -> real)
  {
    forall v: real {:trigger sqrt(v)} :: 0.0 <= v ==> 0.0 <= sqrt(v) && sqrt(v) * sqrt(v) == v
  }

  /** math.hypot(a, b) */
  function Hypot(sqrt: real -> real, a: real, b: real): real
  {
    sqrt(a * a + b * b)
  }

  /** Products of positive (non-negative) factors are positive (non-negative). */
  lemma PosMul(x: real, y: real)
    requires 0.0 < x && 0.0 < y
    ensures 0.0 < x * y
  {
  }

  lemma NonNegMul(x: real, y: real)
    requires 0.0 <= x && 0.0 <= y
    ensures 0.0 <= x * y
  {
  }

  /** Squares of non-negative values are ordered like the values. */
  lemma {:induction false} SquareLess(a: real, b: real)
    requires 0.0 <= a < b
    ensures a * a < b * b
  {
    PosMul(b - a, b + a);
    assert (b - a) * (b + a) == b * b - a * a;
  }

  /** A non-negative root of c * c is |c|. */
  lemma {:induction false} RootOfSquare(r: real, c: real)
    requires 0.0 <= r && r * r == c * c
    ensures r == if c >= 0.0 then c else -c
  {
    var a := if c >= 0.0 then c else -c;
    assert a * a == c * c;
    if r < a {
      SquareLess(r, a);
    } else if a < r {
      SquareLess(a, r);
    }
  }

  /** Comparing a hypotenuse with a bound is comparing squares: this is why
      distance tests elsewhere in the model use squared distances. */
  lemma {:induction false} HypotBelow(sqrt: real -> real, a: real, b: real, bound: real)
    requires SqrtOracle(sqrt)
    ensures Hypot(sqrt, a, b) < bound <==> 0.0 < bound && a * a + b * b < bound * bound
  {
    var d := a * a + b * b;
    assert 0.0 <= a * a && 0.0 <= b * b;
    var r := sqrt(d);
    assert 0.0 <= r && r * r == d;
    if r < bound {
      SquareLess(r, bound);
    }
    if 0.0 < bound && d < bound * bound && r >= bound {
      if r > bound {
        SquareLess(bound, r);
      }
    }
  }

  /** The value of a counter that starts at 0 and is increased by `step`
      on each of k updates (`timer += dt`, `travelled += step`). */
  function Accumulate(k: nat, step: real): real
  {
    if k == 0 then 0.0 else Accumulate(k - 1, step) + step
  }

  lemma {:induction false} AccumulateIsProduct(k: nat, step: real)
    ensures Accumulate(k, step) == k as real * step
  {
    if k > 0 {
      AccumulateIsProduct(k - 1, step);
      assert (k - 1) as real * step + step == k as real * step;
    }
  }

  /** Scaling an order by a positive (non-negative) factor. */
  lemma {:induction false} ScaleLess(a: real, b: real, c: real)
    requires a < b && 0.0 < c
    ensures a * c < b * c
  {
    PosMul(b - a, c);
    assert (b - a) * c == b * c - a * c;
  }

  lemma {:induction false} ScaleAtMost(a: real, b: real, c: real)
    requires a <= b && 0.0 <= c
    ensures a * c <= b * c
  {
    NonNegMul(b - a, c);
    assert (b - a) * c == b * c - a * c;
  }

  lemma QuotientTimesDivisor(a: real, b: real)
    requires 0.0 < a && 0.0 < b
    ensures 0.0 < a / b && (a / b) * b == a
  {
  }

  /** A counter fed a constant positive step first reaches a positive bound
      on update Ceil(bound / step), and not before. */
  lemma {:induction false} FirstReach(bound: real, step: real)
    requires 0.0 < bound && 0.0 < step
    ensures 1 <= Ceil(bound / step)
    ensures Accumulate(Ceil(bound / step), step) >= bound
    ensures forall k: nat :: k < Ceil(bound / step) ==> Accumulate(k, step) < bound
  {
    var q := bound / step;
    QuotientTimesDivisor(bound, step);
    var n := Ceil(q);
    AccumulateReaches(n, q, step);
    forall k: nat | k < n
      ensures Accumulate(k, step) < bound
    {
      AccumulateBelow(k, q, step);
    }
  }

  /** After k updates the counter is at least q * step once k >= q. */
  lemma {:induction false} AccumulateReaches(k: nat, q: real, step: real)
    requires q <= k as real && 0.0 <= step
    ensures q * step <= Accumulate(k, step)
  {
    AccumulateIsProduct(k, step);
    ScaleAtMost(q, k as real, step);
  }

  /** After k updates the counter is still below q * step while k < q. */
  lemma {:induction false} AccumulateBelow(k: nat, q: real, step: real)
    requires k as real < q && 0.0 < step
    ensures Accumulate(k, step) < q * step
  {
    AccumulateIsProduct(k, step);
    ScaleLess(k as real, q, step);
  }

  /** True when a counter fed `step` per update stays below `bound` after
      each of the first k updates: an entity removed as soon as the counter
      reaches the bound is still live after k updates. */
  function Survives(k: nat, step: real, bound: real): bool
  {
    k == 0 || (Survives(k - 1, step, bound) && Accumulate(k, step) < bound)
  }

  /** With a constant positive step, the entity survives exactly the first
      Ceil(bound / step) - 1 updates and is removed by update Ceil(bound / step). */
  lemma {:induction false} SurvivesExactly(k: nat, step: real, bound: real)
    requires 0.0 < bound && 0.0 < step
    ensures Survives(k, step, bound) <==> k < Ceil(bound / step)
  {
    FirstReach(bound, step);
    if k > 0 {
      SurvivesExactly(k - 1, step, bound);
    }
  }

  /** The same comparison with a non-strict bound. */
  lemma {:induction false} HypotAtMost(sqrt: real -> real, a: real, b: real, bound: real)
    requires SqrtOracle(sqrt)
    ensures Hypot(sqrt, a, b) <= bound <==> 0.0 <= bound && a * a + b * b <= bound * bound
  {
    var d := a * a + b * b;
    assert 0.0 <= a * a && 0.0 <= b * b;
    var r := sqrt(d);
    assert 0.0 <= r && r * r == d;
    if r < bound {
      SquareLess(r, bound);
    }
    if 0.0 <= bound && d <= bound * bound && r > bound {
      SquareLess(bound, r);
    }
  }

  /** Dividing a vector of length at least 1 by max(length, eps), for
      0 < eps <= 1, gives a vector of length exactly 1 (the normalisation
      of a shot direction). */
  lemma {:induction false} NormaliseIsUnit(sqrt: real -> real, a: real, b: real, eps: real)
    requires SqrtOracle(sqrt)
    requires 1.0 <= a * a + b * b && 0.0 < eps <= 1.0
    ensures MaxReal(Hypot(sqrt, a, b), eps) == Hypot(sqrt, a, b)
    ensures var n := Hypot(sqrt, a, b);
            (a / n) * (a / n) + (b / n) * (b / n) == 1.0
  {
    var n := sqrt(a * a + b * b);
    assert 0.0 <= n && n * n == a * a + b * b;
    UnitLength(a, b, n);
  }

  /** The same with the length n given: n is at least 1 and (a, b) / n
      has length 1. */
  lemma {:induction false} UnitLength(a: real, b: real, n: real)
    requires 0.0 <= n && n * n == a * a + b * b && 1.0 <= a * a + b * b
    ensures 1.0 <= n && (a / n) * (a / n) + (b / n) * (b / n) == 1.0
  {
    if n < 1.0 {
      SquareLess(n, 1.0);
    }
    DivideBack(a / n, a, n);
    DivideBack(b / n, b, n);
    UnitScaled(a / n, b / n, n, a, b);
  }

  /** w is z / m exactly when w * m == z, for m != 0. */
  lemma DivideBack(w: real, z: real, m: real)
    requires m != 0.0
    ensures w * m == z <==> w == z / m
  {
  }

  /** If (u, v) scaled by n is (a, b) and n is the length of (a, b), then
      (u, v) has length 1. Going through the dot product u * a + v * b
      keeps every step to products of two factors. */
  lemma {:induction false} UnitScaled(u: real, v: real, n: real, a: real, b: real)
    requires n != 0.0 && u * n == a && v * n == b && n * n == a * a + b * b
    ensures u * u + v * v == 1.0
  {
    DotIsLength(u, v, n, a, b);
    DotUnit(u, v, n, a, b);
  }

  /** u * a + v * b == n, from (a, b) == n * (u, v) and n * n == a * a + b * b. */
  lemma DotIsLength(u: real, v: real, n: real, a: real, b: real)
    requires n != 0.0 && u * n == a && v * n == b && n * n == a * a + b * b
    ensures u * a + v * b == n
  {
  }

  /** A dot product u * a + v * b equal to the scale n leaves (u, v) of length 1. */
  lemma DotUnit(u: real, v: real, n: real, a: real, b: real)
    requires n != 0.0 && u * a + v * b == n && u * n == a && v * n == b
    ensures u * u + v * v == 1.0
  {
  }
}
