/**
 * Numeric helpers shared by the services: Python's `round`, `int()` and
 * `max(0, min(1, x))`, JavaScript's `Math.floor`/`Math.round`, and the
 * `numpy` reductions used to build the yield-model features.
 * Floating point is modelled by exact reals.
 */
module Numeric {

  /** Python's `round(x)`: the nearest integer, ties to the even neighbour. */
  function RoundHalfEven(x: real): (n: int)
    ensures -0.5 <= n as real - x <= 0.5
    ensures n as real - x == 0.5 || x - n as real == 0.5 ==> n % 2 == 0
  {
    var f := x.Floor;
    var frac := x - f as real;
    if frac < 0.5 then f
    else if frac > 0.5 then f + 1
    else if f % 2 == 0 then f else f + 1
  }

  /** An integer is its own rounding. */
  lemma RoundHalfEvenOfInt(n: int)
    ensures RoundHalfEven(n as real) == n
  {
  }

  /** Rounding never reverses the order of two reals. */
  lemma RoundHalfEvenMonotone(x: real, y: real)
    requires x <= y
    ensures RoundHalfEven(x) <= RoundHalfEven(y)
  {
  }

  /** Python's `round(x, k)` for `scale == 10^k`: the nearest multiple of `1/scale`, ties to even. */
  function RoundTo(x: real, scale: nat): (r: real)
    requires scale > 0
  {
    RoundHalfEven(x * scale as real) as real / scale as real
  }

  /** `round(x, 3)`, used for every metric the services emit. */
  function Round3(x: real): (r: real)
    ensures -0.0005 <= r - x <= 0.0005
  {
    RoundTo(x, 1000)
  }

  /** `round(x, 1)`, used for the yield percentage. */
  function Round1(x: real): (r: real)
    ensures -0.05 <= r - x <= 0.05
  {
    RoundTo(x, 10)
  }

  /** Rounding to three places twice changes nothing more. */
  lemma Round3Idempotent(x: real)
    ensures Round3(Round3(x)) == Round3(x)
  {
    var n := RoundHalfEven(x * 1000.0);
    assert Round3(x) * 1000.0 == n as real;
    RoundHalfEvenOfInt(n);
  }

  /** Rounding to three places keeps a value inside `[lo, hi]` when both ends have at most three places. */
  lemma Round3WithinBounds(x: real, lo: int, hi: int)
    requires lo as real / 1000.0 <= x <= hi as real / 1000.0
    ensures lo as real / 1000.0 <= Round3(x) <= hi as real / 1000.0
  {
    RoundHalfEvenMonotone(lo as real, x * 1000.0);
    RoundHalfEvenMonotone(x * 1000.0, hi as real);
    RoundHalfEvenOfInt(lo);
    RoundHalfEvenOfInt(hi);
  }

  /** `max(0, min(1, x))`. */
  function Clamp01(x: real): (r: real)
    ensures 0.0 <= r <= 1.0
    ensures 0.0 <= x <= 1.0 ==> r == x
    ensures x < 0.0 ==> r == 0.0
    ensures x > 1.0 ==> r == 1.0
  {
    if x > 1.0 then 1.0 else if x < 0.0 then 0.0 else x
  }

  /** Clamping never reverses the order of two reals. */
  lemma Clamp01Monotone(x: real, y: real)
    requires x <= y
    ensures Clamp01(x) <= Clamp01(y)
  {
  }

  /** Python's `int(x)`: truncation toward zero. */
  function TruncToInt(x: real): (n: int)
    ensures x >= 0.0 ==> 0 <= n && n as real <= x < n as real + 1.0
    ensures x < 0.0 ==> n <= 0 && n as real - 1.0 < x <= n as real
  {
    if x >= 0.0 then x.Floor else -((-x).Floor)
  }

  /** JavaScript's `Math.round(x)`: the nearest integer, ties toward positive infinity. */
  function JsRound(x: real): (n: int)
    ensures x - 0.5 < n as real <= x + 0.5
  {
    (x + 0.5).Floor
  }

  /** The sum of a sequence of reals. */
  function Sum(xs: seq<real>): real
  {
    if xs == [] then 0.0 else xs[0] + Sum(xs[1..])
  }

  /** `np.min`: the least element. */
  function MinOf(xs: seq<real>): (m: real)
    requires xs != []
    ensures m in xs
    ensures forall i :: 0 <= i < |xs| ==> m <= xs[i]
  {
    if |xs| == 1 then xs[0]
    else var rest := MinOf(xs[1..]); if xs[0] <= rest then xs[0] else rest
  }

  /** `np.max`: the greatest element. */
  function MaxOf(xs: seq<real>): (m: real)
    requires xs != []
    ensures m in xs
    ensures forall i :: 0 <= i < |xs| ==> xs[i] <= m
  {
    if |xs| == 1 then xs[0]
    else var rest := MaxOf(xs[1..]); if xs[0] >= rest then xs[0] else rest
  }

  /** A sum of values all at least `lo` (at most `hi`) is at least `n * lo` (at most `n * hi`). */
  lemma {:induction false} SumBounds(xs: seq<real>, lo: real, hi: real)
    requires forall i :: 0 <= i < |xs| ==> lo <= xs[i] <= hi
    ensures |xs| as real * lo <= Sum(xs) <= |xs| as real * hi
  {
    if xs != [] {
      SumBounds(xs[1..], lo, hi);
      assert |xs| as real * lo == (|xs| - 1) as real * lo + lo;
      assert |xs| as real * hi == (|xs| - 1) as real * hi + hi;
    }
  }

  /** `np.mean`. */
  function Mean(xs: seq<real>): real
    requires xs != []
  {
    Sum(xs) / |xs| as real
  }

  /** The mean lies between the least and the greatest element. */
  lemma MeanBetweenMinAndMax(xs: seq<real>)
    requires xs != []
    ensures MinOf(xs) <= Mean(xs) <= MaxOf(xs)
  {
    var n, lo, hi, s := |xs| as real, MinOf(xs), MaxOf(xs), Sum(xs);
    assert lo <= s / n <= hi by {
      SumBounds(xs, lo, hi);
      DivideBounds(s, n, lo, hi);
    }
  }

  lemma DivideBounds(s: real, n: real, lo: real, hi: real)
    requires n > 0.0 && n * lo <= s <= n * hi
    ensures lo <= s / n <= hi
  {
  }

  /** The sum of squared deviations from `mu`. */
  function SquaredDeviations(xs: seq<real>, mu: real): (r: real)
    ensures r >= 0.0
  {
    if xs == [] then 0.0
    else
      var d := xs[0] - mu;
      assert d * d >= 0.0 by { if d < 0.0 { assert d * d == (-d) * (-d); } }
      d * d + SquaredDeviations(xs[1..], mu)
  }

  /** The population variance that `np.std` takes the square root of (`ddof = 0`). */
  function Variance(xs: seq<real>): (v: real)
    requires xs != []
    ensures v >= 0.0
  {
    SquaredDeviations(xs, Mean(xs)) / |xs| as real
  }

  /** How close to the true square root `Sqrt` gets. */
  const SqrtTolerance: real := 0.000000001

  /** Squaring is monotone on the non-negative reals. */
  lemma SquareMonotone(a: real, b: real)
    requires 0.0 <= a <= b
    ensures Square(a) <= Square(b)
  {
    assert a * a <= a * b;
    assert a * b <= b * b;
  }

  /** Bisection for the square root of `v` inside `[lo, hi]`, until the interval is narrower than the tolerance. */
  function SqrtBisect(v: real, lo: real, hi: real): (r: real)
    requires 0.0 <= lo <= hi && Square(lo) <= v <= Square(hi)
    ensures lo <= r <= hi && Square(r) <= v <= Square(r + SqrtTolerance)
    decreases Halvings(lo, hi)
  {
    if hi - lo <= SqrtTolerance then
      SquareMonotone(hi, lo + SqrtTolerance);
      lo
    else
      var mid := (lo + hi) / 2.0;
      HalvingDecreases(lo, mid, hi);
      if Square(mid) <= v then SqrtBisect(v, mid, hi)
      else SqrtBisect(v, lo, mid)
  }

  function Square(x: real): real
  {
    x * x
  }

  /** How many tolerance-wide steps fit in `[lo, hi]`: the bisection's termination measure. */
  function Halvings(lo: real, hi: real): int
  {
    ((hi - lo) / SqrtTolerance).Floor
  }

  lemma HalvingDecreases(lo: real, mid: real, hi: real)
    requires hi - lo > SqrtTolerance && mid == (lo + hi) / 2.0
    ensures 0 <= Halvings(mid, hi) < Halvings(lo, hi)
    ensures 0 <= Halvings(lo, mid) < Halvings(lo, hi)
  {
    var x := (hi - lo) / SqrtTolerance;
    assert (hi - mid) / SqrtTolerance == x / 2.0;
    assert (mid - lo) / SqrtTolerance == x / 2.0;
    assert x > 1.0;
  }

  /** The square root, from below, to within `SqrtTolerance`. */
  function Sqrt(v: real): (r: real)
    requires v >= 0.0
    ensures 0.0 <= r && Square(r) <= v <= Square(r + SqrtTolerance)
  {
    SquareMonotone(1.0, v + 1.0);
    SquareMonotone(v, v + 1.0);
    assert v <= Square(v + 1.0);
    SqrtBisect(v, 0.0, v + 1.0)
  }

  /** `np.std`: the population standard deviation, as approximated by `Sqrt`. */
  function StdDev(xs: seq<real>): (s: real)
    requires xs != []
    ensures s >= 0.0 && Square(s) <= Variance(xs) <= Square(s + SqrtTolerance)
  {
    Sqrt(Variance(xs))
  }
}
