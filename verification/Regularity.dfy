/** How regular a client's gaps are: the standard deviation of its latest intervals against their
    mean, in exact arithmetic. */
module Regularity {
  const MIN_SAMPLES: nat := 8
  const MIN_COUNT: nat := 15

  function Sum(xs: seq<nat>): nat {
    if xs == [] then 0 else Sum(xs[..|xs| - 1]) + xs[|xs| - 1]
  }

  function Squares(xs: seq<nat>): nat {
    if xs == [] then 0 else Squares(xs[..|xs| - 1]) + xs[|xs| - 1] * xs[|xs| - 1]
  }

  /** Eight samples or more, a mean above five milliseconds, a deviation below 15 percent of the mean,
      and at least fifteen requests; multiplied out, so that nothing is divided or rooted. */
  predicate Regular(n: nat, sum: nat, squares: nat, count: nat) {
    && n >= MIN_SAMPLES && sum > 5 * n && count >= MIN_COUNT
    && 10_000 * (n * squares - sum * sum) < 225 * (sum * sum)
  }

  predicate IsRegular(intervals: seq<nat>, count: nat) {
    Regular(|intervals|, Sum(intervals), Squares(intervals), count)
  }

  // ---- What that means ----

  /** The sum of the squared deviations from m. */
  function Deviations(xs: seq<nat>, m: real): real {
    if xs == [] then 0.0
    else
      var d := xs[|xs| - 1] as real - m;
      Deviations(xs[..|xs| - 1], m) + d * d
  }

  /** m is the mean of n numbers that add up to s. */
  ghost predicate IsMean(n: nat, s: nat, m: real) {
    n as real * m == s as real
  }

  /** v is the variance of n numbers whose squared deviations add up to d. */
  ghost predicate IsVariance(n: nat, d: real, v: real) {
    n as real * v == d
  }

  /** Squared deviations from m of n numbers, by their sum s and the sum q of their squares. */
  function Expanded(n: nat, s: nat, q: nat, m: real): real {
    q as real - 2.0 * (m * s as real) + n as real * (m * m)
  }

  lemma SquareOf(x: real, m: real)
    ensures (x - m) * (x - m) == x * x - 2.0 * (m * x) + m * m
  {
  }

  lemma Scaled(m: real, n: nat, s: nat, x: nat)
    ensures m * (s + x) as real == m * s as real + m * x as real
    ensures (n + 1) as real * (m * m) == n as real * (m * m) + m * m
    ensures (x * x) as real == x as real * x as real
  {
  }

  lemma ExpandedNext(n: nat, s: nat, q: nat, m: real, x: nat)
    ensures Expanded(n + 1, s + x, q + x * x, m)
         == Expanded(n, s, q, m) + (x as real - m) * (x as real - m)
  {
    SquareOf(x as real, m);
    Scaled(m, n, s, x);
  }

  lemma {:induction false} DeviationsExpand(xs: seq<nat>, m: real)
    ensures Deviations(xs, m) == Expanded(|xs|, Sum(xs), Squares(xs), m)
  {
    if xs == [] {
      assert Expanded(0, 0, 0, m) == 0.0;
    } else {
      var (rest, x) := (xs[..|xs| - 1], xs[|xs| - 1]);
      DeviationsExpand(rest, m);
      ExpandedNext(|rest|, Sum(rest), Squares(rest), m, x);
    }
  }

  lemma MultiplyIn(n: real, a: real, b: real, c: real)
    ensures n * (a - 2.0 * b + c) == n * a - 2.0 * (n * b) + n * c
  {
  }

  lemma Regroup(a: real, b: real, c: real)
    ensures a * (b * c) == (a * b) * c && a * (b * c) == b * (a * c)
  {
  }

  /** n times the deviations from the mean come to n times the squares less the square of the sum. */
  lemma Cancels(d: real, q: real, m: real, s: real, n: real)
    requires n * m == s && d == q - 2.0 * (m * s) + n * (m * m)
    ensures n * d == n * q - s * s
  {
    MultiplyIn(n, q, m * s, n * (m * m));
    Regroup(n, m, s);
    Regroup(n, m, m);
    Regroup(n, s, m);
    assert n * (m * m) == s * m;
    assert n * (s * m) == s * (n * m);
  }

  /** Multiplying both sides by a positive number keeps their order. */
  lemma Grown(k: real, a: real, b: real)
    requires k > 0.0
    ensures a < b <==> k * a < k * b
  {
    assert k * (b - a) == k * b - k * a;
  }

  lemma Compared(v: real, d: real, m: real, s: real, n: real)
    requires n > 0.0 && n * v == d && n * m == s
    ensures 10_000.0 * v < 225.0 * (m * m) <==> 10_000.0 * (n * d) < 225.0 * (s * s)
  {
    Grown(n, 10_000.0 * v, 225.0 * (m * m));
    assert n * (10_000.0 * v) == 10_000.0 * d && n * (225.0 * (m * m)) == 225.0 * (n * (m * m));
    Regroup(n, m, m);
    assert n * (m * m) == s * m;
    Grown(n, 10_000.0 * d, 225.0 * (s * m));
    assert n * (10_000.0 * d) == 10_000.0 * (n * d) && n * (225.0 * (s * m)) == 225.0 * (n * (s * m));
    Regroup(n, s, m);
    assert n * (s * m) == s * s;
  }

  lemma InReals(n: nat, q: nat, s: nat)
    ensures (10_000 * (n * q - s * s)) as real
         == 10_000.0 * (n as real * q as real - s as real * s as real)
    ensures (225 * (s * s)) as real == 225.0 * (s as real * s as real)
  {
    assert (n * q) as real == n as real * q as real && (s * s) as real == s as real * s as real;
  }

  lemma MeanAbove(n: nat, s: nat, m: real)
    requires n > 0 && n as real * m == s as real
    ensures m > 5.0 <==> s > 5 * n
  {
    Grown(n as real, 5.0, m);
    assert (5 * n) as real == 5.0 * n as real;
  }

  lemma Decided(n: nat, q: nat, s: nat, m: real, d: real, v: real)
    requires n > 0 && IsMean(n, s, m) && IsVariance(n, d, v) && d == Expanded(n, s, q, m)
    ensures 10_000 * (n * q - s * s) < 225 * (s * s) <==> 10_000.0 * v < 225.0 * (m * m)
  {
    Cancels(d, q as real, m, s as real, n as real);
    Compared(v, d, m, s as real, n as real);
    InReals(n, q, s);
  }

  lemma RegularByNumbers(n: nat, s: nat, q: nat, count: nat, m: real, d: real, v: real)
    requires n >= MIN_SAMPLES && IsMean(n, s, m) && IsVariance(n, d, v) && d == Expanded(n, s, q, m)
    ensures Regular(n, s, q, count) <==> count >= MIN_COUNT && m > 5.0 && 10_000.0 * v < 225.0 * (m * m)
  {
    Decided(n, q, s, m, d, v);
    MeanAbove(n, s, m);
  }

  /** The test is the one on mean and variance: the coefficient of variation, the root of the variance
      over the mean, is below 0.15 exactly when the variance is below 0.0225 times the squared mean. */
  lemma RegularExactly(xs: seq<nat>, count: nat, m: real, v: real)
    requires IsMean(|xs|, Sum(xs), m) && IsVariance(|xs|, Deviations(xs, m), v)
    ensures IsRegular(xs, count) <==> |xs| >= 8 && count >= 15 && m > 5.0 && 10_000.0 * v < 225.0 * (m * m)
  {
    DeviationsExpand(xs, m);
    if |xs| >= MIN_SAMPLES {
      RegularByNumbers(|xs|, Sum(xs), Squares(xs), count, m, Deviations(xs, m), v);
    }
  }

  method CheckRegular(intervals: seq<nat>, count: nat) returns (yes: bool)
    ensures yes <==> IsRegular(intervals, count)
  {
    if |intervals| < MIN_SAMPLES { return false; }
    var sum, squares := 0, 0;
    for i := 0 to |intervals|
      invariant sum == Sum(intervals[..i]) && squares == Squares(intervals[..i])
    {
      assert intervals[..i + 1][..i] == intervals[..i];
      sum, squares := sum + intervals[i], squares + intervals[i] * intervals[i];
    }
    assert intervals[..|intervals|] == intervals;
    yes := Regular(|intervals|, sum, squares, count);
  }
}
