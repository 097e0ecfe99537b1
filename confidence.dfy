/** The exploration bonuses of the upper-confidence-bound family. Every bonus
    has the shape `sqrt(c * log(x) / n)`; `log` and `sqrt` are the floating-point
    library's and stay uninterpreted. What is stated is that each logarithm
    receives an argument of at least 1 and that every division is by a
    positive number. */
module Confidence {
  import opened Optional
  import opened Estimates

  /** The library's natural logarithm and square root. */
  datatype Maths = Maths(log: real -> real, sqrt: real -> real)

  /** `sqrt` returns the non-negative square root of a non-negative argument. */
  ghost predicate IsSqrt(sqrt: real -> real)
  {
    forall x :: 0.0 <= x ==> 0.0 <= sqrt(x) && sqrt(x) * sqrt(x) == x
  }

  /** The four bonus schedules, one per subclass of UCB. */
  datatype Variant = UCB1 | AOUCB | MOSS | ADA

  /** `plus(x) = max(1, x)` */
  function Plus(x: real): (r: real)
    ensures 1.0 <= r && x <= r
    ensures r == x || r == 1.0
  {
    if 1.0 < x then x else 1.0
  }

  /** Python's `min(x, y)`: the first argument unless the second is smaller. */
  function Min(x: real, y: real): real
  {
    if y < x then y else x
  }

  // ---------------------------------------------------------------- UCB1

  /** `delta = 1/pow(nsamples, 2)` */
  function Delta(nsamples: int): real
    requires nsamples != 0
  {
    assert nsamples * nsamples > 0 by { if nsamples < 0 { assert nsamples * nsamples == (-nsamples) * (-nsamples); } }
    1.0 / ((nsamples * nsamples) as real)
  }

  /** UCB1 takes the logarithm of `1/delta`, which is exactly `nsamples^2`
      and so at least 1 for every non-zero horizon. */
  function Ucb1LogArgument(nsamples: int): (r: real)
    requires nsamples != 0
    ensures r == (nsamples * nsamples) as real
    ensures r >= 1.0
  {
    var sq := nsamples * nsamples;
    assert sq >= 1 by {
      if nsamples > 0 { assert sq >= nsamples; } else { assert sq == (-nsamples) * (-nsamples) >= -nsamples; }
    }
    1.0 / Delta(nsamples)
  }

  // ---------------------------------------------------------------- AOUCB

  /** `f(time) = 1 + time * log(time)^2`: at least 1 at every positive time,
      whatever value the logarithm of `time` takes. */
  function AoucbF(time: int, maths: Maths): (r: real)
    requires time >= 1
    ensures r >= 1.0
  {
    var l := maths.log(time as real);
    assert (time as real) * (l * l) >= 0.0;
    1.0 + (time as real) * (l * l)
  }

  // ---------------------------------------------------------------- MOSS

  /** MOSS takes the logarithm of `plus(nsamples / (nactions * n))`: the
      quotient clipped from below at 1, and the quotient itself once it is 1 or more. */
  function MossLogArgument(nsamples: int, nactions: int, n: int): (r: real)
    requires nactions >= 1 && n >= 1
    ensures r >= 1.0
    ensures (nsamples as real) >= ((nactions * n) as real) ==> r == (nsamples as real) / ((nactions * n) as real)
  {
    assert nactions * n >= 1 by { assert nactions * n >= n; }
    var x := (nsamples as real) / ((nactions * n) as real);
    assert (nsamples as real) >= ((nactions * n) as real) ==> x >= 1.0;
    Plus(x)
  }

  // ---------------------------------------------------------------- ADA

  /** One term `min(n, sqrt(n * m))` of ADA's normaliser, `m` another action's count. */
  function AdaTerm(n: int, m: int, sqrt: real -> real): real
  {
    Min(n as real, sqrt((n * m) as real))
  }

  /** `d`: the sum of `AdaTerm(n, m)` over the counts `m` of all actions, in order. */
  function AdaNormaliser(n: int, counts: seq<int>, sqrt: real -> real): real
  {
    if counts == [] then 0.0
    else AdaNormaliser(n, counts[..|counts| - 1], sqrt) + AdaTerm(n, counts[|counts| - 1], sqrt)
  }

  /** The product of two positive reals is positive. */
  lemma MulPositive(q: real, p: real)
    requires q > 0.0 && p > 0.0
    ensures q * p > 0.0
  {
  }

  /** Two non-negative reals with the same square are equal. */
  lemma SquaresEqual(s: real, m: real)
    requires 0.0 <= s && 0.0 <= m && s * s == m * m
    ensures s == m
  {
    assert (s - m) * (s + m) == 0.0;
    if s != m {
      if s > m { MulPositive(s - m, s + m); } else { MulPositive(m - s, s + m); }
      assert false;
    }
  }

  /** A square root of a square is the number itself. */
  lemma SqrtOfSquare(sqrt: real -> real, n: int)
    requires IsSqrt(sqrt) && n >= 0
    ensures sqrt((n * n) as real) == n as real
  {
    var m := n as real;
    assert (n * n) as real == m * m;
    SquaresEqual(sqrt(m * m), m);
  }

  /** Every term lies in `[0, n]`, and the term for the action itself is `n`. */
  lemma AdaTermBounds(n: int, m: int, sqrt: real -> real)
    requires IsSqrt(sqrt) && n >= 0 && m >= 0
    ensures 0.0 <= AdaTerm(n, m, sqrt) <= n as real
    ensures m == n ==> AdaTerm(n, m, sqrt) == n as real
  {
    assert n * m >= 0;
    if m == n {
      SqrtOfSquare(sqrt, n);
    }
  }

  /** With non-negative counts, `d` is non-negative, and at least `n` as
      soon as one of the counts is `n` itself. */
  lemma {:induction false} AdaNormaliserBounds(n: int, counts: seq<int>, sqrt: real -> real)
    requires IsSqrt(sqrt) && n >= 0
    requires forall i :: 0 <= i < |counts| ==> counts[i] >= 0
    ensures 0.0 <= AdaNormaliser(n, counts, sqrt)
    ensures forall k :: 0 <= k < |counts| && counts[k] == n ==> n as real <= AdaNormaliser(n, counts, sqrt)
  {
    if counts != [] {
      var p := counts[..|counts| - 1];
      assert forall i :: 0 <= i < |p| ==> p[i] == counts[i];
      AdaNormaliserBounds(n, p, sqrt);
      AdaTermBounds(n, counts[|counts| - 1], sqrt);
    }
  }

  /** Every term is at most `n`, so `d` is at most `|counts| * n`. */
  lemma {:induction false} AdaNormaliserAtMost(n: int, counts: seq<int>, sqrt: real -> real)
    requires IsSqrt(sqrt) && n >= 0
    requires forall i :: 0 <= i < |counts| ==> counts[i] >= 0
    ensures AdaNormaliser(n, counts, sqrt) <= (|counts| as real) * (n as real)
  {
    if counts != [] {
      var p := counts[..|counts| - 1];
      assert forall i :: 0 <= i < |p| ==> p[i] == counts[i];
      AdaNormaliserAtMost(n, p, sqrt);
      AdaTermBounds(n, counts[|counts| - 1], sqrt);
      var k := |p| as real;
      assert (k + 1.0) * (n as real) == k * (n as real) + n as real;
    }
  }

  /** ADA takes the logarithm of `plus(nsamples / d)`. */
  function AdaLogArgument(nsamples: int, d: real): (r: real)
    requires d > 0.0
    ensures r >= 1.0
    ensures (nsamples as real) >= d ==> r == (nsamples as real) / d
  {
    Plus((nsamples as real) / d)
  }

  /** The loop that accumulates `d`. */
  method AdaSum(n: int, counts: seq<int>, sqrt: real -> real) returns (d: real)
    ensures d == AdaNormaliser(n, counts, sqrt)
  {
    d := 0.0;
    for i := 0 to |counts|
      invariant d == AdaNormaliser(n, counts[..i], sqrt)
    {
      assert counts[..i + 1][..i] == counts[..i];
      d := d + Min(n as real, sqrt((n * counts[i]) as real));
    }
    assert counts[..|counts|] == counts;
  }

  // ---------------------------------------------------------------- all variants

  /** What evaluating action `a`'s bonus needs: a count of at least 1 for
      every action (`counts[i]` is action `i + 1`'s), a horizon once `run` has
      set one (UCB1 also divides by its square), a positive time for AOUCB's
      `log(time)`, and an exact square root for ADA. */
  ghost predicate BonusDefined(v: Variant, maths: Maths, nsamples: Option<int>, time: int, counts: seq<int>, a: int)
  {
    && 1 <= a <= |counts|
    && (forall i :: 0 <= i < |counts| ==> counts[i] >= 1)
    && BonusReady(v, maths, nsamples, time)
  }

  /** The part of `BonusDefined` that does not depend on the counts. */
  ghost predicate BonusReady(v: Variant, maths: Maths, nsamples: Option<int>, time: int)
  {
    && (v != AOUCB ==> nsamples.Some?)
    && (v == UCB1 ==> nsamples.Some? && nsamples.value != 0)
    && (v == AOUCB ==> time >= 1)
    && (v == ADA ==> IsSqrt(maths.sqrt))
  }

  /** The argument each variant hands to `log` for action `a`: always at least 1. */
  function LogArgument(v: Variant, maths: Maths, nsamples: Option<int>, time: int, counts: seq<int>, a: int): (r: real)
    requires BonusDefined(v, maths, nsamples, time, counts, a)
    ensures r >= 1.0
  {
    match v
    case UCB1 => Ucb1LogArgument(nsamples.value)
    case AOUCB => AoucbF(time, maths)
    case MOSS => MossLogArgument(nsamples.value, |counts|, counts[a - 1])
    case ADA =>
      var n := counts[a - 1];
      AdaNormaliserBounds(n, counts, maths.sqrt);
      AdaLogArgument(nsamples.value, AdaNormaliser(n, counts, maths.sqrt))
  }

  /** The factor in front of the logarithm: 4 for MOSS, 2 otherwise. */
  function Factor(v: Variant): real
  {
    if v == MOSS then 4.0 else 2.0
  }

  /** `bonus(time, action) = sqrt(c * log(x) / n)` */
  function Bonus(v: Variant, maths: Maths, nsamples: Option<int>, time: int, counts: seq<int>, a: int): real
    requires BonusDefined(v, maths, nsamples, time, counts, a)
  {
    maths.sqrt(Factor(v) * maths.log(LogArgument(v, maths, nsamples, time, counts, a)) / (counts[a - 1] as real))
  }

  /** Each subclass's `bonus` method; ADA's accumulates `d` in a loop over a
      snapshot of the counts. */
  method ComputeBonus(v: Variant, maths: Maths, nsamples: Option<int>, time: int, counts: seq<int>, a: int)
    returns (b: real)
    requires BonusDefined(v, maths, nsamples, time, counts, a)
    ensures b == Bonus(v, maths, nsamples, time, counts, a)
  {
    var n := counts[a - 1];
    match v
    case UCB1 =>
      var delta := Delta(nsamples.value);
      b := maths.sqrt(2.0 * maths.log(1.0 / delta) / (n as real));
    case AOUCB =>
      b := maths.sqrt(2.0 * maths.log(AoucbF(time, maths)) / (n as real));
    case MOSS =>
      var x := (nsamples.value as real) / ((|counts| * n) as real);
      b := maths.sqrt(4.0 * maths.log(Plus(x)) / (n as real));
    case ADA =>
      var d := AdaSum(n, counts, maths.sqrt);
      AdaNormaliserBounds(n, counts, maths.sqrt);
      b := maths.sqrt(2.0 * maths.log(Plus((nsamples.value as real) / d)) / (n as real));
  }

  /** `mu + bonus(time, a)` for every action `a`, in order: `means[i]` and
      `counts[i]` are action `i + 1`'s estimate and count. */
  function UpperBounds(v: Variant, maths: Maths, nsamples: Option<int>, time: int,
                       means: seq<real>, counts: seq<int>): (s: seq<real>)
    requires |means| == |counts| && forall i :: 0 <= i < |counts| ==> counts[i] >= 1
    requires BonusReady(v, maths, nsamples, time)
    ensures |s| == |counts|
    ensures forall i :: 0 <= i < |counts| ==> s[i] == means[i] + Bonus(v, maths, nsamples, time, counts, i + 1)
  {
    seq(|counts|, i requires 0 <= i < |counts| => means[i] + Bonus(v, maths, nsamples, time, counts, i + 1))
  }

  /** The upper bounds of actions `1..nactions` read off what each action has
      observed: its average reward plus its bonus at its observation count.
      Empty where some action has observed nothing or a bonus is undefined. */
  ghost function UpperBoundsOf(v: Variant, maths: Maths, nsamples: Option<int>, time: int,
                               obs: map<int, seq<real>>, nactions: nat): seq<real>
  {
    if Seen(obs, nactions) && BonusReady(v, maths, nsamples, time) then
      UpperBounds(v, maths, nsamples, time, MeansOf(obs, nactions), CountsOf(obs, nactions))
    else []
  }
}
