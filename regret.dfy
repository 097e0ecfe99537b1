/** Cumulative regret, as both experiment drivers compute it. `mu[a - 1]` is
    the true expectation of action `a`, the environment's `expectations`. */
module Regret {
  import opened Optional
  import opened Estimates
  import opened Selection

  /** `opt = max(mu, key = mu.get)`: the first action whose expectation is
      maximal, as Python's `max` keeps the first of equal keys. */
  function Optimal(mu: seq<real>): (opt: int)
    requires mu != []
    ensures IsFirstMax(mu, opt)
  {
    ScanIsFirstMax(mu);
    Scan(mu).action
  }

  /** Every action is one of `1..|mu|`, the keys of `expectations`. */
  ghost predicate Playable(mu: seq<real>, actions: seq<int>)
  {
    forall s :: 0 <= s < |actions| ==> 1 <= actions[s] <= |mu|
  }

  /** The regret of playing `a` once: `mu[opt] - mu[a]`. */
  function Gap(mu: seq<real>, a: int): (g: real)
    requires 1 <= a <= |mu|
    ensures g >= 0.0
    ensures g == 0.0 <==> mu[a - 1] == mu[Optimal(mu) - 1]
  {
    mu[Optimal(mu) - 1] - mu[a - 1]
  }

  /** The total regret of a sequence of plays. */
  function Cumulative(mu: seq<real>, actions: seq<int>): real
    requires Playable(mu, actions)
  {
    if actions == [] then 0.0
    else Cumulative(mu, actions[..|actions| - 1]) + Gap(mu, actions[|actions| - 1])
  }

  /** Row `t` of a regret column: the regret of the first `t + 1` plays. */
  function Trajectory(mu: seq<real>, actions: seq<int>): (r: seq<real>)
    requires Playable(mu, actions)
    ensures |r| == |actions|
  {
    seq(|actions|, t requires 0 <= t < |actions| => Cumulative(mu, actions[..t + 1]))
  }

  /** The drivers' recurrence: row 0 is the first play's gap and each later
      row adds the gap of its own play to the row before. */
  lemma TrajectoryStep(mu: seq<real>, actions: seq<int>, t: int)
    requires Playable(mu, actions) && 0 <= t < |actions|
    ensures Trajectory(mu, actions)[t]
            == (if t == 0 then 0.0 else Trajectory(mu, actions)[t - 1]) + Gap(mu, actions[t])
  {
    var p := actions[..t + 1];
    assert Playable(mu, p) && p[..t] == actions[..t] && p[t] == actions[t];
    assert Trajectory(mu, actions)[t] == Cumulative(mu, p) == Cumulative(mu, p[..t]) + Gap(mu, actions[t]);
    if t == 0 {
      assert p[..0] == [];
    }
  }

  /** Regret never decreases along a run. */
  lemma TrajectoryMonotone(mu: seq<real>, actions: seq<int>, s: int, t: int)
    requires Playable(mu, actions) && 0 <= s <= t < |actions|
    ensures Trajectory(mu, actions)[s] <= Trajectory(mu, actions)[t]
    decreases t - s
  {
    if s < t {
      TrajectoryStep(mu, actions, t);
      TrajectoryMonotone(mu, actions, s, t - 1);
    }
  }

  /** Regret is never negative. */
  lemma {:induction false} CumulativeNonNegative(mu: seq<real>, actions: seq<int>)
    requires Playable(mu, actions)
    ensures Cumulative(mu, actions) >= 0.0
  {
    if actions != [] {
      CumulativeNonNegative(mu, actions[..|actions| - 1]);
    }
  }

  /** A run that always plays an action of optimal expectation has no
      regret at any step; and only such a run has none. */
  lemma {:induction false} ZeroRegret(mu: seq<real>, actions: seq<int>)
    requires Playable(mu, actions)
    ensures Cumulative(mu, actions) == 0.0
            <==> forall s :: 0 <= s < |actions| ==> mu[actions[s] - 1] == mu[Optimal(mu) - 1]
  {
    if actions != [] {
      var p := actions[..|actions| - 1];
      ZeroRegret(mu, p);
      CumulativeNonNegative(mu, p);
      assert forall s :: 0 <= s < |p| ==> p[s] == actions[s];
    }
  }

  /** Column `col` of `a` holds the trajectory of `actions`. */
  ghost predicate Filled(a: array2<real>, col: int, mu: seq<real>, actions: seq<int>)
    reads a
    requires Playable(mu, actions)
  {
    && 0 <= col < a.Length1
    && |actions| == a.Length0
    && forall t :: 0 <= t < a.Length0 ==> a[t, col] == Trajectory(mu, actions)[t]
  }

  /** The drivers' inner loop: row by row, column `col` of `performance`
      becomes the previous row (zero before the first) plus the gap of that
      step's action. Every other column is unchanged. */
  method FillColumn(performance: array2<real>, col: int, mu: seq<real>, opt: int, actions: seq<int>)
    requires Playable(mu, actions) && mu != [] && opt == Optimal(mu)
    requires 0 <= col < performance.Length1 && |actions| == performance.Length0
    modifies performance
    ensures Filled(performance, col, mu, actions)
    ensures forall t, j :: 0 <= t < performance.Length0 && 0 <= j < performance.Length1 && j != col ==>
              performance[t, j] == old(performance[t, j])
  {
    for t := 0 to performance.Length0
      invariant forall s :: 0 <= s < t ==> performance[s, col] == Trajectory(mu, actions)[s]
      invariant forall s, j :: 0 <= s < performance.Length0 && 0 <= j < performance.Length1 && j != col ==>
                  performance[s, j] == old(performance[s, j])
    {
      var previous := if t == 0 then 0.0 else performance[t - 1, col];
      var action := actions[t];
      var regret := mu[opt - 1] - mu[action - 1];
      TrajectoryStep(mu, actions, t);
      performance[t, col] := previous + regret;
    }
  }

  /** A run `actions` long enough for `n` steps, whose first `n` actions are
      keys of the expectations. */
  ghost predicate Played(mu: seq<real>, actions: seq<int>, n: int)
  {
    0 <= n <= |actions| && Playable(mu, actions[..n])
  }

  /** Column `col` of `a` holds the regret trajectory of the first `n` actions
      of `run`, `n` being the number of rows of `a`. */
  ghost predicate Records(a: array2<real>, col: int, mu: seq<real>, run: seq<int>)
    reads a
  {
    Played(mu, run, a.Length0) && Filled(a, col, mu, run[..a.Length0])
  }

  /** One pass of the drivers' outer loop: each learner in order fills
      column `iter` of its own matrix from the first `n` actions of its run
      `play(l, iter)`, `n` being the matrix's number of rows; every other
      column of every matrix is unchanged. */
  method Round(performance: seq<array2<real>>, iter: int, mu: seq<real>, opt: int, play: (int, int) -> seq<int>)
    requires mu != [] && opt == Optimal(mu)
    requires forall l :: 0 <= l < |performance| ==> 0 <= iter < performance[l].Length1
    requires forall l, m :: 0 <= l < m < |performance| ==> performance[l] != performance[m]
    requires forall l :: 0 <= l < |performance| ==> Played(mu, play(l, iter), performance[l].Length0)
    modifies set l | 0 <= l < |performance| :: performance[l]
    ensures forall l :: 0 <= l < |performance| ==> Records(performance[l], iter, mu, play(l, iter))
    ensures forall l, t, j ::
              0 <= l < |performance| && 0 <= t < performance[l].Length0 && 0 <= j < performance[l].Length1 && j != iter
              ==> performance[l][t, j] == old(performance[l][t, j])
  {
    for learner := 0 to |performance|
      invariant forall l :: 0 <= l < learner ==> Records(performance[l], iter, mu, play(l, iter))
      invariant forall l, t, j ::
                  0 <= l < |performance| && 0 <= t < performance[l].Length0 && 0 <= j < performance[l].Length1 && j != iter
                  ==> performance[l][t, j] == old(performance[l][t, j])
    {
      var agent := performance[learner];
      var history := play(learner, iter);
      FillColumn(agent, iter, mu, opt, history[..agent.Length0]);
    }
  }

  /** The drivers' nested loops over preallocated matrices, one per learner
      and each with a column per iteration: afterwards column `iter` of
      learner `l`'s matrix holds the regret trajectory of its run
      `play(l, iter)`. */
  method Simulate(performance: seq<array2<real>>, iterations: nat, mu: seq<real>, play: (int, int) -> seq<int>)
    requires mu != []
    requires forall l :: 0 <= l < |performance| ==> performance[l].Length1 == iterations
    requires forall l, m :: 0 <= l < m < |performance| ==> performance[l] != performance[m]
    requires forall l, i :: 0 <= l < |performance| && 0 <= i < iterations ==>
               Played(mu, play(l, i), performance[l].Length0)
    modifies set l | 0 <= l < |performance| :: performance[l]
    ensures forall l, i :: 0 <= l < |performance| && 0 <= i < iterations ==>
              Records(performance[l], i, mu, play(l, i))
  {
    var opt := Optimal(mu);
    for iter := 0 to iterations
      invariant forall l, i :: 0 <= l < |performance| && 0 <= i < iter ==>
                  Records(performance[l], i, mu, play(l, i))
    {
      Round(performance, iter, mu, opt, play);
    }
  }

  /** One zero matrix per learner, `horizons[l]` rows by `iterations`
      columns, no two of them shared. */
  method Zeros(horizons: seq<nat>, iterations: nat) returns (performance: seq<array2<real>>)
    ensures |performance| == |horizons|
    ensures forall l :: 0 <= l < |horizons| ==> fresh(performance[l])
    ensures forall l :: 0 <= l < |horizons| ==>
              performance[l].Length0 == horizons[l] && performance[l].Length1 == iterations
    ensures forall l, m :: 0 <= l < m < |horizons| ==> performance[l] != performance[m]
    ensures forall l, t, i :: 0 <= l < |horizons| && 0 <= t < horizons[l] && 0 <= i < iterations ==>
              performance[l][t, i] == 0.0
  {
    performance := [];
    for l := 0 to |horizons|
      invariant |performance| == l
      invariant forall m :: 0 <= m < l ==> fresh(performance[m])
      invariant forall m :: 0 <= m < l ==> performance[m].Length0 == horizons[m] && performance[m].Length1 == iterations
      invariant forall m, n :: 0 <= m < n < l ==> performance[m] != performance[n]
      invariant forall m, t, i :: 0 <= m < l && 0 <= t < horizons[m] && 0 <= i < iterations ==>
                  performance[m][t, i] == 0.0
    {
      var zeros := new real[horizons[l], iterations]((_, _) => 0.0);
      performance := performance + [zeros];
    }
  }

  /** Row `t` of `a`, the values of every column at step `t`. */
  function Row(a: array2<real>, t: int): (r: seq<real>)
    reads a
    requires 0 <= t < a.Length0
    ensures |r| == a.Length1 && forall j :: 0 <= j < a.Length1 ==> r[j] == a[t, j]
  {
    seq(a.Length1, j requires 0 <= j < a.Length1 reads a => a[t, j])
  }

  /** `np.mean(performance, axis = 1)`: the mean of each row, NaN for a
      matrix without columns. */
  function RowMeans(a: array2<real>): (m: seq<Float>)
    reads a
    ensures |m| == a.Length0
  {
    seq(a.Length0, t requires 0 <= t < a.Length0 reads a =>
      if a.Length1 == 0 then NaN else Num(Average(Row(a, t))))
  }

  /** The returned dictionary's `mean` entry of every learner, in order. */
  function Summaries(performance: seq<array2<real>>): (means: seq<seq<Float>>)
    reads set l | 0 <= l < |performance| :: performance[l]
    ensures |means| == |performance|
  {
    seq(|performance|, l requires 0 <= l < |performance| reads set m | 0 <= m < |performance| :: performance[m] =>
      RowMeans(performance[l]))
  }

  /** Sums are monotone in every element. */
  lemma {:induction false} SumMonotone(s: seq<real>, u: seq<real>)
    requires |s| == |u| && forall j :: 0 <= j < |s| ==> s[j] <= u[j]
    ensures Sum(s) <= Sum(u)
  {
    if s != [] {
      var k := |s| - 1;
      SumMonotone(s[..k], u[..k]);
    }
  }

  /** Sums of non-negative elements are non-negative. */
  lemma {:induction false} SumNonNegative(s: seq<real>)
    requires forall j :: 0 <= j < |s| ==> s[j] >= 0.0
    ensures Sum(s) >= 0.0
  {
    if s != [] {
      SumNonNegative(s[..|s| - 1]);
    }
  }

  /** When every column holds a regret trajectory, the mean regret is
      non-negative and never decreases from one step to the next. */
  lemma MeanRegretMonotone(a: array2<real>, mu: seq<real>, runs: seq<seq<int>>, t: int)
    requires |runs| == a.Length1 >= 1 && 0 <= t && t + 1 < a.Length0
    requires forall j :: 0 <= j < |runs| ==> Playable(mu, runs[j]) && Filled(a, j, mu, runs[j])
    ensures RowMeans(a)[t].Num? && RowMeans(a)[t + 1].Num?
    ensures 0.0 <= RowMeans(a)[t].value <= RowMeans(a)[t + 1].value
  {
    forall j | 0 <= j < a.Length1 ensures 0.0 <= Row(a, t)[j] <= Row(a, t + 1)[j] {
      TrajectoryMonotone(mu, runs[j], t, t + 1);
      CumulativeNonNegative(mu, runs[j][..t + 1]);
    }
    SumMonotone(Row(a, t), Row(a, t + 1));
    SumNonNegative(Row(a, t));
    var n := a.Length1 as real;
    assert Sum(Row(a, t)) / n <= Sum(Row(a, t + 1)) / n by {
      assert Sum(Row(a, t + 1)) / n - Sum(Row(a, t)) / n == (Sum(Row(a, t + 1)) - Sum(Row(a, t))) / n;
    }
  }
}
