/** The driver of `experiment.py`: every learner runs once per iteration, its
    own matrix having one row per step of that learner's own horizon. */
module Experiment {
  import opened Optional
  import opened Regret

  /** `experiment(iterations, environment, learners)`. Learner `l` has the
      horizon `horizons[l]` (its `nsamples`), and `play(l, iter)` is the
      action list of its run in iteration `iter`, after which it is `reset`.
      Returns every learner's regret matrix and its per-step mean. */
  method Experiment(iterations: nat, mu: seq<real>, horizons: seq<nat>, play: (int, int) -> seq<int>)
    returns (performance: seq<array2<real>>, means: seq<seq<Float>>)
    requires mu != []
    requires forall l, i :: 0 <= l < |horizons| && 0 <= i < iterations ==> Played(mu, play(l, i), horizons[l])
    ensures |performance| == |horizons|
    ensures forall l :: 0 <= l < |horizons| ==> fresh(performance[l])
    ensures forall l :: 0 <= l < |horizons| ==>
              performance[l].Length0 == horizons[l] && performance[l].Length1 == iterations
    ensures forall l, m :: 0 <= l < m < |horizons| ==> performance[l] != performance[m]
    ensures forall l, i :: 0 <= l < |horizons| && 0 <= i < iterations ==> Records(performance[l], i, mu, play(l, i))
    ensures means == Summaries(performance)
  {
    performance := Zeros(horizons, iterations);
    Simulate(performance, iterations, mu, play);
    means := Summaries(performance);
  }
}
