/** The driver of `experiments.py`: every learner runs `nsamples` steps per
    iteration through `run(nsamples, reset = True)`. */
module Experiments {
  import opened Optional
  import opened Regret

  /** `experiment(learners, nsamples, niterations, environment)` for
      `learners` learners: each gets its own copy of a zero
      `nsamples x niterations` matrix, and `play(l, iter)` is the action list
      of learner `l`'s run in iteration `iter`, from freshly initialised
      state. Returns every learner's regret matrix and its per-step mean. */
  method Experiment(learners: nat, nsamples: nat, niterations: nat, mu: seq<real>, play: (int, int) -> seq<int>)
    returns (performance: seq<array2<real>>, means: seq<seq<Float>>)
    requires mu != []
    requires forall l, i :: 0 <= l < learners && 0 <= i < niterations ==> Played(mu, play(l, i), nsamples)
    ensures |performance| == learners
    ensures forall l :: 0 <= l < learners ==> fresh(performance[l])
    ensures forall l :: 0 <= l < learners ==>
              performance[l].Length0 == nsamples && performance[l].Length1 == niterations
    ensures forall l, m :: 0 <= l < m < learners ==> performance[l] != performance[m]
    ensures forall l, i :: 0 <= l < learners && 0 <= i < niterations ==> Records(performance[l], i, mu, play(l, i))
    ensures means == Summaries(performance)
  {
    performance := Zeros(seq(learners, _ => nsamples), niterations);
    Simulate(performance, niterations, mu, play);
    means := Summaries(performance);
  }
}
