/** The epsilon-greedy learner of the `agents` package (`agents/eg.py`, with
    the run loop it inherits from `agents/agent.py`). The uniform draw and the
    random choice of every step are parameters. */
module AgentsEg {
  import opened Optional
  import opened Histories
  import opened Estimates
  import opened Selection

  /** Every action `acts[t - 1]` of a run that started from the observations
      `obs0` is the one `policy` picks at its step `t`: the action
      `actions[choice(t)]` drawn at random when `uniform(t) < epsilon`,
      otherwise the first action with a maximal average of what had been
      observed before that step. */
  ghost predicate Greedy(epsilon: real, uniform: int -> real, choice: int -> int, nactions: nat,
                         obs0: map<int, seq<real>>, sample: (int, int) -> seq<Entry>, acts: seq<int>)
  {
    forall t :: 1 <= t <= |acts| ==>
      if uniform(t) < epsilon then acts[t - 1] == choice(t) + 1
      else Seen(ObservedBefore(obs0, sample, acts, t), nactions)
           && IsFirstMax(MeansOf(ObservedBefore(obs0, sample, acts, t), nactions), acts[t - 1])
  }

  /** Playing the policy's pick at the next step extends such a run. */
  lemma GreedyStep(epsilon: real, uniform: int -> real, choice: int -> int, nactions: nat,
                   obs0: map<int, seq<real>>, sample: (int, int) -> seq<Entry>, acts: seq<int>, a: int)
    requires Greedy(epsilon, uniform, choice, nactions, obs0, sample, acts)
    requires var t := |acts| + 1;
             if uniform(t) < epsilon then a == choice(t) + 1
             else Seen(ObservedBefore(obs0, sample, acts + [a], t), nactions)
                  && IsFirstMax(MeansOf(ObservedBefore(obs0, sample, acts + [a], t), nactions), a)
    ensures Greedy(epsilon, uniform, choice, nactions, obs0, sample, acts + [a])
  {
    forall t | 1 <= t <= |acts| + 1
      ensures if uniform(t) < epsilon then (acts + [a])[t - 1] == choice(t) + 1
              else Seen(ObservedBefore(obs0, sample, acts + [a], t), nactions)
                   && IsFirstMax(MeansOf(ObservedBefore(obs0, sample, acts + [a], t), nactions), (acts + [a])[t - 1])
    {
      if t <= |acts| {
        ObservedBeforeSnoc(obs0, sample, acts, a, t);
        assert (acts + [a])[t - 1] == acts[t - 1];
      }
    }
  }

  class EG {
    /** The number of actions `K`; the actions are `1..K`. */
    const nactions: nat
    /** The probability of choosing an action at random. */
    const epsilon: real
    var actions: seq<int>
    var history: History
    var parameters: map<int, MeanStat>
    /** The horizon of the last `run`; unset until the first one. */
    var nsamples: Option<int>
    /** Every reward each action's tracker has absorbed, the seed `1.00` first. */
    ghost var observed: map<int, seq<real>>

    /** The history's time and action lists stay parallel and its reward list
        is never written; every action `1..K` has a tracker, and each tracker
        is the running mean of its action's observations. */
    ghost predicate Valid()
      reads this
    {
      && actions == Steps(1, nactions + 1)
      && |history.time| == |history.action|
      && history.reward == []
      && MeansTrack(parameters, observed, nactions)
    }

    /** The state `initialise` leaves: an empty history and every action
        seeded with one pseudo-observation of reward `1.00`. */
    ghost predicate Initial()
      reads this
    {
      && history == Empty
      && (forall a :: a in parameters ==> parameters[a] == MeanStat(1, 1.0))
      && (forall a :: a in observed ==> observed[a] == [1.0])
    }

    /** `EG(sample, nactions, epsilon = 0.05)`: `new EG(k)` explores with
        probability 0.05. */
    constructor (nactions: nat, epsilon: real := 0.05)
      ensures Valid() && Initial()
      ensures this.nactions == nactions && this.epsilon == epsilon && nsamples == None
    {
      this.nactions := nactions;
      this.epsilon := epsilon;
      nsamples := None;
      new;
      Initialise();
    }

    /** `initialise`: the actions `1..K`, an empty history, and `n = 1`,
        `mu = 1.00` for every action. */
    method Initialise()
      modifies this`actions, this`history, this`parameters, this`observed
      ensures Valid() && Initial()
    {
      actions := Steps(1, nactions + 1);
      history := Empty;
      parameters := map[];
      observed := map[];
      for i := 0 to |actions|
        invariant actions == Steps(1, nactions + 1) && history == Empty
        invariant forall a :: a in parameters <==> 1 <= a <= i
        invariant observed.Keys == parameters.Keys
        invariant forall a :: a in parameters ==> parameters[a] == MeanStat(1, 1.0) && observed[a] == [1.0]
      {
        parameters := parameters[actions[i] := MeanStat(1, 1.0)];
        observed := observed[actions[i] := [1.0]];
      }
      SeedTracks(1.0);
    }

    /** `update_history`: appends the time and the action; the reward list is
        left as it is. */
    method UpdateHistory(time: int, action: int)
      modifies this`history
      ensures history == History(old(history.time) + [time], old(history.action) + [action], old(history.reward))
    {
      history := History(history.time + [time], history.action + [action], history.reward);
    }

    /** `sort_history` does nothing. */
    method SortHistory()
      ensures history == old(history)
    {
    }

    /** The body of `update_parameters`' loop for one row: the row's action
        takes one step of the running-mean recurrence. */
    method Absorb(e: Entry)
      requires Valid() && 1 <= e.action <= nactions
      modifies this`parameters, this`observed
      ensures Valid()
      ensures parameters == old(parameters)[e.action := UpdateMean(old(parameters)[e.action], e.reward)]
      ensures observed == old(observed)[e.action := old(observed)[e.action] + [e.reward]]
    {
      AbsorbMean(parameters, observed, nactions, e);
      var n := parameters[e.action].n;
      var mu := parameters[e.action].mu;
      parameters := parameters[e.action := MeanStat(n + 1, mu + (e.reward - mu) / ((n + 1) as real))];
      observed := observed[e.action := observed[e.action] + [e.reward]];
    }

    /** `update_parameters`: every feedback row moves its action's tracker one
        step along the running-mean recurrence, in order. Afterwards each
        tracker's count has grown by the number of rows for its action, its
        `mu * n` by exactly those rows' rewards, and it is still the mean of
        everything its action has observed. */
    method UpdateParameters(feedback: seq<Entry>)
      requires Valid()
      requires forall i :: 0 <= i < |feedback| ==> 1 <= feedback[i].action <= nactions
      modifies this`parameters, this`observed
      ensures Valid()
      ensures Known(old(observed), feedback) && observed == Record(old(observed), feedback)
      ensures forall a :: a in parameters ==>
                parameters[a].n == old(parameters[a].n) + |RewardsFor(feedback, a)|
      ensures forall a :: a in parameters ==> Total(parameters[a]) == Total(old(parameters[a])) + Sum(RewardsFor(feedback, a))
    {
      for i := 0 to |feedback|
        invariant Valid()
        invariant Known(old(observed), feedback[..i])
        invariant observed == Record(old(observed), feedback[..i])
      {
        RecordPrefixStep(old(observed), feedback, i);
        Absorb(feedback[i]);
      }
      assert feedback[..|feedback|] == feedback;
      MeanTotals(old(parameters), old(observed), parameters, nactions, feedback);
    }

    /** The estimates `mu` of the actions, in order. */
    ghost function MeanScores(): seq<real>
      reads this
      requires Valid()
    {
      MeansTrackCounts(parameters, observed, nactions);
      Means(parameters, nactions)
    }

    /** `policy`: with `uniform` below `epsilon`, the action `actions[choice]`
        drawn at random; otherwise the first action whose estimate is maximal,
        `None` (the source's `inf`) only when there are no actions. */
    method Policy(uniform: real, choice: int) returns (best: Option<int>)
      requires Valid()
      requires uniform < epsilon ==> 0 <= choice < nactions
      ensures uniform < epsilon ==> best == Some(choice + 1)
      ensures uniform >= epsilon ==> (best.Some? <==> nactions >= 1)
      ensures uniform >= epsilon && best.Some? ==> IsFirstMax(MeanScores(), best.value)
    {
      if uniform < epsilon {
        best := Some(actions[choice]);
      } else {
        ghost var means := MeanScores();
        var lead := NoLeader;
        for i := 0 to |actions|
          invariant lead == Scan(means[..i])
        {
          var action := actions[i];
          var mu := parameters[action].mu;
          ScanStep(means, i);
          if lead.NoLeader? || lead.highest < mu {
            lead := Leader(action, mu);
          }
        }
        assert means[..|actions|] == means;
        if means != [] {
          ScanIsFirstMax(means);
        }
        best := Chosen(lead);
      }
    }

    /** One pass of `run`'s loop at step `time`: choose an action (at random
        when `uniform < epsilon`, greedily otherwise), sample the environment,
        append `(time, action)` to the history and absorb the feedback. */
    method Step(time: int, sample: (int, int) -> seq<Entry>, uniform: real, choice: int) returns (action: int)
      requires Valid() && nactions >= 1
      requires uniform < epsilon ==> 0 <= choice < nactions
      requires forall a, i :: 1 <= a <= nactions && 0 <= i < |sample(time, a)| ==>
                 1 <= sample(time, a)[i].action <= nactions
      modifies this`history, this`parameters, this`observed
      ensures Valid()
      ensures uniform < epsilon ==> action == choice + 1
      ensures uniform >= epsilon ==> IsFirstMax(old(MeanScores()), action)
      ensures uniform >= epsilon ==> Seen(old(observed), nactions) && IsFirstMax(MeansOf(old(observed), nactions), action)
      ensures history == History(old(history.time) + [time], old(history.action) + [action], old(history.reward))
      ensures Known(old(observed), sample(time, action)) && observed == Record(old(observed), sample(time, action))
    {
      MeansTrackViews(parameters, observed, nactions);
      var best := Policy(uniform, choice);
      action := best.value;
      var feedback := sample(time, action);
      UpdateHistory(time, action);
      UpdateParameters(feedback);
    }

    /** `run(nsamples, reset)`: `nsamples` steps at times `1..nsamples`. With
        `reset` the finished history is returned and the learner
        re-initialised; otherwise nothing is returned and the learner keeps
        its state. */
    method Run(n: nat, reset: bool, sample: (int, int) -> seq<Entry>, uniform: int -> real, choice: int -> int)
      returns (result: Option<History>)
      requires Valid()
      requires n >= 1 ==> nactions >= 1
      requires forall t :: 1 <= t <= n && uniform(t) < epsilon ==> 0 <= choice(t) < nactions
      requires forall t, a, i :: 1 <= t <= n && 1 <= a <= nactions && 0 <= i < |sample(t, a)| ==>
                 1 <= sample(t, a)[i].action <= nactions
      modifies this
      ensures Valid() && nsamples == Some(n)
      ensures result.Some? <==> reset
      ensures reset ==> Initial()
      ensures Extended(old(history), if reset then result.value else history, n, nactions)
      ensures !reset ==> RecordedRun(old(observed), observed, sample, Steps(1, n + 1), history.action[|old(history.action)|..])
      ensures Greedy(epsilon, uniform, choice, nactions, old(observed), sample,
                     (if reset then result.value else history).action[|old(history.action)|..])
    {
      nsamples := Some(n);
      ghost var start := history.action;
      ghost var obs0 := observed;
      for time := 1 to n + 1
        invariant Valid() && nsamples == Some(n)
        invariant Extended(old(history), history, time - 1, nactions)
        invariant RecordedRun(obs0, observed, sample, Steps(1, time), history.action[|start|..])
        invariant Greedy(epsilon, uniform, choice, nactions, obs0, sample, history.action[|start|..])
      {
        ghost var before := history;
        ghost var obs := observed;
        var action := Step(time, sample, uniform(time), choice(time));
        ObservedBeforeNext(obs0, obs, sample, before.action[|start|..], action);
        GreedyStep(epsilon, uniform, choice, nactions, obs0, sample, before.action[|start|..], action);
        RecordRunStep(sample, obs0, obs, Steps(1, time), before.action[|start|..], time, action);
        ExtendedStep(old(history), before, time - 1, nactions, action);
        StepsSnoc(1, time);
      }
      if reset {
        var h := history;
        Initialise();
        result := Some(h);
      } else {
        result := None;
      }
    }
  }
}
