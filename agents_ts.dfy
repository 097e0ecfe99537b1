/** The Bernoulli Thompson-sampling learner of the `agents` package
    (`agents/ts.py`, with the run loop it inherits from `agents/agent.py`).
    The Beta draws of every step are parameters. */
module AgentsTs {
  import opened Optional
  import opened Histories
  import opened Estimates
  import opened Selection

  class BTS {
    /** The number of actions `K`; the actions are `1..K`. */
    const nactions: nat
    var actions: seq<int>
    var history: History
    var parameters: map<int, BetaStat>
    /** The horizon of the last `run`; unset until the first one. */
    var nsamples: Option<int>
    /** Every reward each action's tracker has absorbed. */
    ghost var observed: map<int, seq<real>>

    /** The history's time and action lists stay parallel and its reward list
        is never written; every action `1..K` has a tracker, and each tracker
        is the uniform prior updated with its action's observations. */
    ghost predicate Valid()
      reads this
    {
      && actions == Steps(1, nactions + 1)
      && |history.time| == |history.action|
      && history.reward == []
      && BetasTrack(parameters, observed, nactions)
    }

    /** The state `initialise` leaves: an empty history and every action at
        the uniform prior `a = b = 1`, having observed nothing. */
    ghost predicate Initial()
      reads this
    {
      && history == Empty
      && (forall a :: a in parameters ==> parameters[a] == BetaStat(1.0, 1.0))
      && (forall a :: a in observed ==> observed[a] == [])
    }

    constructor (nactions: nat)
      ensures Valid() && Initial()
      ensures this.nactions == nactions && nsamples == None
    {
      this.nactions := nactions;
      nsamples := None;
      new;
      Initialise();
    }

    /** `initialise`: the actions `1..K`, an empty history, and `a = b = 1`
        for every action. */
    method Initialise()
      modifies this`actions, this`history, this`parameters, this`observed
      ensures Valid() && Initial()
    {
      actions := Steps(1, nactions + 1);
      history := Empty;
      parameters := map[];
      observed := map[];
      for i := 0 to |actions|
        invariant actions == Steps(1, nactions + 1) && history == Empty
        invariant forall a :: a in parameters <==> 1 <= a <= i
        invariant observed.Keys == parameters.Keys
        invariant forall a :: a in parameters ==> parameters[a] == BetaStat(1.0, 1.0) && observed[a] == []
      {
        parameters := parameters[actions[i] := BetaStat(1.0, 1.0)];
        observed := observed[actions[i] := []];
      }
    }

    /** `update_history`: appends the time and the action; the reward list is
        left as it is. */
    method UpdateHistory(time: int, action: int)
      modifies this`history
      ensures history == History(old(history.time) + [time], old(history.action) + [action], old(history.reward))
    {
      history := History(history.time + [time], history.action + [action], history.reward);
    }

    /** `sort_history` does nothing. */
    method SortHistory()
      ensures history == old(history)
    {
    }

    /** The body of `update_parameters`' loop for one row: `a += r` and
        `b += 1 - r` for the row's action. */
    method Absorb(e: Entry)
      requires Valid() && 1 <= e.action <= nactions
      modifies this`parameters, this`observed
      ensures Valid()
      ensures parameters == old(parameters)[e.action := UpdateBeta(old(parameters)[e.action], e.reward)]
      ensures observed == old(observed)[e.action := old(observed)[e.action] + [e.reward]]
    {
      AbsorbBeta(parameters, observed, nactions, e);
      var st := parameters[e.action];
      parameters := parameters[e.action := BetaStat(st.a + e.reward, st.b + (1.0 - e.reward))];
      observed := observed[e.action := observed[e.action] + [e.reward]];
    }

    /** `update_parameters`: every feedback row updates its action's Beta
        tracker, in order. Afterwards each tracker's `a` has grown by its
        action's rewards and `b` by its number of rows minus those rewards, and
        it is still the prior updated with everything its action has observed. */
    method UpdateParameters(feedback: seq<Entry>)
      requires Valid()
      requires forall i :: 0 <= i < |feedback| ==> 1 <= feedback[i].action <= nactions
      modifies this`parameters, this`observed
      ensures Valid()
      ensures Known(old(observed), feedback) && observed == Record(old(observed), feedback)
      ensures forall a :: a in parameters ==> parameters[a].a == old(parameters[a].a) + Sum(RewardsFor(feedback, a))
      ensures forall a :: a in parameters ==>
                parameters[a].b == old(parameters[a].b) + (|RewardsFor(feedback, a)| as real) - Sum(RewardsFor(feedback, a))
    {
      for i := 0 to |feedback|
        invariant Valid()
        invariant Known(old(observed), feedback[..i])
        invariant observed == Record(old(observed), feedback[..i])
      {
        RecordPrefixStep(old(observed), feedback, i);
        Absorb(feedback[i]);
      }
      assert feedback[..|feedback|] == feedback;
      BetaTotals(old(parameters), old(observed), parameters, nactions, feedback);
    }

    /** `policy`: one Beta draw per action, `draws[i]` for action `i + 1`
        (drawn from its tracker's `Beta(a, b)`); the first action with a
        maximal draw, `None` (the source's `inf`) only when there are no actions. */
    method Policy(draws: seq<real>) returns (best: Option<int>)
      requires Valid() && |draws| == nactions
      ensures best.Some? <==> nactions >= 1
      ensures best.Some? ==> IsFirstMax(draws, best.value)
    {
      var lead := NoLeader;
      for i := 0 to |actions|
        invariant lead == Scan(draws[..i])
      {
        var action := actions[i];
        var betavalue := draws[action - 1];
        ScanStep(draws, i);
        if lead.NoLeader? || lead.highest < betavalue {
          lead := Leader(action, betavalue);
        }
      }
      assert draws[..|actions|] == draws;
      if draws != [] {
        ScanIsFirstMax(draws);
      }
      best := Chosen(lead);
    }

    /** One pass of `run`'s loop at step `time`: choose the action with the
        first maximal draw, sample the environment, append `(time, action)`
        to the history and absorb the feedback. */
    method Step(time: int, sample: (int, int) -> seq<Entry>, draws: seq<real>) returns (action: int)
      requires Valid() && nactions >= 1 && |draws| == nactions
      requires forall a, i :: 1 <= a <= nactions && 0 <= i < |sample(time, a)| ==>
                 1 <= sample(time, a)[i].action <= nactions
      modifies this`history, this`parameters, this`observed
      ensures Valid()
      ensures IsFirstMax(draws, action)
      ensures history == History(old(history.time) + [time], old(history.action) + [action], old(history.reward))
      ensures Known(old(observed), sample(time, action)) && observed == Record(old(observed), sample(time, action))
    {
      var best := Policy(draws);
      action := best.value;
      var feedback := sample(time, action);
      UpdateHistory(time, action);
      UpdateParameters(feedback);
    }

    /** `run(nsamples, reset)`: `nsamples` steps at times `1..nsamples`. With
        `reset` the finished history is returned and the learner
        re-initialised; otherwise nothing is returned and the learner keeps
        its state. */
    method Run(n: nat, reset: bool, sample: (int, int) -> seq<Entry>, draws: int -> seq<real>)
      returns (result: Option<History>)
      requires Valid()
      requires n >= 1 ==> nactions >= 1
      requires forall t :: 1 <= t <= n ==> |draws(t)| == nactions
      requires forall t, a, i :: 1 <= t <= n && 1 <= a <= nactions && 0 <= i < |sample(t, a)| ==>
                 1 <= sample(t, a)[i].action <= nactions
      modifies this
      ensures Valid() && nsamples == Some(n)
      ensures result.Some? <==> reset
      ensures reset ==> Initial()
      ensures Extended(old(history), if reset then result.value else history, n, nactions)
      ensures !reset ==> RecordedRun(old(observed), observed, sample, Steps(1, n + 1), history.action[|old(history.action)|..])
      ensures DrawsChosen(draws, (if reset then result.value else history).action[|old(history.action)|..])
    {
      nsamples := Some(n);
      ghost var start := history.action;
      ghost var obs0 := observed;
      for time := 1 to n + 1
        invariant Valid() && nsamples == Some(n)
        invariant Extended(old(history), history, time - 1, nactions)
        invariant RecordedRun(obs0, observed, sample, Steps(1, time), history.action[|start|..])
        invariant DrawsChosen(draws, history.action[|start|..])
      {
        ghost var before := history;
        ghost var obs := observed;
        var action := Step(time, sample, draws(time));
        DrawsChosenStep(draws, before.action[|start|..], action);
        RecordRunStep(sample, obs0, obs, Steps(1, time), before.action[|start|..], time, action);
        ExtendedStep(old(history), before, time - 1, nactions, action);
        StepsSnoc(1, time);
      }
      if reset {
        var h := history;
        Initialise();
        result := Some(h);
      } else {
        result := None;
      }
    }
  }
}
