/** The single-file agents of `agents.py`. Here the environment's
    `sample(action)` returns one reward; the rewards are parameters of the
    operations that draw them (`seed(a)` while initialising, `reward(time, a)`
    during a run). Unlike the `agents` package, `update` records the reward in
    the history, so every tracker is determined by its seed and the history. */
module Agents {
  import opened Histories
  import opened Estimates
  import opened Selection
  import opened Confidence
  import opened Optional

  /** The map giving every action `1..nactions` the one-element list `[seed(a)]`. */
  ghost function Seeded(seed: int -> real, nactions: nat): (m: map<int, seq<real>>)
    ensures Actions(m.Keys, nactions)
    ensures forall a :: a in m ==> m[a] == [seed(a)]
  {
    map a | 1 <= a <= nactions :: [seed(a)]
  }

  /** The map giving every action `1..nactions` the empty list. */
  ghost function Unseeded(nactions: nat): (m: map<int, seq<real>>)
    ensures Actions(m.Keys, nactions)
    ensures forall a :: a in m ==> m[a] == []
  {
    var keys := Seeded(_ => 0.0, nactions).Keys;
    map a | a in keys :: []
  }

  /** Each action's observations are its seed followed by the rewards `h`
      records for it. */
  ghost predicate Explains(seeds: map<int, seq<real>>, h: History, obs: map<int, seq<real>>)
  {
    && Parallel(h)
    && obs.Keys == seeds.Keys
    && (forall a :: a in obs ==> obs[a] == seeds[a] + RewardsOf(h, a))
  }

  /** Recording one more step, and appending its reward to its action's
      observations, keeps the history explaining the observations. */
  lemma ExplainsStep(seeds: map<int, seq<real>>, h: History, obs: map<int, seq<real>>, t: int, a: int, r: real)
    requires Explains(seeds, h, obs) && a in obs
    ensures Explains(seeds, History(h.time + [t], h.action + [a], h.reward + [r]), obs[a := obs[a] + [r]])
  {
    forall b | b in obs
      ensures obs[a := obs[a] + [r]][b] == seeds[b] + RewardsOf(History(h.time + [t], h.action + [a], h.reward + [r]), b)
    {
      RewardsOfSnoc(h, t, a, r, b);
    }
  }

  /** The first `k` rows of `h`. */
  function Prefix(h: History, k: int): (p: History)
    requires Parallel(h) && 0 <= k <= |h.time|
    ensures Parallel(p) && |p.time| == k
  {
    History(h.time[..k], h.action[..k], h.reward[..k])
  }

  /** Appending a row leaves every prefix up to the old length as it was,
      and the prefix of the old length is the old history. */
  lemma PrefixSnoc(h: History, t: int, a: int, r: real, k: int)
    requires Parallel(h) && 0 <= k <= |h.time|
    ensures Prefix(History(h.time + [t], h.action + [a], h.reward + [r]), k) == Prefix(h, k)
    ensures k == |h.time| ==> Prefix(h, k) == h
  {
    assert (h.time + [t])[..k] == h.time[..k];
    assert (h.action + [a])[..k] == h.action[..k];
    assert (h.reward + [r])[..k] == h.reward[..k];
    if k == |h.time| {
      assert h.time[..k] == h.time && h.action[..k] == h.action && h.reward[..k] == h.reward;
    }
  }

  /** The observations the seeds and the history `h` determine: each
      action's seed followed by the rewards `h` records for it. */
  ghost function Replay(seeds: map<int, seq<real>>, h: History): (obs: map<int, seq<real>>)
    requires Parallel(h)
    ensures obs.Keys == seeds.Keys
  {
    map a | a in seeds :: seeds[a] + RewardsOf(h, a)
  }

  /** Observations the history explains are the ones it replays to. */
  lemma ExplainsReplay(seeds: map<int, seq<real>>, h: History, obs: map<int, seq<real>>)
    requires Explains(seeds, h, obs)
    ensures obs == Replay(seeds, h)
  {
    assert forall a :: a in obs ==> obs[a] == Replay(seeds, h)[a];
  }

  /** From row `k0` on, every action of `h` has a maximal upper confidence
      bound (the first such) at its recorded time, over what the seeds and
      the rows before it had observed. */
  ghost predicate Optimistic(v: Variant, maths: Maths, n: nat, nactions: nat,
                             seeds: map<int, seq<real>>, h: History, k0: int)
  {
    && Parallel(h) && 0 <= k0 <= |h.time|
    && forall j :: k0 <= j < |h.time| ==>
         IsFirstMax(UpperBoundsOf(v, maths, Some(n), h.time[j], Replay(seeds, Prefix(h, j)), nactions), h.action[j])
  }

  /** Recording the action of maximal upper bound over the current
      observations extends such a history. */
  lemma OptimisticStep(v: Variant, maths: Maths, n: nat, nactions: nat, seeds: map<int, seq<real>>,
                       h: History, k0: int, t: int, a: int, r: real)
    requires Optimistic(v, maths, n, nactions, seeds, h, k0)
    requires IsFirstMax(UpperBoundsOf(v, maths, Some(n), t, Replay(seeds, h), nactions), a)
    ensures Optimistic(v, maths, n, nactions, seeds, History(h.time + [t], h.action + [a], h.reward + [r]), k0)
  {
    var h' := History(h.time + [t], h.action + [a], h.reward + [r]);
    forall j | k0 <= j < |h'.time|
      ensures IsFirstMax(UpperBoundsOf(v, maths, Some(n), h'.time[j], Replay(seeds, Prefix(h', j)), nactions), h'.action[j])
    {
      PrefixSnoc(h, t, a, r, j);
    }
  }

  /** From row `k0` on, every action of `h` is `pick` at its recorded time
      when `explore` fell below `epsilon` then, and otherwise the first
      action with a maximal mean over what the seeds and the rows before it
      had observed. */
  ghost predicate Greedy(epsilon: real, explore: int -> real, pick: int -> int, nactions: nat,
                         seeds: map<int, seq<real>>, h: History, k0: int)
  {
    && Parallel(h) && 0 <= k0 <= |h.time|
    && forall j :: k0 <= j < |h.time| ==>
         if explore(h.time[j]) < epsilon then h.action[j] == pick(h.time[j])
         else Seen(Replay(seeds, Prefix(h, j)), nactions)
              && IsFirstMax(MeansOf(Replay(seeds, Prefix(h, j)), nactions), h.action[j])
  }

  /** Recording the policy's choice over the current observations extends
      such a history. */
  lemma GreedyStep(epsilon: real, explore: int -> real, pick: int -> int, nactions: nat,
                   seeds: map<int, seq<real>>, h: History, k0: int, t: int, a: int, r: real)
    requires Greedy(epsilon, explore, pick, nactions, seeds, h, k0)
    requires if explore(t) < epsilon then a == pick(t)
             else Seen(Replay(seeds, h), nactions) && IsFirstMax(MeansOf(Replay(seeds, h), nactions), a)
    ensures Greedy(epsilon, explore, pick, nactions, seeds, History(h.time + [t], h.action + [a], h.reward + [r]), k0)
  {
    var h' := History(h.time + [t], h.action + [a], h.reward + [r]);
    forall j | k0 <= j < |h'.time|
      ensures if explore(h'.time[j]) < epsilon then h'.action[j] == pick(h'.time[j])
              else Seen(Replay(seeds, Prefix(h', j)), nactions)
                   && IsFirstMax(MeansOf(Replay(seeds, Prefix(h', j)), nactions), h'.action[j])
    {
      PrefixSnoc(h, t, a, r, j);
    }
  }

  /** From row `k0` on, every action of `h` has the first maximal draw of
      `draws` at its recorded time. */
  ghost predicate Sampled(draws: int -> seq<real>, h: History, k0: int)
  {
    && Parallel(h) && 0 <= k0 <= |h.time|
    && forall j :: k0 <= j < |h.time| ==> IsFirstMax(draws(h.time[j]), h.action[j])
  }

  /** Recording the action of maximal draw extends such a history. */
  lemma SampledStep(draws: int -> seq<real>, h: History, k0: int, t: int, a: int, r: real)
    requires Sampled(draws, h, k0) && IsFirstMax(draws(t), a)
    ensures Sampled(draws, History(h.time + [t], h.action + [a], h.reward + [r]), k0)
  {
    var h' := History(h.time + [t], h.action + [a], h.reward + [r]);
    forall j | k0 <= j < |h'.time|
      ensures IsFirstMax(draws(h'.time[j]), h'.action[j])
    {
      if j < |h.time| {
        assert h'.time[j] == h.time[j] && h'.action[j] == h.action[j];
      }
    }
  }

  /** The upper-confidence-bound agents (`UCB` and its subclasses `UCB1`,
      `AOUCB`, `MOSS`, `ADA`, told apart by `variant`). */
  class UCB {
    const nactions: nat
    const nsamples: nat
    const variant: Variant
    var actions: seq<int>
    var history: History
    var parameters: map<int, MeanStat>
    /** The reward `initialise` sampled for each action, as a one-element list. */
    ghost var seeds: map<int, seq<real>>
    /** Every reward each action's tracker has absorbed: its seed, then the
        rewards the history records for it, in order. */
    ghost var observed: map<int, seq<real>>

    /** The three history lists stay parallel, and every tracker is the
        running mean of its action's seed and of every reward the history
        records for that action. */
    ghost predicate Valid()
      reads this
    {
      && actions == Steps(1, nactions + 1)
      && (forall a :: a in seeds ==> |seeds[a]| == 1)
      && Explains(seeds, history, observed)
      && MeansTrack(parameters, observed, nactions)
    }

    /** `UCB(sample, nactions, nsamples)`: an empty history, then `initialise`. */
    constructor (nactions: nat, nsamples: nat, variant: Variant, seed: int -> real)
      ensures Valid() && history == Empty
      ensures this.nactions == nactions && this.nsamples == nsamples && this.variant == variant
      ensures forall a :: a in parameters ==> parameters[a] == MeanStat(1, seed(a))
    {
      this.nactions := nactions;
      this.nsamples := nsamples;
      this.variant := variant;
      actions := Steps(1, nactions + 1);
      history := Empty;
      parameters := map[];
      new;
      Initialise(seed);
    }

    /** `initialise`: every action's tracker starts from one sampled reward,
        `n = 1` and `mu = seed(a)`. The trackers it fills start out empty
        (`{a: {} for a in actions}`), here the empty map. */
    method Initialise(seed: int -> real)
      requires actions == Steps(1, nactions + 1) && history == Empty && parameters == map[]
      modifies this`parameters, this`seeds, this`observed
      ensures Valid()
      ensures forall a :: a in parameters ==> parameters[a] == MeanStat(1, seed(a))
    {
      seeds := Seeded(seed, nactions);
      observed := seeds;
      for i := 0 to |actions|
        invariant seeds == Seeded(seed, nactions) && observed == seeds
        invariant forall a :: a in parameters <==> 1 <= a <= i
        invariant forall a :: a in parameters ==> parameters[a] == MeanStat(1, seed(a))
      {
        var rwd := seed(actions[i]);
        parameters := parameters[actions[i] := MeanStat(1, rwd)];
      }
      forall a | a in parameters ensures TracksMean(parameters[a], observed[a]) {
        SeedTracks(seed(a));
      }
    }

    /** `reset`: an empty history and fresh parameters, then `initialise`. */
    method Reset(seed: int -> real)
      requires actions == Steps(1, nactions + 1)
      modifies this`history, this`parameters, this`seeds, this`observed
      ensures Valid() && history == Empty
      ensures forall a :: a in parameters ==> parameters[a] == MeanStat(1, seed(a))
    {
      history := Empty;
      parameters := map[];
      Initialise(seed);
    }

    /** `update_history`: appends the time, the action and the reward. */
    method UpdateHistory(time: int, action: int, reward: real)
      modifies this`history
      ensures history == History(old(history.time) + [time], old(history.action) + [action],
                                 old(history.reward) + [reward])
    {
      history := History(history.time + [time], history.action + [action], history.reward + [reward]);
    }

    /** `update`: records the step in the history, then moves the action's
        tracker one step along the running-mean recurrence; every other
        tracker is unchanged and every tracker is still the mean of its seed
        and its recorded rewards. */
    method Update(time: int, action: int, reward: real)
      requires Valid() && 1 <= action <= nactions
      modifies this`history, this`parameters, this`observed
      ensures Valid()
      ensures history == History(old(history.time) + [time], old(history.action) + [action],
                                 old(history.reward) + [reward])
      ensures parameters == old(parameters)[action := UpdateMean(old(parameters)[action], reward)]
    {
      ExplainsStep(seeds, history, observed, time, action, reward);
      AbsorbMean(parameters, observed, nactions, Entry(time, action, reward));
      UpdateHistory(time, action, reward);
      observed := observed[action := observed[action] + [reward]];
      parameters := parameters[action := UpdateMean(parameters[action], reward)];
    }

    /** The upper confidence bound `mu + bonus(time, a)` of every action, in order. */
    ghost function Scores(time: int, maths: Maths): seq<real>
      reads this
      requires Valid() && BonusReady(variant, maths, Some(nsamples), time)
    {
      MeansTrackCounts(parameters, observed, nactions);
      UpperBounds(variant, maths, Some(nsamples), time, Means(parameters, nactions), Counts(parameters, nactions))
    }

    /** `mu + bonus(action, time)` for one action. */
    method UpperBound(time: int, maths: Maths, action: int) returns (uppercb: real)
      requires Valid() && BonusReady(variant, maths, Some(nsamples), time) && 1 <= action <= nactions
      ensures uppercb == Scores(time, maths)[action - 1]
    {
      MeansTrackCounts(parameters, observed, nactions);
      var counts := Counts(parameters, nactions);
      var b := ComputeBonus(variant, maths, Some(nsamples), time, counts, action);
      uppercb := parameters[action].mu + b;
    }

    /** `policy`: the first action whose upper confidence bound is maximal;
        `None` (the source's `inf`) only when there are no actions. */
    method Policy(time: int, maths: Maths) returns (action: Option<int>)
      requires Valid() && BonusReady(variant, maths, Some(nsamples), time)
      ensures action.Some? <==> nactions >= 1
      ensures action.Some? ==> IsFirstMax(Scores(time, maths), action.value)
    {
      ghost var scores := Scores(time, maths);
      var lead := NoLeader;
      for i := 0 to |actions|
        invariant lead == Scan(scores[..i])
      {
        var a := actions[i];
        var uppercb := UpperBound(time, maths, a);
        ScanStep(scores, i);
        if lead.NoLeader? || lead.highest < uppercb {
          lead := Leader(a, uppercb);
        }
      }
      assert scores[..|actions|] == scores;
      if scores != [] {
        ScanIsFirstMax(scores);
      }
      action := Chosen(lead);
    }

    /** One pass of `run`'s loop: the first action with a maximal upper
        confidence bound, its sampled reward, and `update`. */
    method Step(time: int, reward: (int, int) -> real, maths: Maths) returns (action: int)
      requires Valid() && nactions >= 1 && BonusReady(variant, maths, Some(nsamples), time)
      modifies this`history, this`parameters, this`observed
      ensures Valid() && 1 <= action <= nactions
      ensures IsFirstMax(old(Scores(time, maths)), action)
      ensures IsFirstMax(UpperBoundsOf(variant, maths, Some(nsamples), time, old(observed), nactions), action)
      ensures history == History(old(history.time) + [time], old(history.action) + [action],
                                 old(history.reward) + [reward(time, action)])
      ensures parameters == old(parameters)[action := UpdateMean(old(parameters)[action], reward(time, action))]
    {
      MeansTrackViews(parameters, observed, nactions);
      var best := Policy(time, maths);
      action := best.value;
      var r := reward(time, action);
      Update(time, action, r);
    }

    /** `run`: `nsamples` steps at times `1..nsamples`; the history grows by
        one row per step and every tracker stays the mean of its seed and its
        recorded rewards. Nothing is returned. */
    method Run(reward: (int, int) -> real, maths: Maths)
      requires Valid()
      requires nsamples >= 1 ==> nactions >= 1
      requires variant == ADA ==> IsSqrt(maths.sqrt)
      modifies this`history, this`parameters, this`observed
      ensures Valid()
      ensures Rewarded(old(history), history, nsamples, nactions, reward)
      ensures Optimistic(variant, maths, nsamples, nactions, seeds, history, |old(history.time)|)
    {
      for time := 1 to nsamples + 1
        invariant Valid()
        invariant Rewarded(old(history), history, time - 1, nactions, reward)
        invariant Optimistic(variant, maths, nsamples, nactions, seeds, history, |old(history.time)|)
      {
        ghost var before := history;
        ExplainsReplay(seeds, history, observed);
        var action := Step(time, reward, maths);
        OptimisticStep(variant, maths, nsamples, nactions, seeds, before, |old(history.time)|,
                       time, action, reward(time, action));
        RewardedStep(old(history), before, time - 1, nactions, reward, action);
      }
    }
  }

  /** The epsilon-greedy agent `EGreedy`. */
  class EGreedy {
    const nactions: nat
    const nsamples: nat
    /** The exploration probability. */
    const epsilon: real
    var actions: seq<int>
    var history: History
    var parameters: map<int, MeanStat>
    /** The reward `initialise` sampled for each action, as a one-element list. */
    ghost var seeds: map<int, seq<real>>
    /** Every reward each action's tracker has absorbed: its seed, then the
        rewards the history records for it, in order. */
    ghost var observed: map<int, seq<real>>

    /** As for `UCB`: parallel history lists, and every tracker the running
        mean of its action's seed and recorded rewards. */
    ghost predicate Valid()
      reads this
    {
      && actions == Steps(1, nactions + 1)
      && (forall a :: a in seeds ==> |seeds[a]| == 1)
      && Explains(seeds, history, observed)
      && MeansTrack(parameters, observed, nactions)
    }

    /** `EGreedy(sample, nactions, nsamples, epsilon)`: an empty history, then
        `initialise`, then `epsilon` (which `initialise` does not read). */
    constructor (nactions: nat, nsamples: nat, epsilon: real, seed: int -> real)
      ensures Valid() && history == Empty
      ensures this.nactions == nactions && this.nsamples == nsamples && this.epsilon == epsilon
      ensures forall a :: a in parameters ==> parameters[a] == MeanStat(1, seed(a))
    {
      this.nactions := nactions;
      this.nsamples := nsamples;
      this.epsilon := epsilon;
      actions := Steps(1, nactions + 1);
      history := Empty;
      parameters := map[];
      new;
      Initialise(seed);
    }

    /** `initialise`: `n = 1` and `mu = seed(a)` for every action. */
    method Initialise(seed: int -> real)
      requires actions == Steps(1, nactions + 1) && history == Empty && parameters == map[]
      modifies this`parameters, this`seeds, this`observed
      ensures Valid()
      ensures forall a :: a in parameters ==> parameters[a] == MeanStat(1, seed(a))
    {
      seeds := Seeded(seed, nactions);
      observed := seeds;
      for i := 0 to |actions|
        invariant seeds == Seeded(seed, nactions) && observed == seeds
        invariant forall a :: a in parameters <==> 1 <= a <= i
        invariant forall a :: a in parameters ==> parameters[a] == MeanStat(1, seed(a))
      {
        var rwd := seed(actions[i]);
        parameters := parameters[actions[i] := MeanStat(1, rwd)];
      }
      forall a | a in parameters ensures TracksMean(parameters[a], observed[a]) {
        SeedTracks(seed(a));
      }
    }

    /** `reset`: an empty history and fresh parameters, then `initialise`. */
    method Reset(seed: int -> real)
      requires actions == Steps(1, nactions + 1)
      modifies this`history, this`parameters, this`seeds, this`observed
      ensures Valid() && history == Empty
      ensures forall a :: a in parameters ==> parameters[a] == MeanStat(1, seed(a))
    {
      history := Empty;
      parameters := map[];
      Initialise(seed);
    }

    /** `update_history`: appends the time, the action and the reward. */
    method UpdateHistory(time: int, action: int, reward: real)
      modifies this`history
      ensures history == History(old(history.time) + [time], old(history.action) + [action],
                                 old(history.reward) + [reward])
    {
      history := History(history.time + [time], history.action + [action], history.reward + [reward]);
    }

    /** `update`: records the step, then one step of the running-mean
        recurrence for the action; the other trackers are unchanged. */
    method Update(time: int, action: int, reward: real)
      requires Valid() && 1 <= action <= nactions
      modifies this`history, this`parameters, this`observed
      ensures Valid()
      ensures history == History(old(history.time) + [time], old(history.action) + [action],
                                 old(history.reward) + [reward])
      ensures parameters == old(parameters)[action := UpdateMean(old(parameters)[action], reward)]
    {
      ExplainsStep(seeds, history, observed, time, action, reward);
      AbsorbMean(parameters, observed, nactions, Entry(time, action, reward));
      UpdateHistory(time, action, reward);
      observed := observed[action := observed[action] + [reward]];
      parameters := parameters[action := UpdateMean(parameters[action], reward)];
    }

    /** The estimates `mu` of every action, in order. */
    ghost function MeanScores(): seq<real>
      reads this
      requires Valid()
    {
      MeansTrackCounts(parameters, observed, nactions);
      Means(parameters, nactions)
    }

    /** `policy`: `explore` is the uniform draw compared with `epsilon` and
        `pick` the `randint(1, K)` draw. Below `epsilon` the agent plays `pick`;
        otherwise the first action with a maximal estimate, `None` (the
        source's `inf`) only when there are no actions. */
    method Policy(explore: real, pick: int) returns (action: Option<int>)
      requires Valid()
      requires explore < epsilon ==> 1 <= pick <= nactions
      ensures explore < epsilon ==> action == Some(pick)
      ensures explore >= epsilon ==> (action.Some? <==> nactions >= 1)
      ensures explore >= epsilon && action.Some? ==> IsFirstMax(MeanScores(), action.value)
    {
      if explore < epsilon {
        action := Some(pick);
      } else {
        ghost var means := MeanScores();
        var lead := NoLeader;
        for i := 0 to |actions|
          invariant lead == Scan(means[..i])
        {
          var a := actions[i];
          var mu := parameters[a].mu;
          ScanStep(means, i);
          if lead.NoLeader? || lead.highest < mu {
            lead := Leader(a, mu);
          }
        }
        assert means[..|actions|] == means;
        if means != [] {
          ScanIsFirstMax(means);
        }
        action := Chosen(lead);
      }
    }

    /** One pass of `run`'s loop: choose an action, sample its reward, `update`. */
    method Step(time: int, reward: (int, int) -> real, explore: real, pick: int) returns (action: int)
      requires Valid() && nactions >= 1
      requires explore < epsilon ==> 1 <= pick <= nactions
      modifies this`history, this`parameters, this`observed
      ensures Valid() && 1 <= action <= nactions
      ensures explore < epsilon ==> action == pick
      ensures explore >= epsilon ==> IsFirstMax(old(MeanScores()), action)
      ensures explore >= epsilon ==> Seen(old(observed), nactions) && IsFirstMax(MeansOf(old(observed), nactions), action)
      ensures history == History(old(history.time) + [time], old(history.action) + [action],
                                 old(history.reward) + [reward(time, action)])
      ensures parameters == old(parameters)[action := UpdateMean(old(parameters)[action], reward(time, action))]
    {
      MeansTrackViews(parameters, observed, nactions);
      var best := Policy(explore, pick);
      action := best.value;
      var r := reward(time, action);
      Update(time, action, r);
    }

    /** `run`: `nsamples` steps at times `1..nsamples`, the step at `time`
        using the draws `explore(time)` and `pick(time)`. */
    method Run(reward: (int, int) -> real, explore: int -> real, pick: int -> int)
      requires Valid()
      requires nsamples >= 1 ==> nactions >= 1
      requires forall t :: 1 <= t <= nsamples && explore(t) < epsilon ==> 1 <= pick(t) <= nactions
      modifies this`history, this`parameters, this`observed
      ensures Valid()
      ensures Rewarded(old(history), history, nsamples, nactions, reward)
      ensures Greedy(epsilon, explore, pick, nactions, seeds, history, |old(history.time)|)
    {
      for time := 1 to nsamples + 1
        invariant Valid()
        invariant Rewarded(old(history), history, time - 1, nactions, reward)
        invariant Greedy(epsilon, explore, pick, nactions, seeds, history, |old(history.time)|)
      {
        ghost var before := history;
        ExplainsReplay(seeds, history, observed);
        var action := Step(time, reward, explore(time), pick(time));
        GreedyStep(epsilon, explore, pick, nactions, seeds, before, |old(history.time)|,
                   time, action, reward(time, action));
        RewardedStep(old(history), before, time - 1, nactions, reward, action);
      }
    }
  }

  /** The Beta-Bernoulli Thompson-sampling agent `TS`. */
  class TS {
    const nactions: nat
    const nsamples: nat
    var actions: seq<int>
    var history: History
    var parameters: map<int, BetaStat>
    /** No action starts with an observation: every list is empty. */
    ghost var seeds: map<int, seq<real>>
    /** Every reward each action's tracker has absorbed: exactly the rewards
        the history records for it, in order. */
    ghost var observed: map<int, seq<real>>

    /** Parallel history lists, and every tracker `alpha = 1 + sum`,
        `beta = 1 + count - sum` over its action's recorded rewards. */
    ghost predicate Valid()
      reads this
    {
      && actions == Steps(1, nactions + 1)
      && (forall a :: a in seeds ==> seeds[a] == [])
      && Explains(seeds, history, observed)
      && BetasTrack(parameters, observed, nactions)
    }

    /** `TS(sample, nactions, nsamples)`: an empty history, then `initialise`. */
    constructor (nactions: nat, nsamples: nat)
      ensures Valid() && history == Empty
      ensures this.nactions == nactions && this.nsamples == nsamples
      ensures forall a :: a in parameters ==> parameters[a] == BetaStat(1.0, 1.0)
    {
      this.nactions := nactions;
      this.nsamples := nsamples;
      actions := Steps(1, nactions + 1);
      history := Empty;
      parameters := map[];
      new;
      Initialise();
    }

    /** `initialise`: `alpha = beta = 1` for every action, the uniform prior. */
    method Initialise()
      requires actions == Steps(1, nactions + 1) && history == Empty
      modifies this`parameters, this`seeds, this`observed
      ensures Valid()
      ensures forall a :: a in parameters ==> parameters[a] == BetaStat(1.0, 1.0)
    {
      seeds := Unseeded(nactions);
      observed := seeds;
      parameters := map[];
      for i := 0 to |actions|
        invariant seeds == Unseeded(nactions) && observed == seeds
        invariant forall a :: a in parameters <==> 1 <= a <= i
        invariant forall a :: a in parameters ==> parameters[a] == BetaStat(1.0, 1.0)
      {
        parameters := parameters[actions[i] := BetaStat(1.0, 1.0)];
      }
    }

    /** `reset`: an empty history and fresh parameters, then `initialise`. */
    method Reset()
      requires actions == Steps(1, nactions + 1)
      modifies this`history, this`parameters, this`seeds, this`observed
      ensures Valid() && history == Empty
      ensures forall a :: a in parameters ==> parameters[a] == BetaStat(1.0, 1.0)
    {
      history := Empty;
      parameters := map[];
      Initialise();
    }

    /** `update_history`: appends the time, the action and the reward. */
    method UpdateHistory(time: int, action: int, reward: real)
      modifies this`history
      ensures history == History(old(history.time) + [time], old(history.action) + [action],
                                 old(history.reward) + [reward])
    {
      history := History(history.time + [time], history.action + [action], history.reward + [reward]);
    }

    /** `update`: records the step, then `alpha += reward` and
        `beta += 1 - reward` for the action; the other trackers are unchanged. */
    method Update(time: int, action: int, reward: real)
      requires Valid() && 1 <= action <= nactions
      modifies this`history, this`parameters, this`observed
      ensures Valid()
      ensures history == History(old(history.time) + [time], old(history.action) + [action],
                                 old(history.reward) + [reward])
      ensures parameters == old(parameters)[action := UpdateBeta(old(parameters)[action], reward)]
    {
      ExplainsStep(seeds, history, observed, time, action, reward);
      AbsorbBeta(parameters, observed, nactions, Entry(time, action, reward));
      UpdateHistory(time, action, reward);
      observed := observed[action := observed[action] + [reward]];
      parameters := parameters[action := UpdateBeta(parameters[action], reward)];
    }

    /** `policy`: `draws[a - 1]` is the `betavariate(alpha, beta)` draw of
        action `a`; the first action with a maximal draw, `None` (the source's
        `inf`) only when there are no actions. */
    method Policy(draws: seq<real>) returns (action: Option<int>)
      requires Valid() && |draws| == nactions
      ensures action.Some? <==> nactions >= 1
      ensures action.Some? ==> IsFirstMax(draws, action.value)
    {
      var lead := NoLeader;
      for i := 0 to |actions|
        invariant lead == Scan(draws[..i])
      {
        var a := actions[i];
        var value := draws[a - 1];
        ScanStep(draws, i);
        if lead.NoLeader? || lead.highest < value {
          lead := Leader(a, value);
        }
      }
      assert draws[..|actions|] == draws;
      if draws != [] {
        ScanIsFirstMax(draws);
      }
      action := Chosen(lead);
    }

    /** One pass of `run`'s loop: choose an action, sample its reward, `update`. */
    method Step(time: int, reward: (int, int) -> real, draws: seq<real>) returns (action: int)
      requires Valid() && nactions >= 1 && |draws| == nactions
      modifies this`history, this`parameters, this`observed
      ensures Valid() && 1 <= action <= nactions
      ensures IsFirstMax(draws, action)
      ensures history == History(old(history.time) + [time], old(history.action) + [action],
                                 old(history.reward) + [reward(time, action)])
      ensures parameters == old(parameters)[action := UpdateBeta(old(parameters)[action], reward(time, action))]
    {
      var best := Policy(draws);
      action := best.value;
      var r := reward(time, action);
      Update(time, action, r);
    }

    /** `run`: `nsamples` steps at times `1..nsamples`, the step at `time`
        using the Beta draws `draws(time)`. */
    method Run(reward: (int, int) -> real, draws: int -> seq<real>)
      requires Valid()
      requires nsamples >= 1 ==> nactions >= 1
      requires forall t :: 1 <= t <= nsamples ==> |draws(t)| == nactions
      modifies this`history, this`parameters, this`observed
      ensures Valid()
      ensures Rewarded(old(history), history, nsamples, nactions, reward)
      ensures Sampled(draws, history, |old(history.time)|)
    {
      for time := 1 to nsamples + 1
        invariant Valid()
        invariant Rewarded(old(history), history, time - 1, nactions, reward)
        invariant Sampled(draws, history, |old(history.time)|)
      {
        ghost var before := history;
        var action := Step(time, reward, draws(time));
        SampledStep(draws, before, |old(history.time)|, time, action, reward(time, action));
        RewardedStep(old(history), before, time - 1, nactions, reward, action);
      }
    }
  }
}
