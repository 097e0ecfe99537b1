/** The per-action statistics the agents keep, and what they summarise.
    A mean tracker `{'n': n, 'mu': mu}` and a Beta tracker `{'a': a, 'b': b}`
    are both functions of the rewards observed for their action; `observed`
    maps every action to those rewards, the seed (pseudo-)observation first. */
module Estimates {
  import opened Histories

  function Sum(s: seq<real>): real
  {
    if s == [] then 0.0 else Sum(s[..|s| - 1]) + s[|s| - 1]
  }

  function Average(s: seq<real>): real
    requires s != []
  {
    Sum(s) / (|s| as real)
  }

  /** Number of occurrences of `v` in `s`. */
  function Count(s: seq<real>, v: real): nat
  {
    if s == [] then 0 else Count(s[..|s| - 1], v) + (if s[|s| - 1] == v then 1 else 0)
  }

  /** Every reward is 0 or 1 (a Bernoulli environment). */
  ghost predicate Binary(s: seq<real>)
  {
    forall i :: 0 <= i < |s| ==> s[i] == 0.0 || s[i] == 1.0
  }

  lemma SumSnoc(s: seq<real>, r: real)
    ensures Sum(s + [r]) == Sum(s) + r
  {
    assert (s + [r])[..|s|] == s;
  }

  // ---------------------------------------------------------------- mean tracker

  /** `{'n': n, 'mu': mu}` */
  datatype MeanStat = MeanStat(n: int, mu: real)

  /** The running-mean recurrence `mu + (r - mu)/(n + 1)`. */
  function NextMean(mu: real, n: int, r: real): real
    requires n >= 0
  {
    mu + (r - mu) / ((n + 1) as real)
  }

  /** The update every mean-based agent applies: `n <- n + 1` and the recurrence. */
  function UpdateMean(st: MeanStat, r: real): MeanStat
    requires st.n >= 0
  {
    MeanStat(st.n + 1, NextMean(st.mu, st.n, r))
  }

  /** The recurrence adds exactly the reward to `mu * n`. */
  lemma NextMeanAddsReward(mu: real, n: int, r: real)
    requires n >= 0
    ensures NextMean(mu, n, r) * ((n + 1) as real) == mu * (n as real) + r
  {
    var m := (n + 1) as real;
    calc {
      NextMean(mu, n, r) * m;
      mu * m + ((r - mu) / m) * m;
      { assert ((r - mu) / m) * m == r - mu; }
      mu * m + (r - mu);
    }
  }

  /** The tracker `st` summarises exactly the rewards `obs`: it has seen
      `|obs|` of them and `mu` is their arithmetic mean. */
  ghost predicate TracksMean(st: MeanStat, obs: seq<real>)
  {
    obs != [] && st.n == |obs| && st.mu == Average(obs)
  }

  /** Feeding one more reward through the recurrence keeps `mu` the exact
      average of all rewards seen, the seed included. */
  lemma UpdateMeanTracks(st: MeanStat, obs: seq<real>, r: real)
    requires TracksMean(st, obs)
    ensures TracksMean(UpdateMean(st, r), obs + [r])
  {
    var n := |obs|;
    NextMeanAddsReward(st.mu, n, r);
    SumSnoc(obs, r);
    assert st.mu * (n as real) == Sum(obs);
    var next := NextMean(st.mu, n, r);
    assert next * ((n + 1) as real) == Sum(obs + [r]);
    assert next == Sum(obs + [r]) / ((n + 1) as real);
  }

  lemma {:induction false} SumConcat(s: seq<real>, t: seq<real>)
    ensures Sum(s + t) == Sum(s) + Sum(t)
  {
    if t != [] {
      var p := t[..|t| - 1];
      assert (s + t)[..|s + t| - 1] == s + p;
      SumConcat(s, p);
    } else {
      assert s + t == s;
    }
  }

  /** `mu * n`: the total reward a tracker stands for. */
  function Total(st: MeanStat): real
  {
    st.mu * (st.n as real)
  }

  /** A tracker's `mu * n` is the total of the rewards it summarises. */
  lemma TracksMeanTotal(st: MeanStat, obs: seq<real>)
    requires TracksMean(st, obs)
    ensures Total(st) == Sum(obs)
  {
  }

  /** Trackers of the same rewards are equal: `n` and `mu` are determined by them. */
  lemma TracksMeanUnique(st: MeanStat, st': MeanStat, obs: seq<real>)
    requires TracksMean(st, obs) && TracksMean(st', obs)
    ensures st == st'
  {
  }

  /** The counts `n` of actions `1..nactions`, in order. */
  function Counts(params: map<int, MeanStat>, nactions: nat): (r: seq<int>)
    requires forall a :: 1 <= a <= nactions ==> a in params
    ensures |r| == nactions && forall i :: 0 <= i < nactions ==> r[i] == params[i + 1].n
  {
    seq(nactions, i requires 0 <= i < nactions => params[i + 1].n)
  }

  /** The estimates `mu` of actions `1..nactions`, in order. */
  function Means(params: map<int, MeanStat>, nactions: nat): (r: seq<real>)
    requires forall a :: 1 <= a <= nactions ==> a in params
    ensures |r| == nactions && forall i :: 0 <= i < nactions ==> r[i] == params[i + 1].mu
  {
    seq(nactions, i requires 0 <= i < nactions => params[i + 1].mu)
  }

  /** Every action `1..nactions` has a tracker and a list of observations,
      and each tracker is the running mean of its action's observations. */
  ghost predicate MeansTrack(params: map<int, MeanStat>, obs: map<int, seq<real>>, nactions: int)
  {
    && Actions(params.Keys, nactions)
    && obs.Keys == params.Keys
    && (forall a :: a in params ==> TracksMean(params[a], obs[a]))
  }

  /** Every action `1..nactions` has observed at least one reward. */
  ghost predicate Seen(obs: map<int, seq<real>>, nactions: int)
  {
    forall a :: 1 <= a <= nactions ==> a in obs && obs[a] != []
  }

  /** How many rewards each action `1..nactions` has observed, in order. */
  ghost function CountsOf(obs: map<int, seq<real>>, nactions: nat): seq<int>
    requires Seen(obs, nactions)
  {
    seq(nactions, i requires 0 <= i < nactions => |obs[i + 1]|)
  }

  /** The average reward each action `1..nactions` has observed, in order. */
  ghost function MeansOf(obs: map<int, seq<real>>, nactions: nat): seq<real>
    requires Seen(obs, nactions)
  {
    seq(nactions, i requires 0 <= i < nactions => Average(obs[i + 1]))
  }

  /** Exact trackers can be read off the observations: every action has
      observed something, the counts are how many rewards each has seen and
      the estimates are their averages. */
  lemma MeansTrackViews(params: map<int, MeanStat>, obs: map<int, seq<real>>, nactions: nat)
    requires MeansTrack(params, obs, nactions)
    ensures Seen(obs, nactions)
    ensures Counts(params, nactions) == CountsOf(obs, nactions)
    ensures Means(params, nactions) == MeansOf(obs, nactions)
  {
  }

  /** Every tracker has a count of at least 1: the seed is one observation. */
  lemma MeansTrackCounts(params: map<int, MeanStat>, obs: map<int, seq<real>>, nactions: int)
    requires MeansTrack(params, obs, nactions)
    ensures forall a :: 1 <= a <= nactions ==> a in params && params[a].n >= 1
  {
  }

  /** One feedback row for a known action keeps every tracker exact. */
  lemma AbsorbMean(params: map<int, MeanStat>, obs: map<int, seq<real>>, nactions: int, e: Entry)
    requires MeansTrack(params, obs, nactions) && 1 <= e.action <= nactions
    ensures MeansTrack(params[e.action := UpdateMean(params[e.action], e.reward)],
                       obs[e.action := obs[e.action] + [e.reward]], nactions)
  {
    UpdateMeanTracks(params[e.action], obs[e.action], e.reward);
  }

  /** A seed observation: `{'n': 1, 'mu': r}` tracks `[r]`. */
  lemma SeedTracks(r: real)
    ensures TracksMean(MeanStat(1, r), [r])
  {
    assert Sum([r]) == Sum([]) + r;
  }

  // ---------------------------------------------------------------- Beta tracker

  /** `{'a': a, 'b': b}` (`{'alpha': .., 'beta': ..}` in agents.py) */
  datatype BetaStat = BetaStat(a: real, b: real)

  /** `a += r` and `b += 1 - r`. */
  function UpdateBeta(st: BetaStat, r: real): BetaStat
  {
    BetaStat(st.a + r, st.b + (1.0 - r))
  }

  /** The tracker started from the uniform prior `a = b = 1` and has seen `obs`. */
  ghost predicate TracksBeta(st: BetaStat, obs: seq<real>)
  {
    st.a == 1.0 + Sum(obs) && st.b == 1.0 + (|obs| as real) - Sum(obs)
  }

  lemma UpdateBetaTracks(st: BetaStat, obs: seq<real>, r: real)
    requires TracksBeta(st, obs)
    ensures TracksBeta(UpdateBeta(st, r), obs + [r])
  {
    SumSnoc(obs, r);
  }

  /** Each update, whatever the reward, adds exactly one to `a + b` and the
      reward to `a`. */
  lemma UpdateBetaCounts(st: BetaStat, r: real)
    ensures UpdateBeta(st, r).a + UpdateBeta(st, r).b == st.a + st.b + 1.0
    ensures UpdateBeta(st, r).a == st.a + r
    ensures (r == 0.0 || r == 1.0) && st.a >= 1.0 && st.b >= 1.0 ==>
              UpdateBeta(st, r).a >= 1.0 && UpdateBeta(st, r).b >= 1.0
  {
  }

  /** Over binary rewards the sum counts the ones and the rest counts the zeros. */
  lemma {:induction false} BinaryCounts(s: seq<real>)
    requires Binary(s)
    ensures Sum(s) == Count(s, 1.0) as real
    ensures (|s| as real) - Sum(s) == Count(s, 0.0) as real
  {
    if s != [] {
      var p := s[..|s| - 1];
      assert Binary(p) by {
        forall i | 0 <= i < |p| ensures p[i] == 0.0 || p[i] == 1.0 {
          assert p[i] == s[i];
        }
      }
      BinaryCounts(p);
    }
  }

  /** A Beta tracker fed binary rewards: `a - 1` counts the ones, `b - 1`
      the zeros, `a + b` counts the observations plus two, and both stay >= 1. */
  lemma BetaCounts(st: BetaStat, obs: seq<real>)
    requires TracksBeta(st, obs) && Binary(obs)
    ensures st.a - 1.0 == Count(obs, 1.0) as real
    ensures st.b - 1.0 == Count(obs, 0.0) as real
    ensures st.a + st.b == (|obs| as real) + 2.0
    ensures st.a >= 1.0 && st.b >= 1.0
  {
    BinaryCounts(obs);
  }

  /** Every action `1..nactions` has a Beta tracker that has seen its observations. */
  ghost predicate BetasTrack(params: map<int, BetaStat>, obs: map<int, seq<real>>, nactions: int)
  {
    && Actions(params.Keys, nactions)
    && obs.Keys == params.Keys
    && (forall a :: a in params ==> TracksBeta(params[a], obs[a]))
  }

  /** One feedback row for a known action keeps every Beta tracker exact. */
  lemma AbsorbBeta(params: map<int, BetaStat>, obs: map<int, seq<real>>, nactions: int, e: Entry)
    requires BetasTrack(params, obs, nactions) && 1 <= e.action <= nactions
    ensures BetasTrack(params[e.action := UpdateBeta(params[e.action], e.reward)],
                       obs[e.action := obs[e.action] + [e.reward]], nactions)
  {
    UpdateBetaTracks(params[e.action], obs[e.action], e.reward);
  }

  // ---------------------------------------------------------------- observations

  /** Every feedback row names an action that has an entry in `obs`. */
  ghost predicate Known(obs: map<int, seq<real>>, fb: seq<Entry>)
  {
    forall i :: 0 <= i < |fb| ==> fb[i].action in obs
  }

  /** `obs` after processing the feedback rows in order: each row appends its
      reward to its action's observations. */
  function Record(obs: map<int, seq<real>>, fb: seq<Entry>): (r: map<int, seq<real>>)
    requires Known(obs, fb)
    ensures r.Keys == obs.Keys
  {
    if fb == [] then obs
    else
      var prev := Record(obs, fb[..|fb| - 1]);
      var e := fb[|fb| - 1];
      prev[e.action := prev[e.action] + [e.reward]]
  }

  /** The rewards of the rows for action `a`, in order. */
  function RewardsFor(fb: seq<Entry>, a: int): seq<real>
  {
    if fb == [] then []
    else RewardsFor(fb[..|fb| - 1], a) + (if fb[|fb| - 1].action == a then [fb[|fb| - 1].reward] else [])
  }

  /** Processing feedback appends to each action exactly that action's rewards,
      in order; an action with no row keeps its observations. */
  lemma {:induction false} RecordAppends(obs: map<int, seq<real>>, fb: seq<Entry>, a: int)
    requires Known(obs, fb) && a in obs
    ensures Record(obs, fb)[a] == obs[a] + RewardsFor(fb, a)
  {
    if fb != [] {
      var p := fb[..|fb| - 1];
      assert Known(obs, p) by {
        forall i | 0 <= i < |p| ensures p[i].action in obs { assert p[i] == fb[i]; }
      }
      RecordAppends(obs, p, a);
    }
  }

  /** An action named by no row gets no rewards. */
  lemma {:induction false} RewardsForAbsent(fb: seq<Entry>, a: int)
    requires forall i :: 0 <= i < |fb| ==> fb[i].action != a
    ensures RewardsFor(fb, a) == []
  {
    if fb != [] {
      var p := fb[..|fb| - 1];
      assert forall i :: 0 <= i < |p| ==> p[i] == fb[i];
      RewardsForAbsent(p, a);
    }
  }

  /** One more row extends `Record` by one update. */
  lemma RecordStep(obs: map<int, seq<real>>, fb: seq<Entry>, e: Entry)
    requires Known(obs, fb) && e.action in obs
    ensures Known(obs, fb + [e])
    ensures Record(obs, fb + [e]) == Record(obs, fb)[e.action := Record(obs, fb)[e.action] + [e.reward]]
  {
    assert (fb + [e])[..|fb|] == fb;
  }

  /** `RecordStep` for the prefixes of one list of rows, as a loop over it needs. */
  lemma RecordPrefixStep(obs: map<int, seq<real>>, fb: seq<Entry>, i: int)
    requires 0 <= i < |fb| && Known(obs, fb[..i]) && fb[i].action in obs
    ensures Known(obs, fb[..i + 1])
    ensures Record(obs, fb[..i + 1]) == Record(obs, fb[..i])[fb[i].action := Record(obs, fb[..i])[fb[i].action] + [fb[i].reward]]
  {
    assert fb[..i + 1] == fb[..i] + [fb[i]];
    RecordStep(obs, fb[..i], fb[i]);
  }

  /** `Record` over two batches of rows is `Record` of the first, then the second. */
  lemma {:induction false} RecordConcat(obs: map<int, seq<real>>, fb: seq<Entry>, more: seq<Entry>)
    requires Known(obs, fb + more)
    ensures Known(obs, fb) && Known(Record(obs, fb), more)
    ensures Record(obs, fb + more) == Record(Record(obs, fb), more)
  {
    assert forall i :: 0 <= i < |fb| ==> fb[i] == (fb + more)[i];
    assert forall i :: 0 <= i < |more| ==> more[i] == (fb + more)[|fb| + i];
    if more == [] {
      assert fb + more == fb;
    } else {
      var m := more[..|more| - 1];
      var e := more[|more| - 1];
      assert fb + more == (fb + m) + [e];
      RecordStep(obs, fb + m, e);
      RecordConcat(obs, fb, m);
      assert more == m + [e];
      RecordStep(Record(obs, fb), m, e);
    }
  }

  /** `obs` is `obs0` after all the feedback of a run in which `actions[i]`
      was chosen at time `times[i]`. */
  ghost predicate RecordedRun(obs0: map<int, seq<real>>, obs: map<int, seq<real>>,
                              sample: (int, int) -> seq<Entry>, times: seq<int>, actions: seq<int>)
  {
    && |times| == |actions|
    && Known(obs0, Feedbacks(sample, times, actions))
    && obs == Record(obs0, Feedbacks(sample, times, actions))
  }

  /** One more step of a run: recording the next step's feedback on top of a
      recorded run gives the recorded longer run. */
  lemma RecordRunStep(sample: (int, int) -> seq<Entry>, obs0: map<int, seq<real>>, obs: map<int, seq<real>>,
                      times: seq<int>, actions: seq<int>, t: int, a: int)
    requires RecordedRun(obs0, obs, sample, times, actions)
    requires Known(obs, sample(t, a)) && obs.Keys == obs0.Keys
    ensures RecordedRun(obs0, Record(obs, sample(t, a)), sample, times + [t], actions + [a])
  {
    var fb: seq<Entry> := Feedbacks(sample, times, actions);
    var more: seq<Entry> := sample(t, a);
    FeedbacksStep(sample, times, actions, t, a);
    assert Known(obs0, fb + more) by {
      forall i | 0 <= i < |fb + more| ensures (fb + more)[i].action in obs0 {
        if i >= |fb| { assert (fb + more)[i] == more[i - |fb|]; }
      }
    }
    RecordConcat(obs0, fb, more);
  }

  /** What a learner that started from `obs0` has observed before step `t`
      of a run that played `acts[i]` at time `i + 1`: the feedback of steps
      `1..t-1`, recorded in order (the empty map should a row name an action
      `obs0` does not know). */
  ghost function ObservedBefore(obs0: map<int, seq<real>>, sample: (int, int) -> seq<Entry>,
                                acts: seq<int>, t: int): map<int, seq<real>>
    requires 1 <= t <= |acts| + 1
  {
    var fb := Feedbacks(sample, Steps(1, t), acts[..t - 1]);
    if Known(obs0, fb) then Record(obs0, fb) else map[]
  }

  /** Later steps do not change what was observed before an earlier one. */
  lemma ObservedBeforeSnoc(obs0: map<int, seq<real>>, sample: (int, int) -> seq<Entry>,
                           acts: seq<int>, a: int, t: int)
    requires 1 <= t <= |acts| + 1
    ensures ObservedBefore(obs0, sample, acts + [a], t) == ObservedBefore(obs0, sample, acts, t)
  {
    assert (acts + [a])[..t - 1] == acts[..t - 1];
  }

  /** Before the step that follows a recorded run, the learner has observed
      exactly what the run recorded. */
  lemma ObservedBeforeNext(obs0: map<int, seq<real>>, obs: map<int, seq<real>>,
                           sample: (int, int) -> seq<Entry>, acts: seq<int>, a: int)
    requires RecordedRun(obs0, obs, sample, Steps(1, |acts| + 1), acts)
    ensures ObservedBefore(obs0, sample, acts + [a], |acts| + 1) == obs
  {
    assert (acts + [a])[..|acts|] == acts;
  }

  /** A tracker of `obs` and a tracker of `obs + more`: the count has grown by
      `|more|` and `mu * n` by exactly the rewards in `more`. */
  lemma MeanGrowth(st0: MeanStat, st: MeanStat, obs: seq<real>, more: seq<real>)
    requires TracksMean(st0, obs) && TracksMean(st, obs + more)
    ensures st.n == st0.n + |more|
    ensures Total(st) == Total(st0) + Sum(more)
  {
    SumConcat(obs, more);
    TracksMeanTotal(st, obs + more);
    TracksMeanTotal(st0, obs);
  }

  /** After feedback `fb`, every mean tracker has counted exactly its
      action's rows, and its `mu * n` has grown by exactly their rewards. */
  lemma MeanTotals(params0: map<int, MeanStat>, obs0: map<int, seq<real>>,
                   params: map<int, MeanStat>, nactions: int, fb: seq<Entry>)
    requires MeansTrack(params0, obs0, nactions) && Known(obs0, fb)
    requires MeansTrack(params, Record(obs0, fb), nactions)
    ensures forall a :: a in params ==> params[a].n == params0[a].n + |RewardsFor(fb, a)|
    ensures forall a :: a in params ==> Total(params[a]) == Total(params0[a]) + Sum(RewardsFor(fb, a))
  {
    forall a | a in params
      ensures params[a].n == params0[a].n + |RewardsFor(fb, a)|
      ensures Total(params[a]) == Total(params0[a]) + Sum(RewardsFor(fb, a))
    {
      RecordAppends(obs0, fb, a);
      MeanGrowth(params0[a], params[a], obs0[a], RewardsFor(fb, a));
    }
  }

  /** A Beta tracker of `obs` and one of `obs + more`: `a` has grown by the
      rewards in `more` and `b` by the rest of their count. */
  lemma BetaGrowth(st0: BetaStat, st: BetaStat, obs: seq<real>, more: seq<real>)
    requires TracksBeta(st0, obs) && TracksBeta(st, obs + more)
    ensures st.a == st0.a + Sum(more)
    ensures st.b == st0.b + (|more| as real) - Sum(more)
  {
    SumConcat(obs, more);
  }

  /** After feedback `fb`, every Beta tracker's `a` has grown by its action's
      rewards and `b` by the number of its rows minus those rewards. */
  lemma BetaTotals(params0: map<int, BetaStat>, obs0: map<int, seq<real>>,
                   params: map<int, BetaStat>, nactions: int, fb: seq<Entry>)
    requires BetasTrack(params0, obs0, nactions) && Known(obs0, fb)
    requires BetasTrack(params, Record(obs0, fb), nactions)
    ensures forall a :: a in params ==> params[a].a == params0[a].a + Sum(RewardsFor(fb, a))
    ensures forall a :: a in params ==>
              params[a].b == params0[a].b + (|RewardsFor(fb, a)| as real) - Sum(RewardsFor(fb, a))
  {
    forall a | a in params
      ensures params[a].a == params0[a].a + Sum(RewardsFor(fb, a))
      ensures params[a].b == params0[a].b + (|RewardsFor(fb, a)| as real) - Sum(RewardsFor(fb, a))
    {
      RecordAppends(obs0, fb, a);
      BetaGrowth(params0[a], params[a], obs0[a], RewardsFor(fb, a));
    }
  }

  /** After feedback `fb`, the tracker of an action no row names is exactly
      as it was. */
  lemma MeanUntouched(params0: map<int, MeanStat>, obs0: map<int, seq<real>>,
                      params: map<int, MeanStat>, nactions: int, fb: seq<Entry>, a: int)
    requires MeansTrack(params0, obs0, nactions) && Known(obs0, fb)
    requires MeansTrack(params, Record(obs0, fb), nactions)
    requires a in params0 && forall i :: 0 <= i < |fb| ==> fb[i].action != a
    ensures params[a] == params0[a]
  {
    RecordAppends(obs0, fb, a);
    RewardsForAbsent(fb, a);
    assert obs0[a] + [] == obs0[a];
  }

  /** After feedback `fb`, the Beta tracker of an action no row names is
      exactly as it was. */
  lemma BetaUntouched(params0: map<int, BetaStat>, obs0: map<int, seq<real>>,
                      params: map<int, BetaStat>, nactions: int, fb: seq<Entry>, a: int)
    requires BetasTrack(params0, obs0, nactions) && Known(obs0, fb)
    requires BetasTrack(params, Record(obs0, fb), nactions)
    requires a in params0 && forall i :: 0 <= i < |fb| ==> fb[i].action != a
    ensures params[a] == params0[a]
  {
    RecordAppends(obs0, fb, a);
    RewardsForAbsent(fb, a);
    assert obs0[a] + [] == obs0[a];
  }
}
