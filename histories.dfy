/** The records an agent keeps: its history dictionary and the feedback
    dictionaries an environment returns. */
module Histories {

  /** One row of a feedback dictionary `{'time': [..], 'action': [..], 'reward': [..]}`:
      the i-th time, action and reward taken together. */
  datatype Entry = Entry(time: int, action: int, reward: real)

  /** The history dictionary `{'time': [], 'action': [], 'reward': []}`. */
  datatype History = History(time: seq<int>, action: seq<int>, reward: seq<real>)

  /** The history every `initialise`/`reset` installs: three empty lists. */
  const Empty: History := History([], [], [])

  /** `range(lo, hi)` as a list. */
  function Steps(lo: int, hi: int): (r: seq<int>)
    requires lo <= hi
    ensures |r| == hi - lo
    ensures forall i :: 0 <= i < |r| ==> r[i] == lo + i
  {
    seq(hi - lo, i => lo + i)
  }

  /** `range(lo, hi + 1)` is `range(lo, hi)` followed by `hi`. */
  lemma StepsSnoc(lo: int, hi: int)
    requires lo <= hi
    ensures Steps(lo, hi + 1) == Steps(lo, hi) + [hi]
  {
  }

  /** `keys` are exactly the actions `1..nactions`, as in every parameter dictionary. */
  ghost predicate Actions(keys: set<int>, nactions: int)
  {
    forall a :: a in keys <==> 1 <= a <= nactions
  }

  /** The three lists of a history are parallel. */
  ghost predicate Parallel(h: History)
  {
    |h.time| == |h.action| == |h.reward|
  }

  /** The rewards `h` records for action `a`, in order. */
  function RewardsOf(h: History, a: int): seq<real>
    requires Parallel(h)
    decreases |h.time|
  {
    if h.time == [] then []
    else
      var k := |h.time| - 1;
      RewardsOf(History(h.time[..k], h.action[..k], h.reward[..k]), a)
      + (if h.action[k] == a then [h.reward[k]] else [])
  }

  /** Appending a step adds its reward to its own action's rewards only. */
  lemma RewardsOfSnoc(h: History, t: int, a: int, r: real, b: int)
    requires Parallel(h)
    ensures RewardsOf(History(h.time + [t], h.action + [a], h.reward + [r]), b)
            == RewardsOf(h, b) + (if a == b then [r] else [])
  {
    var k := |h.time|;
    assert (h.time + [t])[..k] == h.time;
    assert (h.action + [a])[..k] == h.action;
    assert (h.reward + [r])[..k] == h.reward;
  }

  /** Everything an environment `sample(time, action)` returned over a run
      in which `actions[i]` was chosen at time `times[i]`, in order. */
  function Feedbacks(sample: (int, int) -> seq<Entry>, times: seq<int>, actions: seq<int>): seq<Entry>
    requires |times| == |actions|
  {
    if times == [] then []
    else Feedbacks(sample, times[..|times| - 1], actions[..|actions| - 1])
         + sample(times[|times| - 1], actions[|actions| - 1])
  }

  /** `Feedbacks` grows by the feedback of one more step. */
  lemma FeedbacksStep(sample: (int, int) -> seq<Entry>, times: seq<int>, actions: seq<int>, t: int, a: int)
    requires |times| == |actions|
    ensures Feedbacks(sample, times + [t], actions + [a]) == Feedbacks(sample, times, actions) + sample(t, a)
  {
    assert (times + [t])[..|times|] == times;
    assert (actions + [a])[..|actions|] == actions;
  }

  /** `h` is `h0` after `steps` more steps of a run, at times `1..steps`,
      each choosing one of the actions `1..nactions`; the reward list is as it was. */
  ghost predicate Extended(h0: History, h: History, steps: nat, nactions: int)
  {
    && h.time == h0.time + Steps(1, steps + 1)
    && |h.action| == |h0.action| + steps
    && h.action[..|h0.action|] == h0.action
    && (forall i :: |h0.action| <= i < |h.action| ==> 1 <= h.action[i] <= nactions)
    && h.reward == h0.reward
  }

  /** Appending step `steps + 1` with a valid action extends a run by one step. */
  lemma ExtendedStep(h0: History, h: History, steps: nat, nactions: int, a: int)
    requires Extended(h0, h, steps, nactions) && 1 <= a <= nactions
    ensures Extended(h0, History(h.time + [steps + 1], h.action + [a], h.reward), steps + 1, nactions)
    ensures (h.action + [a])[|h0.action|..] == h.action[|h0.action|..] + [a]
  {
    StepsSnoc(1, steps + 1);
    assert (h.action + [a])[..|h0.action|] == h.action[..|h0.action|];
  }

  /** `h` is `h0` after `steps` more steps of a run, at times `1..steps`, each
      choosing one of the actions `1..nactions` and recording the reward
      `reward(time, action)` that step received. */
  ghost predicate Rewarded(h0: History, h: History, steps: nat, nactions: int, reward: (int, int) -> real)
  {
    && |h0.time| == |h0.action| == |h0.reward|
    && h.time == h0.time + Steps(1, steps + 1)
    && |h.action| == |h0.action| + steps
    && h.action[..|h0.action|] == h0.action
    && |h.reward| == |h0.reward| + steps
    && h.reward[..|h0.reward|] == h0.reward
    && (forall i :: |h0.action| <= i < |h.action| ==>
          1 <= h.action[i] <= nactions && h.reward[i] == reward(h.time[i], h.action[i]))
  }

  /** Recording step `steps + 1` with a valid action and its reward extends a
      rewarded run by one step. */
  lemma RewardedStep(h0: History, h: History, steps: nat, nactions: int, reward: (int, int) -> real, a: int)
    requires Rewarded(h0, h, steps, nactions, reward) && 1 <= a <= nactions
    ensures Rewarded(h0, History(h.time + [steps + 1], h.action + [a], h.reward + [reward(steps + 1, a)]),
                     steps + 1, nactions, reward)
  {
    StepsSnoc(1, steps + 1);
    assert (h.action + [a])[..|h0.action|] == h.action[..|h0.action|];
    assert (h.reward + [reward(steps + 1, a)])[..|h0.reward|] == h.reward[..|h0.reward|];
  }
}
