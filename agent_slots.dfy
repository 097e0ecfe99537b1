/** The base agent of the root `agent.py`. Its history keeps one reward slot
    per step of the current run: `run` fills the slots with NaN and every
    feedback row writes its reward into the slot of its own time. The base
    class's `policy`, `initialise` and `update_parameters` are placeholders,
    so the policy is the parameter `choose(time)` and the environment the
    parameter `sample(time, action)`. */
module AgentSlots {
  import opened Optional
  import opened Histories

  /** The history dictionary: times and actions are appended, rewards live in
      time-indexed slots that hold NaN until written. */
  datatype SlotHistory = SlotHistory(time: seq<int>, action: seq<int>, reward: seq<Float>)

  /** Python's `xs[i]` on a list of length `n`: a negative `i` counts from the
      end, and `None` stands for the `IndexError`. */
  function PyIndex(n: nat, i: int): (r: Option<nat>)
    ensures r.Some? <==> -(n as int) <= i < n
    ensures r.Some? ==> r.value < n && r.value == i % n
  {
    if 0 <= i < n then Some(i)
    else if -(n as int) <= i < 0 then Some(n + i)
    else None
  }

  /** The slot `history['reward'][t - 1]` that a feedback row of time `t` writes. */
  function Slot(n: nat, t: int): Option<nat>
  {
    PyIndex(n, t - 1)
  }

  /** Times `1..n` name the slots `0..n-1` in order; time `0`, and every time
      down to `1 - n`, wraps around to a slot counted from the end; anything
      else is an `IndexError`. */
  lemma SlotOfTime(n: nat, t: int)
    ensures 1 <= t <= n ==> Slot(n, t) == Some(t - 1)
    ensures 1 - n <= t <= 0 ==> Slot(n, t) == Some(n + t - 1)
    ensures Slot(n, t).None? <==> t < 1 - n || n < t
  {
  }

  /** Every row of `fb` names a slot of a list of length `n`. */
  ghost predicate InRange(n: nat, fb: seq<Entry>)
  {
    forall i :: 0 <= i < |fb| ==> Slot(n, fb[i].time).Some?
  }

  /** The position of the first row of `fb` that names no slot. */
  function FirstOut(n: nat, fb: seq<Entry>): (k: nat)
    requires !InRange(n, fb)
    ensures k < |fb| && Slot(n, fb[k].time).None?
    ensures forall i :: 0 <= i < k ==> Slot(n, fb[i].time).Some?
  {
    if Slot(n, fb[0].time).None? then 0
    else
      assert !InRange(n, fb[1..]) by {
        var i :| 0 <= i < |fb| && Slot(n, fb[i].time).None?;
        assert fb[1..][i - 1] == fb[i];
      }
      var k := FirstOut(n, fb[1..]);
      assert forall i :: 1 <= i < k + 1 ==> fb[i] == fb[1..][i - 1];
      1 + k
  }

  /** `[float('NaN')] * n`. */
  function Nans(n: nat): (r: seq<Float>)
    ensures |r| == n && forall i :: 0 <= i < n ==> r[i] == NaN
  {
    seq(n, _ => NaN)
  }

  /** The slots after writing every row of `fb`, in order, each into the slot
      of its time. */
  function Written(slots: seq<Float>, fb: seq<Entry>): (r: seq<Float>)
    requires InRange(|slots|, fb)
    ensures |r| == |slots|
  {
    if fb == [] then slots
    else
      var k := |fb| - 1;
      assert InRange(|slots|, fb[..k]) by {
        assert forall i :: 0 <= i < k ==> fb[..k][i] == fb[i];
      }
      Written(slots, fb[..k])[Slot(|slots|, fb[k].time).value := Num(fb[k].reward)]
  }

  /** Writing the rows up to `i` and then row `i`. */
  lemma WrittenStep(slots: seq<Float>, fb: seq<Entry>, i: int)
    requires 0 <= i < |fb| && InRange(|slots|, fb[..i]) && Slot(|slots|, fb[i].time).Some?
    ensures InRange(|slots|, fb[..i + 1])
    ensures Written(slots, fb[..i + 1])
            == Written(slots, fb[..i])[Slot(|slots|, fb[i].time).value := Num(fb[i].reward)]
  {
    assert fb[..i + 1][..i] == fb[..i];
  }

  /** Writing a single row. */
  lemma WrittenOne(slots: seq<Float>, e: Entry)
    requires Slot(|slots|, e.time).Some?
    ensures InRange(|slots|, [e])
    ensures Written(slots, [e]) == slots[Slot(|slots|, e.time).value := Num(e.reward)]
  {
    assert [e][..0] == [];
  }

  /** A slot no row names keeps its value. */
  lemma {:induction false} WrittenUntouched(slots: seq<Float>, fb: seq<Entry>, j: int)
    requires InRange(|slots|, fb) && 0 <= j < |slots|
    requires forall i :: 0 <= i < |fb| ==> Slot(|slots|, fb[i].time) != Some(j)
    ensures Written(slots, fb)[j] == slots[j]
  {
    if fb != [] {
      var k := |fb| - 1;
      assert InRange(|slots|, fb[..k]) by {
        assert forall i :: 0 <= i < k ==> fb[..k][i] == fb[i];
      }
      WrittenUntouched(slots, fb[..k], j);
    }
  }

  /** A slot holds the reward of the last row that names it. */
  lemma {:induction false} WrittenLastWins(slots: seq<Float>, fb: seq<Entry>, i: int)
    requires InRange(|slots|, fb) && 0 <= i < |fb|
    requires forall l :: i < l < |fb| ==> Slot(|slots|, fb[l].time) != Slot(|slots|, fb[i].time)
    ensures Written(slots, fb)[Slot(|slots|, fb[i].time).value] == Num(fb[i].reward)
  {
    var k := |fb| - 1;
    if i < k {
      assert InRange(|slots|, fb[..k]) by {
        assert forall l :: 0 <= l < k ==> fb[..k][l] == fb[l];
      }
      WrittenLastWins(slots, fb[..k], i);
    }
  }

  /** Writing `a` and then `b` is writing `a + b`. */
  lemma {:induction false} WrittenConcat(slots: seq<Float>, a: seq<Entry>, b: seq<Entry>)
    requires InRange(|slots|, a) && InRange(|slots|, b)
    ensures InRange(|slots|, a + b)
    ensures Written(slots, a + b) == Written(Written(slots, a), b)
  {
    if b != [] {
      var k := |b| - 1;
      assert InRange(|slots|, b[..k]) by {
        assert forall i :: 0 <= i < k ==> b[..k][i] == b[i];
      }
      WrittenConcat(slots, a, b[..k]);
      assert (a + b)[..|a| + k] == a + b[..k];
      assert (a + b)[|a| + k] == b[k];
    }
    else {
      assert a + b == a;
    }
  }

  /** The actions `choose(1), ..., choose(m)`. */
  function Choices(m: nat, choose: int -> int): (r: seq<int>)
    ensures |r| == m && forall i :: 0 <= i < m ==> r[i] == choose(i + 1)
  {
    seq(m, i => choose(i + 1))
  }

  /** One more step appends its choice. */
  lemma ChoicesSnoc(m: nat, choose: int -> int)
    ensures Choices(m + 1, choose) == Choices(m, choose) + [choose(m + 1)]
  {
  }

  /** Every feedback row of the first `m` steps of a run, in order. */
  function RunFeedback(m: nat, choose: int -> int, sample: (int, int) -> seq<Entry>): seq<Entry>
  {
    Feedbacks(sample, Steps(1, m + 1), Choices(m, choose))
  }

  /** A run grows its feedback by the feedback of its next step. */
  lemma RunFeedbackStep(m: nat, choose: int -> int, sample: (int, int) -> seq<Entry>)
    ensures RunFeedback(m + 1, choose, sample) == RunFeedback(m, choose, sample) + sample(m + 1, choose(m + 1))
  {
    StepsSnoc(1, m + 1);
    assert Choices(m + 1, choose) == Choices(m, choose) + [choose(m + 1)];
    FeedbacksStep(sample, Steps(1, m + 1), Choices(m, choose), m + 1, choose(m + 1));
  }

  /** Every step of an `n`-step run gets feedback whose times all name a slot. */
  ghost predicate Completes(n: nat, choose: int -> int, sample: (int, int) -> seq<Entry>)
  {
    forall t :: 1 <= t <= n ==> InRange(n, sample(t, choose(t)))
  }

  /** The reward slots after the first `m` steps of an `n`-step run. */
  ghost function Slots(n: nat, m: nat, choose: int -> int, sample: (int, int) -> seq<Entry>): (r: seq<Float>)
    requires m <= n && forall t :: 1 <= t <= m ==> InRange(n, sample(t, choose(t)))
    ensures InRange(n, RunFeedback(m, choose, sample)) && r == Written(Nans(n), RunFeedback(m, choose, sample))
    decreases m
  {
    if m == 0 then Nans(n)
    else
      var r := Slots(n, m - 1, choose, sample);
      RunFeedbackStep(m - 1, choose, sample);
      WrittenConcat(Nans(n), RunFeedback(m - 1, choose, sample), sample(m, choose(m)));
      Written(r, sample(m, choose(m)))
  }

  /** Step `m` writes its own feedback into the slots the earlier steps left. */
  lemma SlotsStep(n: nat, m: nat, choose: int -> int, sample: (int, int) -> seq<Entry>)
    requires 1 <= m <= n && forall t :: 1 <= t < m ==> InRange(n, sample(t, choose(t)))
    requires InRange(n, sample(m, choose(m)))
    ensures forall t :: 1 <= t <= m ==> InRange(n, sample(t, choose(t)))
    ensures Slots(n, m, choose, sample) == Written(Slots(n, m - 1, choose, sample), sample(m, choose(m)))
  {
  }

  /** `h` is `h0` after the first `m` steps of an `n`-step run: the times
      `1..m` and the actions `choose(1..m)` appended, and the reward slots
      as those steps' feedback left them. */
  ghost predicate RunAt(h0: SlotHistory, h: SlotHistory, n: nat, m: nat, choose: int -> int,
                        sample: (int, int) -> seq<Entry>)
  {
    && m <= n
    && (forall t :: 1 <= t <= m ==> InRange(n, sample(t, choose(t))))
    && h.time == h0.time + Steps(1, m + 1)
    && h.action == h0.action + Choices(m, choose)
    && h.reward == Slots(n, m, choose, sample)
  }

  /** Recording step `m` extends a run by one step. */
  lemma RunAtStep(h0: SlotHistory, h: SlotHistory, h': SlotHistory, n: nat, m: nat, choose: int -> int,
                  sample: (int, int) -> seq<Entry>)
    requires 1 <= m <= n && RunAt(h0, h, n, m - 1, choose, sample)
    requires InRange(n, sample(m, choose(m)))
    requires h'.time == h.time + [m] && h'.action == h.action + [choose(m)]
    requires h'.reward == Written(h.reward, sample(m, choose(m)))
    ensures RunAt(h0, h', n, m, choose, sample)
  {
    StepsSnoc(1, m);
    ChoicesSnoc(m - 1, choose);
    SlotsStep(n, m, choose, sample);
  }

  /** A slot that no feedback row of the run names is still NaN. */
  lemma UnwrittenStaysNaN(n: nat, choose: int -> int, sample: (int, int) -> seq<Entry>, j: int)
    requires Completes(n, choose, sample) && 0 <= j < n
    requires forall i :: 0 <= i < |RunFeedback(n, choose, sample)| ==>
               Slot(n, RunFeedback(n, choose, sample)[i].time) != Some(j)
    ensures Slots(n, n, choose, sample)[j] == NaN
  {
    ghost var slots := Slots(n, n, choose, sample);
    WrittenUntouched(Nans(n), RunFeedback(n, choose, sample), j);
  }

  /** When the environment reports each step's own time and action with one
      reward, as the Bernoulli environment does, after `m` steps slot `t - 1`
      holds step `t`'s reward for every `t <= m` and NaN beyond. */
  lemma {:induction false} OwnTimeFills(n: nat, m: nat, choose: int -> int, sample: (int, int) -> seq<Entry>,
                                        reward: (int, int) -> real, j: int)
    requires m <= n && 0 <= j < n
    requires forall t :: 1 <= t <= n ==> sample(t, choose(t)) == [Entry(t, choose(t), reward(t, choose(t)))]
    ensures forall t :: 1 <= t <= m ==> InRange(n, sample(t, choose(t)))
    ensures Slots(n, m, choose, sample)[j] == if j < m then Num(reward(j + 1, choose(j + 1))) else NaN
    decreases m
  {
    if m > 0 {
      OwnTimeFills(n, m - 1, choose, sample, reward, j);
      SlotOfTime(n, m);
      WrittenOne(Slots(n, m - 1, choose, sample), Entry(m, choose(m), reward(m, choose(m))));
    }
  }

  /** The root `Agent`. */
  class Agent {
    const nactions: nat
    var history: SlotHistory
    /** The horizon of the last `run`; unset until the first one. */
    var nsamples: Option<nat>

    /** `Agent(sample, nactions)`: stores its arguments and calls `initialise`. */
    constructor (nactions: nat)
      ensures this.nactions == nactions && nsamples == None && history == SlotHistory([], [], [])
    {
      this.nactions := nactions;
      nsamples := None;
      history := SlotHistory([], [], []);
      new;
      Initialise();
    }

    /** `initialise`, as a learner built on this class gives it: an empty
        history (the base class's own is a placeholder). */
    method Initialise()
      modifies this`history
      ensures history == SlotHistory([], [], [])
    {
      history := SlotHistory([], [], []);
    }

    /** `update_history`: appends the time and the action, then writes each
        feedback row's reward into the slot of its time. Returns `false` at
        the first row whose slot does not exist, having written the rows
        before it. */
    method UpdateHistory(time: int, action: int, feedback: seq<Entry>) returns (ok: bool)
      modifies this`history
      ensures history.time == old(history.time) + [time] && history.action == old(history.action) + [action]
      ensures ok <==> InRange(|old(history.reward)|, feedback)
      ensures ok ==> history.reward == Written(old(history.reward), feedback)
      ensures !ok ==> history.reward == Written(old(history.reward), feedback[..FirstOut(|old(history.reward)|, feedback)])
    {
      history := SlotHistory(history.time + [time], history.action + [action], history.reward);
      ghost var r0 := history.reward;
      var n := |history.reward|;
      for idx := 0 to |feedback|
        invariant history.time == old(history.time) + [time] && history.action == old(history.action) + [action]
        invariant InRange(n, feedback[..idx]) && history.reward == Written(r0, feedback[..idx])
      {
        var t := feedback[idx].time;
        var reward := feedback[idx].reward;
        var slot := PyIndex(n, t - 1);
        if slot.None? {
          assert !InRange(n, feedback);
          ghost var k := FirstOut(n, feedback);
          assert forall i :: 0 <= i < idx ==> feedback[..idx][i] == feedback[i];
          assert k == idx;
          return false;
        }
        WrittenStep(r0, feedback, idx);
        history := history.(reward := history.reward[slot.value := Num(reward)]);
      }
      assert feedback[..|feedback|] == feedback;
      ok := true;
    }

    /** One pass of `run`'s loop at step `time`: choose `choose(time)`,
        sample its feedback, record both. `false` is the `IndexError`. */
    method Step(n: nat, time: nat, choose: int -> int, sample: (int, int) -> seq<Entry>, ghost h0: SlotHistory)
      returns (ok: bool)
      requires 1 <= time <= n && RunAt(h0, history, n, time - 1, choose, sample)
      modifies this`history
      ensures ok <==> InRange(n, sample(time, choose(time)))
      ensures ok ==> RunAt(h0, history, n, time, choose, sample)
    {
      var action := choose(time);
      var feedback := sample(time, action);
      ghost var before := history;
      ok := UpdateHistory(time, action, feedback);
      if ok {
        RunAtStep(h0, before, history, n, time, choose, sample);
      }
    }

    /** `run(nsamples, reset)`: every reward slot becomes NaN, then each step
        at times `1..nsamples` chooses `choose(time)`, samples its feedback and
        records it. `None` stands for the `IndexError` of a feedback time that
        names no slot. Otherwise the run's history is returned, and with
        `reset` the agent is re-initialised. */
    method Run(n: nat, reset: bool, choose: int -> int, sample: (int, int) -> seq<Entry>)
      returns (result: Option<SlotHistory>)
      modifies this`history, this`nsamples
      ensures nsamples == Some(n)
      ensures result.Some? <==> Completes(n, choose, sample)
      ensures result.Some? ==> RunAt(old(history), result.value, n, n, choose, sample)
      ensures result.Some? ==> history == if reset then SlotHistory([], [], []) else result.value
    {
      nsamples := Some(n);
      history := history.(reward := Nans(n));
      for time := 1 to n + 1
        invariant nsamples == Some(n)
        invariant RunAt(old(history), history, n, time - 1, choose, sample)
      {
        var ok := Step(n, time, choose, sample, old(history));
        if !ok {
          return None;
        }
      }
      if reset {
        var h := history;
        Initialise();
        result := Some(h);
      } else {
        result := Some(history);
      }
    }
  }
}
