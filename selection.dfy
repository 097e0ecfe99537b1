/** The "first strict maximum" loop shared by every policy:
      best, highest = inf, -inf
      for each action a in 1..K:  if highest < score(a): best, highest = a, score(a)
    `scores[i]` is the score of action `i + 1`. */
module Selection {
  import opened Optional

  /** The loop's state: `NoLeader` is the initial `(inf, -inf)`. */
  datatype Leader = NoLeader | Leader(action: int, highest: real)

  /** One iteration: action `a` with score `s` takes over only if it is strictly higher. */
  function Step(l: Leader, a: int, s: real): Leader
  {
    if l.NoLeader? || l.highest < s then Leader(a, s) else l
  }

  /** The loop's state after scanning `scores` from left to right. */
  function Scan(scores: seq<real>): (l: Leader)
    ensures l.Leader? <==> scores != []
    ensures l.Leader? ==> 1 <= l.action <= |scores| && l.highest == scores[l.action - 1]
  {
    if scores == [] then NoLeader
    else Step(Scan(scores[..|scores| - 1]), |scores|, scores[|scores| - 1])
  }

  /** What the policy returns for a scanned leader (`inf` becomes `None`). */
  function Chosen(l: Leader): Option<int>
  {
    if l.NoLeader? then None else Some(l.action)
  }

  /** Action `a` has a maximal score and every earlier action scores strictly less. */
  ghost predicate IsFirstMax(scores: seq<real>, a: int)
  {
    && 1 <= a <= |scores|
    && (forall i :: 0 <= i < |scores| ==> scores[i] <= scores[a - 1])
    && (forall i :: 0 <= i < a - 1 ==> scores[i] < scores[a - 1])
  }

  /** Unfolding `Scan` by one index, the form a loop invariant needs. */
  lemma ScanStep(scores: seq<real>, i: int)
    requires 0 <= i < |scores|
    ensures Scan(scores[..i + 1]) == Step(Scan(scores[..i]), i + 1, scores[i])
  {
    assert scores[..i + 1][..i] == scores[..i];
  }

  /** The scan returns the earliest action with a maximal score. */
  lemma {:induction false} ScanIsFirstMax(scores: seq<real>)
    requires scores != []
    ensures IsFirstMax(scores, Scan(scores).action)
  {
    var n := |scores|;
    var p := scores[..n - 1];
    if p != [] {
      ScanIsFirstMax(p);
      var l := Scan(p);
      assert forall i :: 0 <= i < n - 1 ==> scores[i] == p[i];
      if l.highest < scores[n - 1] {
        assert Scan(scores) == Leader(n, scores[n - 1]);
      } else {
        assert Scan(scores) == l;
      }
    }
  }

  /** Conversely, the earliest maximal action is the one the scan returns:
      the first strict maximum is unique. */
  lemma FirstMaxIsScan(scores: seq<real>, a: int)
    requires IsFirstMax(scores, a)
    ensures Scan(scores) == Leader(a, scores[a - 1])
  {
    ScanIsFirstMax(scores);
  }

  /** Every action `acts[t - 1]` of a run is the first maximum of the
      draws `draws(t)` of its step `t`. */
  ghost predicate DrawsChosen(draws: int -> seq<real>, acts: seq<int>)
  {
    forall t :: 1 <= t <= |acts| ==> IsFirstMax(draws(t), acts[t - 1])
  }

  /** A run whose next action is the first maximum of the next step's draws
      stays a run of first maxima. */
  lemma DrawsChosenStep(draws: int -> seq<real>, acts: seq<int>, a: int)
    requires DrawsChosen(draws, acts) && IsFirstMax(draws(|acts| + 1), a)
    ensures DrawsChosen(draws, acts + [a])
  {
    forall t | 1 <= t <= |acts| + 1
      ensures IsFirstMax(draws(t), (acts + [a])[t - 1])
    {
      if t <= |acts| {
        assert (acts + [a])[t - 1] == acts[t - 1];
      }
    }
  }
}
