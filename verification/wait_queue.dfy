/** Properties of repeated countdown and repeated promotion on the wait queue
    of FileName.cpp, each operation applied on its own, with nothing else in
    between. */
module WaitQueue {
  import opened Processes
  import opened QueueManager

  /** `decrementWaitTimes` applied `k` times in a row. */
  function DecrementN(s: State, k: nat): State
    decreases k
  {
    if k == 0 then s else DecrementWaitTimes(DecrementN(s, k - 1))
  }

  /** `promoteProcess` applied `k` times in a row. */
  function PromoteN(s: State, k: nat): State
    decreases k
  {
    if k == 0 then s else PromoteProcess(PromoteN(s, k - 1))
  }

  /** Every process of a sequence with its promotion flag set, in the same order. */
  function PromoteAll(ps: seq<Process>): seq<Process> {
    seq(|ps|, k requires 0 <= k < |ps| => Promote(ps[k]))
  }

  lemma EntryIsWaiting(w: seq<Entry>, e: Entry)
    requires e in w
    ensures e.proc in Waiting(w)
  {
    var k :| 0 <= k < |w| && w[k] == e;
    assert Waiting(w)[k] == e.proc;
  }

  /** One countdown pass on a wait queue where `p` has a single entry with `t`
      ticks: the entry stays with `t - 1` ticks when that is positive, and
      otherwise `p` leaves the wait queue for the ready queue. */
  lemma CountdownStep(w: seq<Entry>, p: Process, t: int)
    requires Entry(p, t) in w
    requires multiset(Waiting(w))[p] == 1
    ensures t > 1 ==> Entry(p, t - 1) in Survivors(w) && multiset(Waiting(Survivors(w)))[p] == 1
    ensures t <= 1 ==> p in Expired(w) && p !in Waiting(Survivors(w))
  {
    CountdownConserves(w);
    var k :| 0 <= k < |w| && w[k] == Entry(p, t);
    assert DecrementedAll(w)[k] == Entry(p, t - 1);
    if t > 1 {
      SurvivorsExactly(w, Entry(p, t - 1));
      EntryIsWaiting(Survivors(w), Entry(p, t - 1));
    } else {
      ExpiredExactly(w, p);
    }
  }

  /** The wait queue after `k` countdown passes. */
  function SurvivorsN(w: seq<Entry>, k: nat): seq<Entry>
    decreases k
  {
    if k == 0 then w else Survivors(SurvivorsN(w, k - 1))
  }

  /** Countdown passes act on the wait queue independently of the ready queue. */
  lemma {:induction false} DecrementNWait(s: State, k: nat)
    ensures DecrementN(s, k).wait == SurvivorsN(s.wait, k)
    decreases k
  {
    if k > 0 {
      DecrementNWait(s, k - 1);
    }
  }

  /** Before its `d`-th countdown, an entry inserted with `d` ticks is still
      waiting, with `d - k` ticks after `k` passes. */
  lemma {:induction false} CountdownPrefix(w: seq<Entry>, p: Process, d: int, k: nat)
    requires Entry(p, d) in w
    requires multiset(Waiting(w))[p] == 1
    requires k < d
    ensures Entry(p, d - k) in SurvivorsN(w, k)
    ensures multiset(Waiting(SurvivorsN(w, k)))[p] == 1
    decreases k
  {
    if k > 0 {
      CountdownPrefix(w, p, d, k - 1);
      CountdownStep(SurvivorsN(w, k - 1), p, d - (k - 1));
    }
  }

  /** An entry inserted with `d >= 1` ticks, whose process waits nowhere else,
      stays in the wait queue for `d - 1` countdown passes and is back in the
      ready queue after the `d`-th. */
  lemma Countdown(s: State, p: Process, d: int)
    requires Entry(p, d) in s.wait
    requires multiset(Waiting(s.wait))[p] == 1
    requires d >= 1
    ensures forall k: nat :: k < d ==> Entry(p, d - k) in DecrementN(s, k).wait
    ensures p !in Waiting(DecrementN(s, d).wait)
    ensures p in DecrementN(s, d).ready
  {
    forall k: nat | k < d
      ensures Entry(p, d - k) in DecrementN(s, k).wait
    {
      CountdownPrefix(s.wait, p, d, k);
      DecrementNWait(s, k);
    }
    CountdownLast(s, p, d - 1);
  }

  lemma CountdownLast(s: State, p: Process, n: nat)
    requires Entry(p, n + 1) in s.wait
    requires multiset(Waiting(s.wait))[p] == 1
    ensures p !in Waiting(DecrementN(s, n + 1).wait)
    ensures p in DecrementN(s, n + 1).ready
  {
    CountdownPrefix(s.wait, p, n + 1, n);
    DecrementNWait(s, n);
    var before := DecrementN(s, n);
    CountdownStep(before.wait, p, 1);
    ExpiredJoinsReady(before, p);
  }

  lemma ExpiredJoinsReady(s: State, p: Process)
    requires p in Expired(s.wait) && p !in Waiting(Survivors(s.wait))
    ensures p in DecrementWaitTimes(s).ready
    ensures p !in Waiting(DecrementWaitTimes(s).wait)
  {
    assert DecrementWaitTimes(s).ready == s.ready + Expired(s.wait);
  }

  /** After `k` promotions the first `k` waiting processes, flagged, follow the
      old ready queue in their wait-queue order, and the rest still wait. */
  lemma {:induction false} PromotionReleasesInOrder(s: State, k: nat)
    requires k <= |s.wait|
    ensures PromoteN(s, k).wait == s.wait[k..]
    ensures PromoteN(s, k).ready == s.ready + PromoteAll(Waiting(s.wait[..k]))
    ensures PromoteN(s, k).running == s.running
    decreases k
  {
    if k > 0 {
      PromotionReleasesInOrder(s, k - 1);
      var before := PromoteN(s, k - 1);
      assert before.wait == s.wait[k - 1..];
      assert before.wait[0] == s.wait[k - 1];
      assert before.wait[1..] == s.wait[k..];
      PromoteAllExtend(s.wait, k);
    }
  }

  lemma PromoteAllExtend(w: seq<Entry>, k: nat)
    requires 0 < k <= |w|
    ensures PromoteAll(Waiting(w[..k])) == PromoteAll(Waiting(w[..k - 1])) + [Promote(w[k - 1].proc)]
  {
  }

  /** As many promotions as there are waiting entries empty the wait queue: no
      entry waits through more promotions than the queue had entries. */
  lemma PromotionDrains(s: State)
    ensures PromoteN(s, |s.wait|).wait == []
    ensures PromoteN(s, |s.wait|).ready == s.ready + PromoteAll(Waiting(s.wait))
  {
    PromotionReleasesInOrder(s, |s.wait|);
    assert s.wait[..|s.wait|] == s.wait;
  }
}
