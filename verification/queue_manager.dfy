/** The `QueueManager` class of FileName.cpp: the dynamic (ready) queue, the
    wait queue of (process, remaining ticks) pairs and the running slot, with
    the five operations that change them. Every operation is a pure function
    from state to state; the random draws of the source are parameters. */
module QueueManager {
  import opened Sequences
  import opened Processes

  /** The running slot: a process or the source's null pointer. */
  datatype Option<T> = None | Some(value: T)

  /** A wait-queue entry: the blocked process and its remaining ticks. */
  datatype Entry = Entry(proc: Process, ticks: int)

  /** The three fields of a queue manager. The wait queue is kept in insertion
      order: the source appends to it and never sorts it. */
  datatype State = State(ready: seq<Process>, wait: seq<Entry>, running: Option<Process>)

  /** A freshly constructed queue manager: both queues empty, nothing running. */
  function Empty(): (s: State)
    ensures Everyone(s) == []
  {
    State([], [], None)
  }

  /** The processes of a wait queue, in queue order. */
  function Waiting(w: seq<Entry>): seq<Process> {
    seq(|w|, k requires 0 <= k < |w| => w[k].proc)
  }

  /** The running slot as a sequence of zero or one processes. */
  function RunningList(s: State): seq<Process> {
    if s.running.Some? then [s.running.value] else []
  }

  /** The processes held in the two queues: ready queue first, then wait queue. */
  function Queued(s: State): seq<Process> {
    s.ready + Waiting(s.wait)
  }

  /** Every process the manager holds: running slot, ready queue, wait queue. */
  function Everyone(s: State): seq<Process> {
    RunningList(s) + Queued(s)
  }

  lemma WaitingAppend(a: seq<Entry>, b: seq<Entry>)
    ensures Waiting(a + b) == Waiting(a) + Waiting(b)
  {
  }

  // ---------------------------------------------------------------------------
  // addProcess

  /** `addProcess`: the process joins the tail of the ready queue. */
  function AddProcess(s: State, p: Process): (t: State)
    ensures |t.ready| == |s.ready| + 1
    ensures t.ready[..|s.ready|] == s.ready && t.ready[|s.ready|] == p
    ensures t.wait == s.wait && t.running == s.running
  {
    s.(ready := s.ready + [p])
  }

  /** Adding a process adds exactly that process to those the manager holds. */
  lemma AddProcessAddsOne(s: State, p: Process)
    ensures multiset(Everyone(AddProcess(s, p))) == multiset(Everyone(s)) + multiset{p}
  {
    var t := AddProcess(s, p);
    assert t.ready == s.ready + [p];
    assert Queued(t) == s.ready + [p] + Waiting(s.wait);
    assert multiset(Queued(t)) == multiset(Queued(s)) + multiset{p};
  }

  // ---------------------------------------------------------------------------
  // simulateProcessSleep

  /** The ready process at position `i` goes to the back of the wait queue with
      `w` ticks to wait. */
  function SleepAt(s: State, i: nat, w: int): (t: State)
    requires i < |s.ready|
    requires 1 <= w <= 10
    ensures t.running == s.running
    ensures |t.ready| == |s.ready| - 1
    ensures t.ready[..i] + [s.ready[i]] + t.ready[i..] == s.ready
    ensures |t.wait| == |s.wait| + 1
    ensures t.wait[..|s.wait|] == s.wait && t.wait[|s.wait|] == Entry(s.ready[i], w)
  {
    assert s.ready == s.ready[..i] + [s.ready[i]] + s.ready[i + 1..];
    State(s.ready[..i] + s.ready[i + 1..], s.wait + [Entry(s.ready[i], w)], s.running)
  }

  /** `simulateProcessSleep`: `r1` and `r2` are the two values `rand()` returns,
      in that order; the index is `r1` modulo the ready-queue length and the
      duration `r2 % 10 + 1`. An empty ready queue leaves the state alone. */
  function SimulateProcessSleep(s: State, r1: nat, r2: nat): (t: State)
    ensures s.ready == [] ==> t == s
    ensures s.ready != [] ==>
      && t.running == s.running
      && |t.ready| == |s.ready| - 1
      && |t.wait| == |s.wait| + 1
      && t.wait[..|s.wait|] == s.wait
      && 1 <= t.wait[|s.wait|].ticks <= 10
      && t.wait[|s.wait|].proc in s.ready
  {
    if s.ready == [] then s else SleepAt(s, r1 % |s.ready|, r2 % 10 + 1)
  }

  /** The processes that stay ready keep their order. */
  lemma SleepKeepsOrder(s: State, r1: nat, r2: nat)
    ensures IsSubsequence(SimulateProcessSleep(s, r1, r2).ready, s.ready)
  {
    if s.ready == [] {
      SubsequenceReflexive(s.ready);
    } else {
      RemoveAtIsSubsequence(s.ready, r1 % |s.ready|);
    }
  }

  /** Putting a process to sleep moves it between the queues without losing or
      duplicating any. */
  lemma SleepConserves(s: State, r1: nat, r2: nat)
    ensures multiset(Queued(SimulateProcessSleep(s, r1, r2))) == multiset(Queued(s))
  {
    if s.ready != [] {
      SleepAtConserves(s, r1 % |s.ready|, r2 % 10 + 1);
    }
  }

  lemma SleepAtConserves(s: State, i: nat, w: int)
    requires i < |s.ready|
    requires 1 <= w <= 10
    ensures multiset(Queued(SleepAt(s, i, w))) == multiset(Queued(s))
  {
    var a, x, b := s.ready[..i], s.ready[i], s.ready[i + 1..];
    var t := SleepAt(s, i, w);
    assert t.ready == a + b;
    assert t.wait == s.wait + [Entry(x, w)];
    WaitingAppend(s.wait, [Entry(x, w)]);
    assert Queued(t) == a + b + Waiting(s.wait) + [x];
    assert s.ready == a + [x] + b;
    assert Queued(s) == a + [x] + b + Waiting(s.wait);
  }

  /** Every admissible choice of position and duration is produced by some pair of draws. */
  lemma SleepCoversEveryChoice(s: State, i: nat, w: int)
    requires i < |s.ready|
    requires 1 <= w <= 10
    ensures SimulateProcessSleep(s, i, w - 1) == SleepAt(s, i, w)
  {
    var d: nat := w - 1;
    SmallRemainder(i, |s.ready|);
    SmallRemainder(d, 10);
  }

  /** A draw already below the bound is its own remainder. */
  lemma SmallRemainder(a: nat, n: nat)
    requires a < n
    ensures a % n == a
  {
  }

  // ---------------------------------------------------------------------------
  // promoteProcess

  /** `promoteProcess`: the front of the wait queue is released to the ready tail
      with its flag set, whatever its remaining ticks. In the list of all held
      processes nothing moves; only that one entry gains the flag. */
  function PromoteProcess(s: State): (t: State)
    ensures s.wait == [] ==> t == s
    ensures s.wait != [] ==>
      && t.running == s.running
      && t.wait == s.wait[1..]
      && |t.ready| == |s.ready| + 1
      && t.ready[..|s.ready|] == s.ready
      && t.ready[|s.ready|] == Promote(s.wait[0].proc)
  {
    if s.wait == [] then s
    else State(s.ready + [Promote(s.wait[0].proc)], s.wait[1..], s.running)
  }

  /** In the list of all held processes promotion moves nothing: only the
      released process gains the flag, in place. */
  lemma PromoteFlattened(s: State)
    requires s.wait != []
    ensures |RunningList(s)| + |s.ready| < |Everyone(s)|
    ensures Everyone(s)[|RunningList(s)| + |s.ready|] == s.wait[0].proc
    ensures Everyone(PromoteProcess(s)) == Everyone(s)[|RunningList(s)| + |s.ready| := Promote(s.wait[0].proc)]
  {
    assert s.wait == [s.wait[0]] + s.wait[1..];
    WaitingAppend([s.wait[0]], s.wait[1..]);
  }

  /** Promotion changes no id anywhere in the manager. */
  lemma PromoteKeepsIds(s: State)
    ensures Ids(Everyone(PromoteProcess(s))) == Ids(Everyone(s))
  {
    if s.wait != [] {
      PromoteFlattened(s);
      IdsIgnorePromotion(Everyone(s), |RunningList(s)| + |s.ready|);
    }
  }

  /** A process held after promotion was held before, possibly without the flag. */
  lemma PromoteOrigins(s: State, q: Process)
    requires q in Everyone(PromoteProcess(s))
    ensures DescendsFrom(q, Everyone(s))
  {
    if s.wait != [] {
      PromoteFlattened(s);
      var xs, k := Everyone(s), |RunningList(s)| + |s.ready|;
      var j :| 0 <= j < |xs| && xs[k := Promote(xs[k])][j] == q;
      if j != k {
        assert q == xs[j];
      } else if !xs[k].promoted {
        assert q.(promoted := false) == xs[k];
      }
    }
  }

  // ---------------------------------------------------------------------------
  // simulateRunningProcess

  /** `simulateRunningProcess`: the ready head takes the running slot, or the
      slot is cleared when the ready queue is empty. */
  function SimulateRunningProcess(s: State): (t: State)
    ensures t.wait == s.wait
    ensures s.ready != [] ==> t.running == Some(s.ready[0]) && [s.ready[0]] + t.ready == s.ready
    ensures s.ready == [] ==> t.running == None && t.ready == []
  {
    if s.ready != [] then State(s.ready[1..], s.wait, Some(s.ready[0]))
    else State(s.ready, s.wait, None)
  }

  /** The previous occupant of the running slot is not put back anywhere: it is
      exactly the prefix that drops out of the list of held processes. */
  lemma DispatchFlattened(s: State)
    ensures Everyone(s) == RunningList(s) + Everyone(SimulateRunningProcess(s))
  {
  }

  /** With distinct ids, the process that held the running slot is in neither
      queue once the next process has been dispatched, and not running either. */
  lemma DispatchDropsPrevious(s: State)
    requires NoDuplicates(Ids(Everyone(s)))
    requires s.running.Some?
    ensures s.running.value.id !in Ids(Everyone(SimulateRunningProcess(s)))
  {
    var r, rest := s.running.value, Everyone(SimulateRunningProcess(s));
    DispatchFlattened(s);
    IdsAppend([r], rest);
    NoDuplicatesHead(Ids(Everyone(s)));
    assert Ids(Everyone(s))[1..] == Ids(rest);
  }

  // ---------------------------------------------------------------------------
  // decrementWaitTimes

  /** One tick off an entry's remaining time. */
  function Decremented(e: Entry): Entry {
    Entry(e.proc, e.ticks - 1)
  }

  /** Every entry of a wait queue with one tick off, in the same order. */
  function DecrementedAll(w: seq<Entry>): seq<Entry> {
    seq(|w|, k requires 0 <= k < |w| => Decremented(w[k]))
  }

  /** The entries that stay in the wait queue after one pass of the countdown loop. */
  function Survivors(w: seq<Entry>): (r: seq<Entry>)
    ensures |r| <= |w|
    ensures forall k :: 0 <= k < |r| ==> r[k].ticks > 0
  {
    if w == [] then []
    else if Decremented(w[0]).ticks <= 0 then Survivors(w[1..])
    else [Decremented(w[0])] + Survivors(w[1..])
  }

  /** The processes the countdown loop hands back to the ready queue, in wait-queue order. */
  function Expired(w: seq<Entry>): (r: seq<Process>)
    ensures |r| + |Survivors(w)| == |w|
  {
    if w == [] then []
    else if Decremented(w[0]).ticks <= 0 then [w[0].proc] + Expired(w[1..])
    else Expired(w[1..])
  }

  /** The countdown pass loses no process and duplicates none. */
  lemma {:induction false} CountdownConserves(w: seq<Entry>)
    ensures multiset(Waiting(Survivors(w))) + multiset(Expired(w)) == multiset(Waiting(w))
    decreases |w|
  {
    if w != [] {
      CountdownConserves(w[1..]);
      assert w == [w[0]] + w[1..];
      CountdownStepConserves(w[0], w[1..], Survivors(w[1..]), Expired(w[1..]));
    }
  }

  /** One entry in front of a wait queue: whether it survives the pass or is
      released, conservation for the rest extends to the whole queue. */
  lemma CountdownStepConserves(e: Entry, w: seq<Entry>, kept: seq<Entry>, released: seq<Process>)
    requires multiset(Waiting(kept)) + multiset(released) == multiset(Waiting(w))
    ensures Decremented(e).ticks <= 0 ==>
      multiset(Waiting(kept)) + multiset([e.proc] + released) == multiset(Waiting([e] + w))
    ensures Decremented(e).ticks > 0 ==>
      multiset(Waiting([Decremented(e)] + kept)) + multiset(released) == multiset(Waiting([e] + w))
  {
    WaitingAppend([e], w);
    WaitingAppend([Decremented(e)], kept);
  }

  /** Survivors keep their relative order and each lost exactly one tick. */
  lemma {:induction false} SurvivorsInOrder(w: seq<Entry>)
    ensures IsSubsequence(Survivors(w), DecrementedAll(w))
    decreases |w|
  {
    if w != [] {
      SurvivorsInOrder(w[1..]);
      assert DecrementedAll(w)[1..] == DecrementedAll(w[1..]);
    }
  }

  /** An entry survives, one tick down, exactly when one tick down is still positive. */
  lemma {:induction false} SurvivorsExactly(w: seq<Entry>, e: Entry)
    ensures e in Survivors(w) <==> e in DecrementedAll(w) && e.ticks > 0
    decreases |w|
  {
    if w != [] {
      SurvivorsExactly(w[1..], e);
      assert DecrementedAll(w) == [Decremented(w[0])] + DecrementedAll(w[1..]);
    }
  }

  /** Released processes keep their wait-queue order. */
  lemma {:induction false} ExpiredInOrder(w: seq<Entry>)
    ensures IsSubsequence(Expired(w), Waiting(w))
    decreases |w|
  {
    if w != [] {
      ExpiredInOrder(w[1..]);
      assert Waiting(w)[1..] == Waiting(w[1..]);
    }
  }

  /** A process is released exactly when some entry of it had at most one tick left. */
  lemma {:induction false} ExpiredExactly(w: seq<Entry>, p: Process)
    ensures p in Expired(w) <==> exists k :: 0 <= k < |w| && w[k].proc == p && w[k].ticks <= 1
    decreases |w|
  {
    if w != [] {
      ExpiredExactly(w[1..], p);
      if exists k :: 0 <= k < |w[1..]| && w[1..][k].proc == p && w[1..][k].ticks <= 1 {
        var k :| 0 <= k < |w[1..]| && w[1..][k].proc == p && w[1..][k].ticks <= 1;
        assert w[k + 1] == w[1..][k];
      }
      if exists k :: 0 <= k < |w| && w[k].proc == p && w[k].ticks <= 1 {
        var k :| 0 <= k < |w| && w[k].proc == p && w[k].ticks <= 1;
        if k > 0 {
          assert w[1..][k - 1] == w[k];
        }
      }
    }
  }

  /** `decrementWaitTimes`: every entry loses one tick; those at or below zero
      move to the ready tail in wait-queue order, the rest stay in order. */
  function DecrementWaitTimes(s: State): (t: State)
    ensures t.running == s.running
    ensures |t.ready| >= |s.ready|
    ensures t.ready[..|s.ready|] == s.ready
    ensures |t.wait| <= |s.wait|
    ensures forall k :: 0 <= k < |t.wait| ==> t.wait[k].ticks > 0
  {
    State(s.ready + Expired(s.wait), Survivors(s.wait), s.running)
  }

  /** The countdown moves processes between the two queues without losing or
      duplicating any. */
  lemma DecrementConserves(s: State)
    ensures multiset(Queued(DecrementWaitTimes(s))) == multiset(Queued(s))
  {
    CountdownConserves(s.wait);
  }

  /** The countdown on a wait queue of a single entry. */
  lemma CountdownOfOne(ready: seq<Process>, e: Entry, running: Option<Process>)
    ensures e.ticks <= 1 ==> DecrementWaitTimes(State(ready, [e], running)) == State(ready + [e.proc], [], running)
    ensures e.ticks > 1 ==> DecrementWaitTimes(State(ready, [e], running)) == State(ready, [Decremented(e)], running)
  {
    assert [e][1..] == [];
  }

  /** The source's iterator loop: walk the wait queue once, decrementing each
      entry and erasing those that reach zero into the ready queue. */
  method DecrementWaitTimesLoop(s: State) returns (t: State)
    ensures t == DecrementWaitTimes(s)
  {
    var ready := s.ready;
    var kept: seq<Entry> := [];
    var k := 0;
    while k < |s.wait|
      invariant k <= |s.wait|
      invariant kept + Survivors(s.wait[k..]) == Survivors(s.wait)
      invariant ready + Expired(s.wait[k..]) == s.ready + Expired(s.wait)
    {
      assert s.wait[k..][1..] == s.wait[k + 1..];
      var e := Decremented(s.wait[k]);
      if e.ticks <= 0 {
        ready := ready + [e.proc];
      } else {
        kept := kept + [e];
      }
      k := k + 1;
    }
    t := State(ready, kept, s.running);
  }
}
