/** The driver of FileName.cpp: the fixed order in which `runSimulation` calls
    the queue manager on every tick, and the ten processes `main` seeds before
    the first tick. Wall-clock time is not modelled: a run is any finite
    sequence of ticks. */
module Simulation {
  import opened Sequences
  import opened Processes
  import opened QueueManager

  /** The two values `rand()` returns during one tick: the index draw first,
      then the duration draw. */
  datatype Draw = Draw(index: nat, duration: nat)

  /** One iteration of the `runSimulation` loop, display left aside: dispatch,
      sleep, countdown, promotion. The wait queue does not grow: the sleep adds
      at most one entry and the promotion releases one whenever any wait. */
  function Tick(s: State, d: Draw): (t: State)
    ensures |t.wait| <= |s.wait|
  {
    var s1 := SimulateRunningProcess(s);
    var s2 := SimulateProcessSleep(s1, d.index, d.duration);
    var s3 := DecrementWaitTimes(s2);
    assert |s2.wait| <= |s.wait| + 1;
    PromoteProcess(s3)
  }

  /** The process running after a tick is the one that headed the ready queue
      when the tick began; none if the ready queue was empty. */
  lemma TickRunsReadyHead(s: State, d: Draw)
    ensures Tick(s, d).running == if s.ready == [] then None else Some(s.ready[0])
  {
    var s1 := SimulateRunningProcess(s);
    var s2 := SimulateProcessSleep(s1, d.index, d.duration);
    assert s2.running == s1.running;
  }

  /** As many ticks as there are draws, in order. However long the run, the
      wait queue ends no longer than it started. */
  function RunTicks(s: State, draws: seq<Draw>): (t: State)
    ensures |t.wait| <= |s.wait|
    decreases |draws|
  {
    if draws == [] then s else RunTicks(Tick(s, draws[0]), draws[1..])
  }

  /** The class tag `main` gives process `i`: `'F'` for even ids, `'B'` for odd. */
  function KindOf(i: int): char {
    if i % 2 == 0 then 'F' else 'B'
  }

  /** The number of processes `main` creates. */
  const ProcessCount: nat := 10

  /** The state after the first `n` iterations of the seeding loop in `main`:
      `n` ready processes, nothing waiting, nothing running. */
  function Seed(n: nat): (t: State)
    ensures |t.ready| == n && t.wait == [] && t.running == None
    decreases n
  {
    if n == 0 then Empty() else AddProcess(Seed(n - 1), NewProcess(n, KindOf(n)))
  }

  /** Processes 1..n in id order, unpromoted, tagged by parity. */
  function Population(n: nat): seq<Process> {
    seq(n, k requires 0 <= k < n => Process(k + 1, KindOf(k + 1), false))
  }

  /** The state `main` hands to `runSimulation`. */
  function InitialState(): State {
    State(Population(ProcessCount), [], None)
  }

  // ---------------------------------------------------------------------------
  // Seeding

  /** Seeding puts processes 1..n, unpromoted and tagged by parity, in id order
      into the ready queue; nothing waits and nothing runs. */
  lemma {:induction false} SeedShape(n: nat)
    ensures Seed(n) == State(Population(n), [], None)
    decreases n
  {
    if n > 0 {
      SeedShape(n - 1);
      var p := NewProcess(n, KindOf(n));
      assert Seed(n) == AddProcess(State(Population(n - 1), [], None), p);
      PopulationGrows(n);
    }
  }

  lemma PopulationGrows(n: nat)
    requires n > 0
    ensures Population(n) == Population(n - 1) + [NewProcess(n, KindOf(n))]
  {
  }

  /** The seeding loop of `main` builds the initial state. */
  lemma SeedingBuildsInitialState()
    ensures Seed(ProcessCount) == InitialState()
  {
    SeedShape(ProcessCount);
  }

  /** The seeded processes have distinct ids, exactly 1..n. */
  lemma SeedIds(n: nat)
    ensures NoDuplicates(Ids(Everyone(State(Population(n), [], None))))
    ensures forall x :: x in Ids(Everyone(State(Population(n), [], None))) <==> 1 <= x <= n
  {
    var s := State(Population(n), [], None);
    assert Waiting(s.wait) == [];
    assert Everyone(s) == s.ready;
    var ids := Ids(Everyone(s));
    assert forall k :: 0 <= k < n ==> ids[k] == k + 1;
    forall x | 1 <= x <= n
      ensures x in ids
    {
      assert ids[x - 1] == x;
    }
  }

  // ---------------------------------------------------------------------------
  // One tick

  /** Two states with the same running slot and the same queued processes, in
      any order, hold the same processes and the same ids. */
  lemma SameHoldings(s: State, t: State)
    requires t.running == s.running
    requires multiset(Queued(t)) == multiset(Queued(s))
    ensures multiset(Everyone(t)) == multiset(Everyone(s))
    ensures multiset(Ids(Everyone(t))) == multiset(Ids(Everyone(s)))
  {
    IdsPermutation(Everyone(t), Everyone(s));
  }

  /** Over one tick the ids held are those held before, less the id of the
      process that was running when the tick began. */
  lemma TickConservesIds(s: State, d: Draw)
    ensures multiset(Ids(Everyone(Tick(s, d)))) + multiset(Ids(RunningList(s))) == multiset(Ids(Everyone(s)))
  {
    var s1 := SimulateRunningProcess(s);
    var s2 := SimulateProcessSleep(s1, d.index, d.duration);
    var s3 := DecrementWaitTimes(s2);
    DispatchFlattened(s);
    IdsAppend(RunningList(s), Everyone(s1));
    SleepConserves(s1, d.index, d.duration);
    SameHoldings(s1, s2);
    DecrementConserves(s2);
    SameHoldings(s2, s3);
    PromoteKeepsIds(s3);
  }

  /** A tick that starts with distinct ids ends with distinct ids, and the only
      id it can lose is that of the process running when it began. */
  lemma TickKeepsIdsDistinct(s: State, d: Draw)
    requires NoDuplicates(Ids(Everyone(s)))
    ensures NoDuplicates(Ids(Everyone(Tick(s, d))))
    ensures forall x :: x in Ids(Everyone(s)) && x !in Ids(Everyone(Tick(s, d))) ==>
      s.running.Some? && x == s.running.value.id
  {
    TickConservesIds(s, d);
    LossKeepsDistinct(Ids(Everyone(s)), Ids(Everyone(Tick(s, d))), Ids(RunningList(s)));
    assert forall x :: x in Ids(RunningList(s)) ==> s.running.Some? && x == s.running.value.id;
  }

  /** Every process held after a tick was held before it, possibly since promoted. */
  lemma TickOrigins(s: State, d: Draw, q: Process)
    requires q in Everyone(Tick(s, d))
    ensures DescendsFrom(q, Everyone(s))
  {
    var s1 := SimulateRunningProcess(s);
    var s2 := SimulateProcessSleep(s1, d.index, d.duration);
    var s3 := DecrementWaitTimes(s2);
    SleepConserves(s1, d.index, d.duration);
    SameHoldings(s1, s2);
    DecrementConserves(s2);
    SameHoldings(s2, s3);
    PromoteOrigins(s3, q);
    DispatchFlattened(s);
    if q in Everyone(s3) {
      assert q in multiset(Everyone(s1));
    } else {
      assert q.(promoted := false) in multiset(Everyone(s1));
    }
  }

  /** With distinct ids, a tick never clears a promotion flag and never changes
      a class tag. */
  lemma TickKeepsPromotion(s: State, d: Draw, p: Process, q: Process)
    requires NoDuplicates(Ids(Everyone(s)))
    requires p in Everyone(s) && q in Everyone(Tick(s, d)) && p.id == q.id
    ensures q.kind == p.kind
    ensures p.promoted ==> q.promoted
  {
    TickOrigins(s, d, q);
    DescendantKeepsPromotion(Everyone(s), p, q);
  }

  // ---------------------------------------------------------------------------
  // Whole runs

  /** Any run keeps ids distinct, never gains an id and never grows the wait queue. */
  lemma {:induction false} RunTicksInvariant(s: State, draws: seq<Draw>)
    requires NoDuplicates(Ids(Everyone(s)))
    ensures NoDuplicates(Ids(Everyone(RunTicks(s, draws))))
    ensures multiset(Ids(Everyone(RunTicks(s, draws)))) <= multiset(Ids(Everyone(s)))
    ensures |RunTicks(s, draws).wait| <= |s.wait|
    decreases |draws|
  {
    if draws != [] {
      var t := Tick(s, draws[0]);
      TickKeepsIdsDistinct(s, draws[0]);
      TickConservesIds(s, draws[0]);
      RunTicksInvariant(t, draws[1..]);
    }
  }

  /** Every run of the simulation from the seeded state holds only processes
      1..10, each at most once, and shows an empty wait queue after every tick. */
  lemma SimulationFromSeed(draws: seq<Draw>)
    ensures NoDuplicates(Ids(Everyone(RunTicks(InitialState(), draws))))
    ensures RunTicks(InitialState(), draws).wait == []
    ensures forall x :: x in Ids(Everyone(RunTicks(InitialState(), draws))) ==> 1 <= x <= ProcessCount
  {
    SeedIds(ProcessCount);
    RunFromDistinctIds(InitialState(), draws, ProcessCount);
  }

  /** A run from a state with an empty wait queue and distinct ids in 1..n keeps
      all three properties. */
  lemma RunFromDistinctIds(s: State, draws: seq<Draw>, n: nat)
    requires NoDuplicates(Ids(Everyone(s)))
    requires s.wait == []
    requires forall x :: x in Ids(Everyone(s)) ==> 1 <= x <= n
    ensures NoDuplicates(Ids(Everyone(RunTicks(s, draws))))
    ensures RunTicks(s, draws).wait == []
    ensures forall x :: x in Ids(Everyone(RunTicks(s, draws))) ==> 1 <= x <= n
  {
    RunTicksInvariant(s, draws);
    BoundsOfSubMultiset(Ids(Everyone(RunTicks(s, draws))), Ids(Everyone(s)), n);
  }

  lemma BoundsOfSubMultiset(a: seq<int>, b: seq<int>, n: int)
    requires multiset(a) <= multiset(b)
    requires forall x :: x in b ==> 1 <= x <= n
    ensures forall x :: x in a ==> 1 <= x <= n
  {
    forall x | x in a
      ensures 1 <= x <= n
    {
      assert x in multiset(a);
      assert x in multiset(b);
      assert x in b;
    }
  }

  /** A tick loses exactly the process that was running when it began. */
  lemma TickCount(s: State, d: Draw)
    ensures |Everyone(Tick(s, d))| + |RunningList(s)| == |Everyone(s)|
  {
    TickConservesIds(s, d);
    assert |multiset(Ids(Everyone(Tick(s, d))))| + |multiset(Ids(RunningList(s)))| == |multiset(Ids(Everyone(s)))|;
  }

  /** Nothing waits, and an empty running slot means the manager holds nothing. */
  predicate Settled(s: State) {
    s.wait == [] && (s.running.None? ==> s.ready == [])
  }

  /** A tick that starts with an empty wait queue ends settled. */
  lemma TickSettles(s: State, d: Draw)
    requires s.wait == []
    ensures Settled(Tick(s, d))
  {
    if s.ready == [] {
      var s1 := SimulateRunningProcess(s);
      assert s1 == State([], [], None);
      assert SimulateProcessSleep(s1, d.index, d.duration) == s1;
      assert DecrementWaitTimes(s1) == s1;
    }
  }

  /** From a settled state every tick loses one process until none is left. */
  lemma {:induction false} SettledRunDrains(s: State, draws: seq<Draw>)
    requires Settled(s)
    ensures |Everyone(RunTicks(s, draws))| == if |Everyone(s)| > |draws| then |Everyone(s)| - |draws| else 0
    decreases |draws|
  {
    if draws != [] {
      TickCount(s, draws[0]);
      TickSettles(s, draws[0]);
      assert Waiting(s.wait) == [];
      SettledRunDrains(Tick(s, draws[0]), draws[1..]);
    }
  }

  /** The source never re-enqueues the process it dispatched last, so a run from
      the seeded state holds ten processes after the first tick and one fewer
      after each further tick: after `k >= 1` ticks, `max(0, 11 - k)` are left. */
  lemma ProcessesDrainAway(first: Draw, rest: seq<Draw>)
    ensures |Everyone(RunTicks(InitialState(), [first] + rest))| == if |rest| < ProcessCount then ProcessCount - |rest| else 0
  {
    var s := InitialState();
    assert Waiting(s.wait) == [];
    assert |Everyone(s)| == ProcessCount;
    DrainAfterFirstTick(s, first, rest);
  }

  /** From an empty wait queue, the first tick loses the running process, if
      any, and every further tick loses one more until none is left. */
  lemma DrainAfterFirstTick(s: State, first: Draw, rest: seq<Draw>)
    requires s.wait == []
    ensures var n := |Everyone(s)| - |RunningList(s)|;
      |Everyone(RunTicks(s, [first] + rest))| == if n > |rest| then n - |rest| else 0
  {
    TickCount(s, first);
    TickSettles(s, first);
    assert ([first] + rest)[1..] == rest;
    assert RunTicks(s, [first] + rest) == RunTicks(Tick(s, first), rest);
    SettledRunDrains(Tick(s, first), rest);
  }

  /** A tick from a state with an empty wait queue and at least two ready
      processes: the ready head runs, the drawn process among the others moves
      to the ready tail (flagged unless its wait was a single tick, in which case
      the countdown released it first), and the wait queue is empty again. */
  lemma TickWithEmptyWait(s: State, d: Draw)
    requires s.wait == [] && |s.ready| >= 2
    ensures var rest := s.ready[1..];
      var i := d.index % |rest|;
      var q := rest[i];
      Tick(s, d) == State(rest[..i] + rest[i + 1..] + [if d.duration % 10 == 0 then q else Promote(q)], [], Some(s.ready[0]))
  {
    var rest := s.ready[1..];
    var i := d.index % |rest|;
    var q := rest[i];
    var w := d.duration % 10 + 1;
    var s1 := SimulateRunningProcess(s);
    assert s1 == State(rest, [], Some(s.ready[0]));
    var s2 := SimulateProcessSleep(s1, d.index, d.duration);
    assert s2 == State(rest[..i] + rest[i + 1..], [Entry(q, w)], s1.running);
    CountdownOfOne(s2.ready, Entry(q, w), s2.running);
    var s3 := DecrementWaitTimes(s2);
    if w > 1 {
      assert [Decremented(Entry(q, w))][1..] == [];
    }
  }

  /** The first tick from the seeded state: process 1 runs, the drawn process
      among 2..10 moves to the ready tail (flagged unless its wait was a single
      tick), and the wait queue is empty again. */
  lemma FirstTick(d: Draw)
    ensures var rest := InitialState().ready[1..];
      var i := d.index % (ProcessCount - 1);
      var q := rest[i];
      var t := Tick(InitialState(), d);
      && t.running == Some(Process(1, 'B', false))
      && t.wait == []
      && t.ready == rest[..i] + rest[i + 1..] + [if d.duration % 10 == 0 then q else Promote(q)]
  {
    var s := InitialState();
    assert |s.ready| == ProcessCount && s.ready[0] == Process(1, 'B', false);
    TickWithEmptyWait(s, d);
  }
}
