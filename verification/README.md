# Queue manager of a scheduler simulation, in Dafny

This project models the `QueueManager` class of a small CPU-scheduler
simulation (FileName.cpp) and proves properties of the model. A queue manager
holds three things:

- a dynamic (ready) queue of processes;
- a wait queue of (process, remaining ticks) pairs;
- a running slot.

Five operations change that state:

- `addProcess` appends a process to the ready queue.
- `simulateProcessSleep` moves a randomly chosen ready process to the back of
  the wait queue, with a random duration of 1 to 10 ticks.
- `promoteProcess` releases the front of the wait queue to the ready tail,
  whatever its remaining ticks, and sets the process's `promoted` flag.
- `simulateRunningProcess` puts the ready head into the running slot, or
  clears the slot when the ready queue is empty.
- `decrementWaitTimes` counts every wait entry down by one tick. Entries that
  reach zero go to the ready tail in wait-queue order.

`runSimulation` calls dispatch, sleep, countdown and promotion, in that order,
once per tick. `main` first seeds processes 1..10, tagged `'F'` (even id) or
`'B'` (odd id).

Files:

- `sequences.dfy` (module `Sequences`): distinctness and subsequences.
- `processes.dfy` (module `Processes`): the process record and id facts.
- `queue_manager.dfy` (module `QueueManager`): the state and the five
  operations, one pure function each. `decrementWaitTimes` also has a loop
  method that mirrors the source's iterator-and-erase loop.
- `wait_queue.dfy` (module `WaitQueue`): repeated countdown and repeated
  promotion.
- `simulation.dfy` (module `Simulation`): the tick, runs of ticks, and the
  seeded initial state.

The two `rand()` calls of a sleep are parameters (`r1`, `r2`, or a `Draw`).
As in the source, the index is `r1 % |ready|` and the duration is
`r2 % 10 + 1`.

What the code does, as modelled:

- The code never sorts the wait queue. Sleeping appends at its back
  (`SleepAt`), promotion takes from its front (`PromoteProcess`), and the
  countdown keeps the survivors in their order (`SurvivorsInOrder`). So the
  entries stay in insertion order.
- A tick adds at most one wait entry, and promotion then releases one. So the
  wait queue never grows over a tick (`Tick`). Starting from the seeded state,
  the wait queue is empty after every tick (`SimulationFromSeed`).
- Dispatch never re-enqueues the process that was running. Each tick after
  the first therefore loses one process. After `k >= 1` ticks from the seeded
  state, `max(0, 11 - k)` processes are left (`ProcessesDrainAway`).
- FileName.cpp takes no lock around the queues and keeps no promotion cursor:
  `promoteProcess` always releases the front of the wait queue.

## Model

| member | source | states |
|---|---|---|
| Processes.NewProcess | FileName.cpp:16 | a new process carries the given id and class tag and is not promoted |
| Processes.Promote | FileName.cpp:48-49 | promotion sets the flag and keeps the id and class tag |
| QueueManager.Empty | FileName.cpp:21-23 | a fresh manager holds no process: both queues are empty and nothing runs |
| QueueManager.AddProcess | FileName.cpp:32-34 | the old ready queue is a prefix of the new one and the new last element is the added process; the wait queue and running slot are unchanged |
| QueueManager.AddProcessAddsOne | FileName.cpp:32-34 | the processes held grow by exactly the added one, as a multiset |
| QueueManager.SleepAt | FileName.cpp:40-42 | the ready queue gets one shorter, and re-inserting the removed process at i gives back the old ready queue; the wait queue gains exactly (ready[i], w) at its back; the running slot is unchanged |
| QueueManager.SimulateProcessSleep | FileName.cpp:36-44 | no-op on an empty ready queue; otherwise one process of the old ready queue moves to the wait tail with a duration in [1, 10], the ready queue gets one shorter, and the old wait entries are untouched |
| QueueManager.SleepKeepsOrder | FileName.cpp:40-42 | the processes that stay ready keep their relative order (a subsequence of the old ready queue) |
| QueueManager.SleepConserves | FileName.cpp:36-44 | the multiset of processes in ready plus wait is preserved |
| QueueManager.SleepAtConserves | FileName.cpp:40-42 | moving ready position i to the wait tail preserves the multiset of processes in ready plus wait |
| QueueManager.SleepCoversEveryChoice | FileName.cpp:38-39 | every index below the ready length and every duration in [1, 10] is produced by some pair of draws |
| QueueManager.PromoteProcess | FileName.cpp:46-53 | no-op on an empty wait queue; otherwise the front entry leaves, the rest of the wait queue keeps its order, and the ready queue gains that entry's process, flagged, at its tail |
| QueueManager.PromoteFlattened | FileName.cpp:46-53 | in the list of all held processes (running, ready, waiting) nothing moves: only the released process gains the flag, in place |
| QueueManager.PromoteKeepsIds | FileName.cpp:46-53 | promotion changes no id anywhere in the manager |
| QueueManager.PromoteOrigins | FileName.cpp:48-50 | every process held after promotion was held before, possibly without the flag |
| QueueManager.SimulateRunningProcess | FileName.cpp:55-63 | on a non-empty ready queue the head runs and the rest stays in order; on an empty one the slot is cleared; the wait queue is unchanged |
| QueueManager.DispatchFlattened | FileName.cpp:55-63 | the held processes after dispatch are those before minus the previous occupant, which is never put back |
| QueueManager.DispatchDropsPrevious | FileName.cpp:55-63 | with distinct ids, the previous running process is in neither queue afterwards and is not running |
| QueueManager.Survivors | FileName.cpp:66-74 | every entry left after the countdown pass has a positive time, and none is added |
| QueueManager.Expired | FileName.cpp:66-71 | the released processes and the surviving entries together number exactly the wait queue's entries (which processes they are is stated by `CountdownConserves` and `ExpiredExactly`) |
| QueueManager.CountdownConserves | FileName.cpp:65-76 | the survivors' processes plus the released processes are the wait queue's processes, as a multiset |
| QueueManager.SurvivorsInOrder | FileName.cpp:66-74 | survivors keep their relative order and each lost exactly one tick |
| QueueManager.SurvivorsExactly | FileName.cpp:67-73 | an entry survives one tick down if and only if one tick down is still positive |
| QueueManager.ExpiredInOrder | FileName.cpp:66-71 | released processes keep their wait-queue order |
| QueueManager.ExpiredExactly | FileName.cpp:67-70 | a process is released if and only if one of its entries had at most one tick left |
| QueueManager.DecrementWaitTimes | FileName.cpp:65-76 | the old ready queue is a prefix of the new one; the wait queue does not grow and every remaining entry has a positive time; the running slot is unchanged |
| QueueManager.DecrementConserves | FileName.cpp:65-76 | the multiset of processes in ready plus wait is preserved |
| QueueManager.CountdownOfOne | FileName.cpp:65-76 | on a one-entry wait queue, the entry is released if it had at most one tick left, and otherwise stays one tick down |
| QueueManager.DecrementWaitTimesLoop | FileName.cpp:65-76 | the in-place iterator-and-erase loop computes the countdown pass |
| WaitQueue.DecrementNWait | FileName.cpp:65-76 | repeated countdown acts on the wait queue independently of the ready queue |
| WaitQueue.CountdownStep | FileName.cpp:67-73 | one countdown pass: a single entry with t > 1 ticks stays with t - 1 ticks; with t <= 1 its process leaves for the ready queue |
| WaitQueue.CountdownPrefix | FileName.cpp:65-76 | after k < d passes, an entry inserted with d ticks is still waiting, with d - k ticks |
| WaitQueue.CountdownLast | FileName.cpp:65-76 | the d-th pass releases an entry inserted with d ticks to the ready queue |
| WaitQueue.ExpiredJoinsReady | FileName.cpp:69-70 | a released process ends up in the ready queue and leaves the wait queue |
| WaitQueue.Countdown | FileName.cpp:65-76 | with no promotion between passes, an entry inserted with d >= 1 ticks waits through exactly d - 1 passes and leaves on the d-th |
| WaitQueue.PromotionReleasesInOrder | FileName.cpp:46-53 | k promotions in a row release the first k waiting processes, flagged, to the ready tail in wait-queue order, and the rest still wait |
| WaitQueue.PromotionDrains | FileName.cpp:46-53 | as many promotions as there are wait entries empty the wait queue and release every waiting process, flagged, in wait-queue order |
| Simulation.Seed | FileName.cpp:132-135 | n iterations of the seeding loop leave n ready processes, nothing waiting and nothing running |
| Simulation.SeedShape | FileName.cpp:132-135 | n steps of the seeding loop give ready = processes 1..n in id order, unpromoted and tagged by parity, with nothing waiting and nothing running |
| Simulation.SeedingBuildsInitialState | FileName.cpp:132-135 | the seeding loop of `main` builds the ten-process initial state |
| Simulation.SeedIds | FileName.cpp:132-135 | the seeded ids are distinct and are exactly 1..n |
| Simulation.Tick | FileName.cpp:117-120 | one tick (dispatch, sleep, countdown, promotion, in that order) never grows the wait queue |
| Simulation.TickRunsReadyHead | FileName.cpp:117-120 | the process running after a tick is the one that headed the ready queue when it began, or none if that queue was empty |
| Simulation.RunTicks | FileName.cpp:115-124 | any number of ticks in a row leaves the wait queue no longer than it started |
| Simulation.SameHoldings | FileName.cpp:117-120 | same running slot and a rearrangement of the queues means the same processes and the same ids |
| Simulation.TickConservesIds | FileName.cpp:117-120 | over one tick, the ids held are those held before, minus the id of the process running at the start |
| Simulation.TickKeepsIdsDistinct | FileName.cpp:117-120 | a tick keeps ids distinct, and the only id it can lose is that of the previous running process |
| Simulation.TickOrigins | FileName.cpp:117-120 | every process held after a tick was held before, possibly since promoted |
| Simulation.TickKeepsPromotion | FileName.cpp:117-120 | with distinct ids, a tick never clears a promotion flag and never changes a class tag |
| Simulation.RunTicksInvariant | FileName.cpp:115-124 | any number of ticks keeps ids distinct, never adds an id and never grows the wait queue |
| Simulation.SimulationFromSeed | FileName.cpp:132-140 | every run from the seeded state holds only ids 1..10, each at most once, with an empty wait queue after every tick |
| Simulation.RunFromDistinctIds | FileName.cpp:115-124 | any run from a state with an empty wait queue and distinct ids in 1..n keeps the wait queue empty and the ids distinct and within 1..n |
| Simulation.TickCount | FileName.cpp:55-63 | a tick loses exactly the process that was running when it began |
| Simulation.TickSettles | FileName.cpp:117-120 | a tick starting with an empty wait queue ends with an empty wait queue, and with a running process unless everything is empty |
| Simulation.SettledRunDrains | FileName.cpp:115-124 | from a settled state each tick loses one process until none is left |
| Simulation.ProcessesDrainAway | FileName.cpp:132-140 | from the seeded state, k >= 1 ticks leave max(0, 11 - k) processes |
| Simulation.DrainAfterFirstTick | FileName.cpp:115-124 | from an empty wait queue, the first tick loses the running process, if any, and every further tick loses one more until none is left |
| Simulation.TickWithEmptyWait | FileName.cpp:117-120 | a tick from an empty wait queue and at least two ready processes: the head runs, the drawn process moves to the ready tail (flagged unless its duration was 1), and the wait queue is empty again |
| Simulation.FirstTick | FileName.cpp:132-140 | the first tick from the seeded state runs process 1, moves the drawn process among 2..10 to the ready tail, and leaves the wait queue empty |

## Left out

- `displayQueues` and `to_string` (FileName.cpp:25-29, 78-109): console output only.
- `rand()` and `srand` (FileName.cpp:38-39, 129): the draws are parameters of any natural value. The bound `RAND_MAX` is not modelled; every value is reduced by `%` before use, as in the source.
- The wall-clock loop of `runSimulation` (FileName.cpp:111-125): `sleep_for` and the elapsed-time test are not modelled. A run is any finite sequence of ticks (`RunTicks`).
- Raw pointers and `new` without `delete` (FileName.cpp:21-23, 133): processes are values. The source sets the flag through a shared pointer; that is the same as updating the one copy, because ids stay distinct (proved by `TickKeepsIdsDistinct`).
- Integer widths: wait times are `int` in the source and stay within 0..10, and ids stay within 1..10. No overflow can occur, so unbounded integers are exact.
- The rest of the repository (its command interpreter and parallel sum runner): the queue manager does not call it, so it is not part of this model.
