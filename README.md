# CPU scheduling metrics engine

This project models the scheduling-metrics engine of a small C++ CPU scheduling simulator (`main.cpp`) in Dafny. The simulator takes a batch of processes, each with an id, a CPU burst and a priority. It runs the batch under five disciplines and reports each process's waiting and turnaround times, plus the average waiting and turnaround times:

- First-Come-First-Served (FCFS) runs the batch in arrival order.
- Shortest-Job-First (SJF) runs a sorted copy of the batch, shortest burst first.
- Priority runs a sorted copy of the batch, lowest priority number first.
- Round-Robin repeatedly sweeps the batch in arrival order. On each sweep every unfinished process gets at most one quantum of 4 time units.
- Multilevel queue splits the batch over three queues. Queue 0 runs Round-Robin, queue 1 FCFS and queue 2 SJF. Queue 1's average waiting time is offset by the total burst of queue 0, and queue 2's by the total burst of queues 0 and 1. The overall figure is the plain mean of the three queue averages.

Modules, one per file:

- `Processes` (`processes.dfy`): the process record, the constants `QUANTUM` and `NUM_QUEUES`, and the total-burst helper.
- `Metrics` (`metrics.dfy`):
  - the waiting-time recurrence shared by FCFS, SJF and Priority;
  - the turnaround loop;
  - the averaging step.
- `Sorting` (`sorting.dfy`): the two comparators, with an in-place insertion sort on an array standing for the library sort.
- `Disciplines` (`disciplines.dfy`): FCFS, SJF and Priority, with what their sorted copies guarantee.
- `RoundRobinSim` (`round_robin.dfy`): the sweep loop on arrays, proved against a closed form of each process's completion time.
- `Multilevel` (`multilevel.dfy`): the queue partition and the multilevel coordinator.

Loops of the source are `while` loops here, with invariants. The vectors the source fills by index become local arrays. The three queues that the multilevel discipline fills with `push_back` are sequences that the partition loop reassigns. The caller's batch is a `seq`: the source takes it by const reference and sorts only copies.

The Round-Robin completion time has a closed form. Let `Slots(b)` be ceil(b / 4), the sweep in which a process of burst `b` finishes. Process `i` then completes at the following time:
- each process up to and including `i` has received `min(burst, 4 * Slots(b_i))`;
- each later process has received `min(burst, 4 * (Slots(b_i) - 1))`;
- the completion time is the sum of all of these.

The sweep loop is proved to record exactly this value.

## Model

| member | source | states |
|---|---|---|
| Processes.TotalBurstTime | main.cpp:75-81 | The accumulated total is the sum of the bursts of the batch, and is at least the batch size. |
| Processes.BurstSumPermutation | main.cpp:75-81 | The total burst does not depend on the order of the batch. |
| Processes.BurstSumPrefixMonotone | main.cpp:95-97 | Extending a prefix of the batch by n processes adds at least n to its total burst. |
| Metrics.WaitingAndTurnaround | main.cpp:91-102 | The result keeps the given order. Every waiting time is the total burst of the processes before it, so the first is 0 and none is negative. Turnaround is waiting plus burst. |
| Metrics.Turnarounds | main.cpp:328-331 | Every turnaround time is its waiting time plus its burst. |
| Metrics.Averages | main.cpp:105-112 | For a non-empty schedule, the two averages are the exact means of the waiting and turnaround times. |
| Metrics.NonPreemptiveRecurrence | main.cpp:95-97 | In any schedule meeting the recurrence, the first waiting time is 0 and each later one is its predecessor's wait plus the predecessor's burst. |
| Metrics.NonPreemptiveWaitsGrow | main.cpp:95-97 | Later processes wait at least one unit longer per process ahead of them. |
| Metrics.NonPreemptiveMakespan | main.cpp:95-102 | The last process of a non-empty schedule turns around at the total burst of the batch. |
| Metrics.TurnaroundSum | main.cpp:100-110 | Total turnaround is total waiting plus total burst. |
| Metrics.MeanTurnaround | main.cpp:104-112 | Average turnaround is average waiting plus the mean burst. |
| Metrics.NonPreemptiveDependsOnBurstsOnly | main.cpp:160-171 | Two non-preemptive schedules whose bursts agree position by position have equal waiting and turnaround times. |
| Sorting.BurstComparatorIsStrictWeakOrder | main.cpp:142-144 | The burst comparator is `<` on the burst. It is irreflexive and transitive, with transitive incomparability: a strict weak ordering, as the library sort requires. |
| Sorting.PriorityComparatorIsStrictWeakOrder | main.cpp:220-222 | The priority comparator is `<` on the priority number, and is a strict weak ordering in the same sense. |
| Sorting.SortedMeansNoInversion | main.cpp:158 | In a sorted sequence, no later element compares less than an earlier one. |
| Sorting.Sort | main.cpp:158 | After the in-place sort, the array is ordered by the key and is a permutation of its old contents. |
| Sorting.Insert | main.cpp:158 | Given a sorted prefix of length i, the array ends with a sorted prefix of length i + 1. Its contents are a permutation of what it held, and the cells after i are unchanged. |
| Sorting.Swap | main.cpp:158 | Exchanging two neighbours changes exactly those two cells and keeps the contents as a multiset. |
| Disciplines.FirstComeFirstServed | main.cpp:89-102 | The order is the arrival order, and waiting and turnaround follow the recurrence. The first process waits 0 and no wait is negative. |
| Disciplines.SortedCopy | main.cpp:154-158 | The copy has the batch's length, is sorted by the key, and is a permutation of the batch. The caller's batch is a value and stays unchanged. |
| Disciplines.ShortestJobFirst | main.cpp:152-171 | The run order is a permutation of the batch sorted by burst, and its times follow the recurrence. The first wait is 0 and no wait is negative. |
| Disciplines.PriorityScheduling | main.cpp:214-235 | The run order is a permutation of the batch sorted by priority number, and its times follow the recurrence. The first wait is 0 and no wait is negative. |
| Disciplines.KeysPermutation | main.cpp:158 | Permuting processes permutes their keys. |
| Disciplines.SortedPermutationsEqual | main.cpp:158 | Two non-decreasing integer sequences that are permutations of each other are equal. |
| Disciplines.SortedCopiesAgreeOnKeys | main.cpp:155-158 | However ties are broken, two sorted permutations of a batch carry the same key at every position. |
| Disciplines.ShortestJobFirstDeterministic | main.cpp:155-171 | Any two SJF results for a batch agree on every waiting and turnaround time. |
| Disciplines.SortedRunEndsAtTotalBurst | main.cpp:155-171 | In a non-empty SJF or Priority run, the last process turns around at the total burst of the batch, just as under FCFS. |
| Disciplines.PriorityTieOrderMatters | main.cpp:217-230 | Two valid priority orders of one batch differ only in how they order an equal-priority pair, yet the second process waits 5 in one and 8 in the other. |
| Disciplines.FirstComeFirstServedExample | main.cpp:89-112 | The batch of bursts 5, 3 and 8 under FCFS waits 0, 5 and 8, turns around at 5, 8 and 16, and averages a wait of 13/3. |
| Disciplines.ShortestJobFirstExample | main.cpp:152-171 | The same batch under SJF, whatever the sort does, waits 0, 3 and 8 and turns around at 3, 8 and 16. |
| RoundRobinSim.Slots | main.cpp:302-317 | A process finishes in sweep r, where 4(r - 1) < burst <= 4r. |
| RoundRobinSim.RrCompletionAtLeastBurst | main.cpp:313-314 | No process completes before it has run its own burst, so its waiting time is never negative. |
| RoundRobinSim.ConsumedUpdate | main.cpp:302-317 | Lowering one remaining burst advances the work consumed by exactly the amount removed. This is how each slot keeps the clock equal to the work done. |
| RoundRobinSim.ConsumedPlusRemaining | main.cpp:285-318 | The work consumed plus the remaining bursts is the total burst. |
| RoundRobinSim.ConsumedInSweep | main.cpp:293-320 | Partway through a sweep, the work consumed is given by the closed form: processes already visited have had one sweep more. |
| RoundRobinSim.SweepStateInvariants | main.cpp:285-318 | The invariants the sweep loop keeps: 0 <= remaining[i] <= burst[i], the clock equals the sum of (burst - remaining), and the clock plus the remaining bursts equals the total burst. |
| RoundRobinSim.InitialSweepState | main.cpp:281-290 | Before the loop, every process has its whole burst left, its waiting and completion cells are 0, the clock is 0, and the loop invariant holds. |
| RoundRobinSim.RemainingStep | main.cpp:299-318 | Visiting a process lowers its remaining burst by the quantum, or to 0 when at most a quantum is left. That decrease is exactly what the closed form serves it in this sweep. A process with at most a quantum left finishes in its closed-form sweep. |
| RoundRobinSim.SkipStep | main.cpp:299 | A finished process is skipped, and the clock does not move. |
| RoundRobinSim.QuantumStep | main.cpp:302-307 | A process with more than a quantum left runs one quantum, and the clock advances by 4. |
| RoundRobinSim.FinishStep | main.cpp:308-317 | A process with at most a quantum left runs to completion. Its completion is the closed form and its waiting time is completion minus burst. |
| RoundRobinSim.SweepWraps | main.cpp:293-297 | The state at the end of one sweep is the state at the start of the next. |
| RoundRobinSim.NextSweep | main.cpp:293-325 | A sweep that ran something starts the next sweep with a strictly smaller, non-negative sum of remaining bursts. This is the loop's termination measure. |
| RoundRobinSim.LastSweepClock | main.cpp:322-324 | When a sweep finds nothing to run, the clock stands at the total burst. |
| RoundRobinSim.LastSweep | main.cpp:313-325 | When the loop stops, every process is finished. Every completion is the closed form, every waiting time is completion minus burst and non-negative, and no completion exceeds the total burst. In a non-empty batch some completion equals it. |
| RoundRobinSim.RunSlot | main.cpp:299-318 | One slot keeps the loop invariant, including that an unfinished process's waiting and completion cells are still 0. It leaves the clock alone for a finished process and advances it otherwise. |
| RoundRobinSim.Sweep | main.cpp:294-320 | A full sweep keeps the invariant: finished processes carry their closed-form times, unfinished ones still have 0. `done` stays true only if every process was already finished, and a sweep that clears `done` advances the clock. |
| RoundRobinSim.SweepOrStop | main.cpp:293-324 | One pass of the `while (true)` loop either stops with the final outcome or starts the next sweep with less work remaining. |
| RoundRobinSim.Simulate | main.cpp:290-325 | The loop terminates with every remaining burst 0 and the Round-Robin outcome recorded. |
| RoundRobinSim.RoundRobin | main.cpp:278-331 | The Round-Robin result holds in full. Order is arrival order and turnaround is waiting plus burst. Each completion equals the closed form and is waiting plus burst. No wait is negative and no completion exceeds the total burst. In a non-empty batch the largest completion equals it. |
| RoundRobinSim.RrMatchesFcfsForShortBursts | main.cpp:302-317 | When no burst exceeds the quantum, Round-Robin completes each process exactly when FCFS turns it around. |
| RoundRobinSim.SingleProcessTwoSweeps | main.cpp:293-325 | A single process of burst 5 has 1 left at time 4 after the first sweep. It finishes at time 5 in the second, having waited 0. |
| Multilevel.QueueOfStep | main.cpp:380-383 | Taking one more process appends it to the queue it was assigned to, and to no other. |
| Multilevel.Partition | main.cpp:376-383 | The loop builds three queues, each holding exactly the processes assigned to it. |
| Multilevel.QueueSizes | main.cpp:380-383 | The three queue sizes add up to the batch size. |
| Multilevel.QueuesPartitionBatch | main.cpp:380-383 | The three queues hold, together, exactly the processes of the batch. |
| Multilevel.QueueBurstSums | main.cpp:380-383 | The three queues' total bursts add up to the batch's total burst. |
| Multilevel.IndicesFacts | main.cpp:380-383 | A queue's positions are in range and strictly increasing. A position belongs to queue q exactly when its process was assigned to q. |
| Multilevel.QueueAtIndices | main.cpp:380-383 | Queue q is the batch read at q's positions. |
| Multilevel.QueueIsSubsequence | main.cpp:380-383 | Every process lands in exactly the queue it was assigned to, and each queue is a subsequence of the batch in arrival order. |
| Multilevel.RunQueueZero | main.cpp:396-402 | An empty queue 0 reports 0. A non-empty one runs Round-Robin: waits are closed-form completion minus burst, and it reports their mean. |
| Multilevel.RunQueueOne | main.cpp:405-415 | An empty queue 1 reports 0. A non-empty one runs FCFS and reports its mean wait plus the offset. |
| Multilevel.RunQueueTwo | main.cpp:418-428 | An empty queue 2 reports 0. A non-empty one runs SJF on a sorted permutation and reports its mean wait plus the offset. |
| Multilevel.MultilevelQueueScheduling | main.cpp:374-442 | Queues follow the assignment. Queue 1's offset is queue 0's total burst, and queue 2's is the sum of queues 0 and 1. The overall average is the sum of the three queue averages divided by NUM_QUEUES. |
| Multilevel.OffsetWaitIsDrainTime | main.cpp:409-411 | A process's offset wait is exactly its wait if the queues ahead had run to completion first and then its own queue had run in order. |

## Left out

- Console output is not modelled: the tables of `displayProcesses` and of every discipline, and the menu, prompts and input handling of `main`.
- `generateProcesses` and the seeding of `rand` from the clock are not modelled. The batch is an input. Its bursts are typed as at least 1, which is what the generator guarantees.
- The random queue draw of the multilevel discipline is an input: `assignment[i]` in [0, NUM_QUEUES) is process i's queue.
- Floating point: times are integers, and averages are exact rationals computed from integer sums. Rounding of `double` and fixed-point printing are not modelled.
- 32-bit `int` overflow is not modelled: integers here are unbounded. The source's generated batches are far too small to overflow.
- Disciplines.FirstComeFirstServed, Disciplines.ShortestJobFirst, Disciplines.PriorityScheduling and RoundRobinSim.RoundRobin return the per-process schedule. Their closing average is Metrics.Averages, which needs a non-empty schedule: for N = 0 the source divides 0 by 0.
- Sorting.Sort is an insertion sort standing for `std::sort`. `std::sort` (main.cpp:158, main.cpp:220) is not stable, so only sortedness and permutation are promised and no tie order is modelled. Disciplines.ShortestJobFirstDeterministic shows SJF's times do not depend on the tie order. Disciplines.PriorityTieOrderMatters shows Priority's can.
