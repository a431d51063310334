/** The multilevel-queue coordinator: the batch is split over three
    queues, queue 0 runs Round-Robin, queue 1 First-Come-First-Served and
    queue 2 Shortest-Job-First, and each later queue's average waiting
    time is offset by the bursts of the queues before it. The random draw
    that picks each process's queue is an input: `assignment[i]` is the
    queue of process i. */
module Multilevel {
  import opened Processes
  import opened Metrics
  import opened Sorting
  import opened Disciplines
  import opened RoundRobinSim

  /** Every process is given one of the NUM_QUEUES queues. */
  predicate ValidAssignment(ps: seq<Process>, assignment: seq<int>)
  {
    |assignment| == |ps| &&
    forall i :: 0 <= i < |assignment| ==> 0 <= assignment[i] < NUM_QUEUES
  }

  /** The processes assigned to queue `q`, in arrival order. */
  function QueueOf(ps: seq<Process>, assignment: seq<int>, q: int): (queue: seq<Process>)
    requires |assignment| == |ps|
    ensures |queue| <= |ps|
  {
    if ps == [] then []
    else
      var n := |ps| - 1;
      QueueOf(ps[..n], assignment[..n], q) + (if assignment[n] == q then [ps[n]] else [])
  }

  /** The positions in the batch of the processes assigned to queue `q`. */
  function Indices(assignment: seq<int>, q: int): (positions: seq<int>)
  {
    if assignment == [] then []
    else
      var n := |assignment| - 1;
      Indices(assignment[..n], q) + (if assignment[n] == q then [n] else [])
  }

  /** Taking one more process of the batch appends it to its own queue only. */
  lemma QueueOfStep(ps: seq<Process>, assignment: seq<int>, i: int, q: int)
    requires |assignment| == |ps| && 0 <= i < |ps|
    ensures QueueOf(ps[..i + 1], assignment[..i + 1], q)
         == QueueOf(ps[..i], assignment[..i], q) + (if assignment[i] == q then [ps[i]] else [])
  {
    assert ps[..i + 1][..i] == ps[..i];
    assert assignment[..i + 1][..i] == assignment[..i];
  }

  /** The loop that pushes every process onto the back of its queue. */
  method Partition(ps: seq<Process>, assignment: seq<int>) returns (queues: seq<seq<Process>>)
    requires ValidAssignment(ps, assignment)
    ensures |queues| == NUM_QUEUES
    ensures forall q :: 0 <= q < NUM_QUEUES ==> queues[q] == QueueOf(ps, assignment, q)
  {
    queues := [[], [], []];
    var i := 0;
    while i < |ps|
      invariant 0 <= i <= |ps|
      invariant |queues| == NUM_QUEUES
      invariant forall q :: 0 <= q < NUM_QUEUES ==> queues[q] == QueueOf(ps[..i], assignment[..i], q)
    {
      var q := assignment[i];
      forall r | 0 <= r < NUM_QUEUES
        ensures QueueOf(ps[..i + 1], assignment[..i + 1], r)
             == QueueOf(ps[..i], assignment[..i], r) + (if assignment[i] == r then [ps[i]] else [])
      {
        QueueOfStep(ps, assignment, i, r);
      }
      queues := queues[q := queues[q] + [ps[i]]];
      i := i + 1;
    }
    assert ps[..|ps|] == ps && assignment[..|ps|] == assignment;
  }

  /** The queue sizes add up to the batch size. */
  lemma {:induction false} QueueSizes(ps: seq<Process>, assignment: seq<int>)
    requires ValidAssignment(ps, assignment)
    ensures |QueueOf(ps, assignment, 0)| + |QueueOf(ps, assignment, 1)| + |QueueOf(ps, assignment, 2)| == |ps|
    decreases |ps|
  {
    if ps != [] {
      var n := |ps| - 1;
      QueueSizes(ps[..n], assignment[..n]);
    }
  }

  /** Together the three queues hold exactly the processes of the batch. */
  lemma {:induction false} QueuesPartitionBatch(ps: seq<Process>, assignment: seq<int>)
    requires ValidAssignment(ps, assignment)
    ensures multiset(QueueOf(ps, assignment, 0)) + multiset(QueueOf(ps, assignment, 1))
            + multiset(QueueOf(ps, assignment, 2)) == multiset(ps)
    decreases |ps|
  {
    if ps != [] {
      var n := |ps| - 1;
      assert ps == ps[..n] + [ps[n]];
      assert multiset(ps) == multiset(ps[..n]) + multiset{ps[n]};
      QueuesPartitionBatch(ps[..n], assignment[..n]);
      var q0, q1, q2 := QueueOf(ps[..n], assignment[..n], 0), QueueOf(ps[..n], assignment[..n], 1),
                        QueueOf(ps[..n], assignment[..n], 2);
      if assignment[n] == 0 {
        assert QueueOf(ps, assignment, 0) == q0 + [ps[n]];
        assert QueueOf(ps, assignment, 1) == q1 && QueueOf(ps, assignment, 2) == q2;
      } else if assignment[n] == 1 {
        assert QueueOf(ps, assignment, 1) == q1 + [ps[n]];
        assert QueueOf(ps, assignment, 0) == q0 && QueueOf(ps, assignment, 2) == q2;
      } else {
        assert QueueOf(ps, assignment, 2) == q2 + [ps[n]];
        assert QueueOf(ps, assignment, 0) == q0 && QueueOf(ps, assignment, 1) == q1;
      }
    }
  }

  /** Together the three queues need exactly the CPU time of the batch. */
  lemma {:induction false} QueueBurstSums(ps: seq<Process>, assignment: seq<int>)
    requires ValidAssignment(ps, assignment)
    ensures BurstSum(QueueOf(ps, assignment, 0)) + BurstSum(QueueOf(ps, assignment, 1))
            + BurstSum(QueueOf(ps, assignment, 2)) == BurstSum(ps)
    decreases |ps|
  {
    if ps != [] {
      var n := |ps| - 1;
      QueueBurstSums(ps[..n], assignment[..n]);
      forall q | 0 <= q < NUM_QUEUES
        ensures BurstSum(QueueOf(ps, assignment, q))
             == BurstSum(QueueOf(ps[..n], assignment[..n], q)) + (if assignment[n] == q then ps[n].burstTime else 0)
      {
        var tail := if assignment[n] == q then [ps[n]] else [];
        BurstSumAppend(QueueOf(ps[..n], assignment[..n], q), tail);
        assert tail != [] ==> tail[..0] == [];
      }
    }
  }

  /** The positions of a queue are in range, strictly increasing, and a
      position belongs to queue `q` exactly when the process there was
      assigned to `q`. */
  lemma {:induction false} IndicesFacts(assignment: seq<int>, q: int)
    ensures forall k :: 0 <= k < |Indices(assignment, q)| ==>
              0 <= Indices(assignment, q)[k] < |assignment| && assignment[Indices(assignment, q)[k]] == q
    ensures forall k, l :: 0 <= k < l < |Indices(assignment, q)| ==> Indices(assignment, q)[k] < Indices(assignment, q)[l]
    ensures forall i :: 0 <= i < |assignment| ==> (assignment[i] == q <==> i in Indices(assignment, q))
    decreases |assignment|
  {
    if assignment != [] {
      var n := |assignment| - 1;
      IndicesFacts(assignment[..n], q);
    }
  }

  /** Queue `q` is the subsequence of the batch at the positions of `q`. */
  lemma {:induction false} QueueAtIndices(ps: seq<Process>, assignment: seq<int>, q: int)
    requires |assignment| == |ps|
    ensures |Indices(assignment, q)| == |QueueOf(ps, assignment, q)|
    ensures forall k :: 0 <= k < |Indices(assignment, q)| ==>
              0 <= Indices(assignment, q)[k] < |ps| && QueueOf(ps, assignment, q)[k] == ps[Indices(assignment, q)[k]]
    decreases |ps|
  {
    if ps != [] {
      var n := |ps| - 1;
      QueueAtIndices(ps[..n], assignment[..n], q);
    }
  }

  /** Each process of the batch lands in exactly one queue, and each queue
      keeps the arrival order of the batch. */
  lemma QueueIsSubsequence(ps: seq<Process>, assignment: seq<int>, q: int)
    requires ValidAssignment(ps, assignment)
    ensures var queue, idx := QueueOf(ps, assignment, q), Indices(assignment, q);
            |idx| == |queue| &&
            (forall k :: 0 <= k < |idx| ==> 0 <= idx[k] < |ps| && queue[k] == ps[idx[k]] && assignment[idx[k]] == q) &&
            (forall k, l :: 0 <= k < l < |idx| ==> idx[k] < idx[l]) &&
            (forall i :: 0 <= i < |ps| ==> (assignment[i] == q <==> i in idx))
  {
    IndicesFacts(assignment, q);
    QueueAtIndices(ps, assignment, q);
  }

  /** What the coordinator reports: the queues, the schedule each queue
      produced (empty for an empty queue), each queue's average waiting
      time with its offset, and the overall average. */
  datatype MultilevelReport = MultilevelReport(queues: seq<seq<Process>>, schedules: seq<Schedule>,
                                               averages: seq<real>, overall: real)

  /** Queue 0 ran Round-Robin: each process waits its closed-form
      completion time minus its burst, and the reported average is the mean
      waiting time, or 0 for an empty queue. */
  predicate QueueZeroRun(q0: seq<Process>, s: Schedule, avg: real)
  {
    s.order == q0 && TurnaroundConsistent(s) &&
    (forall i :: 0 <= i < |q0| ==> s.waiting[i] == RrCompletion(q0, i) - q0[i].burstTime) &&
    avg == if q0 == [] then 0.0 else Mean(s.waiting)
  }

  /** Queue 1 ran First-Come-First-Served, and its reported average is
      its mean waiting time plus `offset`, or 0 for an empty queue. */
  predicate QueueOneRun(q1: seq<Process>, offset: int, s: Schedule, avg: real)
  {
    s.order == q1 && IsNonPreemptive(s) &&
    avg == if q1 == [] then 0.0 else Mean(s.waiting) + offset as real
  }

  /** Queue 2 ran Shortest-Job-First, and its reported average is its mean
      waiting time plus `offset`, or 0 for an empty queue. */
  predicate QueueTwoRun(q2: seq<Process>, offset: int, s: Schedule, avg: real)
  {
    |s.order| == |q2| && SortedBy(s.order, ByBurstTime) && multiset(s.order) == multiset(q2) &&
    IsNonPreemptive(s) &&
    avg == if q2 == [] then 0.0 else Mean(s.waiting) + offset as real
  }

  /** Queue 0: Round-Robin on a non-empty queue; an empty queue reports an
      average of 0 and an empty schedule. */
  method RunQueueZero(q0: seq<Process>) returns (s: Schedule, avg: real)
    ensures QueueZeroRun(q0, s, avg)
  {
    s, avg := Schedule([], [], []), 0.0;
    if q0 != [] {
      var completion, avgTurnaround;
      s, completion := RoundRobin(q0);
      avg, avgTurnaround := Averages(s);
    }
  }

  /** Queue 1: First-Come-First-Served on a non-empty queue, with the
      total burst of queue 0 added to its average. */
  method RunQueueOne(q1: seq<Process>, offset: int) returns (s: Schedule, avg: real)
    ensures QueueOneRun(q1, offset, s, avg)
  {
    s, avg := Schedule([], [], []), 0.0;
    if q1 != [] {
      var avgTurnaround;
      s := FirstComeFirstServed(q1);
      avg, avgTurnaround := Averages(s);
      avg := avg + offset as real;
    }
  }

  /** Queue 2: Shortest-Job-First on a non-empty queue, with the total
      burst of queues 0 and 1 added to its average. */
  method RunQueueTwo(q2: seq<Process>, offset: int) returns (s: Schedule, avg: real)
    ensures QueueTwoRun(q2, offset, s, avg)
  {
    s, avg := Schedule([], [], []), 0.0;
    if q2 != [] {
      var avgTurnaround;
      s := ShortestJobFirst(q2);
      avg, avgTurnaround := Averages(s);
      avg := avg + offset as real;
    }
  }

  /** The source's multilevel-queue discipline, with the random queue
      draws supplied as `assignment`: each queue holds the processes
      assigned to it, runs its own discipline with the offset of the
      queues ahead of it, and the overall average is the plain mean of the
      three queue averages. */
  method MultilevelQueueScheduling(ps: seq<Process>, assignment: seq<int>) returns (r: MultilevelReport)
    requires ValidAssignment(ps, assignment)
    ensures |r.queues| == NUM_QUEUES && |r.schedules| == NUM_QUEUES && |r.averages| == NUM_QUEUES
    ensures forall q :: 0 <= q < NUM_QUEUES ==> r.queues[q] == QueueOf(ps, assignment, q)
    ensures QueueZeroRun(r.queues[0], r.schedules[0], r.averages[0])
    ensures QueueOneRun(r.queues[1], BurstSum(r.queues[0]), r.schedules[1], r.averages[1])
    ensures QueueTwoRun(r.queues[2], BurstSum(r.queues[0]) + BurstSum(r.queues[1]), r.schedules[2], r.averages[2])
    ensures r.overall == (r.averages[0] + r.averages[1] + r.averages[2]) / NUM_QUEUES as real
  {
    var queues := Partition(ps, assignment);
    var s0, avg0 := RunQueueZero(queues[0]);
    var burst0 := TotalBurstTime(queues[0]);
    var s1, avg1 := RunQueueOne(queues[1], burst0);
    var burst1 := TotalBurstTime(queues[1]);
    var s2, avg2 := RunQueueTwo(queues[2], burst0 + burst1);
    var overall := (avg0 + avg1 + avg2) / NUM_QUEUES as real;
    r := MultilevelReport(queues, [s0, s1, s2], [avg0, avg1, avg2], overall);
  }

  /** The offset is the drain time of the queues ahead: a process of a
      later queue, offset by the bursts of `ahead`, waits exactly as long
      as it would if `ahead` had run to completion first and then its own
      queue had run in its schedule's order. */
  lemma OffsetWaitIsDrainTime(ahead: seq<Process>, s: Schedule, i: int)
    requires IsNonPreemptive(s)
    requires 0 <= i < |s.order|
    ensures s.waiting[i] + BurstSum(ahead) == BurstSum((ahead + s.order)[..|ahead| + i])
  {
    assert (ahead + s.order)[..|ahead| + i] == ahead + s.order[..i];
    BurstSumAppend(ahead, s.order[..i]);
  }
}
