/** Waiting and turnaround times of a non-preemptive, gap-free schedule,
    and the averaging step every discipline ends with. */
module Metrics {
  import opened Processes

  /** The per-process times of one run, aligned with `order`, the order in
      which the processes were scheduled. */
  datatype Schedule = Schedule(order: seq<Process>, waiting: seq<int>, turnaround: seq<int>)

  /** Turnaround is waiting plus burst for every process of the schedule. */
  predicate TurnaroundConsistent(s: Schedule)
  {
    |s.waiting| == |s.order| && |s.turnaround| == |s.order| &&
    forall i :: 0 <= i < |s.order| ==> s.turnaround[i] == s.waiting[i] + s.order[i].burstTime
  }

  /** Each process waits exactly for the bursts of everything scheduled before it. */
  predicate IsNonPreemptive(s: Schedule)
  {
    TurnaroundConsistent(s) &&
    forall i :: 0 <= i < |s.order| ==> s.waiting[i] == BurstSum(s.order[..i])
  }

  /** The arithmetic mean of a non-empty sequence of times. */
  function Mean(xs: seq<int>): (mean: real)
    requires |xs| > 0
  {
    Sum(xs) as real / |xs| as real
  }

  /** The two index loops that fill the waiting and turnaround vectors of
      the FCFS, SJF and Priority disciplines for processes run in `order`. */
  method WaitingAndTurnaround(order: seq<Process>) returns (s: Schedule)
    ensures s.order == order
    ensures IsNonPreemptive(s)
    ensures forall i :: 0 <= i < |order| ==> s.waiting[i] >= 0
    ensures |order| > 0 ==> s.waiting[0] == 0
  {
    var n := |order|;
    var waiting := new int[n](_ => 0);
    if n > 0 {
      assert order[..0] == [];
    }
    var i := 1;
    while i < n
      invariant n == 0 || 1 <= i <= n
      invariant forall k :: 0 <= k < i && k < n ==> waiting[k] == BurstSum(order[..k])
    {
      BurstSumPrefixStep(order, i - 1);
      waiting[i] := waiting[i - 1] + order[i - 1].burstTime;
      i := i + 1;
    }
    var turnaround := Turnarounds(order, waiting[..]);
    s := Schedule(order, waiting[..], turnaround);
  }

  /** The loop every discipline ends with: turnaround is waiting plus burst. */
  method Turnarounds(order: seq<Process>, waiting: seq<int>) returns (turnaround: seq<int>)
    requires |waiting| == |order|
    ensures TurnaroundConsistent(Schedule(order, waiting, turnaround))
  {
    var n := |order|;
    var t := new int[n](_ => 0);
    var i := 0;
    while i < n
      invariant 0 <= i <= n
      invariant forall k :: 0 <= k < i ==> t[k] == waiting[k] + order[k].burstTime
    {
      t[i] := waiting[i] + order[i].burstTime;
      i := i + 1;
    }
    turnaround := t[..];
  }

  /** The accumulation loop and the divisions by N that end every discipline,
      on exact sums instead of floating point. The source divides by zero
      when N is 0, so an empty schedule has no average. */
  method Averages(s: Schedule) returns (avgWaiting: real, avgTurnaround: real)
    requires |s.waiting| > 0 && |s.turnaround| == |s.waiting|
    ensures avgWaiting == Mean(s.waiting)
    ensures avgTurnaround == Mean(s.turnaround)
  {
    var n := |s.waiting|;
    var totalWaiting, totalTurnaround := 0, 0;
    var i := 0;
    while i < n
      invariant 0 <= i <= n
      invariant totalWaiting == Sum(s.waiting[..i])
      invariant totalTurnaround == Sum(s.turnaround[..i])
    {
      assert s.waiting[..i + 1][..i] == s.waiting[..i];
      assert s.turnaround[..i + 1][..i] == s.turnaround[..i];
      totalWaiting := totalWaiting + s.waiting[i];
      totalTurnaround := totalTurnaround + s.turnaround[i];
      i := i + 1;
    }
    assert s.waiting[..n] == s.waiting;
    assert s.turnaround[..n] == s.turnaround;
    avgWaiting := totalWaiting as real / n as real;
    avgTurnaround := totalTurnaround as real / n as real;
  }

  /** The recurrence of the waiting-time loop: nothing waits before the
      first process, and each later one waits for its predecessor's wait
      plus its predecessor's burst. */
  lemma NonPreemptiveRecurrence(s: Schedule, i: int)
    requires IsNonPreemptive(s)
    requires 0 <= i < |s.order|
    ensures i == 0 ==> s.waiting[i] == 0
    ensures i > 0 ==> s.waiting[i] == s.waiting[i - 1] + s.order[i - 1].burstTime
  {
    if i > 0 {
      BurstSumPrefixStep(s.order, i - 1);
    }
  }

  /** Later processes never wait less, and each waits at least one unit
      per process ahead of it. */
  lemma NonPreemptiveWaitsGrow(s: Schedule, i: int, j: int)
    requires IsNonPreemptive(s)
    requires 0 <= i <= j < |s.order|
    ensures s.waiting[i] + (j - i) <= s.waiting[j]
  {
    BurstSumPrefixMonotone(s.order, i, j);
  }

  /** The last process of a non-empty schedule completes exactly when the
      whole batch has run. */
  lemma NonPreemptiveMakespan(s: Schedule)
    requires IsNonPreemptive(s)
    requires |s.order| > 0
    ensures s.turnaround[|s.order| - 1] == BurstSum(s.order)
  {
    var n := |s.order|;
    BurstSumPrefixStep(s.order, n - 1);
    assert s.order[..n] == s.order;
  }

  /** Over a whole schedule, total turnaround is total waiting plus total burst. */
  lemma {:induction false} TurnaroundSum(s: Schedule)
    requires TurnaroundConsistent(s)
    ensures Sum(s.turnaround) == Sum(s.waiting) + BurstSum(s.order)
    decreases |s.order|
  {
    var n := |s.order|;
    if n > 0 {
      var s' := Schedule(s.order[..n - 1], s.waiting[..n - 1], s.turnaround[..n - 1]);
      TurnaroundSum(s');
    }
  }

  /** The average turnaround exceeds the average waiting time by the mean burst. */
  lemma MeanTurnaround(s: Schedule)
    requires TurnaroundConsistent(s)
    requires |s.order| > 0
    ensures Mean(s.turnaround) == Mean(s.waiting) + BurstSum(s.order) as real / |s.order| as real
  {
    TurnaroundSum(s);
  }

  /** Two schedules whose orders have the same burst times position by
      position produce the same waiting and turnaround times. */
  lemma NonPreemptiveDependsOnBurstsOnly(s: Schedule, t: Schedule)
    requires IsNonPreemptive(s) && IsNonPreemptive(t)
    requires |s.order| == |t.order|
    requires forall i :: 0 <= i < |s.order| ==> s.order[i].burstTime == t.order[i].burstTime
    ensures s.waiting == t.waiting && s.turnaround == t.turnaround
  {
    forall i | 0 <= i < |s.order|
      ensures s.waiting[i] == t.waiting[i]
    {
      BurstSumSameBursts(s.order[..i], t.order[..i]);
    }
  }
}
