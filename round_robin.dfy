/** Round-Robin: repeated full sweeps over the batch in arrival order,
    each unfinished process getting at most one quantum per sweep. */
module RoundRobinSim {
  import opened Processes
  import opened Metrics

  /** CPU time a process of burst `b` has received after `sweeps` full
      sweeps: one quantum per sweep, until its burst is used up. */
  function Served(b: int, sweeps: nat): (served: int)
  {
    if b <= QUANTUM * sweeps then b else QUANTUM * sweeps
  }

  /** Total CPU time the processes of `ps` have received after `sweeps` sweeps. */
  function ServedSum(ps: seq<Process>, sweeps: nat): (total: int)
    ensures total >= 0
  {
    if ps == [] then 0 else ServedSum(ps[..|ps| - 1], sweeps) + Served(ps[|ps| - 1].burstTime, sweeps)
  }

  /** The sweep in which a process of burst `b` finishes: a ceiling division by the quantum. */
  function Slots(b: Burst): (r: nat)
    ensures r >= 1
    ensures QUANTUM * (r - 1) < b <= QUANTUM * r
  {
    (b + QUANTUM - 1) / QUANTUM
  }

  /** Closed form of the completion time of process `i`: it finishes in
      sweep r = Slots(burst), when every process up to and including it has
      had r sweeps and every later one r - 1. */
  function RrCompletion(ps: seq<Process>, i: int): (completion: int)
    requires 0 <= i < |ps|
  {
    var r := Slots(ps[i].burstTime);
    ServedSum(ps[..i + 1], r) + ServedSum(ps[i + 1..], r - 1)
  }

  /** Work consumed so far: the sum over all processes of burst minus remaining burst. */
  function Consumed(ps: seq<Process>, remaining: seq<int>): (consumed: int)
    requires |remaining| == |ps|
  {
    if ps == [] then 0
    else Consumed(ps[..|ps| - 1], remaining[..|ps| - 1]) + ps[|ps| - 1].burstTime - remaining[|ps| - 1]
  }

  lemma {:induction false} ServedSumAppend(a: seq<Process>, b: seq<Process>, sweeps: nat)
    ensures ServedSum(a + b, sweeps) == ServedSum(a, sweeps) + ServedSum(b, sweeps)
    decreases |b|
  {
    if b == [] {
      assert a + b == a;
    } else {
      var b' := b[..|b| - 1];
      assert (a + b)[..|a + b| - 1] == a + b';
      ServedSumAppend(a, b', sweeps);
    }
  }

  /** Moving the sweep front past process `i` adds what `i` gets in this sweep. */
  lemma ServedSumStep(ps: seq<Process>, i: int, sweeps: nat)
    requires 0 <= i < |ps|
    ensures ServedSum(ps[..i + 1], sweeps + 1) + ServedSum(ps[i + 1..], sweeps)
         == ServedSum(ps[..i], sweeps + 1) + ServedSum(ps[i..], sweeps)
            + Served(ps[i].burstTime, sweeps + 1) - Served(ps[i].burstTime, sweeps)
  {
    assert ps[..i + 1][..i] == ps[..i];
    assert ps[i..] == [ps[i]] + ps[i + 1..];
    ServedSumAppend([ps[i]], ps[i + 1..], sweeps);
    assert [ps[i]][..0] == [];
  }

  /** Once every process has received its whole burst, the CPU has run for the total burst. */
  lemma {:induction false} ServedSumAllDone(ps: seq<Process>, sweeps: nat)
    requires forall j :: 0 <= j < |ps| ==> Served(ps[j].burstTime, sweeps) == ps[j].burstTime
    ensures ServedSum(ps, sweeps) == BurstSum(ps)
    decreases |ps|
  {
    if ps != [] {
      ServedSumAllDone(ps[..|ps| - 1], sweeps);
    }
  }

  /** Lowering one remaining burst from remaining[i] to v consumes the difference. */
  lemma {:induction false} ConsumedUpdate(ps: seq<Process>, remaining: seq<int>, i: int, v: int)
    requires |remaining| == |ps|
    requires 0 <= i < |ps|
    ensures Consumed(ps, remaining[i := v]) == Consumed(ps, remaining) + remaining[i] - v
    decreases |ps|
  {
    var n := |ps|;
    if i == n - 1 {
      assert remaining[i := v][..n - 1] == remaining[..n - 1];
    } else {
      assert remaining[i := v][..n - 1] == remaining[..n - 1][i := v];
      ConsumedUpdate(ps[..n - 1], remaining[..n - 1], i, v);
    }
  }

  /** Consumed work plus remaining work is the total burst. */
  lemma {:induction false} ConsumedPlusRemaining(ps: seq<Process>, remaining: seq<int>)
    requires |remaining| == |ps|
    ensures Consumed(ps, remaining) + Sum(remaining) == BurstSum(ps)
    decreases |ps|
  {
    if ps != [] {
      ConsumedPlusRemaining(ps[..|ps| - 1], remaining[..|ps| - 1]);
    }
  }

  /** A process never completes before it has run its own burst. */
  lemma RrCompletionAtLeastBurst(ps: seq<Process>, i: int)
    requires 0 <= i < |ps|
    ensures RrCompletion(ps, i) >= ps[i].burstTime
  {
    assert ps[..i + 1][..i] == ps[..i];
  }

  /** Remaining burst of a process of burst `b` after `sweeps` full sweeps. */
  function Left(b: int, sweeps: nat): (left: int)
  {
    b - Served(b, sweeps)
  }

  /** Every finished process has its closed-form completion time, and its
      waiting time is that completion time minus its burst; an unfinished
      process still has both times at their initial 0. */
  ghost predicate FinishedCorrectly(ps: seq<Process>, remaining: seq<int>, waiting: seq<int>, completion: seq<int>)
    requires |remaining| == |waiting| == |completion| == |ps|
  {
    (forall j :: 0 <= j < |ps| && remaining[j] == 0 ==>
       completion[j] == RrCompletion(ps, j) && waiting[j] == completion[j] - ps[j].burstTime) &&
    (forall j :: 0 <= j < |ps| && remaining[j] > 0 ==> waiting[j] == 0 && completion[j] == 0)
  }

  /** The remaining bursts when the sweep numbered `sweeps + 1` has
      visited the processes before `front`. */
  ghost predicate RemainingAt(ps: seq<Process>, remaining: seq<int>, front: int, sweeps: nat)
  {
    |remaining| == |ps| && 0 <= front <= |ps| &&
    (forall j :: 0 <= j < front ==> remaining[j] == Left(ps[j].burstTime, sweeps + 1)) &&
    (forall j :: front <= j < |ps| ==> remaining[j] == Left(ps[j].burstTime, sweeps))
  }

  /** No recorded completion lies in the future, and when the clock has
      stopped advancing for good the last slot was a completion. */
  ghost predicate ClockFacts(ps: seq<Process>, remaining: seq<int>, completion: seq<int>, time: int)
    requires |remaining| == |completion| == |ps|
  {
    (forall j :: 0 <= j < |ps| ==> completion[j] <= time) &&
    (|ps| == 0 || (exists j :: 0 <= j < |ps| && remaining[j] > 0)
               || (exists j :: 0 <= j < |ps| && completion[j] == time))
  }

  /** The state of the simulation in sweep number `sweeps + 1`, when the
      sweep has visited the processes before `front`; `time` is the clock. */
  ghost predicate SweepState(ps: seq<Process>, remaining: seq<int>, waiting: seq<int>, completion: seq<int>,
                             time: int, front: int, sweeps: nat)
  {
    RemainingAt(ps, remaining, front, sweeps) &&
    |waiting| == |completion| == |ps| &&
    time == ServedSum(ps[..front], sweeps + 1) + ServedSum(ps[front..], sweeps) &&
    FinishedCorrectly(ps, remaining, waiting, completion) &&
    ClockFacts(ps, remaining, completion, time)
  }

  lemma {:induction false} ConsumedAppend(a: seq<Process>, ra: seq<int>, b: seq<Process>, rb: seq<int>)
    requires |ra| == |a| && |rb| == |b|
    ensures Consumed(a + b, ra + rb) == Consumed(a, ra) + Consumed(b, rb)
    decreases |b|
  {
    if b == [] {
      assert a + b == a && ra + rb == ra;
    } else {
      var n := |b| - 1;
      assert (a + b)[..|a + b| - 1] == a + b[..n];
      assert (ra + rb)[..|a + b| - 1] == ra + rb[..n];
      ConsumedAppend(a, ra, b[..n], rb[..n]);
    }
  }

  /** When every process has had the same number of sweeps, the work
      consumed is what those sweeps served. */
  lemma {:induction false} ConsumedUniform(ps: seq<Process>, remaining: seq<int>, sweeps: nat)
    requires |remaining| == |ps|
    requires forall j :: 0 <= j < |ps| ==> remaining[j] == Left(ps[j].burstTime, sweeps)
    ensures Consumed(ps, remaining) == ServedSum(ps, sweeps)
    decreases |ps|
  {
    if ps != [] {
      ConsumedUniform(ps[..|ps| - 1], remaining[..|ps| - 1], sweeps);
    }
  }

  /** Consumed work, written with the remaining bursts of a sweep in progress. */
  lemma ConsumedInSweep(ps: seq<Process>, remaining: seq<int>, front: int, sweeps: nat)
    requires RemainingAt(ps, remaining, front, sweeps)
    ensures Consumed(ps, remaining) == ServedSum(ps[..front], sweeps + 1) + ServedSum(ps[front..], sweeps)
  {
    assert ps == ps[..front] + ps[front..];
    assert remaining == remaining[..front] + remaining[front..];
    ConsumedAppend(ps[..front], remaining[..front], ps[front..], remaining[front..]);
    ConsumedUniform(ps[..front], remaining[..front], sweeps + 1);
    ConsumedUniform(ps[front..], remaining[front..], sweeps);
  }

  /** The invariants the source's loop keeps: each remaining burst lies in
      [0, burst], and the clock is the work consumed so far. */
  lemma SweepStateInvariants(ps: seq<Process>, remaining: seq<int>, waiting: seq<int>, completion: seq<int>,
                             time: int, front: int, sweeps: nat)
    requires SweepState(ps, remaining, waiting, completion, time, front, sweeps)
    ensures forall j :: 0 <= j < |ps| ==> 0 <= remaining[j] <= ps[j].burstTime
    ensures time == Consumed(ps, remaining)
    ensures time + Sum(remaining) == BurstSum(ps)
    ensures Sum(remaining) >= 0
  {
    ConsumedInSweep(ps, remaining, front, sweeps);
    ConsumedPlusRemaining(ps, remaining);
    SumNonNegative(remaining);
  }

  lemma {:induction false} SumNonNegative(xs: seq<int>)
    requires forall j :: 0 <= j < |xs| ==> xs[j] >= 0
    ensures Sum(xs) >= 0
    decreases |xs|
  {
    if xs != [] {
      SumNonNegative(xs[..|xs| - 1]);
    }
  }

  /** Before the first sweep: every process has its whole burst left and the clock is 0. */
  lemma InitialSweepState(ps: seq<Process>, remaining: seq<int>, waiting: seq<int>, completion: seq<int>)
    requires |remaining| == |waiting| == |completion| == |ps|
    requires forall j :: 0 <= j < |ps| ==> remaining[j] == ps[j].burstTime
    requires forall j :: 0 <= j < |ps| ==> waiting[j] == 0 && completion[j] == 0
    ensures SweepState(ps, remaining, waiting, completion, 0, 0, 0)
  {
    ServedSumNone(ps);
    assert ps[..0] == [] && ps[0..] == ps;
    if |ps| > 0 {
      assert remaining[0] > 0;
    }
  }

  /** The sweep visits process `i`; `remaining'` is its new remaining burst. */
  lemma RemainingStep(ps: seq<Process>, remaining: seq<int>, i: int, sweeps: nat, v: int)
    requires RemainingAt(ps, remaining, i, sweeps)
    requires i < |ps|
    requires v == if remaining[i] > QUANTUM then remaining[i] - QUANTUM else 0
    ensures RemainingAt(ps, remaining[i := v], i + 1, sweeps)
    ensures Served(ps[i].burstTime, sweeps + 1) - Served(ps[i].burstTime, sweeps) == remaining[i] - v
    ensures 0 < remaining[i] <= QUANTUM ==> Slots(ps[i].burstTime) == sweeps + 1
  {
  }

  /** A process that has already finished is skipped. */
  lemma SkipStep(ps: seq<Process>, remaining: seq<int>, waiting: seq<int>, completion: seq<int>,
                 time: int, i: int, sweeps: nat)
    requires SweepState(ps, remaining, waiting, completion, time, i, sweeps)
    requires i < |ps| && remaining[i] == 0
    ensures SweepState(ps, remaining, waiting, completion, time, i + 1, sweeps)
  {
    ServedSumStep(ps, i, sweeps);
    RemainingStep(ps, remaining, i, sweeps, 0);
    assert remaining[i := 0] == remaining;
  }

  /** A process with more than a quantum left runs for one quantum. */
  lemma QuantumStep(ps: seq<Process>, remaining: seq<int>, waiting: seq<int>, completion: seq<int>,
                    time: int, i: int, sweeps: nat)
    requires SweepState(ps, remaining, waiting, completion, time, i, sweeps)
    requires i < |ps| && remaining[i] > QUANTUM
    ensures SweepState(ps, remaining[i := remaining[i] - QUANTUM], waiting, completion, time + QUANTUM, i + 1, sweeps)
  {
    var remaining' := remaining[i := remaining[i] - QUANTUM];
    ServedSumStep(ps, i, sweeps);
    RemainingStep(ps, remaining, i, sweeps, remaining[i] - QUANTUM);
    assert FinishedCorrectly(ps, remaining', waiting, completion) by {
      forall j | 0 <= j < |ps| && remaining'[j] == 0
        ensures completion[j] == RrCompletion(ps, j) && waiting[j] == completion[j] - ps[j].burstTime
      {
        assert j != i && remaining[j] == 0;
      }
      forall j | 0 <= j < |ps| && remaining'[j] > 0
        ensures waiting[j] == 0 && completion[j] == 0
      {
        assert remaining[j] > 0;
      }
    }
    assert remaining'[i] > 0;
  }

  /** A process with at most a quantum left runs to completion. */
  lemma FinishStep(ps: seq<Process>, remaining: seq<int>, waiting: seq<int>, completion: seq<int>,
                   time: int, i: int, sweeps: nat)
    requires SweepState(ps, remaining, waiting, completion, time, i, sweeps)
    requires i < |ps| && 0 < remaining[i] <= QUANTUM
    ensures var t := time + remaining[i];
            SweepState(ps, remaining[i := 0], waiting[i := t - ps[i].burstTime], completion[i := t], t, i + 1, sweeps)
  {
    var t := time + remaining[i];
    var remaining', waiting', completion' := remaining[i := 0], waiting[i := t - ps[i].burstTime], completion[i := t];
    ServedSumStep(ps, i, sweeps);
    RemainingStep(ps, remaining, i, sweeps, 0);
    assert t == RrCompletion(ps, i);
    assert FinishedCorrectly(ps, remaining', waiting', completion') by {
      forall j | 0 <= j < |ps| && remaining'[j] == 0
        ensures completion'[j] == RrCompletion(ps, j) && waiting'[j] == completion'[j] - ps[j].burstTime
      {
        if j != i {
          assert remaining[j] == 0;
        }
      }
      forall j | 0 <= j < |ps| && remaining'[j] > 0
        ensures waiting'[j] == 0 && completion'[j] == 0
      {
        assert j != i && remaining[j] > 0;
      }
    }
    assert ClockFacts(ps, remaining', completion', t) by {
      assert completion'[i] == t;
    }
  }

  /** A finished sweep is the start of the next one. */
  lemma SweepWraps(ps: seq<Process>, remaining: seq<int>, waiting: seq<int>, completion: seq<int>,
                   time: int, sweeps: nat)
    requires SweepState(ps, remaining, waiting, completion, time, |ps|, sweeps)
    ensures SweepState(ps, remaining, waiting, completion, time, 0, sweeps + 1)
  {
    assert ps[..|ps|] == ps && ps[|ps|..] == [] && ps[..0] == [] && ps[0..] == ps;
  }

  /** What the Round-Robin run promises for each process: its completion
      time is the closed form, its waiting time is completion minus burst
      and never negative, nothing completes after the whole batch has run,
      and in a non-empty batch the last completion is the total burst. */
  predicate RoundRobinOutcome(ps: seq<Process>, waiting: seq<int>, completion: seq<int>)
  {
    |waiting| == |ps| && |completion| == |ps| &&
    (forall j :: 0 <= j < |ps| ==> completion[j] == RrCompletion(ps, j)) &&
    (forall j :: 0 <= j < |ps| ==> waiting[j] == completion[j] - ps[j].burstTime >= 0) &&
    (forall j :: 0 <= j < |ps| ==> completion[j] <= BurstSum(ps)) &&
    (|ps| > 0 ==> exists j :: 0 <= j < |ps| && completion[j] == BurstSum(ps))
  }

  /** A sweep that ran something is the start of the next sweep, with
      less work remaining than when it started. */
  lemma NextSweep(ps: seq<Process>, before: seq<int>, time0: int,
                  remaining: seq<int>, waiting: seq<int>, completion: seq<int>, time: int, sweeps: nat)
    requires RemainingAt(ps, before, 0, sweeps)
    requires time0 == ServedSum(ps[..0], sweeps + 1) + ServedSum(ps[0..], sweeps)
    requires SweepState(ps, remaining, waiting, completion, time, |ps|, sweeps)
    requires time > time0
    ensures SweepState(ps, remaining, waiting, completion, time, 0, sweeps + 1)
    ensures 0 <= Sum(remaining) < Sum(before)
  {
    ConsumedInSweep(ps, before, 0, sweeps);
    ConsumedPlusRemaining(ps, before);
    SweepStateInvariants(ps, remaining, waiting, completion, time, |ps|, sweeps);
    SweepWraps(ps, remaining, waiting, completion, time, sweeps);
  }

  /** A sweep that found nothing to run leaves the clock at the total burst. */
  lemma LastSweepClock(ps: seq<Process>, remaining: seq<int>, time: int, sweeps: nat)
    requires RemainingAt(ps, remaining, |ps|, sweeps)
    requires time == ServedSum(ps[..|ps|], sweeps + 1) + ServedSum(ps[|ps|..], sweeps)
    requires forall j :: 0 <= j < |ps| ==> remaining[j] == 0
    ensures time == BurstSum(ps)
  {
    assert ps[..|ps|] == ps && ps[|ps|..] == [];
    forall j | 0 <= j < |ps|
      ensures Served(ps[j].burstTime, sweeps + 1) == ps[j].burstTime
    {
      assert remaining[j] == Left(ps[j].burstTime, sweeps + 1);
    }
    ServedSumAllDone(ps, sweeps + 1);
  }

  /** A sweep that found nothing to run ends the simulation with every
      process finished, the last one at the total burst. */
  lemma LastSweep(ps: seq<Process>, remaining: seq<int>, waiting: seq<int>, completion: seq<int>,
                  time: int, sweeps: nat)
    requires SweepState(ps, remaining, waiting, completion, time, |ps|, sweeps)
    requires forall j :: 0 <= j < |ps| ==> Left(ps[j].burstTime, sweeps) == 0
    ensures forall j :: 0 <= j < |ps| ==> remaining[j] == 0
    ensures RoundRobinOutcome(ps, waiting, completion)
  {
    forall j | 0 <= j < |ps|
      ensures remaining[j] == 0
    {
      assert remaining[j] == Left(ps[j].burstTime, sweeps + 1);
    }
    LastSweepClock(ps, remaining, time, sweeps);
    forall j | 0 <= j < |ps|
      ensures waiting[j] >= 0
    {
      RrCompletionAtLeastBurst(ps, j);
    }
  }

  /** One slot of a sweep: process `i` is skipped if finished, runs one
      quantum if more than a quantum is left, and otherwise runs to
      completion, when its waiting and completion times are recorded. */
  method RunSlot(ps: seq<Process>, remaining: array<int>, waiting: array<int>, completion: array<int>,
                 time0: int, i: int, ghost sweeps: nat) returns (time: int)
    requires remaining != waiting && remaining != completion && waiting != completion
    requires SweepState(ps, remaining[..], waiting[..], completion[..], time0, i, sweeps)
    requires i < |ps|
    modifies remaining, waiting, completion
    ensures SweepState(ps, remaining[..], waiting[..], completion[..], time, i + 1, sweeps)
    ensures old(remaining[i]) == 0 ==> time == time0
    ensures old(remaining[i]) > 0 ==> time > time0
  {
    time := time0;
    if remaining[i] > 0 {
      if remaining[i] > QUANTUM {
        QuantumStep(ps, remaining[..], waiting[..], completion[..], time, i, sweeps);
        time := time + QUANTUM;
        remaining[i] := remaining[i] - QUANTUM;
      } else {
        FinishStep(ps, remaining[..], waiting[..], completion[..], time, i, sweeps);
        time := time + remaining[i];
        waiting[i] := time - ps[i].burstTime;
        completion[i] := time;
        remaining[i] := 0;
      }
    } else {
      SkipStep(ps, remaining[..], waiting[..], completion[..], time, i, sweeps);
    }
  }

  /** One sweep of the source's inner loop over the batch in arrival order.
      `done` says whether the sweep found no process left to run. */
  method Sweep(ps: seq<Process>, remaining: array<int>, waiting: array<int>, completion: array<int>,
               time0: int, ghost sweeps: nat) returns (time: int, done: bool)
    requires remaining != waiting && remaining != completion && waiting != completion
    requires SweepState(ps, remaining[..], waiting[..], completion[..], time0, 0, sweeps)
    modifies remaining, waiting, completion
    ensures SweepState(ps, remaining[..], waiting[..], completion[..], time, |ps|, sweeps)
    ensures done ==> forall j :: 0 <= j < |ps| ==> Left(ps[j].burstTime, sweeps) == 0
    ensures !done ==> time > time0
  {
    var n := |ps|;
    time, done := time0, true;
    var i := 0;
    while i < n
      invariant 0 <= i <= n
      invariant SweepState(ps, remaining[..], waiting[..], completion[..], time, i, sweeps)
      invariant done ==> forall j :: 0 <= j < i ==> Left(ps[j].burstTime, sweeps) == 0
      invariant time >= time0
      invariant !done ==> time > time0
    {
      assert remaining[i] == Left(ps[i].burstTime, sweeps);
      if remaining[i] > 0 {
        done := false;
      }
      time := RunSlot(ps, remaining, waiting, completion, time, i, sweeps);
      i := i + 1;
    }
  }

  /** One pass of the source's `while (true)` loop: a sweep, then either
      the end of the simulation or the start of the next sweep with less
      work remaining. */
  method SweepOrStop(ps: seq<Process>, remaining: array<int>, waiting: array<int>, completion: array<int>,
                     time0: int, ghost sweeps: nat) returns (time: int, done: bool)
    requires remaining != waiting && remaining != completion && waiting != completion
    requires SweepState(ps, remaining[..], waiting[..], completion[..], time0, 0, sweeps)
    modifies remaining, waiting, completion
    ensures done ==> (forall j :: 0 <= j < |ps| ==> remaining[j] == 0) &&
                     RoundRobinOutcome(ps, waiting[..], completion[..])
    ensures !done ==> SweepState(ps, remaining[..], waiting[..], completion[..], time, 0, sweeps + 1) &&
                      0 <= Sum(remaining[..]) < old(Sum(remaining[..]))
  {
    ghost var before := remaining[..];
    time, done := Sweep(ps, remaining, waiting, completion, time0, sweeps);
    if done {
      LastSweep(ps, remaining[..], waiting[..], completion[..], time, sweeps);
    } else {
      NextSweep(ps, before, time0, remaining[..], waiting[..], completion[..], time, sweeps);
    }
  }

  /** The source's `while (true)` loop: sweeps until one finds every
      process finished. It terminates because every sweep that runs
      something lowers the sum of the remaining bursts. */
  method Simulate(ps: seq<Process>, remaining: array<int>, waiting: array<int>, completion: array<int>)
    requires remaining != waiting && remaining != completion && waiting != completion
    requires remaining.Length == waiting.Length == completion.Length == |ps|
    requires forall j :: 0 <= j < |ps| ==> remaining[j] == ps[j].burstTime
    requires forall j :: 0 <= j < |ps| ==> waiting[j] == 0 && completion[j] == 0
    modifies remaining, waiting, completion
    ensures forall j :: 0 <= j < |ps| ==> remaining[j] == 0
    ensures RoundRobinOutcome(ps, waiting[..], completion[..])
  {
    var time := 0;
    ghost var sweeps: nat := 0;
    InitialSweepState(ps, remaining[..], waiting[..], completion[..]);
    while true
      invariant SweepState(ps, remaining[..], waiting[..], completion[..], time, 0, sweeps)
      decreases Sum(remaining[..])
    {
      var done;
      time, done := SweepOrStop(ps, remaining, waiting, completion, time, sweeps);
      if done {
        break;
      }
      sweeps := sweeps + 1;
    }
  }

  /** The source's Round-Robin discipline: copies the bursts, simulates the
      sweeps, then derives turnaround times. */
  method RoundRobin(ps: seq<Process>) returns (s: Schedule, completion: seq<int>)
    ensures s.order == ps
    ensures TurnaroundConsistent(s)
    ensures RoundRobinOutcome(ps, s.waiting, completion)
  {
    var n := |ps|;
    var waiting := new int[n](_ => 0);
    var completionTime := new int[n](_ => 0);
    var remaining := new int[n](_ => 0);
    var k := 0;
    while k < n
      invariant 0 <= k <= n
      invariant forall j :: 0 <= j < k ==> remaining[j] == ps[j].burstTime
      modifies remaining
    {
      remaining[k] := ps[k].burstTime;
      k := k + 1;
    }
    Simulate(ps, remaining, waiting, completionTime);
    var turnaround := Turnarounds(ps, waiting[..]);
    s := Schedule(ps, waiting[..], turnaround);
    completion := completionTime[..];
  }

  lemma {:induction false} ServedSumNone(ps: seq<Process>)
    ensures ServedSum(ps, 0) == 0
    decreases |ps|
  {
    if ps != [] {
      ServedSumNone(ps[..|ps| - 1]);
    }
  }

  /** When no burst exceeds the quantum, every process runs to completion
      in the first sweep, and Round-Robin completes each process exactly
      when First-Come-First-Served does. */
  lemma RrMatchesFcfsForShortBursts(ps: seq<Process>, s: Schedule, i: int)
    requires forall j :: 0 <= j < |ps| ==> ps[j].burstTime <= QUANTUM
    requires s.order == ps && IsNonPreemptive(s)
    requires 0 <= i < |ps|
    ensures RrCompletion(ps, i) == s.turnaround[i]
  {
    assert Slots(ps[i].burstTime) == 1;
    ServedSumAllDone(ps[..i + 1], 1);
    ServedSumNone(ps[i + 1..]);
    BurstSumPrefixStep(ps, i);
  }

  /** A single process of burst 5: the first sweep runs it for a quantum,
      leaving 1 at time 4; the second finishes it at time 5, having waited 0. */
  lemma SingleProcessTwoSweeps()
    ensures var ps := [Process(0, 5, 1)];
            Left(5, 1) == 1 && ServedSum(ps, 1) == 4 &&
            Slots(5) == 2 && RrCompletion(ps, 0) == 5 && RrCompletion(ps, 0) - 5 == 0
  {
    var ps := [Process(0, 5, 1)];
    assert ps[..0] == [] && ps[..1] == ps && ps[1..] == [];
  }
}
