/** The process record shared by every scheduling discipline, the
    configuration constants, and the total-burst helper. */
module Processes {

  /** Time quantum of the Round-Robin discipline. */
  const QUANTUM: int := 4

  /** Number of queues of the multilevel discipline. */
  const NUM_QUEUES: int := 3

  /** A CPU burst: every generated process needs at least one unit of time. */
  type Burst = b: int | b >= 1 witness 1

  /** A process of the batch; lower `priority` means more urgent. */
  datatype Process = Process(pid: int, burstTime: Burst, priority: int)

  /** Sum of the burst times of `ps`, accumulated from the front. */
  function BurstSum(ps: seq<Process>): (total: int)
    ensures total >= |ps|
  {
    if ps == [] then 0 else BurstSum(ps[..|ps| - 1]) + ps[|ps| - 1].burstTime
  }

  /** Sum of a sequence of integers, accumulated from the front. */
  function Sum(xs: seq<int>): (total: int)
  {
    if xs == [] then 0 else Sum(xs[..|xs| - 1]) + xs[|xs| - 1]
  }

  /** The accumulating loop of the source's total-burst helper. */
  method TotalBurstTime(ps: seq<Process>) returns (total: int)
    ensures total == BurstSum(ps)
    ensures total >= |ps|
  {
    total := 0;
    var i := 0;
    while i < |ps|
      invariant 0 <= i <= |ps|
      invariant total == BurstSum(ps[..i])
    {
      assert ps[..i + 1][..i] == ps[..i];
      total := total + ps[i].burstTime;
      i := i + 1;
    }
    assert ps[..|ps|] == ps;
  }

  lemma {:induction false} BurstSumAppend(a: seq<Process>, b: seq<Process>)
    ensures BurstSum(a + b) == BurstSum(a) + BurstSum(b)
    decreases |b|
  {
    if b == [] {
      assert a + b == a;
    } else {
      var b' := b[..|b| - 1];
      assert (a + b)[..|a + b| - 1] == a + b';
      BurstSumAppend(a, b');
    }
  }

  /** Extending a prefix by one process adds that process's burst. */
  lemma BurstSumPrefixStep(ps: seq<Process>, i: int)
    requires 0 <= i < |ps|
    ensures BurstSum(ps[..i + 1]) == BurstSum(ps[..i]) + ps[i].burstTime
  {
    assert ps[..i + 1][..i] == ps[..i];
  }

  /** A longer prefix never has a smaller total burst. */
  lemma {:induction false} BurstSumPrefixMonotone(ps: seq<Process>, i: int, j: int)
    requires 0 <= i <= j <= |ps|
    ensures BurstSum(ps[..i]) + (j - i) <= BurstSum(ps[..j])
    decreases j - i
  {
    if i < j {
      BurstSumPrefixMonotone(ps, i, j - 1);
      BurstSumPrefixStep(ps, j - 1);
    }
  }

  /** The total burst does not depend on the order of the batch. */
  lemma {:induction false} BurstSumPermutation(a: seq<Process>, b: seq<Process>)
    requires multiset(a) == multiset(b)
    ensures BurstSum(a) == BurstSum(b)
    decreases |a|
  {
    if a == [] {
      assert |b| == |multiset(b)| == 0;
    } else {
      var x := a[0];
      assert x in multiset(b);
      var m :| 0 <= m < |b| && b[m] == x;
      RemoveMatching(a, b, m);
      BurstSumPermutation(a[1..], b[..m] + b[m + 1..]);
      assert a == [x] + a[1..];
      BurstSumAppend([x], a[1..]);
      assert b == b[..m] + ([x] + b[m + 1..]);
      BurstSumAppend(b[..m], [x] + b[m + 1..]);
      BurstSumAppend([x], b[m + 1..]);
      BurstSumAppend(b[..m], b[m + 1..]);
    }
  }

  /** Two batches whose burst times agree position by position have the same total. */
  lemma {:induction false} BurstSumSameBursts(a: seq<Process>, b: seq<Process>)
    requires |a| == |b|
    requires forall i :: 0 <= i < |a| ==> a[i].burstTime == b[i].burstTime
    ensures BurstSum(a) == BurstSum(b)
    decreases |a|
  {
    if a != [] {
      BurstSumSameBursts(a[..|a| - 1], b[..|b| - 1]);
    }
  }

  /** Removing the first element of `a` and a matching element of `b`
      keeps two permutations permutations of each other. */
  lemma RemoveMatching<T>(a: seq<T>, b: seq<T>, m: int)
    requires multiset(a) == multiset(b)
    requires a != [] && 0 <= m < |b| && b[m] == a[0]
    ensures multiset(a[1..]) == multiset(b[..m] + b[m + 1..])
  {
    var x, rest := a[0], b[..m] + b[m + 1..];
    assert a == [x] + a[1..];
    assert multiset(a) == multiset{x} + multiset(a[1..]);
    assert b == b[..m] + [x] + b[m + 1..];
    assert multiset(b) == multiset(b[..m]) + multiset{x} + multiset(b[m + 1..]);
    assert multiset(rest) == multiset(b[..m]) + multiset(b[m + 1..]);
    assert multiset(a[1..]) == multiset(a) - multiset{x};
    assert multiset(rest) == multiset(b) - multiset{x};
  }
}
