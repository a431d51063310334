/** The three non-preemptive disciplines: First-Come-First-Served runs the
    batch in arrival order, Shortest-Job-First and Priority run a sorted
    copy of it. All three then apply the same waiting-time recurrence. */
module Disciplines {
  import opened Processes
  import opened Metrics
  import opened Sorting

  /** First-Come-First-Served: the batch runs in arrival order. */
  method FirstComeFirstServed(ps: seq<Process>) returns (s: Schedule)
    ensures s.order == ps
    ensures IsNonPreemptive(s)
    ensures forall i :: 0 <= i < |ps| ==> s.waiting[i] >= 0
    ensures |ps| > 0 ==> s.waiting[0] == 0
  {
    s := WaitingAndTurnaround(ps);
  }

  /** Copies the batch into a fresh vector and sorts the copy; the
      caller's batch is a value and stays as it was. */
  method SortedCopy(ps: seq<Process>, k: SortKey) returns (order: seq<Process>)
    ensures |order| == |ps|
    ensures SortedBy(order, k)
    ensures multiset(order) == multiset(ps)
  {
    var copy := new Process[|ps|](i requires 0 <= i < |ps| => ps[i]);
    assert copy[..] == ps;
    Sort(copy, k);
    order := copy[..];
  }

  /** Shortest-Job-First: the batch runs in non-decreasing burst order. */
  method ShortestJobFirst(ps: seq<Process>) returns (s: Schedule)
    ensures |s.order| == |ps|
    ensures SortedBy(s.order, ByBurstTime)
    ensures multiset(s.order) == multiset(ps)
    ensures IsNonPreemptive(s)
    ensures forall i :: 0 <= i < |ps| ==> s.waiting[i] >= 0
    ensures |ps| > 0 ==> s.waiting[0] == 0
  {
    var order := SortedCopy(ps, ByBurstTime);
    s := WaitingAndTurnaround(order);
  }

  /** Priority scheduling: the batch runs in non-decreasing priority number. */
  method PriorityScheduling(ps: seq<Process>) returns (s: Schedule)
    ensures |s.order| == |ps|
    ensures SortedBy(s.order, ByPriority)
    ensures multiset(s.order) == multiset(ps)
    ensures IsNonPreemptive(s)
    ensures forall i :: 0 <= i < |ps| ==> s.waiting[i] >= 0
    ensures |ps| > 0 ==> s.waiting[0] == 0
  {
    var order := SortedCopy(ps, ByPriority);
    s := WaitingAndTurnaround(order);
  }

  /** The keys of a sequence of processes, in order. */
  function Keys(s: seq<Process>, k: SortKey): (keys: seq<int>)
  {
    seq(|s|, i requires 0 <= i < |s| => Key(s[i], k))
  }

  lemma KeysAppend(a: seq<Process>, b: seq<Process>, k: SortKey)
    ensures Keys(a + b, k) == Keys(a, k) + Keys(b, k)
  {
  }

  /** Taking one process out of the middle takes its key out of the keys. */
  lemma KeysRemove(b: seq<Process>, m: int, k: SortKey)
    requires 0 <= m < |b|
    ensures multiset(Keys(b, k)) == multiset(Keys(b[..m] + b[m + 1..], k)) + multiset{Key(b[m], k)}
  {
    assert b == b[..m] + ([b[m]] + b[m + 1..]);
    KeysAppend(b[..m], [b[m]] + b[m + 1..], k);
    KeysAppend([b[m]], b[m + 1..], k);
    KeysAppend(b[..m], b[m + 1..], k);
    assert Keys([b[m]], k) == [Key(b[m], k)];
  }

  /** Permuting processes permutes their keys. */
  lemma {:induction false} KeysPermutation(a: seq<Process>, b: seq<Process>, k: SortKey)
    requires multiset(a) == multiset(b)
    ensures multiset(Keys(a, k)) == multiset(Keys(b, k))
    decreases |a|
  {
    if a == [] {
      assert |b| == |multiset(b)| == 0;
    } else {
      assert a[0] in multiset(b);
      var m :| 0 <= m < |b| && b[m] == a[0];
      RemoveMatching(a, b, m);
      KeysPermutation(a[1..], b[..m] + b[m + 1..], k);
      KeysRemove(b, m, k);
      KeysRemove(a, 0, k);
      assert a[..0] + a[1..] == a[1..];
    }
  }

  /** Two non-decreasing permutations of each other start with the same
      element, and what follows it is again a pair of permutations. */
  lemma SortedPermutationsSameHead(x: seq<int>, y: seq<int>)
    requires forall i, j :: 0 <= i < j < |x| ==> x[i] <= x[j]
    requires forall i, j :: 0 <= i < j < |y| ==> y[i] <= y[j]
    requires multiset(x) == multiset(y)
    requires x != []
    ensures y != [] && x[0] == y[0]
    ensures multiset(x[1..]) == multiset(y[1..])
  {
    assert |y| == |multiset(y)| == |multiset(x)| == |x|;
    assert x[0] in multiset(y);
    var j :| 0 <= j < |y| && y[j] == x[0];
    assert y[0] in multiset(x);
    var i :| 0 <= i < |x| && x[i] == y[0];
    assert x[0] <= x[i] && y[0] <= y[j];
    RemoveMatching(x, y, 0);
    assert y[..0] + y[1..] == y[1..];
  }

  /** Two non-decreasing integer sequences that are permutations of each
      other are equal. */
  lemma {:induction false} SortedPermutationsEqual(x: seq<int>, y: seq<int>)
    requires forall i, j :: 0 <= i < j < |x| ==> x[i] <= x[j]
    requires forall i, j :: 0 <= i < j < |y| ==> y[i] <= y[j]
    requires multiset(x) == multiset(y)
    ensures x == y
    decreases |x|
  {
    if x == [] {
      assert |y| == |multiset(y)| == 0;
    } else {
      SortedPermutationsSameHead(x, y);
      SortedPermutationsEqual(x[1..], y[1..]);
      assert x == [x[0]] + x[1..] && y == [y[0]] + y[1..];
    }
  }

  /** However the library sort orders equal keys, every sorted copy of a
      batch carries the same key in each position. */
  lemma SortedCopiesAgreeOnKeys(ps: seq<Process>, a: seq<Process>, b: seq<Process>, k: SortKey)
    requires SortedBy(a, k) && multiset(a) == multiset(ps)
    requires SortedBy(b, k) && multiset(b) == multiset(ps)
    ensures |a| == |b|
    ensures forall i :: 0 <= i < |a| ==> Key(a[i], k) == Key(b[i], k)
  {
    KeysPermutation(a, b, k);
    var ka, kb := Keys(a, k), Keys(b, k);
    assert forall i, j :: 0 <= i < j < |ka| ==> ka[i] <= ka[j];
    assert forall i, j :: 0 <= i < j < |kb| ==> kb[i] <= kb[j];
    SortedPermutationsEqual(ka, kb);
    forall i | 0 <= i < |a|
      ensures Key(a[i], k) == Key(b[i], k)
    {
      assert ka[i] == Key(a[i], k) && kb[i] == Key(b[i], k);
    }
  }

  /** Shortest-Job-First's times do not depend on how the unstable sort
      breaks ties between equal bursts: any two results agree. */
  lemma ShortestJobFirstDeterministic(ps: seq<Process>, s: Schedule, t: Schedule)
    requires SortedBy(s.order, ByBurstTime) && multiset(s.order) == multiset(ps) && IsNonPreemptive(s)
    requires SortedBy(t.order, ByBurstTime) && multiset(t.order) == multiset(ps) && IsNonPreemptive(t)
    ensures s.waiting == t.waiting
    ensures s.turnaround == t.turnaround
  {
    SortedCopiesAgreeOnKeys(ps, s.order, t.order, ByBurstTime);
    NonPreemptiveDependsOnBurstsOnly(s, t);
  }

  /** Sorting the batch does not change when the last process of a
      Shortest-Job-First or Priority run completes: at the total burst of
      the batch, as under First-Come-First-Served. */
  lemma SortedRunEndsAtTotalBurst(ps: seq<Process>, s: Schedule, k: SortKey)
    requires SortedBy(s.order, k) && multiset(s.order) == multiset(ps) && IsNonPreemptive(s)
    requires |ps| > 0
    ensures |s.order| == |ps|
    ensures s.turnaround[|s.order| - 1] == BurstSum(ps)
  {
    assert |s.order| == |multiset(s.order)| == |multiset(ps)| == |ps|;
    NonPreemptiveMakespan(s);
    BurstSumPermutation(s.order, ps);
  }

  /** Priority scheduling's times do depend on the tie order: two processes
      of equal priority and different bursts can run either way round, and
      the waiting times differ. */
  lemma PriorityTieOrderMatters()
    ensures var a := [Process(0, 5, 1), Process(2, 8, 1), Process(1, 3, 2)];
            var b := [a[1], a[0], a[2]];
            SortedBy(a, ByPriority) && SortedBy(b, ByPriority) &&
            BurstSum(a[..1]) == 5 && BurstSum(b[..1]) == 8
  {
    var a := [Process(0, 5, 1), Process(2, 8, 1), Process(1, 3, 2)];
    var b := [a[1], a[0], a[2]];
    assert a[..1] == [a[0]] && b[..1] == [a[1]];
  }

  /** A three-process batch run First-Come-First-Served waits 0, 5 and 8,
      turns around at 5, 8 and 16, and averages a wait of 13/3. */
  lemma FirstComeFirstServedExample(s: Schedule)
    requires s.order == [Process(0, 5, 1), Process(1, 3, 2), Process(2, 8, 1)]
    requires IsNonPreemptive(s)
    ensures s.waiting == [0, 5, 8] && s.turnaround == [5, 8, 16]
    ensures Mean(s.waiting) == 13.0 / 3.0
  {
    var o := s.order;
    assert o[..0] == [] && o[..1] == [o[0]] && o[..2] == [o[0], o[1]];
    assert [o[0], o[1]][..1] == [o[0]];
    assert s.waiting == [0, 5, 8];
    assert [0, 5, 8][..2] == [0, 5] && [0, 5][..1] == [0] && [0][..0] == [];
  }

  lemma SwapFirstTwo(a: int, b: int, c: int)
    ensures multiset([a, b, c]) == multiset([b, a, c])
  {
    assert [a, b, c] == [a] + [b] + [c] && [b, a, c] == [b] + [a] + [c];
  }

  /** Any permutation of the three-process batch has the bursts 5, 3 and 8
      in some order. */
  lemma ExampleBurstKeys(order: seq<Process>)
    requires multiset(order) == multiset([Process(0, 5, 1), Process(1, 3, 2), Process(2, 8, 1)])
    ensures |order| == 3
    ensures multiset(Keys(order, ByBurstTime)) == multiset([3, 5, 8])
  {
    var ps := [Process(0, 5, 1), Process(1, 3, 2), Process(2, 8, 1)];
    assert |order| == |multiset(order)|;
    KeysPermutation(order, ps, ByBurstTime);
    assert Keys(ps, ByBurstTime) == [5, 3, 8];
    SwapFirstTwo(5, 3, 8);
  }

  /** A sorted sequence of three processes whose bursts are 3, 5 and 8 in
      some order has them in that order. */
  lemma ExampleSortedKeys(order: seq<Process>)
    requires SortedBy(order, ByBurstTime)
    requires |order| == 3
    requires multiset(Keys(order, ByBurstTime)) == multiset([3, 5, 8])
    ensures order[0].burstTime == 3 && order[1].burstTime == 5 && order[2].burstTime == 8
  {
    var k := Keys(order, ByBurstTime);
    assert forall i, j :: 0 <= i < j < |k| ==> k[i] <= k[j];
    SortedPermutationsEqual(k, [3, 5, 8]);
    assert k[0] == order[0].burstTime && k[1] == order[1].burstTime && k[2] == order[2].burstTime;
  }

  /** The same batch run Shortest-Job-First, whatever order the sort
      leaves it in, waits 0, 3 and 8 and turns around at 3, 8 and 16. */
  lemma ShortestJobFirstExample(s: Schedule)
    requires SortedBy(s.order, ByBurstTime)
    requires multiset(s.order) == multiset([Process(0, 5, 1), Process(1, 3, 2), Process(2, 8, 1)])
    requires IsNonPreemptive(s)
    ensures s.waiting == [0, 3, 8] && s.turnaround == [3, 8, 16]
  {
    ExampleBurstKeys(s.order);
    ExampleSortedKeys(s.order);
    ExampleTimes(s);
  }

  /** Three processes of bursts 3, 5 and 8 run back to back wait 0, 3 and
      8 and turn around at 3, 8 and 16. */
  lemma ExampleTimes(s: Schedule)
    requires IsNonPreemptive(s) && |s.order| == 3
    requires s.order[0].burstTime == 3 && s.order[1].burstTime == 5 && s.order[2].burstTime == 8
    ensures s.waiting == [0, 3, 8] && s.turnaround == [3, 8, 16]
  {
    var o := s.order;
    assert o[..0] == [];
    BurstSumPrefixStep(o, 0);
    BurstSumPrefixStep(o, 1);
  }
}
