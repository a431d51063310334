/** The two comparators the source hands to its library sort, and an
    in-place sort standing for that library sort. Only what the library
    promises is stated: the result is ordered by the comparator and is a
    permutation of the input. Equal keys may come out in any order. */
module Sorting {
  import opened Processes

  /** The field a sort orders by. */
  datatype SortKey = ByBurstTime | ByPriority

  function Key(p: Process, k: SortKey): (key: int)
  {
    match k
    case ByBurstTime => p.burstTime
    case ByPriority => p.priority
  }

  /** The comparator of the Shortest-Job-First sort. */
  predicate CompareByBurstTime(a: Process, b: Process)
  {
    a.burstTime < b.burstTime
  }

  /** The comparator of the Priority sort: a lower number runs first. */
  predicate CompareByPriority(a: Process, b: Process)
  {
    a.priority < b.priority
  }

  /** The comparator used for a given key. */
  predicate Less(k: SortKey, a: Process, b: Process)
  {
    match k
    case ByBurstTime => CompareByBurstTime(a, b)
    case ByPriority => CompareByPriority(a, b)
  }

  /** No later element compares less than an earlier one. */
  predicate SortedBy(s: seq<Process>, k: SortKey)
  {
    forall i, j :: 0 <= i < j < |s| ==> Key(s[i], k) <= Key(s[j], k)
  }

  /** The Shortest-Job-First comparator is a strict weak ordering
      (irreflexive, transitive, with transitive incomparability), which is
      what the library sort demands of it, and it compares the burst key. */
  lemma BurstComparatorIsStrictWeakOrder(a: Process, b: Process, c: Process)
    ensures CompareByBurstTime(a, b) <==> Key(a, ByBurstTime) < Key(b, ByBurstTime)
    ensures Less(ByBurstTime, a, b) <==> CompareByBurstTime(a, b)
    ensures !CompareByBurstTime(a, a)
    ensures CompareByBurstTime(a, b) && CompareByBurstTime(b, c) ==> CompareByBurstTime(a, c)
    ensures !CompareByBurstTime(a, b) && !CompareByBurstTime(b, a) &&
            !CompareByBurstTime(b, c) && !CompareByBurstTime(c, b) ==>
              !CompareByBurstTime(a, c) && !CompareByBurstTime(c, a)
  {
  }

  /** The Priority comparator is a strict weak ordering in the same sense,
      and it compares the priority key. */
  lemma PriorityComparatorIsStrictWeakOrder(a: Process, b: Process, c: Process)
    ensures CompareByPriority(a, b) <==> Key(a, ByPriority) < Key(b, ByPriority)
    ensures Less(ByPriority, a, b) <==> CompareByPriority(a, b)
    ensures !CompareByPriority(a, a)
    ensures CompareByPriority(a, b) && CompareByPriority(b, c) ==> CompareByPriority(a, c)
    ensures !CompareByPriority(a, b) && !CompareByPriority(b, a) &&
            !CompareByPriority(b, c) && !CompareByPriority(c, b) ==>
              !CompareByPriority(a, c) && !CompareByPriority(c, a)
  {
  }

  /** Sorted by the comparator in the library's sense: no later element
      compares less than an earlier one. */
  lemma SortedMeansNoInversion(s: seq<Process>, k: SortKey, i: int, j: int)
    requires SortedBy(s, k)
    requires 0 <= i < j < |s|
    ensures !Less(k, s[j], s[i])
  {
  }

  /** The first `i` elements of `s` are sorted by key `k`. */
  predicate SortedPrefix(s: seq<Process>, i: int, k: SortKey)
  {
    forall m, n :: 0 <= m < n < i && n < |s| ==> Key(s[m], k) <= Key(s[n], k)
  }

  /** Exchanges a[j - 1] and a[j]. */
  method Swap(a: array<Process>, j: int)
    requires 0 < j < a.Length
    modifies a
    ensures a[..] == old(a[..])[j - 1 := old(a[j])][j := old(a[j - 1])]
    ensures multiset(a[..]) == old(multiset(a[..]))
  {
    a[j - 1], a[j] := a[j], a[j - 1];
  }

  /** Moves a[i] left past every element with a larger key, so that the
      first i + 1 elements are sorted. */
  method Insert(a: array<Process>, i: int, k: SortKey)
    requires 0 < i < a.Length
    requires SortedPrefix(a[..], i, k)
    modifies a
    ensures SortedPrefix(a[..], i + 1, k)
    ensures multiset(a[..]) == old(multiset(a[..]))
    ensures a[i + 1..] == old(a[i + 1..])
  {
    var j := i;
    while j > 0 && Less(k, a[j], a[j - 1])
      invariant 0 <= j <= i
      invariant forall m, n :: 0 <= m < n <= i && n != j ==> Key(a[m], k) <= Key(a[n], k)
      invariant multiset(a[..]) == old(multiset(a[..]))
      invariant a[i + 1..] == old(a[i + 1..])
    {
      Swap(a, j);
      j := j - 1;
    }
  }

  /** Sorts `a` in place by key `k`, by insertion. */
  method Sort(a: array<Process>, k: SortKey)
    modifies a
    ensures SortedBy(a[..], k)
    ensures multiset(a[..]) == old(multiset(a[..]))
  {
    var i := 1;
    while i < a.Length
      invariant a.Length == 0 || 1 <= i <= a.Length
      invariant SortedPrefix(a[..], i, k)
      invariant multiset(a[..]) == old(multiset(a[..]))
    {
      Insert(a, i, k);
      i := i + 1;
    }
  }
}
