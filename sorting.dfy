/**
 * `Array.prototype.sort` with a comparator `(a, b) => key(b) - key(a)`, as
 * both dashboards use it: the array is reordered in place, newest first.
 */
module Sorting {
  import opened Seqs

  /** `s` is non-increasing by `key`. */
  predicate SortedDesc<T>(s: seq<T>, key: T -> int) {
    forall i, j :: 0 <= i < j < |s| ==> key(s[i]) >= key(s[j])
  }

  /** While element `j` of `s[..i+1]` is moved forward: every pair not involving `j` is in order. */
  predicate SortedExcept<T>(s: seq<T>, key: T -> int, i: int, j: int)
    requires 0 <= j <= i < |s|
  {
    forall p, q :: 0 <= p < q <= i && p != j && q != j ==> key(s[p]) >= key(s[q])
  }

  /** The moving element is strictly newer than everything it has passed. */
  predicate Passed<T>(s: seq<T>, key: T -> int, i: int, j: int)
    requires 0 <= j <= i < |s|
  {
    forall q :: j < q <= i ==> key(s[j]) > key(s[q])
  }

  /** Exchanging the moving element with an older left neighbour keeps both facts, one place further left. */
  lemma SwapStep<T>(s: seq<T>, key: T -> int, i: int, j: int)
    requires 0 < j <= i < |s|
    requires SortedExcept(s, key, i, j) && Passed(s, key, i, j)
    requires key(s[j - 1]) < key(s[j])
    ensures var t := s[j - 1 := s[j]][j := s[j - 1]];
            SortedExcept(t, key, i, j - 1) && Passed(t, key, i, j - 1)
  {
  }

  /** Once the left neighbour is at least as new, the first `i + 1` elements are sorted. */
  lemma InsertDone<T>(s: seq<T>, key: T -> int, i: int, j: int)
    requires 0 <= j <= i < |s|
    requires SortedExcept(s, key, i, j) && Passed(s, key, i, j)
    requires j == 0 || key(s[j - 1]) >= key(s[j])
    ensures SortedDesc(s[..i + 1], key)
  {
    forall p, q | 0 <= p < q <= i ensures key(s[p]) >= key(s[q]) {
      if q == j {
        assert key(s[p]) >= key(s[j - 1]);
      }
    }
  }

  /** `a[j - 1]` and `a[j]` change places. */
  method SwapAdjacent<T>(a: array<T>, j: int)
    requires 0 < j < a.Length
    modifies a
    ensures a[..] == old(a[..])[j - 1 := old(a[j])][j := old(a[j - 1])]
    ensures multiset(a[..]) == multiset(old(a[..]))
  {
    a[j - 1], a[j] := a[j], a[j - 1];
  }

  /**
   * Insertion sort by adjacent swaps: it exchanges only neighbours that are
   * strictly out of order, so equal keys keep their relative order as the
   * standard sort guarantees.
   */
  method SortDesc<T>(a: array<T>, key: T -> int)
    modifies a
    ensures SortedDesc(a[..], key)
    ensures multiset(a[..]) == multiset(old(a[..]))
  {
    var i := 0;
    while i < a.Length
      invariant 0 <= i <= a.Length
      invariant SortedDesc(a[..i], key)
      invariant multiset(a[..]) == multiset(old(a[..]))
    {
      var j := i;
      while j > 0 && key(a[j - 1]) < key(a[j])
        invariant 0 <= j <= i
        invariant multiset(a[..]) == multiset(old(a[..]))
        invariant SortedExcept(a[..], key, i, j) && Passed(a[..], key, i, j)
      {
        SwapStep(a[..], key, i, j);
        SwapAdjacent(a, j);
        j := j - 1;
      }
      InsertDone(a[..], key, i, j);
      i := i + 1;
    }
    assert a[..] == a[..a.Length];
  }

  /** Every item among the first `n` of a sorted list is at least as new as every item after them. */
  lemma PrefixIsNewest<T>(s: seq<T>, key: T -> int, n: nat, x: T, y: T)
    requires SortedDesc(s, key) && n <= |s|
    requires x in s[..n] && y in s[n..]
    ensures key(x) >= key(y)
  {
    var i :| 0 <= i < n && s[..n][i] == x;
    var j :| 0 <= j < |s| - n && s[n..][j] == y;
    assert s[i] == x && s[n + j] == y;
  }

  /** `recent` is the first `n` items of some newest-first ordering of `items`. */
  ghost predicate IsNewestPrefix<T(!new)>(recent: seq<T>, items: seq<T>, key: T -> int, n: nat) {
    exists sorted :: multiset(sorted) == multiset(items) && SortedDesc(sorted, key) && recent == Take(sorted, n)
  }

  /** The first `n` items of a newest-first permutation of `items` are a newest prefix of them. */
  lemma NewestPrefixOf<T(!new)>(sorted: seq<T>, items: seq<T>, key: T -> int, n: nat)
    requires multiset(sorted) == multiset(items) && SortedDesc(sorted, key)
    ensures IsNewestPrefix(Take(sorted, n), items, key, n)
  {
  }

  /** No item left out of a newest prefix is newer than one in it. */
  lemma NewestPrefixDominates<T(!new)>(recent: seq<T>, items: seq<T>, key: T -> int, n: nat, x: T, y: T)
    requires IsNewestPrefix(recent, items, key, n)
    requires x in recent && y in items && y !in recent
    ensures key(x) >= key(y)
  {
    var sorted :| multiset(sorted) == multiset(items) && SortedDesc(sorted, key) && recent == Take(sorted, n);
    assert y in multiset(sorted);
    assert |sorted| > n;
    assert sorted == sorted[..n] + sorted[n..];
    assert y in sorted[n..];
    PrefixIsNewest(sorted, key, n, x, y);
  }
}
