/** Ordering transactions newest first, as the application does with
    `sort((a, b) => date(b).getTime() - date(a).getTime())`. The built-in
    sort is stable, so this module models it by a stable insertion sort and
    proves that its result is ordered and a permutation of its input. */
module Chronology {
  import opened Models
  import opened Seqs

  /** Every transaction is no older than the ones after it. */
  predicate SortedNewestFirst(s: seq<Transaction>) {
    forall i, j :: 0 <= i < j < |s| ==> NotAfter(DateOf(s[j]), DateOf(s[i]))
  }

  /** Each transaction is no older than the next one. */
  predicate AdjacentNewestFirst(s: seq<Transaction>) {
    forall i :: 0 <= i < |s| - 1 ==> NotAfter(DateOf(s[i + 1]), DateOf(s[i]))
  }

  lemma NotAfterTransitive(a: Date, b: Date, c: Date)
    requires NotAfter(a, b) && NotAfter(b, c)
    ensures NotAfter(a, c)
  {
  }

  lemma {:induction false} AdjacentIsSorted(s: seq<Transaction>)
    requires AdjacentNewestFirst(s)
    ensures SortedNewestFirst(s)
  {
    if |s| > 1 {
      AdjacentIsSorted(s[1..]);
      forall j | 1 <= j < |s|
        ensures NotAfter(DateOf(s[j]), DateOf(s[0]))
      {
        if j > 1 {
          assert NotAfter(DateOf(s[j]), DateOf(s[1]));
          NotAfterTransitive(DateOf(s[j]), DateOf(s[1]), DateOf(s[0]));
        }
      }
    }
  }

  /** Insert x into a newest-first sequence after every element that is not
      older than it (so that equal dates keep their input order). */
  function Insert(x: Transaction, s: seq<Transaction>): (r: seq<Transaction>)
    ensures |r| == |s| + 1
    ensures multiset(r) == multiset(s) + multiset{x}
  {
    if s == [] then [x]
    else if !NotAfter(DateOf(x), DateOf(s[0])) then [x] + s
    else
      assert s == [s[0]] + s[1..];
      [s[0]] + Insert(x, s[1..])
  }

  /** The first element of an insertion is x or the old first element. */
  lemma InsertHead(x: Transaction, s: seq<Transaction>)
    ensures Insert(x, s)[0] == x || (s != [] && Insert(x, s)[0] == s[0])
  {
  }

  lemma {:induction false} InsertSorted(x: Transaction, s: seq<Transaction>)
    requires AdjacentNewestFirst(s)
    ensures AdjacentNewestFirst(Insert(x, s))
  {
    if s != [] && NotAfter(DateOf(x), DateOf(s[0])) {
      var rest := Insert(x, s[1..]);
      InsertSorted(x, s[1..]);
      InsertHead(x, s[1..]);
      var r := [s[0]] + rest;
      assert Insert(x, s) == r;
      forall i | 0 <= i < |r| - 1
        ensures NotAfter(DateOf(r[i + 1]), DateOf(r[i]))
      {
        if i > 0 {
          assert r[i] == rest[i - 1] && r[i + 1] == rest[i];
        }
      }
    } else if s != [] {
      var r := [x] + s;
      assert Insert(x, s) == r;
      forall i | 0 <= i < |r| - 1
        ensures NotAfter(DateOf(r[i + 1]), DateOf(r[i]))
      {
        if i > 0 {
          assert r[i] == s[i - 1] && r[i + 1] == s[i];
        }
      }
    }
  }

  /** The sorted copy: insert the elements one by one, first to last. */
  function SortNewestFirst(s: seq<Transaction>): (r: seq<Transaction>)
    ensures |r| == |s|
    ensures multiset(r) == multiset(s)
  {
    if s == [] then []
    else
      var last := s[|s| - 1];
      assert s == s[..|s| - 1] + [last];
      Insert(last, SortNewestFirst(s[..|s| - 1]))
  }

  lemma {:induction false} SortAdjacent(s: seq<Transaction>)
    ensures AdjacentNewestFirst(SortNewestFirst(s))
  {
    if s != [] {
      SortAdjacent(s[..|s| - 1]);
      InsertSorted(s[|s| - 1], SortNewestFirst(s[..|s| - 1]));
    }
  }

  /** The sorted copy is ordered newest first and holds exactly the input's
      elements, each as often as in the input. */
  lemma SortIsSortedPermutation(s: seq<Transaction>)
    ensures SortedNewestFirst(SortNewestFirst(s))
    ensures multiset(SortNewestFirst(s)) == multiset(s)
  {
    SortAdjacent(s);
    AdjacentIsSorted(SortNewestFirst(s));
  }

  /** `reduce((sum, t) => sum + t.amount, 0)`. */
  function Total(s: seq<Transaction>): real {
    if s == [] then 0.0 else AmountOf(s[0]) + Total(s[1..])
  }

  lemma {:induction false} TotalAppend(a: seq<Transaction>, b: seq<Transaction>)
    ensures Total(a + b) == Total(a) + Total(b)
  {
    if a == [] {
      assert a + b == b;
    } else {
      assert (a + b)[1..] == a[1..] + b;
      TotalAppend(a[1..], b);
    }
  }

  lemma SplitLast<T>(s: seq<T>)
    requires s != []
    ensures s == s[..|s| - 1] + [s[|s| - 1]]
  {
  }

  /** The amount p selects from a concatenation is the sum of the parts'. */
  lemma TotalFilterAppend(a: seq<Transaction>, b: seq<Transaction>, p: Transaction -> bool)
    ensures Total(Filter(a + b, p)) == Total(Filter(a, p)) + Total(Filter(b, p))
  {
    FilterAppend(a, b, p);
    TotalAppend(Filter(a, p), Filter(b, p));
  }

  /** The amount of what p selects is the same before and after an insertion,
      apart from the inserted element. */
  lemma {:induction false} TotalFilterInsert(x: Transaction, s: seq<Transaction>, p: Transaction -> bool)
    ensures Total(Filter(Insert(x, s), p)) == Total(Filter([x], p)) + Total(Filter(s, p))
  {
    if s == [] {
      assert Insert(x, s) == [x];
    } else if !NotAfter(DateOf(x), DateOf(s[0])) {
      assert Insert(x, s) == [x] + s;
      TotalFilterAppend([x], s, p);
    } else {
      var head, tail := s[0], s[1..];
      assert Insert(x, s) == [head] + Insert(x, tail);
      TotalFilterAppend([head], Insert(x, tail), p);
      TotalFilterInsert(x, tail, p);
      assert s == [head] + tail;
      TotalFilterAppend([head], tail, p);
    }
  }

  /** Sorting does not change the sum over any selection of the transactions
      (and so neither the income nor the expense total of a month). */
  lemma {:induction false} TotalFilterSort(s: seq<Transaction>, p: Transaction -> bool)
    ensures Total(Filter(SortNewestFirst(s), p)) == Total(Filter(s, p))
  {
    if s != [] {
      var pre, last := s[..|s| - 1], s[|s| - 1];
      var sortedPre := SortNewestFirst(pre);
      assert SortNewestFirst(s) == Insert(last, sortedPre);
      TotalFilterInsert(last, sortedPre, p);
      TotalFilterSort(pre, p);
      SplitLast(s);
      TotalFilterAppend(pre, [last], p);
    }
  }
}
