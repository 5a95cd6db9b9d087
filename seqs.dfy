/** The array operations the application relies on (`filter`, `findIndex`,
    `find`, `some`), and the read-modify-write shapes its repositories build
    from them: overwrite the first element with a given id, or drop every
    element with a given id. */
module Seqs {
  import opened Wrappers

  /** `s.filter(p)`: the elements satisfying p, in their original order. */
  function Filter<T>(s: seq<T>, p: T -> bool): (r: seq<T>)
    ensures |r| <= |s|
  {
    if s == [] then [] else (if p(s[0]) then [s[0]] else []) + Filter(s[1..], p)
  }

  /** What is kept satisfies p and comes from s; whatever in s satisfies p is kept. */
  lemma {:induction false} FilterMembers<T>(s: seq<T>, p: T -> bool)
    ensures forall i :: 0 <= i < |Filter(s, p)| ==> Filter(s, p)[i] in s && p(Filter(s, p)[i])
    ensures forall i :: 0 <= i < |s| && p(s[i]) ==> s[i] in Filter(s, p)
  {
    if s != [] {
      FilterMembers(s[1..], p);
      var head := if p(s[0]) then [s[0]] else [];
      var r, rest := Filter(s, p), Filter(s[1..], p);
      assert r == head + rest;
      forall i | 0 <= i < |r|
        ensures r[i] in s && p(r[i])
      {
        if i >= |head| {
          assert r[i] == rest[i - |head|];
          assert r[i] in s[1..];
        }
      }
      forall i | 0 <= i < |s| && p(s[i])
        ensures s[i] in r
      {
        if i > 0 {
          assert s[i] == s[1..][i - 1];
          assert s[i] in rest;
        }
      }
    }
  }

  /** Filtering distributes over concatenation, so it keeps relative order. */
  lemma {:induction false} FilterAppend<T>(a: seq<T>, b: seq<T>, p: T -> bool)
    ensures Filter(a + b, p) == Filter(a, p) + Filter(b, p)
  {
    if a == [] {
      assert a + b == b;
    } else {
      var head := if p(a[0]) then [a[0]] else [];
      assert (a + b)[0] == a[0];
      assert (a + b)[1..] == a[1..] + b;
      FilterAppend(a[1..], b, p);
      assert Filter(a + b, p) == head + Filter(a[1..] + b, p);
      assert Filter(a, p) == head + Filter(a[1..], p);
    }
  }

  /** Filtering keeps exactly the occurrences that satisfy p. */
  lemma {:induction false} FilterMultiset<T>(s: seq<T>, p: T -> bool, x: T)
    ensures multiset(Filter(s, p))[x] == if p(x) then multiset(s)[x] else 0
  {
    if s != [] {
      FilterMultiset(s[1..], p, x);
      assert s == [s[0]] + s[1..];
    }
  }

  /** When no element satisfies p, filtering leaves nothing. */
  lemma {:induction false} FilterNone<T>(s: seq<T>, p: T -> bool)
    requires forall i :: 0 <= i < |s| ==> !p(s[i])
    ensures Filter(s, p) == []
  {
    if s != [] {
      FilterNone(s[1..], p);
    }
  }

  /** `FilterNone` as an implication, for callers that cannot assume it. */
  lemma NoneSelectedIsEmpty<T>(s: seq<T>, p: T -> bool)
    ensures (forall i :: 0 <= i < |s| ==> !p(s[i])) ==> Filter(s, p) == []
  {
    if forall i :: 0 <= i < |s| ==> !p(s[i]) {
      FilterNone(s, p);
    }
  }

  lemma FilterSingle<T>(x: T, p: T -> bool)
    ensures Filter([x], p) == if p(x) then [x] else []
  {
    assert [x][1..] == [];
  }

  /** Filtering twice is filtering once by both conditions. */
  lemma {:induction false} FilterFilter<T>(s: seq<T>, p: T -> bool, q: T -> bool, pq: T -> bool)
    requires forall x :: pq(x) == (p(x) && q(x))
    ensures Filter(Filter(s, p), q) == Filter(s, pq)
  {
    if s != [] {
      FilterFilter(s[1..], p, q, pq);
      var rest := Filter(s[1..], p);
      if p(s[0]) {
        assert Filter(s, p) == [s[0]] + rest;
        assert ([s[0]] + rest)[1..] == rest;
      } else {
        assert Filter(s, p) == rest;
      }
    }
  }

  /** When every element satisfies p, filtering changes nothing. */
  lemma {:induction false} FilterKeepsAll<T>(s: seq<T>, p: T -> bool)
    requires forall i :: 0 <= i < |s| ==> p(s[i])
    ensures Filter(s, p) == s
  {
    if s != [] {
      FilterKeepsAll(s[1..], p);
    }
  }

  /** `s.findIndex(p)`: the index of the first element satisfying p, or -1. */
  function FindIndex<T>(s: seq<T>, p: T -> bool): (r: int)
    ensures -1 <= r < |s|
    ensures r >= 0 ==> p(s[r]) && forall j :: 0 <= j < r ==> !p(s[j])
    ensures r == -1 <==> forall j :: 0 <= j < |s| ==> !p(s[j])
  {
    if s == [] then -1
    else if p(s[0]) then 0
    else
      var k := FindIndex(s[1..], p);
      if k == -1 then -1 else k + 1
  }

  /** k is the index of the first element carrying id. */
  predicate FirstWithId<T>(s: seq<T>, id: string, idOf: T -> string, k: int) {
    0 <= k < |s| && idOf(s[k]) == id && forall j :: 0 <= j < k ==> idOf(s[j]) != id
  }

  /** `s.find(p)`: the first element satisfying p, if any. */
  function Find<T>(s: seq<T>, p: T -> bool): (r: Option<T>)
    ensures r.None? <==> forall j :: 0 <= j < |s| ==> !p(s[j])
    ensures r.Some? ==> exists k :: 0 <= k < |s| && s[k] == r.value && p(s[k]) && forall j :: 0 <= j < k ==> !p(s[j])
  {
    var k := FindIndex(s, p);
    if k == -1 then None else Some(s[k])
  }

  /** `s.some(p)`. */
  function Exists<T>(s: seq<T>, p: T -> bool): (r: bool)
    ensures r <==> exists j :: 0 <= j < |s| && p(s[j])
  {
    if s == [] then false else p(s[0]) || Exists(s[1..], p)
  }

  /** The index of the first element whose id is `id`, or -1. */
  function IndexOfId<T>(s: seq<T>, id: string, idOf: T -> string): (r: int)
    ensures -1 <= r < |s|
    ensures r >= 0 ==> idOf(s[r]) == id && forall j :: 0 <= j < r ==> idOf(s[j]) != id
    ensures r == -1 <==> forall j :: 0 <= j < |s| ==> idOf(s[j]) != id
  {
    FindIndex(s, x => idOf(x) == id)
  }

  /** The copy-and-overwrite shape of every update in the repositories: the
      first element whose id is `id` is replaced by `f` of it; when there is
      none, there is nothing to write (None). */
  function UpdateAtId<T>(s: seq<T>, id: string, idOf: T -> string, f: T -> T): (r: Option<seq<T>>)
    ensures r.None? <==> forall j :: 0 <= j < |s| ==> idOf(s[j]) != id
    ensures r.Some? ==> |r.value| == |s| && exists k ::
      && 0 <= k < |s| && idOf(s[k]) == id
      && (forall j :: 0 <= j < k ==> idOf(s[j]) != id)
      && r.value[k] == f(s[k])
      && (forall j :: 0 <= j < |s| && j != k ==> r.value[j] == s[j])
  {
    var k := IndexOfId(s, id, idOf);
    if k == -1 then None else Some(s[k := f(s[k])])
  }

  /** `updated[index] = x`: the first element with x's id is replaced by x. */
  function ReplaceFirst<T>(s: seq<T>, x: T, idOf: T -> string): (r: Option<seq<T>>)
    ensures r.None? <==> forall j :: 0 <= j < |s| ==> idOf(s[j]) != idOf(x)
    ensures r.Some? ==> |r.value| == |s| && x in r.value && exists k ::
      && 0 <= k < |s| && idOf(s[k]) == idOf(x)
      && (forall j :: 0 <= j < k ==> idOf(s[j]) != idOf(x))
      && r.value[k] == x
      && (forall j :: 0 <= j < |s| && j != k ==> r.value[j] == s[j])
  {
    UpdateAtId(s, idOf(x), idOf, _ => x)
  }

  /** `s.filter(x => x.id !== id)`. */
  function RemoveById<T>(s: seq<T>, id: string, idOf: T -> string): (r: seq<T>)
    ensures forall i :: 0 <= i < |r| ==> r[i] in s && idOf(r[i]) != id
    ensures forall i :: 0 <= i < |s| && idOf(s[i]) != id ==> s[i] in r
  {
    var keep := x => idOf(x) != id;
    FilterMembers(s, keep);
    Filter(s, keep)
  }

  /** Deleting keeps every element whose id differs, in order, with its
      multiplicity, and leaves nothing with the deleted id behind. */
  lemma RemoveByIdExact<T>(s: seq<T>, id: string, idOf: T -> string, x: T)
    ensures multiset(RemoveById(s, id, idOf))[x] == if idOf(x) == id then 0 else multiset(s)[x]
  {
    FilterMultiset(s, x => idOf(x) != id, x);
  }

  /** Deleting an id that some element carries makes the collection shorter. */
  lemma {:induction false} RemoveByIdShrinks<T>(s: seq<T>, id: string, idOf: T -> string, k: int)
    requires 0 <= k < |s| && idOf(s[k]) == id
    ensures |RemoveById(s, id, idOf)| < |s|
  {
    FilterShrinks(s, x => idOf(x) != id, k);
  }

  lemma {:induction false} FilterShrinks<T>(s: seq<T>, p: T -> bool, k: int)
    requires 0 <= k < |s| && !p(s[k])
    ensures |Filter(s, p)| < |s|
  {
    if k > 0 {
      FilterShrinks(s[1..], p, k - 1);
    }
  }

  /** Deleting an id that no element carries leaves the collection as it was. */
  lemma RemoveByIdAbsent<T>(s: seq<T>, id: string, idOf: T -> string)
    requires forall j :: 0 <= j < |s| ==> idOf(s[j]) != id
    ensures RemoveById(s, id, idOf) == s
  {
    FilterKeepsAll(s, x => idOf(x) != id);
  }

  /** Deleting preserves the relative order of what remains. */
  lemma RemoveByIdOrder<T>(a: seq<T>, b: seq<T>, id: string, idOf: T -> string)
    ensures RemoveById(a + b, id, idOf) == RemoveById(a, id, idOf) + RemoveById(b, id, idOf)
  {
    FilterAppend(a, b, x => idOf(x) != id);
  }
}
