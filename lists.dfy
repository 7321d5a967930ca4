/** The array operations the source builds its lists with: `filter`, `find`, `some`, and
    the id-keyed `map`/`filter` idioms used to replace and remove records. */
module Lists {
  import opened Wrappers

  /** `a` is `b` with some elements dropped: an order-preserving subset. */
  ghost predicate SubsequenceOf<T>(a: seq<T>, b: seq<T>)
    decreases |b|
  {
    a == [] || (b != [] && ((a[0] == b[0] && SubsequenceOf(a[1..], b[1..])) || SubsequenceOf(a, b[1..])))
  }

  /** `s.filter(keep)` */
  function Filter<T>(s: seq<T>, keep: T -> bool): (r: seq<T>)
    ensures |r| <= |s|
    ensures forall k :: 0 <= k < |r| ==> r[k] in s && keep(r[k])
    ensures forall k :: 0 <= k < |s| && keep(s[k]) ==> s[k] in r
    decreases |s|
  {
    if s == [] then [] else (if keep(s[0]) then [s[0]] else []) + Filter(s[1..], keep)
  }

  /** `filter` keeps each passing element as often as it occurs and drops every other one. */
  lemma {:induction false} FilterCounts<T(!new)>(s: seq<T>, keep: T -> bool)
    ensures forall x :: multiset(Filter(s, keep))[x] == if keep(x) then multiset(s)[x] else 0
    decreases |s|
  {
    if s != [] {
      FilterCounts(s[1..], keep);
      assert s == [s[0]] + s[1..];
    }
  }

  /** What `filter` keeps is an order-preserving subset of its input. */
  lemma {:induction false} FilterIsSubsequence<T>(s: seq<T>, keep: T -> bool)
    ensures SubsequenceOf(Filter(s, keep), s)
    decreases |s|
  {
    if s != [] {
      FilterIsSubsequence(s[1..], keep);
      var r := Filter(s, keep);
      if keep(s[0]) {
        assert r[0] == s[0] && r[1..] == Filter(s[1..], keep);
      } else {
        assert r == Filter(s[1..], keep);
      }
    }
  }

  /** Filtering a list whose every element is kept gives the list back. */
  lemma {:induction false} FilterKeepsAll<T>(s: seq<T>, keep: T -> bool)
    requires forall k :: 0 <= k < |s| ==> keep(s[k])
    ensures Filter(s, keep) == s
    decreases |s|
  {
    if s != [] {
      FilterKeepsAll(s[1..], keep);
    }
  }

  /** `filter` distributes over concatenation. */
  lemma {:induction false} FilterAppend<T>(a: seq<T>, b: seq<T>, keep: T -> bool)
    ensures Filter(a + b, keep) == Filter(a, keep) + Filter(b, keep)
    decreases |a|
  {
    if a == [] {
      assert a + b == b;
    } else {
      FilterAppend(a[1..], b, keep);
      assert (a + b)[0] == a[0] && (a + b)[1..] == a[1..] + b;
      assert Filter(a + b, keep) == (if keep(a[0]) then [a[0]] else []) + Filter(a[1..] + b, keep);
    }
  }

  /** Filters whose tests agree on every element of the list keep the same elements. */
  lemma {:induction false} FilterSameTest<T>(s: seq<T>, p: T -> bool, q: T -> bool)
    requires forall k :: 0 <= k < |s| ==> p(s[k]) == q(s[k])
    ensures Filter(s, p) == Filter(s, q)
    decreases |s|
  {
    if s != [] {
      FilterSameTest(s[1..], p, q);
    }
  }

  /** `s.some(p)` */
  predicate Any<T>(s: seq<T>, p: T -> bool) {
    exists k | 0 <= k < |s| :: p(s[k])
  }

  /** `s.findIndex(p)`, with `None` for -1: the index of the first element satisfying `p`. */
  function FindIndex<T>(s: seq<T>, p: T -> bool): (r: Option<nat>)
    ensures r.Some? ==> r.value < |s| && p(s[r.value])
    ensures r.Some? ==> forall j :: 0 <= j < r.value ==> !p(s[j])
    ensures r.None? <==> !Any(s, p)
    decreases |s|
  {
    if s == [] then None
    else if p(s[0]) then Some(0)
    else match FindIndex(s[1..], p)
      case None => None
      case Some(i) => Some(i + 1)
  }

  /** `s.find(p)`: the first element satisfying `p`, if any. */
  function Find<T>(s: seq<T>, p: T -> bool): (r: Option<T>)
    ensures r.Some? <==> Any(s, p)
    ensures r.Some? ==> p(r.value)
    ensures r.Some? ==> exists i | 0 <= i < |s| :: s[i] == r.value && forall j :: 0 <= j < i ==> !p(s[j])
  {
    match FindIndex(s, p)
    case None => None
    case Some(i) => Some(s[i])
  }

  /** `s.filter(x => idOf(x) !== id)`: the records of `s` whose id is not `id`. */
  function RemoveById<T>(s: seq<T>, idOf: T -> string, id: string): (r: seq<T>)
  {
    Filter(s, x => idOf(x) != id)
  }

  /** Removal by id keeps exactly the records with another id, each as often as it occurs,
      in their order, and is idempotent. */
  lemma RemoveByIdSpec<T(!new)>(s: seq<T>, idOf: T -> string, id: string)
    ensures forall k :: 0 <= k < |s| && idOf(s[k]) != id ==> s[k] in RemoveById(s, idOf, id)
    ensures forall x :: x in RemoveById(s, idOf, id) ==> x in s && idOf(x) != id
    ensures forall x :: multiset(RemoveById(s, idOf, id))[x] == if idOf(x) != id then multiset(s)[x] else 0
    ensures SubsequenceOf(RemoveById(s, idOf, id), s)
    ensures RemoveById(RemoveById(s, idOf, id), idOf, id) == RemoveById(s, idOf, id)
  {
    FilterIsSubsequence(s, x => idOf(x) != id);
    FilterCounts(s, x => idOf(x) != id);
    var r := RemoveById(s, idOf, id);
    FilterKeepsAll(r, x => idOf(x) != id);
  }

  /** Appending a record whose id is new and then removing that id restores the list. */
  lemma RemoveByIdAppended<T>(s: seq<T>, x: T, idOf: T -> string)
    requires forall k :: 0 <= k < |s| ==> idOf(s[k]) != idOf(x)
    ensures RemoveById(s + [x], idOf, idOf(x)) == s
  {
    var keep := y => idOf(y) != idOf(x);
    FilterAppend(s, [x], keep);
    FilterKeepsAll(s, keep);
  }

  /** Removing the id of a record just put in front of a list that does not carry that id
      gives the list back. */
  lemma RemoveByIdPrepended<T>(x: T, s: seq<T>, idOf: T -> string)
    requires forall k :: 0 <= k < |s| ==> idOf(s[k]) != idOf(x)
    ensures RemoveById([x] + s, idOf, idOf(x)) == s
  {
    var keep := y => idOf(y) != idOf(x);
    FilterAppend([x], s, keep);
    FilterKeepsAll(s, keep);
  }

  /** `s.map(x => idOf(x) === id ? v : x)` */
  function ReplaceById<T>(s: seq<T>, idOf: T -> string, id: string, v: T): (r: seq<T>)
    ensures |r| == |s|
    ensures forall k :: 0 <= k < |s| ==> r[k] == if idOf(s[k]) == id then v else s[k]
    decreases |s|
  {
    if s == [] then [] else [if idOf(s[0]) == id then v else s[0]] + ReplaceById(s[1..], idOf, id, v)
  }

  /** Replacing an id no record carries leaves the list as it was. */
  lemma ReplaceByIdAbsent<T>(s: seq<T>, idOf: T -> string, id: string, v: T)
    requires forall k :: 0 <= k < |s| ==> idOf(s[k]) != id
    ensures ReplaceById(s, idOf, id, v) == s
  {
  }
}
