/** Sequence operations shared by the pages and hooks: the `Array.prototype.filter`
    and `Array.prototype.map` shapes the source uses on its state lists. */
module Lists {

  /** `s.filter(keep)`: the elements of `s` for which `keep` holds, in their
      order, each as many times as it occurs in `s`. */
  function Filter<T(==,!new)>(s: seq<T>, keep: T -> bool): (r: seq<T>)
    ensures |r| <= |s|
    ensures forall x :: x in r <==> x in s && keep(x)
    ensures forall i :: 0 <= i < |r| ==> keep(r[i])
    ensures forall x :: multiset(r)[x] == (if keep(x) then multiset(s)[x] else 0)
  {
    assert s != [] ==> s == [s[0]] + s[1..];
    if s == [] then []
    else if keep(s[0]) then [s[0]] + Filter(s[1..], keep)
    else Filter(s[1..], keep)
  }

  /** `a` can be obtained from `b` by deleting elements: same relative order. */
  predicate IsSubsequence<T(==)>(a: seq<T>, b: seq<T>)
    decreases |b|
  {
    a == [] ||
    (b != [] &&
     ((a[0] == b[0] && IsSubsequence(a[1..], b[1..])) || IsSubsequence(a, b[1..])))
  }

  lemma {:induction false} SubsequenceOfSelf<T>(s: seq<T>)
    ensures IsSubsequence(s, s)
    decreases |s|
  {
    if s != [] {
      SubsequenceOfSelf(s[1..]);
    }
  }

  /** A filter result is an order-preserving subsequence of its input. */
  lemma {:induction false} FilterIsSubsequence<T(!new)>(s: seq<T>, keep: T -> bool)
    ensures IsSubsequence(Filter(s, keep), s)
    decreases |s|
  {
    if s != [] {
      FilterIsSubsequence(s[1..], keep);
      var r := Filter(s, keep);
      if keep(s[0]) {
        assert r[0] == s[0] && r[1..] == Filter(s[1..], keep);
      } else {
        assert r == Filter(s[1..], keep);
      }
    }
  }

  /** Filtering keeps the whole list exactly when every element passes. */
  lemma FilterKeepsAll<T(!new)>(s: seq<T>, keep: T -> bool)
    ensures Filter(s, keep) == s <==> forall x :: x in s ==> keep(x)
  {
    if forall x :: x in s ==> keep(x) {
      FilterKeepsEvery(s, keep);
    }
  }

  lemma {:induction false} FilterKeepsEvery<T(!new)>(s: seq<T>, keep: T -> bool)
    requires forall x :: x in s ==> keep(x)
    ensures Filter(s, keep) == s
    decreases |s|
  {
    if s != [] {
      var tail := s[1..];
      assert forall x :: x in tail ==> x in s;
      FilterKeepsEvery(tail, keep);
      assert s == [s[0]] + tail;
    }
  }

  /** Filtering by a predicate and by its negation splits the list in two. */
  lemma {:induction false} FilterSplit<T(!new)>(s: seq<T>, keep: T -> bool, drop: T -> bool)
    requires forall x :: drop(x) == !keep(x)
    ensures |Filter(s, keep)| + |Filter(s, drop)| == |s|
    decreases |s|
  {
    if s != [] {
      FilterSplit(s[1..], keep, drop);
    }
  }

  /** `s.map(e => hit(e) ? x : e)`: every element satisfying `hit` becomes `x`. */
  function ReplaceWhere<T>(s: seq<T>, hit: T -> bool, x: T): (r: seq<T>)
    ensures |r| == |s|
    ensures forall i :: 0 <= i < |s| ==> r[i] == (if hit(s[i]) then x else s[i])
  {
    if s == [] then []
    else [if hit(s[0]) then x else s[0]] + ReplaceWhere(s[1..], hit, x)
  }

  /** `s.map((e) => e.id === id ? x : e)`, the ids read through `idOf`. */
  function ReplaceById<T>(s: seq<T>, idOf: T -> string, id: string, x: T): seq<T>
  {
    ReplaceWhere(s, (e: T) => idOf(e) == id, x)
  }

  /** `s.filter((e) => e.id !== id)`, the ids read through `idOf`. */
  function RemoveById<T(==,!new)>(s: seq<T>, idOf: T -> string, id: string): seq<T>
  {
    Filter(s, (e: T) => idOf(e) != id)
  }

  /** Replacing keeps the length and order: every entry with the id becomes
      `x`, every other entry stays, and an absent id changes nothing. */
  lemma ReplaceByIdSpec<T>(s: seq<T>, idOf: T -> string, id: string, x: T)
    ensures |ReplaceById(s, idOf, id, x)| == |s|
    ensures forall i :: 0 <= i < |s| && idOf(s[i]) == id ==> ReplaceById(s, idOf, id, x)[i] == x
    ensures forall i :: 0 <= i < |s| && idOf(s[i]) != id ==> ReplaceById(s, idOf, id, x)[i] == s[i]
    ensures (forall i :: 0 <= i < |s| ==> idOf(s[i]) != id) ==> ReplaceById(s, idOf, id, x) == s
  {
  }

  /** Removing drops every entry with the id, keeps the others in order, and
      changes nothing exactly when no entry has the id. */
  lemma RemoveByIdSpec<T(!new)>(s: seq<T>, idOf: T -> string, id: string)
    ensures forall e :: e in RemoveById(s, idOf, id) <==> e in s && idOf(e) != id
    ensures IsSubsequence(RemoveById(s, idOf, id), s)
    ensures RemoveById(s, idOf, id) == s <==> forall e :: e in s ==> idOf(e) != id
    ensures forall e :: multiset(RemoveById(s, idOf, id))[e] == (if idOf(e) != id then multiset(s)[e] else 0)
  {
    FilterIsSubsequence(s, (e: T) => idOf(e) != id);
    FilterKeepsAll(s, (e: T) => idOf(e) != id);
  }

  /** Deleting an id after replacing it gives what deleting it alone gives. */
  lemma {:induction false} RemoveAfterReplace<T(!new)>(s: seq<T>, idOf: T -> string, id: string, x: T)
    requires idOf(x) == id
    ensures RemoveById(ReplaceById(s, idOf, id, x), idOf, id) == RemoveById(s, idOf, id)
    decreases |s|
  {
    if s != [] {
      RemoveAfterReplace(s[1..], idOf, id, x);
      var r := ReplaceById(s, idOf, id, x);
      assert r[1..] == ReplaceById(s[1..], idOf, id, x);
    }
  }

  /** Deleting the id of an entry just put in front removes it along with any
      older entry with that id. */
  lemma RemoveAfterPrepend<T(!new)>(s: seq<T>, idOf: T -> string, x: T)
    ensures RemoveById([x] + s, idOf, idOf(x)) == RemoveById(s, idOf, idOf(x))
  {
    assert ([x] + s)[1..] == s;
  }

  /** `[x, ...s]`: the new entry in front of the old list. */
  function Prepend<T>(s: seq<T>, x: T): (r: seq<T>)
    ensures |r| == |s| + 1 && r[0] == x && r[1..] == s
  {
    [x] + s
  }
}
