/**
 * The list operations every screen applies to its records, keyed by a string id:
 * `find`, `filter`, replace-by-id (`map` with a conditional) and delete-by-id (`filter` on the id).
 */
module Listing {
  import opened Wrappers

  /** The position where `s.find(x => key(x) === id)` stops, if it finds anything. */
  function Find<T>(s: seq<T>, key: T -> string, id: string): (r: Option<nat>)
    ensures r.None? ==> forall i :: 0 <= i < |s| ==> key(s[i]) != id
    ensures r.Some? ==> r.value < |s| && key(s[r.value]) == id
    ensures r.Some? ==> forall j :: 0 <= j < r.value ==> key(s[j]) != id
  {
    if s == [] then None
    else if key(s[0]) == id then Some(0)
    else match Find(s[1..], key, id)
      case None => None
      case Some(i) => Some(i + 1)
  }

  /** `s.find(x => key(x) === id)`: the first element with that id, if any. */
  function Lookup<T>(s: seq<T>, key: T -> string, id: string): (r: Option<T>)
    ensures r.None? <==> forall i :: 0 <= i < |s| ==> key(s[i]) != id
    ensures r.Some? ==> key(r.value) == id && r.value in s
    ensures forall i :: 0 <= i < |s| && key(s[i]) == id && (forall j :: 0 <= j < i ==> key(s[j]) != id)
              ==> r == Some(s[i])
  {
    match Find(s, key, id)
    case None => None
    case Some(i) => Some(s[i])
  }

  /** `s.filter(p)`. */
  function Filter<T>(s: seq<T>, p: T -> bool): (r: seq<T>)
    ensures |r| <= |s|
    ensures forall i :: 0 <= i < |r| ==> p(r[i]) && r[i] in s
    ensures forall i :: 0 <= i < |s| && p(s[i]) ==> s[i] in r
  {
    if s == [] then []
    else (if p(s[0]) then [s[0]] else []) + Filter(s[1..], p)
  }

  /** `r` is `s` with some elements left out and the rest in their original order. */
  ghost predicate Subsequence<T>(r: seq<T>, s: seq<T>) {
    if r == [] then true
    else if s == [] then false
    else (r[0] == s[0] && Subsequence(r[1..], s[1..])) || Subsequence(r, s[1..])
  }

  /** Filtering keeps the survivors in their original order. */
  lemma {:induction false} FilterIsSubsequence<T>(s: seq<T>, p: T -> bool)
    ensures Subsequence(Filter(s, p), s)
  {
    if s != [] {
      FilterIsSubsequence(s[1..], p);
      var f := Filter(s, p);
      if p(s[0]) {
        assert f[0] == s[0] && f[1..] == Filter(s[1..], p);
      } else {
        assert f == Filter(s[1..], p);
      }
    }
  }

  /** Filtering a concatenation filters each part. */
  lemma {:induction false} FilterAppend<T>(a: seq<T>, b: seq<T>, p: T -> bool)
    ensures Filter(a + b, p) == Filter(a, p) + Filter(b, p)
  {
    if a != [] {
      assert (a + b)[1..] == a[1..] + b;
      FilterAppend(a[1..], b, p);
    } else {
      assert a + b == b;
    }
  }

  /**
   * Filtering keeps every copy of a passing element and no copy of any other: each value
   * occurs in the result exactly as often as in the input if it passes, and never otherwise.
   */
  lemma {:induction false} FilterCounts<T>(s: seq<T>, p: T -> bool)
    ensures forall x :: multiset(Filter(s, p))[x] == if p(x) then multiset(s)[x] else 0
  {
    if s != [] {
      FilterCounts(s[1..], p);
      assert s == [s[0]] + s[1..];
    }
  }

  /** The prefix of a list's full length is the list. */
  lemma WholeSlice<T>(s: seq<T>)
    ensures s[..|s|] == s
  {
  }

  /** A filter that keeps every element is the identity. */
  lemma {:induction false} FilterKeepsAll<T>(s: seq<T>, p: T -> bool)
    requires forall i :: 0 <= i < |s| ==> p(s[i])
    ensures Filter(s, p) == s
  {
    if s != [] {
      FilterKeepsAll(s[1..], p);
    }
  }

  /** A filter nothing passes keeps nothing. */
  lemma {:induction false} FilterNone<T>(s: seq<T>, p: T -> bool)
    requires forall i :: 0 <= i < |s| ==> !p(s[i])
    ensures Filter(s, p) == []
  {
    if s != [] {
      FilterNone(s[1..], p);
    }
  }

  /** A second, narrower filter makes the first one redundant. */
  lemma {:induction false} FilterNarrower<T>(s: seq<T>, wide: T -> bool, narrow: T -> bool)
    requires forall i :: 0 <= i < |s| && narrow(s[i]) ==> wide(s[i])
    ensures Filter(Filter(s, wide), narrow) == Filter(s, narrow)
  {
    if s != [] {
      FilterNarrower(s[1..], wide, narrow);
      if wide(s[0]) {
        var w := Filter(s, wide);
        assert w[0] == s[0] && w[1..] == Filter(s[1..], wide);
        assert Filter(w, narrow) == (if narrow(s[0]) then [s[0]] else []) + Filter(w[1..], narrow);
      } else {
        assert !narrow(s[0]);
        assert Filter(s, wide) == Filter(s[1..], wide);
        assert Filter(s, narrow) == Filter(s[1..], narrow);
      }
    }
  }

  function KeyIsNot<T>(key: T -> string, id: string): T -> bool {
    x => key(x) != id
  }

  /** `s.filter(x => key(x) !== id)`: delete by id. */
  function Remove<T>(s: seq<T>, key: T -> string, id: string): (r: seq<T>) {
    Filter(s, KeyIsNot(key, id))
  }

  /**
   * Delete keeps exactly the elements with another id, every copy of each, in order, and
   * drops every one with this id.
   */
  lemma RemoveKeepsOthers<T>(s: seq<T>, key: T -> string, id: string)
    ensures forall i :: 0 <= i < |Remove(s, key, id)| ==>
              key(Remove(s, key, id)[i]) != id && Remove(s, key, id)[i] in s
    ensures forall i :: 0 <= i < |s| && key(s[i]) != id ==> s[i] in Remove(s, key, id)
    ensures forall x :: multiset(Remove(s, key, id))[x] == if key(x) != id then multiset(s)[x] else 0
    ensures Subsequence(Remove(s, key, id), s)
  {
    FilterIsSubsequence(s, KeyIsNot(key, id));
    FilterCounts(s, KeyIsNot(key, id));
  }

  /** Deleting an id nobody has changes nothing. */
  lemma RemoveAbsent<T>(s: seq<T>, key: T -> string, id: string)
    requires forall i :: 0 <= i < |s| ==> key(s[i]) != id
    ensures Remove(s, key, id) == s
  {
    FilterKeepsAll(s, KeyIsNot(key, id));
  }

  /** Appending a record with a fresh id and then deleting that id restores the list. */
  lemma AppendThenRemove<T>(s: seq<T>, key: T -> string, x: T)
    requires forall i :: 0 <= i < |s| ==> key(s[i]) != key(x)
    ensures Remove(s + [x], key, key(x)) == s
  {
    FilterAppend(s, [x], KeyIsNot(key, key(x)));
    RemoveAbsent(s, key, key(x));
    assert Filter([x], KeyIsNot(key, key(x))) == [];
  }

  /** `s.map(y => key(y) === id ? x : y)`: replace by id. */
  function Replace<T>(s: seq<T>, key: T -> string, id: string, x: T): (r: seq<T>)
    ensures |r| == |s|
    ensures forall i :: 0 <= i < |s| ==> r[i] == if key(s[i]) == id then x else s[i]
  {
    if s == [] then []
    else [if key(s[0]) == id then x else s[0]] + Replace(s[1..], key, id, x)
  }

  /** Editing a record and then deleting it is the same as deleting it. */
  lemma {:induction false} RemoveAfterReplace<T>(s: seq<T>, key: T -> string, id: string, x: T)
    requires key(x) == id
    ensures Remove(Replace(s, key, id, x), key, id) == Remove(s, key, id)
  {
    if s != [] {
      RemoveAfterReplace(s[1..], key, id, x);
      assert Replace(s, key, id, x)[1..] == Replace(s[1..], key, id, x);
    }
  }

  /** `s.slice().reverse()`: the same elements, last first. */
  function Reverse<T>(s: seq<T>): (r: seq<T>)
    ensures |r| == |s|
    ensures forall i :: 0 <= i < |s| ==> r[i] == s[|s| - 1 - i]
  {
    if s == [] then [] else [s[|s| - 1]] + Reverse(s[..|s| - 1])
  }
}
