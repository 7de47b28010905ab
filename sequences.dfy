/**
 * The two JavaScript array operations the server is built from:
 * `Array.prototype.find` (first element satisfying a predicate) and
 * `Array.prototype.filter` (the elements satisfying a predicate, in order).
 */
module Sequences {
  import opened Wrappers

  /** Index of the first element of `s` satisfying `p`, if any. */
  function FirstIndex<T>(s: seq<T>, p: T -> bool): (r: Option<nat>)
    ensures r.Some? ==> r.value < |s| && p(s[r.value])
    ensures r.Some? ==> forall j :: 0 <= j < r.value ==> !p(s[j])
    ensures r.None? <==> forall j :: 0 <= j < |s| ==> !p(s[j])
  {
    if |s| == 0 then None
    else if p(s[0]) then Some(0)
    else match FirstIndex(s[1..], p)
      case None => None
      case Some(i) => Some(i + 1)
  }

  /** `x` stands in `s` at an index where `p` holds and holds nowhere earlier. */
  ghost predicate IsFirstMatch<T>(s: seq<T>, p: T -> bool, x: T)
  {
    exists i :: 0 <= i < |s| && s[i] == x && p(x) && forall j :: 0 <= j < i ==> !p(s[j])
  }

  /** `s.find(p)`: the first element satisfying `p`, or nothing. */
  function Find<T>(s: seq<T>, p: T -> bool): (r: Option<T>)
    ensures r.Some? ==> IsFirstMatch(s, p, r.value)
    ensures r.None? <==> forall j :: 0 <= j < |s| ==> !p(s[j])
  {
    match FirstIndex(s, p)
    case None => None
    case Some(i) => Some(s[i])
  }

  /** There is exactly one first match, so `Find` is determined by `IsFirstMatch`. */
  lemma FirstMatchUnique<T>(s: seq<T>, p: T -> bool, x: T, y: T)
    requires IsFirstMatch(s, p, x) && IsFirstMatch(s, p, y)
    ensures x == y
  {
  }

  /**
   * Appending an element never changes an existing first match; when nothing
   * earlier matches, the appended element is found.
   */
  lemma FindAfterAppend<T>(s: seq<T>, x: T, p: T -> bool)
    ensures Find(s, p).Some? ==> Find(s + [x], p) == Find(s, p)
    ensures Find(s, p).None? && p(x) ==> Find(s + [x], p) == Some(x)
    ensures Find(s, p).None? && !p(x) ==> Find(s + [x], p) == None
  {
    var t := s + [x];
    assert forall j :: 0 <= j < |s| ==> t[j] == s[j];
    match Find(s, p)
    case Some(y) =>
      var i :| 0 <= i < |s| && s[i] == y && p(y) && forall j :: 0 <= j < i ==> !p(s[j]);
      assert t[i] == y;
      assert IsFirstMatch(t, p, y);
      FirstMatchUnique(t, p, y, Find(t, p).value);
    case None =>
      if p(x) {
        assert t[|s|] == x;
        assert IsFirstMatch(t, p, x);
        FirstMatchUnique(t, p, x, Find(t, p).value);
      } else {
        assert forall j :: 0 <= j < |t| ==> !p(t[j]);
      }
  }

  /** `s.filter(p)`: the elements of `s` satisfying `p`, in their original order. */
  function Filter<T>(s: seq<T>, p: T -> bool): (r: seq<T>)
    ensures |r| <= |s|
    ensures forall x :: x in r ==> x in s && p(x)
  {
    if |s| == 0 then []
    else (if p(s[0]) then [s[0]] else []) + Filter(s[1..], p)
  }

  /** `r` can be obtained from `s` by deleting elements, so `r` keeps the order of `s`. */
  ghost predicate IsSubsequence<T>(r: seq<T>, s: seq<T>)
    decreases |s|
  {
    if |r| == 0 then true
    else if |s| == 0 then false
    else (r[0] == s[0] && IsSubsequence(r[1..], s[1..])) || IsSubsequence(r, s[1..])
  }

  lemma {:induction false} FilterIsSubsequence<T>(s: seq<T>, p: T -> bool)
    ensures IsSubsequence(Filter(s, p), s)
    decreases |s|
  {
    if |s| > 0 {
      FilterIsSubsequence(s[1..], p);
      var r := Filter(s, p);
      if p(s[0]) {
        assert r[0] == s[0] && r[1..] == Filter(s[1..], p);
      } else {
        assert r == Filter(s[1..], p);
      }
    }
  }

  /**
   * Filter keeps every occurrence of a satisfying element and drops every
   * occurrence of the others: soundness and completeness, counted with
   * multiplicity.
   */
  lemma {:induction false} FilterCounts<T>(s: seq<T>, p: T -> bool, x: T)
    ensures multiset(Filter(s, p))[x] == if p(x) then multiset(s)[x] else 0
    decreases |s|
  {
    if |s| > 0 {
      FilterCounts(s[1..], p, x);
      assert s == [s[0]] + s[1..];
      assert multiset(s) == multiset([s[0]]) + multiset(s[1..]);
    }
  }

  lemma FilterComplete<T>(s: seq<T>, p: T -> bool, x: T)
    requires x in s && p(x)
    ensures x in Filter(s, p)
  {
  }

  /** Filter distributes over concatenation. */
  lemma {:induction false} FilterAppend<T>(s: seq<T>, t: seq<T>, p: T -> bool)
    ensures Filter(s + t, p) == Filter(s, p) + Filter(t, p)
    decreases |s|
  {
    if |s| > 0 {
      FilterAppend(s[1..], t, p);
      assert (s + t)[1..] == s[1..] + t;
    } else {
      assert s + t == t;
    }
  }

  /** Two filters in a row are one filter by the conjunction. */
  lemma {:induction false} FilterTwice<T>(s: seq<T>, p: T -> bool, q: T -> bool, pq: T -> bool)
    requires forall x :: pq(x) == (p(x) && q(x))
    ensures Filter(Filter(s, p), q) == Filter(s, pq)
    decreases |s|
  {
    if |s| > 0 {
      FilterTwice(s[1..], p, q, pq);
      var head := if p(s[0]) then [s[0]] else [];
      FilterAppend(head, Filter(s[1..], p), q);
    }
  }

  /** The loop behind `s.filter(p)`: one pass, pushing each satisfying element. */
  method FilterLoop<T>(s: seq<T>, p: T -> bool) returns (kept: seq<T>)
    ensures kept == Filter(s, p)
  {
    kept := [];
    var i := 0;
    while i < |s|
      invariant 0 <= i <= |s|
      invariant kept == Filter(s[..i], p)
    {
      FilterAppend(s[..i], [s[i]], p);
      assert s[..i + 1] == s[..i] + [s[i]];
      if p(s[i]) {
        kept := kept + [s[i]];
      }
      i := i + 1;
    }
    assert s[..i] == s;
  }
}
