/**
 * The array searches the page uses (`filter`, `find`, `findIndex`), as functions over
 * sequences, with what they promise: a filter keeps exactly the matching elements in
 * their original order, a search finds the first match or reports that there is none.
 */
module Seqs {
  import opened Wrappers

  /** `s.filter(p)`. */
  function Filter<T>(s: seq<T>, p: T -> bool): (r: seq<T>)
    ensures |r| <= |s|
    decreases |s|
  {
    if s == [] then [] else (if p(s[0]) then [s[0]] else []) + Filter(s[1..], p)
  }

  /** A filter keeps exactly the elements that match. */
  lemma {:induction false} FilterMembers<T>(s: seq<T>, p: T -> bool)
    ensures forall x :: x in Filter(s, p) <==> x in s && p(x)
    decreases |s|
  {
    if s != [] {
      FilterMembers(s[1..], p);
      assert forall x :: x in s <==> x == s[0] || x in s[1..];
    }
  }

  /** Filtering a concatenation filters each part. */
  lemma {:induction false} FilterAppend<T>(a: seq<T>, b: seq<T>, p: T -> bool)
    ensures Filter(a + b, p) == Filter(a, p) + Filter(b, p)
    decreases |a|
  {
    if a == [] {
      assert a + b == b;
    } else {
      var head := if p(a[0]) then [a[0]] else [];
      assert (a + b)[0] == a[0];
      assert (a + b)[1..] == a[1..] + b;
      assert Filter(a + b, p) == head + Filter(a[1..] + b, p);
      FilterAppend(a[1..], b, p);
      assert Filter(a, p) == head + Filter(a[1..], p);
    }
  }

  /** A filter over elements that all match keeps everything. */
  lemma {:induction false} FilterAll<T>(s: seq<T>, p: T -> bool)
    requires forall i :: 0 <= i < |s| ==> p(s[i])
    ensures Filter(s, p) == s
    decreases |s|
  {
    if s != [] {
      FilterAll(s[1..], p);
    }
  }

  /** A filter over elements none of which match keeps nothing. */
  lemma {:induction false} FilterNone<T>(s: seq<T>, p: T -> bool)
    requires forall i :: 0 <= i < |s| ==> !p(s[i])
    ensures Filter(s, p) == []
    decreases |s|
  {
    if s != [] {
      FilterNone(s[1..], p);
    }
  }

  /** When exactly the first k elements match, the filter is the prefix of length k. */
  lemma {:induction false} FilterPrefix<T>(s: seq<T>, p: T -> bool, k: nat)
    requires k <= |s|
    requires forall i :: 0 <= i < |s| ==> (p(s[i]) <==> i < k)
    ensures Filter(s, p) == s[..k]
    decreases |s|
  {
    if s == [] {
    } else if k == 0 {
      FilterNone(s, p);
    } else {
      FilterPrefix(s[1..], p, k - 1);
      assert s[..k] == [s[0]] + s[1..][..k - 1];
    }
  }

  /** The positions j >= from of `s` whose element matches, in increasing order. */
  function MatchingPositions<T>(s: seq<T>, p: T -> bool, from: nat): seq<nat>
    requires from <= |s|
    decreases |s| - from
  {
    if from == |s| then []
    else (if p(s[from]) then [from] else []) + MatchingPositions(s, p, from + 1)
  }

  /** `r` is `s` restricted to the strictly increasing positions `idx`. */
  ghost predicate PicksInOrder<T>(r: seq<T>, s: seq<T>, idx: seq<nat>)
  {
    && |idx| == |r|
    && (forall i :: 0 <= i < |idx| ==> idx[i] < |s| && r[i] == s[idx[i]])
    && (forall i, j :: 0 <= i < j < |idx| ==> idx[i] < idx[j])
  }

  /** The matching positions from `from` on are exactly the positions j >= from whose element matches. */
  lemma {:induction false} MatchingPositionsExact<T>(s: seq<T>, p: T -> bool, from: nat)
    requires from <= |s|
    ensures forall j :: j in MatchingPositions(s, p, from) <==> from <= j < |s| && p(s[j])
    decreases |s| - from
  {
    if from < |s| {
      MatchingPositionsExact(s, p, from + 1);
    }
  }

  /** Picking position `at` in front of picks that all lie after it keeps the picks in order. */
  lemma PickFront<T>(r: seq<T>, s: seq<T>, idx: seq<nat>, at: nat)
    requires at < |s| && PicksInOrder(r, s, idx)
    requires forall j :: j in idx ==> at < j
    ensures PicksInOrder([s[at]] + r, s, [at] + idx)
  {
    forall i | 0 <= i < |idx|
      ensures at < idx[i]
    {
      assert idx[i] in idx;
    }
  }

  /**
   * A filter is the order-preserving subsequence of exactly the matching elements: it
   * picks the elements at increasing positions, and every matching position is picked.
   */
  lemma {:induction false} FilterKeepsOrder<T>(s: seq<T>, p: T -> bool, from: nat)
    requires from <= |s|
    ensures PicksInOrder(Filter(s[from..], p), s, MatchingPositions(s, p, from))
    ensures forall j :: j in MatchingPositions(s, p, from) <==> from <= j < |s| && p(s[j])
    decreases |s| - from
  {
    MatchingPositionsExact(s, p, from);
    if from < |s| {
      FilterKeepsOrder(s, p, from + 1);
      var rest := Filter(s[from + 1..], p);
      var idx := MatchingPositions(s, p, from + 1);
      assert s[from..][1..] == s[from + 1..];
      assert s[from..][0] == s[from];
      if p(s[from]) {
        assert Filter(s[from..], p) == [s[from]] + rest;
        PickFront(rest, s, idx, from);
      } else {
        assert Filter(s[from..], p) == [] + rest == rest;
        assert MatchingPositions(s, p, from) == [] + idx == idx;
      }
    }
  }

  /** `s.findIndex(p)`: the first matching position, or -1 when nothing matches. */
  function FindIndex<T>(s: seq<T>, p: T -> bool): (i: int)
    ensures -1 <= i < |s|
    ensures 0 <= i ==> p(s[i]) && forall j :: 0 <= j < i ==> !p(s[j])
    ensures i == -1 <==> forall j :: 0 <= j < |s| ==> !p(s[j])
    decreases |s|
  {
    if s == [] then -1
    else if p(s[0]) then 0
    else
      var i := FindIndex(s[1..], p);
      if i == -1 then -1 else i + 1
  }

  /** `s.find(p)`: the first matching element, or `undefined`. */
  function Find<T>(s: seq<T>, p: T -> bool): (r: Option<T>)
    ensures r.None? <==> forall j :: 0 <= j < |s| ==> !p(s[j])
    ensures r.Some? ==> exists i :: 0 <= i < |s| && s[i] == r.value && p(s[i]) && forall j :: 0 <= j < i ==> !p(s[j])
  {
    var i := FindIndex(s, p);
    if i == -1 then None else Some(s[i])
  }
}
