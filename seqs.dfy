/** `Array.prototype.filter` and the facts about it that the list editors
    rely on: it keeps exactly the matching elements, in their original
    order. */
module Seqs {

  /** `r` is `s` with some elements left out, the rest in their order. */
  predicate IsSubsequence<T(==)>(r: seq<T>, s: seq<T>)
    decreases |s|
  {
    if r == [] then true
    else if s == [] then false
    else if r[0] == s[0] then IsSubsequence(r[1..], s[1..])
    else IsSubsequence(r, s[1..])
  }

  /** `s.filter(keep)`. */
  function Filter<T>(s: seq<T>, keep: T -> bool): (r: seq<T>)
    ensures |r| <= |s|
    ensures forall i :: 0 <= i < |r| ==> keep(r[i])
    decreases |s|
  {
    if s == [] then []
    else if keep(s[0]) then [s[0]] + Filter(s[1..], keep)
    else Filter(s[1..], keep)
  }

  /** The filter keeps its elements in their original order. */
  lemma {:induction false} FilterIsSubsequence<T>(s: seq<T>, keep: T -> bool)
    ensures IsSubsequence(Filter(s, keep), s)
    decreases |s|
  {
    if s != [] {
      FilterIsSubsequence(s[1..], keep);
    }
  }

  /** The filter holds exactly the elements of `s` that pass the test. */
  lemma {:induction false} FilterMembers<T>(s: seq<T>, keep: T -> bool)
    ensures forall x :: x in Filter(s, keep) <==> x in s && keep(x)
    decreases |s|
  {
    if s != [] {
      FilterMembers(s[1..], keep);
      assert s == [s[0]] + s[1..];
    }
  }

  /** An element that fails the test is dropped. */
  lemma FilterSkip<T>(s: seq<T>, keep: T -> bool, k: nat)
    requires k < |s| && !keep(s[k])
    ensures Filter(s[k..], keep) == Filter(s[k + 1..], keep)
  {
    assert s[k..][1..] == s[k + 1..];
  }

  /** A run of elements that pass the test is kept whole. */
  lemma {:induction false} FilterRun<T>(s: seq<T>, keep: T -> bool, lo: nat, hi: nat)
    requires lo <= hi <= |s|
    requires forall i :: lo <= i < hi ==> keep(s[i])
    ensures Filter(s[lo..], keep) == s[lo..hi] + Filter(s[hi..], keep)
    decreases hi - lo
  {
    if lo < hi {
      assert s[lo..][1..] == s[lo + 1..];
      FilterRun(s, keep, lo + 1, hi);
      assert s[lo..hi] == [s[lo]] + s[lo + 1..hi];
    }
  }

  /** A filter that keeps everything is the identity. */
  lemma {:induction false} FilterKeepsAll<T>(s: seq<T>, keep: T -> bool)
    requires forall i :: 0 <= i < |s| ==> keep(s[i])
    ensures Filter(s, keep) == s
    decreases |s|
  {
    if s != [] {
      FilterKeepsAll(s[1..], keep);
    }
  }

  /** A filter that matches nothing gives the empty list. */
  lemma {:induction false} FilterKeepsNone<T>(s: seq<T>, keep: T -> bool)
    requires forall i :: 0 <= i < |s| ==> !keep(s[i])
    ensures Filter(s, keep) == []
    decreases |s|
  {
    if s != [] {
      FilterKeepsNone(s[1..], keep);
    }
  }

  /** Filtering a concatenation filters each part. */
  lemma {:induction false} FilterAppend<T>(a: seq<T>, b: seq<T>, keep: T -> bool)
    ensures Filter(a + b, keep) == Filter(a, keep) + Filter(b, keep)
    decreases |a|
  {
    if a != [] {
      assert (a + b)[1..] == a[1..] + b;
      FilterAppend(a[1..], b, keep);
    } else {
      assert a + b == b;
    }
  }

  /** Filtering twice by the same test is filtering once. */
  lemma {:induction false} FilterIdempotent<T>(s: seq<T>, keep: T -> bool)
    ensures Filter(Filter(s, keep), keep) == Filter(s, keep)
    decreases |s|
  {
    if s != [] {
      FilterIdempotent(s[1..], keep);
    }
  }

  /** `s.map(x => matches(x) ? update(x) : x)`: the matching elements
      replaced, the others kept, positions unchanged. */
  function MapWhere<T>(s: seq<T>, matches: T -> bool, update: T -> T): (r: seq<T>)
    ensures |r| == |s|
    ensures forall i :: 0 <= i < |s| ==> r[i] == if matches(s[i]) then update(s[i]) else s[i]
    decreases |s|
  {
    if s == [] then []
    else [if matches(s[0]) then update(s[0]) else s[0]] + MapWhere(s[1..], matches, update)
  }

  /** When nothing matches, the map is the identity. */
  lemma MapWhereNoMatch<T>(s: seq<T>, matches: T -> bool, update: T -> T)
    requires forall i :: 0 <= i < |s| ==> !matches(s[i])
    ensures MapWhere(s, matches, update) == s
  {
    var r := MapWhere(s, matches, update);
    assert forall i :: 0 <= i < |s| ==> r[i] == s[i];
  }
}
