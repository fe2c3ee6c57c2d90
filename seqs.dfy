/** Sequence helpers shared by the dashboard and the backend: the
    `Array.prototype.filter` of the frontend, the `slice(-n)` that caps a
    history, and the first-appearance de-duplication of pandas `unique()`. */
module Seqs {

  /** No value occurs twice. */
  predicate Distinct<T(==)>(s: seq<T>) {
    forall i, j :: 0 <= i < j < |s| ==> s[i] != s[j]
  }

  /** Any slice of a sequence without repeats has none either. */
  lemma DistinctSlice<T>(s: seq<T>, lo: int, hi: int)
    requires Distinct(s) && 0 <= lo <= hi <= |s|
    ensures Distinct(s[lo..hi])
  {
    forall i, j | 0 <= i < j < hi - lo
      ensures s[lo..hi][i] != s[lo..hi][j]
    {
      assert s[lo..hi][i] == s[lo + i] && s[lo..hi][j] == s[lo + j];
    }
  }

  /** The elements of `s` that satisfy `keep`, in their original order
      (JavaScript `s.filter(keep)`). */
  function Filter<T>(s: seq<T>, keep: T -> bool): (r: seq<T>)
    ensures |r| <= |s|
    ensures forall k :: 0 <= k < |r| ==> keep(r[k])
    decreases |s|
  {
    if s == [] then []
    else Filter(s[..|s| - 1], keep) + (if keep(s[|s| - 1]) then [s[|s| - 1]] else [])
  }

  /** The positions in `s` of the elements that `Filter` keeps. */
  ghost function FilterIndices<T>(s: seq<T>, keep: T -> bool): seq<int>
    decreases |s|
  {
    if s == [] then []
    else FilterIndices(s[..|s| - 1], keep) + (if keep(s[|s| - 1]) then [|s| - 1] else [])
  }

  /** `idx` embeds `r` into `s` in order: `r` is the subsequence of `s` at
      the strictly increasing positions `idx`. */
  ghost predicate EmbeddedAt<T>(r: seq<T>, s: seq<T>, idx: seq<int>) {
    && |idx| == |r|
    && (forall k :: 0 <= k < |idx| ==> 0 <= idx[k] < |s| && r[k] == s[idx[k]])
    && (forall k, l :: 0 <= k < l < |idx| ==> idx[k] < idx[l])
  }

  /** Filter is exactly a filter: the result is the subsequence of `s` at
      the positions whose element satisfies `keep`, every such position and
      no other, kept in order. */
  lemma FilterIsSubsequence<T>(s: seq<T>, keep: T -> bool)
    ensures EmbeddedAt(Filter(s, keep), s, FilterIndices(s, keep))
    ensures forall i :: 0 <= i < |s| ==> (keep(s[i]) <==> i in FilterIndices(s, keep))
  {
    FilterEmbedded(s, keep);
    forall i | 0 <= i < |s|
      ensures keep(s[i]) <==> i in FilterIndices(s, keep)
    {
      FilterIndexListed(s, keep, i);
    }
  }

  /** `Filter` keeps the elements at the positions `FilterIndices` lists,
      in order. */
  lemma {:induction false} FilterEmbedded<T>(s: seq<T>, keep: T -> bool)
    ensures EmbeddedAt(Filter(s, keep), s, FilterIndices(s, keep))
    decreases |s|
  {
    if s != [] {
      var p := s[..|s| - 1];
      var last := s[|s| - 1];
      FilterEmbedded(p, keep);
      var idx := FilterIndices(p, keep);
      assert Filter(s, keep) == Filter(p, keep) + (if keep(last) then [last] else []);
      assert FilterIndices(s, keep) == idx + (if keep(last) then [|s| - 1] else []);
      assert forall k :: 0 <= k < |idx| ==> idx[k] < |p| && s[idx[k]] == p[idx[k]];
    }
  }

  /** Position `i` is listed by `FilterIndices` exactly when its element
      satisfies `keep`. */
  lemma {:induction false} FilterIndexListed<T>(s: seq<T>, keep: T -> bool, i: int)
    requires 0 <= i < |s|
    ensures keep(s[i]) <==> i in FilterIndices(s, keep)
    decreases |s|
  {
    var p, last := s[..|s| - 1], s[|s| - 1];
    var idx := FilterIndices(p, keep);
    var here := if keep(last) then [|s| - 1] else [];
    assert FilterIndices(s, keep) == idx + here;
    if i == |s| - 1 {
      FilterEmbedded(p, keep);
      assert i !in idx by {
        assert forall k :: 0 <= k < |idx| ==> idx[k] < |p|;
      }
      assert i in here <==> keep(last);
    } else {
      FilterIndexListed(p, keep, i);
      assert s[i] == p[i];
      assert i !in here;
    }
  }

  /** Every element that satisfies `keep` survives the filter. */
  lemma FilterKeepsSatisfying<T>(s: seq<T>, keep: T -> bool, i: int)
    requires 0 <= i < |s| && keep(s[i])
    ensures exists k :: 0 <= k < |Filter(s, keep)| && Filter(s, keep)[k] == s[i]
  {
    FilterIsSubsequence(s, keep);
    var idx := FilterIndices(s, keep);
    var k :| 0 <= k < |idx| && idx[k] == i;
    assert Filter(s, keep)[k] == s[i];
  }

  /** Every element of the filter's result comes from `s`. */
  lemma FilterElementFrom<T>(s: seq<T>, keep: T -> bool, k: int)
    requires 0 <= k < |Filter(s, keep)|
    ensures exists i :: 0 <= i < |s| && s[i] == Filter(s, keep)[k] && keep(s[i])
  {
    FilterIsSubsequence(s, keep);
    var i := FilterIndices(s, keep)[k];
    assert s[i] == Filter(s, keep)[k];
  }

  /** Filtering distributes over concatenation. */
  lemma {:induction false} FilterAppend<T>(s: seq<T>, t: seq<T>, keep: T -> bool)
    ensures Filter(s + t, keep) == Filter(s, keep) + Filter(t, keep)
    decreases |t|
  {
    if t == [] {
      assert s + t == s;
    } else {
      var t' := t[..|t| - 1];
      FilterAppend(s, t', keep);
      assert (s + t)[..|s + t| - 1] == s + t';
      assert (s + t)[|s + t| - 1] == t[|t| - 1];
      assert Filter(s + t, keep) == Filter(s + t', keep) + (if keep(t[|t| - 1]) then [t[|t| - 1]] else []);
    }
  }

  /** Filtering with a predicate every element satisfies changes nothing. */
  lemma {:induction false} FilterAllKept<T>(s: seq<T>, keep: T -> bool)
    requires forall k :: 0 <= k < |s| ==> keep(s[k])
    ensures Filter(s, keep) == s
    decreases |s|
  {
    if s != [] {
      FilterAllKept(s[..|s| - 1], keep);
    }
  }

  /** The last `n` elements of `s`, or all of `s` when it is shorter
      (JavaScript `s.slice(-n)` for a positive `n`). */
  function TakeLast<T>(s: seq<T>, n: nat): (r: seq<T>)
    requires n > 0
    ensures |r| == if |s| <= n then |s| else n
  {
    if |s| <= n then s else s[|s| - n..]
  }

  /** Appending one element and keeping the last `n`: the result is never
      longer than `n`, ends with the new element, is a suffix of the old
      sequence followed by it, and drops exactly the oldest element when the
      old sequence was already full. */
  lemma AppendTakeLast<T>(s: seq<T>, x: T, n: nat)
    requires n > 0
    ensures var r := TakeLast(s + [x], n);
      && |r| <= n
      && r[|r| - 1] == x
      && (|s| < n ==> r == s + [x])
      && (|s| >= n ==> r == s[|s| - n + 1..] + [x])
      && (|s| == n ==> r == s[1..] + [x])
  {
    var t := s + [x];
    if |s| >= n {
      assert t[|t| - n..] == s[|s| - n + 1..] + [x];
    }
  }

  /** The distinct values of `s` in order of first appearance
      (pandas `Series.unique()`). */
  function Dedup<T(==)>(s: seq<T>): (r: seq<T>)
    ensures Distinct(r)
    ensures forall k :: 0 <= k < |r| ==> r[k] in s
    ensures forall i :: 0 <= i < |s| ==> s[i] in r
    decreases |s|
  {
    if s == [] then []
    else
      var d := Dedup(s[..|s| - 1]);
      if s[|s| - 1] in d then d else d + [s[|s| - 1]]
  }
}
