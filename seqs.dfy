/** The sequence operations the chat views are built from: `Array.prototype.filter`
    by element and by index, and the de-duplication obtained by spreading a `Set`
    back into an array. Subsequence is stated by an explicit index witness. */
module Seqs {

  /** `idx` is strictly increasing. */
  ghost predicate Increasing(idx: seq<nat>)
  {
    forall a, b :: 0 <= a < b < |idx| ==> idx[a] < idx[b]
  }

  /** `r` is the sequence of elements of `s` at the increasing positions `idx`. */
  ghost predicate PicksFrom<T>(r: seq<T>, s: seq<T>, idx: seq<nat>)
  {
    && |idx| == |r|
    && Increasing(idx)
    && forall j :: 0 <= j < |idx| ==> idx[j] < |s| && r[j] == s[idx[j]]
  }

  /** `r` is obtained from `s` by deleting elements, keeping the order of the rest. */
  ghost predicate IsSubseq<T>(r: seq<T>, s: seq<T>)
  {
    exists idx :: PicksFrom(r, s, idx)
  }

  /** No element occurs twice. */
  ghost predicate NoDup<T>(s: seq<T>)
  {
    forall i, j :: 0 <= i < j < |s| ==> s[i] != s[j]
  }

  /** The elements of `s` satisfying `p`, in their original order (`s.filter(p)`). */
  function Filter<T>(s: seq<T>, p: T -> bool): (r: seq<T>)
    ensures |r| <= |s|
    ensures forall i :: 0 <= i < |r| ==> r[i] in s && p(r[i])
    ensures forall i :: 0 <= i < |s| && p(s[i]) ==> s[i] in r
  {
    if s == [] then []
    else
      assert s == s[..|s| - 1] + [s[|s| - 1]];
      Filter(s[..|s| - 1], p) + (if p(s[|s| - 1]) then [s[|s| - 1]] else [])
  }

  /** Nothing passes a filter that no element satisfies. */
  lemma {:induction false} FilterNone<T>(s: seq<T>, p: T -> bool)
    requires forall i :: 0 <= i < |s| ==> !p(s[i])
    ensures Filter(s, p) == []
  {
    if s != [] {
      FilterNone(s[..|s| - 1], p);
    }
  }

  /** Filtering keeps exactly the occurrences of the elements that pass. */
  lemma {:induction false} FilterCount<T>(s: seq<T>, p: T -> bool, x: T)
    ensures multiset(Filter(s, p))[x] == if p(x) then multiset(s)[x] else 0
  {
    if s != [] {
      var front, last := s[..|s| - 1], s[|s| - 1];
      assert s == front + [last];
      FilterCount(front, p, x);
    }
  }

  /** The positions in `s` of the elements `Filter` keeps. */
  lemma {:induction false} FilterPicks<T>(s: seq<T>, p: T -> bool) returns (idx: seq<nat>)
    ensures PicksFrom(Filter(s, p), s, idx)
    ensures forall j :: 0 <= j < |idx| ==> p(s[idx[j]])
  {
    if s == [] {
      idx := [];
    } else {
      var front, last := s[..|s| - 1], s[|s| - 1];
      var inner := FilterPicks(front, p);
      var r := Filter(s, p);
      assert r == Filter(front, p) + (if p(last) then [last] else []);
      if p(last) {
        idx := inner + [|s| - 1];
      } else {
        idx := inner;
      }
      forall j | 0 <= j < |idx| ensures idx[j] < |s| && r[j] == s[idx[j]] && p(s[idx[j]]) {
        if j < |inner| {
          assert r[j] == Filter(front, p)[j];
        }
      }
    }
  }

  /** A filtered sequence is a subsequence of its input: order is kept. */
  lemma FilterIsSubseq<T>(s: seq<T>, p: T -> bool)
    ensures IsSubseq(Filter(s, p), s)
  {
    var idx := FilterPicks(s, p);
  }

  /** Filtering by two predicates that agree on every element gives the same result. */
  lemma {:induction false} FilterCongruent<T>(s: seq<T>, p: T -> bool, q: T -> bool)
    requires forall i :: 0 <= i < |s| ==> p(s[i]) == q(s[i])
    ensures Filter(s, p) == Filter(s, q)
  {
    if s != [] {
      FilterCongruent(s[..|s| - 1], p, q);
    }
  }

  /** Filtering distributes over concatenation. */
  lemma {:induction false} FilterConcat<T>(a: seq<T>, b: seq<T>, p: T -> bool)
    ensures Filter(a + b, p) == Filter(a, p) + Filter(b, p)
  {
    if b == [] {
      assert a + b == a;
    } else {
      var front, last := b[..|b| - 1], b[|b| - 1];
      var ab := a + b;
      assert ab[..|ab| - 1] == a + front && ab[|ab| - 1] == last;
      FilterConcat(a, front, p);
    }
  }

  /** `[0, 1, ..., n - 1]`: the indices of a sequence of length `n`. */
  function Range(n: nat): (r: seq<nat>)
    ensures |r| == n
    ensures forall i :: 0 <= i < n ==> r[i] == i
  {
    if n == 0 then [] else Range(n - 1) + [n - 1]
  }

  /** The indices below `n` that satisfy `keep`, in increasing order. */
  function KeptIndices(n: nat, keep: nat -> bool): seq<nat>
  {
    Filter(Range(n), keep)
  }

  /** Every index in `KeptIndices(n, keep)` is below `n` and satisfies `keep`. */
  lemma KeptIndicesBelow(n: nat, keep: nat -> bool)
    ensures forall j :: 0 <= j < |KeptIndices(n, keep)| ==> KeptIndices(n, keep)[j] < n && keep(KeptIndices(n, keep)[j])
  {
    var r, idx := Range(n), KeptIndices(n, keep);
    forall j | 0 <= j < |idx| ensures idx[j] < n && keep(idx[j]) {
      assert idx[j] in r;
    }
  }

  /** `KeptIndices` holds exactly the indices below `n` that satisfy `keep`. */
  lemma KeptIndicesMembers(n: nat, keep: nat -> bool)
    ensures forall i: nat :: i in KeptIndices(n, keep) <==> i < n && keep(i)
  {
    KeptIndicesBelow(n, keep);
    var r := Range(n);
    forall i: nat | i < n && keep(i) ensures i in KeptIndices(n, keep) {
      assert r[i] == i;
    }
  }

  /** The elements of `s` whose index satisfies `keep`, in order (`s.filter((_, i) => keep(i))`). */
  function FilterByIndex<T>(s: seq<T>, keep: nat -> bool): (r: seq<T>)
    ensures |r| <= |s|
  {
    if s == [] then []
    else FilterByIndex(s[..|s| - 1], keep) + (if keep(|s| - 1) then [s[|s| - 1]] else [])
  }

  /** Extending `s` by one element keeps a selection valid, and may add that element to it. */
  lemma PicksGrow<T>(r: seq<T>, s: seq<T>, idx: seq<nat>, take: bool)
    requires s != [] && PicksFrom(r, s[..|s| - 1], idx)
    ensures PicksFrom(r + (if take then [s[|s| - 1]] else []), s, idx + (if take then [|s| - 1] else []))
  {
    var r', idx' := r + (if take then [s[|s| - 1]] else []), idx + (if take then [|s| - 1] else []);
    forall j | 0 <= j < |idx'| ensures idx'[j] < |s| && r'[j] == s[idx'[j]] {
      if j < |idx| {
        assert s[..|s| - 1][idx[j]] == s[idx[j]];
      }
    }
  }

  /** `FilterByIndex` picks the elements of `s` at exactly the kept indices, in order. */
  lemma {:induction false} FilterByIndexPicks<T>(s: seq<T>, keep: nat -> bool)
    ensures PicksFrom(FilterByIndex(s, keep), s, KeptIndices(|s|, keep))
  {
    if s != [] {
      var n := |s|;
      FilterByIndexPicks(s[..n - 1], keep);
      assert KeptIndices(n, keep) == KeptIndices(n - 1, keep) + (if keep(n - 1) then [n - 1] else []) by {
        assert Range(n)[..n - 1] == Range(n - 1);
      }
      PicksGrow(FilterByIndex(s[..n - 1], keep), s, KeptIndices(n - 1, keep), keep(n - 1));
    }
  }

  /** An element is kept by `FilterByIndex` iff it stands at some index that `keep` accepts. */
  lemma FilterByIndexMembers<T>(s: seq<T>, keep: nat -> bool, x: T)
    ensures x in FilterByIndex(s, keep) <==> exists i :: 0 <= i < |s| && keep(i) && s[i] == x
  {
    FilterByIndexPicks(s, keep);
    KeptIndicesMembers(|s|, keep);
    var r, idx := FilterByIndex(s, keep), KeptIndices(|s|, keep);
    if x in r {
      var j :| 0 <= j < |r| && r[j] == x;
      assert idx[j] in idx;
    }
    if i :| 0 <= i < |s| && keep(i) && s[i] == x {
      var j :| 0 <= j < |idx| && idx[j] == i;
      assert r[j] == x;
    }
  }

  /** The position of the first occurrence of `x` in `s` (`s.indexOf(x)`). */
  function FirstIndex<T(==)>(s: seq<T>, x: T): (i: nat)
    requires x in s
    ensures i < |s| && s[i] == x && x !in s[..i]
  {
    if s[0] == x then 0
    else
      var i := FirstIndex(s[1..], x);
      assert s[..i + 1] == [s[0]] + s[1..][..i];
      i + 1
  }

  /** The first occurrence of `x` in `s` is also its first occurrence in any prefix that holds it. */
  lemma FirstIndexInPrefix<T>(s: seq<T>, k: nat, x: T)
    requires k <= |s| && x in s[..k]
    ensures FirstIndex(s, x) == FirstIndex(s[..k], x)
  {
    var i, j := FirstIndex(s[..k], x), FirstIndex(s, x);
    assert s[..k][..i] == s[..i];
  }

  /** The distinct elements of `s` in first-occurrence order (`[...new Set(s)]`). */
  function Distinct<T(==)>(s: seq<T>): (r: seq<T>)
    ensures forall i :: 0 <= i < |r| ==> r[i] in s
    ensures forall i :: 0 <= i < |s| ==> s[i] in r
    ensures NoDup(r)
  {
    if s == [] then []
    else
      var front, last := s[..|s| - 1], s[|s| - 1];
      assert s == front + [last];
      var d := Distinct(front);
      if last in d then d else d + [last]
  }

  /** `Distinct` lists its elements in the order of their first occurrence in `s`. */
  lemma {:induction false} DistinctFirstOccurrence<T>(s: seq<T>)
    ensures forall i, j :: 0 <= i < j < |Distinct(s)| ==>
      FirstIndex(s, Distinct(s)[i]) < FirstIndex(s, Distinct(s)[j])
  {
    if s != [] {
      var n := |s|;
      var front, last := s[..n - 1], s[n - 1];
      DistinctFirstOccurrence(front);
      var d, r := Distinct(front), Distinct(s);
      forall i | 0 <= i < |d| ensures FirstIndex(s, d[i]) == FirstIndex(front, d[i]) {
        assert d[i] in d;
        FirstIndexInPrefix(s, n - 1, d[i]);
      }
      if last !in d {
        assert last !in front;
        assert s[..n - 1] == front;
        assert FirstIndex(s, last) == n - 1;
      }
      forall i, j | 0 <= i < j < |r| ensures FirstIndex(s, r[i]) < FirstIndex(s, r[j]) {
        assert r[i] == d[i];
        if j < |d| {
          assert r[j] == d[j];
        }
      }
    }
  }
}
