/** Sequence notions the run-level properties are stated with. */
module Sequences {

  /** The first occurrence of every element, in order of first appearance. */
  function Dedup<T(==)>(xs: seq<T>): seq<T>
    decreases |xs|
  {
    if xs == [] then []
    else
      var init := xs[..|xs| - 1];
      var last := xs[|xs| - 1];
      if last in init then Dedup(init) else Dedup(init) + [last]
  }

  /** `Dedup` keeps every element, adds none, and repeats none. */
  lemma {:induction false} DedupDistinct<T>(xs: seq<T>)
    ensures forall i :: 0 <= i < |Dedup(xs)| ==> Dedup(xs)[i] in xs
    ensures forall i :: 0 <= i < |xs| ==> xs[i] in Dedup(xs)
    ensures forall i, j :: 0 <= i < j < |Dedup(xs)| ==> Dedup(xs)[i] != Dedup(xs)[j]
    decreases |xs|
  {
    if xs != [] {
      var init := xs[..|xs| - 1];
      DedupDistinct(init);
      assert xs == init + [xs[|xs| - 1]];
    }
  }

  /** `a` can be obtained from `b` by deleting elements (matched from the back). */
  predicate IsSubsequence<T(==)>(a: seq<T>, b: seq<T>)
    decreases |b|
  {
    if a == [] then true
    else if b == [] then false
    else if a[|a| - 1] == b[|b| - 1] then IsSubsequence(a[..|a| - 1], b[..|b| - 1])
    else IsSubsequence(a, b[..|b| - 1])
  }

  /** Dropping the last element of a subsequence keeps it a subsequence. */
  lemma {:induction false} SubsequenceDropLast<T>(a: seq<T>, b: seq<T>)
    requires a != [] && IsSubsequence(a, b)
    ensures IsSubsequence(a[..|a| - 1], b)
    decreases |b|, 0
  {
    var b' := b[..|b| - 1];
    if a[|a| - 1] == b[|b| - 1] {
      SubsequenceExtend(a[..|a| - 1], b', b[|b| - 1]);
    } else {
      SubsequenceDropLast(a, b');
      SubsequenceExtend(a[..|a| - 1], b', b[|b| - 1]);
    }
    assert b' + [b[|b| - 1]] == b;
  }

  /** A subsequence of `b` is a subsequence of any extension of `b`. */
  lemma {:induction false} SubsequenceExtend<T>(a: seq<T>, b: seq<T>, x: T)
    requires IsSubsequence(a, b)
    ensures IsSubsequence(a, b + [x])
    decreases |b|, 1
  {
    assert (b + [x])[..|b|] == b;
    if a != [] && a[|a| - 1] == x {
      SubsequenceDropLast(a, b);
    }
  }

  /** Extending both sides by the same element keeps the relation. */
  lemma SubsequenceSnoc<T>(a: seq<T>, b: seq<T>, x: T)
    requires IsSubsequence(a, b)
    ensures IsSubsequence(a + [x], b + [x])
  {
    assert (a + [x])[..|a|] == a;
    assert (b + [x])[..|b|] == b;
  }
}
