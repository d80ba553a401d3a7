/** The `filter` and `map` of JavaScript arrays, with the facts the model needs about them. */
module Seqs {

  /** `a` is `b` with some elements left out, the rest kept in their order. */
  predicate IsSubsequence<T(==)>(a: seq<T>, b: seq<T>)
    decreases |b|
  {
    if a == [] then true
    else if b == [] then false
    else if a[0] == b[0] then IsSubsequence(a[1..], b[1..])
    else IsSubsequence(a, b[1..])
  }

  /** `xs.filter(keep)` */
  function Filter<T(==)>(keep: T -> bool, xs: seq<T>): (r: seq<T>)
    ensures forall k :: 0 <= k < |r| ==> keep(r[k]) && r[k] in xs
    ensures forall x :: x in xs && keep(x) ==> x in r
    ensures IsSubsequence(r, xs)
    ensures |r| <= |xs|
    ensures forall x :: x in xs ==> multiset(r)[x] == if keep(x) then multiset(xs)[x] else 0
  {
    if xs == [] then []
    else
      var tail := Filter(keep, xs[1..]);
      FilterStep(keep, xs, tail);
      if keep(xs[0]) then [xs[0]] + tail else tail
  }

  /** What one step of `Filter` keeps, from what it kept of the tail. */
  lemma FilterStep<T>(keep: T -> bool, xs: seq<T>, tail: seq<T>)
    requires xs != []
    requires forall k :: 0 <= k < |tail| ==> keep(tail[k]) && tail[k] in xs[1..]
    requires forall x :: x in xs[1..] && keep(x) ==> x in tail
    requires IsSubsequence(tail, xs[1..])
    requires |tail| <= |xs[1..]|
    requires forall x :: x in xs[1..] ==> multiset(tail)[x] == if keep(x) then multiset(xs[1..])[x] else 0
    ensures var r := if keep(xs[0]) then [xs[0]] + tail else tail;
      && (forall k :: 0 <= k < |r| ==> keep(r[k]) && r[k] in xs)
      && (forall x :: x in xs && keep(x) ==> x in r)
      && IsSubsequence(r, xs)
      && |r| <= |xs|
      && (forall x :: x in xs ==> multiset(r)[x] == if keep(x) then multiset(xs)[x] else 0)
  {
    var r := if keep(xs[0]) then [xs[0]] + tail else tail;
    assert xs == [xs[0]] + xs[1..];
    assert forall x :: x in xs[1..] ==> x in xs;
    if keep(xs[0]) {
      assert r[1..] == tail;
    } else if tail != [] {
      assert tail[0] != xs[0];
    }
    FilterCounts(keep, xs, tail);
  }

  /** The element counts of one step of `Filter`, from those of its tail. */
  lemma FilterCounts<T>(keep: T -> bool, xs: seq<T>, tail: seq<T>)
    requires xs != []
    requires forall k :: 0 <= k < |tail| ==> tail[k] in xs[1..]
    requires forall x :: x in xs[1..] ==> multiset(tail)[x] == if keep(x) then multiset(xs[1..])[x] else 0
    ensures var r := if keep(xs[0]) then [xs[0]] + tail else tail;
      forall x :: x in xs ==> multiset(r)[x] == if keep(x) then multiset(xs)[x] else 0
  {
    var r := if keep(xs[0]) then [xs[0]] + tail else tail;
    assert xs == [xs[0]] + xs[1..];
    assert multiset(xs) == multiset([xs[0]]) + multiset(xs[1..]);
    forall x | x in xs ensures multiset(r)[x] == if keep(x) then multiset(xs)[x] else 0 {
      if x !in xs[1..] {
        assert x !in tail;
      }
    }
  }

  /** `xs.map(f)` */
  function Map<T, U>(f: T -> U, xs: seq<T>): (r: seq<U>)
    ensures |r| == |xs|
    ensures forall k :: 0 <= k < |xs| ==> r[k] == f(xs[k])
  {
    seq(|xs|, k requires 0 <= k < |xs| => f(xs[k]))
  }

  /** A non-empty sequence is its head followed by its tail. */
  lemma HeadTail<T>(s: seq<T>)
    requires s != []
    ensures [s[0]] + s[1..] == s
  {
  }

  /** Keeping every element is the identity. */
  lemma {:induction false} FilterKeepsAll<T>(keep: T -> bool, xs: seq<T>)
    requires forall k :: 0 <= k < |xs| ==> keep(xs[k])
    ensures Filter(keep, xs) == xs
  {
    if xs != [] {
      FilterKeepsAll(keep, xs[1..]);
    }
  }

  /** Keeping no element gives the empty sequence. */
  lemma {:induction false} FilterKeepsNone<T>(keep: T -> bool, xs: seq<T>)
    requires forall k :: 0 <= k < |xs| ==> !keep(xs[k])
    ensures Filter(keep, xs) == []
  {
    if xs != [] {
      FilterKeepsNone(keep, xs[1..]);
    }
  }
}
