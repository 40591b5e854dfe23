/**
 * Python's filtered list comprehension `[f(x) for x in xs if keep(x)]`,
 * with the positions of the elements it keeps.
 */
module Lists {

  /** `[f(x) for x in xs if keep(x)]`. */
  function FilterMap<T, U>(xs: seq<T>, keep: T -> bool, f: T -> U): (r: seq<U>)
    ensures |r| <= |xs|
    decreases |xs|
  {
    if xs == [] then []
    else (if keep(xs[0]) then [f(xs[0])] else []) + FilterMap(xs[1..], keep, f)
  }

  /** A property that `f` gives every accepted element holds of every result. */
  lemma {:induction false} FilterMapKeepsProperty<T, U>(xs: seq<T>, keep: T -> bool, f: T -> U, p: U -> bool)
    requires forall x :: keep(x) ==> p(f(x))
    ensures forall k :: 0 <= k < |FilterMap(xs, keep, f)| ==> p(FilterMap(xs, keep, f)[k])
    decreases |xs|
  {
    if xs != [] {
      FilterMapKeepsProperty(xs[1..], keep, f, p);
    }
  }

  /**
   * The positions at or after `lo` of the elements that `keep` accepts, in
   * increasing order, each listed once.
   */
  function KeptFrom<T>(xs: seq<T>, keep: T -> bool, lo: nat): (idx: seq<nat>)
    ensures forall k :: 0 <= k < |idx| ==> lo <= idx[k] < |xs| && keep(xs[idx[k]])
    ensures forall k, l :: 0 <= k < l < |idx| ==> idx[k] < idx[l]
    decreases |xs| - lo
  {
    if lo >= |xs| then []
    else (if keep(xs[lo]) then [lo] else []) + KeptFrom(xs, keep, lo + 1)
  }

  /** No accepted element at or after `lo` is missing from KeptFrom. */
  lemma {:induction false} KeptFromComplete<T>(xs: seq<T>, keep: T -> bool, lo: nat, i: nat)
    requires lo <= i < |xs| && keep(xs[i])
    ensures i in KeptFrom(xs, keep, lo)
    decreases i - lo
  {
    if lo < i {
      KeptFromComplete(xs, keep, lo + 1, i);
    }
  }

  /** The comprehension over `xs[lo..]` maps `f` over the positions KeptFrom lists. */
  lemma {:induction false} FilterMapFollowsPositions<T, U>(xs: seq<T>, keep: T -> bool, f: T -> U, lo: nat)
    requires lo <= |xs|
    ensures |FilterMap(xs[lo..], keep, f)| == |KeptFrom(xs, keep, lo)|
    ensures forall k :: 0 <= k < |KeptFrom(xs, keep, lo)| ==>
              FilterMap(xs[lo..], keep, f)[k] == f(xs[KeptFrom(xs, keep, lo)[k]])
    decreases |xs| - lo
  {
    if lo < |xs| {
      FilterMapFollowsPositions(xs, keep, f, lo + 1);
      assert xs[lo..][1..] == xs[lo + 1..];
      assert xs[lo..][0] == xs[lo];
    }
  }

  /**
   * The comprehension keeps exactly the accepted elements, in their original
   * order: `idx` lists the positions of all accepted elements in increasing
   * order, and the k-th result is `f` of the element at `idx[k]`.
   */
  lemma FilterMapInOrder<T, U>(xs: seq<T>, keep: T -> bool, f: T -> U) returns (idx: seq<nat>)
    ensures |idx| == |FilterMap(xs, keep, f)|
    ensures forall k :: 0 <= k < |idx| ==>
              idx[k] < |xs| && keep(xs[idx[k]]) && FilterMap(xs, keep, f)[k] == f(xs[idx[k]])
    ensures forall k, l :: 0 <= k < l < |idx| ==> idx[k] < idx[l]
    ensures forall i :: 0 <= i < |xs| && keep(xs[i]) ==> i in idx
  {
    idx := KeptFrom(xs, keep, 0);
    FilterMapFollowsPositions(xs, keep, f, 0);
    assert xs[0..] == xs;
    forall i | 0 <= i < |xs| && keep(xs[i])
      ensures i in idx
    {
      KeptFromComplete(xs, keep, 0, i);
    }
  }

  /** When every element is accepted, the comprehension is a plain map. */
  lemma {:induction false} FilterMapKeepingAll<T, U>(xs: seq<T>, keep: T -> bool, f: T -> U)
    requires forall i :: 0 <= i < |xs| ==> keep(xs[i])
    ensures |FilterMap(xs, keep, f)| == |xs|
    ensures forall i :: 0 <= i < |xs| ==> FilterMap(xs, keep, f)[i] == f(xs[i])
    decreases |xs|
  {
    if xs != [] {
      var tail := xs[1..];
      assert forall i :: 0 <= i < |tail| ==> tail[i] == xs[i + 1];
      FilterMapKeepingAll(tail, keep, f);
    }
  }
}
