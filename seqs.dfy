/**
 * Keeping the elements of a sequence that satisfy a condition, in order. This is
 * what `dropna` and boolean-mask indexing do to the rows of a frame.
 */
module Seqs {

  function Filter<T>(s: seq<T>, keep: T -> bool): (r: seq<T>)
    ensures |r| <= |s|
    ensures forall k :: 0 <= k < |r| ==> keep(r[k])
  {
    if |s| == 0 then []
    else Filter(s[..|s| - 1], keep) + (if keep(s[|s| - 1]) then [s[|s| - 1]] else [])
  }

  /** The number of elements of `s` that satisfy `keep`. */
  function Count<T>(s: seq<T>, keep: T -> bool): (n: nat)
    ensures n <= |s|
  {
    if |s| == 0 then 0
    else Count(s[..|s| - 1], keep) + (if keep(s[|s| - 1]) then 1 else 0)
  }

  /**
   * The positions in `s` of the elements `Filter` keeps. They are strictly
   * increasing, each names an element that satisfies `keep`, every such position
   * occurs, and the k-th kept element is the one at the k-th position: so `Filter`
   * keeps exactly the satisfying elements, each once, in their original order.
   */
  function KeptIndices<T>(s: seq<T>, keep: T -> bool): (idx: seq<nat>)
    ensures |idx| == |Filter(s, keep)|
    ensures forall k :: 0 <= k < |idx| ==> idx[k] < |s| && keep(s[idx[k]])
    ensures forall k :: 0 <= k < |idx| ==> Filter(s, keep)[k] == s[idx[k]]
    ensures forall k, l :: 0 <= k < l < |idx| ==> idx[k] < idx[l]
  {
    if |s| == 0 then []
    else
      var n := |s| - 1;
      var init := s[..n];
      var pre := KeptIndices(init, keep);
      var fi := Filter(init, keep);
      assert Filter(s, keep) == fi + (if keep(s[n]) then [s[n]] else []);
      assert forall k :: 0 <= k < |pre| ==> pre[k] < n && init[pre[k]] == s[pre[k]];
      if keep(s[n]) then pre + [n] else pre
  }

  /** Every position of a satisfying element is among the kept positions. */
  lemma {:induction false} KeptIndicesCover<T>(s: seq<T>, keep: T -> bool, i: nat)
    requires i < |s| && keep(s[i])
    ensures i in KeptIndices(s, keep)
  {
    if i < |s| - 1 {
      var init := s[..|s| - 1];
      assert init[i] == s[i];
      KeptIndicesCover(init, keep, i);
    }
  }

  /** The kept elements are counted by `Count`; the dropped ones by `Count` of the negation. */
  lemma {:induction false} FilterLength<T>(s: seq<T>, keep: T -> bool, drop: T -> bool)
    requires forall x :: drop(x) == !keep(x)
    ensures |Filter(s, keep)| == Count(s, keep)
    ensures |Filter(s, keep)| == |s| - Count(s, drop)
  {
    if |s| > 0 {
      FilterLength(s[..|s| - 1], keep, drop);
    }
  }

  /** An element is kept if and only if it occurs in `s` and satisfies `keep`. */
  lemma FilterMembership<T>(s: seq<T>, keep: T -> bool, x: T)
    ensures x in Filter(s, keep) <==> x in s && keep(x)
  {
  }

  /** When every element satisfies `keep`, nothing is dropped. */
  lemma {:induction false} FilterKeepsAll<T>(s: seq<T>, keep: T -> bool)
    requires forall k :: 0 <= k < |s| ==> keep(s[k])
    ensures Filter(s, keep) == s
  {
    if |s| > 0 {
      FilterKeepsAll(s[..|s| - 1], keep);
      assert s[..|s| - 1] + [s[|s| - 1]] == s;
    }
  }
}
