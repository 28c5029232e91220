/** Order-preserving selection and duplicate-freedom over sequences. */
module Sequences {

  /** `idx` picks the elements of `xs`, in order, out of `ys`. */
  ghost predicate Embeds<T>(idx: seq<nat>, xs: seq<T>, ys: seq<T>)
  {
    && |idx| == |xs|
    && (forall i :: 0 <= i < |idx| ==> idx[i] < |ys| && xs[i] == ys[idx[i]])
    && (forall i, j :: 0 <= i < j < |idx| ==> idx[i] < idx[j])
  }

  /** `xs` is `ys` with some elements left out and the rest in their original order. */
  ghost predicate IsSubsequence<T>(xs: seq<T>, ys: seq<T>)
  {
    exists idx: seq<nat> :: Embeds(idx, xs, ys)
  }

  predicate Distinct<T(==)>(xs: seq<T>)
  {
    forall i, j :: 0 <= i < j < |xs| ==> xs[i] != xs[j]
  }

  lemma EmptySubsequence<T>(ys: seq<T>)
    ensures IsSubsequence([], ys)
  {
    assert Embeds([], [], ys);
  }

  /** Extending the source by one element keeps a subsequence, whether or not the new element is taken. */
  lemma SubsequenceExtend<T>(xs: seq<T>, ys: seq<T>, y: T, take: bool)
    requires IsSubsequence(xs, ys)
    ensures IsSubsequence(xs + (if take then [y] else []), ys + [y])
  {
    var idx: seq<nat> :| Embeds(idx, xs, ys);
    if take {
      var idx': seq<nat> := idx + [|ys|];
      assert Embeds(idx', xs + [y], ys + [y]);
    } else {
      assert xs + [] == xs;
      assert Embeds(idx, xs, ys + [y]);
    }
  }

  /** A prefix of a subsequence is a subsequence. */
  lemma SubsequencePrefix<T>(xs: seq<T>, ys: seq<T>, n: nat)
    requires IsSubsequence(xs, ys) && n <= |xs|
    ensures IsSubsequence(xs[..n], ys)
  {
    var idx: seq<nat> :| Embeds(idx, xs, ys);
    assert Embeds(idx[..n], xs[..n], ys);
  }

  /** A subsequence of a prefix is a subsequence of the whole. */
  lemma SubsequenceOfPrefix<T>(xs: seq<T>, ys: seq<T>, n: nat)
    requires n <= |ys| && IsSubsequence(xs, ys[..n])
    ensures IsSubsequence(xs, ys)
  {
    var idx: seq<nat> :| Embeds(idx, xs, ys[..n]);
    assert Embeds(idx, xs, ys);
  }
}
