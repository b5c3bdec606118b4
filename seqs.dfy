/**
 * Lists built by appending, in order, the items produced for each element
 * of another list: the shape of every nested `for ... append` loop in the
 * application.
 */
module Seqs {

  /** The concatenation of `f(x)` over the elements `x` of `xs`, in order. */
  function ConcatMap<X, Y>(xs: seq<X>, f: X -> seq<Y>): seq<Y>
    decreases |xs|
  {
    if xs == [] then [] else ConcatMap(xs[..|xs| - 1], f) + f(xs[|xs| - 1])
  }

  /** Processing one more element appends its items. */
  lemma ConcatMapSnoc<X, Y>(xs: seq<X>, x: X, f: X -> seq<Y>)
    ensures ConcatMap(xs + [x], f) == ConcatMap(xs, f) + f(x)
  {
    assert (xs + [x])[..|xs|] == xs;
  }

  /** The prefix form used by loops that walk `xs` by index. */
  lemma ConcatMapPrefix<X, Y>(xs: seq<X>, k: nat, f: X -> seq<Y>)
    requires k < |xs|
    ensures ConcatMap(xs[..k + 1], f) == ConcatMap(xs[..k], f) + f(xs[k])
  {
    assert xs[..k + 1] == xs[..k] + [xs[k]];
    ConcatMapSnoc(xs[..k], xs[k], f);
  }

  /** An item occurs in the result exactly when some element produces it. */
  lemma {:induction false} ConcatMapMember<X, Y>(xs: seq<X>, f: X -> seq<Y>, y: Y)
    ensures y in ConcatMap(xs, f) <==> exists k :: 0 <= k < |xs| && y in f(xs[k])
    decreases |xs|
  {
    if xs != [] {
      var init := xs[..|xs| - 1];
      ConcatMapMember(init, f, y);
      assert forall k :: 0 <= k < |init| ==> init[k] == xs[k];
      if y in f(xs[|xs| - 1]) {
        assert y in ConcatMap(xs, f);
      }
    }
  }

  /** Every item of the result is produced by some element. */
  lemma ConcatMapAll<X, Y>(xs: seq<X>, f: X -> seq<Y>, p: Y -> bool)
    requires forall k :: 0 <= k < |xs| ==> forall y :: y in f(xs[k]) ==> p(y)
    ensures forall y :: y in ConcatMap(xs, f) ==> p(y)
  {
    forall y | y in ConcatMap(xs, f)
      ensures p(y)
    {
      ConcatMapMember(xs, f, y);
    }
  }

  /** The left fold of `f` over `xs`, starting from `a`: a loop that updates an accumulator. */
  function FoldLeft<A, X>(a: A, xs: seq<X>, f: (A, X) -> A): A
    decreases |xs|
  {
    if xs == [] then a else f(FoldLeft(a, xs[..|xs| - 1], f), xs[|xs| - 1])
  }

  lemma FoldLeftSnoc<A, X>(a: A, xs: seq<X>, x: X, f: (A, X) -> A)
    ensures FoldLeft(a, xs + [x], f) == f(FoldLeft(a, xs, f), x)
  {
    assert (xs + [x])[..|xs|] == xs;
  }

  lemma FoldLeftPrefix<A, X>(a: A, xs: seq<X>, k: nat, f: (A, X) -> A)
    requires k < |xs|
    ensures FoldLeft(a, xs[..k + 1], f) == f(FoldLeft(a, xs[..k], f), xs[k])
  {
    assert xs[..k + 1] == xs[..k] + [xs[k]];
    FoldLeftSnoc(a, xs[..k], xs[k], f);
  }

  lemma {:induction false} FoldLeftConcat<A, X>(a: A, xs: seq<X>, ys: seq<X>, f: (A, X) -> A)
    ensures FoldLeft(a, xs + ys, f) == FoldLeft(FoldLeft(a, xs, f), ys, f)
    decreases |ys|
  {
    if ys == [] {
      assert xs + ys == xs;
    } else {
      var init := ys[..|ys| - 1];
      var last := ys[|ys| - 1];
      assert xs + ys == (xs + init) + [last];
      FoldLeftSnoc(a, xs + init, last, f);
      FoldLeftConcat(a, xs, init, f);
    }
  }
}
