/** Sequence combinators shared by the page handlers and the renderer. */
module Seqs {

  /** The elements of `xs` that satisfy `keep`, in order, each mapped through `f`. */
  function FilterMap<T, U>(xs: seq<T>, keep: T -> bool, f: T -> U): (r: seq<U>)
    ensures |r| <= |xs|
  {
    if xs == [] then [] else (if keep(xs[0]) then [f(xs[0])] else []) + FilterMap(xs[1..], keep, f)
  }

  /** `f` applied to every element of `xs`. */
  function Map<T, U>(xs: seq<T>, f: T -> U): (r: seq<U>)
    ensures |r| == |xs|
    ensures forall i :: 0 <= i < |xs| ==> r[i] == f(xs[i])
  {
    if xs == [] then [] else [f(xs[0])] + Map(xs[1..], f)
  }

  /** The concatenation of `f(x)` over the elements `x` of `xs`, in order. */
  function ConcatMap<T, U>(xs: seq<T>, f: T -> seq<U>): (r: seq<U>)
  {
    if xs == [] then [] else f(xs[0]) + ConcatMap(xs[1..], f)
  }

  function Id<T>(x: T): T { x }

  /** All pages laid end to end. */
  function Flatten<T>(pages: seq<seq<T>>): seq<T>
  {
    ConcatMap(pages, Id)
  }

  lemma {:induction false} FilterMapAppend<T, U>(xs: seq<T>, ys: seq<T>, keep: T -> bool, f: T -> U)
    ensures FilterMap(xs + ys, keep, f) == FilterMap(xs, keep, f) + FilterMap(ys, keep, f)
  {
    if xs == [] {
      assert xs + ys == ys;
    } else {
      var head := if keep(xs[0]) then [f(xs[0])] else [];
      assert (xs + ys)[0] == xs[0] && (xs + ys)[1..] == xs[1..] + ys;
      assert FilterMap(xs + ys, keep, f) == head + FilterMap(xs[1..] + ys, keep, f);
      FilterMapAppend(xs[1..], ys, keep, f);
    }
  }

  /** One element's contribution, with what comes before and after it unaffected. */
  lemma FilterMapSplit<T, U>(before: seq<T>, x: T, after: seq<T>, keep: T -> bool, f: T -> U)
    ensures FilterMap(before + [x] + after, keep, f)
            == FilterMap(before, keep, f) + (if keep(x) then [f(x)] else []) + FilterMap(after, keep, f)
  {
    FilterMapAppend(before + [x], after, keep, f);
    FilterMapAppend(before, [x], keep, f);
    assert [x][1..] == [];
  }

  /** One more element of building `FilterMap(xs, keep, f)` by appending. */
  lemma FilterMapStep<T, U>(xs: seq<T>, i: nat, keep: T -> bool, f: T -> U)
    requires i < |xs|
    ensures FilterMap(xs[..i + 1], keep, f) == FilterMap(xs[..i], keep, f) + (if keep(xs[i]) then [f(xs[i])] else [])
  {
    assert xs[..i + 1] == xs[..i] + [xs[i]] + [];
    FilterMapSplit(xs[..i], xs[i], [], keep, f);
  }

  /** Every element that passes `keep` contributes its image. */
  lemma {:induction false} FilterMapKeeps<T, U>(xs: seq<T>, i: nat, keep: T -> bool, f: T -> U)
    requires i < |xs| && keep(xs[i])
    ensures f(xs[i]) in FilterMap(xs, keep, f)
  {
    if i > 0 {
      FilterMapKeeps(xs[1..], i - 1, keep, f);
    }
  }

  /** Every element of the result is the image of an element that passes `keep`. */
  lemma {:induction false} FilterMapOrigin<T, U>(xs: seq<T>, y: U, keep: T -> bool, f: T -> U)
    requires y in FilterMap(xs, keep, f)
    ensures exists i :: 0 <= i < |xs| && keep(xs[i]) && y == f(xs[i])
  {
    if keep(xs[0]) && y == f(xs[0]) {
      assert keep(xs[0]) && y == f(xs[0]);
    } else {
      FilterMapOrigin(xs[1..], y, keep, f);
      var i :| 0 <= i < |xs[1..]| && keep(xs[1..][i]) && y == f(xs[1..][i]);
      assert xs[i + 1] == xs[1..][i];
    }
  }

  lemma {:induction false} ConcatMapAppend<T, U>(xs: seq<T>, ys: seq<T>, f: T -> seq<U>)
    ensures ConcatMap(xs + ys, f) == ConcatMap(xs, f) + ConcatMap(ys, f)
  {
    if xs == [] {
      assert xs + ys == ys;
    } else {
      assert (xs + ys)[0] == xs[0] && (xs + ys)[1..] == xs[1..] + ys;
      assert ConcatMap(xs + ys, f) == f(xs[0]) + ConcatMap(xs[1..] + ys, f);
      ConcatMapAppend(xs[1..], ys, f);
    }
  }

  lemma ConcatMapSnoc<T, U>(xs: seq<T>, x: T, f: T -> seq<U>)
    ensures ConcatMap(xs + [x], f) == ConcatMap(xs, f) + f(x)
  {
    ConcatMapAppend(xs, [x], f);
    assert [x][1..] == [];
  }

  /** One more step of building `prefix + ConcatMap(xs, f)` by appending. */
  lemma ConcatMapStep<T, U>(prefix: seq<U>, xs: seq<T>, i: nat, f: T -> seq<U>)
    requires i < |xs|
    ensures prefix + ConcatMap(xs[..i + 1], f) == prefix + ConcatMap(xs[..i], f) + f(xs[i])
  {
    assert xs[..i + 1] == xs[..i] + [xs[i]];
    ConcatMapSnoc(xs[..i], xs[i], f);
  }

  lemma FlattenSnoc<T>(pages: seq<seq<T>>, page: seq<T>)
    ensures Flatten(pages + [page]) == Flatten(pages) + page
  {
    ConcatMapSnoc(pages, page, Id);
  }
}
