/** `flatMap` over sequences, and the subsequence of elements that satisfy a predicate, with their concatenation laws. */
module Sequences {

  /** `xs.flatMap(f)` */
  function FlatMap<T, U>(xs: seq<T>, f: T -> seq<U>): seq<U>
  {
    if |xs| == 0 then [] else f(xs[0]) + FlatMap(xs[1..], f)
  }

  /** Flat-mapping commutes with concatenation. */
  lemma {:induction false} FlatMapAppend<T, U>(a: seq<T>, b: seq<T>, f: T -> seq<U>)
    ensures FlatMap(a + b, f) == FlatMap(a, f) + FlatMap(b, f)
  {
    if |a| == 0 {
      assert a + b == b;
    } else {
      assert (a + b)[0] == a[0];
      assert (a + b)[1..] == a[1..] + b;
      FlatMapAppend(a[1..], b, f);
    }
  }

  /** The image of element `i` is one block between the images of its neighbours. */
  lemma FlatMapAt<T, U>(xs: seq<T>, i: nat, f: T -> seq<U>)
    requires i < |xs|
    ensures FlatMap(xs, f) == FlatMap(xs[..i], f) + f(xs[i]) + FlatMap(xs[i + 1..], f)
  {
    assert xs == xs[..i] + xs[i..];
    FlatMapAppend(xs[..i], xs[i..], f);
    var rest := xs[i..];
    assert rest[0] == xs[i] && rest[1..] == xs[i + 1..];
    assert FlatMap(rest, f) == f(xs[i]) + FlatMap(xs[i + 1..], f);
  }

  /** Element `k` of the image of `xs[i]` sits after the images of the elements before `i`. */
  lemma FlatMapIndex<T, U>(xs: seq<T>, i: nat, k: nat, f: T -> seq<U>)
    requires i < |xs| && k < |f(xs[i])|
    ensures |FlatMap(xs[..i], f)| + k < |FlatMap(xs, f)|
    ensures FlatMap(xs, f)[|FlatMap(xs[..i], f)| + k] == f(xs[i])[k]
  {
    FlatMapAt(xs, i, f);
  }

  /** The elements of `xs` that satisfy `p`, in order. */
  function Filter<T>(xs: seq<T>, p: T -> bool): seq<T>
  {
    if |xs| == 0 then [] else (if p(xs[0]) then [xs[0]] else []) + Filter(xs[1..], p)
  }

  /** Filtering commutes with concatenation. */
  lemma {:induction false} FilterAppend<T>(a: seq<T>, b: seq<T>, p: T -> bool)
    ensures Filter(a + b, p) == Filter(a, p) + Filter(b, p)
  {
    if |a| == 0 {
      assert a + b == b;
    } else {
      var ab := a + b;
      var head := if p(a[0]) then [a[0]] else [];
      assert ab[0] == a[0] && ab[1..] == a[1..] + b;
      assert Filter(a, p) == head + Filter(a[1..], p);
      assert Filter(ab, p) == head + Filter(a[1..] + b, p);
      FilterAppend(a[1..], b, p);
    }
  }

  /** Nothing survives a filter that no element passes. */
  lemma {:induction false} FilterNone<T>(xs: seq<T>, p: T -> bool)
    requires forall i :: 0 <= i < |xs| ==> !p(xs[i])
    ensures Filter(xs, p) == []
  {
    if |xs| > 0 {
      assert !p(xs[0]);
      FilterNone(xs[1..], p);
    }
  }

  /** The filter of `xs` splits around element `k`. */
  lemma FilterAt<T>(xs: seq<T>, k: nat, p: T -> bool)
    requires k < |xs|
    ensures Filter(xs, p)
      == Filter(xs[..k], p) + (if p(xs[k]) then [xs[k]] else []) + Filter(xs[k + 1..], p)
  {
    assert xs == xs[..k] + xs[k..];
    FilterAppend(xs[..k], xs[k..], p);
    var rest := xs[k..];
    assert rest[0] == xs[k] && rest[1..] == xs[k + 1..];
    assert Filter(rest, p) == (if p(xs[k]) then [xs[k]] else []) + Filter(xs[k + 1..], p);
  }

  /** Deleting an element the filter rejects does not change the filter's result. */
  lemma FilterSkip<T>(xs: seq<T>, k: nat, p: T -> bool)
    requires k < |xs| && !p(xs[k])
    ensures Filter(xs[..k] + xs[k + 1..], p) == Filter(xs, p)
  {
    FilterAt(xs, k, p);
    FilterAppend(xs[..k], xs[k + 1..], p);
  }
}
