/** The array operations the component is written with (filter, map, reduce), as functions on
    sequences, with the facts the rest of the model needs about them. */
module Sequences {

  datatype Option<T> = None | Some(value: T)

  /** The elements of `xs` that satisfy `keep`, in their original order
      (`Array.prototype.filter`). */
  function Filter<T>(xs: seq<T>, keep: T -> bool): (r: seq<T>)
    ensures |r| <= |xs|
  {
    if xs == [] then [] else (if keep(xs[0]) then [xs[0]] else []) + Filter(xs[1..], keep)
  }

  /** What is kept: every element of the filter passes and comes from `xs`, and every element of
      `xs` that passes is kept. */
  lemma {:induction false} FilterMembers<T>(xs: seq<T>, keep: T -> bool)
    ensures forall x :: x in Filter(xs, keep) ==> x in xs && keep(x)
    ensures forall i :: 0 <= i < |xs| && keep(xs[i]) ==> xs[i] in Filter(xs, keep)
  {
    if xs != [] {
      FilterMembers(xs[1..], keep);
      assert forall i :: 1 <= i < |xs| ==> xs[i] == xs[1..][i - 1];
    }
  }

  /** A filter is empty exactly when no element passes it. */
  lemma FilterEmptyIff<T>(xs: seq<T>, keep: T -> bool)
    ensures Filter(xs, keep) == [] <==> forall i :: 0 <= i < |xs| ==> !keep(xs[i])
  {
    FilterMembers(xs, keep);
    if Filter(xs, keep) != [] {
      var x := Filter(xs, keep)[0];
      assert x in Filter(xs, keep);
    }
  }

  /** Filtering distributes over concatenation. */
  lemma {:induction false} FilterAppend<T>(xs: seq<T>, ys: seq<T>, keep: T -> bool)
    ensures Filter(xs + ys, keep) == Filter(xs, keep) + Filter(ys, keep)
  {
    if xs == [] {
      assert xs + ys == ys;
    } else {
      var head := if keep(xs[0]) then [xs[0]] else [];
      assert (xs + ys)[0] == xs[0];
      assert (xs + ys)[1..] == xs[1..] + ys;
      FilterAppend(xs[1..], ys, keep);
      calc {
        Filter(xs + ys, keep);
        head + Filter(xs[1..] + ys, keep);
        head + (Filter(xs[1..], keep) + Filter(ys, keep));
        (head + Filter(xs[1..], keep)) + Filter(ys, keep);
      }
    }
  }

  /** `f` applied to every element of `xs`, in order (`Array.prototype.map`). */
  function MapEach<T, U>(xs: seq<T>, f: T -> U): (r: seq<U>)
    ensures |r| == |xs|
    ensures forall i :: 0 <= i < |xs| ==> r[i] == f(xs[i])
  {
    seq(|xs|, i requires 0 <= i < |xs| => f(xs[i]))
  }

  /** Mapping distributes over concatenation. */
  lemma MapEachAppend<T, U>(xs: seq<T>, ys: seq<T>, f: T -> U)
    ensures MapEach(xs + ys, f) == MapEach(xs, f) + MapEach(ys, f)
  {
    var l, r := MapEach(xs + ys, f), MapEach(xs, f) + MapEach(ys, f);
    assert |l| == |r|;
    forall i | 0 <= i < |l|
      ensures l[i] == r[i]
    {
      if i < |xs| {
        assert (xs + ys)[i] == xs[i];
      } else {
        assert (xs + ys)[i] == ys[i - |xs|];
      }
    }
  }

  /** `xs` without its last element. */
  function Init<T>(xs: seq<T>): seq<T>
    requires xs != []
  {
    xs[..|xs| - 1]
  }

  /** The last element of `xs`. */
  function Last<T>(xs: seq<T>): T
    requires xs != []
  {
    xs[|xs| - 1]
  }

  /** `xs.reduce((partialSum, a) => partialSum + a, 0)`: a left fold from 0, so the last element
      is added last. */
  function Sum(xs: seq<real>): real
  {
    if xs == [] then 0.0 else Sum(Init(xs)) + Last(xs)
  }

  /** The sum of sequence extended by one element. */
  lemma SumSnoc(xs: seq<real>, x: real)
    ensures Sum(xs + [x]) == Sum(xs) + x
  {
    assert Init(xs + [x]) == xs;
  }

  /** A sum of non-negative numbers is non-negative. */
  lemma {:induction false} SumNonNegative(xs: seq<real>)
    requires forall i :: 0 <= i < |xs| ==> xs[i] >= 0.0
    ensures Sum(xs) >= 0.0
  {
    if xs != [] {
      SumNonNegative(Init(xs));
    }
  }

  /** `Math.abs` */
  function Abs(x: real): (r: real)
    ensures r >= 0.0 && (r == x || r == -x)
  {
    if x < 0.0 then -x else x
  }
}
