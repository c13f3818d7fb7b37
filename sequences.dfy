/** The parts of Swift's `Array` that the package relies on: `map`, `filter`, `first` and `first(where:)`. */
module Sequences {
  import opened Wrappers

  /** `xs.map(f)`: one result per element, in order. */
  function Map<A, B>(xs: seq<A>, f: A -> B): (r: seq<B>)
    ensures |r| == |xs|
    ensures forall i :: 0 <= i < |xs| ==> r[i] == f(xs[i])
  {
    if xs == [] then [] else Map(xs[..|xs| - 1], f) + [f(xs[|xs| - 1])]
  }

  /** Mapping distributes over concatenation. */
  lemma MapAppend<A, B>(xs: seq<A>, ys: seq<A>, f: A -> B)
    ensures Map(xs + ys, f) == Map(xs, f) + Map(ys, f)
  {
  }

  /**
   * `xs.filter(p)`: the elements of `xs` that satisfy `p`, each as often as in `xs`.
   * That the order is kept follows from `FilterAppend`.
   */
  function Filter<T>(xs: seq<T>, p: T -> bool): (r: seq<T>)
    ensures |r| <= |xs|
    ensures forall i :: 0 <= i < |r| ==> r[i] in xs && p(r[i])
    ensures forall i :: 0 <= i < |xs| && p(xs[i]) ==> multiset(r)[xs[i]] == multiset(xs)[xs[i]]
  {
    if xs == [] then []
    else
      assert xs == [xs[0]] + xs[1..];
      (if p(xs[0]) then [xs[0]] else []) + Filter(xs[1..], p)
  }

  /** Filtering distributes over concatenation, so a one-element list is kept or dropped in place. */
  lemma {:induction false} FilterAppend<T>(xs: seq<T>, ys: seq<T>, p: T -> bool)
    ensures Filter(xs + ys, p) == Filter(xs, p) + Filter(ys, p)
  {
    if xs == [] {
      assert xs + ys == ys;
    } else {
      assert (xs + ys)[1..] == xs[1..] + ys;
      FilterAppend(xs[1..], ys, p);
    }
  }

  /** `xs.first`. */
  function First<T>(xs: seq<T>): (r: Option<T>)
    ensures r.None? <==> xs == []
    ensures r.Some? ==> r.value == xs[0]
  {
    if xs == [] then None else Some(xs[0])
  }

  /** `xs.first(where: p)`: a left-to-right scan that stops at the first element satisfying `p`. */
  function FirstWhere<T>(xs: seq<T>, p: T -> bool): (r: Option<T>)
    ensures r.Some? ==> r.value in xs && p(r.value)
    ensures r.None? <==> forall i :: 0 <= i < |xs| ==> !p(xs[i])
  {
    if xs == [] then None
    else if p(xs[0]) then Some(xs[0])
    else FirstWhere(xs[1..], p)
  }

  /** The element `first(where:)` returns is the earliest one that satisfies `p`. */
  lemma {:induction false} FirstWhereIsEarliest<T>(xs: seq<T>, p: T -> bool, i: nat)
    requires i < |xs| && p(xs[i])
    requires forall j :: 0 <= j < i ==> !p(xs[j])
    ensures FirstWhere(xs, p) == Some(xs[i])
  {
    if i > 0 {
      assert !p(xs[0]);
      FirstWhereIsEarliest(xs[1..], p, i - 1);
    }
  }

  /** `filter` followed by `first` finds the same element as `first(where:)`. */
  lemma {:induction false} FilterFirstIsFirstWhere<T>(xs: seq<T>, p: T -> bool)
    ensures First(Filter(xs, p)) == FirstWhere(xs, p)
  {
    if xs != [] && !p(xs[0]) {
      FilterFirstIsFirstWhere(xs[1..], p);
    }
  }
}
