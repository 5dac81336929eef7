/** `d3.min` and `d3.max` over a series' numbers or dates: they skip NaN and
    Invalid Date entries and are `undefined` when nothing is left. */
module Extrema {
  import opened Wrappers

  /** `r` is the greatest valid entry of `xs`, or `None` when `xs` has none. */
  ghost predicate IsGreatest(r: Option<int>, xs: seq<Option<int>>) {
    && (r.None? <==> forall i :: 0 <= i < |xs| ==> xs[i].None?)
    && (r.Some? ==> r in xs && forall i :: 0 <= i < |xs| && xs[i].Some? ==> xs[i].value <= r.value)
  }

  /** `r` is the least valid entry of `xs`, or `None` when `xs` has none. */
  ghost predicate IsLeast(r: Option<int>, xs: seq<Option<int>>) {
    && (r.None? <==> forall i :: 0 <= i < |xs| ==> xs[i].None?)
    && (r.Some? ==> r in xs && forall i :: 0 <= i < |xs| && xs[i].Some? ==> r.value <= xs[i].value)
  }

  /** `d3.max`: a left-to-right scan that replaces the running maximum when a
      valid entry exceeds it (or when there is none yet). */
  function MaxOf(xs: seq<Option<int>>): (r: Option<int>)
    ensures IsGreatest(r, xs)
  {
    if xs == [] then None
    else
      var m, x := MaxOf(xs[..|xs| - 1]), xs[|xs| - 1];
      assert xs == xs[..|xs| - 1] + [x];
      if x.Some? && (m.None? || m.value < x.value) then x else m
  }

  /** `d3.min`, the mirror image of `MaxOf`. */
  function MinOf(xs: seq<Option<int>>): (r: Option<int>)
    ensures IsLeast(r, xs)
  {
    if xs == [] then None
    else
      var m, x := MinOf(xs[..|xs| - 1]), xs[|xs| - 1];
      assert xs == xs[..|xs| - 1] + [x];
      if x.Some? && (m.None? || x.value < m.value) then x else m
  }

  /** At most one value is the greatest (or least) entry. */
  lemma GreatestIsUnique(r1: Option<int>, r2: Option<int>, xs: seq<Option<int>>)
    requires IsGreatest(r1, xs) && IsGreatest(r2, xs)
    ensures r1 == r2
  {
    if r1.Some? {
      var i :| 0 <= i < |xs| && xs[i] == r1;
      var j :| 0 <= j < |xs| && xs[j] == r2;
    }
  }

  lemma LeastIsUnique(r1: Option<int>, r2: Option<int>, xs: seq<Option<int>>)
    requires IsLeast(r1, xs) && IsLeast(r2, xs)
    ensures r1 == r2
  {
    if r1.Some? {
      var i :| 0 <= i < |xs| && xs[i] == r1;
      var j :| 0 <= j < |xs| && xs[j] == r2;
    }
  }

  /** The extrema depend only on which entries occur, not on their order or
      multiplicity: in particular sorting a series leaves them unchanged. */
  lemma ExtremaIgnoreOrder(xs: seq<Option<int>>, ys: seq<Option<int>>)
    requires forall x :: x in xs <==> x in ys
    ensures MaxOf(xs) == MaxOf(ys)
    ensures MinOf(xs) == MinOf(ys)
  {
    forall i | 0 <= i < |ys| ensures exists j :: 0 <= j < |xs| && xs[j] == ys[i] {
      assert ys[i] in xs;
    }
    forall i | 0 <= i < |xs| ensures exists j :: 0 <= j < |ys| && ys[j] == xs[i] {
      assert xs[i] in ys;
    }
    assert IsGreatest(MaxOf(xs), ys);
    GreatestIsUnique(MaxOf(xs), MaxOf(ys), ys);
    assert IsLeast(MinOf(xs), ys);
    LeastIsUnique(MinOf(xs), MinOf(ys), ys);
  }
}
