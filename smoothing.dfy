/** pandas' `ewm(span=span, adjust=False).mean()` on a Series without NaN:
    bar 0 seeds the average and every later bar mixes the new value in with
    weight alpha = 2 / (span + 1). */
module Smoothing {

  /** The smoothing factor pandas derives from `span`. */
  function Alpha(span: nat): (a: real)
    requires span >= 1
    ensures 0.0 < a <= 1.0
    ensures span >= 2 ==> a < 1.0
  {
    2.0 / (span as real + 1.0)
  }

  /** The smallest of xs[0..i]. */
  function PrefixMin(xs: seq<real>, i: nat): (m: real)
    requires i < |xs|
    ensures forall j :: 0 <= j <= i ==> m <= xs[j]
    ensures exists j :: 0 <= j <= i && m == xs[j]
  {
    if i == 0 then xs[0]
    else
      var m := PrefixMin(xs, i - 1);
      if xs[i] < m then xs[i] else m
  }

  /** The largest of xs[0..i]. */
  function PrefixMax(xs: seq<real>, i: nat): (m: real)
    requires i < |xs|
    ensures forall j :: 0 <= j <= i ==> xs[j] <= m
    ensures exists j :: 0 <= j <= i && m == xs[j]
  {
    if i == 0 then xs[0]
    else
      var m := PrefixMax(xs, i - 1);
      if xs[i] > m then xs[i] else m
  }

  /** One smoothing step: the new input weighted by `a`, the running mean by `1 - a`. */
  function Mix(a: real, x: real, prev: real): real {
    a * x + (1.0 - a) * prev
  }

  /** A convex combination of two points of [lo, hi] stays in [lo, hi]. */
  lemma Convex(a: real, x: real, y: real, lo: real, hi: real)
    requires 0.0 <= a <= 1.0
    requires lo <= x <= hi && lo <= y <= hi
    ensures lo <= Mix(a, x, y) <= hi
  {
    assert a * (x - lo) >= 0.0;
    assert (1.0 - a) * (y - lo) >= 0.0;
    assert a * (hi - x) >= 0.0;
    assert (1.0 - a) * (hi - y) >= 0.0;
  }

  /** Bar i of the exponentially weighted mean with smoothing factor `alpha`. */
  function EwmAt(xs: seq<real>, alpha: real, i: nat): real
    requires 0.0 < alpha <= 1.0 && i < |xs|
  {
    if i == 0 then xs[0] else Mix(alpha, xs[i], EwmAt(xs, alpha, i - 1))
  }

  /** If every input up to bar i lies in [lo, hi], so does the mean at bar i. */
  lemma {:induction false} EwmAtWithin(xs: seq<real>, alpha: real, i: nat, lo: real, hi: real)
    requires 0.0 < alpha <= 1.0 && i < |xs|
    requires forall j :: 0 <= j <= i ==> lo <= xs[j] <= hi
    ensures lo <= EwmAt(xs, alpha, i) <= hi
  {
    if i > 0 {
      EwmAtWithin(xs, alpha, i - 1, lo, hi);
      Convex(alpha, xs[i], EwmAt(xs, alpha, i - 1), lo, hi);
    }
  }

  /** The mean at bar i lies between the smallest and the largest input seen
      up to bar i. */
  lemma EwmAtBetweenExtremes(xs: seq<real>, alpha: real, i: nat)
    requires 0.0 < alpha <= 1.0 && i < |xs|
    ensures PrefixMin(xs, i) <= EwmAt(xs, alpha, i) <= PrefixMax(xs, i)
  {
    EwmAtWithin(xs, alpha, i, PrefixMin(xs, i), PrefixMax(xs, i));
  }

  /** The whole smoothed Series, index-aligned with its input. */
  function Ewm(xs: seq<real>, span: nat): (ys: seq<real>)
    requires span >= 1
    ensures |ys| == |xs|
  {
    seq(|xs|, i requires 0 <= i < |xs| => EwmAt(xs, Alpha(span), i))
  }

  /** Non-negative inputs give a non-negative smoothed Series. */
  lemma EwmNonNegative(xs: seq<real>, span: nat)
    requires span >= 1
    requires forall j :: 0 <= j < |xs| ==> xs[j] >= 0.0
    ensures forall i :: 0 <= i < |xs| ==> Ewm(xs, span)[i] >= 0.0
  {
    forall i | 0 <= i < |xs|
      ensures Ewm(xs, span)[i] >= 0.0
    {
      EwmAtWithin(xs, Alpha(span), i, 0.0, PrefixMax(xs, i));
    }
  }

  /** The mean at bar i depends on bars 0..i only: no look-ahead. */
  lemma {:induction false} EwmIsCausal(xs: seq<real>, ys: seq<real>, alpha: real, i: nat)
    requires 0.0 < alpha <= 1.0 && i < |xs| && i < |ys|
    requires xs[..i + 1] == ys[..i + 1]
    ensures EwmAt(xs, alpha, i) == EwmAt(ys, alpha, i)
  {
    assert xs[i] == xs[..i + 1][i] == ys[..i + 1][i] == ys[i];
    if i > 0 {
      assert xs[..i] == xs[..i + 1][..i] == ys[..i + 1][..i] == ys[..i];
      EwmIsCausal(xs, ys, alpha, i - 1);
    }
  }

  /** With both weights positive, a step of non-negative values is zero only
      when both values are. */
  lemma MixZero(a: real, x: real, prev: real)
    requires 0.0 < a < 1.0 && x >= 0.0 && prev >= 0.0
    ensures Mix(a, x, prev) == 0.0 <==> x == 0.0 && prev == 0.0
  {
    var b := 1.0 - a;
    assert b > 0.0;
    assert a * x >= 0.0;
    assert b * prev >= 0.0;
    assert Mix(a, x, prev) == a * x + b * prev;
    if Mix(a, x, prev) == 0.0 {
      assert a * x == 0.0 && b * prev == 0.0;
    }
  }

  /** For span >= 2 (alpha < 1) and non-negative input, the mean at bar i is
      zero exactly when every input up to bar i is zero. */
  lemma {:induction false} EwmZeroIffAllZero(xs: seq<real>, alpha: real, i: nat)
    requires 0.0 < alpha < 1.0 && i < |xs|
    requires forall j :: 0 <= j < |xs| ==> xs[j] >= 0.0
    ensures EwmAt(xs, alpha, i) == 0.0 <==> forall j :: 0 <= j <= i ==> xs[j] == 0.0
  {
    if i > 0 {
      EwmZeroIffAllZero(xs, alpha, i - 1);
      EwmAtWithin(xs, alpha, i - 1, 0.0, PrefixMax(xs, i - 1));
      MixZero(alpha, xs[i], EwmAt(xs, alpha, i - 1));
    }
  }

  /** The accumulator loop pandas runs: one running mean carried bar to bar. */
  method EwmLoop(xs: seq<real>, span: nat) returns (ys: seq<real>)
    requires span >= 1
    ensures ys == Ewm(xs, span)
  {
    ys := [];
    if |xs| == 0 {
      return;
    }
    var alpha := Alpha(span);
    var weighted := xs[0];
    ys := [weighted];
    var i := 1;
    while i < |xs|
      invariant 1 <= i <= |xs|
      invariant |ys| == i
      invariant forall j :: 0 <= j < i ==> ys[j] == EwmAt(xs, alpha, j)
      invariant weighted == EwmAt(xs, alpha, i - 1)
    {
      weighted := Mix(alpha, xs[i], weighted);
      ys := ys + [weighted];
      i := i + 1;
    }
  }
}
