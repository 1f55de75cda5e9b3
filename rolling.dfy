/** pandas' `rolling(window=w)` reductions with the default
    `min_periods = w`: bar i reduces the w bars ending at i, and the first
    w - 1 bars (and any window holding a NaN) give NaN. */
module Rolling {
  import opened Series

  /** The smallest of xs[lo..hi]. */
  function RangeMin(xs: seq<real>, lo: nat, hi: nat): (m: real)
    requires lo < hi <= |xs|
    ensures forall j :: lo <= j < hi ==> m <= xs[j]
    ensures exists j :: lo <= j < hi && m == xs[j]
    decreases hi
  {
    if hi == lo + 1 then xs[lo]
    else
      var m := RangeMin(xs, lo, hi - 1);
      if xs[hi - 1] < m then xs[hi - 1] else m
  }

  /** The largest of xs[lo..hi]. */
  function RangeMax(xs: seq<real>, lo: nat, hi: nat): (m: real)
    requires lo < hi <= |xs|
    ensures forall j :: lo <= j < hi ==> xs[j] <= m
    ensures exists j :: lo <= j < hi && m == xs[j]
    decreases hi
  {
    if hi == lo + 1 then xs[lo]
    else
      var m := RangeMax(xs, lo, hi - 1);
      if xs[hi - 1] > m then xs[hi - 1] else m
  }

  /** `xs.rolling(window).min()` on a Series without NaN. */
  function RollingMin(xs: seq<real>, window: nat): (r: seq<Value>)
    requires window >= 1
    ensures |r| == |xs|
    ensures forall i :: 0 <= i < |xs| ==> (r[i].Num? <==> i + 1 >= window)
    ensures forall i, j :: 0 <= i < |xs| && r[i].Num? && i + 1 - window <= j <= i ==> r[i].v <= xs[j]
    ensures forall i :: 0 <= i < |xs| && r[i].Num? ==>
      exists j :: i + 1 - window <= j <= i && r[i].v == xs[j]
  {
    var r := seq(|xs|, i requires 0 <= i < |xs| =>
      if i + 1 < window then NaN else Num(RangeMin(xs, i + 1 - window, i + 1)));
    assert forall i :: 0 <= i < |xs| && i + 1 >= window ==> r[i] == Num(RangeMin(xs, i + 1 - window, i + 1));
    r
  }

  /** `xs.rolling(window).max()` on a Series without NaN. */
  function RollingMax(xs: seq<real>, window: nat): (r: seq<Value>)
    requires window >= 1
    ensures |r| == |xs|
    ensures forall i :: 0 <= i < |xs| ==> (r[i].Num? <==> i + 1 >= window)
    ensures forall i, j :: 0 <= i < |xs| && r[i].Num? && i + 1 - window <= j <= i ==> xs[j] <= r[i].v
    ensures forall i :: 0 <= i < |xs| && r[i].Num? ==>
      exists j :: i + 1 - window <= j <= i && r[i].v == xs[j]
  {
    var r := seq(|xs|, i requires 0 <= i < |xs| =>
      if i + 1 < window then NaN else Num(RangeMax(xs, i + 1 - window, i + 1)));
    assert forall i :: 0 <= i < |xs| && i + 1 >= window ==> r[i] == Num(RangeMax(xs, i + 1 - window, i + 1));
    r
  }

  /** No cell of xs is NaN. */
  predicate AllNum(xs: seq<Value>) {
    forall j :: 0 <= j < |xs| ==> xs[j].Num?
  }

  /** The sum of a NaN-free Series. */
  function Total(xs: seq<Value>): real
    requires AllNum(xs)
  {
    if |xs| == 0 then 0.0 else Total(xs[..|xs| - 1]) + xs[|xs| - 1].v
  }

  /** `xs.rolling(window).mean()`: the mean of the window when all of its
      `window` cells are numbers, NaN otherwise. */
  function RollingMean(xs: seq<Value>, window: nat): (r: seq<Value>)
    requires window >= 1
    ensures |r| == |xs|
    ensures forall i :: 0 <= i < |xs| ==>
      (r[i].Num? <==> i + 1 >= window && AllNum(xs[i + 1 - window..i + 1]))
  {
    seq(|xs|, i requires 0 <= i < |xs| =>
      if i + 1 < window then NaN
      else
        var w := xs[i + 1 - window..i + 1];
        if AllNum(w) then Num(Total(w) / window as real) else NaN)
  }

  /** A sum of n numbers from [lo, hi] lies in [n * lo, n * hi]. */
  lemma {:induction false} TotalWithin(xs: seq<Value>, lo: real, hi: real)
    requires AllNum(xs)
    requires forall j :: 0 <= j < |xs| ==> lo <= xs[j].v <= hi
    ensures |xs| as real * lo <= Total(xs) <= |xs| as real * hi
  {
    if |xs| > 0 {
      var init := xs[..|xs| - 1];
      assert forall j :: 0 <= j < |init| ==> init[j] == xs[j];
      TotalWithin(init, lo, hi);
    }
  }

  /** Every defined rolling mean of values from [lo, hi] lies in [lo, hi]. */
  lemma RollingMeanWithin(xs: seq<Value>, window: nat, lo: real, hi: real)
    requires window >= 1
    requires forall j :: 0 <= j < |xs| && xs[j].Num? ==> lo <= xs[j].v <= hi
    ensures forall i :: 0 <= i < |xs| && RollingMean(xs, window)[i].Num? ==>
      lo <= RollingMean(xs, window)[i].v <= hi
  {
    forall i | 0 <= i < |xs| && RollingMean(xs, window)[i].Num?
      ensures lo <= RollingMean(xs, window)[i].v <= hi
    {
      var w := xs[i + 1 - window..i + 1];
      assert |w| == window;
      TotalWithin(w, lo, hi);
      MeanWithin(Total(w), window as real, lo, hi);
    }
  }

  /** Dividing a total from [n * lo, n * hi] by n > 0 gives a value in [lo, hi]. */
  lemma MeanWithin(t: real, n: real, lo: real, hi: real)
    requires n > 0.0 && n * lo <= t <= n * hi
    ensures lo <= t / n <= hi
  {
    var q := t / n;
    assert q * n == t;
    assert (q - lo) * n >= 0.0;
    assert (hi - q) * n >= 0.0;
  }
}
