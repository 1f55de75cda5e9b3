/** The part of pandas' Series semantics that the indicators rely on: float
    cells that may be NaN, comparisons that are false as soon as one side is
    NaN, element-wise `&`, and `shift()`. */
module Series {

  /** One float64 cell: NaN (pandas' missing value) or a number. */
  datatype Value = NaN | Num(v: real)

  /** `a < b` on floats: false whenever either side is NaN. */
  predicate Less(a: Value, b: Value) {
    a.Num? && b.Num? && a.v < b.v
  }

  /** `a > b` on floats. */
  predicate Greater(a: Value, b: Value) {
    a.Num? && b.Num? && a.v > b.v
  }

  /** `a <= b` on floats. */
  predicate AtMost(a: Value, b: Value) {
    a.Num? && b.Num? && a.v <= b.v
  }

  /** `a >= b` on floats. */
  predicate AtLeast(a: Value, b: Value) {
    a.Num? && b.Num? && a.v >= b.v
  }

  /** A Series without missing values. */
  function Lift(xs: seq<real>): (r: seq<Value>)
    ensures |r| == |xs|
  {
    seq(|xs|, i requires 0 <= i < |xs| => Num(xs[i]))
  }

  /** `s.shift()`: every cell moves one bar later and bar 0 becomes NaN. */
  function Shift(xs: seq<Value>): (r: seq<Value>)
    ensures |r| == |xs|
  {
    if |xs| == 0 then [] else [NaN] + xs[..|xs| - 1]
  }

  /** `s < c` for a scalar `c`. */
  function BelowScalar(xs: seq<Value>, c: real): (r: seq<bool>)
    ensures |r| == |xs|
  {
    seq(|xs|, i requires 0 <= i < |xs| => Less(xs[i], Num(c)))
  }

  /** `s > c` for a scalar `c`. */
  function AboveScalar(xs: seq<Value>, c: real): (r: seq<bool>)
    ensures |r| == |xs|
  {
    seq(|xs|, i requires 0 <= i < |xs| => Greater(xs[i], Num(c)))
  }

  /** `s < t` for two aligned Series. */
  function LessEach(xs: seq<Value>, ys: seq<Value>): (r: seq<bool>)
    requires |xs| == |ys|
    ensures |r| == |xs|
  {
    seq(|xs|, i requires 0 <= i < |xs| => Less(xs[i], ys[i]))
  }

  /** `s > t` for two aligned Series. */
  function GreaterEach(xs: seq<Value>, ys: seq<Value>): (r: seq<bool>)
    requires |xs| == |ys|
    ensures |r| == |xs|
  {
    seq(|xs|, i requires 0 <= i < |xs| => Greater(xs[i], ys[i]))
  }

  /** `s <= t` for two aligned Series. */
  function AtMostEach(xs: seq<Value>, ys: seq<Value>): (r: seq<bool>)
    requires |xs| == |ys|
    ensures |r| == |xs|
  {
    seq(|xs|, i requires 0 <= i < |xs| => AtMost(xs[i], ys[i]))
  }

  /** `s >= t` for two aligned Series. */
  function AtLeastEach(xs: seq<Value>, ys: seq<Value>): (r: seq<bool>)
    requires |xs| == |ys|
    ensures |r| == |xs|
  {
    seq(|xs|, i requires 0 <= i < |xs| => AtLeast(xs[i], ys[i]))
  }

  /** `s & t` for two aligned boolean Series. */
  function And(xs: seq<bool>, ys: seq<bool>): (r: seq<bool>)
    requires |xs| == |ys|
    ensures |r| == |xs|
  {
    seq(|xs|, i requires 0 <= i < |xs| => xs[i] && ys[i])
  }
}
