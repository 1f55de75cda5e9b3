/** The three indicators and their buy/sell rules. Every function maps a
    price Series (or the price table, for the Stochastic Oscillator) to
    Series of the same length, index-aligned with the input. */
module Indicators {
  import opened Series
  import opened Smoothing
  import opened Rolling
  import opened Prices

  // ------------------------------------------------------------------ RSI

  /** The numeric part of `data.diff()`: entry j is the move into bar j + 1.
      (`diff` leaves bar 0 NaN, so the moves begin at bar 1.) */
  function Moves(data: seq<real>): (d: seq<real>)
    ensures |d| == if |data| == 0 then 0 else |data| - 1
  {
    if |data| == 0 then []
    else seq(|data| - 1, j requires 0 <= j < |data| - 1 => data[j + 1] - data[j])
  }

  /** `delta.clip(lower=0)` from bar 1 on: the rises. */
  function Gains(data: seq<real>): (g: seq<real>)
    ensures |g| == |Moves(data)|
    ensures forall j :: 0 <= j < |g| ==> g[j] >= 0.0
  {
    var d := Moves(data);
    seq(|d|, j requires 0 <= j < |d| => if d[j] < 0.0 then 0.0 else d[j])
  }

  /** `-1 * delta.clip(upper=0)` from bar 1 on: the size of the falls. */
  function Losses(data: seq<real>): (l: seq<real>)
    ensures |l| == |Moves(data)|
    ensures forall j :: 0 <= j < |l| ==> l[j] >= 0.0
    ensures forall j :: 0 <= j < |l| ==> Gains(data)[j] - l[j] == Moves(data)[j]
    ensures forall j :: 0 <= j < |l| ==> Gains(data)[j] == 0.0 || l[j] == 0.0
  {
    var d := Moves(data);
    seq(|d|, j requires 0 <= j < |d| => -1.0 * (if d[j] > 0.0 then 0.0 else d[j]))
  }

  /** `ema_up`: the smoothed rises, seeded at bar 1. Never negative. */
  function SmoothedGains(data: seq<real>, window: nat): (up: seq<real>)
    requires window >= 1
    ensures |up| == |Moves(data)|
    ensures forall j :: 0 <= j < |up| ==> up[j] >= 0.0
  {
    EwmNonNegative(Gains(data), window);
    Ewm(Gains(data), window)
  }

  /** `ema_down`: the smoothed falls, seeded at bar 1. Never negative. */
  function SmoothedLosses(data: seq<real>, window: nat): (down: seq<real>)
    requires window >= 1
    ensures |down| == |Moves(data)|
    ensures forall j :: 0 <= j < |down| ==> down[j] >= 0.0
  {
    EwmNonNegative(Losses(data), window);
    Ewm(Losses(data), window)
  }

  /** `100 - 100 / (1 + up / down)` on floats, for non-negative up and down:
      a zero `down` makes `rs` infinite (RSI 100) when `up` is positive and
      NaN when `up` is zero too. */
  function RsiValue(up: real, down: real): (r: Value)
    requires up >= 0.0 && down >= 0.0
    ensures r.Num? ==> 0.0 <= r.v <= 100.0
    ensures r == NaN <==> up == 0.0 && down == 0.0
    ensures r == Num(100.0) <==> down == 0.0 && up > 0.0
  {
    if down > 0.0 then
      var rs := up / down;
      assert rs >= 0.0;
      assert 0.0 < 100.0 / (1.0 + rs) <= 100.0 by {
        var q := 100.0 / (1.0 + rs);
        assert q * (1.0 + rs) == 100.0;
      }
      Num(100.0 - 100.0 / (1.0 + rs))
    else if up > 0.0 then Num(100.0)
    else NaN
  }

  /** `calculate_rsi`: NaN at bar 0, a number in [0, 100] or NaN afterwards. */
  function CalculateRsi(data: seq<real>, window: nat): (rsi: seq<Value>)
    requires window >= 1
    ensures |rsi| == |data|
    ensures |data| > 0 ==> rsi[0] == NaN
    ensures forall i :: 0 <= i < |rsi| && rsi[i].Num? ==> 0.0 <= rsi[i].v <= 100.0
  {
    if |data| == 0 then []
    else
      var up := SmoothedGains(data, window);
      var down := SmoothedLosses(data, window);
      [NaN] + seq(|data| - 1, j requires 0 <= j < |data| - 1 => RsiValue(up[j], down[j]))
  }

  /** The RSI at bar i >= 1 comes from the smoothed rises and falls up to bar i. */
  lemma RsiAt(data: seq<real>, window: nat, i: nat)
    requires window >= 1 && 1 <= i < |data|
    ensures CalculateRsi(data, window)[i]
         == RsiValue(SmoothedGains(data, window)[i - 1], SmoothedLosses(data, window)[i - 1])
  {
  }

  /** No move into any of bars 1..i is the same as bars 0..i all closing alike. */
  lemma {:induction false} FlatIffNoMoves(data: seq<real>, i: nat)
    requires i < |data|
    ensures (forall j :: 0 <= j < i ==> Moves(data)[j] == 0.0)
        <==> (forall j :: 0 <= j <= i ==> data[j] == data[0])
  {
    if i > 0 {
      FlatIffNoMoves(data, i - 1);
      assert Moves(data)[i - 1] == data[i] - data[i - 1];
      if forall j :: 0 <= j <= i ==> data[j] == data[0] {
        assert data[i] == data[0] && data[i - 1] == data[0];
      }
    }
  }

  /** With window >= 2, the smoothed rises (falls) at bar i >= 1 are zero
      exactly when no bar 1..i rose (fell). */
  lemma SmoothedZeroIffNone(data: seq<real>, window: nat, i: nat)
    requires window >= 2 && 1 <= i < |data|
    ensures SmoothedGains(data, window)[i - 1] == 0.0
        <==> forall j :: 0 <= j < i ==> Gains(data)[j] == 0.0
    ensures SmoothedLosses(data, window)[i - 1] == 0.0
        <==> forall j :: 0 <= j < i ==> Losses(data)[j] == 0.0
  {
    EwmZeroIffAllZero(Gains(data), Alpha(window), i - 1);
    EwmZeroIffAllZero(Losses(data), Alpha(window), i - 1);
  }

  /** With window >= 2, the RSI at bar i >= 1 is NaN exactly when the close
      has not moved at all over bars 0..i (both smoothed moves are zero). */
  lemma RsiUndefinedIffFlat(data: seq<real>, window: nat, i: nat)
    requires window >= 2 && 1 <= i < |data|
    ensures CalculateRsi(data, window)[i] == NaN
        <==> forall j :: 0 <= j <= i ==> data[j] == data[0]
  {
    RsiAt(data, window, i);
    SmoothedZeroIffNone(data, window, i);
    FlatIffNoMoves(data, i);
    var d, g, l := Moves(data), Gains(data), Losses(data);
    assert forall j :: 0 <= j < i ==> (g[j] == 0.0 && l[j] == 0.0 <==> d[j] == 0.0);
  }

  /** No fall into any of bars 1..i: every smoothed-loss input up to i is zero. */
  lemma NoLossIffNoFall(data: seq<real>, i: nat)
    requires 1 <= i < |data|
    ensures (forall j :: 0 <= j < i ==> Losses(data)[j] == 0.0)
        <==> (forall j :: 1 <= j <= i ==> data[j - 1] <= data[j])
  {
    var l := Losses(data);
    if forall j :: 0 <= j < i ==> l[j] == 0.0 {
      forall j | 1 <= j <= i
        ensures data[j - 1] <= data[j]
      {
        assert l[j - 1] == 0.0;
      }
    }
  }

  /** Some rise into one of bars 1..i: some gain up to i is non-zero. */
  lemma SomeGainIffSomeRise(data: seq<real>, i: nat)
    requires 1 <= i < |data|
    ensures (exists j :: 0 <= j < i && Gains(data)[j] != 0.0)
        <==> (exists j :: 1 <= j <= i && data[j - 1] < data[j])
  {
    var g := Gains(data);
    if exists j :: 1 <= j <= i && data[j - 1] < data[j] {
      var j :| 1 <= j <= i && data[j - 1] < data[j];
      assert g[j - 1] != 0.0;
    }
  }

  /** With window >= 2, the RSI at bar i >= 1 is exactly 100 when the close
      never fell over bars 1..i and rose at least once. */
  lemma RsiHundredIffOnlyRises(data: seq<real>, window: nat, i: nat)
    requires window >= 2 && 1 <= i < |data|
    ensures CalculateRsi(data, window)[i] == Num(100.0)
        <==> (forall j :: 1 <= j <= i ==> data[j - 1] <= data[j])
             && (exists j :: 1 <= j <= i && data[j - 1] < data[j])
  {
    RsiAt(data, window, i);
    SmoothedZeroIffNone(data, window, i);
    NoLossIffNoFall(data, i);
    SomeGainIffSomeRise(data, i);
  }

  /** `rsi_signals`: buy below 30, sell above 70, never on a NaN bar. */
  function RsiSignals(data: seq<real>, window: nat): (signals: (seq<bool>, seq<bool>))
    requires window >= 1
    ensures |signals.0| == |data| && |signals.1| == |data|
    ensures var rsi := CalculateRsi(data, window);
      forall i :: 0 <= i < |data| ==>
        (signals.0[i] <==> rsi[i].Num? && rsi[i].v < 30.0)
        && (signals.1[i] <==> rsi[i].Num? && rsi[i].v > 70.0)
    ensures |data| > 0 ==> !signals.0[0] && !signals.1[0]
    ensures forall i :: 0 <= i < |data| ==> !(signals.0[i] && signals.1[i])
  {
    var rsi := CalculateRsi(data, window);
    (BelowScalar(rsi, 30.0), AboveScalar(rsi, 70.0))
  }

  // ----------------------------------------------------------------- MACD

  /** The spread of the inputs seen up to bar i. */
  function Spread(xs: seq<real>, i: nat): real
    requires i < |xs|
  {
    PrefixMax(xs, i) - PrefixMin(xs, i)
  }

  /** `calculate_macd`: the MACD line (short EMA minus long EMA of the close)
      and its signal line (an EMA of the MACD line); both are defined at
      every bar. */
  function CalculateMacd(data: seq<real>, shortWindow: nat, longWindow: nat, signalWindow: nat)
    : (lines: (seq<real>, seq<real>))
    requires shortWindow >= 1 && longWindow >= 1 && signalWindow >= 1
    ensures |lines.0| == |data| && |lines.1| == |data|
  {
    var shortEma := Ewm(data, shortWindow);
    var longEma := Ewm(data, longWindow);
    var macd := seq(|data|, i requires 0 <= i < |data| => shortEma[i] - longEma[i]);
    (macd, Ewm(macd, signalWindow))
  }

  /** Both MACD lines at bar i are bounded in size by the spread of the
      closes seen up to bar i. */
  lemma MacdWithinSpread(data: seq<real>, shortWindow: nat, longWindow: nat, signalWindow: nat, i: nat)
    requires shortWindow >= 1 && longWindow >= 1 && signalWindow >= 1 && i < |data|
    ensures var lines := CalculateMacd(data, shortWindow, longWindow, signalWindow);
      -Spread(data, i) <= lines.0[i] <= Spread(data, i)
      && -Spread(data, i) <= lines.1[i] <= Spread(data, i)
  {
    var lines := CalculateMacd(data, shortWindow, longWindow, signalWindow);
    var s := Spread(data, i);
    forall j | 0 <= j <= i
      ensures -s <= lines.0[j] <= s
    {
      EwmAtBetweenExtremes(data, Alpha(shortWindow), j);
      EwmAtBetweenExtremes(data, Alpha(longWindow), j);
    }
    EwmAtWithin(lines.0, Alpha(signalWindow), i, -s, s);
  }

  /** A constant close gives MACD line = signal line = 0 at every bar. */
  lemma MacdOfConstant(data: seq<real>, shortWindow: nat, longWindow: nat, signalWindow: nat, c: real)
    requires shortWindow >= 1 && longWindow >= 1 && signalWindow >= 1
    requires forall j :: 0 <= j < |data| ==> data[j] == c
    ensures var lines := CalculateMacd(data, shortWindow, longWindow, signalWindow);
      forall i :: 0 <= i < |data| ==> lines.0[i] == 0.0 && lines.1[i] == 0.0
  {
    forall i | 0 <= i < |data|
      ensures var lines := CalculateMacd(data, shortWindow, longWindow, signalWindow);
        lines.0[i] == 0.0 && lines.1[i] == 0.0
    {
      MacdWithinSpread(data, shortWindow, longWindow, signalWindow, i);
      assert PrefixMax(data, i) == c && PrefixMin(data, i) == c;
    }
  }

  /** `macd_signals`: a buy where the MACD line crosses above the signal
      line, a sell where it crosses below; `shift()` makes bar 0 NaN, so
      neither fires there. */
  function MacdSignals(data: seq<real>, shortWindow: nat, longWindow: nat, signalWindow: nat)
    : (signals: (seq<bool>, seq<bool>))
    requires shortWindow >= 1 && longWindow >= 1 && signalWindow >= 1
    ensures |signals.0| == |data| && |signals.1| == |data|
    ensures var lines := CalculateMacd(data, shortWindow, longWindow, signalWindow);
      var m, s := lines.0, lines.1;
      forall i :: 0 <= i < |data| ==>
        (signals.0[i] <==> 1 <= i && m[i] > s[i] && m[i - 1] <= s[i - 1])
        && (signals.1[i] <==> 1 <= i && m[i] < s[i] && m[i - 1] >= s[i - 1])
    ensures forall i :: 0 <= i < |data| ==> !(signals.0[i] && signals.1[i])
  {
    var lines := CalculateMacd(data, shortWindow, longWindow, signalWindow);
    var macd := Lift(lines.0);
    var signal := Lift(lines.1);
    (And(GreaterEach(macd, signal), AtMostEach(Shift(macd), Shift(signal))),
     And(LessEach(macd, signal), AtLeastEach(Shift(macd), Shift(signal))))
  }

  /** A constant close never produces a MACD buy or sell. */
  lemma ConstantCloseNoMacdSignal(data: seq<real>, shortWindow: nat, longWindow: nat, signalWindow: nat, c: real)
    requires shortWindow >= 1 && longWindow >= 1 && signalWindow >= 1
    requires forall j :: 0 <= j < |data| ==> data[j] == c
    ensures var signals := MacdSignals(data, shortWindow, longWindow, signalWindow);
      forall i :: 0 <= i < |data| ==> !signals.0[i] && !signals.1[i]
  {
    MacdOfConstant(data, shortWindow, longWindow, signalWindow, c);
  }

  // ----------------------------------------------------------- Stochastic

  /** `(close - low_min) / (high_max - low_min) * 100` for one bar; NaN in the
      warm-up and when the window is flat. */
  function PercentK(close: real, lowMin: Value, highMax: Value): (k: Value)
    ensures k.Num? <==> lowMin.Num? && highMax.Num? && highMax.v != lowMin.v
    ensures k.Num? && lowMin.v <= close <= highMax.v ==> 0.0 <= k.v <= 100.0
    ensures k.Num? && close == lowMin.v ==> k.v == 0.0
    ensures k.Num? && close == highMax.v ==> k.v == 100.0
  {
    if lowMin.NaN? || highMax.NaN? || highMax.v - lowMin.v == 0.0 then NaN
    else
      var percent := (close - lowMin.v) / (highMax.v - lowMin.v) * 100.0;
      assert lowMin.v <= close <= highMax.v ==> 0.0 <= percent <= 100.0 by {
        if lowMin.v <= close <= highMax.v {
          PercentWithin(close - lowMin.v, highMax.v - lowMin.v);
        }
      }
      Num(percent)
  }

  /** `calculate_stochastic_oscillator`: %K from the rolling low/high of
      `kWindow` bars, %D the rolling mean of `dWindow` %K values. */
  function CalculateStochasticOscillator(bars: seq<Bar>, kWindow: nat, dWindow: nat)
    : (lines: (seq<Value>, seq<Value>))
    requires kWindow >= 1 && dWindow >= 1
    ensures |lines.0| == |bars| && |lines.1| == |bars|
    ensures forall i :: 0 <= i < |bars| && i + 1 < kWindow ==> lines.0[i] == NaN
    ensures forall i :: 0 <= i < |bars| ==>
      (lines.1[i].Num? <==> i + 1 >= dWindow && AllNum(lines.0[i + 1 - dWindow..i + 1]))
  {
    var lowMin := RollingMin(Lows(bars), kWindow);
    var highMax := RollingMax(Highs(bars), kWindow);
    var k := seq(|bars|, i requires 0 <= i < |bars| => PercentK(bars[i].close, lowMin[i], highMax[i]));
    (k, RollingMean(k, dWindow))
  }

  /** %K at bar i is a number exactly when the window is complete and not
      flat: a flat window (high_max = low_min) leaves it NaN. */
  lemma PercentKDefinedness(bars: seq<Bar>, kWindow: nat, dWindow: nat, i: nat)
    requires kWindow >= 1 && dWindow >= 1 && i < |bars|
    ensures CalculateStochasticOscillator(bars, kWindow, dWindow).0[i].Num?
        <==> i + 1 >= kWindow
             && RangeMax(Highs(bars), i + 1 - kWindow, i + 1) != RangeMin(Lows(bars), i + 1 - kWindow, i + 1)
  {
  }

  /** %D is NaN until both warm-ups have passed. */
  lemma PercentDWarmUp(bars: seq<Bar>, kWindow: nat, dWindow: nat, i: nat)
    requires kWindow >= 1 && dWindow >= 1 && i < |bars|
    requires CalculateStochasticOscillator(bars, kWindow, dWindow).1[i].Num?
    ensures i + 2 >= kWindow + dWindow
  {
    var k := CalculateStochasticOscillator(bars, kWindow, dWindow).0;
    assert k[i + 1 - dWindow..i + 1][0] == k[i + 1 - dWindow];
  }

  /** For 0 <= num <= den and den > 0, num / den * 100 lies in [0, 100]. */
  lemma PercentWithin(num: real, den: real)
    requires den > 0.0 && 0.0 <= num <= den
    ensures 0.0 <= num / den * 100.0 <= 100.0
  {
    var q := num / den;
    assert q * den == num;
    assert (1.0 - q) * den >= 0.0;
  }

  /** When every bar closes within its own low..high range, %K and %D lie in
      [0, 100] wherever they are numbers. */
  lemma StochasticWithin(bars: seq<Bar>, kWindow: nat, dWindow: nat)
    requires kWindow >= 1 && dWindow >= 1
    requires forall j :: 0 <= j < |bars| ==> WellFormed(bars[j])
    ensures var lines := CalculateStochasticOscillator(bars, kWindow, dWindow);
      forall i :: 0 <= i < |bars| ==>
        (lines.0[i].Num? ==> 0.0 <= lines.0[i].v <= 100.0)
        && (lines.1[i].Num? ==> 0.0 <= lines.1[i].v <= 100.0)
  {
    var lines := CalculateStochasticOscillator(bars, kWindow, dWindow);
    var k := lines.0;
    forall i | 0 <= i < |bars| && k[i].Num?
      ensures 0.0 <= k[i].v <= 100.0
    {
      var lo := RangeMin(Lows(bars), i + 1 - kWindow, i + 1);
      var hi := RangeMax(Highs(bars), i + 1 - kWindow, i + 1);
      assert lo <= Lows(bars)[i] == bars[i].low;
      assert bars[i].high == Highs(bars)[i] <= hi;
      assert WellFormed(bars[i]);
      PercentWithin(bars[i].close - lo, hi - lo);
    }
    RollingMeanWithin(k, dWindow, 0.0, 100.0);
  }

  /** `stochastic_signals`: buy when %K > %D inside the oversold band
      (%K < 20), sell when %K < %D inside the overbought band (%K > 80);
      false wherever %K or %D is NaN. */
  function StochasticSignals(bars: seq<Bar>, kWindow: nat, dWindow: nat)
    : (signals: (seq<bool>, seq<bool>))
    requires kWindow >= 1 && dWindow >= 1
    ensures |signals.0| == |bars| && |signals.1| == |bars|
    ensures var lines := CalculateStochasticOscillator(bars, kWindow, dWindow);
      var k, d := lines.0, lines.1;
      forall i :: 0 <= i < |bars| ==>
        (signals.0[i] <==> k[i].Num? && d[i].Num? && k[i].v > d[i].v && k[i].v < 20.0)
        && (signals.1[i] <==> k[i].Num? && d[i].Num? && k[i].v < d[i].v && k[i].v > 80.0)
    ensures forall i :: 0 <= i < |bars| ==> !(signals.0[i] && signals.1[i])
  {
    var lines := CalculateStochasticOscillator(bars, kWindow, dWindow);
    var k := lines.0;
    var d := lines.1;
    (And(GreaterEach(k, d), BelowScalar(k, 20.0)),
     And(LessEach(k, d), AboveScalar(k, 80.0)))
  }

  /** No Stochastic signal fires before both warm-ups have passed. */
  lemma StochasticSilentDuringWarmUp(bars: seq<Bar>, kWindow: nat, dWindow: nat, i: nat)
    requires kWindow >= 1 && dWindow >= 1 && i < |bars|
    requires i + 2 < kWindow + dWindow
    ensures var signals := StochasticSignals(bars, kWindow, dWindow);
      !signals.0[i] && !signals.1[i]
  {
    if CalculateStochasticOscillator(bars, kWindow, dWindow).1[i].Num? {
      PercentDWarmUp(bars, kWindow, dWindow, i);
    }
  }
}
