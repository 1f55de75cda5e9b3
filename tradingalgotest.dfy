/** The stand-alone script's signal rules. Its `calculate_rsi` and
    `calculate_macd` are textual copies of the indicator module's and are
    modelled by the same functions; the branch expressions are written out
    here as the script writes them. */
module TradingAlgoTest {
  import opened Wrappers
  import opened Series
  import opened Indicators

  /** The 'RSI' branch: `rsi < 30` and `rsi > 70` on the default 14-bar RSI. */
  function RsiBranch(closePrices: seq<real>): (signals: (seq<bool>, seq<bool>))
    ensures signals == RsiSignals(closePrices, 14)
    ensures |closePrices| > 0 ==> !signals.0[0] && !signals.1[0]
    ensures forall i :: 0 <= i < |closePrices| ==> !(signals.0[i] && signals.1[i])
  {
    var rsi := CalculateRsi(closePrices, 14);
    (BelowScalar(rsi, 30.0), AboveScalar(rsi, 70.0))
  }

  /** The 'MACD' branch: the crossover expressions on the default
      12/26/9 MACD. */
  function MacdBranch(closePrices: seq<real>): (signals: (seq<bool>, seq<bool>))
    ensures signals == MacdSignals(closePrices, 12, 26, 9)
    ensures |closePrices| > 0 ==> !signals.0[0] && !signals.1[0]
    ensures forall i :: 0 <= i < |closePrices| ==> !(signals.0[i] && signals.1[i])
  {
    var lines := CalculateMacd(closePrices, 12, 26, 9);
    var macdLine := Lift(lines.0);
    var signalLine := Lift(lines.1);
    (And(GreaterEach(macdLine, signalLine), AtMostEach(Shift(macdLine), Shift(signalLine))),
     And(LessEach(macdLine, signalLine), AtLeastEach(Shift(macdLine), Shift(signalLine))))
  }

  /** The script's `plot_with_indicator` dispatch: signals are computed for
      'RSI' and 'MACD' only; any other choice plots the price alone. */
  function ScriptSignals(indicator: string, closePrices: seq<real>): (signals: Option<(seq<bool>, seq<bool>)>)
    ensures signals.Some? <==> indicator == "RSI" || indicator == "MACD"
    ensures signals.Some? ==> |signals.value.0| == |closePrices| && |signals.value.1| == |closePrices|
    ensures signals.Some? ==> forall i :: 0 <= i < |closePrices| ==> !(signals.value.0[i] && signals.value.1[i])
  {
    if indicator == "RSI" then Some(RsiBranch(closePrices))
    else if indicator == "MACD" then Some(MacdBranch(closePrices))
    else None
  }
}
