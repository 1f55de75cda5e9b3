/** The notification part of the main program's `plot_with_indicator`:
    dispatch on the configured indicator, pick the latest buy and sell
    dates, label the signal, and alert once per new date. */
module Alerts {
  import opened Wrappers
  import opened Prices
  import opened Indicators
  import opened SignalStore

  /** The Python exceptions the code can raise on the way. */
  datatype Failure =
    | IndexError          // `df['Date'].iloc[0]` on an empty table
    | UnboundLocalError   // `buy_signals` read although no branch assigned it
    | TypeError           // `max` comparing a date with None

  /** The indicator choice of the configuration. */
  datatype Indicator = Rsi | Macd | Stochastic

  /** The `if indicator == ...` chain: only the three exact names select a branch. */
  function ParseIndicator(name: string): (choice: Option<Indicator>)
    ensures choice.Some? <==> name == "RSI" || name == "MACD" || name == "Stochastic"
    ensures choice == Some(Rsi) <==> name == "RSI"
    ensures choice == Some(Macd) <==> name == "MACD"
  {
    if name == "RSI" then Some(Rsi)
    else if name == "MACD" then Some(Macd)
    else if name == "Stochastic" then Some(Stochastic)
    else None
  }

  /** The buy and sell Series of the chosen indicator with its default
      parameters; whichever is chosen, no bar is both a buy and a sell. */
  function IndicatorSignals(choice: Indicator, bars: seq<Bar>): (signals: (seq<bool>, seq<bool>))
    ensures |signals.0| == |bars| && |signals.1| == |bars|
    ensures forall i :: 0 <= i < |bars| ==> !(signals.0[i] && signals.1[i])
  {
    match choice
    case Rsi => RsiSignals(Closes(bars), 14)
    case Macd => MacdSignals(Closes(bars), 12, 26, 9)
    case Stochastic => StochasticSignals(bars, 14, 3)
  }

  /** `df['Date'][flags].max() if flags.any() else None`. */
  function LatestDate(dates: seq<Date>, flags: seq<bool>): (latest: Option<Date>)
    requires |dates| == |flags|
    ensures latest.None? <==> forall i :: 0 <= i < |flags| ==> !flags[i]
    ensures latest.Some? ==> exists i :: 0 <= i < |flags| && flags[i] && dates[i] == latest.value
    ensures latest.Some? ==> forall i :: 0 <= i < |flags| && flags[i] ==> DateLe(dates[i], latest.value)
    decreases |flags|
  {
    if |flags| == 0 then None
    else
      var last := |flags| - 1;
      var earlier := LatestDate(dates[..last], flags[..last]);
      if !flags[last] then earlier
      else if earlier.Some? && DateLt(dates[last], earlier.value) then earlier
      else Some(dates[last])
  }

  /** On a table with strictly increasing dates, the latest flagged date is
      the date of the last flagged bar. */
  lemma LatestDateIsLastFlagged(dates: seq<Date>, flags: seq<bool>, k: nat)
    requires |dates| == |flags| && k < |flags| && flags[k]
    requires forall i, j :: 0 <= i < j < |dates| ==> DateLt(dates[i], dates[j])
    requires forall j :: k < j < |flags| ==> !flags[j]
    ensures LatestDate(dates, flags) == Some(dates[k])
  {
    var latest := LatestDate(dates, flags).value;
    var i :| 0 <= i < |flags| && flags[i] && dates[i] == latest;
    assert DateLe(dates[k], latest);
  }

  /** `max(latest_buy_signal, latest_sell_signal)` as written: Python's
      `max` keeps the first argument unless the second is greater, and
      comparing with None raises TypeError. */
  function MaxAsWritten(latestBuy: Option<Date>, latestSell: Option<Date>): (r: Result<Date, Failure>)
    ensures r.Success? <==> latestBuy.Some? && latestSell.Some?
    ensures r.Failure? ==> r.error == TypeError
    ensures r.Success? ==> DateLe(latestBuy.value, r.value) && DateLe(latestSell.value, r.value)
    ensures r.Success? ==> r.value == latestBuy.value || r.value == latestSell.value
  {
    match (latestBuy, latestSell)
    case (Some(b), Some(s)) => Success(if DateLt(b, s) then s else b)
    case _ => Failure(TypeError)
  }

  /** The program as written stops with TypeError whenever only one side
      ever signalled, although a signal exists to report. */
  lemma OneSidedSignalsRaise(dates: seq<Date>, buy: seq<bool>, sell: seq<bool>)
    requires |dates| == |buy| == |sell|
    requires exists i :: 0 <= i < |buy| && buy[i]
    requires forall i :: 0 <= i < |sell| ==> !sell[i]
    ensures LatestDate(dates, buy).Some?
    ensures MaxAsWritten(LatestDate(dates, buy), LatestDate(dates, sell)) == Failure(TypeError)
  {
  }

  /** The combined latest date the guard `if latest_signal_date` expects:
      the later of the two that exist, None when neither does. It agrees
      with `max` whenever both exist. */
  function LatestSignalDate(latestBuy: Option<Date>, latestSell: Option<Date>): (latest: Option<Date>)
    ensures latest.None? <==> latestBuy.None? && latestSell.None?
    ensures latest.Some? ==> latest == latestBuy || latest == latestSell
    ensures latestBuy.Some? ==> latest.Some? && DateLe(latestBuy.value, latest.value)
    ensures latestSell.Some? ==> latest.Some? && DateLe(latestSell.value, latest.value)
    ensures latestBuy.Some? && latestSell.Some? ==> MaxAsWritten(latestBuy, latestSell) == Success(latest.value)
  {
    match (latestBuy, latestSell)
    case (Some(b), Some(s)) => Some(if DateLt(b, s) then s else b)
    case (Some(b), None) => Some(b)
    case (None, _) => latestSell
  }

  datatype SignalType = Buy | Sell

  /** `'Buy' if latest_buy_signal == latest_signal_date else 'Sell'`. */
  function SignalTypeOf(latestBuy: Option<Date>, latest: Date): SignalType
  {
    if latestBuy == Some(latest) then Buy else Sell
  }

  /** The signal is labelled Buy exactly when the latest buy is not earlier
      than the latest sell, so a buy and a sell on the same date report Buy. */
  lemma BuyIffBuyNotEarlier(latestBuy: Option<Date>, latestSell: Option<Date>)
    requires latestBuy.Some? || latestSell.Some?
    ensures LatestSignalDate(latestBuy, latestSell).Some?
    ensures SignalTypeOf(latestBuy, LatestSignalDate(latestBuy, latestSell).value) == Buy
        <==> latestBuy.Some? && (latestSell.None? || DateLe(latestSell.value, latestBuy.value))
  {
  }

  /** Lines 60-80 up to the novelty test: the signal to report, if any. */
  function LatestSignal(bars: seq<Bar>, indicator: string): (r: Result<Option<(SignalType, Date)>, Failure>)
    ensures |bars| == 0 ==> r == Failure(IndexError)
    ensures |bars| > 0 && ParseIndicator(indicator).None? ==> r == Failure(UnboundLocalError)
    ensures |bars| > 0 && ParseIndicator(indicator).Some? ==> r.Success?
  {
    if |bars| == 0 then Failure(IndexError)
    else
      match ParseIndicator(indicator)
      case None => Failure(UnboundLocalError)
      case Some(choice) =>
        var signals := IndicatorSignals(choice, bars);
        var latestBuy := LatestDate(Dates(bars), signals.0);
        var latestSell := LatestDate(Dates(bars), signals.1);
        match LatestSignalDate(latestBuy, latestSell)
        case None => Success(None)
        case Some(latest) => Success(Some((SignalTypeOf(latestBuy, latest), latest)))
  }

  /** Lines 60-80 exactly as written, with `max` at line 77: the program
      reaches the novelty test only when both a buy and a sell occurred,
      and then it reports what `LatestSignal` reports. In every other case
      with a known indicator it raises TypeError. A found date is a
      Timestamp, which is always truthy, so the guard never skips it. */
  function LatestSignalAsWritten(bars: seq<Bar>, indicator: string): (r: Result<(SignalType, Date), Failure>)
    ensures |bars| == 0 ==> r == Failure(IndexError)
    ensures |bars| > 0 && ParseIndicator(indicator).None? ==> r == Failure(UnboundLocalError)
    ensures |bars| > 0 && ParseIndicator(indicator).Some? ==>
      var signals := IndicatorSignals(ParseIndicator(indicator).value, bars);
      && (r.Success? <==> (exists i :: 0 <= i < |bars| && signals.0[i]) && (exists i :: 0 <= i < |bars| && signals.1[i]))
      && (r.Failure? ==> r.error == TypeError)
    ensures r.Success? ==> LatestSignal(bars, indicator) == Success(Some(r.value))
  {
    if |bars| == 0 then Failure(IndexError)
    else
      match ParseIndicator(indicator)
      case None => Failure(UnboundLocalError)
      case Some(choice) =>
        var signals := IndicatorSignals(choice, bars);
        var latestBuy := LatestDate(Dates(bars), signals.0);
        var latestSell := LatestDate(Dates(bars), signals.1);
        match MaxAsWritten(latestBuy, latestSell)
        case Failure(e) => Failure(e)
        case Success(latest) => Success((SignalTypeOf(latestBuy, latest), latest))
  }

  /** The smallest table the program can fetch already stops it: no rule
      fires on a lone bar, so both latest dates are None and `max` raises. */
  lemma SingleBarRaises(bar: Bar, indicator: string)
    requires ParseIndicator(indicator).Some?
    ensures LatestSignalAsWritten([bar], indicator) == Failure(TypeError)
  {
    var choice := ParseIndicator(indicator).value;
    if choice == Stochastic {
      assert CalculateStochasticOscillator([bar], 14, 3).0[0].NaN?;
    }
    var signals := IndicatorSignals(choice, [bar]);
    assert !signals.0[0] && !signals.1[0];
  }

  /** What is reported: nothing iff no bar signalled; otherwise the latest
      date on which any bar signalled, labelled Buy iff a buy fell on it. */
  lemma LatestSignalReports(bars: seq<Bar>, indicator: string)
    requires |bars| > 0 && ParseIndicator(indicator).Some?
    ensures var signals := IndicatorSignals(ParseIndicator(indicator).value, bars);
      var r := LatestSignal(bars, indicator).value;
      && (r.None? <==> forall i :: 0 <= i < |bars| ==> !signals.0[i] && !signals.1[i])
      && (r.Some? ==> exists i :: 0 <= i < |bars| && (signals.0[i] || signals.1[i]) && bars[i].date == r.value.1)
      && (r.Some? ==> forall i :: 0 <= i < |bars| && (signals.0[i] || signals.1[i]) ==> DateLe(bars[i].date, r.value.1))
      && (r.Some? ==> (r.value.0 == Buy <==> exists i :: 0 <= i < |bars| && signals.0[i] && bars[i].date == r.value.1))
  {
    var signals := IndicatorSignals(ParseIndicator(indicator).value, bars);
    var dates := Dates(bars);
    var latestBuy := LatestDate(dates, signals.0);
    var latestSell := LatestDate(dates, signals.1);
    var r := LatestSignal(bars, indicator).value;
    if r.Some? {
      var latest := r.value.1;
      if exists i :: 0 <= i < |bars| && signals.0[i] && bars[i].date == latest {
        var i :| 0 <= i < |bars| && signals.0[i] && bars[i].date == latest;
        assert dates[i] == latest;
        assert DateLe(latest, latestBuy.value);
      }
    }
  }

  /** The alert message (the recipient is not modelled). */
  datatype Email = Email(subject: string, body: string)

  /** The subject and body `plot_with_indicator` sends: the body's first
      line names the kind ("New signal: Buy" or "New signal: Sell"), the
      second the ticker after "Ticker: ", the third the date after "Date: ". */
  function AlertEmail(kind: SignalType, tickerSymbol: string, date: Date): (e: Email)
    ensures e.subject == "New Trading Signal"
    ensures var head := "New signal: " + (if kind == Buy then "Buy" else "Sell") + "\nTicker: ";
      var tail := |head| + |tickerSymbol|;
      && |e.body| == tail + 7 + |Iso(date)|
      && e.body[..|head|] == head
      && e.body[|head|..tail] == tickerSymbol
      && e.body[tail..tail + 7] == "\nDate: "
      && e.body[tail + 7..] == Iso(date)
  {
    var kindName := if kind == Buy then "Buy" else "Sell";
    var head := "New signal: " + kindName + "\nTicker: ";
    var body := head + tickerSymbol + "\nDate: " + Iso(date);
    FourParts(head, tickerSymbol, "\nDate: ", Iso(date));
    Email("New Trading Signal", body)
  }

  /** Each part of a four-part concatenation is read back by slicing. */
  lemma FourParts(a: string, b: string, c: string, d: string)
    ensures var s := a + b + c + d;
      && |s| == |a| + |b| + |c| + |d|
      && s[..|a|] == a
      && s[|a|..|a| + |b|] == b
      && s[|a| + |b|..|a| + |b| + |c|] == c
      && s[|a| + |b| + |c|..] == d
  {
    var s := a + b + c + d;
    assert s[..|a|] == a;
    assert s[|a|..|a| + |b|] == b;
    assert s[|a| + |b|..|a| + |b| + |c|] == c;
    assert s[|a| + |b| + |c|..] == d;
  }

  /** The notification part of `plot_with_indicator`: compute the latest
      signal; if its date is new to the store, record it and produce the
      alert; otherwise leave the store as it is. */
  method PlotWithIndicator(store: DateStore, bars: seq<Bar>, indicator: string, tickerSymbol: string)
    returns (outcome: Result<Option<Email>, Failure>)
    modifies store
    ensures match LatestSignal(bars, indicator)
      case Failure(e) => outcome == Failure(e) && store.file == old(store.file)
      case Success(None) => outcome == Success(None) && store.file == old(store.file)
      case Success(Some(found)) =>
        if IsNewSignal(old(store.file), Iso(found.1)) then
          outcome == Success(Some(AlertEmail(found.0, tickerSymbol, found.1)))
          && store.file == Appended(old(store.file), Iso(found.1))
        else
          outcome == Success(None) && store.file == old(store.file)
  {
    match LatestSignal(bars, indicator)
    case Failure(e) =>
      outcome := Failure(e);
    case Success(None) =>
      outcome := Success(None);
    case Success(Some(found)) =>
      var date := Iso(found.1);
      if IsNewSignal(store.file, date) {
        store.UpdateLastSignalDate(date);
        outcome := Success(Some(AlertEmail(found.0, tickerSymbol, found.1)));
      } else {
        outcome := Success(None);
      }
  }

  /** Running the program twice on the same data alerts at most once. */
  method RunTwice(store: DateStore, bars: seq<Bar>, indicator: string, tickerSymbol: string)
    returns (first: Result<Option<Email>, Failure>, second: Result<Option<Email>, Failure>)
    modifies store
    ensures second.Success? ==> second.value.None?
    ensures first.Failure? <==> second.Failure?
    ensures store.file == match LatestSignal(bars, indicator)
      case Success(Some(found)) =>
        if IsNewSignal(old(store.file), Iso(found.1)) then Appended(old(store.file), Iso(found.1))
        else old(store.file)
      case _ => old(store.file)
  {
    first := PlotWithIndicator(store, bars, indicator, tickerSymbol);
    match LatestSignal(bars, indicator) {
      case Failure(_) =>
      case Success(None) =>
      case Success(Some(found)) =>
        AppendedNovelty(old(store.file), Iso(found.1), Iso(found.1));
    }
    second := PlotWithIndicator(store, bars, indicator, tickerSymbol);
  }
}
