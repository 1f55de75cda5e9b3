/** One row of the price table the fetch produces, as the indicators and the
    notification logic see it: its calendar date and its High, Low and Close. */
module Prices {

  /** A calendar day; the time of day of the fetched timestamps plays no part. */
  datatype Date = Date(year: nat, month: nat, day: nat)

  /** Chronological order on dates (year, then month, then day). */
  predicate DateLe(a: Date, b: Date) {
    a.year < b.year
    || (a.year == b.year && (a.month < b.month || (a.month == b.month && a.day <= b.day)))
  }

  /** Strict chronological order. */
  predicate DateLt(a: Date, b: Date) {
    DateLe(a, b) && a != b
  }

  /** One bar of the table: `Date`, `High`, `Low`, `Close` (Open and Volume are never read). */
  datatype Bar = Bar(date: Date, high: real, low: real, close: real)

  /** A bar whose close lies within its own low..high range. */
  predicate WellFormed(b: Bar) {
    b.low <= b.close <= b.high
  }

  /** `df['Close']`. */
  function Closes(bars: seq<Bar>): (r: seq<real>)
    ensures |r| == |bars|
  {
    seq(|bars|, i requires 0 <= i < |bars| => bars[i].close)
  }

  /** `df['High']`. */
  function Highs(bars: seq<Bar>): (r: seq<real>)
    ensures |r| == |bars|
  {
    seq(|bars|, i requires 0 <= i < |bars| => bars[i].high)
  }

  /** `df['Low']`. */
  function Lows(bars: seq<Bar>): (r: seq<real>)
    ensures |r| == |bars|
  {
    seq(|bars|, i requires 0 <= i < |bars| => bars[i].low)
  }

  /** `df['Date']`. */
  function Dates(bars: seq<Bar>): (r: seq<Date>)
    ensures |r| == |bars|
  {
    seq(|bars|, i requires 0 <= i < |bars| => bars[i].date)
  }

  /** The character of decimal digit k. */
  function Digit(k: nat): char
    requires k < 10
  {
    ('0' as int + k) as char
  }

  /** The value of a decimal digit character. */
  function DigitValue(c: char): nat
  {
    if '0' <= c <= '9' then c as int - '0' as int else 0
  }

  /** The number a string of decimal digits denotes; leading zeros add nothing. */
  function DigitsValue(s: string): nat
  {
    if |s| == 0 then 0 else DigitsValue(s[..|s| - 1]) * 10 + DigitValue(s[|s| - 1])
  }

  /** 10 to the power k. */
  function Pow10(k: nat): nat
  {
    if k == 0 then 1 else 10 * Pow10(k - 1)
  }

  /** The decimal digits of n, most significant first, without leading zeros. */
  function Decimal(n: nat): string
  {
    if n < 10 then [Digit(n)] else Decimal(n / 10) + [Digit(n % 10)]
  }

  /** The decimal digits of n, left-padded with '0' to `width` characters. */
  function Padded(n: nat, width: nat): string
  {
    var s := Decimal(n);
    if |s| >= width then s else seq(width - |s|, _ => '0') + s
  }

  /** `strftime('%Y-%m-%d')`. */
  function Iso(d: Date): string
  {
    Padded(d.year, 4) + "-" + Padded(d.month, 2) + "-" + Padded(d.day, 2)
  }

  /** A date whose fields fit the widths of `%Y`, `%m` and `%d`. Every date
      the market-data fetch returns is one. */
  predicate Printable(d: Date) {
    d.year < 10000 && d.month < 100 && d.day < 100
  }

  /** Reads a `YYYY-MM-DD` string back into a date. */
  function ParseIso(s: string): (d: Date)
    requires |s| == 10
    ensures Printable(d)
  {
    var d := Date(DigitsValue(s[..4]), DigitsValue(s[5..7]), DigitsValue(s[8..]));
    DigitsBelow(s[..4]);
    DigitsBelow(s[5..7]);
    DigitsBelow(s[8..]);
    d
  }

  /** k digits denote a number below 10^k. */
  lemma {:induction false} DigitsBelow(s: string)
    ensures DigitsValue(s) < Pow10(|s|)
  {
    if |s| > 0 {
      DigitsBelow(s[..|s| - 1]);
    }
  }

  /** Decimal is read back as the number it prints. */
  lemma {:induction false} DecimalValue(n: nat)
    ensures DigitsValue(Decimal(n)) == n
  {
    var s := Decimal(n);
    if n < 10 {
      assert s[..|s| - 1] == [];
    } else {
      assert s[..|s| - 1] == Decimal(n / 10);
      DecimalValue(n / 10);
    }
  }

  /** A number below 10^w has at most w digits. */
  lemma {:induction false} DecimalLength(n: nat, w: nat)
    requires w >= 1 && n < Pow10(w)
    ensures |Decimal(n)| <= w
  {
    if n >= 10 {
      DecimalLength(n / 10, w - 1);
    }
  }

  /** Zeros in front of a digit string do not change its value. */
  lemma {:induction false} LeadingZeros(z: string, s: string)
    requires forall j :: 0 <= j < |z| ==> z[j] == '0'
    ensures DigitsValue(z + s) == DigitsValue(s)
    decreases |s|, |z|
  {
    if |s| == 0 {
      assert z + s == z;
      if |z| > 0 {
        assert (z[..|z| - 1] + s) == z[..|z| - 1];
        LeadingZeros(z[..|z| - 1], s);
      }
    } else {
      assert (z + s)[..|z + s| - 1] == z + s[..|s| - 1];
      LeadingZeros(z, s[..|s| - 1]);
    }
  }

  /** n padded to w digits has exactly w characters and is read back as n. */
  lemma PaddedValue(n: nat, w: nat)
    requires w >= 1 && n < Pow10(w)
    ensures |Padded(n, w)| == w
    ensures DigitsValue(Padded(n, w)) == n
  {
    DecimalLength(n, w);
    DecimalValue(n);
    var s := Decimal(n);
    if |s| < w {
      LeadingZeros(seq(w - |s|, _ => '0'), s);
    }
  }

  /** Reading the formatted date back gives the date: `YYYY-MM-DD` loses
      nothing for a printable date. */
  lemma IsoRoundTrip(d: Date)
    requires Printable(d)
    ensures |Iso(d)| == 10
    ensures ParseIso(Iso(d)) == d
  {
    PaddedValue(d.year, 4);
    PaddedValue(d.month, 2);
    PaddedValue(d.day, 2);
    var s := Iso(d);
    assert s[..4] == Padded(d.year, 4);
    assert s[5..7] == Padded(d.month, 2);
    assert s[8..] == Padded(d.day, 2);
  }

  /** Two printable dates have the same text exactly when they are the same
      date, so comparing the stored strings compares dates. */
  lemma IsoInjective(a: Date, b: Date)
    requires Printable(a) && Printable(b)
    ensures Iso(a) == Iso(b) <==> a == b
  {
    if Iso(a) == Iso(b) {
      IsoRoundTrip(a);
      IsoRoundTrip(b);
    }
  }
}
