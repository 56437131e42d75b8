/** `formatMilliseconds` of the note list item: a number of milliseconds is
    shown as minutes, a colon and two-digit seconds (`m:ss`). */
module TimeFormat {
  import opened Wrappers

  const MillisPerMinute: nat := 1000 * 60
  const MillisPerSecond: nat := 1000

  predicate IsDigit(c: char)
  {
    '0' <= c <= '9'
  }

  predicate AllDigits(s: string)
  {
    forall j :: 0 <= j < |s| ==> IsDigit(s[j])
  }

  function DigitChar(d: nat): (c: char)
    requires d < 10
    ensures IsDigit(c)
  {
    ['0', '1', '2', '3', '4', '5', '6', '7', '8', '9'][d]
  }

  function DigitValue(c: char): (d: nat)
    requires IsDigit(c)
    ensures d < 10
  {
    (c as int - '0' as int) as nat
  }

  /** The decimal text of a non-negative integer, as a template literal
      prints it: no sign and no leading zero. */
  function Decimal(n: nat): (s: string)
    ensures |s| >= 1 && AllDigits(s)
    ensures n < 10 <==> |s| == 1
    ensures |s| > 1 ==> s[0] != '0'
  {
    if n < 10 then [DigitChar(n)] else Decimal(n / 10) + [DigitChar(n % 10)]
  }

  /** The number a string of digits denotes. */
  function DecimalValue(s: string): nat
    requires AllDigits(s)
  {
    if |s| == 0 then 0 else 10 * DecimalValue(s[..|s| - 1]) + DigitValue(s[|s| - 1])
  }

  lemma DigitRoundTrip(d: nat)
    requires d < 10
    ensures DigitValue(DigitChar(d)) == d
  {
  }

  /** Reading the printed number back gives the number. */
  lemma {:induction false} DecimalRoundTrip(n: nat)
    ensures DecimalValue(Decimal(n)) == n
  {
    var s := Decimal(n);
    DigitRoundTrip(n % 10);
    if n >= 10 {
      assert s[..|s| - 1] == Decimal(n / 10);
      DecimalRoundTrip(n / 10);
    } else {
      assert s[..0] == [];
    }
  }

  /** `formatMilliseconds(ms)`: `undefined` and 0 are falsy and give "0:00";
      otherwise whole minutes, a colon, and the seconds left over, padded with
      a zero below 10. */
  function FormatMilliseconds(ms: Option<nat>): (r: string)
    ensures |r| >= 4 && ':' in r
  {
    if ms.None? || ms.value == 0 then "0:00"
    else
      var minutes := ms.value / MillisPerMinute;
      var seconds := (ms.value % MillisPerMinute) / MillisPerSecond;
      Decimal(minutes) + ":" + SecondsRemainder(seconds)
  }

  /** The seconds field, padded with a zero below 10 (`secondsRemainder`). */
  function SecondsRemainder(seconds: nat): (s: string)
    ensures |s| >= 2 && AllDigits(s)
    ensures seconds < 60 ==> |s| == 2
    ensures s[0] == '0' <==> seconds < 10
  {
    if seconds < 10 then "0" + Decimal(seconds)
    else
      assert Decimal(seconds) == Decimal(seconds / 10) + [DigitChar(seconds % 10)];
      Decimal(seconds)
  }

  /** Below 60 the seconds field is two digits that read back as the seconds. */
  lemma SecondsRemainderReadsBack(sec: nat)
    requires sec < 60
    ensures var t := SecondsRemainder(sec);
      |t| == 2 && AllDigits(t) && DecimalValue(t) == sec
  {
    var t := SecondsRemainder(sec);
    DecimalRoundTrip(sec);
    if sec < 10 {
      assert t[..1] == "0";
      assert DecimalValue("0") == 10 * DecimalValue([]) + 0;
      assert [t[1]] == Decimal(sec);
      assert DecimalValue(t) == 10 * DecimalValue(t[..1]) + DigitValue(t[1]);
      assert DecimalValue([t[1]]) == 10 * DecimalValue([]) + DigitValue(t[1]) by {
        assert [t[1]][..0] == [];
      }
    } else {
      assert Decimal(sec) == Decimal(sec / 10) + [DigitChar(sec % 10)];
      assert sec / 10 < 10;
    }
  }

  /** The text of a zero or missing duration reads back as 0 minutes and 0 seconds. */
  lemma ZeroReadsBack()
    ensures var r := "0:00";
      r[..|r| - 3] == Decimal(0) && AllDigits(r[|r| - 2..]) &&
      DecimalValue(r[..|r| - 3]) == 0 && DecimalValue(r[|r| - 2..]) == 0
  {
    var r := "0:00";
    assert r[..|r| - 3] == "0" == Decimal(0);
    assert r[|r| - 2..] == "00";
    assert DecimalValue("0") == 10 * DecimalValue([]) + 0;
    assert DecimalValue("00") == 10 * DecimalValue("0") + 0 by {
      assert "00"[..1] == "0";
    }
  }

  /** Minutes shown for `ms`, `undefined` read as 0. */
  function Minutes(ms: Option<nat>): (m: nat)
    ensures m * MillisPerMinute <= ms.GetOr(0)
  {
    ms.GetOr(0) / MillisPerMinute
  }

  /** Seconds shown for `ms`, `undefined` read as 0. */
  function Seconds(ms: Option<nat>): (s: nat)
    ensures s < 60
  {
    (ms.GetOr(0) % MillisPerMinute) / MillisPerSecond
  }

  /** The seconds field is a proper second of the minute, and the minutes and
      seconds shown account for `ms` to within one second. */
  lemma MinutesSecondsSplit(ms: Option<nat>)
    ensures Seconds(ms) < 60
    ensures var t := ms.GetOr(0);
      Minutes(ms) * MillisPerMinute + Seconds(ms) * MillisPerSecond <= t
        < Minutes(ms) * MillisPerMinute + Seconds(ms) * MillisPerSecond + MillisPerSecond
  {
    var t := ms.GetOr(0);
    assert t == Minutes(ms) * MillisPerMinute + t % MillisPerMinute;
    var r := t % MillisPerMinute;
    assert r == Seconds(ms) * MillisPerSecond + r % MillisPerSecond;
  }

  /** The formatted text has the shape `m:ss` and reads back as the minutes
      and seconds of `ms`: the part before the colon is the minutes in
      decimal without leading zeros, the two characters after it are the
      seconds, zero-padded. */
  lemma {:induction false} FormatReadsBack(ms: Option<nat>)
    ensures var r := FormatMilliseconds(ms);
      |r| >= 4 && r[|r| - 3] == ':' &&
      r[..|r| - 3] == Decimal(Minutes(ms)) && AllDigits(r[|r| - 2..]) &&
      DecimalValue(r[..|r| - 3]) == Minutes(ms) &&
      DecimalValue(r[|r| - 2..]) == Seconds(ms)
  {
    var r := FormatMilliseconds(ms);
    MinutesSecondsSplit(ms);
    if ms.None? || ms.value == 0 {
      assert r == "0:00";
      ZeroReadsBack();
    } else {
      var m, sec := Minutes(ms), Seconds(ms);
      var mText, sText := Decimal(m), SecondsRemainder(sec);
      SecondsRemainderReadsBack(sec);
      assert r == mText + ":" + sText;
      assert r[..|r| - 3] == mText;
      assert r[|r| - 2..] == sText;
      DecimalRoundTrip(m);
    }
  }
}
