/** `calculateDuration` of the voice-notes page: the time since recording started,
    shown as `minutes:seconds` with the seconds padded to two digits. */
module Duration {
  import opened Outcomes
  import opened JsStrings

  /** JavaScript's `a % b` for a positive divisor: it truncates toward zero, so the
      remainder takes the sign of `a` (Dafny's `%` never returns a negative number). */
  function JsRemainder(a: int, b: int): (r: int)
    requires b > 0
    ensures a >= 0 ==> 0 <= r < b && r == a % b
    ensures a < 0 ==> -b < r <= 0 && -r == (-a) % b
  {
    if a >= 0 then a % b else -((-a) % b)
  }

  /** `calculateDuration()` with `Date.now()` passed in as `now`. The start time is a
      millisecond timestamp or null; JavaScript treats both null and 0 as "no start time".
      `Math.floor(x / 1000)` over integers is Dafny's `/` by a positive number. */
  function FormatDuration(startTime: Option<int>, now: int): string
  {
    if startTime.Some? && startTime.value != 0 then FormatSeconds((now - startTime.value) / 1000)
    else "0:00"
  }

  /** The text `calculateDuration` makes of a number of whole seconds. */
  function FormatSeconds(seconds: int): string
  {
    var minutes := seconds / 60;
    IntToString(minutes) + ":" + PadStart(IntToString(JsRemainder(seconds, 60)), 2, '0')
  }

  /** The two decimal digits of a number below 100, with a leading zero if needed. */
  function TwoDigits(n: nat): (s: string)
    requires n < 100
    ensures |s| == 2 && AllDigits(s) && DecimalValue(s) == n
  {
    var s := [DigitChar(n / 10), DigitChar(n % 10)];
    assert s[..1] == [DigitChar(n / 10)] && s[..1][..0] == [];
    assert DecimalValue(s[..1]) == n / 10;
    s
  }

  /** Reads a duration string back as a number of seconds: digits for the minutes, a colon,
      and exactly two digits for a seconds value below 60. Anything else is rejected. */
  function ParseDuration(d: string): Option<nat>
  {
    var parts := Split(d, ':');
    if |parts| == 2 && |parts[0]| >= 1 && AllDigits(parts[0])
       && |parts[1]| == 2 && AllDigits(parts[1]) && DecimalValue(parts[1]) < 60
    then Some(DecimalValue(parts[0]) * 60 + DecimalValue(parts[1]))
    else None
  }

  /** Padding the printed seconds to two characters gives their two digits. */
  lemma PadSecondsField(k: nat)
    requires k < 60
    ensures PadStart(NatToDecimal(k), 2, '0') == TwoDigits(k)
  {
    if k < 10 {
      PadOneDigit(k);
    } else {
      PadTwoDigits(k);
    }
  }

  lemma PadOneDigit(k: nat)
    requires k < 10
    ensures PadStart(NatToDecimal(k), 2, '0') == TwoDigits(k)
  {
    var d := DigitChar(k);
    assert NatToDecimal(k) == [d];
    assert PadStart(['0', d], 2, '0') == ['0', d];
    assert PadStart([d], 2, '0') == PadStart(['0'] + [d], 2, '0');
    assert ['0'] + [d] == ['0', d];
    assert TwoDigits(k) == [DigitChar(0), d] by { assert k / 10 == 0 && k % 10 == k; }
  }

  lemma PadTwoDigits(k: nat)
    requires 10 <= k < 100
    ensures PadStart(NatToDecimal(k), 2, '0') == TwoDigits(k)
  {
    var q, r := k / 10, k % 10;
    assert NatToDecimal(k) == NatToDecimal(q) + [DigitChar(r)];
    assert NatToDecimal(q) == [DigitChar(q)];
    assert [DigitChar(q)] + [DigitChar(r)] == [DigitChar(q), DigitChar(r)];
  }

  lemma DigitsHaveNoColon(s: string)
    requires AllDigits(s)
    ensures ':' !in s
  {
  }

  /** A non-negative number of seconds prints as its whole minutes, a colon, and the
      remaining seconds as exactly two digits: `floor(s / 60)` ":" two-digit `s % 60`. */
  lemma FormatSecondsShape(s: nat)
    ensures FormatSeconds(s) == NatToDecimal(s / 60) + ":" + TwoDigits(s % 60)
  {
    var m: nat := s / 60;
    var r: nat := s % 60;
    assert JsRemainder(s, 60) == r;
    assert IntToString(m) == NatToDecimal(m);
    assert IntToString(r) == NatToDecimal(r);
    PadSecondsField(r);
  }

  /** A non-negative number of seconds reads back from its text: the seconds part is two
      digits with a value below 60 and the minutes carry the rest. */
  lemma SecondsRoundTrip(s: nat)
    ensures ParseDuration(FormatSeconds(s)) == Some(s)
  {
    FormatSecondsShape(s);
    ParseFormatted(s);
  }

  /** The formatted duration reads back as the elapsed whole seconds, so no two elapsed
      times that differ by a second or more print the same. */
  lemma DurationRoundTrip(startTime: int, now: int)
    requires startTime != 0 && now >= startTime
    ensures ParseDuration(FormatDuration(Some(startTime), now)) == Some((now - startTime) / 1000)
  {
    FormatDurationShape(startTime, now);
    ParseFormatted((now - startTime) / 1000);
  }

  /** With a start time and a non-negative elapsed time, the duration is the whole minutes,
      a colon, and the remaining seconds as exactly two digits: `floor(s / 60)` ":"
      two-digit `s % 60`, with `s` the elapsed whole seconds `floor(elapsed / 1000)`. */
  lemma FormatDurationShape(startTime: int, now: int)
    requires startTime != 0 && now >= startTime
    ensures var s: nat := (now - startTime) / 1000;
            FormatDuration(Some(startTime), now) == NatToDecimal(s / 60) + ":" + TwoDigits(s % 60)
  {
    FormatSecondsShape((now - startTime) / 1000);
  }

  /** A string built from digit minutes, a colon and two digits reads back as its parts. */
  lemma ParseFormatted(total: nat)
    ensures ParseDuration(NatToDecimal(total / 60) + ":" + TwoDigits(total % 60)) == Some(total)
  {
    var m := NatToDecimal(total / 60);
    var ss := TwoDigits(total % 60);
    SplitFormatted(m, ss);
    DecimalRoundTrip(total / 60);
    assert DecimalValue(m) * 60 + DecimalValue(ss) == total;
  }

  lemma SplitFormatted(m: string, ss: string)
    requires AllDigits(m) && AllDigits(ss)
    ensures Split(m + ":" + ss, ':') == [m, ss]
  {
    DigitsHaveNoColon(m);
    DigitsHaveNoColon(ss);
    SplitAtOnlySeparator(m, ss, ':');
    assert m + ":" + ss == m + [':'] + ss;
  }

  /** Without a start time (null or the falsy 0) the duration is "0:00". */
  lemma FormatDurationWithoutStart(startTime: Option<int>, now: int)
    requires startTime.None? || startTime.value == 0
    ensures FormatDuration(startTime, now) == "0:00"
  {
  }

  /** 125 seconds print as "2:05": the seconds are padded to two digits. */
  lemma FormatDurationPadsSeconds(startTime: int)
    requires startTime != 0
    ensures FormatDuration(Some(startTime), startTime + 125000) == "2:05"
  {
    assert (startTime + 125000 - startTime) / 1000 == 125;
    assert 125 / 60 == 2 && JsRemainder(125, 60) == 5;
    assert IntToString(2) == "2" && IntToString(5) == "5";
    assert PadStart("5", 2, '0') == "05";
  }

  /** 65.999 seconds print as "1:05": the milliseconds are dropped, not rounded. */
  lemma FormatDurationDropsMilliseconds(startTime: int)
    requires startTime != 0
    ensures FormatDuration(Some(startTime), startTime + 65999) == "1:05"
  {
    assert (startTime + 65999 - startTime) / 1000 == 65;
    assert 65 / 60 == 1 && JsRemainder(65, 60) == 5;
    assert IntToString(1) == "1" && IntToString(5) == "5";
    assert PadStart("5", 2, '0') == "05";
  }

  /** A clock that went backwards gives a negative elapsed time; JavaScript's floor and
      truncating remainder then print both parts with a minus sign. */
  lemma FormatDurationNegativeElapsed()
    ensures FormatDuration(Some(2000), 500) == "-1:-2"
  {
    var seconds := (500 - 2000) / 1000;
    assert seconds == -2 && seconds / 60 == -1 && JsRemainder(seconds, 60) == -2;
    assert IntToString(-1) == "-1" && IntToString(-2) == "-2";
    assert PadStart("-2", 2, '0') == "-2";
  }

  /** Thirteen seconds backwards: the seconds field "-13" is three characters long, and the
      decoder rejects the text, so a negative elapsed time is not recovered from it. */
  lemma FormatDurationNegativeThreeCharSeconds()
    ensures FormatDuration(Some(20000), 7000) == "-1:-13"
    ensures ParseDuration("-1:-13").None?
  {
    var seconds := (7000 - 20000) / 1000;
    assert seconds == -13 && seconds / 60 == -1 && JsRemainder(seconds, 60) == -13;
    assert IntToString(-1) == "-1" && IntToString(-13) == "-13";
    assert PadStart("-13", 2, '0') == "-13";
    assert !IsDigit('-');
  }
}
