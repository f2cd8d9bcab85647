/** The few JavaScript string and number built-ins the application relies on,
    written out so that their edge cases are explicit. */
module JsStrings {
  import opened Outcomes

  predicate IsDigit(c: char) { '0' <= c <= '9' }

  predicate AllDigits(s: string) { forall i :: 0 <= i < |s| ==> IsDigit(s[i]) }

  function DigitChar(d: nat): (c: char)
    requires d < 10
    ensures IsDigit(c)
  {
    ('0' as int + d) as char
  }

  /** `n.toString()` for a non-negative integral Number: its decimal digits,
      most significant first, without leading zeros. */
  function NatToDecimal(n: nat): (s: string)
    ensures |s| >= 1 && AllDigits(s)
    ensures |s| > 1 ==> s[0] != '0'
  {
    if n < 10 then [DigitChar(n)] else NatToDecimal(n / 10) + [DigitChar(n % 10)]
  }

  /** The number a string of decimal digits denotes. */
  function DecimalValue(s: string): nat
    requires AllDigits(s)
  {
    if s == [] then 0 else DecimalValue(s[..|s| - 1]) * 10 + (s[|s| - 1] as int - '0' as int)
  }

  /** Printing a natural number and reading it back gives the same number. */
  lemma {:induction false} DecimalRoundTrip(n: nat)
    ensures DecimalValue(NatToDecimal(n)) == n
  {
    if n >= 10 {
      var s := NatToDecimal(n);
      assert s[..|s| - 1] == NatToDecimal(n / 10);
      DecimalRoundTrip(n / 10);
    }
  }

  /** `i.toString()` for an integral Number (one below 10^21, where JavaScript
      would switch to exponent notation): a minus sign for negatives, then the digits. */
  function IntToString(i: int): (s: string)
    ensures |s| >= 1
    ensures i >= 0 <==> AllDigits(s)
    ensures i >= 0 ==> s == NatToDecimal(i)
    ensures i < 0 ==> s == "-" + NatToDecimal(-i)
  {
    if i < 0 then
      var s := "-" + NatToDecimal(-i);
      assert !IsDigit(s[0]);
      s
    else NatToDecimal(i)
  }

  /** `s.padStart(width, fill)` with a one-character fill string. */
  function PadStart(s: string, width: nat, fill: char): string
    decreases width - |s|
  {
    if |s| >= width then s else PadStart([fill] + s, width, fill)
  }

  /** Padding leaves `s` at the end, brings the length up to `width` if it was shorter,
      and puts only the fill character in front. */
  lemma {:induction false} PadStartShape(s: string, width: nat, fill: char)
    ensures var r := PadStart(s, width, fill);
      && |r| == (if |s| >= width then |s| else width)
      && r[|r| - |s|..] == s
      && forall i :: 0 <= i < |r| - |s| ==> r[i] == fill
    decreases width - |s|
  {
    if |s| < width {
      PadStartShape([fill] + s, width, fill);
      var r := PadStart(s, width, fill);
      assert r[|r| - |s| - 1..] == [fill] + s;
      assert r[|r| - |s|..] == r[|r| - |s| - 1..][1..];
    }
  }

  /** `x || null` for a string-or-null: the empty string is falsy and becomes null. */
  function OrNull(v: Option<string>): (r: Option<string>)
    ensures r.Some? <==> v.Some? && v.value != ""
    ensures r.Some? ==> r == v
  {
    if v.Some? && v.value != "" then v else None
  }

  /** JavaScript truthiness of a string-or-null. */
  predicate Truthy(v: Option<string>) { v.Some? && v.value != "" }

  /** `toLowerCase()` on one character; only the ASCII letters are mapped. */
  function ToLowerChar(c: char): char
  {
    if 'A' <= c <= 'Z' then (c as int + 32) as char else c
  }

  function ToLower(s: string): (r: string)
    ensures |r| == |s|
    ensures forall i :: 0 <= i < |s| ==> r[i] == ToLowerChar(s[i])
  {
    if s == [] then [] else [ToLowerChar(s[0])] + ToLower(s[1..])
  }

  /** `s.includes(sub)`: `sub` occurs in `s` at some position. */
  predicate Contains(s: string, sub: string)
  {
    exists i :: 0 <= i <= |s| && sub <= s[i..]
  }

  lemma ContainsEmpty(s: string)
    ensures Contains(s, "")
  {
    assert "" <= s[0..];
  }

  /** The characters `String.prototype.trim` removes: ECMAScript WhiteSpace
      (tab, vertical tab, form feed, space, no-break space, byte-order mark and the
      Unicode space separators) and LineTerminator (line feed, carriage return,
      line and paragraph separators). */
  predicate IsJsWhitespace(c: char)
  {
    var k := c as int;
    k == 0x09 || k == 0x0A || k == 0x0B || k == 0x0C || k == 0x0D || k == 0x20 ||
    k == 0xA0 || k == 0x1680 || (0x2000 <= k <= 0x200A) || k == 0x2028 || k == 0x2029 ||
    k == 0x202F || k == 0x205F || k == 0x3000 || k == 0xFEFF
  }

  predicate AllWhitespace(s: string) { forall i :: 0 <= i < |s| ==> IsJsWhitespace(s[i]) }

  /** The index of the first character at or after `i` that is not white space (`|s|` if none). */
  function ContentStart(s: string, i: nat): (k: nat)
    requires i <= |s|
    ensures i <= k <= |s|
    ensures forall j :: i <= j < k ==> IsJsWhitespace(s[j])
    ensures k < |s| ==> !IsJsWhitespace(s[k])
    decreases |s| - i
  {
    if i < |s| && IsJsWhitespace(s[i]) then ContentStart(s, i + 1) else i
  }

  /** The index just past the last character before `n` that is not white space (0 if none). */
  function ContentEnd(s: string, n: nat): (e: nat)
    requires n <= |s|
    ensures e <= n
    ensures forall j :: e <= j < n ==> IsJsWhitespace(s[j])
    ensures e > 0 ==> !IsJsWhitespace(s[e - 1])
  {
    if n > 0 && IsJsWhitespace(s[n - 1]) then ContentEnd(s, n - 1) else n
  }

  /** `s.trim()`: `s` without its leading and trailing white space. The result is a piece
      of `s` that neither starts nor ends with white space. */
  function Trim(s: string): (r: string)
    ensures Contains(s, r)
    ensures r != "" ==> !IsJsWhitespace(r[0]) && !IsJsWhitespace(r[|r| - 1])
    ensures exists a, b :: 0 <= a <= b <= |s| && r == s[a..b] && AllWhitespace(s[..a]) && AllWhitespace(s[b..])
  {
    var a := ContentStart(s, 0);
    var t := s[a..];
    var e := ContentEnd(t, |t|);
    var r := t[..e];
    assert r <= s[a..];
    var b := a + e;
    assert r == s[a..b];
    assert forall j :: 0 <= j < |s[b..]| ==> s[b..][j] == t[e + j];
    assert AllWhitespace(s[..a]) && AllWhitespace(s[b..]);
    r
  }

  /** `s.trim()` is empty exactly when every character of `s` is white space;
      this is the test behind "the message is non-empty after trimming". */
  lemma TrimEmptyIff(s: string)
    ensures Trim(s) == "" <==> AllWhitespace(s)
  {
    var k := ContentStart(s, 0);
    var t := s[k..];
    if k < |s| {
      assert t[0] == s[k];
      assert ContentEnd(t, |t|) > 0;
    }
  }

  /** `s.split(sep)` for a one-character separator: the pieces between separators, in order. */
  function Split(s: string, sep: char): (parts: seq<string>)
    ensures |parts| >= 1
    ensures forall k :: 0 <= k < |parts| ==> sep !in parts[k]
  {
    if s == [] then [""]
    else
      var rest := Split(s[1..], sep);
      if s[0] == sep then [""] + rest else [[s[0]] + rest[0]] + rest[1..]
  }

  /** `parts.join(sep)`. */
  function Join(parts: seq<string>, sep: char): string
    requires |parts| >= 1
  {
    if |parts| == 1 then parts[0] else parts[0] + [sep] + Join(parts[1..], sep)
  }

  /** Splitting loses nothing: joining the pieces with the separator restores the string. */
  lemma {:induction false} JoinSplit(s: string, sep: char)
    ensures Join(Split(s, sep), sep) == s
  {
    if s != [] {
      JoinSplit(s[1..], sep);
      var rest := Split(s[1..], sep);
      if s[0] != sep && |rest| > 1 {
        assert Split(s, sep)[1..] == rest[1..];
      }
    }
  }

  /** A string with exactly one separator splits into the part before and the part after it. */
  lemma {:induction false} SplitAtOnlySeparator(a: string, b: string, sep: char)
    requires sep !in a && sep !in b
    ensures Split(a + [sep] + b, sep) == [a, b]
  {
    if a == [] {
      assert [sep] + b == [sep] + b;
      SplitNoSeparator(b, sep);
      assert (a + [sep] + b)[1..] == b;
    } else {
      assert (a + [sep] + b)[1..] == a[1..] + [sep] + b;
      SplitAtOnlySeparator(a[1..], b, sep);
      assert [a[0]] + a[1..] == a;
    }
  }

  /** A string without the separator is its own single piece. */
  lemma {:induction false} SplitNoSeparator(s: string, sep: char)
    requires sep !in s
    ensures Split(s, sep) == [s]
  {
    if s != [] {
      SplitNoSeparator(s[1..], sep);
      assert [s[0]] + s[1..] == s;
    }
  }

  /** The second piece of `s.split(sep)`, as `s.split(sep)[1]` reads it; `undefined` when
      `s` has no separator. */
  function SecondPiece(s: string, sep: char): (r: Option<string>)
    ensures r.Some? <==> sep in s
  {
    var parts := Split(s, sep);
    SplitCountsSeparator(s, sep);
    if |parts| > 1 then Some(parts[1]) else None
  }

  lemma {:induction false} SplitCountsSeparator(s: string, sep: char)
    ensures |Split(s, sep)| > 1 <==> sep in s
  {
    if s != [] {
      SplitCountsSeparator(s[1..], sep);
      assert s == [s[0]] + s[1..];
    }
  }
}
