/**
 The time readout of the player: `formatTime` turns a number of seconds into
 `M:SS`, with unbounded minutes and a two-digit seconds field. `ParseTime`
 reads such a label back, and the round trip recovers the whole seconds.
 */
module TimeFormat {

  datatype Option<T> = None | Some(value: T)

  predicate IsDigit(c: char) {
    '0' <= c <= '9'
  }

  predicate AllDigits(s: string) {
    forall i :: 0 <= i < |s| ==> IsDigit(s[i])
  }

  function Digit(d: nat): (c: char)
    requires d < 10
    ensures IsDigit(c) && c as int - '0' as int == d
  {
    ('0' as int + d) as char
  }

  /** The value of a string of decimal digits, most significant first. */
  function ParseDecimal(s: string): nat
    requires AllDigits(s)
    decreases |s|
  {
    if s == [] then 0
    else ParseDecimal(s[..|s| - 1]) * 10 + (s[|s| - 1] as int - '0' as int)
  }

  /** How JavaScript writes a non-negative integer: decimal digits, no leading zero. */
  function DecimalString(n: nat): (r: string)
    ensures |r| >= 1 && AllDigits(r)
    ensures r[0] == '0' <==> n == 0
    ensures |r| == 1 <==> n < 10
  {
    if n < 10 then [Digit(n)] else DecimalString(n / 10) + [Digit(n % 10)]
  }

  lemma {:induction false} ParseDecimalString(n: nat)
    ensures ParseDecimal(DecimalString(n)) == n
  {
    if n >= 10 {
      var s := DecimalString(n);
      assert s[..|s| - 1] == DecimalString(n / 10);
      ParseDecimalString(n / 10);
    }
  }

  /** The seconds field: a leading '0' below ten, then the decimal number. */
  function Pad2(secs: nat): (r: string)
    ensures AllDigits(r)
    ensures secs < 100 ==> |r| == 2 && ParseDecimal(r) == secs
  {
    ParseDecimalString(secs);
    var r := (if secs < 10 then "0" else "") + DecimalString(secs);
    assert secs < 10 ==> r[1..] == DecimalString(secs) && r[..1] == "0";
    r
  }

  /** Truncation toward zero (what JavaScript's `%` divides with). */
  function Trunc(x: real): int {
    if x >= 0.0 then x.Floor else -((-x).Floor)
  }

  /** JavaScript's `%` on numbers: the remainder keeps the sign of the dividend. */
  function JsRemainder(a: real, b: real): real
    requires b != 0.0
  {
    a - b * Trunc(a / b) as real
  }

  /**
   Reference definition on whole seconds: the minutes are `s / 60` written in
   full, the seconds field is `s % 60` padded to two digits.
   */
  function FormatSeconds(s: nat): (t: string)
    ensures var k := |DecimalString(s / 60)|;
      && |t| == k + 3
      && t[..k] == DecimalString(s / 60)
      && t[k] == ':'
      && AllDigits(t[k + 1..])
      && ParseDecimal(t[k + 1..]) == s % 60 < 60
  {
    var m := DecimalString(s / 60);
    var t := m + ":" + Pad2(s % 60);
    assert t[|m| + 1..] == Pad2(s % 60);
    t
  }

  /** `Math.floor(x / 60)` and `Math.floor(x % 60)` only depend on `Math.floor(x)`. */
  lemma FloorParts(x: real)
    requires x >= 0.0
    ensures (x / 60.0).Floor == x.Floor / 60
    ensures JsRemainder(x, 60.0).Floor == x.Floor % 60
  {
  }

  /** `formatTime` as written, on the non-negative seconds the media element reports. */
  function FormatTime(seconds: real): (t: string)
    requires seconds >= 0.0
    ensures t == FormatSeconds(seconds.Floor)
  {
    FloorParts(seconds);
    var minutes := (seconds / 60.0).Floor;
    var secs := JsRemainder(seconds, 60.0).Floor;
    DecimalString(minutes) + ":" + Pad2(secs)
  }

  /** Position of the first ':' in `t`, or `|t|` when there is none. */
  function ColonIndex(t: string): (i: nat)
    ensures i <= |t|
    ensures i < |t| ==> t[i] == ':'
    ensures forall j :: 0 <= j < i ==> t[j] != ':'
  {
    if t == [] || t[0] == ':' then 0 else 1 + ColonIndex(t[1..])
  }

  /** Reads an `M:SS` label back as a number of whole seconds. */
  function ParseTime(t: string): Option<nat> {
    var i := ColonIndex(t);
    if i == |t| then None
    else
      var minutes, secs := t[..i], t[i + 1..];
      if |minutes| == 0 || !AllDigits(minutes) || |secs| != 2 || !AllDigits(secs) then None
      else if ParseDecimal(secs) >= 60 then None
      else Some(ParseDecimal(minutes) * 60 + ParseDecimal(secs))
  }

  /** Reading a whole-second label back gives the seconds again. */
  lemma ParseFormatSeconds(s: nat)
    ensures ParseTime(FormatSeconds(s)) == Some(s)
  {
    var t := FormatSeconds(s);
    var m := DecimalString(s / 60);
    assert t[..|m|] == m;
    var i := ColonIndex(t);
    assert i == |m|;
    ParseDecimalString(s / 60);
    assert ParseDecimal(t[..i]) == s / 60;
  }

  lemma FormatTimeRoundTrip(seconds: real)
    requires seconds >= 0.0
    ensures ParseTime(FormatTime(seconds)) == Some(seconds.Floor)
  {
    ParseFormatSeconds(seconds.Floor);
  }

  /** Two different whole-second values are never displayed with the same label. */
  lemma FormatSecondsInjective(a: nat, b: nat)
    requires FormatSeconds(a) == FormatSeconds(b)
    ensures a == b
  {
    FormatTimeRoundTrip(a as real);
    FormatTimeRoundTrip(b as real);
  }

  lemma FormatSecondsExamples()
    ensures FormatSeconds(0) == "0:00"
    ensures FormatSeconds(59) == "0:59"
    ensures FormatSeconds(60) == "1:00"
    ensures FormatSeconds(125) == "2:05"
    ensures FormatSeconds(3600) == "60:00"
  {
    assert DecimalString(0) + ":" + Pad2(0) == "0:00";
    assert DecimalString(0) + ":" + Pad2(59) == "0:59";
    assert DecimalString(1) + ":" + Pad2(0) == "1:00";
    assert DecimalString(2) + ":" + Pad2(5) == "2:05";
    assert DecimalString(60) + ":" + Pad2(0) == "60:00";
  }

  lemma FormatTimeExamples()
    ensures FormatTime(0.0) == "0:00"
    ensures FormatTime(59.0) == "0:59"
    ensures FormatTime(60.0) == "1:00"
    ensures FormatTime(125.7) == "2:05"
    ensures FormatTime(3600.0) == "60:00"
  {
    FormatSecondsExamples();
    assert (125.7).Floor == 125;
  }
}
