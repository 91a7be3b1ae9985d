/** The two elapsed-time displays of the console: `HH:MM:SS` under the status
    button and `MM:SS` in the call log and on the active call. Both are
    written with JavaScript's operators on an integer count of seconds:
    `Math.floor` (Dafny's `/` for a positive divisor), the truncating `%`
    (`JsRem`), `String` and `padStart(2, '0')`. */
module Durations {
  import opened Text

  // ---------------------------------------------------------------------------
  // HH:MM:SS

  /** The status timer display: hours (never capped), minutes and seconds,
      each at least two characters wide. */
  function FormatHoursMinutesSeconds(seconds: int): string {
    var hours := seconds / 3600;
    var minutes := JsRem(seconds, 3600) / 60;
    var secs := JsRem(seconds, 60);
    Pad2(IntToString(hours)) + ":" + Pad2(IntToString(minutes)) + ":" + Pad2(IntToString(secs))
  }

  /** Reads an `H..H:MM:SS` display back into its three fields, or None when
      the text does not have that shape. */
  function ClockFields(t: string): Option<(nat, nat, nat)> {
    if |t| >= 8 && t[|t| - 3] == ':' && t[|t| - 6] == ':'
       && AllDigits(t[..|t| - 6]) && AllDigits(t[|t| - 5..|t| - 3]) && AllDigits(t[|t| - 2..])
    then Some((DecimalValue(t[..|t| - 6]), DecimalValue(t[|t| - 5..|t| - 3]), DecimalValue(t[|t| - 2..])))
    else None
  }

  /** For a non-negative count the display reads back as hours, minutes below
      60 and seconds below 60 that add up to the count again. */
  lemma HoursMinutesSecondsRoundTrip(seconds: nat)
    ensures var f := ClockFields(FormatHoursMinutesSeconds(seconds));
      && f.Some?
      && f.value.1 < 60 && f.value.2 < 60
      && f.value.0 * 3600 + f.value.1 * 60 + f.value.2 == seconds
  {
    var h, m, s := HoursMinutesSecondsSplit(seconds);
    Pad2Numeral(h);
    Pad2Numeral(m);
    Pad2Numeral(s);
    ClockFieldsOfJoin(Pad2(NatToString(h)), Pad2(NatToString(m)), Pad2(NatToString(s)));
  }

  /** The three fields the display computes, for a non-negative count. */
  lemma HoursMinutesSecondsSplit(seconds: nat) returns (h: nat, m: nat, s: nat)
    ensures FormatHoursMinutesSeconds(seconds)
      == Pad2(NatToString(h)) + ":" + Pad2(NatToString(m)) + ":" + Pad2(NatToString(s))
    ensures m < 60 && s < 60 && h * 3600 + m * 60 + s == seconds
    ensures h == seconds / 3600
  {
    h, m, s := seconds / 3600, (seconds % 3600) / 60, seconds % 60;
    assert JsRem(seconds, 3600) == seconds % 3600;
    assert JsRem(seconds, 60) == s;
    assert seconds % 3600 == m * 60 + s;
  }

  lemma ClockFieldsOfJoin(a: string, b: string, c: string)
    requires AllDigits(a) && AllDigits(b) && AllDigits(c)
    requires |a| >= 2 && |b| == 2 && |c| == 2
    ensures ClockFields(a + ":" + b + ":" + c) == Some((DecimalValue(a), DecimalValue(b), DecimalValue(c)))
  {
    var ab := a + ":" + b;
    var t := ab + ":" + c;
    var n := |t|;
    assert n == |a| + 6 && |ab| == n - 3;
    assert t[..n - 3] == ab && t[n - 2..] == c;
    assert ab[..|a|] == a && ab[|a| + 1..] == b;
    assert t[n - 3] == ':' && t[n - 6] == ab[|a|] == ':';
    assert t[..n - 6] == ab[..|a|];
    assert t[n - 5..n - 3] == ab[|a| + 1..];
  }

  /** Every field is zero-padded to two characters, and the hour field is not
      capped: it grows to three digits from 100 hours (360000 s) on. */
  lemma HoursMinutesSecondsWidth(seconds: nat)
    ensures |FormatHoursMinutesSeconds(seconds)| >= 8
    ensures |FormatHoursMinutesSeconds(seconds)| >= 9 <==> seconds >= 360000
  {
    var h, m, s := HoursMinutesSecondsSplit(seconds);
    Pad2Numeral(h);
    Pad2Numeral(m);
    Pad2Numeral(s);
    var a := Pad2(NatToString(h));
    assert |FormatHoursMinutesSeconds(seconds)| == |a| + 6;
    NatToStringWidth(h, 2);
    assert Pow10(2) == 100;
    assert h >= 100 <==> seconds >= 360000;
  }

  // ---------------------------------------------------------------------------
  // MM:SS

  /** The call-duration display: minutes (never capped at 59) and seconds,
      each at least two characters wide. The same expression is the
      duration display of the active call. */
  function FormatMinutesSeconds(seconds: int): string {
    var mins := seconds / 60;
    var secs := JsRem(seconds, 60);
    Pad2(IntToString(mins)) + ":" + Pad2(IntToString(secs))
  }

  /** Reads an `M..M:SS` display back into its two fields. */
  function MinuteFields(t: string): Option<(nat, nat)> {
    if |t| >= 5 && t[|t| - 3] == ':' && AllDigits(t[..|t| - 3]) && AllDigits(t[|t| - 2..])
    then Some((DecimalValue(t[..|t| - 3]), DecimalValue(t[|t| - 2..])))
    else None
  }

  /** For a non-negative count the display reads back as minutes and seconds
      below 60 that add up to the count again. */
  lemma MinutesSecondsRoundTrip(seconds: nat)
    ensures var f := MinuteFields(FormatMinutesSeconds(seconds));
      && f.Some?
      && f.value.1 < 60
      && f.value.0 * 60 + f.value.1 == seconds
  {
    var m, s := MinutesSecondsSplit(seconds);
    Pad2Numeral(m);
    Pad2Numeral(s);
    MinuteFieldsOfJoin(Pad2(NatToString(m)), Pad2(NatToString(s)));
  }

  /** The two fields the display computes, for a non-negative count. */
  lemma MinutesSecondsSplit(seconds: nat) returns (m: nat, s: nat)
    ensures FormatMinutesSeconds(seconds) == Pad2(NatToString(m)) + ":" + Pad2(NatToString(s))
    ensures s < 60 && m * 60 + s == seconds
    ensures m == seconds / 60
  {
    m, s := seconds / 60, seconds % 60;
    assert JsRem(seconds, 60) == s;
  }

  lemma MinuteFieldsOfJoin(a: string, c: string)
    requires AllDigits(a) && AllDigits(c)
    requires |a| >= 2 && |c| == 2
    ensures MinuteFields(a + ":" + c) == Some((DecimalValue(a), DecimalValue(c)))
  {
    var t := a + ":" + c;
    var n := |t|;
    assert n == |a| + 3;
    assert t[n - 3] == ':';
    assert t[..n - 3] == a;
    assert t[n - 2..] == c;
  }

  /** Minutes are not capped at 59: from 100 minutes (6000 s) on the minute
      field has three or more digits. */
  lemma MinutesSecondsWidth(seconds: nat)
    ensures |FormatMinutesSeconds(seconds)| >= 5
    ensures |FormatMinutesSeconds(seconds)| >= 6 <==> seconds >= 6000
  {
    var m, s := MinutesSecondsSplit(seconds);
    Pad2Numeral(m);
    Pad2Numeral(s);
    var a := Pad2(NatToString(m));
    assert |FormatMinutesSeconds(seconds)| == |a| + 3;
    NatToStringWidth(m, 2);
    assert Pow10(2) == 100;
    assert m >= 100 <==> seconds >= 6000;
  }
}
