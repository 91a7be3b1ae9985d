/** The dial pad: the typed buffer, the keys that edit it, the progressive
    `+d (ddd)-ddd-dddd` display of its digits, and the call button. */
module Dialer {
  import opened Text

  /** `value.replace(/\D/g, '')`: the ASCII digits of `value`, in order. */
  function DigitsOf(s: string): (d: string)
    ensures AllDigits(d) && |d| <= |s|
  {
    if s == [] then [] else (if IsDigit(s[0]) then [s[0]] else []) + DigitsOf(s[1..])
  }

  /** The characters of `s` that are not digits, in order. */
  function NonDigitsOf(s: string): (d: string)
    ensures forall i :: 0 <= i < |d| ==> !IsDigit(d[i])
  {
    if s == [] then [] else (if IsDigit(s[0]) then [] else [s[0]]) + NonDigitsOf(s[1..])
  }

  lemma {:induction false} DigitsOfConcat(a: string, b: string)
    ensures DigitsOf(a + b) == DigitsOf(a) + DigitsOf(b)
    ensures NonDigitsOf(a + b) == NonDigitsOf(a) + NonDigitsOf(b)
  {
    if a != [] {
      assert (a + b)[1..] == a[1..] + b;
      DigitsOfConcat(a[1..], b);
    } else {
      assert a + b == b;
    }
  }

  /** One character contributes itself when it is a digit and nothing
      otherwise; with DigitsOfConcat this fixes DigitsOf on every string. */
  lemma DigitsOfChar(c: char)
    ensures DigitsOf([c]) == if IsDigit(c) then [c] else []
  {
  }

  /** The digit string is empty exactly when no character is a digit. */
  lemma {:induction false} DigitsOfEmptyIffNoDigit(s: string)
    ensures DigitsOf(s) == [] <==> forall i :: 0 <= i < |s| ==> !IsDigit(s[i])
  {
    if s != [] {
      DigitsOfEmptyIffNoDigit(s[1..]);
      assert forall i :: 1 <= i < |s| ==> s[i] == s[1..][i - 1];
    }
  }

  /** A string of digits is its own digit string and has no other character. */
  lemma {:induction false} DigitsOfDigits(s: string)
    requires AllDigits(s)
    ensures DigitsOf(s) == s && NonDigitsOf(s) == []
  {
    if s != [] {
      DigitsOfDigits(s[1..]);
    }
  }

  function Min(a: int, b: int): int {
    if a <= b then a else b
  }

  /** The dial pad's display of `value`: only its digits count; the first is
      the country code, then an area code in parentheses, then the exchange
      and the line number; digits after the eleventh are dropped. */
  function FormatPhoneNumber(value: string): (r: string)
    ensures r == [] <==> forall i :: 0 <= i < |value| ==> !IsDigit(value[i])
    ensures r != [] ==> r[0] == '+'
  {
    DigitsOfEmptyIffNoDigit(value);
    Layout(DigitsOf(value))
  }

  /** The display of a string of digits. */
  function Layout(c: string): string {
    var n := |c|;
    if n == 0 then []
    else if n <= 1 then "+" + c
    else if n <= 4 then "+" + c[..1] + " (" + c[1..]
    else if n <= 7 then "+" + c[..1] + " (" + c[1..4] + ")-" + c[4..]
    else "+" + c[..1] + " (" + c[1..4] + ")-" + c[4..7] + "-" + c[7..Min(n, 11)]
  }

  /** The punctuation the display puts around `n` digits. */
  function Punctuation(n: nat): string {
    if n == 0 then ""
    else if n <= 1 then "+"
    else if n <= 4 then "+ ("
    else if n <= 7 then "+ ()-"
    else "+ ()--"
  }

  /** What the display of a digit string is made of. */
  predicate LaidOut(c: string, r: string) {
    && DigitsOf(r) == c[..Min(|c|, 11)]
    && NonDigitsOf(r) == Punctuation(|c|)
    && |r| == Min(|c|, 11) + |Punctuation(|c|)|
  }

  /** The digits shown are the first min(n, 11) digits of the input, in
      order, and around them stands exactly the punctuation for that many
      digits; the display is that long. */
  lemma FormattedDigits(value: string)
    ensures LaidOut(DigitsOf(value), FormatPhoneNumber(value))
  {
    var c := DigitsOf(value);
    var n := |c|;
    if n == 0 {
    } else if n <= 1 {
      DigitsOfConcat("+", c);
      DigitsOfDigits(c);
    } else if n <= 4 {
      LayoutShort(c);
    } else if n <= 7 {
      LayoutMedium(c);
    } else {
      LayoutLong(c);
    }
  }

  lemma LayoutShort(c: string)
    requires AllDigits(c) && 2 <= |c| <= 4
    ensures LaidOut(c, Layout(c))
  {
    DigitsOfDigits(c[..1]);
    DigitsOfDigits(c[1..]);
    DigitsOfConcat("+", c[..1]);
    DigitsOfConcat("+" + c[..1], " (");
    DigitsOfConcat("+" + c[..1] + " (", c[1..]);
    assert c[..1] + c[1..] == c[..Min(|c|, 11)];
  }

  lemma LayoutMedium(c: string)
    requires AllDigits(c) && 5 <= |c| <= 7
    ensures LaidOut(c, Layout(c))
  {
    var p := "+" + c[..1] + " (" + c[1..4] + ")-";
    LayoutPrefix(c);
    DigitsOfDigits(c[4..]);
    DigitsOfConcat(p, c[4..]);
    assert c[..1] + c[1..4] + c[4..] == c[..Min(|c|, 11)];
  }

  lemma LayoutLong(c: string)
    requires AllDigits(c) && 8 <= |c|
    ensures LaidOut(c, Layout(c))
  {
    var k := Min(|c|, 11);
    var p := "+" + c[..1] + " (" + c[1..4] + ")-";
    var q := p + c[4..7];
    var t := q + "-";
    assert Layout(c) == t + c[7..k];
    LayoutPrefix(c);
    DigitsOfDigits(c[4..7]);
    DigitsOfDigits(c[7..k]);
    DigitsOfConcat(p, c[4..7]);
    assert DigitsOf(q) == c[..1] + c[1..4] + c[4..7] && NonDigitsOf(q) == "+ ()-";
    DigitsOfConcat(q, "-");
    assert DigitsOf(t) == DigitsOf(q) && NonDigitsOf(t) == "+ ()--";
    DigitsOfConcat(t, c[7..k]);
    assert c[..1] + c[1..4] + c[4..7] + c[7..k] == c[..k];
  }

  /** The country and area code part shared by the displays of five or more
      digits. */
  lemma LayoutPrefix(c: string)
    requires AllDigits(c) && 5 <= |c|
    ensures var p := "+" + c[..1] + " (" + c[1..4] + ")-";
      DigitsOf(p) == c[..1] + c[1..4] && NonDigitsOf(p) == "+ ()-" && |p| == 9
  {
    DigitsOfDigits(c[..1]);
    DigitsOfDigits(c[1..4]);
    DigitsOfConcat("+", c[..1]);
    DigitsOfConcat("+" + c[..1], " (");
    DigitsOfConcat("+" + c[..1] + " (", c[1..4]);
    DigitsOfConcat("+" + c[..1] + " (" + c[1..4], ")-");
  }

  /** The dial pad's state: the typed buffer. */
  class DialPad {
    var number: string

    constructor ()
      ensures number == []
    {
      number := [];
    }

    /** A key press: `backspace` drops the last character (nothing on an
        empty buffer); any other key appends exactly its text, `+`
        included. */
    method PressKey(key: string)
      modifies this
      ensures key == "backspace" ==> number == (if old(number) == [] then [] else old(number)[..|old(number)| - 1])
      ensures key != "backspace" ==> number == old(number) + key
    {
      if key == "backspace" {
        if number != [] {
          number := number[..|number| - 1];
        }
      } else {
        number := number + key;
      }
    }

    /** The Clear button empties the buffer. */
    method Clear()
      modifies this
      ensures number == []
    {
      number := [];
    }

    /** Typing into the display replaces the buffer by the digits of what the
        field now holds. */
    method Edit(text: string)
      modifies this
      ensures number == DigitsOf(text)
    {
      number := DigitsOf(text);
    }

    /** The Call button: a buffer that is not blank after trimming is dialled
        as typed (untrimmed) and the buffer emptied; otherwise nothing
        happens. */
    method Call() returns (dialed: Option<string>)
      modifies this
      ensures !IsBlank(old(number)) ==> dialed == Some(old(number)) && number == []
      ensures IsBlank(old(number)) ==> dialed == None && number == old(number)
    {
      if !IsBlank(number) {
        dialed := Some(number);
        number := [];
      } else {
        dialed := None;
      }
    }

    /** What the display field shows. */
    function Display(): string
      reads this
    {
      FormatPhoneNumber(number)
    }
  }
}
