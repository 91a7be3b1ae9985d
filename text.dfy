/** Text primitives shared by the console's formatters, validators and
    filters: decimal rendering as JavaScript's String(n) does it, its inverse,
    padStart, JavaScript's truncating remainder, the whitespace that trim()
    removes, and ASCII case mapping. */
module Text {

  datatype Option<T> = None | Some(value: T)

  // ---------------------------------------------------------------------------
  // Decimal digits

  predicate IsDigit(c: char) {
    '0' <= c <= '9'
  }

  predicate AllDigits(s: string) {
    forall i :: 0 <= i < |s| ==> IsDigit(s[i])
  }

  function DigitValue(c: char): (d: nat)
    requires IsDigit(c)
    ensures d < 10
  {
    (c as int) - ('0' as int)
  }

  function DigitChar(d: nat): (c: char)
    requires d < 10
    ensures IsDigit(c) && DigitValue(c) == d
  {
    (('0' as int) + d) as char
  }

  function Pow10(k: nat): (p: nat)
    ensures p >= 1
  {
    if k == 0 then 1 else 10 * Pow10(k - 1)
  }

  /** The decimal numeral of `n`, most significant digit first, with no
      leading zero (JavaScript's `String(n)` for a non-negative integer). */
  function NatToString(n: nat): (s: string)
    ensures |s| >= 1 && AllDigits(s)
    ensures s[0] == '0' <==> n == 0
  {
    if n < 10 then [DigitChar(n)] else NatToString(n / 10) + [DigitChar(n % 10)]
  }

  /** The value of a string of decimal digits, read most significant first;
      the empty string reads as 0. */
  function DecimalValue(s: string): nat
    requires AllDigits(s)
  {
    if s == [] then 0 else 10 * DecimalValue(s[..|s| - 1]) + DigitValue(s[|s| - 1])
  }

  /** Reading back a rendered numeral gives the number. */
  lemma {:induction false} DecimalRoundTrip(n: nat)
    ensures DecimalValue(NatToString(n)) == n
  {
    if n >= 10 {
      var s := NatToString(n);
      assert s[..|s| - 1] == NatToString(n / 10);
      DecimalRoundTrip(n / 10);
    }
  }

  /** A numeral has at most `k` digits exactly when the number is below 10^k. */
  lemma {:induction false} NatToStringWidth(n: nat, k: nat)
    requires k >= 1
    ensures |NatToString(n)| <= k <==> n < Pow10(k)
  {
    if n >= 10 {
      if k == 1 {
        assert |NatToString(n)| == |NatToString(n / 10)| + 1;
      } else {
        NatToStringWidth(n / 10, k - 1);
      }
    }
  }

  predicate AllZeros(z: string) {
    forall i :: 0 <= i < |z| ==> z[i] == '0'
  }

  /** Leading zeros do not change the value of a numeral. */
  lemma {:induction false} LeadingZeros(z: string, s: string)
    requires AllZeros(z) && AllDigits(s)
    ensures AllDigits(z + s) && DecimalValue(z + s) == DecimalValue(s)
  {
    assert AllDigits(z + s);
    if s == [] {
      assert z + s == z;
      ZerosValue(z);
    } else {
      assert (z + s)[..|z + s| - 1] == z + s[..|s| - 1];
      LeadingZeros(z, s[..|s| - 1]);
    }
  }

  lemma {:induction false} ZerosValue(z: string)
    requires AllZeros(z)
    ensures AllDigits(z) && DecimalValue(z) == 0
  {
    if z != [] {
      ZerosValue(z[..|z| - 1]);
    }
  }

  /** JavaScript's `String(i)` for any integer: a minus sign before the
      numeral of the magnitude. */
  function IntToString(i: int): (s: string)
    ensures |s| >= 1
    ensures i >= 0 ==> s == NatToString(i)
    ensures i < 0 ==> s[0] == '-' && s[1..] == NatToString(-i)
  {
    if i < 0 then "-" + NatToString(-i) else NatToString(i)
  }

  // ---------------------------------------------------------------------------
  // padStart

  /** JavaScript's `s.padStart(width, fill)` with a one-character fill. */
  function PadStart(s: string, width: nat, fill: char): (r: string)
    ensures |r| == if |s| >= width then |s| else width
    ensures r[|r| - |s|..] == s
    ensures forall i :: 0 <= i < |r| - |s| ==> r[i] == fill
  {
    if |s| >= width then s else seq(width - |s|, _ => fill) + s
  }

  /** `String(n).padStart(2, '0')`. */
  function Pad2(s: string): string {
    PadStart(s, 2, '0')
  }

  /** A zero-padded numeral still reads as the number, and is as wide as the
      numeral or two characters, whichever is more. */
  lemma Pad2Numeral(n: nat)
    ensures var p := Pad2(NatToString(n));
      && AllDigits(p) && DecimalValue(p) == n
      && |p| == (if n < 10 then 2 else |NatToString(n)|)
  {
    var s := NatToString(n);
    var p := Pad2(s);
    var z := p[..|p| - |s|];
    assert p == z + s;
    assert AllZeros(z);
    LeadingZeros(z, s);
    DecimalRoundTrip(n);
    NatToStringWidth(n, 1);
  }

  // ---------------------------------------------------------------------------
  // Arithmetic with JavaScript's operators

  /** JavaScript's `a % b` for a positive divisor: the remainder takes the
      sign of the dividend (Dafny's `%` is Euclidean). `Math.floor(a / b)` for
      a positive divisor is Dafny's `a / b`. */
  function JsRem(a: int, b: int): (r: int)
    requires b > 0
    ensures (a - r) % b == 0
    ensures a >= 0 ==> 0 <= r < b
    ensures a < 0 ==> -b < r <= 0
  {
    if a >= 0 then
      assert a - a % b == b * (a / b);
      MultipleMod(b, a / b);
      a % b
    else
      var q := (-a) / b;
      assert a + (-a) % b == b * -q;
      MultipleMod(b, -q);
      -((-a) % b)
  }

  lemma MulMonotone(a: int, b: int, k: int)
    requires k >= 0
    ensures a <= b ==> a * k <= b * k
  {
  }

  /** The only q with q*k <= x < (q+1)*k is x / k. */
  lemma FloorUnique(x: int, k: int, q: int)
    requires k > 0 && q * k <= x < q * k + k
    ensures x / k == q
  {
    var r := x / k;
    assert r * k <= x < r * k + k;
    MulMonotone(r + 1, q, k);
    MulMonotone(q + 1, r, k);
  }

  /** A multiple of b leaves no remainder. */
  lemma MultipleMod(b: int, k: int)
    requires b > 0
    ensures (b * k) % b == 0
  {
    FloorUnique(b * k, b, k);
  }

  /** For a negative dividend JavaScript's remainder is 0 when b divides
      it, and otherwise Dafny's (non-negative) remainder less b. */
  lemma JsRemOfNegative(a: int, b: int)
    requires b > 0 && a < 0
    ensures JsRem(a, b) == if a % b == 0 then 0 else a % b - b
  {
    var q, m := a / b, a % b;
    if m == 0 {
      assert -a == b * -q;
      MultipleMod(b, -q);
    } else {
      assert -a == (-q - 1) * b + (b - m);
      FloorUnique(-a, b, -q - 1);
    }
  }

  // ---------------------------------------------------------------------------
  // String length

  /** A string's `.length` in JavaScript: the number of UTF-16 code units,
      two for every character outside the Basic Multilingual Plane. */
  function Utf16Length(s: string): (n: nat)
    ensures |s| <= n <= 2 * |s|
  {
    if s == [] then 0 else (if s[0] as int > 0xFFFF then 2 else 1) + Utf16Length(s[1..])
  }

  /** Only characters outside the Basic Multilingual Plane make `.length`
      differ from the number of characters. */
  lemma {:induction false} Utf16LengthOfBmp(s: string)
    ensures Utf16Length(s) == |s| <==> forall i :: 0 <= i < |s| ==> s[i] as int <= 0xFFFF
  {
    if s != [] {
      Utf16LengthOfBmp(s[1..]);
      assert forall i :: 1 <= i < |s| ==> s[i] == s[1..][i - 1];
    }
  }

  // ---------------------------------------------------------------------------
  // trim()

  /** The characters JavaScript's `trim()` removes: white space (including
      every space separator) and line terminators. */
  predicate IsJsWhitespace(c: char) {
    var k := c as int;
    k == 0x09 || k == 0x0A || k == 0x0B || k == 0x0C || k == 0x0D || k == 0x20
    || k == 0xA0 || k == 0x1680 || (0x2000 <= k <= 0x200A) || k == 0x2028
    || k == 0x2029 || k == 0x202F || k == 0x205F || k == 0x3000 || k == 0xFEFF
  }

  /** `s.trim() === ''`: the string holds nothing but whitespace. */
  predicate IsBlank(s: string) {
    forall i :: 0 <= i < |s| ==> IsJsWhitespace(s[i])
  }

  // ---------------------------------------------------------------------------
  // ASCII case mapping

  function LowerChar(c: char): (d: char)
    ensures 'A' <= c <= 'Z' ==> 'a' <= d <= 'z'
    ensures !('A' <= c <= 'Z') ==> d == c
  {
    if 'A' <= c <= 'Z' then (c as int + 32) as char else c
  }

  function UpperChar(c: char): (d: char)
    ensures 'a' <= c <= 'z' ==> 'A' <= d <= 'Z'
    ensures !('a' <= c <= 'z') ==> d == c
  {
    if 'a' <= c <= 'z' then (c as int - 32) as char else c
  }

  function Lower(s: string): (r: string)
    ensures |r| == |s|
    ensures forall i :: 0 <= i < |s| ==> r[i] == LowerChar(s[i])
  {
    seq(|s|, i requires 0 <= i < |s| => LowerChar(s[i]))
  }

  /** `hay.includes(needle)`: `needle` occurs at some offset of `hay`. */
  predicate Contains(hay: string, needle: string) {
    exists i :: 0 <= i <= |hay| - |needle| && OccursAt(hay, needle, i)
  }

  predicate OccursAt(hay: string, needle: string, i: int)
    requires 0 <= i <= |hay| - |needle|
  {
    hay[i..i + |needle|] == needle
  }

  lemma ContainsEmpty(hay: string)
    ensures Contains(hay, "")
  {
    assert OccursAt(hay, "", 0);
  }
}
