/** Python's numeric conversions on exact values: `int(str)`, `int(float)`,
    `round(x)`, `round(x, 1)` and `format(x, ".1f")`. */
module PyNum {
  import opened Wrappers
  import opened Text

  /** The code point of the digit zero of the Unicode decimal-digit (Nd)
      block holding `c`, Unicode 15.0; each block holds the ten digits zero to
      nine in order. */
  function DigitZero(c: char): (z: Option<int>)
    ensures z.Some? ==> z.value <= c as int < z.value + 10
  {
    var n := c as int;
    if 0x30 <= n < 0x3A then Some(0x30)
    else if 0x660 <= n < 0x66A then Some(0x660)
    else if 0x6F0 <= n < 0x6FA then Some(0x6F0)
    else if 0x7C0 <= n < 0x7CA then Some(0x7C0)
    else if 0x966 <= n < 0x970 then Some(0x966)
    else if 0x9E6 <= n < 0x9F0 then Some(0x9E6)
    else if 0xA66 <= n < 0xA70 then Some(0xA66)
    else if 0xAE6 <= n < 0xAF0 then Some(0xAE6)
    else if 0xB66 <= n < 0xB70 then Some(0xB66)
    else if 0xBE6 <= n < 0xBF0 then Some(0xBE6)
    else if 0xC66 <= n < 0xC70 then Some(0xC66)
    else if 0xCE6 <= n < 0xCF0 then Some(0xCE6)
    else if 0xD66 <= n < 0xD70 then Some(0xD66)
    else if 0xDE6 <= n < 0xDF0 then Some(0xDE6)
    else if 0xE50 <= n < 0xE5A then Some(0xE50)
    else if 0xED0 <= n < 0xEDA then Some(0xED0)
    else if 0xF20 <= n < 0xF2A then Some(0xF20)
    else if 0x1040 <= n < 0x104A then Some(0x1040)
    else if 0x1090 <= n < 0x109A then Some(0x1090)
    else if 0x17E0 <= n < 0x17EA then Some(0x17E0)
    else if 0x1810 <= n < 0x181A then Some(0x1810)
    else if 0x1946 <= n < 0x1950 then Some(0x1946)
    else if 0x19D0 <= n < 0x19DA then Some(0x19D0)
    else if 0x1A80 <= n < 0x1A8A then Some(0x1A80)
    else if 0x1A90 <= n < 0x1A9A then Some(0x1A90)
    else if 0x1B50 <= n < 0x1B5A then Some(0x1B50)
    else if 0x1BB0 <= n < 0x1BBA then Some(0x1BB0)
    else if 0x1C40 <= n < 0x1C4A then Some(0x1C40)
    else if 0x1C50 <= n < 0x1C5A then Some(0x1C50)
    else if 0xA620 <= n < 0xA62A then Some(0xA620)
    else if 0xA8D0 <= n < 0xA8DA then Some(0xA8D0)
    else if 0xA900 <= n < 0xA90A then Some(0xA900)
    else if 0xA9D0 <= n < 0xA9DA then Some(0xA9D0)
    else if 0xA9F0 <= n < 0xA9FA then Some(0xA9F0)
    else if 0xAA50 <= n < 0xAA5A then Some(0xAA50)
    else if 0xABF0 <= n < 0xABFA then Some(0xABF0)
    else if 0xFF10 <= n < 0xFF1A then Some(0xFF10)
    else if 0x104A0 <= n < 0x104AA then Some(0x104A0)
    else if 0x10D30 <= n < 0x10D3A then Some(0x10D30)
    else if 0x11066 <= n < 0x11070 then Some(0x11066)
    else if 0x110F0 <= n < 0x110FA then Some(0x110F0)
    else if 0x11136 <= n < 0x11140 then Some(0x11136)
    else if 0x111D0 <= n < 0x111DA then Some(0x111D0)
    else if 0x112F0 <= n < 0x112FA then Some(0x112F0)
    else if 0x11450 <= n < 0x1145A then Some(0x11450)
    else if 0x114D0 <= n < 0x114DA then Some(0x114D0)
    else if 0x11650 <= n < 0x1165A then Some(0x11650)
    else if 0x116C0 <= n < 0x116CA then Some(0x116C0)
    else if 0x11730 <= n < 0x1173A then Some(0x11730)
    else if 0x118E0 <= n < 0x118EA then Some(0x118E0)
    else if 0x11950 <= n < 0x1195A then Some(0x11950)
    else if 0x11C50 <= n < 0x11C5A then Some(0x11C50)
    else if 0x11D50 <= n < 0x11D5A then Some(0x11D50)
    else if 0x11DA0 <= n < 0x11DAA then Some(0x11DA0)
    else if 0x11F50 <= n < 0x11F5A then Some(0x11F50)
    else if 0x16A60 <= n < 0x16A6A then Some(0x16A60)
    else if 0x16AC0 <= n < 0x16ACA then Some(0x16AC0)
    else if 0x16B50 <= n < 0x16B5A then Some(0x16B50)
    else if 0x1D7CE <= n < 0x1D7D8 then Some(0x1D7CE)
    else if 0x1D7D8 <= n < 0x1D7E2 then Some(0x1D7D8)
    else if 0x1D7E2 <= n < 0x1D7EC then Some(0x1D7E2)
    else if 0x1D7EC <= n < 0x1D7F6 then Some(0x1D7EC)
    else if 0x1D7F6 <= n < 0x1D800 then Some(0x1D7F6)
    else if 0x1E140 <= n < 0x1E14A then Some(0x1E140)
    else if 0x1E2F0 <= n < 0x1E2FA then Some(0x1E2F0)
    else if 0x1E4F0 <= n < 0x1E4FA then Some(0x1E4F0)
    else if 0x1E950 <= n < 0x1E95A then Some(0x1E950)
    else if 0x1FBF0 <= n < 0x1FBFA then Some(0x1FBF0)
    else None
  }

  /** Python's `\d` and the digits `int()` accepts. */
  predicate IsDigit(c: char) {
    DigitZero(c).Some?
  }

  predicate IsAsciiDigit(c: char) {
    '0' <= c <= '9'
  }

  function DigitValue(c: char): (d: nat)
    requires IsDigit(c)
    ensures d < 10
  {
    c as int - DigitZero(c).value
  }

  lemma AsciiDigit(c: char)
    requires IsAsciiDigit(c)
    ensures IsDigit(c) && DigitValue(c) == c as int - '0' as int
  {
  }

  /** The body of an integer literal after its sign: digits, with single `_`
      allowed between two digits. */
  predicate DigitBody(s: string) {
    |s| > 0 && IsDigit(s[0]) && IsDigit(s[|s| - 1])
    && (forall i :: 0 <= i < |s| ==> IsDigit(s[i]) || s[i] == '_')
    && (forall i :: 0 <= i < |s| - 1 ==> !(s[i] == '_' && s[i + 1] == '_'))
  }

  /** The value of a run of digits and underscores, underscores skipped. */
  function BodyValue(s: string): (v: nat)
    requires forall i :: 0 <= i < |s| ==> IsDigit(s[i]) || s[i] == '_'
    decreases |s|
  {
    if s == [] then 0
    else if s[|s| - 1] == '_' then BodyValue(s[..|s| - 1])
    else BodyValue(s[..|s| - 1]) * 10 + DigitValue(s[|s| - 1])
  }

  /** `int(s)` for a string: `None` where Python raises `ValueError`. */
  function IntOfString(s: string): (r: Option<int>)
  {
    var t := Strip(s);
    if t == [] then None
    else
      var neg := t[0] == '-';
      var body := if t[0] == '-' || t[0] == '+' then t[1..] else t;
      if DigitBody(body) then
        var v: int := if neg then 0 - BodyValue(body) as int else BodyValue(body);
        Some(v)
      else None
  }

  lemma AsciiNonDigit(c: char)
    requires c as int < 0x80 && !IsAsciiDigit(c)
    ensures !IsDigit(c)
  {
  }

  /** `int(s)` raises for text without spaces that starts with an ASCII
      character other than a digit or a sign. */
  lemma NotAnInt(s: string)
    requires |s| > 0 && NoSpace(s) && s[0] as int < 0x80 && !IsAsciiDigit(s[0]) && s[0] != '-' && s[0] != '+'
    ensures IntOfString(s).None?
  {
    StripNoSpace(s);
    AsciiNonDigit(s[0]);
  }

  lemma {:induction false} NatToStringValue(n: nat)
    ensures forall i :: 0 <= i < |NatToString(n)| ==> IsDigit(NatToString(n)[i])
    ensures BodyValue(NatToString(n)) == n
  {
    var r := NatToString(n);
    AsciiDigits(r);
    if n >= 10 {
      NatToStringValue(n / 10);
      AppendDigit(NatToString(n / 10), n / 10, n % 10);
    } else {
      AppendDigit([], 0, n);
      assert r == [] + [DigitChar(n)];
    }
  }

  lemma AsciiDigits(s: string)
    requires forall i :: 0 <= i < |s| ==> '0' <= s[i] <= '9'
    ensures forall i :: 0 <= i < |s| ==> IsDigit(s[i])
  {
    forall i | 0 <= i < |s| ensures IsDigit(s[i]) { AsciiDigit(s[i]); }
  }

  /** Writing one more digit after the digits of `v` gives `10 * v` plus that digit. */
  lemma AppendDigit(p: string, v: nat, d: nat)
    requires d < 10
    requires forall i :: 0 <= i < |p| ==> IsDigit(p[i])
    requires BodyValue(p) == v
    ensures forall i :: 0 <= i < |p| + 1 ==> IsDigit((p + [DigitChar(d)])[i])
    ensures BodyValue(p + [DigitChar(d)]) == v * 10 + d
  {
    var r := p + [DigitChar(d)];
    DigitCharCode(d);
    AsciiDigit(DigitChar(d));
    assert r[..|r| - 1] == p;
    assert forall i :: 0 <= i < |p| ==> r[i] == p[i];
  }

  lemma NatToStringNoSpace(n: nat)
    ensures NoSpace(NatToString(n))
  {
    var d := NatToString(n);
    forall k | 0 <= k < |d| ensures !IsSpace(d[k]) {
      assert '0' <= d[k] <= '9';
    }
  }

  lemma NatToStringBody(n: nat)
    ensures DigitBody(NatToString(n))
    ensures BodyValue(NatToString(n)) == n
  {
    NatToStringValue(n);
    var d := NatToString(n);
    assert forall k :: 0 <= k < |d| ==> d[k] != '_';
  }

  lemma IntOfStringDigits(d: string, neg: bool)
    requires DigitBody(d) && NoSpace(d) && d[0] != '-' && d[0] != '+'
    ensures IntOfString(if neg then "-" + d else d)
      == Some(if neg then 0 - BodyValue(d) as int else BodyValue(d))
  {
    var s := if neg then "-" + d else d;
    assert NoSpace(s) by {
      forall k | 0 <= k < |s| ensures !IsSpace(s[k]) {
        if neg && k > 0 { assert s[k] == d[k - 1]; }
      }
    }
    StripNoSpace(s);
    if neg { assert s[1..] == d; }
  }

  /** `int(str(i)) == i`. */
  lemma IntOfStringRoundTrip(i: int)
    ensures IntOfString(IntToString(i)) == Some(i)
  {
    var n: nat := if i < 0 then -i else i;
    NatToStringBody(n);
    NatToStringNoSpace(n);
    IntOfStringDigits(NatToString(n), i < 0);
  }

  /** `int(x)` for a float: truncation toward zero. */
  function Trunc(x: real): (r: int)
    ensures 0.0 <= x ==> r as real <= x < r as real + 1.0
    ensures x < 0.0 ==> r as real - 1.0 < x <= r as real
  {
    if x >= 0.0 then x.Floor else -((-x).Floor)
  }

  /** Truncation never decreases with its argument. */
  lemma TruncMonotone(x: real, y: real)
    requires x <= y
    ensures Trunc(x) <= Trunc(y)
  {
  }

  /** `round(x)`: the nearest integer, ties to the even one. */
  function RoundHalfEven(x: real): (r: int)
    ensures 0.0 <= x ==> 0 <= r
  {
    var f := x.Floor;
    var d := x - f as real;
    if d < 0.5 then f
    else if d > 0.5 then f + 1
    else if f % 2 == 0 then f else f + 1
  }

  /** The two facts that determine `round(x)`: it is at distance at most one
      half from `x`, and at distance exactly one half only when even. */
  lemma RoundHalfEvenNearest(x: real)
    ensures -0.5 <= RoundHalfEven(x) as real - x <= 0.5
    ensures (RoundHalfEven(x) as real - x == 0.5 || x - RoundHalfEven(x) as real == 0.5) ==> RoundHalfEven(x) % 2 == 0
  {
  }

  lemma RoundHalfEvenInt(n: int)
    ensures RoundHalfEven(n as real) == n
  {
  }

  lemma RoundHalfEvenMonotone(x: real, y: real)
    requires x <= y
    ensures RoundHalfEven(x) <= RoundHalfEven(y)
  {
    var fx, fy := x.Floor, y.Floor;
    if fx == fy {
    } else {
      assert fx < fy;
      assert fx + 1 <= fy;
    }
  }

  /** `round(x, 1)` on the exact value of `x`. */
  function Round1(x: real): real {
    RoundHalfEven(x * 10.0) as real / 10.0
  }

  /** `round(x, 2)` on the exact value of `x`. */
  function Round2(x: real): real {
    RoundHalfEven(x * 100.0) as real / 100.0
  }

  /** A whole number of hundredths is its own rounding to two places. */
  lemma Round2Hundredths(n: int)
    ensures Round2(n as real / 100.0) == n as real / 100.0
  {
    assert n as real / 100.0 * 100.0 == n as real;
    RoundHalfEvenInt(n);
  }

  /** A value with at most one decimal place. */
  predicate IsTenth(x: real) {
    (x * 10.0).Floor as real == x * 10.0
  }

  lemma Round1Tenth(x: real)
    requires IsTenth(x)
    ensures Round1(x) == x
  {
    RoundHalfEvenInt((x * 10.0).Floor);
  }

  lemma Round1Monotone(x: real, y: real)
    requires x <= y
    ensures Round1(x) <= Round1(y)
  {
    RoundHalfEvenMonotone(x * 10.0, y * 10.0);
  }

  /** Rounding to one decimal keeps a value inside bounds that have at most one
      decimal place. */
  lemma Round1Within(x: real, lo: real, hi: real)
    requires IsTenth(lo) && IsTenth(hi) && lo <= x <= hi
    ensures lo <= Round1(x) <= hi
  {
    Round1Monotone(lo, x);
    Round1Monotone(x, hi);
    Round1Tenth(lo);
    Round1Tenth(hi);
  }

  /** `format(x, ".1f")` on the exact value of `x`, a minus sign kept on a
      negative value that rounds to zero. */
  function Format1f(x: real): (r: string)
    ensures |r| >= 3
  {
    if x < 0.0 then "-" + FormatTenths(RoundHalfEven(-x * 10.0))
    else FormatTenths(RoundHalfEven(x * 10.0))
  }

  function FormatTenths(t: nat): (r: string)
    ensures |r| >= 3 && r[|r| - 2] == '.'
  {
    NatToString(t / 10) + "." + [DigitChar(t % 10)]
  }
}
