/** The integer-to-text encoder behind `HAL_UART_Print`, as values.

    `Digits` is what the printer's first loop leaves in its 16-byte buffer
    (least significant digit first, with C's truncating `%` and `/`, the
    remainder stored into a `uint8_t` and the digit character into a
    `char`); `NumberText` is what the printer emits after its string.
    `ParseText` is an independent reader of that text, used to state the
    round trip.
 */
module NumberFormat {

  /** `UART_NO_NUMBER`: the value that asks for the string alone. */
  const NoNumber: int := -1

  const Int32Min: int := -0x8000_0000
  const Int32Max: int := 0x7FFF_FFFF

  predicate IsInt32(v: int)
  {
    Int32Min <= v <= Int32Max
  }

  /** Only bases 10 and 16 produce digits. */
  predicate IsBase(base: int)
  {
    base == 10 || base == 16
  }

  function Abs(v: int): nat
  {
    if v < 0 then -v else v
  }

  /** C's `/` on signed integers: the quotient is truncated toward zero.
      Stated base by base, so that every fact about it stays linear. */
  function CDiv(a: int, b: int): (q: int)
    requires IsBase(b)
    ensures b == 10 ==> Abs(q) == Abs(a) / 10
    ensures b == 16 ==> Abs(q) == Abs(a) / 16
    ensures a != 0 ==> Abs(q) < Abs(a)
    ensures (a < 0 ==> q <= 0) && (a >= 0 ==> q >= 0)
  {
    if b == 10 then (if a >= 0 then a / 10 else -((-a) / 10))
    else (if a >= 0 then a / 16 else -((-a) / 16))
  }

  /** C's `%` on signed integers: the remainder takes the sign of `a`. */
  function CRem(a: int, b: int): (r: int)
    requires IsBase(b)
    ensures b == 10 ==> a == CDiv(a, b) * 10 + r
    ensures b == 16 ==> a == CDiv(a, b) * 16 + r
    ensures a >= 0 ==> 0 <= r < b
    ensures a < 0 ==> -b < r <= 0
  {
    if b == 10 then a - 10 * CDiv(a, b) else a - 16 * CDiv(a, b)
  }

  /** The quotient's magnitude, for either base. */
  lemma CDivAbs(a: int, b: int)
    requires IsBase(b)
    ensures Abs(CDiv(a, b)) == Abs(a) / b
  {
  }

  /** `(d < 10) ? ('0' + d) : ('A' + d - 10)` stored into an 8-bit `char`:
      a digit of base 16 becomes the character `DigitValue` reads back as it. */
  function DigitChar(d: int): (c: char)
    requires 0 <= d < 256
    ensures c as int < 256
    ensures d < 16 ==> DigitValue(c) == d
  {
    if d < 10 then ('0' as int + d) as char
    else (('A' as int + d - 10) % 256) as char
  }

  /** The digit buffer the conversion loop fills, least significant digit
      first: empty exactly for zero. */
  function Digits(v: int, base: int): (r: string)
    requires IsBase(base)
    ensures (r == []) == (v == 0)
    decreases Abs(v)
  {
    if v == 0 then []
    else [DigitChar(CRem(v, base) % 256)] + Digits(CDiv(v, base), base)
  }

  /** The conversion loop of `HAL_UART_Print`: the digits of `v0`, least
      significant first, into a fresh 16-byte buffer, which they never
      overflow. */
  method FillDigits(v0: int, base: int) returns (buf: array<char>, n: nat)
    requires IsBase(base) && Abs(v0) <= 0x8000_0000
    ensures fresh(buf) && buf.Length == 16
    ensures n <= 16 && buf[..n] == Digits(v0, base)
  {
    ghost var digits := Digits(v0, base);
    DigitsFit(v0, base);
    buf := new char[16];
    var v := v0;
    n := 0;
    while v != 0
      invariant 0 <= n <= |digits| <= 10
      invariant buf[..n] == digits[..n]
      invariant Digits(v, base) == digits[n..]
      decreases Abs(v)
    {
      var d := CRem(v, base) % 256;
      assert digits[n] == DigitChar(d) && digits[n + 1..] == Digits(CDiv(v, base), base);
      buf[n] := DigitChar(d);
      n := n + 1;
      v := CDiv(v, base);
    }
    assert buf[..n] == digits;
  }

  /** The order in which the second loop drains the buffer. */
  function Reverse(s: string): (r: string)
    ensures |r| == |s|
  {
    if s == [] then [] else Reverse(s[1..]) + [s[0]]
  }

  /** Position `k` of the reversal holds position `|s| - 1 - k` of `s`. */
  lemma {:induction false} ReverseAt(s: string)
    ensures forall k :: 0 <= k < |s| ==> Reverse(s)[k] == s[|s| - 1 - k]
  {
    if s != [] {
      ReverseAt(s[1..]);
    }
  }

  /** What `HAL_UART_Print` emits after its string for `val` in `base`:
      nothing for `UART_NO_NUMBER` or an unknown base, otherwise at least one
      character, led by '-' for a negative value in base 10. */
  function NumberText(val: int, base: int): (t: string)
    ensures (t == []) == (val == NoNumber || !IsBase(base))
    ensures t != [] && val < 0 && base == 10 ==> t[0] == '-'
  {
    if val == NoNumber || !IsBase(base) then ""
    else if val == 0 then "0"
    else if val < 0 && base == 10 then "-" + Reverse(Digits(-val, 10))
    else Reverse(Digits(val, base))
  }

  // ---------------------------------------------------------------------
  // An independent reader of the printed text

  /** The value of a digit character `0-9`, `A-F`; -1 for any other character. */
  function DigitValue(c: char): int
  {
    if '0' <= c <= '9' then c as int - '0' as int
    else if 'A' <= c <= 'F' then c as int - 'A' as int + 10
    else -1
  }

  predicate IsDigitIn(c: char, base: int)
  {
    0 <= DigitValue(c) < base
  }

  /** The value of a digit string, most significant digit first. */
  function ParseDigits(s: string, base: int): int
  {
    if s == [] then 0
    else ParseDigits(s[..|s| - 1], base) * base + DigitValue(s[|s| - 1])
  }

  /** The value of an optionally signed digit string. */
  function ParseText(s: string, base: int): int
  {
    if |s| > 0 && s[0] == '-' then -ParseDigits(s[1..], base)
    else ParseDigits(s, base)
  }

  function Power(b: nat, k: nat): nat
  {
    if k == 0 then 1 else b * Power(b, k - 1)
  }

  // ---------------------------------------------------------------------
  // Properties

  /** Draining the whole buffer of a non-zero value ends with its lowest digit. */
  lemma ReverseDigits(v: int, base: int)
    requires IsBase(base) && v != 0
    ensures Reverse(Digits(v, base))
         == Reverse(Digits(CDiv(v, base), base)) + [DigitChar(CRem(v, base) % 256)]
  {
    var ds := Digits(v, base);
    assert ds[1..] == Digits(CDiv(v, base), base);
  }

  lemma ParseSnoc(s: string, c: char, base: int)
    ensures ParseDigits(s + [c], base) == ParseDigits(s, base) * base + DigitValue(c)
  {
    assert (s + [c])[..|s|] == s;
  }

  /** The last character drained for a positive value is the digit of its
      remainder, which lies in `0 .. base - 1`. */
  lemma LowDigit(v: int, base: int)
    requires IsBase(base) && v > 0
    ensures var q, r := CDiv(v, base), CRem(v, base);
      && 0 <= q < v && 0 <= r < base && (q == 0 ==> r == v)
      && Reverse(Digits(v, base)) == Reverse(Digits(q, base)) + [DigitChar(r)]
      && DigitValue(DigitChar(r)) == r
  {
    var q, r := CDiv(v, base), CRem(v, base);
    assert 0 <= q < v && 0 <= r < base && (q == 0 ==> r == v);
    assert r % 256 == r;
    ReverseDigits(v, base);
    assert Reverse(Digits(v, base)) == Reverse(Digits(q, base)) + [DigitChar(r)];
  }

  /** A positive value prints as digits of its base, with no leading zero. */
  lemma {:induction false} PositiveDigits(v: int, base: int)
    requires IsBase(base) && v > 0
    ensures var t := Reverse(Digits(v, base));
      && |t| > 0 && t[0] != '0'
      && (forall k :: 0 <= k < |t| ==> IsDigitIn(t[k], base))
    decreases v
  {
    var q, r := CDiv(v, base), CRem(v, base);
    LowDigit(v, base);
    var front := Reverse(Digits(q, base));
    var t := front + [DigitChar(r)];
    if q == 0 {
      assert front == [];
    } else {
      PositiveDigits(q, base);
      assert forall k :: 0 <= k < |front| ==> t[k] == front[k];
    }
  }

  /** The digits of a non-negative value read back as the value. */
  lemma {:induction false} ParseDigitsOfValue(v: int, base: int)
    requires IsBase(base) && v >= 0
    ensures ParseDigits(Reverse(Digits(v, base)), base) == v
    decreases v
  {
    if v > 0 {
      var q, r := CDiv(v, base), CRem(v, base);
      var c := DigitChar(r);
      LowDigit(v, base);
      var front := Reverse(Digits(q, base));
      ParseSnoc(front, c, base);
      ParseDigitsOfValue(q, base);
      assert ParseDigits(front + [c], base) == q * base + r;
    }
  }

  lemma DivBelow(a: nat, b: nat, p: nat)
    requires b > 0 && a < b * p
    ensures a / b < p
  {
  }

  /** A value of magnitude below `base^k` fills at most `k` digit slots. */
  lemma {:induction false} DigitsBelow(v: int, base: int, k: nat)
    requires IsBase(base) && Abs(v) < Power(base, k)
    ensures |Digits(v, base)| <= k
    decreases k
  {
    if v != 0 {
      assert k > 0;
      DivBelow(Abs(v), base, Power(base, k - 1));
      CDivAbs(v, base);
      DigitsBelow(CDiv(v, base), base, k - 1);
    }
  }

  /** Every 32-bit value (and the magnitude of any negated one) needs at most
      10 decimal or 8 hexadecimal digits, so the 16-byte buffer never overflows. */
  lemma DigitsFit(v: int, base: int)
    requires IsBase(base) && Abs(v) <= 0x8000_0000
    ensures |Digits(v, base)| <= 10
    ensures base == 16 ==> |Digits(v, base)| <= 8
  {
    if base == 10 {
      assert Power(10, 10) == 10_000_000_000;
      DigitsBelow(v, 10, 10);
    } else {
      assert Power(16, 8) == 0x1_0000_0000;
      DigitsBelow(v, 16, 8);
    }
  }

  /** Every printable decimal value reads back from its text; the text is
      at most a sign and ten digits. */
  lemma DecimalRoundTrip(v: int)
    requires IsInt32(v) && v != NoNumber
    ensures ParseText(NumberText(v, 10), 10) == v
    ensures |NumberText(v, 10)| <= 11
  {
    if v > 0 {
      PositiveDigits(v, 10);
      ParseDigitsOfValue(v, 10);
      DigitsFit(v, 10);
      var t := Reverse(Digits(v, 10));
      assert IsDigitIn(t[0], 10);
      assert NumberText(v, 10) == t;
    } else if v < 0 {
      ParseDigitsOfValue(-v, 10);
      DigitsFit(-v, 10);
      var t := Reverse(Digits(-v, 10));
      assert NumberText(v, 10) == "-" + t;
      assert ("-" + t)[1..] == t;
      assert ParseText("-" + t, 10) == -ParseDigits(t, 10);
    } else {
      assert "0"[..0] == [];
    }
  }

  /** Every non-negative value reads back from its hexadecimal text, which
      uses only the digits `0-9`, `A-F` and is at most 8 long. */
  lemma HexRoundTrip(v: int)
    requires 0 <= v <= Int32Max
    ensures ParseText(NumberText(v, 16), 16) == v
    ensures forall k :: 0 <= k < |NumberText(v, 16)| ==> IsDigitIn(NumberText(v, 16)[k], 16)
    ensures |NumberText(v, 16)| <= 8
  {
    if v > 0 {
      PositiveDigits(v, 16);
      ParseDigitsOfValue(v, 16);
      DigitsFit(v, 16);
      var t := Reverse(Digits(v, 16));
      assert IsDigitIn(t[0], 16);
      assert NumberText(v, 16) == t;
    } else {
      assert "0"[..0] == [];
    }
  }

  /** A negative decimal value prints as '-' and the text of its magnitude;
      -1 itself is the "no number" sentinel and prints nothing. */
  lemma NegativeDecimal(v: int)
    requires v < 0
    ensures v == NoNumber ==> NumberText(v, 10) == ""
    ensures v != NoNumber ==> NumberText(v, 10) == "-" + NumberText(-v, 10)
  {
  }

  /** With C's truncating remainder, each buffer slot of a negative value in
      base 16 is '0' or one of the characters '(' .. '6'. */
  lemma {:induction false} NegativeHexDigits(v: int)
    requires v < 0
    ensures forall k :: 0 <= k < |Digits(v, 16)| ==>
      Digits(v, 16)[k] == '0' || '(' <= Digits(v, 16)[k] <= '6'
    decreases Abs(v)
  {
    var r := CRem(v, 16);
    var q := CDiv(v, 16);
    if r != 0 {
      assert r % 256 == 256 + r;
    }
    if q != 0 {
      NegativeHexDigits(q);
    }
  }

  /** So a negative value printed in base 16 shows none of the letters
      `A-F`; the digit slots hold '0' .. '6' and punctuation (even '-'). */
  lemma NegativeHexText(v: int)
    requires v < 0 && v != NoNumber
    ensures var t := NumberText(v, 16);
      |t| > 0 && forall k :: 0 <= k < |t| ==> !('A' <= t[k] <= 'F')
  {
    NegativeHexDigits(v);
    var ds := Digits(v, 16);
    assert |ds| > 0;
    var t := Reverse(ds);
    ReverseAt(ds);
    assert NumberText(v, 16) == t;
    forall k | 0 <= k < |t| ensures !('A' <= t[k] <= 'F') {
      assert t[k] == ds[|ds| - 1 - k];
    }
  }

  /** Zero prints as "0" in either base. */
  lemma ZeroSample()
    ensures NumberText(0, 10) == "0" && NumberText(0, 16) == "0"
    ensures ParseText("0", 10) == 0
  {
    assert "0"[..0] == [];
  }

  /** -5 in decimal prints as "-5"; 255 in hexadecimal as "FF". */
  lemma SignAndHexSamples()
    ensures NumberText(-5, 10) == "-5"
    ensures NumberText(255, 16) == "FF"
  {
    assert Digits(5, 10) == ['5'];
    assert CDiv(255, 16) == 15 && CRem(255, 16) == 15;
    assert Digits(15, 16) == ['F'];
    assert Digits(255, 16) == ['F', 'F'];
  }

  /** Negative hexadecimal: -2 (remainder -2, stored as 254) prints as "5",
      and -10 (remainder -10, stored as 246) prints as "-". */
  lemma NegativeHexSamples()
    ensures NumberText(-2, 16) == "5"
    ensures NumberText(-10, 16) == "-"
  {
    assert CDiv(-2, 16) == 0 && CRem(-2, 16) == -2;
    assert Digits(-2, 16) == ['5'];
    assert CDiv(-10, 16) == 0 && CRem(-10, 16) == -10;
    assert Digits(-10, 16) == ['-'];
  }
}
