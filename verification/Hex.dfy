/**
 Hexadecimal text as `sprintf` with `%0<width>x` writes it and `sscanf` with `%x` reads it.
 */
module Hex {
  import opened Basics

  const DIGITS := "0123456789abcdef"

  function Digit(d: nat): (ch: char)
    requires d < 16
    ensures if d < 10 then ch as int == '0' as int + d else ch as int == 'a' as int + d - 10
  {
    DIGITS[d]
  }

  predicate IsHexDigit(ch: char) {
    '0' <= ch <= '9' || 'a' <= ch <= 'f' || 'A' <= ch <= 'F'
  }

  function DigitValue(ch: char): (d: nat)
    requires IsHexDigit(ch)
    ensures d < 16
  {
    if ch <= '9' then ch as int - '0' as int
    else if ch <= 'F' then ch as int - 'A' as int + 10
    else ch as int - 'a' as int + 10
  }

  predicate AllHex(s: string) {
    forall i :: 0 <= i < |s| ==> IsHexDigit(s[i])
  }

  // The digits of `v` without leading zeros, `"0"` for zero.
  function Digits(v: nat): string {
    if v < 16 then [Digit(v)] else Digits(v / 16) + [Digit(v % 16)]
  }

  function Zeros(n: nat): string {
    seq(n, i => '0')
  }

  // `%0<width>x`: at least `width` digits, more when the value needs them.
  function Print(v: nat, width: nat): string {
    var ds := Digits(v);
    if |ds| < width then Zeros(width - |ds|) + ds else ds
  }

  // The last `width` digits of `v`.
  function Fixed(v: nat, width: nat): (s: string)
    ensures |s| == width
  {
    if width == 0 then "" else Fixed(v / 16, width - 1) + [Digit(v % 16)]
  }

  function Pow16(w: nat): (p: nat)
    ensures p >= 1
  {
    if w == 0 then 1 else 16 * Pow16(w - 1)
  }

  // The value of a string of digits.
  function Value(s: string): nat
    requires AllHex(s)
  {
    if s == "" then 0 else 16 * Value(s[..|s| - 1]) + DigitValue(s[|s| - 1])
  }

  lemma DigitRoundTrip(d: nat)
    requires d < 16
    ensures IsHexDigit(Digit(d)) && DigitValue(Digit(d)) == d
  {
  }

  lemma {:induction false} FixedIsHex(v: nat, width: nat)
    ensures AllHex(Fixed(v, width))
  {
    if width > 0 {
      FixedIsHex(v / 16, width - 1);
      DigitRoundTrip(v % 16);
    }
  }

  lemma {:induction false} FixedValue(v: nat, width: nat)
    requires v < Pow16(width)
    ensures AllHex(Fixed(v, width)) && Value(Fixed(v, width)) == v
  {
    FixedIsHex(v, width);
    if width > 0 {
      FixedValue(v / 16, width - 1);
      DigitRoundTrip(v % 16);
      assert Fixed(v, width)[..width - 1] == Fixed(v / 16, width - 1);
    }
  }

  lemma {:induction false} FixedZero(width: nat)
    ensures Fixed(0, width) == Zeros(width)
  {
    if width > 0 {
      FixedZero(width - 1);
    }
  }

  lemma {:induction false} DigitsLength(v: nat, width: nat)
    requires width >= 1
    ensures |Digits(v)| <= width <==> v < Pow16(width)
  {
    if width == 1 {
      assert Pow16(1) == 16 * Pow16(0);
      if v >= 16 {
        assert |Digits(v / 16)| >= 1;
      }
    } else if v >= 16 {
      DigitsLength(v / 16, width - 1);
    } else {
      assert Pow16(width) == 16 * Pow16(width - 1);
    }
  }

  // A value that fits is printed with exactly `width` digits.
  lemma {:induction false} PrintIsFixed(v: nat, width: nat)
    requires width >= 1 && v < Pow16(width)
    ensures Print(v, width) == Fixed(v, width)
  {
    DigitsLength(v, width);
    if v < 16 {
      assert v / 16 == 0;
      FixedZero(width - 1);
    } else {
      PrintIsFixed(v / 16, width - 1);
      var ds := Digits(v / 16);
      if |ds| < width - 1 {
        assert Zeros(width - 1 - |ds|) + (ds + [Digit(v % 16)]) == (Zeros(width - 1 - |ds|) + ds) + [Digit(v % 16)];
      }
    }
  }

  predicate IsLowerHex(ch: char) {
    '0' <= ch <= '9' || 'a' <= ch <= 'f'
  }

  lemma {:induction false} DigitsAreLower(v: nat)
    ensures forall i :: 0 <= i < |Digits(v)| ==> IsLowerHex(Digits(v)[i])
  {
    if v >= 16 {
      DigitsAreLower(v / 16);
    }
  }

  /** `%x` writes the digits of the value, the least significant last, in lower case and padded with zeros. */
  lemma PrintedDigits(v: nat, width: nat)
    ensures forall i :: 0 <= i < |Print(v, width)| ==>
              '0' <= Print(v, width)[i] <= '9' || 'a' <= Print(v, width)[i] <= 'f'
    ensures Print(v, width) != ""
    ensures Print(v, width)[|Print(v, width)| - 1] as int
            == if v % 16 < 10 then '0' as int + v % 16 else 'a' as int + v % 16 - 10
  {
    DigitsAreLower(v);
  }

  /** `%0<width>x` writes exactly `width` characters if and only if the value fits. */
  lemma PrintLength(v: nat, width: nat)
    requires width >= 1
    ensures |Print(v, width)| == width <==> v < Pow16(width)
    ensures |Print(v, width)| >= width
  {
    DigitsLength(v, width);
  }

  // Number of hex digits at the start of `s`, which `%x` takes all of.
  function Span(s: string): (n: nat)
    ensures n <= |s| && AllHex(s[..n])
  {
    if s == "" || !IsHexDigit(s[0]) then 0
    else
      var n := Span(s[1..]);
      assert s[..n + 1] == [s[0]] + s[1..][..n];
      n + 1
  }

  // `%x` into a 32-bit variable: the value saturates at 64 bits and is then truncated.
  function Truncate(v: nat): (u: nat)
    ensures u < 0x1_0000_0000
  {
    (if v < 0x1_0000_0000_0000_0000 then v else 0xffff_ffff_ffff_ffff) % 0x1_0000_0000
  }

  // The number and the rest of the text, or nothing when no digit is there.
  function Scan(s: string): Option<(nat, string)> {
    var n := Span(s);
    if n == 0 then None else Some((Truncate(Value(s[..n])), s[n..]))
  }

  lemma {:induction false} SpanStops(digits: string, rest: string)
    requires AllHex(digits) && (rest == "" || !IsHexDigit(rest[0]))
    ensures Span(digits + rest) == |digits|
  {
    if digits == "" {
      assert digits + rest == rest;
    } else {
      assert (digits + rest)[1..] == digits[1..] + rest;
      SpanStops(digits[1..], rest);
    }
  }

  lemma LowBits(v: nat)
    ensures Truncate(v) == if v < 0x1_0000_0000_0000_0000 then v % 0x1_0000_0000 else 0xffff_ffff
  {
  }

  /**
   `%x` takes all the digits there are. A number too large for the variable leaves its low
   32 bits, and one of 2^64 or more leaves them all set.
   */
  lemma LargeNumbers(digits: string, rest: string)
    requires AllHex(digits) && digits != "" && (rest == "" || !IsHexDigit(rest[0]))
    ensures var v := Value(digits);
            Scan(digits + rest)
            == Some((if v < 0x1_0000_0000_0000_0000 then v % 0x1_0000_0000 else 0xffff_ffff, rest))
  {
    SpanStops(digits, rest);
    assert (digits + rest)[..|digits|] == digits;
    assert (digits + rest)[|digits|..] == rest;
    LowBits(Value(digits));
  }

  lemma ScanDigits(digits: string, rest: string, v: nat)
    requires AllHex(digits) && digits != "" && Value(digits) == v < 0x1_0000_0000
    requires rest == "" || !IsHexDigit(rest[0])
    ensures Scan(digits + rest) == Some((v, rest))
  {
    LargeNumbers(digits, rest);
  }

  /** What `%0<width>x` writes, `%x` reads back, whatever non-digit text follows. */
  lemma ScanPrinted(v: nat, width: nat, rest: string)
    requires 1 <= width && v < Pow16(width) && v < 0x1_0000_0000
    requires rest == "" || !IsHexDigit(rest[0])
    ensures Scan(Print(v, width) + rest) == Some((v, rest))
  {
    var digits := Print(v, width);
    assert AllHex(digits) && digits != "" && Value(digits) == v by {
      PrintIsFixed(v, width);
      FixedValue(v, width);
    }
    ScanDigits(digits, rest, v);
  }
}
