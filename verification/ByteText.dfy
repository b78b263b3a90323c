/**
 Raw bytes as text, two hexadecimal digits a byte.
 */
module ByteText {
  import opened Basics
  import opened Hex

  // Two digits per byte, in order.
  function ByteText(b: Byte): string {
    Fixed(b as nat, 2)
  }

  function RawText(raw: seq<Byte>): string {
    if raw == [] then "" else RawText(raw[..|raw| - 1]) + ByteText(raw[|raw| - 1])
  }

  lemma SplitDigits(v: nat, b: nat)
    requires b < 256
    ensures (v * 256 + b) % 16 == b % 16
    ensures (v * 256 + b) / 16 % 16 == b / 16
    ensures (v * 256 + b) / 16 / 16 == v
  {
    assert (v * 256 + b) / 16 == v * 16 + b / 16;
  }

  lemma TwoDigits(v: nat, width: nat)
    ensures Fixed(v, width + 2) == Fixed(v / 16 / 16, width) + [Digit(v / 16 % 16), Digit(v % 16)]
  {
    assert Fixed(v, width + 2) == Fixed(v / 16, width + 1) + [Digit(v % 16)];
    assert Fixed(v / 16, width + 1) == Fixed(v / 16 / 16, width) + [Digit(v / 16 % 16)];
  }

  lemma ByteDigits(b: Byte)
    ensures ByteText(b) == [Digit(b as nat / 16), Digit(b as nat % 16)]
  {
    assert b as nat / 16 % 16 == b as nat / 16;
    TwoDigits(b as nat, 0);
  }

  lemma FixedOneByte(v: nat, b: Byte, width: nat)
    ensures Fixed(v * 256 + b as nat, width + 2) == Fixed(v, width) + ByteText(b)
  {
    SplitDigits(v, b as nat);
    TwoDigits(v * 256 + b as nat, width);
    ByteDigits(b);
  }

  // Any number of bytes as one big-endian number.
  function BigEndian(raw: seq<Byte>): nat {
    if raw == [] then 0 else BigEndian(raw[..|raw| - 1]) * 256 + raw[|raw| - 1] as nat
  }

  // The bytes' text is the number's digits.
  lemma {:induction false} RawIsFixed(raw: seq<Byte>)
    ensures Fixed(BigEndian(raw), 2 * |raw|) == RawText(raw)
  {
    if raw != [] {
      var last := |raw| - 1;
      RawIsFixed(raw[..last]);
      var v, width := BigEndian(raw[..last]), 2 * last;
      FixedOneByte(v, raw[last], width);
      assert BigEndian(raw) == v * 256 + raw[last] as nat;
    }
  }

  lemma {:induction false} RawTextLength(raw: seq<Byte>)
    ensures |RawText(raw)| == 2 * |raw|
  {
    if raw != [] {
      RawTextLength(raw[..|raw| - 1]);
    }
  }

  lemma {:induction false} RawTextAt(raw: seq<Byte>, k: nat)
    requires k < |raw|
    ensures |RawText(raw)| == 2 * |raw|
    ensures RawText(raw)[2 * k..2 * k + 2] == ByteText(raw[k])
  {
    RawTextLength(raw);
    var last := |raw| - 1;
    RawTextLength(raw[..last]);
    if k < last {
      RawTextAt(raw[..last], k);
      assert RawText(raw)[..2 * last] == RawText(raw[..last]);
      assert RawText(raw)[2 * k..2 * k + 2] == RawText(raw[..last])[2 * k..2 * k + 2];
    }
  }

  // The text of the bytes from `i` to `j` is that part of the whole text.
  lemma {:induction false} RawTextSlice(raw: seq<Byte>, i: nat, j: nat)
    requires i <= j <= |raw|
    ensures |RawText(raw)| == 2 * |raw|
    ensures RawText(raw)[2 * i..2 * j] == RawText(raw[i..j])
    decreases j
  {
    RawTextLength(raw);
    if i < j {
      RawTextSlice(raw, i, j - 1);
      RawTextAt(raw, j - 1);
      var text := RawText(raw);
      assert raw[i..j][..j - i - 1] == raw[i..j - 1];
      assert text[2 * i..2 * j] == text[2 * i..2 * (j - 1)] + text[2 * (j - 1)..2 * j];
    } else {
      assert raw[i..j] == [];
    }
  }
}
