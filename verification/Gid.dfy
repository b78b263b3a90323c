/**
 The text form of a 16-byte GID, written and read in four 32-bit words in the byte order
 of the host.
 */
module Gid {
  import opened Basics
  import opened Hex
  import opened ByteText

  datatype Order = Little | Big

  // Four bytes as the number a big-endian host loads.
  function Word(b: seq<Byte>): (v: nat)
    requires |b| == 4
    ensures v < 0x1_0000_0000
  {
    ((b[0] as nat * 256 + b[1] as nat) * 256 + b[2] as nat) * 256 + b[3] as nat
  }

  // Four bytes as the number a host of this byte order loads from memory.
  function Load(order: Order, b: seq<Byte>): (v: nat)
    requires |b| == 4
    ensures v < 0x1_0000_0000
  {
    if order == Big then Word(b) else Word([b[3], b[2], b[1], b[0]])
  }

  function LowByte(v: nat): Byte {
    (v % 256) as Byte
  }

  // The four bytes such a host stores for a 32-bit number.
  function Store(order: Order, v: nat): (b: seq<Byte>)
    ensures |b| == 4
  {
    var bytes := [LowByte(v / 256 / 256 / 256), LowByte(v / 256 / 256), LowByte(v / 256), LowByte(v)];
    if order == Big then bytes else [bytes[3], bytes[2], bytes[1], bytes[0]]
  }

  // `htonl` and `ntohl`: the identity on a big-endian host, a byte swap on a little-endian one.
  function Swap(order: Order, v: nat): (u: nat)
    ensures u < 0x1_0000_0000
  {
    if order == Big then v % 0x1_0000_0000 else Load(Big, Store(Little, v))
  }

  lemma LastByte(v: nat, b: nat)
    requires b < 256
    ensures (v * 256 + b) / 256 == v && (v * 256 + b) % 256 == b
  {
  }

  lemma StoreWord(b: seq<Byte>)
    requires |b| == 4
    ensures Store(Big, Word(b)) == b
  {
    var v1 := b[0] as nat;
    var v2 := v1 * 256 + b[1] as nat;
    var v3 := v2 * 256 + b[2] as nat;
    LastByte(v1, b[1] as nat);
    LastByte(v2, b[2] as nat);
    LastByte(v3, b[3] as nat);
  }

  // Loading in host order and converting to network order reads the bytes in order.
  lemma LoadThenSwap(order: Order, b: seq<Byte>)
    requires |b| == 4
    ensures Swap(order, Load(order, b)) == Word(b)
  {
    if order == Little {
      StoreWord([b[3], b[2], b[1], b[0]]);
    }
  }

  lemma WordOfStore(v: nat)
    requires v < 0x1_0000_0000
    ensures Word(Store(Big, v)) == v
  {
    var v3 := v / 256;
    var v2 := v3 / 256;
    assert v == v3 * 256 + v % 256;
    assert v3 == v2 * 256 + v3 % 256;
    assert v2 == v2 / 256 * 256 + v2 % 256;
  }

  // Converting from network order and storing in host order restores the bytes.
  lemma SwapThenStore(order: Order, b: seq<Byte>)
    requires |b| == 4
    ensures Store(order, Swap(order, Word(b))) == b
  {
    StoreWord(b);
    if order == Little {
      var r := [b[3], b[2], b[1], b[0]];
      assert Store(Little, Word(b)) == r;
      StoreWord(r);
    }
  }

  lemma WordIsBigEndian(b: seq<Byte>)
    requires |b| == 4
    ensures Word(b) == BigEndian(b)
  {
    assert b[..3][..2] == b[..2] && b[..2][..1] == b[..1] && b[..1][..0] == [];
    assert BigEndian(b[..1]) == b[0] as nat;
    assert BigEndian(b[..2]) == BigEndian(b[..1]) * 256 + b[1] as nat;
    assert BigEndian(b[..3]) == BigEndian(b[..2]) * 256 + b[2] as nat;
  }

  lemma EightDigitsFit()
    ensures Pow16(8) == 0x1_0000_0000
  {
    assert Pow16(2) == 256;
    assert Pow16(4) == 256 * Pow16(2);
    assert Pow16(6) == 256 * Pow16(4);
  }

  // A word printed with `%08x` is its four bytes' text in order.
  lemma WordText(b: seq<Byte>)
    requires |b| == 4
    ensures Print(Word(b), 8) == RawText(b)
  {
    EightDigitsFit();
    WordIsBigEndian(b);
    PrintIsFixed(Word(b), 8);
    RawIsFixed(b);
  }

  // The `i`-th word of a GID, loaded, converted and printed.
  function PrintedWord(order: Order, gid: seq<Byte>, i: nat): string
    requires |gid| == 16 && i < 4
  {
    Print(Swap(order, Load(order, gid[4 * i..4 * i + 4])), 8)
  }

  lemma PrintedInOrder(order: Order, gid: seq<Byte>, i: nat)
    requires |gid| == 16 && i < 4
    ensures |RawText(gid)| == 32
    ensures PrintedWord(order, gid, i) == RawText(gid)[8 * i..8 * i + 8]
  {
    var word := gid[4 * i..4 * i + 4];
    LoadThenSwap(order, word);
    WordText(word);
    RawTextSlice(gid, 4 * i, 4 * i + 4);
  }

  // One turn of the loop: eight digits and a terminator after them.
  method PrintWord(order: Order, gid: seq<Byte>, i: nat, wgid: array<char>)
    requires |gid| == 16 && i < 4 && wgid.Length >= 33
    modifies wgid
    ensures |RawText(gid)| == 32
    ensures forall j :: 8 * i <= j < 8 * i + 8 ==> wgid[j] == RawText(gid)[j]
    ensures wgid[8 * i + 8] == '\0'
    ensures forall j :: 0 <= j < wgid.Length && !(8 * i <= j <= 8 * i + 8) ==> wgid[j] == old(wgid[j])
  {
    var text := PrintedWord(order, gid, i);
    PrintedInOrder(order, gid, i);
    forall j | 0 <= j < 8 {
      wgid[8 * i + j] := text[j];
    }
    wgid[8 * i + 8] := '\0';
    assert forall j :: 8 * i <= j < 8 * i + 8 ==> wgid[j] == text[j - 8 * i];
  }

  /**
   `gid_to_wire_gid`: on a host of either byte order the text is the raw bytes in order,
   32 characters and a terminator.
   */
  method GidToWire(order: Order, gid: seq<Byte>, wgid: array<char>)
    requires |gid| == 16 && wgid.Length >= 33
    modifies wgid
    ensures wgid[..32] == RawText(gid) && wgid[32] == '\0'
    ensures forall j :: 33 <= j < wgid.Length ==> wgid[j] == old(wgid[j])
  {
    RawTextLength(gid);
    for i := 0 to 4
      invariant forall j :: 0 <= j < 8 * i ==> wgid[j] == RawText(gid)[j]
      invariant i > 0 ==> wgid[8 * i] == '\0'
      invariant forall j :: 33 <= j < wgid.Length ==> wgid[j] == old(wgid[j])
    {
      PrintWord(order, gid, i, wgid);
    }
  }

  // The word written in the `i`-th group of eight characters.
  function WordAt(text: string, i: nat): (word: Option<nat>)
    requires 8 * i + 8 <= |text|
    ensures word.Some? ==> word.value < 0x1_0000_0000
  {
    match Scan(text[8 * i..8 * i + 8])
    case Some(scanned) => Some(scanned.0)
    case None => None
  }

  predicate Readable(text: string) {
    |text| >= 32 && forall i :: 0 <= i < 4 ==> WordAt(text, i).Some?
  }

  // The 32-bit variable after `n` groups. A group without a number leaves it as it was;
  // before the first group it holds `junk`, since the program does not initialise it.
  function V32(text: string, junk: nat, n: nat): (v: nat)
    requires n <= 4 && |text| >= 32 && junk < 0x1_0000_0000
    ensures v < 0x1_0000_0000
  {
    if n == 0 then junk
    else if WordAt(text, n - 1).Some? then WordAt(text, n - 1).value
    else V32(text, junk, n - 1)
  }

  // The first `n` words of the text as bytes.
  function BytesOf(text: string, junk: nat, n: nat): (raw: seq<Byte>)
    requires n <= 4 && |text| >= 32 && junk < 0x1_0000_0000
    ensures |raw| == 4 * n
  {
    if n == 0 then [] else BytesOf(text, junk, n - 1) + Store(Big, V32(text, junk, n))
  }

  lemma {:induction false} StoreAnywhere(order: Order, v: nat)
    requires v < 0x1_0000_0000
    ensures Store(order, Swap(order, v)) == Store(Big, v)
  {
    WordOfStore(v);
    SwapThenStore(order, Store(Big, v));
  }

  // Converting a word from network order and storing it as word `i` of the GID.
  method PutWord(order: Order, v32: nat, i: nat, gid: array<Byte>)
    requires v32 < 0x1_0000_0000 && i < 4 && gid.Length == 16
    modifies gid
    ensures gid[4 * i..4 * i + 4] == Store(Big, v32)
    ensures gid[..4 * i] == old(gid[..4 * i]) && gid[4 * i + 4..] == old(gid[4 * i + 4..])
  {
    var bytes := Store(order, Swap(order, v32));
    assert bytes == Store(Big, v32) by { StoreAnywhere(order, v32); }
    forall j | 0 <= j < 4 {
      gid[4 * i + j] := bytes[j];
    }
  }

  /**
   `wire_gid_to_gid`: the bytes restored do not depend on the host's byte order, whatever
   the text; a group of eight characters without a number repeats the word before it.
   */
  method WireToGid(order: Order, wgid: string, gid: array<Byte>, junk: nat)
    requires |wgid| >= 32 && gid.Length == 16 && junk < 0x1_0000_0000
    modifies gid
    ensures gid[..] == BytesOf(wgid, junk, 4)
  {
    var v32 := junk;
    for i := 0 to 4
      invariant v32 == V32(wgid, junk, i)
      invariant gid[..4 * i] == BytesOf(wgid, junk, i)
    {
      var word := WordAt(wgid, i);
      if word.Some? {
        v32 := word.value;
      }
      PutWord(order, v32, i, gid);
      assert gid[..4 * i + 4] == gid[..4 * i] + gid[4 * i..4 * i + 4];
    }
    assert gid[..16] == gid[..];
  }

  lemma ReadWord(raw: seq<Byte>, i: nat)
    requires |raw| == 16 && i < 4
    ensures |RawText(raw)| == 32
    ensures WordAt(RawText(raw), i) == Some(Word(raw[4 * i..4 * i + 4]))
  {
    RawTextSlice(raw, 4 * i, 4 * i + 4);
    var word := raw[4 * i..4 * i + 4];
    WordText(word);
    EightDigitsFit();
    ScanPrinted(Word(word), 8, "");
    assert Print(Word(word), 8) + "" == RawText(raw)[8 * i..8 * i + 8];
  }

  lemma GidIsReadable(raw: seq<Byte>)
    requires |raw| == 16
    ensures Readable(RawText(raw))
  {
    ReadWord(raw, 0);
    forall i | 0 <= i < 4
      ensures WordAt(RawText(raw), i).Some?
    {
      ReadWord(raw, i);
    }
  }

  lemma {:induction false} ReadWords(raw: seq<Byte>, junk: nat, n: nat)
    requires |raw| == 16 && n <= 4 && junk < 0x1_0000_0000
    ensures Readable(RawText(raw))
    ensures BytesOf(RawText(raw), junk, n) == raw[..4 * n]
  {
    GidIsReadable(raw);
    if n == 0 {
      assert raw[..0] == [];
    } else {
      ReadWords(raw, junk, n - 1);
      ReadWord(raw, n - 1);
      var word := raw[4 * (n - 1)..4 * (n - 1) + 4];
      StoreWord(word);
      assert raw[..4 * n] == raw[..4 * (n - 1)] + word;
    }
  }

  /** The text of a GID restores all its bytes. */
  lemma {:induction false} GidRoundTrip(raw: seq<Byte>, junk: nat)
    requires |raw| == 16 && junk < 0x1_0000_0000
    ensures Readable(RawText(raw)) && BytesOf(RawText(raw), junk, 4) == raw
  {
    ReadWords(raw, junk, 4);
    assert raw[..16] == raw;
  }
}
