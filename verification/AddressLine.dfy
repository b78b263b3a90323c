/**
 The address line the two ends exchange for each QP: `"%04x:%06x:%06x:%s"` with the LID,
 the QP number, the first packet sequence number and the GID's text.
 */
module AddressLine {
  import opened Basics
  import opened Hex
  import opened ByteText
  import opened Gid

  datatype Address = Address(lid: nat, qpn: nat, psn: nat, gid: seq<Byte>)

  // What fits the fields of the line, and what the fabric gives: 16, 24 and 24 bits.
  predicate InRange(a: Address) {
    a.lid < 0x1_0000 && a.qpn < 0x100_0000 && a.psn < 0x100_0000
  }

  function Format(a: Address): string {
    Print(a.lid, 4) + (":" + (Print(a.qpn, 6) + (":" + (Print(a.psn, 6) + (":" + RawText(a.gid))))))
  }

  // The buffer as sent: the line and its terminator.
  function Message(a: Address): string {
    Format(a) + "\0"
  }

  predicate EndsToken(ch: char) {
    ch == '\0' || ch == ' ' || '\t' <= ch <= '\r'
  }

  // `%s`: everything up to white space or the terminator.
  function Token(s: string): string {
    if s == "" || EndsToken(s[0]) then "" else [s[0]] + Token(s[1..])
  }

  // `%x:`
  function Field(s: string): Option<(nat, string)> {
    match Scan(s)
    case Some(scanned) =>
      if scanned.1 != "" && scanned.1[0] == ':' then Some((scanned.0, scanned.1[1..])) else None
    case None => None
  }

  // `sscanf(msg, "%x:%x:%x:%s", ...)` and `wire_gid_to_gid`; nothing when a part is missing.
  function Parse(msg: string): Option<Address> {
    match Field(msg)
    case None => None
    case Some(lid) =>
      match Field(lid.1)
      case None => None
      case Some(qpn) =>
        match Field(qpn.1)
        case None => None
        case Some(psn) =>
          var gid := Token(psn.1);
          if |gid| == 32 && Readable(gid) then
            Some(Address(lid.0, qpn.0, psn.0, BytesOf(gid, 0, 4)))
          else None
  }

  lemma FieldPrinted(v: nat, width: nat, rest: string)
    requires 1 <= width && v < Pow16(width) && v < 0x1_0000_0000
    ensures Field(Print(v, width) + (":" + rest)) == Some((v, rest))
  {
    ScanPrinted(v, width, ":" + rest);
    assert (":" + rest)[1..] == rest;
  }

  lemma {:induction false} TokenStops(text: string, rest: string)
    requires forall i :: 0 <= i < |text| ==> !EndsToken(text[i])
    requires rest != "" && EndsToken(rest[0])
    ensures Token(text + rest) == text
  {
    if text == "" {
      assert text + rest == rest;
    } else {
      assert (text + rest)[1..] == text[1..] + rest;
      TokenStops(text[1..], rest);
    }
  }

  lemma {:induction false} RawTextIsHex(raw: seq<Byte>)
    ensures AllHex(RawText(raw))
  {
    if raw != [] {
      RawTextIsHex(raw[..|raw| - 1]);
      FixedIsHex(raw[|raw| - 1] as nat, 2);
    }
  }

  lemma HexIsNoSpace(text: string)
    requires AllHex(text)
    ensures forall i :: 0 <= i < |text| ==> !EndsToken(text[i])
  {
    forall i | 0 <= i < |text|
      ensures !EndsToken(text[i])
    {
      assert IsHexDigit(text[i]);
    }
  }

  lemma TokenOfGid(raw: seq<Byte>)
    requires |raw| == 16
    ensures Token(RawText(raw) + "\0") == RawText(raw) && |RawText(raw)| == 32
  {
    RawTextIsHex(raw);
    HexIsNoSpace(RawText(raw));
    TokenStops(RawText(raw), "\0");
    RawTextLength(raw);
  }

  lemma FieldWidths()
    ensures Pow16(4) == 0x1_0000 && Pow16(6) == 0x100_0000
  {
    assert Pow16(2) == 256;
    assert Pow16(4) == 256 * Pow16(2);
  }

  /** Parsing the line an end sent gives the address it sent. */
  lemma AddressRoundTrip(a: Address)
    requires InRange(a) && |a.gid| == 16
    ensures Parse(Message(a)) == Some(a)
  {
    FieldWidths();
    var gid := RawText(a.gid) + "\0";
    var psn := Print(a.psn, 6) + (":" + gid);
    var qpn := Print(a.qpn, 6) + (":" + psn);
    assert Message(a) == Print(a.lid, 4) + (":" + qpn);
    FieldPrinted(a.lid, 4, qpn);
    FieldPrinted(a.qpn, 6, psn);
    FieldPrinted(a.psn, 6, gid);
    TokenOfGid(a.gid);
    GidRoundTrip(a.gid, 0);
  }

  /**
   Where the fields of a line stand: four digits of LID, six of QP number, six of packet
   sequence number and the bytes of the GID, with colons between them.
   */
  lemma LineFields(a: Address)
    requires InRange(a) && |a.gid| == 16
    ensures |Format(a)| == 51
    ensures Format(a)[0..4] == Print(a.lid, 4)
    ensures Format(a)[5..11] == Print(a.qpn, 6)
    ensures Format(a)[12..18] == Print(a.psn, 6)
    ensures Format(a)[19..] == RawText(a.gid)
    ensures Format(a)[4] == Format(a)[11] == Format(a)[18] == ':'
  {
    LineLength(a);
    FieldWidths();
    PrintLength(a.lid, 4);
    PrintLength(a.qpn, 6);
    PrintLength(a.psn, 6);
    RawTextLength(a.gid);
  }

  /** Distinct addresses print differently. */
  lemma LinesAreDistinct(a: Address, b: Address)
    requires InRange(a) && |a.gid| == 16
    requires InRange(b) && |b.gid| == 16
    requires a != b
    ensures Format(a) != Format(b)
  {
    AddressRoundTrip(a);
    AddressRoundTrip(b);
  }

  /**
   The line fills its buffer of 51 characters and a terminator exactly, if and only if
   every field is in range; otherwise it is longer than the buffer.
   */
  lemma LineLength(a: Address)
    requires |a.gid| == 16
    ensures |Message(a)| == 52 <==> InRange(a)
    ensures |Message(a)| >= 52
  {
    FieldWidths();
    PrintLength(a.lid, 4);
    PrintLength(a.qpn, 6);
    PrintLength(a.psn, 6);
    RawTextLength(a.gid);
  }
}
