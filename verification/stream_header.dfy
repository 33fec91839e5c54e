/** The fixed header of a stream packet. */
module StreamHeader {
  import opened Wrappers
  import opened Words

  const HEADER_LEN: nat := 20

  const MAGIC: U16 := 0x4C48

  const VERSION: Byte := 3

  datatype Header = Header(
    sources: Byte, sequence: U32, firstIndex: U32, dropped: U32, decimation: U16, records: U16)

  function Encoded(h: Header): (wire: seq<Byte>)
    ensures |wire| == HEADER_LEN
  {
    Le16(MAGIC) + [VERSION, h.sources] + Le32(h.sequence) + Le32(h.firstIndex) + Le32(h.dropped) +
    Le16(h.decimation) + Le16(h.records)
  }

  function Decoded(wire: seq<Byte>): Option<Header> {
    if |wire| < HEADER_LEN || wire[0..2] != Le16(MAGIC) || wire[2] != VERSION then None
    else Some(Header(wire[3], FromLe32(wire[4..8]), FromLe32(wire[8..12]), FromLe32(wire[12..16]),
                     FromLe16(wire[16..18]), FromLe16(wire[18..20])))
  }

  /** Write the header over the front of the buffer. */
  method Encode(h: Header, buf: array<Byte>)
    requires buf.Length >= HEADER_LEN
    modifies buf
    ensures buf[..] == Encoded(h) + old(buf[HEADER_LEN..])
  {
    var wire := Encoded(h);
    forall i | 0 <= i < HEADER_LEN {
      buf[i] := wire[i];
    }
  }

  /** A header byte by byte: the letters HL, version 3, and the fields with their least
      significant byte first. */
  lemma HeaderLayout(h: Header)
    ensures
      var wire := Encoded(h);
      && |wire| == 20 && wire[..4] == [0x48, 0x4C, 3, h.sources]
      && FourBytes(wire, 4) == h.sequence && FourBytes(wire, 8) == h.firstIndex && FourBytes(wire, 12) == h.dropped
      && TwoBytes(wire, 16) == h.decimation && TwoBytes(wire, 18) == h.records
  {
    var wire := Encoded(h);
    WordLayout(h.sequence);
    WordLayout(h.firstIndex);
    WordLayout(h.dropped);
    hide Le32;
    assert wire[4..8] == Le32(h.sequence) && wire[8..12] == Le32(h.firstIndex) && wire[12..16] == Le32(h.dropped);
    SliceAt(wire, 4);
    SliceAt(wire, 8);
    SliceAt(wire, 12);
  }

  ghost function TwoBytes(wire: seq<Byte>, at: nat): int
    requires at + 2 <= |wire|
  {
    wire[at] as int + 256 * (wire[at + 1] as int)
  }

  ghost function FourBytes(wire: seq<Byte>, at: nat): int
    requires at + 4 <= |wire|
  {
    TwoBytes(wire, at) + 65536 * TwoBytes(wire, at + 2)
  }

  lemma WordLayout(x: U32)
    ensures FourBytes(Le32(x), 0) == x
  {}

  lemma SliceAt(wire: seq<Byte>, at: nat)
    requires at + 4 <= |wire|
    ensures FourBytes(wire[at..at + 4], 0) == FourBytes(wire, at)
  {}

  /** What follows the header never changes what is read from it. */
  lemma HeaderRoundTrip(h: Header, payload: seq<Byte>)
    ensures Decoded(Encoded(h) + payload) == Some(h)
  {
    hide Le16, Le32, FromLe16, FromLe32;
    var wire := Encoded(h) + payload;
    assert wire[0..2] == Le16(MAGIC);
    assert wire[4..8] == Le32(h.sequence) && wire[8..12] == Le32(h.firstIndex) && wire[12..16] == Le32(h.dropped);
    assert wire[16..18] == Le16(h.decimation) && wire[18..20] == Le16(h.records);
    Le32RoundTrip(h.sequence);
    Le32RoundTrip(h.firstIndex);
    Le32RoundTrip(h.dropped);
    Le16RoundTrip(h.decimation);
    Le16RoundTrip(h.records);
  }

  /** A wire that decodes is the encoding of what it decodes to. */
  lemma HeaderIsCanonical(wire: seq<Byte>)
    requires Decoded(wire).Some?
    ensures wire == Encoded(Decoded(wire).value) + wire[HEADER_LEN..]
  {
    hide Le16, Le32, FromLe16, FromLe32;
    FromLe32RoundTrip(wire[4..8]);
    FromLe32RoundTrip(wire[8..12]);
    FromLe32RoundTrip(wire[12..16]);
    FromLe16RoundTrip(wire[16..18]);
    FromLe16RoundTrip(wire[18..20]);
    assert wire[..HEADER_LEN] == wire[0..2] + [wire[2], wire[3]] + wire[4..8] + wire[8..12] + wire[12..16] +
                                 wire[16..18] + wire[18..20];
    assert wire == wire[..HEADER_LEN] + wire[HEADER_LEN..];
  }
}
