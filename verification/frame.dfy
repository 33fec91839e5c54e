/** Control-channel framing: magic, type, sequence, length, payload, CRC. */
module Frame {
  import opened Wrappers
  import opened Words
  import opened Crc

  const HEADER_LEN: nat := 6
  const TRAILER_LEN: nat := 2
  const MAX_PAYLOAD: nat := 1024

  const MAGIC: seq<Byte> := [0x48, 0x4C]

  datatype FrameError = BadMagic | BadCrc | TooLong | Truncated

  datatype Message = Message(msgType: Byte, sequence: Byte, payload: seq<Byte>)

  /** The bytes the CRC covers: type, sequence, length and payload. */
  function Covered(m: Message): seq<Byte>
    requires |m.payload| <= MAX_PAYLOAD
  {
    [m.msgType, m.sequence] + Le16(|m.payload|) + m.payload
  }

  function Sealed(covered: seq<Byte>): seq<Byte> {
    MAGIC + covered + Le16(CrcOf(covered))
  }

  function Encoded(m: Message): (frame: seq<Byte>)
    requires |m.payload| <= MAX_PAYLOAD
    ensures |frame| == HEADER_LEN + |m.payload| + TRAILER_LEN
  {
    Sealed(Covered(m))
  }

  function Decoded(frame: seq<Byte>): Result<Message, FrameError> {
    if |frame| < HEADER_LEN + TRAILER_LEN then Err(Truncated)
    else if frame[0..2] != MAGIC then Err(BadMagic)
    else
      var len: nat := FromLe16(frame[4..6]);
      if len > MAX_PAYLOAD then Err(TooLong)
      else if |frame| != HEADER_LEN + len + TRAILER_LEN then Err(Truncated)
      else
        if CrcOf(frame[2..HEADER_LEN + len]) != FromLe16(frame[HEADER_LEN + len..]) then Err(BadCrc)
        else Ok(Message(frame[2], frame[3], frame[HEADER_LEN..HEADER_LEN + len]))
  }

  /** Encode in place: on success the frame fills the front of the buffer and the rest is
      untouched; on failure nothing is written. */
  method Encode(buf: array<Byte>, m: Message) returns (r: Result<nat, FrameError>)
    modifies buf
    ensures
      if |m.payload| > MAX_PAYLOAD then r == Err(TooLong) && buf[..] == old(buf[..])
      else if buf.Length < HEADER_LEN + |m.payload| + TRAILER_LEN then r == Err(Truncated) && buf[..] == old(buf[..])
      else r == Ok(|Encoded(m)|) && buf[..] == Encoded(m) + old(buf[..])[|Encoded(m)|..]
  {
    hide CrcOf, Le16;
    var n := |m.payload|;
    var total := HEADER_LEN + n + TRAILER_LEN;
    if n > MAX_PAYLOAD {
      return Err(TooLong);
    }
    if buf.Length < total {
      return Err(Truncated);
    }
    ghost var was := buf[..];
    var start := [m.msgType, m.sequence] + Le16(n);
    Put(buf, 0, MAGIC);
    Put(buf, 2, start);
    Put(buf, HEADER_LEN, m.payload);
    PutThrice(was, MAGIC, start, m.payload);
    assert buf[..] == MAGIC + Covered(m) + was[HEADER_LEN + n..];
    assert buf[2..HEADER_LEN + n] == Covered(m);
    var crc := Crc16(buf[2..HEADER_LEN + n]);
    Put(buf, HEADER_LEN + n, Le16(crc));
    r := Ok(total);
  }

  lemma PutThrice(data: seq<Byte>, a: seq<Byte>, b: seq<Byte>, c: seq<Byte>)
    requires |a| + |b| + |c| <= |data|
    ensures Replaced(Replaced(Replaced(data, 0, a), |a|, b), |a| + |b|, c) == a + (b + c) + data[|a| + |b| + |c|..]
  {}

  /** A frame byte by byte: the letters HL, type, sequence, length and payload, and the CRC of
      all between the letters and itself, numbers with their least significant byte first. */
  lemma FrameLayout(m: Message)
    requires |m.payload| <= 1024
    ensures
      var frame, n := Encoded(m), |m.payload|;
      && |frame| == n + 8
      && frame[..6] == [0x48, 0x4C, m.msgType, m.sequence, n % 256, n / 256]
      && frame[6..n + 6] == m.payload
      && frame[n + 6] as int + 256 * (frame[n + 7] as int) == CrcOf(frame[2..n + 6])
  {
    hide CrcOf;
    var frame, n := Encoded(m), |m.payload|;
    assert frame[2..n + 6] == Covered(m);
  }

  /** Why a frame is refused, in the order of the checks. */
  lemma RefusedFor(frame: seq<Byte>)
    ensures
      var length: int := if |frame| >= 8 then frame[4] as int + 256 * (frame[5] as int) else 0;
      var covered := if 6 + length <= |frame| && |frame| >= 8 then frame[2..6 + length] else [];
      && (|frame| < 8 ==> Decoded(frame) == Err(Truncated))
      && (|frame| >= 8 && frame[..2] != [0x48, 0x4C] ==> Decoded(frame) == Err(BadMagic))
      && (|frame| >= 8 && frame[..2] == [0x48, 0x4C] ==>
            && (length > 1024 ==> Decoded(frame) == Err(TooLong))
            && (length <= 1024 && |frame| != 8 + length ==> Decoded(frame) == Err(Truncated))
            && (length <= 1024 && |frame| == 8 + length ==>
                  (Decoded(frame).Ok? <==> CrcOf(covered) == frame[6 + length] as int + 256 * (frame[7 + length] as int))
                  && (Decoded(frame).Err? ==> Decoded(frame) == Err(BadCrc))))
  {
    hide CrcOf;
  }

  /** A frame decodes to a message exactly when it is that message's encoding. */
  lemma DecodeIffEncode(frame: seq<Byte>, m: Message)
    ensures Decoded(frame) == Ok(m) <==> |m.payload| <= MAX_PAYLOAD && frame == Encoded(m)
  {
    if |m.payload| <= MAX_PAYLOAD && frame == Encoded(m) {
      EncodedDecodes(m);
    }
    if Decoded(frame) == Ok(m) {
      DecodedIsEncoding(frame);
    }
  }

  lemma EncodedParts(m: Message)
    requires |m.payload| <= MAX_PAYLOAD
    ensures
      var frame, n := Encoded(m), |m.payload|;
      && frame[0..2] == MAGIC && frame[2..HEADER_LEN + n] == Covered(m)
      && frame[2] == m.msgType && frame[3] == m.sequence && frame[4..6] == Le16(n)
      && frame[HEADER_LEN..HEADER_LEN + n] == m.payload
      && frame[HEADER_LEN + n..] == Le16(CrcOf(Covered(m)))
  {
    hide CrcOf, Le16;
  }

  lemma EncodedDecodes(m: Message)
    requires |m.payload| <= MAX_PAYLOAD
    ensures Decoded(Encoded(m)) == Ok(m)
  {
    EncodedParts(m);
    Le16RoundTrip(|m.payload|);
    Le16RoundTrip(CrcOf(Covered(m)));
    hide CrcOf, Le16, FromLe16, Encoded, Covered;
  }

  lemma DecodedIsEncoding(frame: seq<Byte>)
    requires Decoded(frame).Ok?
    ensures |Decoded(frame).value.payload| <= MAX_PAYLOAD && frame == Encoded(Decoded(frame).value)
  {
    hide CrcOf, Le16, FromLe16;
    var m := Decoded(frame).value;
    var n := |m.payload|;
    FromLe16RoundTrip(frame[4..6]);
    FromLe16RoundTrip(frame[HEADER_LEN + n..]);
    assert frame[2..HEADER_LEN + n] == [frame[2], frame[3]] + frame[4..6] + frame[HEADER_LEN..HEADER_LEN + n];
    assert frame == frame[0..2] + frame[2..HEADER_LEN + n] + frame[HEADER_LEN + n..];
  }

  // ---------------------------------------------------------------------------
  // Corruption
  // ---------------------------------------------------------------------------

  /** The frames agree everywhere except possibly in `[lo, hi)`. */
  ghost predicate DiffersOnlyIn(a: seq<Byte>, b: seq<Byte>, lo: nat, hi: nat) {
    |a| == |b| && forall i :: 0 <= i < |a| && !(lo <= i < hi) ==> a[i] == b[i]
  }

  /** A frame is accepted only with the CRC of what it covers. */
  lemma CrcIsChecked(m: Message, frame: seq<Byte>)
    requires |m.payload| <= MAX_PAYLOAD && |frame| == |Encoded(m)| && Decoded(frame).Ok?
    requires frame[|frame| - 2..] == Encoded(m)[|frame| - 2..]
    ensures CrcOf(frame[2..|frame| - 2]) == CrcOf(Encoded(m)[2..|frame| - 2])
  {
    DecodedIsEncoding(frame);
    var other := Decoded(frame).value;
    EncodedParts(other);
    EncodedParts(m);
    Le16RoundTrip(CrcOf(Covered(m)));
    Le16RoundTrip(CrcOf(Covered(other)));
    hide CrcOf, Le16, Decoded, Encoded, Covered;
    assert |other.payload| == |m.payload|;
  }

  lemma SplitPair(data: seq<Byte>, i: nat, end: nat)
    requires 2 <= i && i + 2 <= end <= |data|
    ensures data[2..end] == data[2..i] + [data[i], data[i + 1]] + data[i + 2..end]
  {}

  /** Two frames that differ only in a pair of bytes share what lies before and behind it. */
  lemma PairDiffers(a: seq<Byte>, b: seq<Byte>, i: nat, end: nat)
    requires 2 <= i && i + 2 <= end <= |a| && a != b && DiffersOnlyIn(a, b, i, i + 2)
    ensures a[2..end] == a[2..i] + [a[i], a[i + 1]] + a[i + 2..end]
    ensures b[2..end] == a[2..i] + [b[i], b[i + 1]] + a[i + 2..end]
    ensures a[i] != b[i] || a[i + 1] != b[i + 1]
  {
    SplitPair(a, i, end);
    SplitPair(b, i, end);
    assert b[2..i] == a[2..i];
    assert b[i + 2..end] == a[i + 2..end];
  }

  /** Corruption confined to two adjacent bytes from the type to the end of the payload is
      rejected, for every payload length. */
  lemma AdjacentCorruptionRejected(m: Message, frame: seq<Byte>, i: nat)
    requires |m.payload| <= MAX_PAYLOAD && frame != Encoded(m)
    requires 2 <= i && i + 2 <= |Encoded(m)| - TRAILER_LEN
    requires DiffersOnlyIn(Encoded(m), frame, i, i + 2)
    ensures Decoded(frame).Err?
  {
    if Decoded(frame).Ok? {
      var good := Encoded(m);
      var n := |good|;
      EncodedParts(m);
      assert frame[n - 2..] == good[n - 2..];
      CrcIsChecked(m, frame);
      hide *;
      PairDiffers(good, frame, i, n - 2);
      TwoBytesDetected(good[2..i], good[i], good[i + 1], frame[i], frame[i + 1], good[i + 2..n - 2]);
    }
  }

  /** A frame with exactly one corrupted byte, anywhere in it, is rejected. */
  lemma SingleCorruptionRejected(m: Message, frame: seq<Byte>, i: nat)
    requires |m.payload| <= MAX_PAYLOAD && i < |Encoded(m)|
    requires DiffersOnlyIn(Encoded(m), frame, i, i + 1) && frame[i] != Encoded(m)[i]
    ensures Decoded(frame).Err?
  {
    hide CrcOf, Le16, FromLe16;
    var good := Encoded(m);
    var n := |good|;
    if i < 2 {
      assert frame[0..2][i] == frame[i] && MAGIC[i] == good[i];
    } else if i + 2 < n {
      var j := if i + 1 < n - TRAILER_LEN then i else i - 1;
      AdjacentCorruptionRejected(m, frame, j);
    } else if Decoded(frame).Ok? {
      TrailerIsChecked(m, frame);
    }
  }

  /** The covered bytes determine the whole frame. */
  lemma TrailerIsChecked(m: Message, frame: seq<Byte>)
    requires |m.payload| <= MAX_PAYLOAD && |frame| == |Encoded(m)| && Decoded(frame).Ok?
    requires frame[2..|frame| - 2] == Encoded(m)[2..|frame| - 2]
    ensures frame == Encoded(m)
  {
    DecodedIsEncoding(frame);
    EncodedParts(Decoded(frame).value);
    EncodedParts(m);
    hide CrcOf, Le16, Decoded, Covered;
  }
}
