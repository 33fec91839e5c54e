/** Paged parameter discovery: the device's page encoder and the broker's page loop. */
module Discovery {
  import opened Wrappers
  import opened Words

  const MAX_NAME_LEN: nat := 23
  const PAGE_HEADER_LEN: nat := 4
  const MAX_PAYLOAD: nat := 1024

  datatype Definition = Definition(name: seq<Byte>, typeCode: Byte, count: U16, writable: bool)

  datatype PayloadError = InvalidText | InvalidIndex | TooLong

  /** Bytes of one element; zero for a code that names no type. */
  function ElementSize(code: Byte): nat {
    match code
    case 0x42 => 1
    case 0x62 => 1
    case 0x63 => 1
    case 0x48 => 2
    case 0x68 => 2
    case 0x49 => 4
    case 0x69 => 4
    case 0x66 => 4
    case _ => 0
  }

  /** The codes that name a type, and how many bytes an element takes: one for B, b and c, two
      for H and h, four for I, i and f. */
  lemma KnownTypes(code: Byte)
    ensures ElementSize(code) > 0 <==> code in [0x42, 0x62, 0x63, 0x48, 0x68, 0x49, 0x69, 0x66]
    ensures ElementSize(code) == 1 <==> code in [0x42, 0x62, 0x63]
    ensures ElementSize(code) == 2 <==> code in [0x48, 0x68]
    ensures ElementSize(code) == 4 <==> code in [0x49, 0x69, 0x66]
  {}

  /** What the encoder checks of a definition. */
  predicate TextOk(d: Definition) { |d.name| <= MAX_NAME_LEN && forall i :: 0 <= i < |d.name| ==> d.name[i] < 0x80 }

  /** What the registry's own validation and types guarantee. */
  predicate Registered(d: Definition) { TextOk(d) && ElementSize(d.typeCode) > 0 }

  /** What no one checks: a name that ends where it should, and at least one element. */
  predicate Discoverable(d: Definition) { 0 !in d.name && d.count > 0 }

  function Encoded(d: Definition): (bytes: seq<Byte>)
    ensures |bytes| == |d.name| + 5
  {
    d.name + [0, d.typeCode] + Le16(d.count) + [if d.writable then 1 else 0]
  }

  function AllEncoded(defs: seq<Definition>): seq<Byte> {
    if defs == [] then [] else AllEncoded(defs[..|defs| - 1]) + Encoded(defs[|defs| - 1])
  }

  // ---------------------------------------------------------------------------
  // Device: one page
  // ---------------------------------------------------------------------------

  /** Where a page of this room ends: before the first definition that does not fit. */
  function PageEnd(defs: seq<Definition>, start: nat, room: nat): (r: Result<nat, PayloadError>)
    requires start <= |defs|
    ensures r.Ok? ==> start <= r.value <= |defs|
    decreases |defs| - start
  {
    if start == |defs| then Ok(start)
    else if !TextOk(defs[start]) then Err(InvalidText)
    else if |Encoded(defs[start])| > room then Ok(start)
    else PageEnd(defs, start + 1, room - |Encoded(defs[start])|)
  }

  /** The payload of a device's response; nothing when it answers with an error instead. */
  function Answer(defs: seq<Definition>, start: nat): seq<Byte>
    requires |defs| < 0x1_0000
  {
    if start > |defs| then []
    else
      match PageEnd(defs, start, MAX_PAYLOAD - PAGE_HEADER_LEN)
      case Err(_) => []
      case Ok(end) => if end == start < |defs| then [] else Le16(start) + Le16(end) + AllEncoded(defs[start..end])
  }

  lemma ReplacedSlices(data: seq<Byte>, at: nat, bytes: seq<Byte>, lo: nat, hi: nat)
    requires lo <= hi <= |data| && at + |bytes| <= |data|
    ensures lo <= at && hi == at + |bytes| ==> Replaced(data, at, bytes)[lo..hi] == data[lo..at] + bytes
    ensures hi <= at || at + |bytes| <= lo ==> Replaced(data, at, bytes)[lo..hi] == data[lo..hi]
    ensures Replaced(data, at, bytes)[at..at + |bytes|] == bytes
  {}

  lemma Assembled(data: seq<Byte>, offset: nat)
    requires 4 <= offset <= |data|
    ensures data[..offset] == data[0..2] + data[2..4] + data[4..offset]
  {}

  /** Encode one page of complete definitions in place. On success the response begins with
      the echoed start and the next index, followed by exactly the definitions between them. */
  method EncodePage(out: array<Byte>, start: U16, defs: seq<Definition>) returns (r: Result<nat, PayloadError>)
    requires |defs| < 0x1_0000
    modifies out
    ensures start > |defs| ==> r == Err(InvalidIndex)
    ensures start <= |defs| && out.Length < PAGE_HEADER_LEN ==> r == Err(TooLong)
    ensures start <= |defs| && out.Length >= PAGE_HEADER_LEN ==>
      var end := PageEnd(defs, start, out.Length - PAGE_HEADER_LEN);
      if end.Err? then r == Err(end.error)
      else if end.value == start < |defs| then r == Err(TooLong)
      else
        && r.Ok? && r.value <= out.Length
        && out[..r.value] == Le16(start) + Le16(end.value) + AllEncoded(defs[start..end.value])
    ensures out.Length == MAX_PAYLOAD ==> (r.Err? <==> Answer(defs, start) == [])
    ensures out.Length == MAX_PAYLOAD && r.Ok? ==> r.value <= MAX_PAYLOAD && out[..r.value] == Answer(defs, start)
  {
    hide Le16, TextOk, Encoded;
    if start > |defs| {
      return Err(InvalidIndex);
    }
    if out.Length < PAGE_HEADER_LEN {
      return Err(TooLong);
    }
    var head := Le16(start);
    ReplacedSlices(out[..], 0, head, 0, 2);
    Put(out, 0, head);
    var next: nat := start;
    var offset := PAGE_HEADER_LEN;
    while next < |defs|
      invariant start <= next <= |defs| && PAGE_HEADER_LEN <= offset <= out.Length
      invariant PageEnd(defs, start, out.Length - PAGE_HEADER_LEN) == PageEnd(defs, next, out.Length - offset)
      invariant out[..][0..2] == head && out[..][PAGE_HEADER_LEN..offset] == AllEncoded(defs[start..next])
    {
      var d := defs[next];
      if !TextOk(d) {
        return Err(InvalidText);
      }
      var bytes := Encoded(d);
      if out.Length - offset < |bytes| {
        break;
      }
      ReplacedSlices(out[..], offset, bytes, PAGE_HEADER_LEN, offset + |bytes|);
      ReplacedSlices(out[..], offset, bytes, 0, 2);
      Put(out, offset, bytes);
      EncodedNext(defs, start, next);
      offset := offset + |bytes|;
      next := next + 1;
    }
    if next == start && start < |defs| {
      return Err(TooLong);
    }
    ReplacedSlices(out[..], 2, Le16(next), 0, 2);
    ReplacedSlices(out[..], 2, Le16(next), PAGE_HEADER_LEN, offset);
    Put(out, 2, Le16(next));
    assert out[..offset] == out[..][..offset];
    Assembled(out[..], offset);
    r := Ok(offset);
  }

  lemma EncodedNext(defs: seq<Definition>, start: nat, next: nat)
    requires start <= next < |defs|
    ensures AllEncoded(defs[start..next + 1]) == AllEncoded(defs[start..next]) + Encoded(defs[next])
  {
    assert defs[start..next + 1][..next - start] == defs[start..next];
  }

  // ---------------------------------------------------------------------------
  // Broker: parsing a page
  // ---------------------------------------------------------------------------

  /** What the broker keeps of a definition. */
  datatype Found = Found(index: nat, name: seq<Byte>, typeCode: Byte, count: U16)

  function FirstZero(data: seq<Byte>): (i: Option<nat>)
    ensures i.Some? ==> i.value < |data| && data[i.value] == 0 && 0 !in data[..i.value]
  {
    if data == [] then None
    else if data[0] == 0 then Some(0)
    else
      match FirstZero(data[1..])
      case None => None
      case Some(i) =>
        assert data[..i + 1] == [data[0]] + data[1..][..i];
        Some(i + 1)
  }

  predicate Continues(b: Byte) { 0x80 <= b < 0xC0 }

  /** Bytes of the well-formed UTF-8 sequence at the front, in the table of section 4 of
      RFC 3629; zero when there is none. */
  function CharLength(text: seq<Byte>): (n: nat)
    requires text != []
    ensures n <= |text|
  {
    var b: int := text[0];
    if b < 0x80 then 1
    else if 0xC2 <= b < 0xE0 then (if |text| >= 2 && Continues(text[1]) then 2 else 0)
    else if 0xE0 <= b < 0xF0 then
      if |text| >= 3 && Continues(text[1]) && Continues(text[2])
         && (b == 0xE0 ==> text[1] >= 0xA0) && (b == 0xED ==> text[1] < 0xA0) then 3 else 0
    else if 0xF0 <= b < 0xF5 then
      if |text| >= 4 && Continues(text[1]) && Continues(text[2]) && Continues(text[3])
         && (b == 0xF0 ==> text[1] >= 0x90) && (b == 0xF4 ==> text[1] < 0x90) then 4 else 0
    else 0
  }

  predicate Utf8(text: seq<Byte>)
    decreases |text|
  {
    text == [] || (CharLength(text) > 0 && Utf8(text[CharLength(text)..]))
  }

  /** A number that names a character. */
  predicate Scalar(c: int) { 0 <= c < 0xD800 || 0xE000 <= c < 0x11_0000 }

  /** Its bytes: one below 2^7, two below 2^11, three below 2^16 and four beyond; the first byte
      says how many, and six bits go into each of the others. */
  function Utf8Of(c: int): (bytes: seq<Byte>)
    requires Scalar(c)
    ensures bytes != []
  {
    if c < 0x80 then [c]
    else if c < 0x800 then [192 + c / 64, 128 + c % 64]
    else if c < 0x1_0000 then [224 + c / 4096, 128 + c / 64 % 64, 128 + c % 64]
    else [240 + c / 262144, 128 + c / 4096 % 64, 128 + c / 64 % 64, 128 + c % 64]
  }

  function AllUtf8(characters: seq<int>): seq<Byte>
    requires forall i :: 0 <= i < |characters| ==> Scalar(characters[i])
  {
    if characters == [] then [] else Utf8Of(characters[0]) + AllUtf8(characters[1..])
  }

  lemma LengthOfFirst(c: int, rest: seq<Byte>)
    requires Scalar(c)
    ensures CharLength(Utf8Of(c) + rest) == |Utf8Of(c)|
  {
    var text := Utf8Of(c) + rest;
    assert text[..|Utf8Of(c)|] == Utf8Of(c);
    if 0x800 <= c < 0x1_0000 {
      assert c / 64 / 64 == c / 4096;
    } else if c >= 0x1_0000 {
      assert c / 4096 / 64 == c / 262144;
    }
  }

  lemma Digits(w: nat, x: nat, y: nat, z: nat)
    requires x < 64 && y < 64 && z < 64
    ensures
      var c := 262144 * w + 4096 * x + 64 * y + z;
      c / 262144 == w && c / 4096 % 64 == x && c / 64 % 64 == y && c % 64 == z
      && (w == 0 ==> c / 4096 == x) && (w == 0 && x == 0 ==> c / 64 == y)
  {
    var c := 262144 * w + 4096 * x + 64 * y + z;
    assert c / 64 == 4096 * w + 64 * x + y;
    assert c / 4096 == 64 * w + x;
  }

  /** The character that the bytes at the front spell. */
  lemma FirstCharacter(text: seq<Byte>) returns (c: int)
    requires text != [] && CharLength(text) > 0
    ensures Scalar(c) && Utf8Of(c) == text[..CharLength(text)]
  {
    var n := CharLength(text);
    var b0: int := text[0];
    if n == 1 {
      c := b0;
    } else if n == 2 {
      c := TwoByteCharacter(text[..2]);
    } else if n == 3 {
      c := ThreeByteCharacter(text[..3]);
    } else {
      c := FourByteCharacter(text[..4]);
    }
    hide Utf8Of, Scalar;
  }

  lemma TwoByteCharacter(text: seq<Byte>) returns (c: int)
    requires |text| == 2 && CharLength(text) == 2
    ensures Scalar(c) && Utf8Of(c) == text
  {
    var b0: int, b1: int := text[0], text[1];
    Digits(0, 0, b0 - 192, b1 - 128);
    c := 64 * (b0 - 192) + (b1 - 128);
  }

  lemma ThreeByteCharacter(text: seq<Byte>) returns (c: int)
    requires |text| == 3 && CharLength(text) == 3
    ensures Scalar(c) && Utf8Of(c) == text
  {
    var b0: int, b1: int, b2: int := text[0], text[1], text[2];
    Digits(0, b0 - 224, b1 - 128, b2 - 128);
    c := 4096 * (b0 - 224) + 64 * (b1 - 128) + (b2 - 128);
  }

  lemma FourByteCharacter(text: seq<Byte>) returns (c: int)
    requires |text| == 4 && CharLength(text) == 4
    ensures Scalar(c) && Utf8Of(c) == text
  {
    var b0: int, b1: int, b2: int, b3: int := text[0], text[1], text[2], text[3];
    Digits(b0 - 240, b1 - 128, b2 - 128, b3 - 128);
    c := 262144 * (b0 - 240) + 4096 * (b1 - 128) + 64 * (b2 - 128) + (b3 - 128);
  }

  /** A text is UTF-8 exactly when it is the bytes of some characters. */
  lemma {:induction false} Utf8Exactly(text: seq<Byte>) returns (characters: seq<int>)
    ensures Utf8(text) ==>
      (forall i :: 0 <= i < |characters| ==> Scalar(characters[i])) && AllUtf8(characters) == text
    decreases |text|
  {
    hide CharLength, Utf8Of;
    characters := [];
    if Utf8(text) && text != [] {
      var n := CharLength(text);
      var c := FirstCharacter(text);
      var rest := Utf8Exactly(text[n..]);
      characters := [c] + rest;
      assert characters[1..] == rest && text == text[..n] + text[n..];
    }
  }

  lemma {:induction false} CharactersAreUtf8(characters: seq<int>)
    requires forall i :: 0 <= i < |characters| ==> Scalar(characters[i])
    ensures Utf8(AllUtf8(characters))
  {
    hide CharLength, Utf8Of;
    if characters != [] {
      var rest := AllUtf8(characters[1..]);
      CharactersAreUtf8(characters[1..]);
      LengthOfFirst(characters[0], rest);
      assert (Utf8Of(characters[0]) + rest)[|Utf8Of(characters[0])|..] == rest;
    }
  }

  lemma {:induction false} AsciiIsUtf8(text: seq<Byte>)
    requires forall i :: 0 <= i < |text| ==> text[i] < 0x80
    ensures Utf8(text)
  {
    if text != [] { AsciiIsUtf8(text[1..]); }
  }

  function FoundAt(data: seq<Byte>, end: nat, index: nat): Found
    requires end + 5 <= |data|
  {
    Found(index, data[..end], data[end + 1], FromLe16(data[end + 2..end + 4]))
  }

  /** Every definition in the bytes, numbered from `index`; `None` when they are malformed. */
  function Parsed(data: seq<Byte>, index: nat): Option<seq<Found>>
    decreases |data|
  {
    if data == [] then Some([])
    else
      match FirstZero(data)
      case None => None
      case Some(end) =>
        if end + 5 > |data| || data[end + 4] > 1 then None
        else
          var found := FoundAt(data, end, index);
          if !Utf8(found.name) || ElementSize(found.typeCode) == 0 || found.count == 0 then None
          else
            match Parsed(data[end + 5..], index + 1)
            case None => None
            case Some(rest) => Some([found] + rest)
  }

  /** The definitions found so far, in front of those still to come. */
  function Prepended(list: seq<Found>, rest: Option<seq<Found>>): Option<seq<Found>> {
    match rest
    case None => None
    case Some(found) => Some(list + found)
  }

  lemma PrependNothing(rest: Option<seq<Found>>)
    ensures Prepended([], rest) == rest
  {
    if rest.Some? { assert [] + rest.value == rest.value; }
  }

  lemma PrependOne(list: seq<Found>, one: Found, rest: Option<seq<Found>>)
    ensures Prepended(list, Prepended([one], rest)) == Prepended(list + [one], rest)
  {
    if rest.Some? { assert list + ([one] + rest.value) == list + [one] + rest.value; }
  }

  /** The broker's checks of the definition at the front. */
  function Front(data: seq<Byte>): (end: Option<nat>)
    ensures end.Some? ==> end.value + 5 <= |data|
  {
    match FirstZero(data)
    case None => None
    case Some(end) =>
      if end + 5 > |data| || data[end + 4] > 1 then None
      else if !Utf8(data[..end]) || ElementSize(data[end + 1]) == 0 || FromLe16(data[end + 2..end + 4]) == 0 then None
      else Some(end)
  }

  lemma ParsedStep(data: seq<Byte>, index: nat)
    requires data != []
    ensures Parsed(data, index) == match Front(data)
                                   case None => None
                                   case Some(end) => Prepended([FoundAt(data, end, index)], Parsed(data[end + 5..], index + 1))
  {
    hide FirstZero, ElementSize, FromLe16, Utf8;
  }

  /** `list` is what `data` yields before `offset`. */
  ghost predicate ParsedUpTo(data: seq<Byte>, start: nat, list: seq<Found>, offset: nat) {
    offset <= |data| && Parsed(data, start) == Prepended(list, Parsed(data[offset..], start + |list|))
  }

  lemma ParsedBegins(data: seq<Byte>, start: nat)
    ensures ParsedUpTo(data, start, [], 0)
  {
    hide Parsed;
    assert data[0..] == data;
    PrependNothing(Parsed(data, start));
  }

  lemma ParsedOneMore(data: seq<Byte>, start: nat, list: seq<Found>, offset: nat, end: nat)
    requires ParsedUpTo(data, start, list, offset) && offset < |data| && Front(data[offset..]) == Some(end)
    ensures ParsedUpTo(data, start, list + [FoundAt(data[offset..], end, start + |list|)], offset + end + 5)
  {
    hide Parsed, Front, FoundAt, Prepended;
    var rest := data[offset..];
    var one := FoundAt(rest, end, start + |list|);
    ParsedStep(rest, start + |list|);
    assert rest[end + 5..] == data[offset + end + 5..];
    PrependOne(list, one, Parsed(rest[end + 5..], start + |list| + 1));
  }

  lemma ParsedFails(data: seq<Byte>, start: nat, list: seq<Found>, offset: nat)
    requires ParsedUpTo(data, start, list, offset) && offset < |data| && Front(data[offset..]).None?
    ensures Parsed(data, start) == None
  {
    hide Parsed, Front;
    ParsedStep(data[offset..], start + |list|);
  }

  lemma ParsedEnds(data: seq<Byte>, start: nat, list: seq<Found>)
    requires ParsedUpTo(data, start, list, |data|)
    ensures Parsed(data, start) == Some(list)
  {
    hide Parsed;
    NothingParsed(start + |list|);
    assert data[|data|..] == [] && list + [] == list;
  }

  method ParsePage(data: seq<Byte>, start: nat) returns (found: Option<seq<Found>>)
    ensures found == Parsed(data, start)
  {
    hide ParsedUpTo, Parsed, Front, FoundAt;
    var list := [];
    var offset := 0;
    ParsedBegins(data, start);
    while offset < |data|
      invariant offset <= |data| && ParsedUpTo(data, start, list, offset)
    {
      var end := Front(data[offset..]);
      if end.None? {
        ParsedFails(data, start, list, offset);
        return None;
      }
      ParsedOneMore(data, start, list, offset, end.value);
      list := list + [FoundAt(data[offset..], end.value, start + |list|)];
      offset := offset + end.value + 5;
    }
    ParsedEnds(data, start, list);
    found := Some(list);
  }

  function Numbered(defs: seq<Definition>, index: nat): (found: seq<Found>)
    ensures |found| == |defs|
  {
    seq(|defs|, i requires 0 <= i < |defs| => Found(index + i, defs[i].name, defs[i].typeCode, defs[i].count))
  }

  /** Names are ended by the first zero byte, so only a name without one comes back. */
  lemma {:induction false} ZeroEndsName(name: seq<Byte>, behind: seq<Byte>)
    requires 0 !in name
    ensures FirstZero(name + [0] + behind) == Some(|name|)
  {
    var data := name + [0] + behind;
    if name == [] {
      assert data[0] == 0;
    } else {
      assert data[0] == name[0] && data[1..] == name[1..] + [0] + behind;
      ZeroEndsName(name[1..], behind);
    }
  }

  /** Where the fields of an encoded definition are, whatever follows it. */
  lemma EncodedParts(d: Definition, behind: seq<Byte>)
    requires 0 !in d.name
    ensures
      var data, end := Encoded(d) + behind, |d.name|;
      && end + 5 <= |data| && FirstZero(data) == Some(end) && data[..end] == d.name
      && data[end + 1] == d.typeCode && FromLe16(data[end + 2..end + 4]) == d.count && data[end + 4] <= 1
      && data[end + 5..] == behind
  {
    hide FirstZero, Le16, FromLe16;
    var data, end := Encoded(d) + behind, |d.name|;
    var tail := [d.typeCode] + Le16(d.count) + [if d.writable then 1 else 0] + behind;
    assert data == d.name + [0] + tail;
    ZeroEndsName(d.name, tail);
    assert data[end + 2..end + 4] == Le16(d.count);
    Le16RoundTrip(d.count);
  }

  lemma ParsedFirst(d: Definition, behind: seq<Byte>, index: nat)
    requires Registered(d) && Discoverable(d)
    ensures Parsed(Encoded(d) + behind, index)
         == Prepended([Found(index, d.name, d.typeCode, d.count)], Parsed(behind, index + 1))
  {
    hide FirstZero, ElementSize, FromLe16, Utf8, Encoded, Parsed, Prepended;
    EncodedParts(d, behind);
    AsciiIsUtf8(d.name);
    ParsedStep(Encoded(d) + behind, index);
  }

  ghost predicate AllDiscoverable(defs: seq<Definition>) {
    forall i :: 0 <= i < |defs| ==> Registered(defs[i]) && Discoverable(defs[i])
  }

  lemma {:induction false} EncodedFront(defs: seq<Definition>)
    requires defs != []
    ensures AllEncoded(defs) == Encoded(defs[0]) + AllEncoded(defs[1..])
  {
    hide Encoded;
    var n := |defs| - 1;
    if n == 0 {
      assert defs[..0] == [] && defs[1..] == [];
    } else {
      var rest, first, last := defs[1..], Encoded(defs[0]), Encoded(defs[n]);
      EncodedFront(defs[..n]);
      assert defs[..n][1..] == rest[..n - 1] && rest[n - 1] == defs[n] && |rest| == n;
      assert AllEncoded(rest) == AllEncoded(rest[..n - 1]) + last;
      assert first + AllEncoded(rest[..n - 1]) + last == first + (AllEncoded(rest[..n - 1]) + last);
    }
  }

  /** Parsing inverts encoding, definition by definition. */
  lemma {:induction false} ParsedEncoded(defs: seq<Definition>, index: nat)
    requires AllDiscoverable(defs)
    ensures Parsed(AllEncoded(defs), index) == Some(Numbered(defs, index))
    decreases |defs|
  {
    hide Encoded, Parsed, Registered, Discoverable;
    if defs == [] {
      NothingParsed(index);
    } else {
      EncodedFront(defs);
      ParsedEncoded(defs[1..], index + 1);
      ParsedFirst(defs[0], AllEncoded(defs[1..]), index);
      var d := defs[0];
      assert Numbered(defs, index) == [Found(index, d.name, d.typeCode, d.count)] + Numbered(defs[1..], index + 1);
    }
  }

  lemma NothingParsed(index: nat)
    ensures Parsed([], index) == Some([])
  {}

  /** What the broker knows of a definition it accepts. */
  predicate Acceptable(found: Found) {
    0 !in found.name && Utf8(found.name) && ElementSize(found.typeCode) > 0 && found.count > 0
  }

  /** Whatever is parsed is acceptable, and numbered in order. */
  lemma {:induction false} ParsedIsAcceptable(data: seq<Byte>, index: nat)
    requires Parsed(data, index).Some?
    ensures
      var found := Parsed(data, index).value;
      forall i :: 0 <= i < |found| ==> Acceptable(found[i]) && found[i].index == index + i
    decreases |data|
  {
    hide ElementSize, FromLe16, Utf8;
    if data != [] {
      ParsedIsAcceptable(data[FirstZero(data).value + 5..], index + 1);
    }
  }

  // ---------------------------------------------------------------------------
  // The whole conversation
  // ---------------------------------------------------------------------------

  /** Every definition fits into an empty page. */
  lemma PageProgress(defs: seq<Definition>, start: nat)
    requires forall i :: 0 <= i < |defs| ==> Registered(defs[i])
    requires start < |defs|
    ensures PageEnd(defs, start, MAX_PAYLOAD - PAGE_HEADER_LEN).Ok?
    ensures PageEnd(defs, start, MAX_PAYLOAD - PAGE_HEADER_LEN).value > start
  {
    PageEndOk(defs, start + 1, MAX_PAYLOAD - PAGE_HEADER_LEN - |Encoded(defs[start])|);
  }

  lemma {:induction false} PageEndOk(defs: seq<Definition>, start: nat, room: nat)
    requires forall i :: 0 <= i < |defs| ==> Registered(defs[i])
    requires start <= |defs|
    ensures PageEnd(defs, start, room).Ok?
    decreases |defs| - start
  {
    if start < |defs| && |Encoded(defs[start])| <= room {
      PageEndOk(defs, start + 1, room - |Encoded(defs[start])|);
    }
  }

  predicate DistinctNames(found: seq<Found>) {
    forall i, j :: 0 <= i < j < |found| ==> found[i].name != found[j].name
  }

  /** The definitions of one response to a request from `start`, and the index to ask from
      next; `None` when the broker refuses it. */
  function PageRead(payload: seq<Byte>, start: nat, count: nat): (r: Option<(seq<Found>, nat)>)
    ensures r.Some? ==> start < r.value.1 <= count && |r.value.0| == r.value.1 - start
  {
    if |payload| < PAGE_HEADER_LEN then None
    else
      var next: nat := FromLe16(payload[2..4]);
      if FromLe16(payload[0..2]) != start || next <= start || next > count then None
      else
        match Parsed(payload[4..], start)
        case None => None
        case Some(list) => if start + |list| == next then Some((list, next)) else None
  }

  /** What asking page after page from `start` collects. No index is asked for twice, so a
      device is whatever it answers to each. */
  function Collected(count: nat, device: nat -> seq<Byte>, start: nat): Option<seq<Found>>
    requires start <= count
    decreases count - start
  {
    if start == count then Some([])
    else
      match PageRead(device(start), start, count)
      case None => None
      case Some((list, next)) => Prepended(list, Collected(count, device, next))
  }

  /** Ask for page after page from the returned index. The loop ends because every page that
      is not refused makes progress, whatever the device answers. */
  method Discover(count: nat, device: nat -> seq<Byte>) returns (r: Option<seq<Found>>)
    ensures r == match Collected(count, device, 0)
                 case None => None
                 case Some(found) => if DistinctNames(found) then Some(found) else None
  {
    hide PageRead, Prepended;
    var result := [];
    var start: nat := 0;
    PrependNothing(Collected(count, device, 0));
    while start < count
      invariant start <= count
      invariant Collected(count, device, 0) == Prepended(result, Collected(count, device, start))
    {
      var page := ReadPage(device(start), start, count);
      if page.None? {
        NothingCollected(result);
        return None;
      }
      PrependMore(result, page.value.0, Collected(count, device, page.value.1));
      result := result + page.value.0;
      start := page.value.1;
    }
    PrependToNothing(result);
    r := if DistinctNames(result) then Some(result) else None;
  }

  /** One response and its checks. */
  method ReadPage(payload: seq<Byte>, start: nat, count: nat) returns (r: Option<(seq<Found>, nat)>)
    ensures r == PageRead(payload, start, count)
  {
    hide Parsed;
    if |payload| < PAGE_HEADER_LEN {
      return None;
    }
    var returned, next := FromLe16(payload[0..2]), FromLe16(payload[2..4]);
    if returned != start || next <= start || next > count {
      return None;
    }
    var list := ParsePage(payload[4..], start);
    if list.None? || start + |list.value| != next {
      return None;
    }
    r := Some((list.value, next));
  }

  lemma NothingCollected(list: seq<Found>)
    ensures Prepended(list, None) == None
  {}

  lemma PrependToNothing(list: seq<Found>)
    ensures Prepended(list, Some([])) == Some(list)
  {
    assert list + [] == list;
  }

  lemma PrependMore(list: seq<Found>, more: seq<Found>, rest: Option<seq<Found>>)
    ensures Prepended(list, Prepended(more, rest)) == Prepended(list + more, rest)
  {
    if rest.Some? { assert list + (more + rest.value) == list + more + rest.value; }
  }

  /** Whatever a device answers, what is collected is one acceptable definition for every
      index, in order. */
  lemma {:induction false} CollectedIsComplete(count: nat, device: nat -> seq<Byte>, start: nat)
    requires start <= count && Collected(count, device, start).Some?
    ensures
      var found := Collected(count, device, start).value;
      && |found| == count - start
      && forall i :: 0 <= i < |found| ==> Acceptable(found[i]) && found[i].index == start + i
    decreases count - start
  {
    hide Parsed, Acceptable;
    if start < count {
      var (list, next) := PageRead(device(start), start, count).value;
      ParsedIsAcceptable(device(start)[4..], start);
      CollectedIsComplete(count, device, next);
    }
  }

  /** The page such a device encodes is what the broker reads. */
  lemma AnswerIsRead(defs: seq<Definition>, start: nat)
    requires start < |defs| < 0x1_0000 && AllDiscoverable(defs)
    ensures PageEnd(defs, start, MAX_PAYLOAD - PAGE_HEADER_LEN).Ok?
    ensures
      var end := PageEnd(defs, start, MAX_PAYLOAD - PAGE_HEADER_LEN).value;
      PageRead(Answer(defs, start), start, |defs|) == Some((Numbered(defs[start..end], start), end))
  {
    hide Registered, Encoded, AllEncoded, Parsed, PageEnd, Le16, FromLe16, Discoverable, Numbered;
    PageProgress(defs, start);
    var end := PageEnd(defs, start, MAX_PAYLOAD - PAGE_HEADER_LEN).value;
    var payload := Answer(defs, start);
    assert payload[0..2] == Le16(start) && payload[2..4] == Le16(end) && payload[4..] == AllEncoded(defs[start..end]);
    Le16RoundTrip(start);
    Le16RoundTrip(end);
    ParsedEncoded(defs[start..end], start);
    NumberedLength(defs[start..end], start);
  }

  lemma {:induction false} RegistryIsCollected(defs: seq<Definition>, start: nat)
    requires start <= |defs| < 0x1_0000 && AllDiscoverable(defs)
    ensures Collected(|defs|, i => Answer(defs, i), start) == Some(Numbered(defs[start..], start))
    decreases |defs| - start
  {
    hide PageRead, Answer, PageEnd, AllDiscoverable, Numbered;
    if start == |defs| {
      assert defs[start..] == [];
      NumberedLength([], start);
    } else {
      PageProgresses(defs, start);
      AnswerIsRead(defs, start);
      var end := PageEnd(defs, start, MAX_PAYLOAD - PAGE_HEADER_LEN).value;
      RegistryIsCollected(defs, end);
      assert defs[start..] == defs[start..end] + defs[end..];
      NumberedAppend(defs[start..end], defs[end..], start);
    }
  }

  lemma PageProgresses(defs: seq<Definition>, start: nat)
    requires start < |defs| && AllDiscoverable(defs)
    ensures PageEnd(defs, start, MAX_PAYLOAD - PAGE_HEADER_LEN).Ok?
    ensures start < PageEnd(defs, start, MAX_PAYLOAD - PAGE_HEADER_LEN).value <= |defs|
  {
    hide Registered, PageEnd;
    PageProgress(defs, start);
  }

  /** Discovery of a registry ends with the whole registry, in order, each definition exactly
      once, if and only if every name is free of zero bytes and every count is positive. */
  lemma RegistryIsDiscovered(defs: seq<Definition>)
    requires |defs| < 0x1_0000
    requires forall i :: 0 <= i < |defs| ==> Registered(defs[i])
    requires forall i, j :: 0 <= i < j < |defs| ==> defs[i].name != defs[j].name
    ensures Collected(|defs|, i => Answer(defs, i), 0) == Some(Numbered(defs, 0)) <==> AllDiscoverable(defs)
    ensures DistinctNames(Numbered(defs, 0))
  {
    hide Registered, Collected, Answer, Discoverable;
    NumberedDistinct(defs);
    assert defs[0..] == defs;
    if AllDiscoverable(defs) {
      RegistryIsCollected(defs, 0);
    } else if Collected(|defs|, i => Answer(defs, i), 0) == Some(Numbered(defs, 0)) {
      CollectedIsComplete(|defs|, i => Answer(defs, i), 0);
      FoundMeansDiscoverable(defs, Numbered(defs, 0));
      assert false;
    }
  }

  lemma NumberedLength(defs: seq<Definition>, index: nat)
    ensures |Numbered(defs, index)| == |defs|
    ensures defs == [] ==> Numbered(defs, index) == []
  {}

  lemma NumberedAppend(a: seq<Definition>, b: seq<Definition>, index: nat)
    ensures Numbered(a + b, index) == Numbered(a, index) + Numbered(b, index + |a|)
  {}

  lemma NumberedDistinct(defs: seq<Definition>)
    requires forall i, j :: 0 <= i < j < |defs| ==> defs[i].name != defs[j].name
    ensures DistinctNames(Numbered(defs, 0))
  {}

  lemma FoundMeansDiscoverable(defs: seq<Definition>, found: seq<Found>)
    requires found == Numbered(defs, 0)
    requires forall i :: 0 <= i < |defs| ==> Registered(defs[i])
    requires forall i :: 0 <= i < |found| ==> Acceptable(found[i])
    ensures AllDiscoverable(defs)
  {
    hide Registered, Utf8;
    forall i | 0 <= i < |defs| ensures Discoverable(defs[i]) {
      assert Acceptable(found[i]) && found[i].name == defs[i].name && found[i].count == defs[i].count;
    }
  }
}
