/** The sample streamer and the control task that configures it, interleaved. */
module StreamTask {
  import opened Wrappers
  import opened Words
  import opened StreamHeader
  import Params

  const MAX_PACKET: nat := 1472
  const MAX_SOURCES: nat := 24

  /** A record queue declared with 256 slots holds one item fewer. */
  const RING: nat := 255

  datatype Record = Record(index: U32, values: seq<U32>)

  /** What one session streams. */
  datatype Config = Config(sources: seq<Byte>, decimation: U16, count: U32, target: nat) {
    predicate Ok() { 0 < |sources| <= MAX_SOURCES && decimation > 0 }

    function RecordSize(): nat { 4 * |sources| }

    /** Far below what the packet's record count can hold, so its cap never applies. */
    function MaxRecords(): (n: nat)
      requires Ok()
      ensures 0 < n < 0x1_0000
    {
      DivisionBounds(MAX_PACKET - HEADER_LEN, RecordSize());
      (MAX_PACKET - HEADER_LEN) / RecordSize()
    }

    /** Whether the session wants this record. */
    predicate Wants(r: Record)
      requires decimation > 0
    {
      r.index % decimation == 0
    }
  }

  lemma DivisionBounds(a: nat, b: nat)
    requires 0 < b <= a
    ensures 0 < a / b <= a
    ensures Times(a / b, b) <= a
  {
    var q, r := a / b, a % b;
    assert a == q * b + r;
    TimesIsProduct(q, b);
    if q > 0 { MulAtLeast(b, q); }
  }

  function ValueAt(r: Record, source: Byte): U32 { if source < |r.values| then r.values[source] else 0 }

  /** The values of one record that the session selected, in its order. */
  function Selected(c: Config, r: Record): seq<U32> {
    seq(|c.sources|, i requires 0 <= i < |c.sources| => ValueAt(r, c.sources[i]))
  }

  /** A delivered record: the sample it is, and what it shows of it. */
  datatype Sample = Sample(index: U32, values: seq<U32>)

  function Projected(c: Config, r: Record): Sample { Sample(r.index, Selected(c, r)) }

  function AllProjected(c: Config, records: seq<Record>): seq<Sample> {
    seq(|records|, i requires 0 <= i < |records| => Projected(c, records[i]))
  }

  /** The records the session wants, in order. */
  function Kept(c: Config, records: seq<Record>): seq<Record>
    requires c.decimation > 0
  {
    if records == [] then []
    else
      var last := records[|records| - 1];
      Kept(c, records[..|records| - 1]) + if c.Wants(last) then [last] else []
  }

  /** A delivered sample shows the record's values at the selected sources, and zero for a
      source the record does not have. */
  ghost predicate Shows(c: Config, r: Record, sample: Sample) {
    && sample.index == r.index && |sample.values| == |c.sources|
    && forall k :: 0 <= k < |c.sources| ==>
         sample.values[k] == if c.sources[k] < |r.values| then r.values[c.sources[k]] else 0
  }

  /** The samples are the records at these positions, which are exactly the positions of the
      records whose index the decimation divides, each once and in order. */
  ghost predicate Decimates(c: Config, records: seq<Record>, samples: seq<Sample>, positions: seq<nat>)
    requires c.decimation > 0
  {
    && |positions| == |samples|
    && (forall j :: 0 <= j < |positions| ==>
          && positions[j] < |records| && records[positions[j]].index % c.decimation == 0
          && Shows(c, records[positions[j]], samples[j]))
    && (forall j, k :: 0 <= j < k < |positions| ==> positions[j] < positions[k])
    && (forall i: nat :: i < |records| && records[i].index % c.decimation == 0 ==> i in positions)
  }

  ghost predicate IsDecimation(c: Config, records: seq<Record>, samples: seq<Sample>)
    requires c.decimation > 0
  {
    exists positions: seq<nat> :: Decimates(c, records, samples, positions)
  }

  lemma {:induction false} KeptPositions(c: Config, records: seq<Record>) returns (positions: seq<nat>)
    requires c.decimation > 0
    ensures Decimates(c, records, AllProjected(c, Kept(c, records)), positions)
  {
    if records == [] {
      positions := [];
    } else {
      var n := |records| - 1;
      var before := KeptPositions(c, records[..n]);
      positions := before + if records[n].index % c.decimation == 0 then [n] else [];
      forall i: nat | i < |records| && records[i].index % c.decimation == 0 ensures i in positions {
        if i < n {
          assert records[..n][i] == records[i];
        } else {
          assert positions[|before|] == n;
        }
      }
    }
  }

  /** What is kept of any records, projected, is their decimation. */
  lemma KeptIsDecimation(c: Config, records: seq<Record>)
    requires c.decimation > 0
    ensures IsDecimation(c, records, AllProjected(c, Kept(c, records)))
  {
    var positions := KeptPositions(c, records);
  }

  // ---------------------------------------------------------------------------
  // Filling one packet
  // ---------------------------------------------------------------------------

  datatype Batch = Batch(ring: seq<Record>, kept: seq<Record>, remaining: nat)

  /** The packet is full, the ring is empty, or a finite session has all it asked for. */
  predicate Stops(c: Config, b: Batch)
    requires c.Ok()
  {
    |b.kept| >= c.MaxRecords() || b.ring == [] || (c.count != 0 && b.remaining == 0)
  }

  function Next(c: Config, b: Batch): Batch
    requires c.Ok() && !Stops(c, b)
  {
    if c.Wants(b.ring[0])
    then Batch(b.ring[1..], b.kept + [b.ring[0]], if c.count != 0 then b.remaining - 1 else b.remaining)
    else b.(ring := b.ring[1..])
  }

  function Filled(c: Config, b: Batch): Batch
    requires c.Ok()
    decreases |b.ring|
  {
    if Stops(c, b) then b else Filled(c, Next(c, b))
  }

  lemma {:induction false} FilledWithin(c: Config, b: Batch)
    requires c.Ok() && |b.kept| <= c.MaxRecords()
    ensures |Filled(c, b).kept| <= c.MaxRecords()
    decreases |b.ring|
  {
    hide Config.MaxRecords;
    if !Stops(c, b) { FilledWithin(c, Next(c, b)); }
  }

  /** A packet may hold exactly as many records as fit an unfragmented datagram. */
  lemma RoomForRecords(c: Config, n: nat)
    requires c.Ok()
    ensures n <= c.MaxRecords() <==> 20 + n * (4 * |c.sources|) <= 1472
  {
    QuotientIsRoom(1452, 4 * |c.sources|, n);
  }

  lemma QuotientIsRoom(room: nat, size: nat, n: nat)
    requires size > 0
    ensures n <= room / size <==> n * size <= room
  {
    var q, r := room / size, room % size;
    assert room == q * size + r && 0 <= r < size;
    if n <= q {
      MulMonotone(n, q, size);
    } else {
      MulMonotone(q + 1, n, size);
      assert (q + 1) * size == q * size + size;
    }
  }

  lemma MulMonotone(a: nat, b: nat, k: nat)
    requires a <= b
    ensures a * k <= b * k
  {}

  lemma FitsPacket(c: Config, n: nat)
    requires c.Ok() && n <= c.MaxRecords()
    ensures HEADER_LEN + Times(n, c.RecordSize()) <= MAX_PACKET
  {
    DivisionBounds(MAX_PACKET - HEADER_LEN, c.RecordSize());
    TimesMonotone(n, (MAX_PACKET - HEADER_LEN) / c.RecordSize(), c.RecordSize());
  }

  /** The wire form of projected records. */
  function Payload(records: seq<Sample>): seq<Byte> {
    if records == [] then [] else Payload(records[..|records| - 1]) + Params.BytesOf(records[|records| - 1].values)
  }

  lemma {:induction false} PayloadLength(c: Config, records: seq<Record>)
    ensures |Payload(AllProjected(c, records))| == Times(|records|, c.RecordSize())
  {
    if records != [] {
      var before := records[..|records| - 1];
      PayloadLength(c, before);
      assert AllProjected(c, records)[..|before|] == AllProjected(c, before);
    }
  }

  lemma PayloadNext(c: Config, records: seq<Record>, r: Record)
    ensures Payload(AllProjected(c, records + [r])) == Payload(AllProjected(c, records)) + Params.BytesOf(Selected(c, r))
  {
    assert AllProjected(c, records + [r])[..|records|] == AllProjected(c, records);
  }

  /** Copy the selected values of one record behind what the packet already holds. */
  method PutRecord(packet: array<Byte>, at: nat, c: Config, r: Record)
    requires at + c.RecordSize() <= packet.Length
    modifies packet
    ensures packet[..at + c.RecordSize()] == old(packet[..at]) + Params.BytesOf(Selected(c, r))
  {
    hide Le32;
    ghost var words := Selected(c, r);
    ghost var before := packet[..at];
    for slot := 0 to |c.sources|
      invariant packet[..at + 4 * slot] == before + Params.BytesOf(words[..slot])
    {
      var value := Le32(ValueAt(r, c.sources[slot]));
      PutWord(packet, at + 4 * slot, value);
      BytesOfNext(words, slot);
    }
    assert words[..|c.sources|] == words;
  }

  method PutWord(packet: array<Byte>, at: nat, bytes: seq<Byte>)
    requires |bytes| == 4 && at + 4 <= packet.Length
    modifies packet
    ensures packet[..at + 4] == old(packet[..at]) + bytes
  {
    packet[at], packet[at + 1], packet[at + 2], packet[at + 3] := bytes[0], bytes[1], bytes[2], bytes[3];
  }

  lemma {:induction false} BytesOfAppend(words: seq<U32>, w: U32)
    ensures Params.BytesOf(words + [w]) == Params.BytesOf(words) + Le32(w)
  {
    if words == [] {
      assert ([] + [w])[1..] == [];
    } else {
      assert (words + [w])[1..] == words[1..] + [w];
      BytesOfAppend(words[1..], w);
    }
  }

  lemma BytesOfNext(words: seq<U32>, i: nat)
    requires i < |words|
    ensures Params.BytesOf(words[..i + 1]) == Params.BytesOf(words[..i]) + Le32(words[i])
  {
    assert words[..i + 1] == words[..i] + [words[i]];
    BytesOfAppend(words[..i], words[i]);
  }

  lemma EmptyPayload(c: Config)
    ensures Times(0, c.RecordSize()) == 0 && Payload(AllProjected(c, [])) == []
  {}

  /** What draining leaves: the records kept are the decimation of those taken from the front
      of the ring, and none was left that there was room for and that was asked for. */
  ghost predicate Drained(c: Config, ring: seq<Record>, remaining: nat, b: Batch)
    requires c.Ok()
  {
    var n: int := |ring| - |b.ring|;
    && n >= 0 && b.ring == ring[n..] && IsDecimation(c, ring[..n], AllProjected(c, b.kept))
    && |b.kept| <= c.MaxRecords()
    && b.remaining as int == (if c.count != 0 then remaining - |b.kept| else remaining)
    && (b.ring == [] || |b.kept| == c.MaxRecords() || (c.count != 0 && b.remaining == 0))
  }

  lemma {:induction false} FilledDrains(c: Config, ring: seq<Record>, taken: seq<Record>, remaining: nat, b: Batch)
    requires c.Ok() && ring == taken + b.ring && b.kept == Kept(c, taken) && |b.kept| <= c.MaxRecords()
    requires b.remaining as int == if c.count != 0 then remaining - |b.kept| else remaining
    ensures Drained(c, ring, remaining, Filled(c, b))
    decreases |b.ring|
  {
    hide Config.MaxRecords, Config.Wants, AllProjected, IsDecimation;
    if Stops(c, b) {
      assert ring[..|taken|] == taken && ring[|taken|..] == b.ring;
      KeptIsDecimation(c, taken);
    } else {
      KeptNext(c, taken, b.ring[0]);
      FilledDrains(c, ring, taken + [b.ring[0]], remaining, Next(c, b));
    }
  }

  /** The inner drain loop: fill the packet buffer in place from the ring. */
  method FillPacket(packet: array<Byte>, c: Config, ring: seq<Record>, remaining: nat) returns (b: Batch)
    requires c.Ok() && packet.Length == MAX_PACKET
    requires c.count != 0 ==> remaining > 0
    modifies packet
    ensures b == Filled(c, Batch(ring, [], remaining))
    ensures HEADER_LEN + Times(|b.kept|, c.RecordSize()) <= MAX_PACKET
    ensures packet[HEADER_LEN..HEADER_LEN + Times(|b.kept|, c.RecordSize())] == Payload(AllProjected(c, b.kept))
    ensures Drained(c, ring, remaining, b)
  {
    EmptyPayload(c);
    hide Drained, IsDecimation, Filled, Projected, Payload, AllProjected, Times, Config.MaxRecords, Config.Wants;
    b := Batch(ring, [], remaining);
    while !Stops(c, b)
      invariant Filled(c, b) == Filled(c, Batch(ring, [], remaining))
      invariant |b.kept| <= c.MaxRecords()
      invariant HEADER_LEN + Times(|b.kept|, c.RecordSize()) <= MAX_PACKET
      invariant packet[HEADER_LEN..HEADER_LEN + Times(|b.kept|, c.RecordSize())] == Payload(AllProjected(c, b.kept))
      decreases |b.ring|
    {
      var r := b.ring[0];
      if c.Wants(r) {
        FitsPacket(c, |b.kept| + 1);
        TimesNext(|b.kept|, c.RecordSize());
        PutBehind(packet, c, b.kept, r);
      }
      FilledNext(c, b);
      b := Next(c, b);
    }
    FilledStops(c, b);
    FilledFromEmpty(c, ring, remaining);
  }

  lemma FilledNext(c: Config, b: Batch)
    requires c.Ok() && !Stops(c, b)
    ensures Filled(c, b) == Filled(c, Next(c, b))
  {}

  lemma FilledStops(c: Config, b: Batch)
    requires c.Ok() && Stops(c, b)
    ensures Filled(c, b) == b
  {}

  lemma FilledFromEmpty(c: Config, ring: seq<Record>, remaining: nat)
    requires c.Ok()
    ensures Drained(c, ring, remaining, Filled(c, Batch(ring, [], remaining)))
  {
    hide Drained, Filled;
    assert ring == [] + ring;
    FilledDrains(c, ring, [], remaining, Batch(ring, [], remaining));
  }

  lemma TimesNext(n: nat, size: nat)
    ensures Times(n + 1, size) == Times(n, size) + size
  {}

  method PutBehind(packet: array<Byte>, c: Config, kept: seq<Record>, r: Record)
    requires HEADER_LEN + Times(|kept| + 1, c.RecordSize()) <= packet.Length
    requires packet[HEADER_LEN..HEADER_LEN + Times(|kept|, c.RecordSize())] == Payload(AllProjected(c, kept))
    requires Times(|kept|, c.RecordSize()) <= Times(|kept| + 1, c.RecordSize())
    modifies packet
    ensures packet[HEADER_LEN..HEADER_LEN + Times(|kept| + 1, c.RecordSize())] == Payload(AllProjected(c, kept + [r]))
  {
    TimesNext(|kept|, c.RecordSize());
    hide Projected, Selected, Times, Payload, AllProjected;
    var at := HEADER_LEN + Times(|kept|, c.RecordSize());
    ghost var before := packet[..at];
    PutRecord(packet, at, c, r);
    PayloadNext(c, kept, r);
    assert packet[..at + c.RecordSize()][HEADER_LEN..] == before[HEADER_LEN..] + Params.BytesOf(Selected(c, r));
  }

  // ---------------------------------------------------------------------------
  // The two tasks, interleaved
  // ---------------------------------------------------------------------------

  /** Session state shared by the control server and the streamer. */
  datatype Stream = Stream(
    target: Option<nat>, enabled: bool, sources: seq<Byte>, decimation: U16, count: U32,
    generation: nat, connected: bool)

  /** The streamer waits for its ticker, fills a packet, or waits for the socket. */
  datatype Pc = Waiting | Filling(c: Config, kept: seq<Record>) | Sending(c: Config, kept: seq<Record>)

  datatype Packet = Packet(header: Header, records: seq<Sample>)

  /** What the session armed last was asked for, what lay in the ring when it was armed and
      what reached it since, what it took from the ring, and what it sent; a history that ends
      when the ring is discarded. */
  datatype Session = Session(
    c: Config, arrived: seq<Record>, taken: seq<Record>, sent: seq<Packet>, closed: bool)

  datatype System = System(
    stream: Stream, sequence: U32, remaining: nat, generation: nat, pc: Pc,
    ring: seq<Record>, session: Session)

  const NO_SESSION := Session(Config([], 1, 0, 0), [], [], [], false)

  const POWER_UP := System(Stream(None, false, [], 1, 0, 0, false), 0, 0, 0, Waiting, [], NO_SESSION)

  datatype Event =
    | Produce(r: Record)
    | Setup(decimation: U16, count: U32, sources: seq<Byte>)
    | Start(target: nat)
    | Stop
    | Connect
    | Disconnect
    | Streamer(dropped: U32)

  /** Requests of the control server; it runs only where the streamer awaits. */
  function Controlled(s: Stream, event: Event): Stream {
    match event
    case Setup(decimation, count, sources) =>
      if decimation == 0 || sources == [] || |sources| > MAX_SOURCES || s.enabled then s
      else s.(sources := sources, decimation := decimation, count := count)
    case Start(target) =>
      if s.sources == [] || !s.connected then s
      else s.(target := Some(target), enabled := true, generation := s.generation + 1)
    case Stop => s.(enabled := false)
    case Connect => s.(connected := true)
    case Disconnect => s.(enabled := false, connected := false)
    case _ => s
  }

  function ConfigOf(s: Stream): Config
    requires s.target.Some?
  {
    Config(s.sources, if s.decimation == 0 then 1 else s.decimation, s.count, s.target.value)
  }

  /** What the control server's requests do: a setup is taken while nothing streams, with a
      decimation and one to 24 sources; a start needs sources and a connection, and makes a new
      generation; a stop and a lost connection end streaming. */
  lemma ControlMeans(s: Stream, event: Event)
    ensures
      var t := Controlled(s, event);
      match event
      case Setup(decimation, count, sources) =>
        if !s.enabled && decimation > 0 && 1 <= |sources| <= 24
        then t == s.(decimation := decimation, count := count, sources := sources) else t == s
      case Start(target) =>
        if s.connected && |s.sources| > 0
        then t == s.(target := Some(target), enabled := true, generation := s.generation + 1) else t == s
      case Stop => !t.enabled && t.(enabled := s.enabled) == s
      case Connect => t.connected && t.(connected := s.connected) == s
      case Disconnect => !t.enabled && !t.connected && t.(enabled := s.enabled, connected := s.connected) == s
      case _ => t == s
  {}

  /** A wake that finds a new start arms its session: numbered from zero, counting down from its
      count, with its sources, decimation and target. One that finds nothing to stream empties
      the ring; any other fills a packet. */
  lemma WakeMeans(s: System)
    requires s.pc.Waiting?
    ensures
      var t, stream := Woken(s), s.stream;
      && t.stream == stream && t.generation == stream.generation
      && (stream.generation != s.generation ==> t.sequence == 0 && t.remaining == stream.count && t.session.sent == [])
      && (stream.generation == s.generation ==> t.sequence == s.sequence && t.remaining == s.remaining)
      && (if stream.enabled && stream.connected && stream.target.Some? then
            && t.ring == s.ring && t.pc.Filling? && t.pc.kept == []
            && t.pc.c.sources == stream.sources && t.pc.c.count == stream.count
            && t.pc.c.target == stream.target.value && (stream.decimation > 0 ==> t.pc.c.decimation == stream.decimation)
          else t.ring == [] && t.pc.Waiting?)
  {}

  /** A packet reports the records lost so far, as the wake that sends it finds them. */
  lemma PacketReportsLosses(s: System, dropped: U32)
    requires Inv(s) && s.pc.Filling? && s.pc.kept != []
    requires Stops(s.pc.c, Batch(s.ring, s.pc.kept, s.remaining))
    ensures
      var t := FillStep(s, dropped);
      && |t.session.sent| == |s.session.sent| + 1 && t.session.sent[|s.session.sent|].header.dropped == dropped
      && t.pc == Sending(s.pc.c, s.pc.kept) && t.ring == s.ring && t.remaining == s.remaining
  {
    hide Projected, Kept, Delivered, Config.Wants, Config.MaxRecords, Counts, Delivers, Contiguous;
  }

  /** A new generation re-arms the streamer before anything else. */
  function Armed(s: System): System {
    if s.stream.generation == s.generation then s
    else
      s.(generation := s.stream.generation, sequence := 0, remaining := s.stream.count,
         session := Session(if s.stream.target.Some? then ConfigOf(s.stream) else NO_SESSION.c, s.ring, [], [], false))
  }

  function Woken(s: System): System {
    var a := Armed(s);
    if a.stream.target.None? || !a.stream.enabled || !a.stream.connected then a.(ring := [], session := a.session.(closed := true))
    else a.(pc := Filling(ConfigOf(a.stream), []))
  }

  /** One record, or the end of the packet. */
  function FillStep(s: System, dropped: U32): System
    requires s.pc.Filling? && s.pc.c.Ok()
  {
    var c, kept := s.pc.c, s.pc.kept;
    var b := Batch(s.ring, kept, s.remaining);
    if !Stops(c, b) then
      var next := Next(c, b);
      s.(ring := next.ring, remaining := next.remaining, pc := Filling(c, next.kept),
         session := s.session.(taken := s.session.taken + [s.ring[0]]))
    else if kept == [] then s.(pc := Waiting)
    else
      var header := Header(|c.sources|, s.sequence, kept[0].index, dropped, c.decimation,
                           if |kept| < 0x1_0000 then |kept| else 0);
      s.(sequence := WrapAdd(s.sequence, 1), pc := Sending(c, kept),
         session := s.session.(sent := s.session.sent + [Packet(header, AllProjected(c, kept))]))
  }

  /** The socket took the packet, or dropped it. */
  function SentStep(s: System): System
    requires s.pc.Sending? && s.pc.c.Ok()
  {
    if s.pc.c.count != 0 && s.remaining == 0 then s.(stream := s.stream.(enabled := false), pc := Waiting)
    else if |s.pc.kept| < s.pc.c.MaxRecords() then s.(pc := Waiting)
    else s.(pc := Filling(s.pc.c, []))
  }

  ghost predicate PcOk(pc: Pc) {
    match pc
    case Waiting => true
    case Filling(c, _) => c.Ok()
    case Sending(c, _) => c.Ok()
  }

  function Step(s: System, event: Event): System
    requires PcOk(s.pc)
  {
    match event
    case Produce(r) =>
      if |s.ring| < RING then s.(ring := s.ring + [r], session := s.session.(arrived := s.session.arrived + [r]))
      else s
    case Streamer(dropped) =>
      (match s.pc
       case Waiting => Woken(s)
       case Filling(_, _) => FillStep(s, dropped)
       case Sending(_, _) => SentStep(s))
    case _ => if s.pc.Filling? then s else s.(stream := Controlled(s.stream, event))
  }

  // ---------------------------------------------------------------------------
  // Invariants
  // ---------------------------------------------------------------------------

  /** The configuration can be streamed whenever streaming is enabled. */
  predicate Configured(s: Stream) {
    && s.decimation > 0 && |s.sources| <= MAX_SOURCES
    && (s.generation > 0 <==> s.target.Some?)
    && (s.enabled ==> s.sources != [] && s.generation > 0 && s.connected)
  }

  /** Every value delivered so far. */
  function Delivered(packets: seq<Packet>): seq<Sample> {
    if packets == [] then [] else Delivered(packets[..|packets| - 1]) + packets[|packets| - 1].records
  }

  /** Records already in the packet being filled. */
  function Open(pc: Pc): seq<Record> { if pc.Filling? then pc.kept else [] }

  /** Packet `i` of a session. */
  ghost predicate PacketOk(c: Config, packet: Packet, i: nat) {
    && c.Ok()
    && 0 < |packet.records| <= c.MaxRecords()
    && packet.header.sources as int == |c.sources|
    && packet.header.decimation == c.decimation
    && packet.header.records as int == |packet.records|
    && packet.header.sequence as int == i % TWO32
    && packet.header.firstIndex == packet.records[0].index
  }

  ghost predicate Delivers(s: System) {
    var c, session := s.session.c, s.session;
    && c.decimation > 0
    && Delivered(session.sent) + AllProjected(c, Open(s.pc)) == AllProjected(c, Kept(c, session.taken))
    && (forall i :: 0 <= i < |session.sent| ==> PacketOk(c, session.sent[i], i))
    && s.sequence as int == |session.sent| % TWO32
  }

  /** A finite session counts down exactly what it has kept. */
  ghost predicate Counts(s: System) {
    var c := s.session.c;
    && c.decimation > 0
    && (c.count != 0 ==> s.remaining + |Kept(c, s.session.taken)| == c.count)
    && (s.pc.Filling? && c.count != 0 ==> s.remaining > 0 || s.pc.kept != [])
    && (s.pc.Waiting? && s.stream.enabled && s.stream.generation == s.generation && c.count != 0 ==> s.remaining > 0)
  }

  /** The streamer works on the session it armed, and an enabled stream still is that session
      unless a newer one has been started. */
  ghost predicate SameSession(s: System)
    requires PcOk(s.pc) && Configured(s.stream)
  {
    && s.generation <= s.stream.generation
    && (s.stream.enabled && s.stream.generation == s.generation ==> ConfigOf(s.stream) == s.session.c)
    && (s.pc.Filling? || s.pc.Sending? ==> s.pc.c == s.session.c && |s.pc.kept| <= s.pc.c.MaxRecords())
  }

  /** The session takes what reaches the ring, in order and without a gap, until it closes;
      a closed session never streams again. */
  ghost predicate Contiguous(s: System) {
    && (!s.session.closed ==> s.session.arrived == s.session.taken + s.ring)
    && s.session.taken <= s.session.arrived
    && (s.session.closed ==> s.pc.Waiting? && !(s.stream.enabled && s.stream.generation == s.generation))
  }

  ghost predicate Inv(s: System) {
    && PcOk(s.pc) && Configured(s.stream) && SameSession(s) && Delivers(s) && Counts(s) && Contiguous(s)
  }

  lemma KeptNext(c: Config, taken: seq<Record>, r: Record)
    requires c.decimation > 0
    ensures Kept(c, taken + [r]) == Kept(c, taken) + if c.Wants(r) then [r] else []
  {
    assert (taken + [r])[..|taken|] == taken;
  }

  lemma ProjectedAppend(c: Config, a: seq<Record>, b: seq<Record>)
    ensures AllProjected(c, a + b) == AllProjected(c, a) + AllProjected(c, b)
  {
    hide Projected;
  }

  lemma DeliveredNext(sent: seq<Packet>, packet: Packet)
    ensures Delivered(sent + [packet]) == Delivered(sent) + packet.records
  {
    assert (sent + [packet])[..|sent|] == sent;
  }

  lemma NextSequence(sequence: U32, n: nat)
    requires sequence as int == n % TWO32
    ensures WrapAdd(sequence, 1) as int == (n + 1) % TWO32
  {
    WrapAddIsMod(sequence, 1);
    SumOfRemainders(n, 1, TWO32);
  }

  /** Taking a record off the ring. */
  lemma TakeKeepsInv(s: System, dropped: U32)
    requires Inv(s) && s.pc.Filling? && !Stops(s.pc.c, Batch(s.ring, s.pc.kept, s.remaining))
    ensures Inv(FillStep(s, dropped))
  {
    hide Projected, Config.MaxRecords, Config.Wants, PacketOk, WrapAdd;
    var c, r := s.pc.c, s.ring[0];
    KeptNext(c, s.session.taken, r);
    ProjectedAppend(c, s.pc.kept, [r]);
    ProjectedAppend(c, Kept(c, s.session.taken), [r]);
    ProjectedAppend(c, [], [r]);
    assert s.pc.kept + [] == s.pc.kept;
    var d := Delivered(s.session.sent);
    assert d + (AllProjected(c, s.pc.kept) + AllProjected(c, [r])) == d + AllProjected(c, s.pc.kept) + AllProjected(c, [r]);
    assert s.session.taken + s.ring == s.session.taken + [r] + s.ring[1..];
  }

  lemma PacketIsOk(s: System, dropped: U32)
    requires Inv(s) && s.pc.Filling? && s.pc.kept != []
    requires Stops(s.pc.c, Batch(s.ring, s.pc.kept, s.remaining))
    ensures
      var t := FillStep(s, dropped);
      && |t.session.sent| == |s.session.sent| + 1
      && PacketOk(s.pc.c, t.session.sent[|s.session.sent|], |s.session.sent|)
  {
    hide Selected, Config.Wants, WrapAdd, Kept, Delivered, Counts, Contiguous;
  }

  /** Closing a packet. */
  lemma PacketKeepsInv(s: System, dropped: U32)
    requires Inv(s) && s.pc.Filling? && Stops(s.pc.c, Batch(s.ring, s.pc.kept, s.remaining))
    ensures Inv(FillStep(s, dropped))
  {
    hide Projected, Config.Wants, WrapAdd, Kept, Config.MaxRecords, PacketOk, Delivered;
    var t := FillStep(s, dropped);
    if s.pc.kept != [] {
      var sent := s.session.sent;
      NextSequence(s.sequence, |sent|);
      DeliveredNext(sent, t.session.sent[|sent|]);
      PacketIsOk(s, dropped);
      assert AllProjected(s.pc.c, []) == [];
    }
  }

  lemma WakeKeepsInv(s: System)
    requires Inv(s) && s.pc.Waiting?
    ensures Inv(Woken(s))
  {
    hide Projected, Config.MaxRecords, Config.Wants, PacketOk;
  }

  lemma SentKeepsInv(s: System)
    requires Inv(s) && s.pc.Sending?
    ensures Inv(SentStep(s))
  {
    hide Projected, Config.MaxRecords, Config.Wants, PacketOk, Kept, Delivered;
    assert AllProjected(s.session.c, []) == [];
  }

  lemma ControlKeepsInv(s: System, event: Event)
    requires Inv(s) && !s.pc.Filling? && !event.Produce? && !event.Streamer?
    ensures Inv(s.(stream := Controlled(s.stream, event)))
  {
    hide Projected, Config.MaxRecords, Config.Wants, PacketOk, Kept, Delivered;
  }

  lemma ProduceKeepsInv(s: System, r: Record)
    requires Inv(s)
    ensures Inv(Step(s, Produce(r)))
  {
    hide Projected, Config.MaxRecords, Config.Wants, PacketOk, Kept, Delivered;
    assert s.session.taken + (s.ring + [r]) == s.session.taken + s.ring + [r];
  }

  lemma StepKeepsInv(s: System, event: Event)
    requires Inv(s)
    ensures Inv(Step(s, event))
  {
    hide Delivers, Counts, Contiguous, SameSession, Configured, Woken, FillStep, SentStep, Controlled, Config.MaxRecords;
    match event {
      case Produce(r) => ProduceKeepsInv(s, r);
      case Streamer(dropped) =>
        match s.pc {
          case Waiting => WakeKeepsInv(s);
          case Sending(_, _) => SentKeepsInv(s);
          case Filling(c, kept) =>
            if Stops(c, Batch(s.ring, kept, s.remaining)) { PacketKeepsInv(s, dropped); } else { TakeKeepsInv(s, dropped); }
        }
      case _ => if !s.pc.Filling? { ControlKeepsInv(s, event); }
    }
  }

  lemma StepKeepsPcOk(s: System, event: Event)
    requires PcOk(s.pc) && Configured(s.stream)
    ensures PcOk(Step(s, event).pc) && Configured(Step(s, event).stream)
  {
    hide Config.MaxRecords, Stops, Next, Projected, WrapAdd;
  }

  /** The state after any interleaving of the two tasks with the arrival of records. */
  function Run(events: seq<Event>): (s: System)
    ensures PcOk(s.pc) && Configured(s.stream)
  {
    if events == [] then POWER_UP
    else
      StepKeepsPcOk(Run(events[..|events| - 1]), events[|events| - 1]);
      Step(Run(events[..|events| - 1]), events[|events| - 1])
  }

  lemma {:induction false} InvAlways(events: seq<Event>)
    ensures Inv(Run(events))
  {
    hide Inv, Step;
    if events == [] {
      PowerUpInv();
    } else {
      InvAlways(events[..|events| - 1]);
      StepKeepsInv(Run(events[..|events| - 1]), events[|events| - 1]);
    }
  }

  lemma PowerUpInv()
    ensures Inv(POWER_UP)
  {}

  /** In every interleaving of setups, starts, stops and disconnects with flushes: an enabled
      stream has sources and a target, and the countdown of a finite session is positive
      whenever a packet is begun, so it never underflows. */
  lemma {:induction false} EnabledIsConfigured(events: seq<Event>)
    ensures
      var s := Run(events);
      && (s.stream.enabled ==> s.stream.sources != [] && s.stream.target.Some?)
      && (s.pc.Filling? && s.pc.kept == [] && s.pc.c.count != 0 ==> s.remaining > 0)
  {
    InvAlways(events);
    var s := Run(events);
    hide Run;
  }

  /** From power-up nothing is streamed before a start has been asked for over a connection. */
  lemma {:induction false} NothingStreamsUnasked(events: seq<Event>)
    requires (forall i :: 0 <= i < |events| ==> !events[i].Start?) || Connect !in events
    ensures
      var s := Run(events);
      && !s.stream.enabled && s.pc.Waiting? && s.session.sent == [] && s.sequence == 0
      && (Connect !in events ==> !s.stream.connected)
  {
    if events != [] {
      var before, event := events[..|events| - 1], events[|events| - 1];
      assert event in events;
      NothingStreamsUnasked(before);
      hide Config.MaxRecords;
    }
  }

  /** What has been sent is the projection of the wanted records among those taken, and those
      taken are the first of the ring at arming and after; a finite session never exceeds its
      count. */
  ghost predicate SendsExactly(s: System) {
    var c := s.session.c;
    && c.decimation > 0
    && s.session.taken <= s.session.arrived
    && Delivered(s.session.sent) + AllProjected(c, Open(s.pc)) == AllProjected(c, Kept(c, s.session.taken))
    && IsDecimation(c, s.session.taken, Delivered(s.session.sent) + AllProjected(c, Open(s.pc)))
    && (c.count != 0 ==> |Delivered(s.session.sent)| + |Open(s.pc)| <= c.count)
    && (c.count != 0 && s.remaining == 0 ==> |Delivered(s.session.sent)| + |Open(s.pc)| == c.count)
  }

  /** A session sends exactly the first records, in order, of those that lay in the ring when it
      was armed or reached it since and whose index its decimation divides, projected onto its
      sources; a finite one never sends more than its count, and when its countdown ends it has
      sent exactly that. */
  lemma {:induction false} SessionsAreExact(events: seq<Event>)
    ensures SendsExactly(Run(events))
  {
    InvAlways(events);
    var s := Run(events);
    hide Run, Delivered;
    InvSends(s);
  }

  lemma InvSends(s: System)
    requires Inv(s)
    ensures SendsExactly(s)
  {
    hide Kept, Delivered, IsDecimation, Projected, PacketOk;
    KeptIsDecimation(s.session.c, s.session.taken);
    assert |AllProjected(s.session.c, Kept(s.session.c, s.session.taken))| == |Kept(s.session.c, s.session.taken)|;
  }

  /** A session's packets are numbered from zero, name their first record, announce what they
      hold, and fit the packet buffer. */
  lemma {:induction false} PacketsAreNumberedAndFit(events: seq<Event>, i: nat)
    requires i < |Run(events).session.sent|
    ensures
      var s := Run(events).session;
      && PacketOk(s.c, s.sent[i], i)
      && HEADER_LEN + Times(|s.sent[i].records|, s.c.RecordSize()) <= MAX_PACKET
  {
    InvAlways(events);
    var s := Run(events);
    hide Run, Kept, Delivered;
    FitsPacket(s.session.c, |s.session.sent[i].records|);
  }

  // ---------------------------------------------------------------------------
  // The fate of a start granted in the course of a flush
  // ---------------------------------------------------------------------------

  /** While no other request is granted. */
  predicate Undisturbed(flush: seq<Event>) { forall i :: 0 <= i < |flush| ==> flush[i].Produce? || flush[i].Streamer? }

  /** What follows `before` up to the streamer's return to its ticker. */
  ghost predicate UntilWaiting(before: seq<Event>, flush: seq<Event>) {
    && Run(before + flush).pc.Waiting?
    && forall k :: 0 <= k < |flush| ==> !Run(before + flush[..k]).pc.Waiting?
  }

  /** Everything a finite session asked for has been taken. */
  predicate Exhausted(c: Config, taken: seq<Record>)
    requires c.decimation > 0
  {
    c.count != 0 && |Kept(c, taken)| == c.count
  }

  lemma RunNext(before: seq<Event>, event: Event)
    ensures Run(before + [event]) == Step(Run(before), event)
  {
    assert (before + [event])[..|before|] == before;
  }

  /** A flush leaves the session state alone, except that with the last packet of a finite
      session it clears the flag, whoever has set it since. */
  lemma FlushStep(s: System, event: Event)
    requires Inv(s) && !s.pc.Waiting? && (event.Produce? || event.Streamer?)
    ensures
      var t := Step(s, event);
      && t.generation == s.generation && t.session.c == s.session.c == s.pc.c && s.pc.c.decimation > 0
      && (if t.pc.Waiting? then
            t.stream == s.stream.(enabled := s.stream.enabled && !Exhausted(s.pc.c, t.session.taken))
          else t.stream == s.stream && t.pc.c == s.pc.c)
  {
    hide Projected, Config.MaxRecords, Config.Wants, PacketOk, Kept, Delivered, Configured, Contiguous;
  }

  /** A granted start keeps its flag, and its generation to be armed, until the streamer
      waits again; the flag is then cleared if and only if the flush sent the last packet. */
  ghost predicate Outcome(s: System, t: System) {
    && t.stream.connected && t.stream.target.Some? && t.generation < t.stream.generation
    && t.session.c == s.session.c && t.session.c.decimation > 0
    && (if t.pc.Waiting?
        then t.stream.enabled <==> s.pc.Waiting? || !Exhausted(s.session.c, t.session.taken)
        else t.stream.enabled && !s.pc.Waiting? && t.pc.c == s.session.c)
  }

  lemma StartIsGranted(events: seq<Event>, target: nat)
    requires !Run(events).pc.Filling? && Run(events).stream.connected && Run(events).stream.sources != []
    ensures
      var s, t := Run(events), Run(events + [Start(target)]);
      && t == s.(stream := s.stream.(target := Some(target), enabled := true, generation := s.stream.generation + 1))
      && Outcome(s, t)
  {
    InvAlways(events);
    RunNext(events, Start(target));
    var s := Run(events);
    hide Run, Delivers, Contiguous, Config.MaxRecords, Kept;
  }

  lemma {:induction false} FlushOutcome(events: seq<Event>, target: nat, flush: seq<Event>)
    requires !Run(events).pc.Filling? && Run(events).stream.connected && Run(events).stream.sources != []
    requires Undisturbed(flush)
    requires forall k :: 0 <= k < |flush| ==> !Run(events + [Start(target)] + flush[..k]).pc.Waiting?
    ensures Outcome(Run(events), Run(events + [Start(target)] + flush))
  {
    var before := events + [Start(target)];
    if flush == [] {
      StartIsGranted(events, target);
      assert before + [] == before;
    } else {
      var n := |flush| - 1;
      forall k | 0 <= k < n ensures !Run(before + flush[..n][..k]).pc.Waiting? { assert flush[..n][..k] == flush[..k]; }
      FlushOutcome(events, target, flush[..n]);
      var t := Run(before + flush[..n]);
      InvAlways(before + flush[..n]);
      assert before + flush == before + flush[..n] + [flush[n]];
      RunNext(before + flush[..n], flush[n]);
      FlushStep(t, flush[n]);
      hide Run, Step, Inv, Exhausted;
    }
  }

  /** A start granted while the streamer waits is never lost. One granted while a packet waits
      for the socket, whatever records arrive, is lost if and only if that flush goes on to
      send the last packet of the finite session it was sending: the streamer then switches
      off what the start has just switched on, and never streams the new session. */
  lemma StartSurvivesUnlessItsFlushEndsTheSession(events: seq<Event>, target: nat, flush: seq<Event>)
    requires !Run(events).pc.Filling? && Run(events).stream.connected && Run(events).stream.sources != []
    requires Undisturbed(flush) && UntilWaiting(events + [Start(target)], flush)
    ensures
      var s, t := Run(events), Run(events + [Start(target)] + flush);
      && t.session.c.decimation > 0
      && (t.stream.enabled <==> s.pc.Waiting? || !Exhausted(t.session.c, t.session.taken))
      && (Woken(t).pc.Filling? <==> t.stream.enabled)
      && Woken(t).generation == t.stream.generation
  {
    FlushOutcome(events, target, flush);
    hide Run, Exhausted;
  }

  /** Of a session in the course of a flush: the records at hand are enough to end it. */
  predicate Doomed(s: System)
    requires PcOk(s.pc)
  {
    match s.pc
    case Waiting => false
    case Filling(c, kept) => c.count != 0 && |Kept(c, s.ring)| >= s.remaining
    case Sending(c, kept) =>
      c.count != 0 && (s.remaining == 0 || (|kept| == c.MaxRecords() && |Kept(c, s.ring)| >= s.remaining))
  }

  lemma {:induction false} KeptFront(c: Config, records: seq<Record>)
    requires c.decimation > 0 && records != []
    ensures Kept(c, records) == (if c.Wants(records[0]) then [records[0]] else []) + Kept(c, records[1..])
  {
    hide Config.Wants;
    var n := |records| - 1;
    if n == 0 {
      assert records[..0] == [] && records[1..] == [];
    } else {
      KeptFront(c, records[..n]);
      assert records[..n][1..] == records[1..][..n - 1] && records[1..][n - 1] == records[n];
    }
  }

  lemma DoomStep(s: System, dropped: U32)
    requires Inv(s) && !s.pc.Waiting?
    ensures
      var t := Step(s, Streamer(dropped));
      && PcOk(t.pc)
      && (Doomed(s) <==> if t.pc.Waiting? then Exhausted(s.pc.c, t.session.taken) else Doomed(t))
  {
    if s.ring != [] { KeptFront(s.pc.c, s.ring); }
    hide Projected, Config.MaxRecords, Config.Wants, PacketOk, Delivered, Configured, Contiguous, Delivers;
  }

  lemma {:induction false} DoomIsKept(before: seq<Event>, flush: seq<Event>)
    requires forall i :: 0 <= i < |flush| ==> flush[i].Streamer?
    requires forall k :: 0 <= k < |flush| ==> !Run(before + flush[..k]).pc.Waiting?
    ensures
      var s, t := Run(before), Run(before + flush);
      && (!t.pc.Waiting? ==> (Doomed(s) <==> Doomed(t)))
      && (!s.pc.Waiting? && t.pc.Waiting? ==>
            t.session.c.decimation > 0 && (Doomed(s) <==> Exhausted(t.session.c, t.session.taken)))
  {
    hide Run, Step, Inv, Exhausted, Doomed;
    if flush == [] {
      assert before + [] == before;
    } else {
      var n := |flush| - 1;
      forall k | 0 <= k < n ensures !Run(before + flush[..n][..k]).pc.Waiting? { assert flush[..n][..k] == flush[..k]; }
      DoomIsKept(before, flush[..n]);
      var t := Run(before + flush[..n]);
      InvAlways(before + flush[..n]);
      assert before + flush == before + flush[..n] + [flush[n]];
      RunNext(before + flush[..n], flush[n]);
      FlushStep(t, flush[n]);
      DoomStep(t, flush[n].dropped);
      assert before + flush[..0] == before;
    }
  }

  /** With no arrivals in between, whether a start survives the flush it is granted in can be
      told when it is granted: it is lost exactly while the last packet of a finite session
      waits for the socket, or a full packet with the rest of that session in the ring. */
  lemma StartSurvivesUnlessLastPacketIsInFlight(events: seq<Event>, target: nat, flush: seq<Event>)
    requires !Run(events).pc.Filling? && Run(events).stream.connected && Run(events).stream.sources != []
    requires (forall i :: 0 <= i < |flush| ==> flush[i].Streamer?) && UntilWaiting(events + [Start(target)], flush)
    ensures
      var s, t := Run(events), Run(events + [Start(target)] + flush);
      t.stream.enabled <==>
        !(s.pc.Sending? && s.pc.c.count != 0 &&
          (s.remaining == 0 || (|s.pc.kept| == s.pc.c.MaxRecords() && |Kept(s.pc.c, s.ring)| >= s.remaining)))
  {
    var before := events + [Start(target)];
    StartSurvivesUnlessItsFlushEndsTheSession(events, target, flush);
    StartIsGranted(events, target);
    DoomIsKept(before, flush);
    assert before + flush[..0] == before;
    hide Run, Exhausted, Config.MaxRecords, Kept;
    if Run(before).pc.Waiting? {
      assert flush == [];
    }
  }

  /** What is left of a flush: records to take, then the packet to send. */
  function Effort(pc: Pc): nat {
    match pc
    case Waiting => 0
    case Filling(_, kept) => if kept == [] then 1 else 3
    case Sending(_, _) => 2
  }

  /** Without arrivals every flush ends. */
  lemma {:induction false} FlushEnds(before: seq<Event>) returns (flush: seq<Event>)
    ensures UntilWaiting(before, flush) && forall i :: 0 <= i < |flush| ==> flush[i].Streamer?
    decreases |Run(before).ring|, Effort(Run(before).pc)
  {
    hide Run, Step, Inv;
    var s := Run(before);
    if s.pc.Waiting? {
      flush := [];
      assert before + [] == before;
    } else {
      var event := Streamer(0);
      InvAlways(before);
      RunNext(before, event);
      EffortFalls(s);
      var rest := FlushEnds(before + [event]);
      flush := [event] + rest;
      assert before + flush == before + [event] + rest;
      forall k | 0 <= k < |flush| ensures !Run(before + flush[..k]).pc.Waiting? {
        if k == 0 {
          assert before + flush[..0] == before;
        } else {
          assert before + flush[..k] == before + [event] + rest[..k - 1];
        }
      }
    }
  }

  lemma EffortFalls(s: System)
    requires Inv(s) && !s.pc.Waiting?
    ensures
      var t := Step(s, Streamer(0));
      |t.ring| < |s.ring| || (t.ring == s.ring && Effort(t.pc) < Effort(s.pc))
  {
    hide Projected, Config.Wants, PacketOk, Delivered, Configured, Contiguous, Delivers, Counts;
  }

  // ---------------------------------------------------------------------------
  // A start lost behind a full packet that is not the last
  // ---------------------------------------------------------------------------

  function Copies<T>(x: T, n: nat): (copies: seq<T>)
    ensures |copies| == n && forall i :: 0 <= i < n ==> copies[i] == x
  {
    if n == 0 then [] else Copies(x, n - 1) + [x]
  }

  const ALWAYS_WANTED := Record(0, [])

  /** Sixteen records of twenty-four sources: one packet of fifteen, and one of one. */
  const SIXTEEN := Config(Copies(0, MAX_SOURCES), 1, 16, 7)

  const ARMING: seq<Event> := [Connect, Setup(1, 16, SIXTEEN.sources), Start(7)]

  lemma ArmingRuns()
    ensures
      var s := Run(ARMING);
      && s.pc.Waiting? && s.ring == [] && s.generation == 0
      && s.stream == Stream(Some(7), true, SIXTEEN.sources, 1, 16, 1, true)
  {
    assert ARMING == ([] + [ARMING[0]]) + [ARMING[1]] + [ARMING[2]];
    RunNext([], ARMING[0]);
    RunNext([] + [ARMING[0]], ARMING[1]);
    RunNext([] + [ARMING[0]] + [ARMING[1]], ARMING[2]);
  }

  lemma {:induction false} RecordsArrive(n: nat)
    requires n <= 16
    ensures
      var s := Run(ARMING + Copies(Produce(ALWAYS_WANTED), n));
      && s.pc.Waiting? && s.ring == Copies(ALWAYS_WANTED, n) && s.generation == 0
      && s.stream == Run(ARMING).stream
  {
    ArmingRuns();
    hide Run;
    var event := Produce(ALWAYS_WANTED);
    if n == 0 {
      assert ARMING + [] == ARMING;
    } else {
      RecordsArrive(n - 1);
      assert ARMING + Copies(event, n) == ARMING + Copies(event, n - 1) + [event];
      RunNext(ARMING + Copies(event, n - 1), event);
    }
  }

  function Arrived(): seq<Event> { ARMING + Copies(Produce(ALWAYS_WANTED), 16) + [Streamer(0)] }

  lemma FlushBegins()
    ensures
      var s := Run(Arrived());
      && s.pc == Filling(SIXTEEN, []) && s.ring == Copies(ALWAYS_WANTED, 16) && s.remaining == 16
      && s.stream == Run(ARMING).stream
  {
    ArmingRuns();
    RecordsArrive(16);
    hide Run;
    RunNext(ARMING + Copies(Produce(ALWAYS_WANTED), 16), Streamer(0));
  }

  lemma SixteenFacts()
    ensures SIXTEEN.Ok() && SIXTEEN.MaxRecords() == 15 && SIXTEEN.Wants(ALWAYS_WANTED)
  {}

  lemma {:induction false} FifteenAreTaken(n: nat)
    requires n <= 15
    ensures
      var s := Run(Arrived() + Copies(Streamer(0), n));
      && s.pc == Filling(SIXTEEN, Copies(ALWAYS_WANTED, n)) && s.remaining == 16 - n
      && s.ring == Copies(ALWAYS_WANTED, 16 - n) && s.stream == Run(ARMING).stream
  {
    hide Run, Arrived, Config.MaxRecords, Config.Wants, Projected;
    FlushBegins();
    SixteenFacts();
    var event := Streamer(0);
    if n == 0 {
      assert Arrived() + [] == Arrived();
    } else {
      FifteenAreTaken(n - 1);
      assert Arrived() + Copies(event, n) == Arrived() + Copies(event, n - 1) + [event];
      RunNext(Arrived() + Copies(event, n - 1), event);
      assert Copies(ALWAYS_WANTED, 17 - n)[1..] == Copies(ALWAYS_WANTED, 16 - n);
    }
  }

  /** The start is granted while the first of two packets waits for the socket. One record is
      still to be sent and in the ring, so the same flush sends it and ends the session: the
      start is lost, although the packet in flight was not the last. */
  lemma StartLostBehindAFullPacket() returns (events: seq<Event>, flush: seq<Event>)
    ensures
      var s := Run(events);
      && s.pc.Sending? && s.pc.c.count != 0 && s.remaining == 1
      && s.stream.connected && s.stream.sources != []
    ensures UntilWaiting(events + [Start(7)], flush) && (forall i :: 0 <= i < |flush| ==> flush[i].Streamer?)
    ensures !Run(events + [Start(7)] + flush).stream.enabled
  {
    hide Run, Arrived, Config.MaxRecords, Config.Wants, Projected;
    ArmingRuns();
    SixteenFacts();
    FifteenAreTaken(15);
    events := Arrived() + Copies(Streamer(0), 15) + [Streamer(0)];
    RunNext(Arrived() + Copies(Streamer(0), 15), Streamer(0));
    var s := Run(events);
    assert s.ring == [ALWAYS_WANTED] && s.ring[..0] == [];
    assert Kept(SIXTEEN, s.ring) == [ALWAYS_WANTED];
    flush := FlushEnds(events + [Start(7)]);
    StartSurvivesUnlessLastPacketIsInFlight(events, 7, flush);
  }
}
