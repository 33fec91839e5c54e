/** Bounded packet history and exact-record replay. */
module History {
  import opened Wrappers
  import opened Words
  import opened StreamHeader

  datatype Packet = Packet(wire: seq<Byte>, header: Header) {
    function Sources(): nat { header.sources }

    function Records(): nat { header.records }

    /** Bytes of one record. */
    function Width(): nat { 4 * Sources() }

    predicate Ok() {
      && Decoded(wire) == Some(header)
      && Sources() > 0 && Records() > 0
      && |wire| == HEADER_LEN + Times(Records(), Width())
    }

    function Payload(): seq<Byte>
      requires Ok()
    {
      wire[HEADER_LEN..]
    }
  }

  /** A packet is accepted exactly when it has a header, sources, records, and precisely the
      payload they announce. */
  method DecodePacket(wire: seq<Byte>) returns (packet: Option<Packet>)
    ensures packet == PacketOf(wire)
    ensures packet.Some? ==> packet.value.Ok()
  {
    var header := Decoded(wire);
    if header.None? {
      return None;
    }
    if header.value.sources == 0 || header.value.records == 0 {
      return None;
    }
    TimesIsProduct(header.value.records, 4 * header.value.sources);
    ProductOrder(header.value.sources, header.value.records);
    if |wire| != HEADER_LEN + 4 * header.value.sources * header.value.records {
      return None;
    }
    packet := Some(Packet(wire, header.value));
  }

  lemma ProductOrder(a: nat, b: nat)
    ensures 4 * a * b == b * (4 * a)
  {}

  function PacketOf(wire: seq<Byte>): (packet: Option<Packet>)
    ensures packet.Some? <==> exists h: Header :: Packet(wire, h).Ok()
    ensures packet.Some? ==> packet.value.wire == wire && packet.value.Ok()
  {
    match Decoded(wire)
    case None => None
    case Some(h) => if Packet(wire, h).Ok() then Some(Packet(wire, h)) else None
  }

  /** A datagram is a packet exactly when its header decodes, announces sources and records, and
      is followed by four bytes for every source of every record. */
  lemma PacketExactly(wire: seq<Byte>)
    ensures PacketOf(wire).Some? <==>
      && Decoded(wire).Some? && Decoded(wire).value.sources > 0 && Decoded(wire).value.records > 0
      && |wire| == 20 + Decoded(wire).value.records * (4 * Decoded(wire).value.sources)
    ensures PacketOf(wire).Some? ==> PacketOf(wire).value.header == Decoded(wire).value
  {
    hide Decoded;
    if Decoded(wire).Some? {
      TimesIsProduct(Decoded(wire).value.records, 4 * Decoded(wire).value.sources);
    }
  }

  // ---------------------------------------------------------------------------
  // Records
  // ---------------------------------------------------------------------------

  datatype Record = Record(index: U32, values: seq<Byte>)

  /** `n` consecutive records: each advances the sample index by the decimation. */
  function RecordsFrom(first: U32, decimation: U16, width: nat, n: nat, payload: seq<Byte>): (records: seq<Record>)
    requires |payload| == Times(n, width)
    ensures |records| == n
    decreases n
  {
    if n == 0 then []
    else
      [Record(first, payload[..width])] +
      RecordsFrom(WrapAdd(first, decimation), decimation, width, n - 1, payload[width..])
  }

  function RecordsOf(p: Packet): (records: seq<Record>)
    requires p.Ok()
    ensures |records| == p.Records()
  {
    RecordsFrom(p.header.firstIndex, p.header.decimation, p.Width(), p.Records(), p.Payload())
  }

  ghost predicate AllOk(packets: seq<Packet>) { forall i :: 0 <= i < |packets| ==> packets[i].Ok() }

  function Total(packets: seq<Packet>): nat {
    if packets == [] then 0 else packets[0].Records() + Total(packets[1..])
  }

  /** Everything the packets hold, record by record. */
  function Log(packets: seq<Packet>): (records: seq<Record>)
    requires AllOk(packets)
    ensures |records| == Total(packets)
  {
    if packets == [] then [] else RecordsOf(packets[0]) + Log(packets[1..])
  }

  /** Multiples of the decimation accumulate modulo one word. */
  lemma NextMultiple(first: U32, decimation: U16, k: nat)
    ensures WrapAdd(WrapAdd(first, decimation), WrapMul(k, decimation))
         == WrapAdd(first, WrapMul(k + 1, decimation))
  {
    assert (k + 1) * decimation as int == k * decimation as int + decimation;
    hide WrapAdd;
    NextSum(first, decimation, k * decimation as int);
  }

  lemma NextSum(first: U32, step: U32, x: nat)
    ensures WrapAdd(WrapAdd(first, step), x % TWO32) == WrapAdd(first, (x + step as int) % TWO32)
  {
    hide WrapAdd;
    var start: int := first;
    var y: int := step;
    WrapAddIsMod(first, step);
    WrapAddIsMod(WrapAdd(first, step), x % TWO32);
    WrapAddIsMod(first, (x + y) % TWO32);
    WordSum(start, y, x);
  }

  lemma WordSum(start: nat, step: nat, x: nat)
    ensures ((start + step) % TWO32 + x % TWO32) % TWO32 == (start + (x + step) % TWO32) % TWO32
  {
    SumOfRemainders(start + step, x, TWO32);
    ModPlusMultiple(start + (x + step) % TWO32, (x + step) / TWO32, TWO32);
    assert start + (x + step) % TWO32 + (x + step) / TWO32 * TWO32 == start + step + x;
  }

  /** Cutting `k` records off the front: the index moves on by `k` decimations, the payload
      by `k` records, and every remaining record is untouched. */
  lemma {:induction false} RecordsDrop(first: U32, decimation: U16, width: nat, n: nat, payload: seq<Byte>, k: nat)
    requires k <= n && |payload| == Times(n, width)
    ensures Times(k, width) <= |payload| && Times(n, width) - Times(k, width) == Times(n - k, width)
    ensures RecordsFrom(first, decimation, width, n, payload)[k..]
         == RecordsFrom(WrapAdd(first, WrapMul(k, decimation)), decimation, width, n - k, payload[Times(k, width)..])
    decreases k
  {
    TimesSum(k, n - k, width);
    if k == 0 {
      assert payload[Times(0, width)..] == payload;
    } else {
      var next := WrapAdd(first, decimation);
      NextMultiple(first, decimation, k - 1);
      hide WrapAdd, WrapMul;
      RecordsDrop(next, decimation, width, n - 1, payload[width..], k - 1);
      SliceTwice(payload, width, Times(k - 1, width));
    }
  }

  /** Record `i` of a packet is sample `first + i * decimation`, modulo one word. */
  lemma RecordAt(p: Packet, i: nat)
    requires p.Ok() && i < p.Records()
    ensures Times(i + 1, p.Width()) <= |p.Payload()|
    ensures RecordsOf(p)[i] == Record(WrapAdd(p.header.firstIndex, WrapMul(i, p.header.decimation)),
                                      p.Payload()[Times(i, p.Width())..Times(i + 1, p.Width())])
  {
    RecordsDrop(p.header.firstIndex, p.header.decimation, p.Width(), p.Records(), p.Payload(), i);
    TimesSum(i + 1, p.Records() - i - 1, p.Width());
    assert RecordsOf(p)[i] == RecordsOf(p)[i..][0];
  }

  lemma SliceTwice(data: seq<Byte>, a: nat, b: nat)
    requires a + b <= |data|
    ensures data[a..][b..] == data[a + b..]
  {}

  // ---------------------------------------------------------------------------
  // What is kept
  // ---------------------------------------------------------------------------

  function Last<T>(s: seq<T>, n: nat): seq<T>
    requires n <= |s|
  {
    s[|s| - n..]
  }

  lemma LastOfLast<T>(s: seq<T>, m: nat, n: nat)
    requires n <= m <= |s|
    ensures Last(Last(s, m), n) == Last(s, n)
    ensures Last(s, m)[m - n..] == Last(s, n)
  {}

  /** Whole packets leave from the front while the rest is too large and more than one. */
  function Trimmed(packets: seq<Packet>, capacity: nat): seq<Packet> {
    if |packets| > 1 && Total(packets) > capacity then Trimmed(packets[1..], capacity) else packets
  }

  lemma {:induction false} TotalAppend(a: seq<Packet>, b: seq<Packet>)
    ensures Total(a + b) == Total(a) + Total(b)
  {
    if a == [] {
      assert a + b == b;
    } else {
      assert (a + b)[1..] == a[1..] + b;
      TotalAppend(a[1..], b);
    }
  }

  /** Trimming as packets arrive keeps what trimming the whole log once would keep. */
  lemma {:induction false} TrimmingIsIncremental(log: seq<Packet>, p: Packet, capacity: nat)
    requires p.Records() > 0
    ensures Trimmed(Trimmed(log, capacity) + [p], capacity) == Trimmed(log + [p], capacity)
    decreases |log|
  {
    if |log| > 1 && Total(log) > capacity {
      TrimmingIsIncremental(log[1..], p, capacity);
      assert (log + [p])[1..] == log[1..] + [p];
      TotalAppend(log, [p]);
    }
  }

  /** The kept packets are the longest suffix of the log whose records fit the capacity, or
      the newest packet alone when even that one does not. */
  ghost predicate IsWindow(log: seq<Packet>, kept: seq<Packet>, capacity: nat) {
    && |kept| <= |log| && kept == Last(log, |kept|)
    && (log != [] ==> kept != [])
    && (Total(kept) <= capacity || |kept| <= 1)
    && (forall n :: |kept| < n <= |log| ==> Total(Last(log, n)) > capacity)
  }

  lemma {:induction false} TrimmedIsWindow(log: seq<Packet>, capacity: nat)
    ensures IsWindow(log, Trimmed(log, capacity), capacity)
    decreases |log|
  {
    if |log| > 1 && Total(log) > capacity {
      var rest := log[1..];
      TrimmedIsWindow(rest, capacity);
      var kept := Trimmed(rest, capacity);
      forall n | |kept| < n <= |log| ensures Total(Last(log, n)) > capacity {
        if n == |log| {
          assert Last(log, n) == log;
        } else {
          assert Last(log, n) == Last(rest, n);
        }
      }
      assert Last(log, |kept|) == Last(rest, |kept|);
    } else {
      assert Last(log, |log|) == log;
    }
  }

  // ---------------------------------------------------------------------------
  // Replay
  // ---------------------------------------------------------------------------

  lemma {:induction false} LogSuffix(packets: seq<Packet>, i: nat)
    requires AllOk(packets) && i <= |packets|
    ensures Total(packets[i..]) <= Total(packets)
    ensures Log(packets[i..]) == Last(Log(packets), Total(packets[i..]))
    decreases i
  {
    hide Packet.Ok, RecordsOf;
    if i == 0 {
      assert packets[0..] == packets;
    } else {
      LogSuffix(packets[1..], i - 1);
      assert packets[1..][i - 1..] == packets[i..];
      assert Log(packets)[packets[0].Records()..] == Log(packets[1..]);
    }
  }

  /** The packet with its first `k` records cut off. */
  function Cut(p: Packet, k: nat): Packet
    requires p.Ok() && k < p.Records()
  {
    var header := p.header.(firstIndex := WrapAdd(p.header.firstIndex, WrapMul(k, p.header.decimation)),
                            records := p.Records() - k);
    TimesSum(k, p.Records() - k, p.Width());
    Packet(Encoded(header) + p.wire[HEADER_LEN + Times(k, p.Width())..], header)
  }

  lemma CutKeepsTheRest(p: Packet, k: nat)
    requires p.Ok() && k < p.Records()
    ensures
      var cut := Cut(p, k);
      && cut.Ok()
      && RecordsOf(cut) == RecordsOf(p)[k..]
      && cut.header == p.header.(firstIndex := cut.header.firstIndex, records := cut.header.records)
  {
    hide Encoded, Decoded;
    var cut := Cut(p, k);
    TimesSum(k, p.Records() - k, p.Width());
    RecordsDrop(p.header.firstIndex, p.header.decimation, p.Width(), p.Records(), p.Payload(), k);
    HeaderRoundTrip(cut.header, p.wire[HEADER_LEN + Times(k, p.Width())..]);
    assert cut.wire[HEADER_LEN..] == p.Payload()[Times(k, p.Width())..];
  }

  function WiresOf(packets: seq<Packet>): seq<seq<Byte>> {
    seq(|packets|, i requires 0 <= i < |packets| => packets[i].wire)
  }

  lemma WiresLength(packets: seq<Packet>)
    ensures |WiresOf(packets)| == |packets|
  {}

  ghost predicate AllAccepted(wires: seq<seq<Byte>>) {
    forall i :: 0 <= i < |wires| ==> PacketOf(wires[i]).Some?
  }

  function DecodeAll(wires: seq<seq<Byte>>): (packets: seq<Packet>)
    requires AllAccepted(wires)
    ensures |packets| == |wires| && AllOk(packets)
  {
    seq(|wires|, i requires 0 <= i < |wires| => PacketOf(wires[i]).value)
  }

  class History {
    var packets: seq<Packet>
    var records: nat
    var capacity: nat

    ghost predicate Valid()
      reads this
    {
      AllOk(packets) && records == Total(packets)
    }

    constructor ()
      ensures Valid() && packets == [] && capacity == 0
    {
      packets, records, capacity := [], 0, 0;
    }

    method Reset(capacityRecords: nat)
      modifies this
      ensures Valid() && packets == []
      ensures capacity == if capacityRecords == 0 then 1 else capacityRecords
    {
      packets, records := [], 0;
      capacity := if capacityRecords == 0 then 1 else capacityRecords;
    }

    method Clear()
      modifies this`packets, this`records
      ensures Valid() && packets == []
    {
      packets, records := [], 0;
    }

    method Push(packet: Packet)
      requires Valid() && packet.Ok()
      modifies this`packets, this`records
      ensures Valid() && packets == Trimmed(old(packets) + [packet], capacity)
    {
      TotalAppend(packets, [packet]);
      assert [packet][1..] == [];
      records := records + packet.Records();
      packets := packets + [packet];
      ghost var all := packets;
      while records > capacity && |packets| > 1
        invariant Valid()
        invariant Trimmed(packets, capacity) == Trimmed(all, capacity)
        decreases |packets|
      {
        records := records - packets[0].Records();
        packets := packets[1..];
      }
    }

    /** Replay the last records. It succeeds exactly when that many are held; the replayed
        packets are all valid and hold exactly the last records of the history, with their
        sample indices and bytes; only the oldest of them may have been cut. */
    method Recent(requested: nat) returns (replay: Option<seq<seq<Byte>>>)
      requires Valid()
      ensures replay.Some? <==> 0 < requested <= Total(packets)
      ensures replay.Some? ==>
        && AllAccepted(replay.value)
        && Log(DecodeAll(replay.value)) == Last(Log(packets), requested)
        && 0 < |replay.value| <= |packets|
        && replay.value[1..] == Last(WiresOf(packets), |replay.value| - 1)
    {
      if requested == 0 || requested > records {
        return None;
      }
      var wires := Replay(requested);
      replay := Some(wires);
    }

    method Replay(requested: nat) returns (wires: seq<seq<Byte>>)
      requires Valid() && 0 < requested <= records
      ensures AllAccepted(wires) && requested <= |Log(packets)|
      ensures Log(DecodeAll(wires)) == Last(Log(packets), requested)
      ensures 0 < |wires| <= |packets|
      ensures wires[1..] == Last(WiresOf(packets), |wires| - 1)
    {
      hide Packet.Ok, Log, Total, PacketOf, DecodeAll, AllAccepted, WiresOf, Cut, Last;
      var i, held := Select(requested);
      var cut := CutWire(packets[i], held - requested);
      wires := [cut] + WiresOf(packets[i + 1..]);
      ReplayAnswers(packets, i, held, requested, cut, wires);
    }

    /** Walk back from the newest packet until enough records are selected. */
    method Select(requested: nat) returns (i: nat, held: nat)
      requires Valid() && 0 < requested <= records
      ensures i < |packets| && held == Total(packets[i..])
      ensures requested <= held < requested + packets[i].Records()
    {
      hide Packet.Ok;
      i, held := |packets|, 0;
      assert packets[i..] == [] && packets[0..] == packets;
      while held < requested
        invariant 0 <= i <= |packets| && held == Total(packets[i..])
        invariant held >= requested ==> i < |packets| && held - packets[i].Records() < requested
        decreases i
      {
        i := i - 1;
        assert packets[i..][1..] == packets[i + 1..];
        held := held + packets[i].Records();
      }
    }
  }

  /** The first wire of a replay: the packet as received, or re-headed past the excess. */
  method CutWire(first: Packet, excess: nat) returns (wire: seq<Byte>)
    requires first.Ok() && excess < first.Records()
    ensures wire == if excess == 0 then first.wire else Cut(first, excess).wire
  {
    hide Decoded, Encoded;
    if excess == 0 {
      return first.wire;
    }
    TimesSum(excess, first.Records() - excess, first.Width());
    TimesIsProduct(excess, first.Width());
    var offset := HEADER_LEN + excess * first.Width();
    var header := first.header.(
      firstIndex := WrapAdd(first.header.firstIndex, WrapMul(excess, first.header.decimation)),
      records := first.Records() - excess);
    var buf := new Byte[HEADER_LEN];
    Encode(header, buf);
    wire := buf[..] + first.wire[offset..];
  }

  lemma AcceptedIs(p: Packet)
    requires p.Ok()
    ensures PacketOf(p.wire) == Some(p)
  {}

  /** The packets a replay stands for: the first one cut, the others as they are. */
  function Replayed(packets: seq<Packet>, i: nat, excess: nat): seq<Packet>
    requires AllOk(packets) && i < |packets| && excess < packets[i].Records()
  {
    [if excess == 0 then packets[i] else Cut(packets[i], excess)] + packets[i + 1..]
  }

  lemma HeadRecords(first: Packet, excess: nat, head: Packet)
    requires first.Ok() && excess < first.Records()
    requires head == if excess == 0 then first else Cut(first, excess)
    ensures head.Ok() && RecordsOf(head) == RecordsOf(first)[excess..]
  {
    hide Packet.Ok, RecordsOf, Cut;
    if excess > 0 { CutKeepsTheRest(first, excess); }
  }

  lemma ReplayedRecords(packets: seq<Packet>, i: nat, excess: nat)
    requires AllOk(packets) && i < |packets| && excess < packets[i].Records()
    ensures
      var replayed := Replayed(packets, i, excess);
      AllOk(replayed) && AllOk(packets[i..]) && Log(replayed) == Log(packets[i..])[excess..]
  {
    hide Packet.Ok, RecordsOf, Cut;
    var first, rest := packets[i], packets[i + 1..];
    var replayed := Replayed(packets, i, excess);
    HeadRecords(first, excess, replayed[0]);
    assert replayed[1..] == rest;
    assert packets[i..][0] == first && packets[i..][1..] == rest;
  }

  lemma DecodeWires(packets: seq<Packet>)
    requires AllOk(packets)
    ensures AllAccepted(WiresOf(packets)) && DecodeAll(WiresOf(packets)) == packets
  {
    hide Packet.Ok, PacketOf;
    forall j | 0 <= j < |packets| ensures PacketOf(packets[j].wire) == Some(packets[j]) {
      AcceptedIs(packets[j]);
    }
  }

  lemma ReplayIsExact(packets: seq<Packet>, i: nat, held: nat, requested: nat, replayed: seq<Packet>)
    requires AllOk(packets) && i < |packets| && held == Total(packets[i..])
    requires 0 < requested <= held < requested + packets[i].Records()
    requires replayed == Replayed(packets, i, held - requested)
    ensures AllOk(replayed) && requested <= Total(packets)
    ensures Log(replayed) == Last(Log(packets), requested)
  {
    hide *;
    LogSuffix(packets, i);
    ReplayedRecords(packets, i, held - requested);
    LastOfLast(Log(packets), held, requested);
  }

  /** Re-heading one wire and keeping the others gives the replayed packets' wires. */
  lemma ReplayWires(packets: seq<Packet>, i: nat, excess: nat, cut: seq<Byte>)
    requires AllOk(packets) && i < |packets| && excess < packets[i].Records()
    requires cut == if excess == 0 then packets[i].wire else Cut(packets[i], excess).wire
    ensures [cut] + WiresOf(packets[i + 1..]) == WiresOf(Replayed(packets, i, excess))
    ensures WiresOf(packets[i + 1..]) == Last(WiresOf(packets), |packets| - i - 1)
  {
    hide Packet.Ok, Cut;
  }

  lemma ReplayAnswers(
    packets: seq<Packet>, i: nat, held: nat, requested: nat, cut: seq<Byte>, wires: seq<seq<Byte>>)
    requires AllOk(packets) && i < |packets| && held == Total(packets[i..])
    requires 0 < requested <= held < requested + packets[i].Records()
    requires cut == if held == requested then packets[i].wire else Cut(packets[i], held - requested).wire
    requires wires == [cut] + WiresOf(packets[i + 1..])
    ensures AllAccepted(wires) && requested <= |Log(packets)|
    ensures Log(DecodeAll(wires)) == Last(Log(packets), requested)
    ensures 0 < |wires| <= |packets|
    ensures wires[1..] == Last(WiresOf(packets), |wires| - 1)
  {
    var replayed := Replayed(packets, i, held - requested);
    hide *;
    ReplayWires(packets, i, held - requested, cut);
    ReplayIsExact(packets, i, held, requested, replayed);
    DecodeWires(replayed);
    WiresLength(packets[i + 1..]);
    Behind(cut, WiresOf(packets[i + 1..]));
  }

  lemma Behind<T>(x: T, rest: seq<T>)
    ensures ([x] + rest)[1..] == rest
  {}

  // ---------------------------------------------------------------------------
  // Whole sessions
  // ---------------------------------------------------------------------------

  /** The history after a session's packets, pushed one by one. */
  function Pushed(log: seq<Packet>, capacity: nat): seq<Packet> {
    if log == [] then [] else Trimmed(Pushed(log[..|log| - 1], capacity) + [log[|log| - 1]], capacity)
  }

  /** Whatever is kept is the end of what was pushed. */
  lemma {:induction false} PushedIsSuffix(log: seq<Packet>, capacity: nat)
    ensures
      var kept := Pushed(log, capacity);
      |kept| <= |log| && kept == log[|log| - |kept|..]
  {
    hide Total;
    if log != [] {
      var before := log[..|log| - 1];
      PushedIsSuffix(before, capacity);
      var joined := Pushed(before, capacity) + [log[|log| - 1]];
      assert joined == log[|log| - |joined|..];
      TrimmedIsSuffix(joined, capacity);
    }
  }

  lemma {:induction false} TrimmedIsSuffix(packets: seq<Packet>, capacity: nat)
    ensures
      var kept := Trimmed(packets, capacity);
      |kept| <= |packets| && kept == packets[|packets| - |kept|..]
    decreases |packets|
  {
    hide Total;
    if |packets| > 1 && Total(packets) > capacity {
      TrimmedIsSuffix(packets[1..], capacity);
    }
  }

  lemma HasRecords(log: seq<Packet>, i: nat)
    requires AllOk(log) && i < |log|
    ensures log[i].Records() > 0
  {}

  lemma AllOkBefore(log: seq<Packet>)
    requires AllOk(log) && log != []
    ensures AllOk(log[..|log| - 1])
  {
    hide Packet.Ok;
  }

  lemma {:induction false} PushedIsTrimmed(log: seq<Packet>, capacity: nat)
    requires AllOk(log)
    ensures Pushed(log, capacity) == Trimmed(log, capacity)
  {
    if log != [] {
      AllOkBefore(log);
      HasRecords(log, |log| - 1);
      PushedIsTrimmed(log[..|log| - 1], capacity);
      PushOne(log, capacity);
    }
  }

  lemma PushOne(log: seq<Packet>, capacity: nat)
    requires log != [] && log[|log| - 1].Records() > 0
    requires Pushed(log[..|log| - 1], capacity) == Trimmed(log[..|log| - 1], capacity)
    ensures Pushed(log, capacity) == Trimmed(log, capacity)
  {
    hide Trimmed;
    var before, p := log[..|log| - 1], log[|log| - 1];
    TrimmingIsIncremental(before, p, capacity);
    assert log == before + [p];
  }

  /** After any session, the last records of the history are the last records of everything
      received, for as many as the history holds; and it always holds the longest packet
      suffix that fits. */
  lemma HistoryAgreesWithTheLog(log: seq<Packet>, capacity: nat, n: nat)
    requires AllOk(log) && n <= Total(Pushed(log, capacity))
    ensures IsWindow(log, Pushed(log, capacity), capacity)
    ensures AllOk(Pushed(log, capacity)) && n <= Total(log)
    ensures Last(Log(Pushed(log, capacity)), n) == Last(Log(log), n)
  {
    hide *;
    var kept := Pushed(log, capacity);
    PushedIsWindow(log, capacity, kept);
    SuffixRecords(log, kept, n);
  }

  lemma PushedIsWindow(log: seq<Packet>, capacity: nat, kept: seq<Packet>)
    requires AllOk(log) && kept == Pushed(log, capacity)
    ensures IsWindow(log, kept, capacity)
    ensures |kept| <= |log| && kept == log[|log| - |kept|..] && AllOk(kept)
  {
    hide *;
    PushedIsTrimmed(log, capacity);
    TrimmedIsWindow(log, capacity);
    KeptIsSuffix(log, kept, capacity);
  }

  lemma SuffixRecords(log: seq<Packet>, kept: seq<Packet>, n: nat)
    requires AllOk(log) && AllOk(kept) && n <= Total(kept)
    requires |kept| <= |log| && kept == log[|log| - |kept|..]
    ensures n <= Total(log)
    ensures Last(Log(kept), n) == Last(Log(log), n)
  {
    hide *;
    LogSuffix(log, |log| - |kept|);
    LastOfLast(Log(log), Total(kept), n);
  }

  lemma KeptIsSuffix(log: seq<Packet>, kept: seq<Packet>, capacity: nat)
    requires AllOk(log) && IsWindow(log, kept, capacity)
    ensures |kept| <= |log| && kept == log[|log| - |kept|..] && AllOk(kept)
  {
    hide Total, Packet.Ok;
  }
}
