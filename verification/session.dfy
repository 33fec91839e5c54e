/** The broker's shared session state: what each section that holds its lock does. */
module Session {
  import opened Wrappers
  import opened Words
  import History

  type Packet = History.Packet

  const MAX_SOURCES: nat := 24

  datatype Configuration = Configuration(decimation: U16, count: U32, sources: seq<Byte>) {
    /** A late packet of an earlier session has another layout. */
    predicate Matches(p: Packet) { p.Sources() == |sources| && p.header.decimation == decimation }
  }

  /** A setup is accepted only with a decimation and exactly the sources it announces. */
  function DecodeConfiguration(payload: seq<Byte>): (c: Option<Configuration>)
    ensures c.Some? ==> c.value.decimation > 0 && 0 < |c.value.sources| <= MAX_SOURCES
    ensures c.Some? <==>
      && 8 <= |payload| <= 31 && payload[6] as int == |payload| - 7
      && (payload[0] != 0 || payload[1] != 0)
    ensures c.Some? ==> payload == EncodeConfiguration(c.value)
  {
    if |payload| < 7 then None
    else
      var decimation := FromLe16(payload[0..2]);
      var sources: nat := payload[6];
      if decimation == 0 || sources == 0 || sources > MAX_SOURCES || |payload| != 7 + sources then None
      else
        FromLe16RoundTrip(payload[0..2]);
        FromLe32RoundTrip(payload[2..6]);
        assert payload == payload[0..2] + payload[2..6] + [payload[6]] + payload[7..];
        Some(Configuration(decimation, FromLe32(payload[2..6]), payload[7..]))
  }

  function EncodeConfiguration(c: Configuration): seq<Byte>
    requires |c.sources| <= MAX_SOURCES
  {
    Le16(c.decimation) + Le32(c.count) + [|c.sources|] + c.sources
  }

  datatype Client = Client(endpoint: Option<nat>, quiet: bool)

  const DETACHED := Client(None, false)

  datatype BrokerError =
    | BadLength | BadValue | SetupBusy | NotAttached | NotQuiet | NoActiveStream | InsufficientHistory | Disappeared

  datatype Shared = Shared(
    configuration: Option<Configuration>,
    running: bool,
    received: nat,
    clients: map<nat, Client>,
    packets: seq<Packet>,
    capacity: nat)

  const EMPTY := Shared(None, false, 0, map[], [], 0)

  function AllDetached(clients: map<nat, Client>): map<nat, Client> {
    map id | id in clients :: DETACHED
  }

  /** Stop, rollback and completion end a session but keep its configuration. */
  function Ended(s: Shared): (t: Shared)
    ensures !t.running && t.received == 0 && t.packets == [] && t.configuration == s.configuration
    ensures t.clients.Keys == s.clients.Keys
    ensures forall id :: id in t.clients ==> t.clients[id].endpoint.None? && !t.clients[id].quiet
  {
    s.(running := false, received := 0, packets := [], clients := AllDetached(s.clients))
  }

  /** A lost connection forgets the configuration as well. */
  function TornDown(s: Shared): Shared { Ended(s).(configuration := None) }

  /** Attaching concerns one client, and only if it is still there. */
  function Attached(s: Shared, id: nat, endpoint: nat, quiet: bool): (t: Shared)
    ensures t.clients.Keys == s.clients.Keys
    ensures id in t.clients ==> t.clients[id].endpoint == Some(endpoint) && t.clients[id].quiet == quiet
    ensures forall other :: other in t.clients && other != id ==> t.clients[other] == s.clients[other]
    ensures t.(clients := s.clients) == s
  {
    if id in s.clients then s.(clients := s.clients[id := Client(Some(endpoint), quiet)]) else s
  }

  /** A session begins with an empty history and its first client attached. */
  function Begun(s: Shared, id: nat, endpoint: nat, quiet: bool, capacity: nat): (t: Shared)
    ensures t.running && t.received == 0 && t.packets == [] && t.configuration == s.configuration
    ensures t.capacity > 0 && (capacity > 0 ==> t.capacity == capacity)
  {
    Attached(s.(running := true, received := 0, packets := [], capacity := if capacity == 0 then 1 else capacity),
             id, endpoint, quiet)
  }

  function QuietSet(s: Shared, id: nat, quiet: bool): (r: (Shared, Option<BrokerError>))
    ensures r.1.None? <==> id in s.clients && s.clients[id].endpoint.Some?
    ensures r.1.Some? ==> r.0 == s && r.1.value == if id in s.clients then NotAttached else Disappeared
    ensures r.1.None? ==>
      && r.0.(clients := s.clients) == s && r.0.clients.Keys == s.clients.Keys
      && r.0.clients[id].endpoint == s.clients[id].endpoint && r.0.clients[id].quiet == quiet
      && forall other :: other in s.clients && other != id ==> r.0.clients[other] == s.clients[other]
  {
    if id !in s.clients then (s, Some(Disappeared))
    else if s.clients[id].endpoint.None? then (s, Some(NotAttached))
    else (s.(clients := s.clients[id := s.clients[id].(quiet := quiet)]), None)
  }

  /** Whether the session takes this packet at all. */
  predicate Takes(s: Shared, p: Packet) {
    s.configuration.Some? && s.running && s.configuration.value.Matches(p)
  }

  function Received(s: Shared, p: Packet): Shared {
    s.(packets := History.Trimmed(s.packets + [p], s.capacity), received := s.received + p.Records())
  }

  /** A finite stream is complete once it has received its count. */
  predicate Complete(s: Shared) {
    && s.configuration.Some?
    && s.configuration.value.count != 0
    && s.received >= s.configuration.value.count
  }

  /** Clients that get a copy at once. */
  function Targets(s: Shared): set<nat> {
    set id | id in s.clients && !s.clients[id].quiet && s.clients[id].endpoint.Some? :: s.clients[id].endpoint.value
  }

  // ---------------------------------------------------------------------------
  // The state as an object
  // ---------------------------------------------------------------------------

  class SharedState {
    var configuration: Option<Configuration>
    var running: bool
    var received: nat
    var clients: map<nat, Client>
    const history: History.History

    ghost predicate Valid() reads this, history { history.Valid() }

    ghost function Model(): Shared
      reads this, history
    {
      Shared(configuration, running, received, clients, history.packets, history.capacity)
    }

    constructor ()
      ensures Valid() && fresh(history) && Model() == EMPTY
    {
      configuration, running, received, clients := None, false, 0, map[];
      history := new History.History();
    }

    method DetachAll()
      modifies this`clients
      ensures clients == AllDetached(old(clients))
    {
      clients := map id | id in clients :: DETACHED;
    }

    method End() returns (wasRunning: bool)
      requires Valid()
      modifies this, history
      ensures Valid() && Model() == Ended(old(Model())) && wasRunning == old(running)
    {
      wasRunning := running;
      running := false;
      received := 0;
      history.Clear();
      DetachAll();
    }

    method TearDown() returns (wasRunning: bool)
      requires Valid()
      modifies this, history
      ensures Valid() && Model() == TornDown(old(Model())) && wasRunning == old(running)
    {
      wasRunning := End();
      configuration := None;
    }

    method Attach(id: nat, endpoint: nat, quiet: bool) returns (found: bool)
      requires Valid()
      modifies this`clients
      ensures Valid() && Model() == Attached(old(Model()), id, endpoint, quiet) && found == (id in old(clients))
    {
      found := id in clients;
      if found {
        clients := clients[id := Client(Some(endpoint), quiet)];
      }
    }

    method Begin(id: nat, endpoint: nat, quiet: bool, capacity: nat) returns (found: bool)
      requires Valid()
      modifies this, history
      ensures Valid() && Model() == Begun(old(Model()), id, endpoint, quiet, capacity)
      ensures found == (id in old(clients))
    {
      running := true;
      received := 0;
      history.Reset(capacity);
      found := Attach(id, endpoint, quiet);
    }

    method SetQuiet(id: nat, quiet: bool) returns (error: Option<BrokerError>)
      requires Valid()
      modifies this`clients
      ensures Valid() && (Model(), error) == QuietSet(old(Model()), id, quiet)
    {
      if id !in clients {
        return Some(Disappeared);
      }
      if clients[id].endpoint.None? {
        return Some(NotAttached);
      }
      clients := clients[id := clients[id].(quiet := quiet)];
      error := None;
    }

    /** The locked part of handling one datagram; `recorded` says the storage worker took it. */
    method Process(packet: Packet, recorded: bool) returns (taken: bool, targets: set<nat>, complete: bool)
      requires Valid() && packet.Ok()
      modifies this`received, history`packets, history`records
      ensures Valid()
      ensures taken == (Takes(old(Model()), packet) && recorded)
      ensures taken <==>
        && recorded && running && configuration.Some?
        && packet.header.sources as int == |configuration.value.sources|
        && packet.header.decimation == configuration.value.decimation
      ensures Model() == if taken then Received(old(Model()), packet) else old(Model())
      ensures taken ==> targets == Targets(Model())
      ensures taken ==>
        forall endpoint: nat :: endpoint in targets <==>
          exists id :: id in clients && clients[id] == Client(Some(endpoint), false)
      ensures complete == (taken && Complete(Model()))
      ensures complete <==> taken && configuration.value.count > 0 && received >= configuration.value.count
    {
      taken, targets, complete := false, {}, false;
      if configuration.None? || !running {
        return;
      }
      if packet.Sources() != |configuration.value.sources| || packet.header.decimation != configuration.value.decimation {
        return;
      }
      if !recorded {
        return;
      }
      history.Push(packet);
      received := received + packet.Records();
      taken := true;
      targets := set id | id in clients && !clients[id].quiet && clients[id].endpoint.Some? :: clients[id].endpoint.value;
      complete := configuration.value.count != 0 && received >= configuration.value.count;
    }

    /** Answer a request for the last records: only a quiet, attached client of a running
        session gets them, and then exactly those. */
    method GetRecent(id: nat, requested: nat) returns (r: Result<(nat, seq<seq<Byte>>), BrokerError>)
      requires Valid()
      ensures r.Ok? <==>
        && requested > 0 && running && id in clients && clients[id].endpoint.Some? && clients[id].quiet
        && requested <= History.Total(history.packets)
      ensures r.Ok? ==>
        && r.value.0 == clients[id].endpoint.value
        && History.AllAccepted(r.value.1)
        && History.Log(History.DecodeAll(r.value.1)) == History.Last(History.Log(history.packets), requested)
      ensures r.Err? ==>
        r.error == if requested == 0 then BadValue
                   else if !running then NoActiveStream
                   else if id !in clients then Disappeared
                   else if clients[id].endpoint.None? then NotAttached
                   else if !clients[id].quiet then NotQuiet
                   else InsufficientHistory
    {
      if requested == 0 {
        return Err(BadValue);
      }
      if !running {
        return Err(NoActiveStream);
      }
      if id !in clients {
        return Err(Disappeared);
      }
      if clients[id].endpoint.None? {
        return Err(NotAttached);
      }
      if !clients[id].quiet {
        return Err(NotQuiet);
      }
      var replay := history.Recent(requested);
      if replay.None? {
        return Err(InsufficientHistory);
      }
      r := Ok((clients[id].endpoint.value, replay.value));
    }
  }
}
