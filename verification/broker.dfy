/** Broker tasks interleaved at lock-section boundaries. */
module Broker {
  import opened Wrappers
  import opened Words
  import opened Session
  import H = History

  /** The task that holds the stream-operations mutex, by what it does next. */
  datatype Operation =
    | Free
    | SetupRequested(setup: Configuration, generation: Option<nat>)
    | SetupConfirmed(setup: Configuration)
    | StartEntered(id: nat, endpoint: nat, quiet: bool)
    | StartIdle(id: nat, endpoint: nat, quiet: bool)
    | StartConfigured(id: nat, endpoint: nat, quiet: bool)
    | StartRequested
    | StartRejected
    | StopRequested
    | StopConfirmed
    | CompleteEntered(number: nat)

  /** Histories: `begun` numbers the sessions, `session` holds every packet taken since the
      last one began, and `torn` lists the connection generations torn down, in order.
      `cleanups` counts the tasks that have still to clean up; `completions` holds, for every
      task that has still to end a finite session, the number of the session it saw complete. */
  datatype System = System(
    shared: Shared,
    upstream: Option<nat>, nextGeneration: nat,
    operation: Operation,
    cleanups: nat, completions: seq<nat>,
    begun: nat, session: seq<Packet>, torn: seq<nat>)

  const STARTUP := System(EMPTY, None, 1, Free, 0, [], 0, [], [])

  datatype Event =
    | Register(id: nat)
    | Unregister(id: nat)
    | SetQuiet(id: nat, quiet: bool)
    | Datagram(wire: seq<Byte>, recorded: bool)
    | Connect
    | Lose(generation: nat)
    | CleanUp
    | EnterSetup(payload: seq<Byte>)
    | EnterStart(id: nat, endpoint: nat, quiet: bool)
    | EnterStop
    | EnterCompletion(i: nat)
    | Proceed(accepted: bool, capacity: nat)

  /** The session over, whichever section ended it. */
  function End(s: System): System { s.(shared := Ended(s.shared), session := []) }

  function Taken(s: System, p: Packet): System {
    var shared := Received(s.shared, p);
    s.(shared := shared, session := s.session + [p],
       completions := s.completions + if Complete(shared) then [s.begun] else [])
  }

  /** The holder of the operations mutex runs its next section; `accepted` is the outcome of
      the request it was waiting for. */
  function Proceeded(s: System, accepted: bool, capacity: nat): System {
    match s.operation
    case Free => s
    case SetupRequested(setup, generation) =>
      s.(operation := if accepted && s.upstream == generation then SetupConfirmed(setup) else Free)
    case SetupConfirmed(setup) =>
      s.(shared := s.shared.(configuration := Some(setup)), operation := Free)
    case StartEntered(id, endpoint, quiet) =>
      if s.shared.running then s.(shared := Attached(s.shared, id, endpoint, quiet), operation := Free)
      else s.(operation := StartIdle(id, endpoint, quiet))
    case StartIdle(id, endpoint, quiet) =>
      s.(operation := if s.shared.configuration.None? || !accepted then Free else StartConfigured(id, endpoint, quiet))
    case StartConfigured(id, endpoint, quiet) =>
      if !accepted then s.(operation := Free)
      else
        s.(shared := Begun(s.shared, id, endpoint, quiet, capacity), begun := s.begun + 1, session := [],
           operation := if id in s.shared.clients then StartRequested else Free)
    case StartRequested => s.(operation := if accepted then Free else StartRejected)
    case StartRejected => End(s).(operation := Free)
    case StopRequested => s.(operation := if accepted then StopConfirmed else Free)
    case StopConfirmed => End(s).(operation := Free)
    case CompleteEntered(_) => (if s.shared.running then End(s) else s).(operation := Free)
  }

  function Step(s: System, event: Event): System {
    match event
    case Register(id) =>
      if id in s.shared.clients then s else s.(shared := s.shared.(clients := s.shared.clients[id := DETACHED]))
    case Unregister(id) => s.(shared := s.shared.(clients := s.shared.clients - {id}))
    case SetQuiet(id, quiet) => s.(shared := QuietSet(s.shared, id, quiet).0)
    case Datagram(wire, recorded) =>
      (match H.PacketOf(wire)
       case None => s
       case Some(p) => if Takes(s.shared, p) && recorded then Taken(s, p) else s)
    case Connect =>
      if s.upstream.Some? then s else s.(upstream := Some(s.nextGeneration), nextGeneration := s.nextGeneration + 1)
    case Lose(generation) =>
      if s.upstream == Some(generation)
      then s.(upstream := None, torn := s.torn + [generation], cleanups := s.cleanups + 1)
      else s
    case CleanUp =>
      if s.cleanups == 0 then s
      else s.(shared := TornDown(s.shared), session := [], cleanups := s.cleanups - 1)
    case EnterSetup(payload) =>
      if s.operation != Free || s.shared.running then s
      else (match DecodeConfiguration(payload)
            case None => s
            case Some(setup) => s.(operation := SetupRequested(setup, s.upstream)))
    case EnterStart(id, endpoint, quiet) =>
      if s.operation == Free && endpoint != 0 then s.(operation := StartEntered(id, endpoint, quiet)) else s
    case EnterStop => if s.operation == Free then s.(operation := StopRequested) else s
    case EnterCompletion(i) =>
      if s.operation == Free && i < |s.completions|
      then s.(operation := CompleteEntered(s.completions[i]), completions := s.completions[..i] + s.completions[i + 1..])
      else s
    case Proceed(accepted, capacity) => Proceeded(s, accepted, capacity)
  }

  function Run(s: System, events: seq<Event>): System {
    if events == [] then s else Step(Run(s, events[..|events| - 1]), events[|events| - 1])
  }

  // ---------------------------------------------------------------------------
  // Coherence
  // ---------------------------------------------------------------------------

  /** No client is attached or quiet. */
  ghost predicate NobodyAttached(clients: map<nat, Client>) {
    forall id :: id in clients ==> clients[id] == DETACHED
  }

  ghost predicate QuietMeansAttached(clients: map<nat, Client>) {
    forall id :: id in clients && clients[id].quiet ==> clients[id].endpoint.Some?
  }

  /** Every packet taken matches the configuration in force, and there is one. */
  ghost predicate OneLayout(configuration: Option<Configuration>, packets: seq<Packet>) {
    packets != [] ==>
      && configuration.Some?
      && forall i :: 0 <= i < |packets| ==> configuration.value.Matches(packets[i])
  }

  ghost predicate Coherent(s: System) {
    && H.AllOk(s.session)
    && s.shared.packets == H.Pushed(s.session, s.shared.capacity)
    && s.shared.received == H.Total(s.session)
    && OneLayout(s.shared.configuration, s.session)
    && QuietMeansAttached(s.shared.clients)
    && (!s.shared.running ==> s.session == [] && NobodyAttached(s.shared.clients))
  }

  /** While these operations hold the mutex nothing can have started a session. */
  predicate StillIdle(s: System) {
    s.operation.SetupRequested? || s.operation.SetupConfirmed? || s.operation.StartIdle? || s.operation.StartConfigured?
    ==> !s.shared.running
  }

  ghost predicate Generations(s: System) {
    && (s.upstream.Some? ==> s.upstream.value < s.nextGeneration && s.upstream.value !in s.torn)
    && (forall i :: 0 <= i < |s.torn| ==> s.torn[i] < s.nextGeneration)
    && (forall i, j :: 0 <= i < j < |s.torn| ==> s.torn[i] != s.torn[j])
  }

  lemma TakenIsCoherent(s: System, p: Packet)
    requires Coherent(s) && p.Ok() && Takes(s.shared, p)
    ensures Coherent(Taken(s, p))
  {
    hide H.Trimmed, H.Packet.Ok;
    H.TotalAppend(s.session, [p]);
    assert [p][1..] == [];
    assert (s.session + [p])[..|s.session|] == s.session;
  }

  lemma StepIsCoherent(s: System, event: Event)
    requires Coherent(s) && StillIdle(s)
    ensures Coherent(Step(s, event)) && StillIdle(Step(s, event))
  {
    hide H.Pushed, H.Trimmed, H.Total, H.Packet.Ok, DecodeConfiguration, Taken, Configuration.Matches;
    EmptySession(s.shared.capacity);
    match event {
      case Datagram(wire, recorded) =>
        var p := H.PacketOf(wire);
        if p.Some? && Takes(s.shared, p.value) && recorded {
          TakenIsCoherent(s, p.value);
          TakenKeepsOperation(s, p.value);
        }
      case Proceed(accepted, capacity) => ProceedIsCoherent(s, accepted, capacity);
      case _ =>
    }
  }

  lemma EmptySession(capacity: nat)
    ensures H.Pushed([], capacity) == [] && H.Total([]) == 0
  {}

  lemma TakenKeepsOperation(s: System, p: Packet)
    ensures Taken(s, p).operation == s.operation && Taken(s, p).shared.running == s.shared.running
  {}

  lemma ProceedIsCoherent(s: System, accepted: bool, capacity: nat)
    requires Coherent(s) && StillIdle(s)
    ensures Coherent(Proceeded(s, accepted, capacity)) && StillIdle(Proceeded(s, accepted, capacity))
  {
    hide H.Pushed, H.Trimmed, H.Total, H.Packet.Ok, Configuration.Matches;
    EmptySession(s.shared.capacity);
    EmptySession(if capacity == 0 then 1 else capacity);
  }

  /** In every interleaving of lock sections: without a running session the history is empty,
      nothing has been received and every client is detached and not quiet; a quiet client is
      attached; and everything held came from the running session and has its layout. */
  lemma {:induction false} AlwaysCoherent(events: seq<Event>)
    ensures Coherent(Run(STARTUP, events)) && StillIdle(Run(STARTUP, events))
  {
    hide Coherent, StillIdle, Step;
    if events == [] {
      StartupIsCoherent();
    } else {
      AlwaysCoherent(events[..|events| - 1]);
      StepIsCoherent(Run(STARTUP, events[..|events| - 1]), events[|events| - 1]);
    }
  }

  lemma StartupIsCoherent()
    ensures Coherent(STARTUP) && StillIdle(STARTUP)
    ensures !STARTUP.shared.running && STARTUP.shared.configuration.None? && STARTUP.shared.clients == map[]
  {}

  /** Every packet has as many sources and the decimation that the configuration says. */
  ghost predicate LaidOutAs(configuration: Option<Configuration>, packets: seq<Packet>) {
    packets != [] ==>
      && configuration.Some?
      && forall i :: 0 <= i < |packets| ==>
           && packets[i].header.sources as int == |configuration.value.sources|
           && packets[i].header.decimation == configuration.value.decimation
  }

  /** In every interleaving, all that the running session received and all that is held for
      replay have the number of sources and the decimation of the configuration in force, so
      a late packet of another layout reaches neither. */
  lemma {:induction false} EveryPacketHasTheLayout(events: seq<Event>)
    ensures
      var s := Run(STARTUP, events);
      LaidOutAs(s.shared.configuration, s.session) && LaidOutAs(s.shared.configuration, s.shared.packets)
  {
    AlwaysCoherent(events);
    var s := Run(STARTUP, events);
    hide Run;
    HeldAreReceived(s);
  }

  lemma HeldAreReceived(s: System)
    requires Coherent(s)
    ensures LaidOutAs(s.shared.configuration, s.session) && LaidOutAs(s.shared.configuration, s.shared.packets)
  {
    hide H.Pushed, H.Packet.Ok, H.Total;
    H.PushedIsSuffix(s.session, s.shared.capacity);
    var n := |s.session| - |s.shared.packets|;
    forall i | 0 <= i < |s.shared.packets| ensures s.shared.packets[i] == s.session[n + i] {}
  }

  /** The last `n` records of the history are the last ones received since this session
      began, all in the layout in force. */
  ghost predicate ReplaysOwnSession(s: System, n: nat) {
    && H.AllOk(s.shared.packets) && H.AllOk(s.session)
    && n <= H.Total(s.shared.packets) && n <= H.Total(s.session)
    && H.Last(H.Log(s.shared.packets), n) == H.Last(H.Log(s.session), n)
    && OneLayout(s.shared.configuration, s.session)
    && (n > 0 ==> s.shared.running)
  }

  /** What a client can be replayed is exactly the end of its own session, for as many
      records as the history holds. */
  lemma {:induction false} ReplayNeverMixesSessions(events: seq<Event>, n: nat)
    requires n <= H.Total(Run(STARTUP, events).shared.packets)
    ensures ReplaysOwnSession(Run(STARTUP, events), n)
  {
    hide H.Pushed, H.Log, H.Last, H.Packet.Ok, Step;
    AlwaysCoherent(events);
    var s := Run(STARTUP, events);
    EmptySession(s.shared.capacity);
    H.HistoryAgreesWithTheLog(s.session, s.shared.capacity, n);
  }

  /** However failures and reboots race to report a loss, each connection is torn down at
      most once, and never after a newer one has replaced it. */
  lemma {:induction false} EachGenerationOnce(events: seq<Event>)
    ensures Generations(Run(STARTUP, events))
  {
    hide Taken, Proceeded;
    if events != [] {
      var s := Run(STARTUP, events[..|events| - 1]);
      EachGenerationOnce(events[..|events| - 1]);
      var event := events[|events| - 1];
      if !event.Connect? && !event.Lose? { GenerationsElsewhere(s, event); }
    }
  }

  lemma GenerationsElsewhere(s: System, event: Event)
    requires !event.Connect? && !event.Lose?
    ensures
      var t := Step(s, event);
      t.upstream == s.upstream && t.nextGeneration == s.nextGeneration && t.torn == s.torn
  {
    hide DecodeConfiguration, H.PacketOf;
  }

  // ---------------------------------------------------------------------------
  // What begins, changes and ends a session
  // ---------------------------------------------------------------------------

  function Upto(events: seq<Event>, n: nat): System
    requires n <= |events|
  {
    Run(STARTUP, events[..n])
  }

  /** At event `k` the request that this operation was waiting for was answered. */
  ghost predicate Answered(events: seq<Event>, k: nat, operation: Operation, accepted: bool) {
    && k < |events| && events[k].Proceed? && events[k].accepted == accepted
    && Upto(events, k).operation == operation
  }

  /** This setup was entered over this connection while nothing ran and no operation was held. */
  ghost predicate SetupEntered(events: seq<Event>, i: nat, setup: Configuration, generation: Option<nat>) {
    && i < |events| && events[i].EnterSetup? && DecodeConfiguration(events[i].payload) == Some(setup)
    && Upto(events, i).upstream == generation && !Upto(events, i).shared.running && Upto(events, i).operation == Free
  }

  /** The device then accepted it over the same connection. */
  ghost predicate SetupGranted(events: seq<Event>, i: nat, k: nat, setup: Configuration) {
    && i < k < |events| && SetupEntered(events, i, setup, Upto(events, i).upstream)
    && Answered(events, k, SetupRequested(setup, Upto(events, i).upstream), true)
    && Upto(events, k).upstream == Upto(events, i).upstream
  }

  /** This start was entered with an endpoint. */
  ghost predicate StartAsked(events: seq<Event>, i: nat, id: nat, endpoint: nat, quiet: bool) {
    i < |events| && events[i] == EnterStart(id, endpoint, quiet) && endpoint != 0 && Upto(events, i).operation == Free
  }

  /** Nothing ran then, and with a configuration in place what it had to begin by was granted. */
  ghost predicate StartGranted(events: seq<Event>, i: nat, k: nat, id: nat, endpoint: nat, quiet: bool) {
    && i < k < |events| && StartAsked(events, i, id, endpoint, quiet)
    && Answered(events, k, StartIdle(id, endpoint, quiet), true)
    && Upto(events, k).shared.configuration.Some? && !Upto(events, k).shared.running
  }

  ghost predicate StopAsked(events: seq<Event>, i: nat) {
    i < |events| && events[i] == EnterStop && Upto(events, i).operation == Free
  }

  ghost predicate StopGranted(events: seq<Event>, i: nat, k: nat) {
    && i < k < |events| && events[i] == EnterStop && Upto(events, i).operation == Free
    && Answered(events, k, StopRequested, true)
  }

  /** The operation that holds the mutex got where it is by being asked for and granted. */
  ghost predicate Earned(events: seq<Event>, operation: Operation) {
    match operation
    case SetupRequested(setup, generation) => exists i: nat :: SetupEntered(events, i, setup, generation)
    case SetupConfirmed(setup) => exists i: nat, k: nat :: SetupGranted(events, i, k, setup)
    case StartEntered(id, endpoint, quiet) => exists i: nat :: StartAsked(events, i, id, endpoint, quiet)
    case StartIdle(id, endpoint, quiet) => exists i: nat :: StartAsked(events, i, id, endpoint, quiet)
    case StartConfigured(id, endpoint, quiet) => exists i: nat, k: nat :: StartGranted(events, i, k, id, endpoint, quiet)
    case StartRejected => exists k: nat :: Answered(events, k, StartRequested, false)
    case StopRequested => exists i: nat :: StopAsked(events, i)
    case StopConfirmed => exists i: nat, k: nat :: StopGranted(events, i, k)
    case _ => true
  }

  lemma UptoOfLonger(events: seq<Event>, event: Event, n: nat)
    requires n <= |events|
    ensures Upto(events + [event], n) == Upto(events, n)
  {
    assert (events + [event])[..n] == events[..n];
  }

  lemma EarnedLonger(events: seq<Event>, event: Event, operation: Operation)
    requires Earned(events, operation)
    ensures Earned(events + [event], operation)
  {
    hide Upto, DecodeConfiguration;
    var longer := events + [event];
    match operation {
      case SetupRequested(setup, generation) =>
        var i: nat :| SetupEntered(events, i, setup, generation);
        UptoOfLonger(events, event, i);
        assert SetupEntered(longer, i, setup, generation);
      case SetupConfirmed(setup) =>
        var i: nat, k: nat :| SetupGranted(events, i, k, setup);
        UptoOfLonger(events, event, i);
        UptoOfLonger(events, event, k);
        assert SetupGranted(longer, i, k, setup);
      case StartEntered(id, endpoint, quiet) =>
        var i: nat :| StartAsked(events, i, id, endpoint, quiet);
        UptoOfLonger(events, event, i);
        assert StartAsked(longer, i, id, endpoint, quiet);
      case StartIdle(id, endpoint, quiet) =>
        var i: nat :| StartAsked(events, i, id, endpoint, quiet);
        UptoOfLonger(events, event, i);
        assert StartAsked(longer, i, id, endpoint, quiet);
      case StartConfigured(id, endpoint, quiet) =>
        var i: nat, k: nat :| StartGranted(events, i, k, id, endpoint, quiet);
        UptoOfLonger(events, event, i);
        UptoOfLonger(events, event, k);
        assert StartGranted(longer, i, k, id, endpoint, quiet);
      case StartRejected =>
        var k: nat :| Answered(events, k, StartRequested, false);
        UptoOfLonger(events, event, k);
        assert Answered(longer, k, StartRequested, false);
      case StopRequested =>
        var i: nat :| StopAsked(events, i);
        UptoOfLonger(events, event, i);
        assert StopAsked(longer, i);
      case StopConfirmed =>
        var i: nat, k: nat :| StopGranted(events, i, k);
        UptoOfLonger(events, event, i);
        UptoOfLonger(events, event, k);
        assert StopGranted(longer, i, k);
      case _ =>
    }
  }

  /** Entering an operation is what earns its first step. */
  lemma EnteringEarns(events: seq<Event>, event: Event)
    requires !event.Proceed? && Earned(events, Run(STARTUP, events).operation)
    ensures Earned(events + [event], Step(Run(STARTUP, events), event).operation)
  {
    var s, n, longer := Run(STARTUP, events), |events|, events + [event];
    UptoOfLonger(events, event, n);
    assert events[..n] == events && longer[n] == event;
    EarnedLonger(events, event, s.operation);
    hide Run, Earned, DecodeConfiguration, H.PacketOf;
    if Step(s, event).operation != s.operation {
      match event {
        case EnterSetup(payload) => assert SetupEntered(longer, n, DecodeConfiguration(payload).value, s.upstream);
        case EnterStart(id, endpoint, quiet) => assert StartAsked(longer, n, id, endpoint, quiet);
        case EnterStop => assert StopAsked(longer, n);
        case _ =>
      }
      EarnedAtOnce(longer, Step(s, event).operation, n, s.upstream);
    }
  }

  lemma EarnedAtOnce(events: seq<Event>, operation: Operation, n: nat, upstream: Option<nat>)
    requires operation.SetupRequested? ==> SetupEntered(events, n, operation.setup, operation.generation)
    requires operation.StartEntered? ==> StartAsked(events, n, operation.id, operation.endpoint, operation.quiet)
    requires operation.StopRequested? ==> StopAsked(events, n)
    requires operation.SetupRequested? || operation.StartEntered? || operation.StopRequested?
          || operation.CompleteEntered? || operation.Free?
    ensures Earned(events, operation)
  {
    hide Upto, SetupEntered, StartAsked, StopAsked;
  }

  lemma SetupAnswered(events: seq<Event>, event: Event, setup: Configuration, generation: Option<nat>)
    requires event.Proceed? && event.accepted && Run(STARTUP, events).operation == SetupRequested(setup, generation)
    requires Run(STARTUP, events).upstream == generation && Earned(events, SetupRequested(setup, generation))
    ensures Earned(events + [event], SetupConfirmed(setup))
  {
    var n := |events|;
    EarnedLonger(events, event, SetupRequested(setup, generation));
    UptoOfLonger(events, event, n);
    assert events[..n] == events;
    hide Run, DecodeConfiguration;
    var i: nat :| SetupEntered(events + [event], i, setup, generation) && i < n;
    assert SetupGranted(events + [event], i, n, setup);
  }

  lemma StartAnswered(events: seq<Event>, event: Event, id: nat, endpoint: nat, quiet: bool)
    requires event.Proceed? && event.accepted && Run(STARTUP, events).operation == StartIdle(id, endpoint, quiet)
    requires Run(STARTUP, events).shared.configuration.Some? && !Run(STARTUP, events).shared.running
    requires Earned(events, StartIdle(id, endpoint, quiet))
    ensures Earned(events + [event], StartConfigured(id, endpoint, quiet))
  {
    var n := |events|;
    EarnedLonger(events, event, StartIdle(id, endpoint, quiet));
    UptoOfLonger(events, event, n);
    assert events[..n] == events;
    hide Run, DecodeConfiguration;
    var i: nat :| StartAsked(events + [event], i, id, endpoint, quiet) && i < n;
    assert StartGranted(events + [event], i, n, id, endpoint, quiet);
  }

  lemma StopAnswered(events: seq<Event>, event: Event)
    requires event.Proceed? && event.accepted && Run(STARTUP, events).operation == StopRequested
    requires Earned(events, StopRequested)
    ensures Earned(events + [event], StopConfirmed)
  {
    var n := |events|;
    EarnedLonger(events, event, StopRequested);
    UptoOfLonger(events, event, n);
    assert events[..n] == events;
    hide Run, DecodeConfiguration;
    var i: nat :| StopAsked(events + [event], i) && i < n;
    assert StopGranted(events + [event], i, n);
  }

  lemma RefusalAnswered(events: seq<Event>, event: Event)
    requires event.Proceed? && !event.accepted && Run(STARTUP, events).operation == StartRequested
    ensures Earned(events + [event], StartRejected)
  {
    var n := |events|;
    UptoOfLonger(events, event, n);
    assert events[..n] == events;
    hide Run;
    assert Answered(events + [event], n, StartRequested, false);
  }

  /** An answer is what earns the next. */
  lemma AnswerEarns(events: seq<Event>, event: Event)
    requires event.Proceed? && Earned(events, Run(STARTUP, events).operation) && StillIdle(Run(STARTUP, events))
    ensures Earned(events + [event], Step(Run(STARTUP, events), event).operation)
  {
    var s := Run(STARTUP, events);
    hide Run, DecodeConfiguration, H.PacketOf, SetupEntered, SetupGranted, StartAsked, StartGranted, StopAsked, StopGranted, Answered;
    match s.operation {
      case SetupRequested(setup, generation) =>
        if event.accepted && s.upstream == generation { SetupAnswered(events, event, setup, generation); }
      case StartIdle(id, endpoint, quiet) =>
        if event.accepted && s.shared.configuration.Some? { StartAnswered(events, event, id, endpoint, quiet); }
      case StartEntered(id, endpoint, quiet) => EarnedLonger(events, event, StartIdle(id, endpoint, quiet));
      case StartRequested => if !event.accepted { RefusalAnswered(events, event); }
      case StopRequested => if event.accepted { StopAnswered(events, event); }
      case _ =>
    }
  }

  lemma {:induction false} OperationsAreEarned(events: seq<Event>)
    ensures Earned(events, Run(STARTUP, events).operation)
  {
    hide Step, Earned, StillIdle;
    if events == [] {
      FreeIsEarned();
    } else {
      var n := |events| - 1;
      OperationsAreEarned(events[..n]);
      AlwaysCoherent(events[..n]);
      if events[n].Proceed? { AnswerEarns(events[..n], events[n]); } else { EnteringEarns(events[..n], events[n]); }
      assert events[..n] + [events[n]] == events;
    }
  }

  lemma FreeIsEarned()
    ensures Earned([], Run(STARTUP, []).operation)
  {}

  /** In every interleaving: a configuration comes into force only if it was set up while nothing
      ran and the device accepted it over the connection it was asked over, and is forgotten only
      when a lost connection is cleaned up. A session begins only if it was asked for with an
      endpoint, in place of none, with a configuration in place; and it ends only by a stop the
      device accepted, a completion, a start the device refused, or such a cleaning up. */
  lemma WhatMovesASession(events: seq<Event>, event: Event)
    ensures
      var s := Run(STARTUP, events);
      var t := Step(s, event);
      && (t.shared.configuration != s.shared.configuration ==>
            match t.shared.configuration
            case Some(setup) => exists i: nat, k: nat :: SetupGranted(events, i, k, setup)
            case None => event.CleanUp? && s.cleanups > 0)
      && (!s.shared.running && t.shared.running ==>
            && s.operation.StartConfigured?
            && exists i: nat, k: nat :: StartGranted(
                 events, i, k, s.operation.id, s.operation.endpoint, s.operation.quiet))
      && (s.shared.running && !t.shared.running ==>
            || (event.CleanUp? && s.cleanups > 0)
            || s.operation.CompleteEntered?
            || (exists i: nat, k: nat :: StopGranted(events, i, k))
            || (exists k: nat :: Answered(events, k, StartRequested, false)))
  {
    OperationsAreEarned(events);
    var s := Run(STARTUP, events);
    hide Run, Upto, DecodeConfiguration, H.PacketOf, H.Trimmed, SetupGranted, StartGranted, StopGranted, Answered;
  }

  /** A datagram joins the running session exactly when it is a packet of the configured number of
      sources and decimation and was recorded; otherwise nothing changes. */
  lemma ReceivedExactly(s: System, wire: seq<Byte>, recorded: bool)
    ensures
      var t, packet := Step(s, Datagram(wire, recorded)), H.PacketOf(wire);
      if recorded && s.shared.running && s.shared.configuration.Some? && packet.Some?
         && packet.value.header.sources as int == |s.shared.configuration.value.sources|
         && packet.value.header.decimation == s.shared.configuration.value.decimation
      then
        && t.session == s.session + [packet.value]
        && t.shared.received == s.shared.received + packet.value.header.records
        && t.shared.(received := 0, packets := []) == s.shared.(received := 0, packets := [])
      else t == s
  {
    hide H.PacketOf, H.Trimmed;
  }

  /** Clients come detached and go; a client already there, and every other, keeps its state. */
  lemma ClientsComeAndGo(s: System, id: nat)
    ensures
      var t := Step(s, Register(id)).shared.clients;
      && t.Keys == s.shared.clients.Keys + {id}
      && (forall other :: other in s.shared.clients ==> t[other] == s.shared.clients[other])
      && (id !in s.shared.clients ==> t[id].endpoint.None? && !t[id].quiet)
    ensures
      var t := Step(s, Unregister(id)).shared.clients;
      && t.Keys == s.shared.clients.Keys - {id}
      && (forall other :: other in t ==> t[other] == s.shared.clients[other])
  {}

  /** A connection is made only in place of none, under a number never used before, and lost only
      by its own number, which leaves one more cleaning up to do. */
  lemma ConnectionsComeAndGo(s: System, generation: nat)
    ensures
      var t := Step(s, Connect);
      if s.upstream.Some? then t == s
      else t.upstream == Some(s.nextGeneration) && t.nextGeneration == s.nextGeneration + 1 && t.shared == s.shared
    ensures
      var t := Step(s, Lose(generation));
      if s.upstream == Some(generation)
      then t.upstream == None && t.cleanups == s.cleanups + 1 && t.torn == s.torn + [generation] && t.shared == s.shared
      else t == s
    ensures
      var t := Step(s, CleanUp);
      if s.cleanups == 0 then t == s
      else
        && t.cleanups == s.cleanups - 1 && t.shared.configuration.None? && !t.shared.running
        && t.upstream == s.upstream && t.operation == s.operation
  {}

  /** Only an attached client's replay is held back or let go, and nothing else changes by it. */
  lemma QuietIsForTheAttached(s: System, id: nat, quiet: bool)
    ensures
      var t, clients := Step(s, SetQuiet(id, quiet)), s.shared.clients;
      if id in clients && clients[id].endpoint.Some?
      then t == s.(shared := s.shared.(clients := clients[id := Client(clients[id].endpoint, quiet)]))
      else t == s
  {}

  /** A start joins the session that is running: the client gets its packets from then on, and
      the session, all other clients and the device are left alone. */
  lemma StartJoinsTheRunningSession(s: System, id: nat, endpoint: nat, quiet: bool)
    requires s.operation == Free && s.shared.running && endpoint != 0 && id in s.shared.clients
    ensures
      Run(s, [EnterStart(id, endpoint, quiet), GRANTED])
      == s.(shared := s.shared.(clients := s.shared.clients[id := Client(Some(endpoint), quiet)]))
  {
    RunTwo(s, EnterStart(id, endpoint, quiet), GRANTED);
    hide Run;
  }

  /** A completion that gets the mutex is spent: it never gets it again. */
  lemma CompletionIsSpent(s: System, i: nat)
    ensures
      var t := Step(s, EnterCompletion(i));
      if s.operation == Free && i < |s.completions| then
        && t.operation == CompleteEntered(s.completions[i]) && t.shared == s.shared
        && multiset(t.completions) + multiset{s.completions[i]} == multiset(s.completions)
      else t == s
  {
    if i < |s.completions| {
      assert s.completions == s.completions[..i] + [s.completions[i]] + s.completions[i + 1..];
    }
  }

  /** A setup that the device accepts over the connection it was asked over takes effect. */
  lemma SetupTakesEffect(s: System, payload: seq<Byte>)
    requires s.operation == Free && !s.shared.running && DecodeConfiguration(payload).Some?
    ensures
      var t := Run(s, [EnterSetup(payload), GRANTED] + [GRANTED]);
      t.operation == Free && t.shared == s.shared.(configuration := DecodeConfiguration(payload))
  {
    RunAppend(s, [EnterSetup(payload), GRANTED], [GRANTED]);
    RunTwo(s, EnterSetup(payload), GRANTED);
    RunOne(Run(s, [EnterSetup(payload), GRANTED]), GRANTED);
    hide DecodeConfiguration;
  }

  // ---------------------------------------------------------------------------
  // Which session a completion ends
  // ---------------------------------------------------------------------------

  /** This section begins a session: a start, accepted by the device, goes ahead. */
  predicate Begins(s: System, event: Event) { s.operation.StartConfigured? && event.Proceed? && event.accepted }

  /** This datagram brings session `number`, the running one, to its count. */
  predicate Completes(s: System, event: Event, number: nat) {
    && event.Datagram? && event.recorded && H.PacketOf(event.wire).Some?
    && var p := H.PacketOf(event.wire).value;
       Takes(s.shared, p) && Complete(Received(s.shared, p)) && s.begun == number
  }

  ghost predicate CompletedAt(events: seq<Event>, i: nat, number: nat) {
    i < |events| && Completes(Upto(events, i), events[i], number)
  }

  ghost predicate CompletedIn(events: seq<Event>, number: nat) {
    exists i: nat :: CompletedAt(events, i, number)
  }

  ghost predicate BegunSince(events: seq<Event>, i: nat) {
    exists j: nat :: i < j < |events| && Begins(Upto(events, j), events[j])
  }

  /** A completion waiting for the mutex, or holding it. */
  predicate Waits(s: System, number: nat) {
    number in s.completions || s.operation == CompleteEntered(number)
  }

  /** Every completion waiting was caused by a datagram of its session, and as long as that
      session is the one running it has received its count. */
  ghost predicate Caused(events: seq<Event>, s: System) {
    forall number: nat :: Waits(s, number) ==>
      && CompletedIn(events, number) && number <= s.begun
      && (s.shared.running && s.begun == number ==> Complete(s.shared))
  }

  lemma CompletedInLonger(events: seq<Event>, event: Event, number: nat)
    requires CompletedIn(events, number)
    ensures CompletedIn(events + [event], number)
  {
    hide Run;
    var i: nat :| CompletedAt(events, i, number);
    assert (events + [event])[..i] == events[..i];
    assert CompletedAt(events + [event], i, number);
  }

  lemma CompletedNow(events: seq<Event>, event: Event, number: nat)
    requires Completes(Run(STARTUP, events), event, number)
    ensures CompletedIn(events + [event], number)
  {
    hide Run;
    assert (events + [event])[..|events|] == events;
    assert CompletedAt(events + [event], |events|, number);
  }

  /** A completion waiting after a section was waiting before it, or was caused by it; and the
      section leaves its session complete, or not running. */
  lemma WaitingBefore(s: System, event: Event, number: nat)
    requires StillIdle(s) && Waits(Step(s, event), number)
    ensures Waits(s, number) || Completes(s, event, number)
    ensures Step(s, event).begun == s.begun + if Begins(s, event) then 1 else 0
    ensures
      var t := Step(s, event);
      && (Completes(s, event, number) ==> Complete(t.shared) && t.begun == number)
      && (t.shared.running && t.begun == s.begun && Complete(s.shared) ==> s.shared.running && Complete(t.shared))
  {
    hide DecodeConfiguration, H.PacketOf, H.Trimmed, Configuration.Matches;
  }

  lemma CausedStep(events: seq<Event>, event: Event)
    requires Caused(events, Run(STARTUP, events)) && StillIdle(Run(STARTUP, events))
    ensures Caused(events + [event], Step(Run(STARTUP, events), event))
  {
    var s := Run(STARTUP, events);
    hide Run, Step, Waits, Complete, Completes, Begins, CompletedIn;
    forall number: nat | Waits(Step(s, event), number)
      ensures CompletedIn(events + [event], number) && number <= Step(s, event).begun
      ensures Step(s, event).shared.running && Step(s, event).begun == number ==> Complete(Step(s, event).shared)
    {
      WaitingBefore(s, event, number);
      if Completes(s, event, number) {
        CompletedNow(events, event, number);
      } else {
        CompletedInLonger(events, event, number);
        if Step(s, event).shared.running && !Begins(s, event) { RunsOn(s, event); }
      }
    }
  }

  /** No section but a start that begins a session sets one running. */
  lemma RunsOn(s: System, event: Event)
    requires !Begins(s, event) && Step(s, event).shared.running
    ensures s.shared.running
  {
    hide DecodeConfiguration, H.PacketOf, H.Trimmed, Configuration.Matches;
  }

  lemma {:induction false} CausedAlways(events: seq<Event>)
    ensures Caused(events, Run(STARTUP, events))
  {
    hide Caused, Step;
    if events == [] {
      CausedAtStartup();
    } else {
      var n := |events| - 1;
      CausedAlways(events[..n]);
      AlwaysCoherent(events[..n]);
      CausedStep(events[..n], events[n]);
      assert events[..n] + [events[n]] == events;
    }
  }

  lemma CausedAtStartup()
    ensures Caused([], Run(STARTUP, []))
  {}

  lemma BegunStep(s: System, event: Event)
    ensures Step(s, event).begun == s.begun + if Begins(s, event) then 1 else 0
  {
    hide DecodeConfiguration, H.PacketOf, H.Trimmed, Configuration.Matches;
  }

  /** Sessions are numbered one by one as they begin. */
  lemma {:induction false} BegunCounts(events: seq<Event>, i: nat, n: nat)
    requires i <= n <= |events|
    ensures Upto(events, i).begun <= Upto(events, n).begun
    ensures Upto(events, i).begun < Upto(events, n).begun
            <==> exists j: nat :: i <= j < n && Begins(Upto(events, j), events[j])
  {
    hide Step, Begins;
    if i < n {
      BegunCounts(events, i, n - 1);
      assert events[..n][..n - 1] == events[..n - 1];
      BegunStep(Upto(events, n - 1), events[n - 1]);
    }
  }

  /** What the completion that holds the mutex does: it ends only its own session, or nothing. */
  predicate EndsOnlyItsOwn(s: System)
    requires s.operation.CompleteEntered?
  {
    s.shared.running ==> s.begun == s.operation.number
  }

  /** A completion was caused by a datagram that brought its session to its count. In every
      interleaving it ends that session, which then has received its count, or nothing, if and
      only if no session begun after that datagram is running; granting no start in between
      is enough. Nothing runs once it is done. */
  lemma CompletionEndsItsOwnSession(events: seq<Event>, accepted: bool, capacity: nat)
    requires Run(STARTUP, events).operation.CompleteEntered?
    ensures
      var s := Run(STARTUP, events);
      && CompletedIn(events, s.operation.number)
      && (forall i: nat :: CompletedAt(events, i, s.operation.number) ==>
            (EndsOnlyItsOwn(s) <==> !(s.shared.running && BegunSince(events, i))))
      && (EndsOnlyItsOwn(s) && s.shared.running ==> Complete(s.shared))
      && !Step(s, Proceed(accepted, capacity)).shared.running
  {
    var s := Run(STARTUP, events);
    CausedAlways(events);
    assert Waits(s, s.operation.number);
    NothingRunsAfterCompletion(s, accepted, capacity);
    hide *;
    forall i: nat | CompletedAt(events, i, s.operation.number)
      ensures EndsOnlyItsOwn(s) <==> !(s.shared.running && BegunSince(events, i))
    {
      OwnUnlessBegunSince(events, i);
    }
    CausedFor(events, s, s.operation.number);
  }

  lemma NothingRunsAfterCompletion(s: System, accepted: bool, capacity: nat)
    requires s.operation.CompleteEntered?
    ensures !Step(s, Proceed(accepted, capacity)).shared.running
  {}

  lemma CausedFor(events: seq<Event>, s: System, number: nat)
    requires Caused(events, s) && s.operation == CompleteEntered(number) && Waits(s, number)
    ensures CompletedIn(events, number) && (EndsOnlyItsOwn(s) && s.shared.running ==> Complete(s.shared))
  {
    hide Complete, CompletedIn;
  }

  lemma OwnUnlessBegunSince(events: seq<Event>, i: nat)
    requires Run(STARTUP, events).operation.CompleteEntered?
    requires CompletedAt(events, i, Run(STARTUP, events).operation.number)
    ensures
      var s := Run(STARTUP, events);
      EndsOnlyItsOwn(s) <==> !(s.shared.running && BegunSince(events, i))
  {
    hide Run, Takes, Complete, H.PacketOf;
    BegunCounts(events, i, |events|);
    assert events[..|events|] == events;
    assert !Begins(Upto(events, i), events[i]);
  }

  // ---------------------------------------------------------------------------
  // A completion can end the session after its own
  // ---------------------------------------------------------------------------

  lemma {:induction false} RunAppend(s: System, a: seq<Event>, b: seq<Event>)
    ensures Run(s, a + b) == Run(Run(s, a), b)
  {
    hide Step;
    if b == [] {
      assert a + b == a;
    } else {
      assert (a + b)[..|a + b| - 1] == a + b[..|b| - 1];
      RunAppend(s, a, b[..|b| - 1]);
    }
  }

  lemma RunOne(s: System, event: Event)
    ensures Run(s, [event]) == Step(s, event)
  {
    assert [event][..0] == [];
  }

  lemma RunTwo(s: System, a: Event, b: Event)
    ensures Run(s, [a, b]) == Step(Step(s, a), b)
  {
    hide Step;
    RunAppend(s, [a], [b]);
    RunOne(s, a);
    RunOne(Step(s, a), b);
    assert [a, b] == [a] + [b];
  }

  const GRANTED := Proceed(true, 1)

  function StartEvents(id: nat, endpoint: nat): seq<Event> {
    [EnterStart(id, endpoint, false), GRANTED] + [GRANTED, GRANTED] + [GRANTED]
  }

  /** An idle broker with a configuration and a client. */
  predicate Startable(s: System, id: nat) {
    s.operation == Free && !s.shared.running && s.shared.configuration.Some? && id in s.shared.clients
  }

  /** A start that nothing disturbs begins an empty session and leaves completions waiting. */
  lemma StartBegins(s: System, id: nat, endpoint: nat)
    requires Startable(s, id) && endpoint != 0
    ensures
      var t := Run(s, StartEvents(id, endpoint));
      && t.operation == Free && t.shared.running && t.session == [] && t.shared.received == 0
      && t.shared.configuration == s.shared.configuration && t.completions == s.completions
      && t.begun == s.begun + 1
      && id in t.shared.clients
  {
    var a, b, c := [EnterStart(id, endpoint, false), GRANTED], [GRANTED, GRANTED], [GRANTED];
    RunAppend(s, a + b, c);
    RunAppend(s, a, b);
    RunTwo(s, a[0], a[1]);
    RunTwo(Run(s, a), GRANTED, GRANTED);
    RunOne(Run(s, a + b), GRANTED);
  }

  function StopEvents(): seq<Event> { [EnterStop, GRANTED] + [GRANTED] }

  lemma StopEnds(s: System, id: nat)
    requires s.operation == Free && s.shared.configuration.Some? && id in s.shared.clients
    ensures Startable(Run(s, StopEvents()), id) && Run(s, StopEvents()).completions == s.completions
    ensures Run(s, StopEvents()).begun == s.begun
  {
    RunAppend(s, [EnterStop, GRANTED], [GRANTED]);
    RunTwo(s, EnterStop, GRANTED);
    RunOne(Run(s, [EnterStop, GRANTED]), GRANTED);
  }

  /** Whatever session is running when a waiting completion gets the mutex is ended. */
  lemma CompletionEndsWhateverRuns(s: System, i: nat)
    requires s.operation == Free && i < |s.completions|
    ensures s.shared.running ==> Run(s, [EnterCompletion(i), GRANTED]).session == []
    ensures !Run(s, [EnterCompletion(i), GRANTED]).shared.running
  {
    RunTwo(s, EnterCompletion(i), GRANTED);
  }

  /** The last packet of a finite session arrives, the session is stopped and another is
      started before its completion gets the mutex: the completion then ends the new session,
      although nothing of it has been received. */
  lemma CompletionCanEndTheNextSession(s: System, id: nat, wire: seq<Byte>)
    requires s.operation == Free && id in s.shared.clients && H.PacketOf(wire).Some?
    requires Takes(s.shared, H.PacketOf(wire).value) && Complete(Received(s.shared, H.PacketOf(wire).value))
    ensures
      var events := [Datagram(wire, true)] + StopEvents() + StartEvents(id, 1);
      var next := Run(s, events);
      && next.shared.running && next.session == [] && next.shared.received == 0
      && next.begun == s.begun + 1 && next.completions == s.completions + [s.begun]
      && !Run(next, [EnterCompletion(|s.completions|), GRANTED]).shared.running
  {
    hide Startable;
    var packet := [Datagram(wire, true)];
    var t := Run(s, packet);
    RunOne(s, packet[0]);
    assert t.completions == s.completions + [s.begun] && t.operation == Free && id in t.shared.clients;
    assert t.shared.configuration == s.shared.configuration;
    hide Step;
    RunAppend(s, packet, StopEvents());
    StopEnds(t, id);
    RunAppend(s, packet + StopEvents(), StartEvents(id, 1));
    StartBegins(Run(t, StopEvents()), id, 1);
    CompletionEndsWhateverRuns(Run(s, packet + StopEvents() + StartEvents(id, 1)), |s.completions|);
  }
}
