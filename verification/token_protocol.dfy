/** Token conservation and bank ownership in every interleaving of the command path. */
module TokenProtocol {
  import opened Wrappers
  import opened Words
  import opened Commands
  import opened TableBuffer
  import opened Params
  import opened StandardProgram
  import opened Floats
  import opened CommandPath

  /** How many of these commands carry a token issued by buffer `k`. */
  function TokensOf(k: nat, commands: seq<RtCommand>): nat {
    if commands == [] then 0
    else (if CarriesTokenOf(k, commands[0]) then 1 else 0) + TokensOf(k, commands[1..])
  }

  predicate CarriesTokenOf(k: nat, c: RtCommand) { c.payload.Buffer? && c.payload.token.owner == k }

  /** The command core 1 has taken out of the queue but not finished with. */
  function Hand1(pc: Pc1): seq<RtCommand> {
    match pc
    case Activating(k, token, _) => [TokenCommand(k, token)]
    case StoreActive(k, token, _) => [TokenCommand(k, token)]
    case StorePending(k, token, _) => [TokenCommand(k, token)]
    case Waiting => []
    case Draining(_) => []
    case StoreLen(_) => []
  }

  /** The command core 0 has built but not queued, or must take back. */
  function Hand0(pc: Pc0): seq<RtCommand> {
    match pc
    case Enqueue(command, _) => [command]
    case Cancel(k, token) => [TokenCommand(k, token)]
    case Ready(_) => []
    case BufferCheck(_) => []
    case BufferSelect(_) => []
    case Filling(_, _, _) => []
    case CommitCheck(_) => []
    case CommitSelect(_) => []
    case CommitStore(_, _) => []
    case Accept(_) => []
  }

  /** Commands that will reach core 1, in order. */
  function Flight(s: State): seq<RtCommand> { Hand1(s.pc1) + s.queue }

  /** Every command that exists anywhere between the two cores. */
  function Pipeline(s: State): seq<RtCommand> { Flight(s) + Hand0(s.pc0) }

  /** A token travels under its own buffer's address and names the bank that is pending. */
  predicate Genuine(bufs: Bufs, c: RtCommand) {
    c.payload.Buffer? ==>
      && c.payload.token.owner < |bufs|
      && c == TokenCommand(c.payload.token.owner, c.payload.token)
      && bufs[c.payload.token.owner].pending == c.payload.token.bank + 1
  }

  predicate AllGenuine(bufs: Bufs, commands: seq<RtCommand>) {
    forall i :: 0 <= i < |commands| ==> Genuine(bufs, commands[i])
  }

  /** A commit is outstanding exactly while one of the buffer's tokens exists, and then
      exactly one does. */
  predicate Conserved(bufs: Bufs, commands: seq<RtCommand>) {
    forall k :: 0 <= k < |bufs| ==>
      TokensOf(k, commands) == if bufs[k].pending == NO_PENDING then 0 else 1
  }

  /** Which bank each endpoint holds, in the middle of an activation as well. */
  predicate Endpoints(pc: Pc1, k: nat, b: Buf<Bank>) {
    if pc.StoreActive? && pc.k == k then
      b.pending == b.current + 1 && b.current == 1 - b.active
    else if pc.StorePending? && pc.k == k then
      b.pending == b.current + 1 && b.current == b.active
    else
      && b.current == b.active
      && (b.pending != NO_PENDING ==> b.pending - 1 == 1 - b.active)
  }

  /** The job core 0 is staging, from the moment the bank is known to be free. */
  function Staging(pc: Pc0): Option<Job> {
    match pc
    case BufferSelect(job) => Some(job)
    case Filling(job, _, _) => Some(job)
    case CommitCheck(job) => Some(job)
    case CommitSelect(job) => Some(job)
    case CommitStore(job, _) => Some(job)
    case _ => None
  }

  /** The bank core 0 holds a writable borrow of. */
  function WritableBank(pc: Pc0): Option<nat> {
    match pc
    case Filling(_, bank, _) => Some(bank)
    case CommitStore(_, bank) => Some(bank)
    case _ => None
  }

  predicate Borrows(s: State) {
    Staging(s.pc0).Some? ==>
      var k := Staging(s.pc0).value.Target();
      && k < |s.bufs|
      && s.bufs[k].pending == NO_PENDING
      && (WritableBank(s.pc0).Some? ==> WritableBank(s.pc0).value == 1 - s.bufs[k].active)
  }

  ghost predicate Tokens(s: State) {
    && Conserved(s.bufs, Pipeline(s))
    && AllGenuine(s.bufs, Pipeline(s))
    && (forall k :: 0 <= k < |s.bufs| ==> Endpoints(s.pc1, k, s.bufs[k]))
    && Borrows(s)
  }

  // ---------------------------------------------------------------------------
  // Counting tokens
  // ---------------------------------------------------------------------------

  lemma {:induction false} TokensAppend(k: nat, a: seq<RtCommand>, b: seq<RtCommand>)
    ensures TokensOf(k, a + b) == TokensOf(k, a) + TokensOf(k, b)
  {
    if a == [] {
      assert a + b == b;
    } else {
      assert (a + b)[1..] == a[1..] + b;
      TokensAppend(k, a[1..], b);
    }
  }

  lemma {:induction false} SomeToken(k: nat, commands: seq<RtCommand>, i: nat)
    requires i < |commands| && CarriesTokenOf(k, commands[i])
    ensures TokensOf(k, commands) >= 1
  {
    if i > 0 { SomeToken(k, commands[1..], i - 1); }
  }

  /** Without tokens of `k` among the commands, its pending mark can change freely. */
  lemma GenuineElsewhere(bufs: Bufs, after: Bufs, commands: seq<RtCommand>, k: nat)
    requires AllGenuine(bufs, commands) && k < |bufs| && TokensOf(k, commands) == 0
    requires |after| == |bufs|
    requires forall j :: 0 <= j < |bufs| && j != k ==> after[j].pending == bufs[j].pending
    ensures AllGenuine(after, commands)
  {
    forall i | 0 <= i < |commands| ensures Genuine(after, commands[i]) {
      assert Genuine(bufs, commands[i]);
      if CarriesTokenOf(k, commands[i]) { SomeToken(k, commands, i); }
    }
  }

  /** Changing nothing but bank contents, or the endpoints' ids, leaves the tokens alone. */
  lemma SamePending(bufs: Bufs, after: Bufs, commands: seq<RtCommand>)
    requires |after| == |bufs| && forall j :: 0 <= j < |bufs| ==> after[j].pending == bufs[j].pending
    requires Conserved(bufs, commands) && AllGenuine(bufs, commands)
    ensures Conserved(after, commands) && AllGenuine(after, commands)
  {
    forall i | 0 <= i < |commands| ensures Genuine(after, commands[i]) {
      assert Genuine(bufs, commands[i]);
    }
  }

  /** Issuing the only token of an idle buffer. */
  lemma Issue(bufs: Bufs, commands: seq<RtCommand>, k: nat, bank: nat)
    requires k < |bufs| && bufs[k].pending == NO_PENDING
    requires Conserved(bufs, commands) && AllGenuine(bufs, commands)
    ensures
      var after := bufs[k := bufs[k].(pending := bank + 1)];
      var issued := commands + [TokenCommand(k, CommitToken(k, bank))];
      Conserved(after, issued) && AllGenuine(after, issued)
  {
    var token := [TokenCommand(k, CommitToken(k, bank))];
    var after := bufs[k := bufs[k].(pending := bank + 1)];
    GenuineElsewhere(bufs, after, commands, k);
    forall j | 0 <= j < |bufs| ensures TokensOf(j, commands + token) == if after[j].pending == NO_PENDING then 0 else 1 {
      TokensAppend(j, commands, token);
    }
  }

  /** Consuming the only token of a buffer makes the buffer idle. */
  lemma Consume(bufs: Bufs, before: seq<RtCommand>, c: RtCommand, behind: seq<RtCommand>, k: nat)
    requires k < |bufs| && CarriesTokenOf(k, c)
    requires Conserved(bufs, before + [c] + behind) && AllGenuine(bufs, before + [c] + behind)
    ensures
      var after := bufs[k := bufs[k].(pending := NO_PENDING)];
      Conserved(after, before + behind) && AllGenuine(after, before + behind)
  {
    var after := bufs[k := bufs[k].(pending := NO_PENDING)];
    var whole := before + [c] + behind;
    Remove(bufs, before, c, behind);
    forall j | 0 <= j < |bufs| ensures TokensOf(j, before + behind) == if after[j].pending == NO_PENDING then 0 else 1 {
      RemoveCount(j, before, c, behind);
    }
    GenuineElsewhere(bufs, after, before + behind, k);
  }

  lemma RemoveCount(k: nat, before: seq<RtCommand>, c: RtCommand, behind: seq<RtCommand>)
    ensures TokensOf(k, before + [c] + behind)
         == TokensOf(k, before + behind) + if CarriesTokenOf(k, c) then 1 else 0
  {
    TokensAppend(k, before + [c], behind);
    TokensAppend(k, before, [c]);
    TokensAppend(k, before, behind);
  }

  lemma Remove(bufs: Bufs, before: seq<RtCommand>, c: RtCommand, behind: seq<RtCommand>)
    requires AllGenuine(bufs, before + [c] + behind)
    ensures AllGenuine(bufs, before + behind)
  {
    var whole := before + [c] + behind;
    forall i | 0 <= i < |before + behind| ensures Genuine(bufs, (before + behind)[i]) {
      assert Genuine(bufs, whole[if i < |before| then i else i + 1]);
    }
  }

  /** Dropping a command without a token. */
  lemma DropScalar(bufs: Bufs, before: seq<RtCommand>, c: RtCommand, behind: seq<RtCommand>)
    requires !c.payload.Buffer?
    requires Conserved(bufs, before + [c] + behind) && AllGenuine(bufs, before + [c] + behind)
    ensures Conserved(bufs, before + behind) && AllGenuine(bufs, before + behind)
  {
    Remove(bufs, before, c, behind);
    forall k | 0 <= k < |bufs| ensures TokensOf(k, before + behind) == TokensOf(k, before + [c] + behind) {
      RemoveCount(k, before, c, behind);
    }
  }

  lemma AddScalar(bufs: Bufs, commands: seq<RtCommand>, c: RtCommand)
    requires !c.payload.Buffer? && Conserved(bufs, commands) && AllGenuine(bufs, commands)
    ensures Conserved(bufs, commands + [c]) && AllGenuine(bufs, commands + [c])
  {
    forall k | 0 <= k < |bufs| ensures TokensOf(k, commands + [c]) == TokensOf(k, commands) {
      TokensAppend(k, commands, [c]);
    }
  }

  // ---------------------------------------------------------------------------
  // Every step keeps the tokens
  // ---------------------------------------------------------------------------

  lemma SentIsScalar(cfg: Config, request: Request)
    requires cfg.Ok()
    ensures
      var plan := PlanFor(cfg, request);
      plan.Send? ==> !plan.command.payload.Buffer?
  {
    hide RealOf, IsFinite, Increment, PhaseWord, FromLe32, Located, Defs;
    match Located(Defs(cfg), request.index)
    case None =>
    case Some((g, id)) =>
      if request.Set? { GroupSendsScalars(cfg, g, id, request.data); }
  }

  lemma GroupSendsScalars(cfg: Config, g: nat, id: nat, data: seq<Byte>)
    requires cfg.Ok()
    ensures
      var plan := GroupPlan(cfg, g, id, data);
      plan.Send? ==> !plan.command.payload.Buffer?
  {
    hide RealOf, IsFinite, Increment, PhaseWord, FromLe32, AllFinite;
  }

  lemma HostKeepsTokens(cfg: Config, s: State, request: Request)
    requires Wf(cfg, s) && Tokens(s)
    ensures Tokens(Step(cfg, s, Host(request)))
  {
    hide PlanFor, AllGenuine, Conserved, Endpoints;
    var plan := PlanFor(cfg, request);
    SentIsScalar(cfg, request);
    if s.pc0.Ready? {
      assert Pipeline(s) == Flight(s);
      if plan.Send? {
        AddScalar(s.bufs, Flight(s), plan.command);
      } else {
        var t := Step(cfg, s, Host(request));
        assert Pipeline(t) == Flight(s);
      }
    }
  }

  /** Core 0 moving on without touching a buffer or the queue. */
  lemma Core0Moves(s: State, t: State)
    requires Tokens(s) && t == s.(pc0 := t.pc0, sh := t.sh)
    requires Hand0(t.pc0) == Hand0(s.pc0) && Borrows(t)
    ensures Tokens(t)
  {}

  /** Core 0 writing the bank it borrows. */
  lemma FillKeepsTokens(cfg: Config, s: State)
    requires Wf(cfg, s) && Tokens(s) && s.pc0.Filling?
    ensures Tokens(Step0(cfg, s))
  {
    hide AllFinite, AllGenuine, Conserved;
    var t := Step0(cfg, s);
    SamePending(s.bufs, t.bufs, Pipeline(s));
    assert Pipeline(t) == Pipeline(s);
    forall k | 0 <= k < |t.bufs| ensures Endpoints(t.pc1, k, t.bufs[k]) {
      assert Endpoints(s.pc1, k, s.bufs[k]);
    }
  }

  lemma CommitKeepsTokens(cfg: Config, s: State)
    requires Wf(cfg, s) && Tokens(s) && s.pc0.CommitStore?
    ensures Tokens(Step0(cfg, s))
  {
    hide AllGenuine, Conserved, JobUpdate, TokenCommand;
    var t := Step0(cfg, s);
    var k := s.pc0.job.Target();
    Issue(s.bufs, Pipeline(s), k, s.pc0.bank);
    assert Pipeline(s) == Flight(s);
    forall j | 0 <= j < |t.bufs| ensures Endpoints(t.pc1, j, t.bufs[j]) {
      assert Endpoints(s.pc1, j, s.bufs[j]);
    }
  }

  lemma EnqueueKeepsTokens(cfg: Config, s: State)
    requires Wf(cfg, s) && Tokens(s) && s.pc0.Enqueue?
    ensures Tokens(Step0(cfg, s))
  {
    hide AllGenuine, Conserved, Accepted, Endpoints;
    var c := s.pc0.command;
    var t := Step0(cfg, s);
    if |s.queue| < QUEUE_CAPACITY {
      assert Pipeline(t) == Pipeline(s);
    } else if c.payload.Buffer? {
      assert Genuine(s.bufs, c) by { LastIsGenuine(s.bufs, Flight(s), c); }
      assert Pipeline(t) == Pipeline(s);
    } else {
      assert Flight(s) + [] == Flight(s) && Pipeline(t) == Flight(s);
      assert Pipeline(s) == Flight(s) + [c] + [];
      DropScalar(s.bufs, Flight(s), c, []);
    }
  }

  lemma LastIsGenuine(bufs: Bufs, before: seq<RtCommand>, c: RtCommand)
    requires AllGenuine(bufs, before + [c])
    ensures Genuine(bufs, c)
  {
    assert (before + [c])[|before|] == c;
  }

  lemma FirstIsGenuine(bufs: Bufs, c: RtCommand, behind: seq<RtCommand>)
    requires AllGenuine(bufs, [c] + behind)
    ensures Genuine(bufs, c)
  {
    assert ([c] + behind)[0] == c;
  }

  lemma CancelKeepsTokens(cfg: Config, s: State)
    requires Wf(cfg, s) && Tokens(s) && s.pc0.Cancel?
    ensures Tokens(Step0(cfg, s))
  {
    hide AllGenuine, Conserved;
    var k, token := s.pc0.k, s.pc0.token;
    var c := TokenCommand(k, token);
    var t := Step0(cfg, s);
    LastIsGenuine(s.bufs, Flight(s), c);
    assert Pipeline(s) == Flight(s) + [c] + [] && Pipeline(t) == Flight(s) + [];
    Consume(s.bufs, Flight(s), c, [], k);
    assert Endpoints(s.pc1, k, s.bufs[k]);
    NotActivating(s, k, c);
    forall j | 0 <= j < |t.bufs| ensures Endpoints(t.pc1, j, t.bufs[j]) {
      assert Endpoints(s.pc1, j, s.bufs[j]);
    }
  }

  /** While core 0 has a buffer's token in hand, core 1 has none of that buffer's. */
  lemma NotActivating(s: State, k: nat, c: RtCommand)
    requires BufsOk(s.bufs) && Pc1Ok(s.pc1) && Tokens(s)
    requires k < BUFFERS && CarriesTokenOf(k, c) && Hand0(s.pc0) == [c]
    ensures TokensOf(k, Flight(s)) == 0
    ensures !(s.pc1.Activating? && s.pc1.k == k)
    ensures !(s.pc1.StoreActive? && s.pc1.k == k)
    ensures !(s.pc1.StorePending? && s.pc1.k == k)
  {
    TokensAppend(k, Flight(s), [c]);
    TokensAppend(k, Hand1(s.pc1), s.queue);
    if s.pc1.Activating? || s.pc1.StoreActive? || s.pc1.StorePending? {
      var h := TokenCommand(s.pc1.k, s.pc1.token);
      assert Pipeline(s) == [h] + (s.queue + [c]);
      FirstIsGenuine(s.bufs, h, s.queue + [c]);
      SomeToken(h.payload.token.owner, [h], 0);
    }
  }

  lemma Step0KeepsTokens(cfg: Config, s: State)
    requires Wf(cfg, s) && Tokens(s)
    ensures Tokens(Step0(cfg, s))
  {
    hide AllGenuine, Conserved, Endpoints, AllFinite, JobUpdate;
    match s.pc0 {
      case Ready(_) =>
      case Filling(_, _, _) => FillKeepsTokens(cfg, s);
      case CommitStore(_, _) => CommitKeepsTokens(cfg, s);
      case Enqueue(_, _) => EnqueueKeepsTokens(cfg, s);
      case Cancel(_, _) => CancelKeepsTokens(cfg, s);
      case _ => Core0Moves(s, Step0(cfg, s));
    }
  }

  /** Core 1 moving on without touching a buffer or the queue. */
  lemma Core1Moves(s: State, t: State)
    requires Tokens(s) && t == s.(pc1 := t.pc1, program := t.program)
    requires Hand1(t.pc1) == Hand1(s.pc1) == []
    ensures Tokens(t)
  {
    forall k | 0 <= k < |t.bufs| ensures Endpoints(t.pc1, k, t.bufs[k]) {
      assert Endpoints(s.pc1, k, s.bufs[k]);
    }
  }

  lemma DequeueKeepsTokens(cfg: Config, s: State, sample: Sample)
    requires Wf(cfg, s) && Tokens(s)
    requires s.pc1.Draining? && s.pc1.applied < COMMANDS_PER_TICK && s.queue != []
    ensures Tokens(Step1(s, sample))
  {
    hide AllGenuine, Conserved, ScalarApplied;
    var c, rest := s.queue[0], s.queue[1..] + Hand0(s.pc0);
    var t := Step1(s, sample);
    assert Pipeline(s) == [c] + rest;
    FirstIsGenuine(s.bufs, c, rest);
    if c.payload.Buffer? {
      assert Pipeline(t) == [c] + rest;
    } else {
      assert [] + [c] + rest == Pipeline(s) && [] + rest == Pipeline(t);
      DropScalar(s.bufs, [], c, rest);
    }
    forall k | 0 <= k < |t.bufs| ensures Endpoints(t.pc1, k, t.bufs[k]) {
      assert Endpoints(s.pc1, k, s.bufs[k]);
    }
  }

  /** Core 1 holds a genuine token while it activates. */
  lemma HandIsGenuine(s: State)
    requires BufsOk(s.bufs) && Pc1Ok(s.pc1) && Tokens(s)
    requires s.pc1.Activating? || s.pc1.StoreActive? || s.pc1.StorePending?
    ensures s.pc1.k < |s.bufs| && s.pc1.token.owner == s.pc1.k
    ensures s.bufs[s.pc1.k].pending == s.pc1.token.bank + 1
  {
    var h := TokenCommand(s.pc1.k, s.pc1.token);
    assert Pipeline(s) == [h] + (s.queue + Hand0(s.pc0));
    FirstIsGenuine(s.bufs, h, s.queue + Hand0(s.pc0));
  }

  lemma ActivationKeepsTokens(cfg: Config, s: State, sample: Sample)
    requires Wf(cfg, s) && Tokens(s) && (s.pc1.Activating? || s.pc1.StoreActive?)
    ensures Tokens(Step1(s, sample))
  {
    hide AllGenuine, Conserved, TokenCommand;
    var t := Step1(s, sample);
    HandIsGenuine(s);
    assert Endpoints(s.pc1, s.pc1.k, s.bufs[s.pc1.k]);
    SamePending(s.bufs, t.bufs, Pipeline(s));
    assert Pipeline(t) == Pipeline(s);
    forall k | 0 <= k < |t.bufs| ensures Endpoints(t.pc1, k, t.bufs[k]) {
      assert Endpoints(s.pc1, k, s.bufs[k]);
    }
  }

  lemma CompletionKeepsTokens(cfg: Config, s: State, sample: Sample)
    requires Wf(cfg, s) && Tokens(s) && s.pc1.StorePending?
    ensures Tokens(Step1(s, sample))
  {
    hide AllGenuine, Conserved;
    var t := Step1(s, sample);
    var k := s.pc1.k;
    var h := TokenCommand(k, s.pc1.token);
    var rest := s.queue + Hand0(s.pc0);
    HandIsGenuine(s);
    assert [] + [h] + rest == Pipeline(s) && [] + rest == Pipeline(t);
    Consume(s.bufs, [], h, rest, k);
    forall j | 0 <= j < |t.bufs| ensures Endpoints(t.pc1, j, t.bufs[j]) {
      assert Endpoints(s.pc1, j, s.bufs[j]);
    }
  }

  lemma Step1KeepsTokens(cfg: Config, s: State, sample: Sample)
    requires Wf(cfg, s) && Tokens(s)
    ensures Tokens(Step1(s, sample))
  {
    hide AllGenuine, Conserved, Endpoints, Stepped, ScalarApplied, TokenCommand;
    match s.pc1 {
      case Waiting => Core1Moves(s, Step1(s, sample));
      case StoreLen(_) => Core1Moves(s, Step1(s, sample));
      case Activating(_, _, _) => ActivationKeepsTokens(cfg, s, sample);
      case StoreActive(_, _, _) => ActivationKeepsTokens(cfg, s, sample);
      case StorePending(_, _, _) => CompletionKeepsTokens(cfg, s, sample);
      case Draining(applied) =>
        if applied < COMMANDS_PER_TICK && s.queue != [] {
          DequeueKeepsTokens(cfg, s, sample);
        } else {
          Core1Moves(s, Step1(s, sample));
        }
    }
  }

  /** Core 1 does not touch a buffer that core 0 is staging. */
  lemma StagedBufferIsCore0s(cfg: Config, s: State, sample: Sample)
    requires Wf(cfg, s) && Tokens(s) && Staging(s.pc0).Some?
    ensures Staging(s.pc0).value.Target() < BUFFERS
    ensures Step1(s, sample).bufs[Staging(s.pc0).value.Target()] == s.bufs[Staging(s.pc0).value.Target()]
  {
    hide Conserved, AllGenuine, TokenCommand, ScalarApplied, Stepped, JobOk;
    if s.pc1.Activating? || s.pc1.StoreActive? || s.pc1.StorePending? {
      HandIsGenuine(s);
    }
  }

  lemma StepKeepsTokens(cfg: Config, s: State, event: Event)
    requires Wf(cfg, s) && Tokens(s)
    ensures Tokens(Step(cfg, s, event))
  {
    hide Tokens, Step0, Step1, PlanFor;
    match event {
      case Host(request) => HostKeepsTokens(cfg, s, request);
      case Core0 => Step0KeepsTokens(cfg, s);
      case Core1(sample) => Step1KeepsTokens(cfg, s, sample);
    }
  }

  lemma InitiallyTokens(cfg: Config)
    requires cfg.Ok()
    ensures Wf(cfg, Initial(cfg)) && Tokens(Initial(cfg))
  {}

  /** In every interleaving: tokens are conserved, each endpoint's bank is as its step in the
      protocol says, and core 0 borrows only a free, inactive bank. */
  lemma {:induction false} TokensAlways(cfg: Config, events: seq<Event>)
    requires cfg.Ok()
    ensures Wf(cfg, Initial(cfg)) && Tokens(Run(cfg, Initial(cfg), events))
  {
    hide Tokens, Step, Wf;
    InitiallyTokens(cfg);
    if events != [] {
      TokensAlways(cfg, events[..|events| - 1]);
      StepKeepsTokens(cfg, Run(cfg, Initial(cfg), events[..|events| - 1]), events[|events| - 1]);
    }
  }

  // ---------------------------------------------------------------------------
  // What the protocol guarantees
  // ---------------------------------------------------------------------------

  /** Core 0 never holds a writable borrow of the bank core 1 reads, nor of one whose
      activation is outstanding or under way. */
  lemma MutualExclusion(cfg: Config, events: seq<Event>)
    requires cfg.Ok()
    ensures
      var s := Reached(cfg, events);
      WritableBank(s.pc0).Some? ==>
        var b := s.bufs[Staging(s.pc0).value.Target()];
        && WritableBank(s.pc0).value != b.current
        && WritableBank(s.pc0).value != b.active
        && b.pending == NO_PENDING
  {
    hide Conserved, AllGenuine, Step, JobOk;
    TokensAlways(cfg, events);
    var s := Reached(cfg, events);
    if WritableBank(s.pc0).Some? {
      assert Endpoints(s.pc1, Staging(s.pc0).value.Target(), s.bufs[Staging(s.pc0).value.Target()]);
    }
  }

  /** No token is lost: once nothing is queued or in either core's hands, no buffer is busy. */
  lemma NoBufferStaysBusy(cfg: Config, events: seq<Event>, k: nat)
    requires cfg.Ok() && k < BUFFERS
    ensures
      var s := Reached(cfg, events);
      Pipeline(s) == [] ==> s.bufs[k].pending == NO_PENDING
  {
    hide Step;
    TokensAlways(cfg, events);
  }

  /** Whenever core 1 checks a token, the token is its own buffer's and names the pending
      bank: the protocol's guards never turn an activation away. */
  lemma EveryActivationIsHonoured(cfg: Config, events: seq<Event>)
    requires cfg.Ok()
    ensures
      var s := Reached(cfg, events);
      s.pc1.Activating? ==>
        && s.pc1.token.owner == s.pc1.k
        && s.bufs[s.pc1.k].pending == s.pc1.token.bank + 1
        && s.pc1.token.bank != s.bufs[s.pc1.k].current
  {
    hide Step, Conserved, AllGenuine, TokenCommand;
    TokensAlways(cfg, events);
    var s := Reached(cfg, events);
    if s.pc1.Activating? {
      HandIsGenuine(s);
      assert Endpoints(s.pc1, s.pc1.k, s.bufs[s.pc1.k]);
    }
  }

  /** A step changes a bank's contents only while core 0 is filling it. */
  lemma OnlyTheBorrowedBankChanges(cfg: Config, s: State, event: Event, t: State, k: nat, bank: nat)
    requires Wf(cfg, s) && t == Step(cfg, s, event) && BufsOk(t.bufs) && k < BUFFERS && bank < 2
    ensures
      t.bufs[k].banks[bank] != s.bufs[k].banks[bank]
      ==> event.Core0? && s.pc0.Filling? && s.pc0.job.Target() == k && s.pc0.bank == bank
  {
    hide PlanFor, AllFinite, Stepped, ScalarApplied, TokenCommand, JobUpdate, Accepted;
  }

  /** What core 1 reads changes only where core 1 itself caches a token's bank. */
  lemma ActiveValueIsStable(cfg: Config, s: State, event: Event, t: State, k: nat)
    requires Wf(cfg, s) && Tokens(s) && t == Step(cfg, s, event) && BufsOk(t.bufs) && k < BUFFERS
    ensures
      t.bufs[k].Get() != s.bufs[k].Get()
      ==> event.Core1? && s.pc1.Activating? && s.pc1.k == k
  {
    OnlyTheBorrowedBankChanges(cfg, s, event, t, k, s.bufs[k].current);
    OnlyActivationMovesCurrent(cfg, s, event, t, k);
    hide Conserved, AllGenuine, Step;
    assert Endpoints(s.pc1, k, s.bufs[k]);
  }

  lemma OnlyActivationMovesCurrent(cfg: Config, s: State, event: Event, t: State, k: nat)
    requires Wf(cfg, s) && t == Step(cfg, s, event) && BufsOk(t.bufs) && k < BUFFERS
    ensures t.bufs[k].current != s.bufs[k].current ==> event.Core1? && s.pc1.Activating? && s.pc1.k == k
  {
    hide PlanFor, AllFinite, Stepped, ScalarApplied, TokenCommand, JobUpdate, Accepted;
  }

  /** The commit stays outstanding at every point of a run. */
  ghost predicate OutstandingThroughout(cfg: Config, s: State, events: seq<Event>, k: nat)
    requires Wf(cfg, s) && k < BUFFERS
  {
    forall i :: 0 <= i <= |events| ==> Run(cfg, s, events[..i]).bufs[k].pending != NO_PENDING
  }

  lemma StepKeepsPublished(cfg: Config, s: State, event: Event, t: State, k: nat)
    requires Wf(cfg, s) && Tokens(s) && t == Step(cfg, s, event) && BufsOk(t.bufs) && k < BUFFERS
    requires s.bufs[k].pending != NO_PENDING
    ensures t.bufs[k].banks[s.bufs[k].pending - 1] == s.bufs[k].banks[s.bufs[k].pending - 1]
    ensures t.bufs[k].pending != NO_PENDING ==> t.bufs[k].pending == s.bufs[k].pending
  {
    OnlyTheBorrowedBankChanges(cfg, s, event, t, k, s.bufs[k].pending - 1);
    PendingMoves(cfg, s, event, t, k);
    hide Step, Conserved, AllGenuine;
  }

  lemma PendingMoves(cfg: Config, s: State, event: Event, t: State, k: nat)
    requires Wf(cfg, s) && Borrows(s) && t == Step(cfg, s, event) && BufsOk(t.bufs)
    requires k < BUFFERS && s.bufs[k].pending != NO_PENDING
    ensures t.bufs[k].pending == s.bufs[k].pending || t.bufs[k].pending == NO_PENDING
  {
    hide PlanFor, AllFinite, Stepped, ScalarApplied, TokenCommand, JobUpdate, Accepted;
  }

  lemma {:induction false} PublishedIsFrozen(cfg: Config, s: State, events: seq<Event>, k: nat)
    requires Wf(cfg, s) && Tokens(s) && k < BUFFERS && OutstandingThroughout(cfg, s, events, k)
    ensures s.bufs[k].pending != NO_PENDING
    ensures
      var t := Run(cfg, s, events);
      && Tokens(t)
      && t.bufs[k].pending == s.bufs[k].pending
      && t.bufs[k].banks[s.bufs[k].pending - 1] == s.bufs[k].banks[s.bufs[k].pending - 1]
  {
    hide Step, Tokens;
    assert events[..0] == [] && events[..|events|] == events;
    if events != [] {
      var before := events[..|events| - 1];
      forall i | 0 <= i <= |before| ensures before[..i] == events[..i] {}
      PublishedIsFrozen(cfg, s, before, k);
      var m := Run(cfg, s, before);
      StepWf(cfg, m, events[|before|]);
      StepKeepsPublished(cfg, m, events[|before|], Step(cfg, m, events[|before|]), k);
      StepKeepsTokens(cfg, m, events[|before|]);
    }
  }

  /** Issuing a token marks the borrowed bank pending and moves nothing else in the buffer. */
  lemma CommitMarks(cfg: Config, s: State, k: nat)
    requires Wf(cfg, s) && s.pc0.CommitStore? && s.pc0.job.Target() == k
    ensures k < BUFFERS && Step(cfg, s, Core0).bufs[k] == s.bufs[k].(pending := s.pc0.bank + 1)
  {
    hide JobUpdate, TokenCommand;
  }

  lemma CompletionReleases(cfg: Config, s: State, k: nat, sample: Sample)
    requires Wf(cfg, s) && s.pc1.StorePending? && s.pc1.k == k
    ensures k < BUFFERS && Step(cfg, s, Core1(sample)).bufs[k] == s.bufs[k].(pending := NO_PENDING)
  {
    hide TokenCommand;
  }

  /** A successful activation makes the active value exactly what was staged when its token
      was issued: from the commit's store to the activation's last store nothing writes the
      published bank, whatever both cores do in between. */
  lemma {:induction false} ActivationDeliversTheCommittedValue(
    cfg: Config, prefix: seq<Event>, s: State, committed: State, events: seq<Event>, t: State, k: nat, sample: Sample)
    requires cfg.Ok() && k < BUFFERS
    requires s == Reached(cfg, prefix)
    requires s.pc0.CommitStore? && s.pc0.job.Target() == k && committed == Step(cfg, s, Core0)
    requires Wf(cfg, committed) && OutstandingThroughout(cfg, committed, events, k)
    requires t == Run(cfg, committed, events)
    requires t.pc1.StorePending? && t.pc1.k == k
    ensures
      var done := Step(cfg, t, Core1(sample));
      && BufsOk(done.bufs)
      && done.bufs[k].Get() == s.bufs[k].banks[s.pc0.bank]
      && done.bufs[k].pending == NO_PENDING
      && done.bufs[k].active == done.bufs[k].current == s.pc0.bank
  {
    hide Step, Run, Conserved, AllGenuine, OutstandingThroughout, Borrows, Pc0Ok, Pc1Ok, Pipeline, Config.Ok;
    TokensAlways(cfg, prefix);
    StepKeepsTokens(cfg, s, Core0);
    PublishedIsFrozen(cfg, committed, events, k);
    StepWf(cfg, t, Core1(sample));
    CommitMarks(cfg, s, k);
    CompletionReleases(cfg, t, k, sample);
    assert Endpoints(t.pc1, k, t.bufs[k]);
  }
}
