/** When a queued command is applied, and what a tick's epoch counts, over every interleaving
    of single core-0 and core-1 steps. */
module Service {
  import opened Words
  import opened Commands
  import opened Params
  import opened StandardProgram
  import opened CommandPath
  import opened TokenProtocol
  import opened ShadowRefinement
  import opened Transactions
  import RtLoop

  /** Commands the tick in progress has taken from the queue. */
  function TakenThisTick(pc: Pc1): nat {
    match pc
    case Waiting => 0
    case Draining(applied) => applied
    case Activating(_, _, applied) => applied
    case StoreActive(_, _, applied) => applied
    case StorePending(_, _, applied) => applied
    case StoreLen(applied) => applied
  }

  /** This step runs the sample: the tick has taken its two commands, or found the queue empty. */
  predicate EndsTick(s: State, event: Event) {
    event.Core1? && s.pc1.Draining? && !(s.pc1.applied < COMMANDS_PER_TICK && s.queue != [])
  }

  /** Commands ever taken from the queue. */
  function Taken(s: State): int { |s.log| - |s.queue| }

  /** Ticks that end in the course of `events`, after `before`. */
  ghost function Ticks(cfg: Config, before: seq<Event>, events: seq<Event>): nat
    requires cfg.Ok()
  {
    if events == [] then 0
    else
      var n := |events| - 1;
      Ticks(cfg, before, events[..n]) + if EndsTick(Reached(cfg, before + events[..n]), events[n]) then 1 else 0
  }

  /** What a step that runs no sample does: what it takes from the queue it counts, and
      nothing already done is undone. */
  ghost predicate Moves(s: State, t: State) {
    && s.log <= t.log && |t.queue| <= |t.log| && s.done <= t.done
    && Taken(t) - Taken(s) == TakenThisTick(t.pc1) - TakenThisTick(s.pc1) >= 0
    && TakenThisTick(t.pc1) <= COMMANDS_PER_TICK
  }

  lemma Step0Moves(cfg: Config, s: State)
    requires Wf(cfg, s) && |s.queue| <= |s.log|
    ensures Moves(s, Step0(cfg, s))
  {
    hide AllFinite, Accepted, TokenCommand, JobUpdate, JobOk, BufsOk, WithCell, WithLen;
  }

  lemma Step1Moves(cfg: Config, s: State, sample: Sample)
    requires Wf(cfg, s) && |s.queue| <= |s.log|
    ensures
      var t := Step1(s, sample);
      if EndsTick(s, Core1(sample)) then
        Taken(t) == Taken(s) && t.pc1.Waiting? && t.done == s.done && t.log == s.log && t.queue == s.queue
      else Moves(s, t)
  {
    hide Stepped, ScalarApplied, JobOk, TokenCommand;
  }

  /** What one step does to the log, the queue and the tick in progress. */
  lemma StepShape(cfg: Config, s: State, event: Event)
    requires Wf(cfg, s) && |s.queue| <= |s.log|
    ensures TakenThisTick(s.pc1) <= COMMANDS_PER_TICK
    ensures
      var t := Step(cfg, s, event);
      if EndsTick(s, event) then
        Taken(t) == Taken(s) && t.pc1.Waiting? && t.done == s.done && t.log == s.log && t.queue == s.queue
      else Moves(s, t)
  {
    hide Step0, Step1, PlanFor, Begin, BufsOk, Pc0Ok;
    match event {
      case Host(request) =>
      case Core0 => Step0Moves(cfg, s);
      case Core1(sample) => Step1Moves(cfg, s, sample);
    }
  }

  lemma ReachedNext(cfg: Config, before: seq<Event>, event: Event)
    requires cfg.Ok()
    ensures Reached(cfg, before + [event]) == Step(cfg, Reached(cfg, before), event)
  {
    assert (before + [event])[..|before|] == before;
  }

  /** Waiting command `k` of `s`, `n` ticks later: every tick takes two until it is taken. */
  ghost predicate Serving(s: State, t: State, n: nat, k: nat) {
    var ahead := k + TakenThisTick(s.pc1);
    var taken := Taken(t) - Taken(s);
    && s.log <= t.log && taken >= 0
    && (taken <= k ==> taken + TakenThisTick(s.pc1) == 2 * n + TakenThisTick(t.pc1))
    && (taken > k ==> n >= ahead / 2)
    && (n > ahead / 2 ==> taken > k && |t.done| > Taken(s) + k)
  }

  lemma ServingStep(cfg: Config, s: State, t: State, event: Event, n: nat, k: nat)
    requires Wf(cfg, t) && Fifo(t) && k < |s.queue| <= |s.log| && Serving(s, t, n, k)
    requires TakenThisTick(s.pc1) <= COMMANDS_PER_TICK
    ensures Serving(s, Step(cfg, t, event), n + if EndsTick(t, event) then 1 else 0, k)
  {
    StepShape(cfg, t, event);
    hide Step, Wf;
  }

  lemma {:induction false} ServingAlways(cfg: Config, before: seq<Event>, events: seq<Event>, k: nat)
    requires cfg.Ok() && k < |Reached(cfg, before).queue|
    ensures Serving(Reached(cfg, before), Reached(cfg, before + events), Ticks(cfg, before, events), k)
  {
    hide Serving, Step, Wf, EndsTick, Reached;
    FifoAlways(cfg, before);
    var s := Reached(cfg, before);
    if events == [] {
      assert before + events == before;
      ServingBegins(s, k);
    } else {
      var n := |events| - 1;
      var so := before + events[..n];
      ServingAlways(cfg, before, events[..n], k);
      FifoAlways(cfg, so);
      assert before + events == so + [events[n]];
      ReachedNext(cfg, so, events[n]);
      StepShape(cfg, s, Core0);
      ServingStep(cfg, s, Reached(cfg, so), events[n], Ticks(cfg, before, events[..n]), k);
    }
  }

  lemma ServingBegins(s: State, k: nat)
    requires k < |s.queue|
    ensures Serving(s, s, 0, k)
  {}

  /** A command with `k` others ahead of it, counting those the tick in progress has taken, is
      applied in exactly the (k/2 + 1)-th tick from then on, whatever core 0 does meanwhile:
      not before k/2 ticks have ended, and always once k/2 + 1 have. */
  lemma ServiceIsExact(cfg: Config, before: seq<Event>, events: seq<Event>, k: nat)
    requires cfg.Ok() && k < |Reached(cfg, before).queue|
    ensures
      var s, t := Reached(cfg, before), Reached(cfg, before + events);
      var ticks, ahead := Ticks(cfg, before, events), k + TakenThisTick(s.pc1);
      var place := Taken(s) + k;
      && place >= 0
      && (ticks < ahead / 2 ==> |t.done| <= place)
      && (ticks > ahead / 2 ==> |t.done| > place && t.done[place] == s.queue[k])
  {
    hide Wf, Step, Fifo, Reached, Ticks;
    ServingAlways(cfg, before, events, k);
    FifoAlways(cfg, before);
    FifoAlways(cfg, before + events);
    ServedInPlace(Reached(cfg, before), Reached(cfg, before + events), Ticks(cfg, before, events), k);
  }

  lemma ServedInPlace(s: State, t: State, n: nat, k: nat)
    requires Fifo(s) && Fifo(t) && k < |s.queue| && Serving(s, t, n, k)
    ensures
      var ahead, place := k + TakenThisTick(s.pc1), Taken(s) + k;
      && place >= 0
      && (n < ahead / 2 ==> |t.done| <= place)
      && (n > ahead / 2 ==> |t.done| > place && t.done[place] == s.queue[k])
  {
    hide Fifo;
    InLogOrder(s, t, k);
  }

  /** Both logs hold the waiting command at its place, and what is done is the front of a log. */
  lemma InLogOrder(s: State, t: State, k: nat)
    requires Fifo(s) && Fifo(t) && s.log <= t.log && k < |s.queue|
    ensures Taken(s) + k >= 0 && |t.done| <= Taken(t)
    ensures |t.done| > Taken(s) + k ==> t.done[Taken(s) + k] == s.queue[k]
  {
    var place := Taken(s) + k;
    assert s.log[place] == (s.done + Hand1(s.pc1) + s.queue)[place] == s.queue[k];
    if |t.done| > place {
      assert t.log[place] == (t.done + Flight(t))[place] == t.done[place];
    }
  }

  // ---------------------------------------------------------------------------
  // Epochs
  // ---------------------------------------------------------------------------

  /** Core 1's command epoch: each tick adds what it took. */
  ghost function Epoch(cfg: Config, events: seq<Event>): nat
    requires cfg.Ok()
  {
    if events == [] then 0
    else
      var n := |events| - 1;
      var s, epoch := Reached(cfg, events[..n]), Epoch(cfg, events[..n]);
      if EndsTick(s, events[n]) && s.pc1.applied != 0 then (epoch + s.pc1.applied) % RtLoop.EPOCHS else epoch
  }

  lemma EpochStep(cfg: Config, before: seq<Event>, event: Event)
    requires cfg.Ok()
    ensures
      var s := Reached(cfg, before);
      Epoch(cfg, before + [event])
      == if EndsTick(s, event) && s.pc1.applied != 0 then (Epoch(cfg, before) + s.pc1.applied) % RtLoop.EPOCHS
         else Epoch(cfg, before)
  {
    hide Reached;
    assert (before + [event])[..|before|] == before;
  }

  lemma {:induction false} EpochCounts(cfg: Config, events: seq<Event>)
    requires cfg.Ok()
    ensures
      var s := Reached(cfg, events);
      Taken(s) >= TakenThisTick(s.pc1) && Epoch(cfg, events) == (Taken(s) - TakenThisTick(s.pc1)) % RtLoop.EPOCHS
  {
    hide Reached, Step, Wf, Epoch, Fifo;
    if events == [] {
      EpochBegins(cfg);
    } else {
      var n := |events| - 1;
      var before, event := events[..n], events[n];
      EpochCounts(cfg, before);
      var s := Reached(cfg, before);
      FifoAlways(cfg, before);
      QueueInLog(s);
      ReachedNext(cfg, before, event);
      EpochStep(cfg, before, event);
      assert before + [event] == events;
      StepShape(cfg, s, event);
      EpochAdds(Taken(s), TakenThisTick(s.pc1));
    }
  }

  lemma EpochBegins(cfg: Config)
    requires cfg.Ok()
    ensures
      var s := Reached(cfg, []);
      Taken(s) == 0 && TakenThisTick(s.pc1) == 0 && Epoch(cfg, []) == 0
  {}

  lemma QueueInLog(s: State)
    requires Fifo(s)
    ensures |s.queue| <= |s.log|
  {}

  lemma EpochAdds(taken: int, applied: nat)
    requires 0 <= applied <= COMMANDS_PER_TICK
    ensures ((taken - applied) % RtLoop.EPOCHS + applied) % RtLoop.EPOCHS == taken % RtLoop.EPOCHS
  {
    SumOfRemainders(taken - applied, applied, RtLoop.EPOCHS);
  }

  /** The epoch a tick records is, modulo 2^24, the number of commands applied when its sample
      runs: every command ever queued but those still waiting, however many arrived while the
      tick was draining. */
  lemma EpochIsExact(cfg: Config, events: seq<Event>, event: Event)
    requires cfg.Ok() && EndsTick(Reached(cfg, events), event)
    ensures
      var s := Reached(cfg, events);
      && s.log == s.done + s.queue
      && Epoch(cfg, events + [event]) == |s.done| % RtLoop.EPOCHS
  {
    hide Reached, Step, Wf, Epoch, Fifo;
    var s := Reached(cfg, events);
    EpochCounts(cfg, events + [event]);
    FifoAlways(cfg, events);
    QueueInLog(s);
    ReachedNext(cfg, events, event);
    StepShape(cfg, s, event);
    HandIsEmpty(s);
  }

  lemma HandIsEmpty(s: State)
    requires Fifo(s) && s.pc1.Draining?
    ensures s.log == s.done + s.queue
  {
    assert Hand1(s.pc1) + s.queue == s.queue;
  }
}
