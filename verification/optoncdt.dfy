/** Laser measurement stream: three bytes a value, distinguished by their two top bits. */
module OptoNcdt {
  import opened Wrappers
  import opened Words

  function Flags(byte: Byte): nat { byte / 64 }

  function Data(byte: Byte): nat { byte % 64 }

  predicate IsLow(byte: Byte) { Flags(byte) == 0 }

  predicate IsMiddle(byte: Byte) { Flags(byte) == 1 }

  predicate IsHigh(byte: Byte) { Flags(byte) >= 2 }

  datatype RawValue = RawValue(value: nat, first: bool)

  datatype ParseEvent = Pending | Value(raw: RawValue) | Resynchronised

  /** Bits below the stage and the stage itself: which of L, M, H comes next. */
  datatype State = State(acc: nat, stage: nat) {
    predicate Ok() { stage <= 2 && (stage == 1 ==> acc < 64) && (stage == 2 ==> acc < 4096) }
  }

  const FRESH := State(0, 0)

  /** One byte. The accumulated bits lie below those the byte adds, so setting them is adding. */
  function Pushed(s: State, byte: Byte): (r: (State, ParseEvent))
    ensures s.Ok() ==> r.0.Ok()
  {
    if s.stage == 0 && IsLow(byte) then (State(Data(byte), 1), Pending)
    else if s.stage == 1 && IsMiddle(byte) then (State(s.acc + 64 * Data(byte), 2), Pending)
    else if s.stage == 2 && IsHigh(byte) then
      (s.(stage := 0), Value(RawValue(s.acc + 4096 * Data(byte), Flags(byte) == 2)))
    else if IsLow(byte) then (State(Data(byte), 1), Resynchronised)
    else (s.(stage := 0), Resynchronised)
  }

  class Parser {
    var acc: nat
    var stage: nat

    ghost function Model(): State reads this { State(acc, stage) }

    constructor ()
      ensures Model() == FRESH
    {
      acc, stage := 0, 0;
    }

    method PushEvent(byte: Byte) returns (event: ParseEvent)
      requires Model().Ok()
      modifies this
      ensures Model().Ok() && (Model(), event) == Pushed(old(Model()), byte)
    {
      var flags := byte / 64;
      var data := byte % 64;
      if stage == 0 && flags == 0 {
        acc, stage := data, 1;
        return Pending;
      } else if stage == 1 && flags == 1 {
        acc, stage := acc + 64 * data, 2;
        return Pending;
      } else if stage == 2 && (flags == 2 || flags == 3) {
        event := Value(RawValue(acc + 4096 * data, flags == 2));
        stage := 0;
        return event;
      } else if flags == 0 {
        acc, stage := data, 1;
        return Resynchronised;
      }
      stage := 0;
      event := Resynchronised;
    }
  }

  function After(s: State, bytes: seq<Byte>): State {
    if bytes == [] then s else Pushed(After(s, bytes[..|bytes| - 1]), bytes[|bytes| - 1]).0
  }

  function EventAt(s: State, bytes: seq<Byte>, i: nat): ParseEvent
    requires i < |bytes|
  {
    Pushed(After(s, bytes[..i]), bytes[i]).1
  }

  /** The value that three consecutive bytes spell. */
  function Spelled(low: Byte, middle: Byte, high: Byte): RawValue {
    RawValue(Data(low) + 64 * Data(middle) + 4096 * Data(high), Flags(high) == 2)
  }

  /** A value comes out exactly where a low, a middle and a high byte follow one another, and
      it is the one they spell: nothing before them matters, and nothing else is reported. */
  lemma ValuesAreThreeBytes(bytes: seq<Byte>, i: nat)
    requires i < |bytes|
    ensures EventAt(FRESH, bytes, i).Value?
       <==> i >= 2 && IsLow(bytes[i - 2]) && IsMiddle(bytes[i - 1]) && IsHigh(bytes[i])
    ensures EventAt(FRESH, bytes, i).Value? ==>
      EventAt(FRESH, bytes, i) == Value(Spelled(bytes[i - 2], bytes[i - 1], bytes[i]))
  {
    StageIs(bytes[..i]);
    if i >= 2 {
      assert bytes[..i][i - 1] == bytes[i - 1] && bytes[..i][i - 2] == bytes[i - 2];
    }
  }

  /** The same in numbers: the top two bits of a byte say which of the three it is, the others
      are six bits of the value, and the last byte also says which measurement it belongs to. */
  lemma ValuesInNumbers(bytes: seq<Byte>, i: nat)
    requires i < |bytes|
    ensures EventAt(FRESH, bytes, i).Value? <==> i >= 2 && bytes[i - 2] < 64 <= bytes[i - 1] < 128 <= bytes[i]
    ensures EventAt(FRESH, bytes, i).Value? ==>
      var low: int, middle: int, high: int := bytes[i - 2], bytes[i - 1], bytes[i];
      && EventAt(FRESH, bytes, i).raw.value == low + 64 * (middle - 64) + 4096 * (if high < 192 then high - 128 else high - 192)
      && (EventAt(FRESH, bytes, i).raw.first <==> high < 192)
  {
    ValuesAreThreeBytes(bytes, i);
    hide EventAt;
  }

  /** A low byte has just been read, or a low and a middle one. */
  ghost predicate Expecting(bytes: seq<Byte>, i: nat)
    requires i <= |bytes|
  {
    (i >= 1 && bytes[i - 1] < 64) || (i >= 2 && bytes[i - 2] < 64 <= bytes[i - 1] < 128)
  }

  /** Resynchronisation is reported exactly for a low byte that cuts a value short, and for a
      middle or a high byte that does not continue one. */
  lemma ResynchronisedExactly(bytes: seq<Byte>, i: nat)
    requires i < |bytes|
    ensures EventAt(FRESH, bytes, i).Resynchronised? <==>
      || (bytes[i] < 64 && Expecting(bytes, i))
      || (64 <= bytes[i] < 128 && !(i >= 1 && bytes[i - 1] < 64))
      || (bytes[i] >= 128 && !(i >= 2 && bytes[i - 2] < 64 <= bytes[i - 1] < 128))
  {
    StageIs(bytes[..i]);
    if i >= 2 {
      assert bytes[..i][i - 1] == bytes[i - 1] && bytes[..i][i - 2] == bytes[i - 2];
    }
  }

  /** The stage is decided by the last two bytes alone. */
  lemma {:induction false} StageIs(bytes: seq<Byte>)
    ensures
      var s := After(FRESH, bytes);
      var n := |bytes|;
      && s.stage <= 2
      && (s.stage == 1 <==> n >= 1 && IsLow(bytes[n - 1]))
      && (s.stage == 2 <==> n >= 2 && IsLow(bytes[n - 2]) && IsMiddle(bytes[n - 1]))
      && (s.stage == 1 ==> s.acc == Data(bytes[n - 1]))
      && (s.stage == 2 ==> s.acc == Data(bytes[n - 2]) + 64 * Data(bytes[n - 1]))
  {
    if bytes != [] {
      var before := bytes[..|bytes| - 1];
      StageIs(before);
    }
  }

  /** A value with its three flag pairs, as the sensor sends it. */
  function Encoded(v: RawValue): (bytes: seq<Byte>)
    requires v.value < 0x4_0000
    ensures |bytes| == 3
  {
    [v.value % 64, 64 + v.value / 64 % 64, (if v.first then 128 else 192) + v.value / 4096]
  }

  predicate Sendable(values: seq<RawValue>) { forall i :: 0 <= i < |values| ==> values[i].value < 0x4_0000 }

  function AllEncoded(values: seq<RawValue>): seq<Byte>
    requires Sendable(values)
  {
    if values == [] then [] else AllEncoded(values[..|values| - 1]) + Encoded(values[|values| - 1])
  }

  /** The values that a run of bytes yields. */
  function Values(s: State, bytes: seq<Byte>): seq<RawValue> {
    if bytes == [] then []
    else
      var n := |bytes| - 1;
      Values(s, bytes[..n]) + match EventAt(s, bytes, n) case Value(raw) => [raw] case _ => []
  }

  lemma AfterOne(s: State, bytes: seq<Byte>, byte: Byte)
    ensures After(s, bytes + [byte]) == Pushed(After(s, bytes), byte).0
    ensures Values(s, bytes + [byte])
         == Values(s, bytes) + match Pushed(After(s, bytes), byte).1 case Value(raw) => [raw] case _ => []
  {
    assert (bytes + [byte])[..|bytes|] == bytes;
  }

  lemma SplitValue(v: nat)
    requires v < 0x4_0000
    ensures v == v % 64 + 64 * (v / 64 % 64) + 4096 * (v / 4096) && v / 4096 < 64
  {}

  /** From any state whatever, one encoded value yields exactly itself. */
  lemma OneValue(s: State, bytes: seq<Byte>, v: RawValue)
    requires v.value < 0x4_0000
    ensures After(s, bytes + Encoded(v)).stage == 0
    ensures Values(s, bytes + Encoded(v)) == Values(s, bytes) + [v]
  {
    SplitValue(v.value);
    var e := Encoded(v);
    assert Flags(e[0]) == 0 && Flags(e[1]) == 1 && Flags(e[2]) == if v.first then 2 else 3;
    assert Data(e[0]) == v.value % 64 && Data(e[1]) == v.value / 64 % 64 && Data(e[2]) == v.value / 4096;
    assert IsLow(e[0]) && IsMiddle(e[1]) && IsHigh(e[2]);
    hide Flags, Data, IsLow, IsMiddle, IsHigh, After, Values, Encoded;
    FeedThree(s, bytes, e, v);
  }

  lemma FeedThree(s: State, bytes: seq<Byte>, e: seq<Byte>, v: RawValue)
    requires |e| == 3 && IsLow(e[0]) && IsMiddle(e[1]) && IsHigh(e[2])
    requires v == Spelled(e[0], e[1], e[2])
    ensures After(s, bytes + e).stage == 0
    ensures Values(s, bytes + e) == Values(s, bytes) + [v]
  {
    hide After, Values, Data;
    AfterOne(s, bytes, e[0]);
    AfterOne(s, bytes + [e[0]], e[1]);
    AfterOne(s, bytes + [e[0]] + [e[1]], e[2]);
    assert bytes + [e[0]] + [e[1]] + [e[2]] == bytes + e;
  }

  /** After any garbage, from any state, a stream of encoded values is decoded to exactly
      those values, in order. */
  lemma {:induction false} Resynchronises(s: State, garbage: seq<Byte>, values: seq<RawValue>)
    requires Sendable(values)
    ensures Values(s, garbage + AllEncoded(values)) == Values(s, garbage) + values
  {
    hide Values, Encoded, After;
    if values == [] {
      assert garbage + [] == garbage;
    } else {
      var before, v := values[..|values| - 1], values[|values| - 1];
      Resynchronises(s, garbage, before);
      OneValue(s, garbage + AllEncoded(before), v);
      assert garbage + AllEncoded(before) + Encoded(v) == garbage + AllEncoded(values);
      assert values == before + [v];
    }
  }

  // ---------------------------------------------------------------------------
  // Command replies among the measurements
  // ---------------------------------------------------------------------------

  const DASH: Byte := 0x2D
  const ANGLE: Byte := 0x3E
  const LETTER_E: Byte := 0x45

  datatype Reply = Prompt | Failure(code: nat)

  datatype ReplyState = ReplyState(previous: Byte, window: seq<Byte>, error: Option<nat>)

  const FRESH_REPLY := ReplyState(0, [0, 0, 0, 0], None)

  predicate IsDigit(byte: Byte) { 0x30 <= byte <= 0x39 }

  function Digit(byte: Byte): (d: nat)
    requires IsDigit(byte)
    ensures d <= 9
  {
    var code: int := byte;
    code - 0x30
  }

  /** Four bytes that spell an error code. */
  function ErrorIn(window: seq<Byte>): Option<nat>
    requires |window| == 4
  {
    if window[0] == LETTER_E && IsDigit(window[1]) && IsDigit(window[2]) && IsDigit(window[3])
    then Some(Digit(window[1]) * 100 + Digit(window[2]) * 10 + Digit(window[3])) else None
  }

  function ReplyPushed(s: ReplyState, byte: Byte): (ReplyState, Option<Reply>)
    requires |s.window| == 4
  {
    var window := s.window[1..] + [byte];
    var error := if ErrorIn(window).Some? then ErrorIn(window) else s.error;
    (ReplyState(byte, window, error),
     if s.previous == DASH && byte == ANGLE
     then Some(match error case Some(code) => Failure(code) case None => Prompt)
     else None)
  }

  class CommandReplyParser {
    var previous: Byte
    var window: seq<Byte>
    var error: Option<nat>

    ghost function Model(): ReplyState reads this { ReplyState(previous, window, error) }

    constructor ()
      ensures Model() == FRESH_REPLY
    {
      previous, window, error := 0, [0, 0, 0, 0], None;
    }

    method Push(byte: Byte) returns (reply: Option<Reply>)
      requires |window| == 4
      modifies this
      ensures |window| == 4 && (Model(), reply) == ReplyPushed(old(Model()), byte)
    {
      window := window[1..] + [byte];
      var found := ErrorIn(window);
      if found.Some? {
        error := found;
      }
      var complete := previous == DASH && byte == ANGLE;
      previous := byte;
      if complete {
        return Some(match error case Some(code) => Failure(code) case None => Prompt);
      }
      reply := None;
    }
  }

  function ReplyAfter(bytes: seq<Byte>): (s: ReplyState)
    ensures |s.window| == 4
  {
    if bytes == [] then FRESH_REPLY else ReplyPushed(ReplyAfter(bytes[..|bytes| - 1]), bytes[|bytes| - 1]).0
  }

  /** Among complete values every low byte is followed by a middle and a high one. */
  predicate FollowsPattern(bytes: seq<Byte>) {
    forall i :: 0 <= i < |bytes| ==>
      if i % 3 == 0 then IsLow(bytes[i]) else if i % 3 == 1 then IsMiddle(bytes[i]) else IsHigh(bytes[i])
  }

  function ReplyAt(bytes: seq<Byte>, i: nat): Option<Reply>
    requires i < |bytes|
  {
    ReplyPushed(ReplyAfter(bytes[..i]), bytes[i]).1
  }

  /** The byte `back` places from the end, zero before the stream began. */
  function Recent(bytes: seq<Byte>, back: nat): Byte {
    if back < |bytes| then bytes[|bytes| - 1 - back] else 0
  }

  /** The parser remembers exactly the last byte and the last four. */
  lemma {:induction false} RemembersLastFour(bytes: seq<Byte>)
    ensures
      var s := ReplyAfter(bytes);
      && s.previous == Recent(bytes, 0)
      && s.window == [Recent(bytes, 3), Recent(bytes, 2), Recent(bytes, 1), Recent(bytes, 0)]
  {
    hide ErrorIn;
    if bytes != [] {
      RemembersLastFour(bytes[..|bytes| - 1]);
    }
  }

  /** A reply completes exactly at a dash followed by an angle bracket. */
  lemma PromptIsDashAngle(bytes: seq<Byte>, i: nat)
    requires i < |bytes|
    ensures ReplyAt(bytes, i).Some? <==> i >= 1 && bytes[i - 1] == DASH && bytes[i] == ANGLE
  {
    hide ErrorIn;
    RemembersLastFour(bytes[..i]);
  }

  /** The letter E and three decimal digits, from this place on, spell this code. */
  ghost predicate SpellsError(bytes: seq<Byte>, at: nat, code: int) {
    && at + 4 <= |bytes| && bytes[at] == 69
    && 48 <= bytes[at + 1] <= 57 && 48 <= bytes[at + 2] <= 57 && 48 <= bytes[at + 3] <= 57
    && var hundreds: int, tens: int, units: int := bytes[at + 1], bytes[at + 2], bytes[at + 3];
       code == 100 * (hundreds - 48) + 10 * (tens - 48) + (units - 48)
  }

  ghost predicate EndsWithError(bytes: seq<Byte>, code: int) {
    |bytes| >= 4 && SpellsError(bytes, |bytes| - 4, code)
  }

  /** Where the last error code was spelled; `None` when there was none. */
  ghost function LastError(bytes: seq<Byte>): (at: Option<nat>)
    ensures at.Some? ==> at.value + 4 <= |bytes|
  {
    if |bytes| < 4 then None
    else if exists code :: EndsWithError(bytes, code) then Some(|bytes| - 4)
    else LastError(bytes[..|bytes| - 1])
  }

  lemma ErrorInWindow(window: seq<Byte>, bytes: seq<Byte>, code: int)
    requires |window| == 4 && |bytes| >= 4 && window == bytes[|bytes| - 4..]
    ensures (ErrorIn(window).Some? && ErrorIn(window).value == code) <==> EndsWithError(bytes, code)
  {
    var n := |bytes|;
    assert window[0] == bytes[n - 4] && window[1] == bytes[n - 3] && window[2] == bytes[n - 2] && window[3] == bytes[n - 1];
  }

  lemma ShortWindow(bytes: seq<Byte>)
    requires |bytes| < 4
    ensures ErrorIn([Recent(bytes, 3), Recent(bytes, 2), Recent(bytes, 1), Recent(bytes, 0)]).None?
  {}

  /** The error remembered is the code last spelled by the letter E and three decimal digits. */
  lemma {:induction false} ErrorIsTheLastSpelled(bytes: seq<Byte>)
    ensures
      var error := ReplyAfter(bytes).error;
      match LastError(bytes)
      case None => error == None
      case Some(at) => error.Some? && SpellsError(bytes, at, error.value)
  {
    hide ErrorIn, Recent, LastError, SpellsError;
    if bytes == [] {
      NoErrorYet(bytes);
    } else {
      var before := bytes[..|bytes| - 1];
      ErrorIsTheLastSpelled(before);
      RemembersLastFour(bytes);
      var s := ReplyAfter(bytes);
      assert s.error == if ErrorIn(s.window).Some? then ErrorIn(s.window) else ReplyAfter(before).error;
      if |bytes| < 4 {
        ShortWindow(bytes);
        NoErrorYet(bytes);
        NoErrorYet(before);
      } else {
        LastFour(bytes);
        WindowDecides(bytes, s.window);
        var at := LastError(before);
        if ErrorIn(s.window).None? && at.Some? { SpelledEarlier(bytes, at.value, s.error.value); }
      }
    }
  }

  lemma NoErrorYet(bytes: seq<Byte>)
    requires |bytes| < 4
    ensures LastError(bytes) == None
  {}

  lemma WindowDecides(bytes: seq<Byte>, window: seq<Byte>)
    requires |window| == 4 && |bytes| >= 4 && window == bytes[|bytes| - 4..]
    ensures
      match ErrorIn(window)
      case Some(code) => LastError(bytes) == Some(|bytes| - 4) && SpellsError(bytes, |bytes| - 4, code)
      case None => LastError(bytes) == LastError(bytes[..|bytes| - 1])
  {
    hide ErrorIn, SpellsError;
    if ErrorIn(window).Some? {
      ErrorInWindow(window, bytes, ErrorIn(window).value);
    } else {
      forall code: int ensures !EndsWithError(bytes, code) { ErrorInWindow(window, bytes, code); }
    }
  }

  lemma SpelledEarlier(bytes: seq<Byte>, at: nat, code: int)
    requires bytes != [] && SpellsError(bytes[..|bytes| - 1], at, code)
    ensures SpellsError(bytes, at, code)
  {}

  lemma LastFour(bytes: seq<Byte>)
    requires |bytes| >= 4
    ensures [Recent(bytes, 3), Recent(bytes, 2), Recent(bytes, 1), Recent(bytes, 0)] == bytes[|bytes| - 4..]
  {}

  /** A reply is a prompt, "->", and reports failure with the code last spelled, if any. */
  lemma ReplyReportsTheLastError(bytes: seq<Byte>, i: nat)
    requires i < |bytes|
    ensures ReplyAt(bytes, i).Some? <==> i >= 1 && bytes[i - 1] == 45 && bytes[i] == 62
    ensures ReplyAt(bytes, i).Some? ==>
      match LastError(bytes[..i + 1])
      case None => ReplyAt(bytes, i) == Some(Prompt)
      case Some(at) => ReplyAt(bytes, i).value.Failure? && SpellsError(bytes, at, ReplyAt(bytes, i).value.code)
  {
    PromptIsDashAngle(bytes, i);
    ErrorIsTheLastSpelled(bytes[..i + 1]);
    assert bytes[..i + 1][..i] == bytes[..i];
    hide ErrorIn, LastError;
  }

  /** A stream of complete values spells no error code anywhere. */
  lemma {:induction false} MeasurementsSpellNoError(bytes: seq<Byte>)
    requires FollowsPattern(bytes)
    ensures ReplyAfter(bytes).error == None
  {
    if bytes != [] {
      MeasurementsSpellNoError(bytes[..|bytes| - 1]);
      RemembersLastFour(bytes);
      if |bytes| >= 4 {
        var i := |bytes| - 4;
        assert bytes[i] == LETTER_E ==> i % 3 == 1;
        assert (i + 1) % 3 == 2 ==> IsHigh(bytes[i + 1]);
      }
    }
  }

  lemma TwoLowBytes(bytes: seq<Byte>, i: nat)
    requires FollowsPattern(bytes) && 1 <= i < |bytes|
    ensures !(IsLow(bytes[i - 1]) && IsLow(bytes[i]))
  {
    hide IsLow, IsMiddle, IsHigh, FollowsPattern;
    PatternAt(bytes, i - 1);
    PatternAt(bytes, i);
    OneKind(bytes[i - 1]);
    OneKind(bytes[i]);
  }

  lemma PatternAt(bytes: seq<Byte>, i: nat)
    requires FollowsPattern(bytes) && i < |bytes|
    ensures if i % 3 == 0 then IsLow(bytes[i]) else if i % 3 == 1 then IsMiddle(bytes[i]) else IsHigh(bytes[i])
  {}

  lemma OneKind(byte: Byte)
    ensures !(IsLow(byte) && IsMiddle(byte)) && !(IsLow(byte) && IsHigh(byte))
  {}

  /** A fresh reply parser never reports anything on a stream of complete binary values. */
  lemma {:induction false} MeasurementsAreNoReply(bytes: seq<Byte>, i: nat)
    requires FollowsPattern(bytes) && i < |bytes|
    ensures ReplyAt(bytes, i) == None && ReplyAfter(bytes).error == None
  {
    hide ReplyAfter, ReplyAt, Recent;
    PromptIsDashAngle(bytes, i);
    MeasurementsSpellNoError(bytes);
    if i >= 1 && bytes[i - 1] == DASH && bytes[i] == ANGLE {
      TwoLowBytes(bytes, i);
    }
  }

  /** What the sensor sends for any values follows the pattern. */
  lemma {:induction false} EncodedFollowsPattern(values: seq<RawValue>)
    requires Sendable(values)
    ensures FollowsPattern(AllEncoded(values)) && |AllEncoded(values)| == 3 * |values|
  {
    if values != [] {
      var before, v := values[..|values| - 1], values[|values| - 1];
      EncodedFollowsPattern(before);
      SplitValue(v.value);
      var e := Encoded(v);
      assert IsLow(e[0]) && IsMiddle(e[1]) && IsHigh(e[2]);
      hide Encoded;
      var n := |AllEncoded(before)|;
      assert n % 3 == 0 && (n + 1) % 3 == 1 && (n + 2) % 3 == 2;
    }
  }
}
