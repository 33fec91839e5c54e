/** The parameter groups: each validates and stages its own values, and accepts or rejects
    the staged update once the store knows whether its command was queued. */
module Groups {
  import opened Wrappers
  import opened Words
  import opened Floats
  import opened Commands
  import opened TableBuffer
  import opened Params
  import opened StoreSpec
  import Table

  datatype Staged = OnCore0(effect: LocalEffect) | Rt(payload: Payload)

  // ---------------------------------------------------------------------------
  // Coefficient vectors on the wire
  // ---------------------------------------------------------------------------

  lemma SliceBehind(data: seq<Byte>, at: nat)
    requires at + 8 <= |data|
    ensures data[4..][at..at + 4] == data[at + 4..at + 8]
  {}

  lemma {:induction false} WordAt(data: seq<Byte>, i: nat)
    requires 4 * i + 4 <= |data|
    ensures WordsOf(data)[i] == ReadWord(data, i)
  {
    if i > 0 {
      WordAt(data[4..], i - 1);
      SliceBehind(data, 4 * (i - 1));
      assert WordsOf(data)[1..] == WordsOf(data[4..]);
    }
  }

  lemma {:induction false} BytesAt(words: seq<U32>, i: nat)
    requires i < |words|
    ensures BytesOf(words)[4 * i..4 * i + 4] == Le32(words[i])
  {
    if i > 0 {
      BytesAt(words[1..], i - 1);
      assert BytesOf(words)[4..] == BytesOf(words[1..]);
      SliceBehind(BytesOf(words), 4 * (i - 1));
    }
  }

  function ReadWord(data: seq<Byte>, i: nat): U32
    requires 4 * i + 4 <= |data|
  {
    FromLe32(data[4 * i..4 * i + 4])
  }

  lemma CellsAreWords(h: nat, data: seq<Byte>, mean: U32, a: seq<U32>, b: seq<U32>)
    requires |data| == (1 + 2 * h) * 4 && |a| == |b| == h && mean == ReadWord(data, 0)
    requires forall i :: 0 <= i < h ==> a[i] == ReadWord(data, 1 + i)
    requires forall i :: 0 <= i < h ==> b[i] == ReadWord(data, 1 + h + i)
    ensures [mean] + a + b == WordsOf(data)
  {
    var cells := [mean] + a + b;
    forall i | 0 <= i < |cells| ensures cells[i] == WordsOf(data)[i] {
      WordAt(data, i);
      hide WordsOf, ReadWord;
      if i > 0 {
        if i <= h { assert cells[i] == a[i - 1]; } else { assert cells[i] == b[i - 1 - h]; }
      }
    }
  }

  /** Coefficients in wire order: the mean, every cosine amplitude, every sine amplitude. */
  method DeserializeCoeffs(h: nat, data: seq<Byte>) returns (r: Result<seq<U32>, ErrorCode>)
    ensures r == if |data| != (1 + 2 * h) * 4 then Err(BadLength)
                 else if AllFinite(WordsOf(data)) then Ok(WordsOf(data))
                 else Err(BadValue)
  {
    hide FromLe32, WordsOf, AllFinite;
    if |data| != (1 + 2 * h) * 4 {
      return Err(BadLength);
    }
    var mean := ReadWord(data, 0);
    var a := new U32[h](_ => 0);
    var b := new U32[h](_ => 0);
    for harmonic := 0 to h
      invariant forall i :: 0 <= i < harmonic ==> a[i] == ReadWord(data, 1 + i)
      invariant forall i :: 0 <= i < harmonic ==> b[i] == ReadWord(data, 1 + h + i)
    {
      a[harmonic] := ReadWord(data, 1 + harmonic);
      b[harmonic] := ReadWord(data, 1 + h + harmonic);
    }
    var cells := [mean] + a[..] + b[..];
    CellsAreWords(h, data, mean, a[..], b[..]);
    r := if AllFinite(cells) then Ok(cells) else Err(BadValue);
  }

  method WriteWord(out: array<Byte>, offset: nat, word: U32)
    requires offset + 4 <= out.Length
    modifies out
    ensures out[..] == old(out[..offset]) + Le32(word) + old(out[offset + 4..])
  {
    Put(out, offset, Le32(word));
  }

  /** The inverse of deserialising: the same bytes come back. */
  method SerializeCoeffs(h: nat, cells: seq<U32>, out: array<Byte>)
    requires |cells| == 1 + 2 * h && out.Length == 4 * |cells|
    modifies out
    ensures out[..] == BytesOf(cells)
  {
    ghost var whole := BytesOf(cells);
    WriteWord(out, 0, cells[0]);
    BytesAt(cells, 0);
    for harmonic := 0 to h
      invariant forall i :: 0 <= i < 4 + 4 * harmonic ==> out[i] == whole[i]
      invariant forall i :: 4 + 4 * h <= i < 4 + 4 * (h + harmonic) ==> out[i] == whole[i]
    {
      WriteWordOf(out, cells, 1 + harmonic);
      WriteWordOf(out, cells, 1 + h + harmonic);
    }
    assert |whole| == out.Length;
  }

  method WriteWordOf(out: array<Byte>, cells: seq<U32>, i: nat)
    requires i < |cells| && out.Length == 4 * |cells|
    modifies out
    ensures forall j :: 0 <= j < out.Length ==>
      out[j] == if 4 * i <= j < 4 * i + 4 then BytesOf(cells)[j] else old(out[j])
  {
    ghost var before := out[..];
    BytesAt(cells, i);
    WriteWord(out, 4 * i, cells[i]);
    forall j | 0 <= j < out.Length
      ensures out[j] == if 4 * i <= j < 4 * i + 4 then BytesOf(cells)[j] else before[j]
    {
      assert out[j] == out[..][j];
      if 4 * i <= j < 4 * i + 4 {
        assert BytesOf(cells)[j] == BytesOf(cells)[4 * i..4 * i + 4][j - 4 * i];
      }
    }
  }

  // ---------------------------------------------------------------------------
  // Generator
  // ---------------------------------------------------------------------------

  /** What staging a coefficient vector does to its buffer. */
  ghost predicate Issued(b: Buf<Bank>, k: nat, bank: Bank, after: Buf<Bank>, staged: Staged) {
    && b.Ok() && b.pending == NO_PENDING
    && var (committed, token) := Committed(WithBank(b, bank), k);
       after == committed && staged == Rt(Buffer(token.value))
  }

  class GeneratorGroup {
    const cfg: Config
    const targetBuffer: DoubleBuffer<Bank>
    const forcingBuffer: DoubleBuffer<Bank>
    var frequency: U32
    var target: Bank
    var forcing: Bank
    var pending: Update

    ghost predicate Valid()
      reads this, targetBuffer, targetBuffer.banks, forcingBuffer, forcingBuffer.banks
    {
      && cfg.Ok()
      && targetBuffer != forcingBuffer && targetBuffer.banks != forcingBuffer.banks
      && targetBuffer.identity == TARGET && forcingBuffer.identity == FORCING
      && targetBuffer.Valid() && forcingBuffer.Valid()
      && (pending.Nothing? || pending.Frequency? || (pending.BankValue? && pending.k <= FORCING))
    }

    constructor (cfg: Config, targetBuffer: DoubleBuffer<Bank>, forcingBuffer: DoubleBuffer<Bank>)
      requires cfg.Ok() && targetBuffer != forcingBuffer && targetBuffer.banks != forcingBuffer.banks
      requires targetBuffer.identity == TARGET && forcingBuffer.identity == FORCING
      requires targetBuffer.Valid() && forcingBuffer.Valid()
      ensures Valid() && this.cfg == cfg && pending == Nothing && frequency == 0
      ensures this.targetBuffer == targetBuffer && this.forcingBuffer == forcingBuffer
      ensures target == forcing == Bank(seq(1 + 2 * cfg.harmonics, _ => 0), 1 + 2 * cfg.harmonics)
    {
      this.cfg := cfg;
      this.targetBuffer := targetBuffer;
      this.forcingBuffer := forcingBuffer;
      frequency := 0;
      var zero := Bank(seq(1 + 2 * cfg.harmonics, _ => 0), 1 + 2 * cfg.harmonics);
      target, forcing := zero, zero;
      pending := Nothing;
    }

    function BufferOf(k: nat): DoubleBuffer<Bank> { if k == TARGET then targetBuffer else forcingBuffer }

    method Stage(id: nat, data: seq<Byte>) returns (r: Result<Staged, ErrorCode>)
      requires Valid() && pending == Nothing
      modifies this`pending, targetBuffer`pending, targetBuffer.banks, forcingBuffer`pending, forcingBuffer.banks
      ensures Valid()
      ensures
        match GeneratorPlan(cfg, id, data)
        case Send(command, update) =>
          && r == Ok(Rt(command.payload)) && pending == update
          && unchanged(targetBuffer, targetBuffer.banks, forcingBuffer, forcingBuffer.banks)
        case Stage(k, cells) =>
          var other := BufferOf(1 - k);
          && unchanged(other, other.banks)
          && if old(BufferOf(k).pending) != NO_PENDING then
               && r == Err(ErrorCode.Busy) && pending == Nothing
               && unchanged(BufferOf(k), BufferOf(k).banks)
             else
               && r.Ok? && pending == BankValue(k, Bank(cells, |cells|))
               && Issued(old(BufferOf(k).Model()), k, Bank(cells, |cells|), BufferOf(k).Model(), r.value)
        case Refuse(error) =>
          && r == Err(error) && pending == Nothing
          && unchanged(targetBuffer, targetBuffer.banks, forcingBuffer, forcingBuffer.banks)
        case _ => false
    {
      hide RealOf, IsFinite, Phase.IncrementFor, WordsOf, FromLe32, AllFinite;
      if id == 0 {
        if |data| != 4 {
          return Err(BadLength);
        }
        var bits := FromLe32(data);
        if !InBand(cfg, bits) {
          return Err(BadValue);
        }
        pending := Frequency(bits);
        return Ok(Rt(Payload.Word(Increment(cfg, bits))));
      } else if id == 1 || id == 2 {
        var coefficients := DeserializeCoeffs(cfg.harmonics, data);
        if coefficients.Err? {
          return Err(coefficients.error);
        }
        var cells := coefficients.value;
        if id == 2 && !cfg.forcingAllowed(cells) {
          return Err(BadValue);
        }
        var buffer := if id == 1 then targetBuffer else forcingBuffer;
        var bank := buffer.Borrow();
        if bank.Err? {
          return Err(ErrorCode.Busy);
        }
        buffer.banks[bank.value] := Bank(cells, |cells|);
        var token := buffer.Commit();
        if token.Err? {
          return Err(ErrorCode.Busy);
        }
        pending := BankValue(if id == 1 then TARGET else FORCING, Bank(cells, |cells|));
        return Ok(Rt(Buffer(token.value)));
      } else {
        return Err(BadIndex);
      }
    }

    method Accept()
      requires Valid()
      modifies this
      ensures Valid() && pending == Nothing
      ensures frequency == if old(pending.Frequency?) then old(pending).bits else old(frequency)
      ensures target == if old(pending.BankValue? && pending.k == TARGET) then old(pending).bank else old(target)
      ensures forcing == if old(pending.BankValue? && pending.k == FORCING) then old(pending).bank else old(forcing)
    {
      match pending {
        case Frequency(bits) => frequency := bits;
        case BankValue(k, bank) => if k == TARGET { target := bank; } else { forcing := bank; }
        case _ =>
      }
      pending := Nothing;
    }

    method Reject(id: nat, returned: Payload)
      requires Valid()
      modifies this`pending, targetBuffer`pending, forcingBuffer`pending
      ensures Valid() && pending == Nothing
      ensures targetBuffer.Model() == if id == 1 && returned.Buffer?
                                      then Cancelled(old(targetBuffer.Model()), TARGET, returned.token)
                                      else old(targetBuffer.Model())
      ensures forcingBuffer.Model() == if id == 2 && returned.Buffer?
                                       then Cancelled(old(forcingBuffer.Model()), FORCING, returned.token)
                                       else old(forcingBuffer.Model())
    {
      match returned {
        case Buffer(token) =>
          if id == 1 {
            targetBuffer.Cancel(token);
          } else if id == 2 {
            forcingBuffer.Cancel(token);
          }
        case _ =>
      }
      pending := Nothing;
    }
  }

  // ---------------------------------------------------------------------------
  // Waveform table
  // ---------------------------------------------------------------------------

  class TableGroup {
    const cfg: Config
    const staging: DoubleBuffer<Bank>
    var shadow: TableShadow
    var pending: Update
    /** The table last accepted, and the one whose commit awaits its answer. */
    ghost var committed: Bank
    ghost var publishing: Option<Bank>

    ghost predicate Valid()
      reads this, staging, staging.banks
    {
      && cfg.Ok()
      && staging.identity == TABLE && staging.Valid()
      && (forall b :: 0 <= b < 2 ==> |staging.banks[b].cells| == cfg.tableCapacity)
      && !pending.BankValue? && !pending.ControlScalar? && !pending.RigScalar? && !pending.Frequency?
    }

    constructor (cfg: Config, staging: DoubleBuffer<Bank>)
      requires cfg.Ok() && staging.identity == TABLE && staging.Valid()
      requires forall b :: 0 <= b < 2 ==> |staging.banks[b].cells| == cfg.tableCapacity
      ensures Valid() && this.cfg == cfg && this.staging == staging
      ensures pending == Nothing && publishing == None
      ensures shadow == TableShadow(0, 0x3F80_0000, 1, 0, 1, 0)
      ensures committed == Bank(seq(cfg.tableCapacity, _ => 0), 0)
    {
      this.cfg := cfg;
      this.staging := staging;
      shadow := TableShadow(0, 0x3F80_0000, 1, 0, 1, 0);
      pending := Nothing;
      committed := Bank(seq(cfg.tableCapacity, _ => 0), 0);
      publishing := None;
    }

    method Stage(id: nat, data: seq<Byte>) returns (r: Result<Staged, ErrorCode>)
      requires Valid() && pending == Nothing
      modifies this`pending
      ensures Valid()
      ensures
        match TablePlan(cfg, id, data)
        case Send(command, update) => r == Ok(Rt(command.payload)) && pending == update
        case Local(effect) => r == Ok(OnCore0(effect)) && pending == Nothing
        case Refuse(error) => r == Err(error) && pending == Nothing
        case _ => false
    {
      hide RealOf, IsFinite, Phase.IncrementFor, FromLe32, Table.InterpolationFrom, Table.ModeFrom;
      if id == 0 {
        return Err(BadLength);
      }
      if id > 7 {
        return Err(BadIndex);
      }
      if |data| != 4 {
        return Err(BadLength);
      }
      var word := FromLe32(data);
      match id {
        case 1 =>
          if !InBand(cfg, word) {
            return Err(BadValue);
          }
          pending := TableFrequency(word);
          return Ok(Rt(Payload.Word(Increment(cfg, word))));
        case 2 =>
          if !IsFinite(word) {
            return Err(BadValue);
          }
          pending := Gain(word);
          return Ok(Rt(F32(word)));
        case 3 =>
          if Table.InterpolationFrom(word).None? {
            return Err(BadValue);
          }
          pending := Interpolation(word);
          return Ok(Rt(Payload.Word(word)));
        case 4 =>
          if Table.ModeFrom(word).None? {
            return Err(BadValue);
          }
          pending := Mode(word);
          return Ok(Rt(Payload.Word(word)));
        case 5 =>
          if word == 0 {
            return Err(BadValue);
          }
          pending := Multiplier(word);
          return Ok(Rt(Payload.Word(word)));
        case 6 =>
          if !InTurn(word) {
            return Err(BadValue);
          }
          pending := PhaseOffset(word);
          return Ok(Rt(Payload.Word(PhaseWord(word))));
        case _ =>
          if word == 0 {
            return Ok(OnCore0(NoEffect));
          }
          return Ok(Rt(Unit));
      }
    }

    method Accept()
      requires Valid()
      modifies this
      ensures Valid() && pending == Nothing && publishing == None
      ensures shadow == Accepted(Shadows(0, [], old(shadow), [], []), old(pending)).table
      ensures committed == if old(publishing).Some? then old(publishing).value else old(committed)
    {
      match pending {
        case TableFrequency(bits) => shadow := shadow.(frequency := bits);
        case Gain(bits) => shadow := shadow.(gain := bits);
        case Interpolation(value) => shadow := shadow.(interpolation := value);
        case Mode(value) => shadow := shadow.(mode := value);
        case Multiplier(value) => shadow := shadow.(multiplier := value);
        case PhaseOffset(bits) => shadow := shadow.(phase := bits);
        case _ =>
      }
      pending := Nothing;
      if publishing.Some? {
        committed := publishing.value;
      }
      publishing := None;
    }

    method Reject(id: nat, returned: Payload)
      requires Valid()
      modifies this`pending, this`publishing, staging`pending
      ensures Valid() && pending == Nothing && publishing == None
      ensures staging.Model() == if id == 0 && returned.Buffer?
                                 then Cancelled(old(staging.Model()), TABLE, returned.token)
                                 else old(staging.Model())
    {
      if id == 0 {
        match returned {
          case Buffer(token) => staging.Cancel(token);
          case _ =>
        }
      }
      pending := Nothing;
      publishing := None;
    }

    /** Write whole words into the free bank, or nothing at all. */
    method SetBlock(id: nat, offset: U32, data: seq<Byte>) returns (r: Result<(), ErrorCode>)
      requires Valid()
      modifies staging.banks
      ensures Valid()
      ensures
        var words := WordsOf(data);
        var b := old(staging.Model());
        var free := b.banks[1 - b.active];
        if id != 0 then r == Err(BadIndex) && staging.Model() == b
        else if |data| % 4 != 0 || offset as int + |words| > cfg.tableCapacity then
          r == Err(BadLength) && staging.Model() == b
        else if b.pending != NO_PENDING then r == Err(ErrorCode.Busy) && staging.Model() == b
        else
          && r == Ok(())
          && staging.Model() == WithBank(b, free.(cells := Overwritten(free.cells, offset, words)))
    {
      hide WordsOf, ReadWord, Overwritten;
      if id != 0 {
        return Err(BadIndex);
      }
      if |data| % 4 != 0 {
        return Err(BadLength);
      }
      var count := |data| / 4;
      if offset as int + count > cfg.tableCapacity {
        return Err(BadLength);
      }
      var bank := staging.Borrow();
      if bank.Err? {
        return Err(ErrorCode.Busy);
      }
      var at := bank.value;
      ghost var free := staging.banks[at];
      ghost var words := WordsOf(data);
      OverwriteNone(free.cells, offset, words);
      for index := 0 to count
        invariant staging.banks[1 - at] == old(staging.banks[1 - at])
        invariant |staging.banks[at].cells| == cfg.tableCapacity
        invariant staging.banks[at] == free.(cells := Overwritten(free.cells, offset, words[..index]))
      {
        WordAt(data, index);
        var value := ReadWord(data, index);
        var table := staging.banks[at];
        OverwriteNext(free.cells, offset, words, index);
        staging.banks[at] := table.(cells := table.cells[offset as int + index := value]);
      }
      assert words[..count] == words;
      assert staging.banks[..] == old(staging.banks[..])[at := staging.banks[at]];
      r := Ok(());
    }

    method StageCommit(id: nat, len: U32) returns (r: Result<Staged, ErrorCode>)
      requires Valid() && publishing == None
      modifies this`publishing, staging`pending, staging.banks
      ensures Valid()
      ensures
        var b := old(staging.Model());
        var free := b.banks[1 - b.active];
        if id != 0 then r == Err(BadIndex) && staging.Model() == b && publishing == None
        else if !(2 <= len <= cfg.tableCapacity) then
          r == Err(BadValue) && staging.Model() == b && publishing == None
        else if b.pending != NO_PENDING then
          r == Err(ErrorCode.Busy) && staging.Model() == b && publishing == None
        else if !AllFinite(free.cells[..len]) then
          r == Err(BadValue) && staging.Model() == b && publishing == None
        else
          && r.Ok? && publishing == Some(free.(len := len))
          && Issued(b, TABLE, free.(len := len), staging.Model(), r.value)
    {
      hide AllFinite;
      if id != 0 {
        return Err(BadIndex);
      }
      if !(2 <= len <= cfg.tableCapacity) {
        return Err(BadValue);
      }
      var bank := staging.Borrow();
      if bank.Err? {
        return Err(ErrorCode.Busy);
      }
      var table := staging.banks[bank.value];
      if !AllFinite(table.cells[..len]) {
        return Err(BadValue);
      }
      staging.banks[bank.value] := table.(len := len);
      assert staging.banks[..] == old(staging.banks[..])[bank.value := table.(len := len)];
      var token := staging.Commit();
      if token.Err? {
        return Err(ErrorCode.Busy);
      }
      publishing := Some(table.(len := len));
      return Ok(Rt(Buffer(token.value)));
    }
  }

  lemma OverwriteNone(cells: seq<U32>, offset: nat, words: seq<U32>)
    requires offset <= |cells|
    ensures Overwritten(cells, offset, words[..0]) == cells
  {}

  lemma OverwriteNext(cells: seq<U32>, offset: nat, words: seq<U32>, i: nat)
    requires i < |words| && offset + |words| <= |cells|
    ensures |Overwritten(cells, offset, words[..i])| == |cells|
    ensures Overwritten(cells, offset, words[..i])[offset + i := words[i]]
         == Overwritten(cells, offset, words[..i + 1])
  {}

  // ---------------------------------------------------------------------------
  // Scalars of the control and of the rig
  // ---------------------------------------------------------------------------

  class ScalarGroup {
    const domain: nat
    const normalise: (nat, U32) -> Option<U32>
    var values: seq<U32>
    var pending: Option<(nat, U32)>

    constructor (domain: nat, defaults: seq<U32>, normalise: (nat, U32) -> Option<U32>)
      ensures this.domain == domain && this.normalise == normalise
      ensures values == defaults && pending == None
    {
      this.domain := domain;
      this.normalise := normalise;
      values := defaults;
      pending := None;
    }

    method Stage(id: nat, data: seq<Byte>) returns (r: Result<Staged, ErrorCode>)
      requires pending == None
      modifies this`pending
      ensures
        if |data| != 4 then r == Err(BadLength) && pending == None
        else
          match normalise(id, FromLe32(data))
          case None => r == Err(BadValue) && pending == None
          case Some(value) => r == Ok(Rt(F32(value))) && pending == Some((id, value))
    {
      if |data| != 4 {
        return Err(BadLength);
      }
      var value := normalise(id, FromLe32(data));
      if value.None? {
        return Err(BadValue);
      }
      pending := Some((id, value.value));
      r := Ok(Rt(F32(value.value)));
    }

    method Accept()
      requires pending.Some? ==> pending.value.0 < |values|
      modifies this
      ensures pending == None
      ensures values == if old(pending).Some? then old(values)[old(pending).value.0 := old(pending).value.1]
                        else old(values)
    {
      if pending.Some? {
        values := values[pending.value.0 := pending.value.1];
      }
      pending := None;
    }

    method Reject()
      modifies this`pending
      ensures pending == None
    {
      pending := None;
    }
  }
}
