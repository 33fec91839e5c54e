/** The wrapping 32-bit phase accumulator shared by the generator and the table player. */
module Phase {
  import opened Words

  /** Unwrapped advance made by a list of per-sample increments. */
  function Total(increments: seq<U32>): nat {
    if increments == [] then 0
    else Total(increments[..|increments| - 1]) + increments[|increments| - 1]
  }

  /** Phase after stepping once with each increment in turn. */
  function PhaseAfter(start: U32, increments: seq<U32>): U32 {
    if increments == [] then start
    else WrapAdd(PhaseAfter(start, increments[..|increments| - 1]), increments[|increments| - 1])
  }

  /** How many of those steps reported the start of a new period. */
  function PeriodStarts(start: U32, increments: seq<U32>): nat {
    if increments == [] then 0
    else
      var before := increments[..|increments| - 1];
      PeriodStarts(start, before) +
      (if PhaseAfter(start, before) as int + increments[|increments| - 1] >= TWO32 then 1 else 0)
  }

  /** Increment for `f0` at sample rate `fs`, rounded to the nearest quantum and
      saturated to a word as the source's cast does. */
  function IncrementFor(f0: real, fs: real): (increment: U32)
    requires 0.0 <= f0 < fs
    ensures 2.0 * f0 <= fs ==>
      -0.5 <= increment as real - f0 / fs * TWO32 as real <= 0.5
  {
    var exact := f0 / fs * TWO32 as real + 0.5;
    assert 0.0 <= f0 / fs;
    assert 2.0 * f0 <= fs ==> f0 / fs <= 0.5;
    if exact.Floor < TWO32 then exact.Floor else TWO32 - 1
  }

  /** A word within half a quantum of the turns that this frequency makes in one sample. */
  ghost predicate NearestQuantum(increment: U32, frequency: real, rate: real)
    requires rate > 0.0
  {
    -0.5 <= increment as real - frequency / rate * 4294967296.0 <= 0.5
  }

  class PhaseAccumulator {
    var phase: U32
    var increment: U32

    constructor ()
      ensures phase == 0 && increment == 0
    {
      phase, increment := 0, 0;
    }

    method SetIncrement(value: U32)
      modifies this`increment
      ensures increment == value
    {
      increment := value;
    }

    method SetFrequency(f0: real, fs: real)
      requires 0.0 <= f0 < fs
      modifies this`increment
      ensures increment == IncrementFor(f0, fs)
    {
      increment := IncrementFor(f0, fs);
    }

    /** Advance one sample; the flag carries exactly the turn the word cannot. */
    method Step() returns (current: U32, wrapped: bool)
      modifies this`phase
      ensures current == phase
      ensures phase as int + (if wrapped then TWO32 else 0) == old(phase) as int + increment
    {
      var sum: int := phase as int + increment;
      wrapped := sum >= TWO32;
      phase := sum % TWO32;
      current := phase;
    }

    method Reset()
      modifies this`phase
      ensures phase == 0
    {
      phase := 0;
    }
  }

  /** The word and the count of period starts together hold the exact advance:
      nothing is lost however long the run is and however often the increment changes. */
  lemma {:induction false} NoDrift(start: U32, increments: seq<U32>)
    ensures start as int + Total(increments)
         == PeriodStarts(start, increments) * TWO32 + PhaseAfter(start, increments)
    ensures PhaseAfter(start, increments) == (start as int + Total(increments)) % TWO32
  {
    if increments != [] {
      var before := increments[..|increments| - 1];
      NoDrift(start, before);
    }
    UniqueRemainder(start as int + Total(increments), PeriodStarts(start, increments),
                    PhaseAfter(start, increments), TWO32);
  }

  /** The k-th harmonic is locked to the total advance: a wrapping multiple of the
      wrapped phase is the wrapped multiple of the unwrapped one. */
  lemma {:induction false} HarmonicLocked(k: U32, start: U32, increments: seq<U32>)
    ensures WrapMul(k, PhaseAfter(start, increments)) == WrapMul(k, start as int + Total(increments))
  {
    NoDrift(start, increments);
    ModMul(k, start as int + Total(increments), TWO32);
  }

  /** The increments of an accumulator that runs k times as fast. */
  function Scaled(k: U32, increments: seq<U32>): seq<U32> {
    if increments == [] then []
    else Scaled(k, increments[..|increments| - 1]) + [WrapMul(k, increments[|increments| - 1])]
  }

  /** An accumulator stepping by k times the increment stays on the k-th harmonic. */
  lemma {:induction false} HarmonicAccumulator(k: U32, increments: seq<U32>)
    ensures PhaseAfter(0, Scaled(k, increments)) == WrapMul(k, PhaseAfter(0, increments))
  {
    if increments != [] {
      var before, last := increments[..|increments| - 1], increments[|increments| - 1];
      HarmonicAccumulator(k, before);
      var scaled := Scaled(k, increments);
      assert scaled[..|scaled| - 1] == Scaled(k, before);
      MulOverAdd(k, PhaseAfter(0, before), last);
    }
  }
}
