/** Harmonic basis shared by every signal that one master phase generates. */
module Harmonics {
  import opened Words
  import opened Phase

  /** The sine table, kept abstract: cosine reads it a quarter period ahead. */
  datatype SinLut = SinLut(sine: U32 -> real) {
    function Sin(phase: U32): real { sine(phase) }

    function Cos(phase: U32): real { sine(WrapAdd(phase, 0x4000_0000)) }
  }

  datatype FourierCoeffs = FourierCoeffs(mean: real, a: seq<real>, b: seq<real>) {
    predicate Has(h: nat) { |a| == h && |b| == h }
  }

  /** Contribution of harmonic `k` (counted from zero) read at its own phase. */
  function Harmonic(c: FourierCoeffs, lut: SinLut, k: nat, phase: U32): real
    requires k < |c.a| && k < |c.b|
  {
    c.a[k] * lut.Cos(phase) + c.b[k] * lut.Sin(phase)
  }

  /** The first `n` harmonics of the series at `phase`. */
  function PartialSeries(c: FourierCoeffs, lut: SinLut, phase: U32, n: nat): real
    requires n <= |c.a| && n <= |c.b|
  {
    if n == 0 then
      c.mean
    else
      PartialSeries(c, lut, phase, n - 1) + Harmonic(c, lut, n - 1, WrapMul(n, phase))
  }

  class HarmonicGenerator {
    const h: nat
    const accumulator: PhaseAccumulator
    const cos: array<real>
    const sin: array<real>
    var phase: U32
    var periodStart: bool

    ghost predicate Valid() reads this { cos.Length == h && sin.Length == h && cos != sin }

    /** The frame holds the basis of `phase` for every harmonic. */
    ghost predicate FrameAt(lut: SinLut)
      requires Valid()
      reads this, cos, sin
    {
      && (forall k :: 0 <= k < h ==> cos[k] == lut.Cos(WrapMul(k + 1, phase)))
      && (forall k :: 0 <= k < h ==> sin[k] == lut.Sin(WrapMul(k + 1, phase)))
    }

    constructor (h: nat)
      ensures Valid() && this.h == h && fresh(accumulator) && fresh(cos) && fresh(sin)
      ensures phase == 0 && accumulator.phase == 0 && accumulator.increment == 0
    {
      this.h := h;
      accumulator := new PhaseAccumulator();
      cos := new real[h](_ => 0.0);
      sin := new real[h](_ => 0.0);
      phase, periodStart := 0, false;
    }

    method Step(lut: SinLut)
      requires Valid()
      modifies this, accumulator`phase, cos, sin
      ensures Valid() && FrameAt(lut)
      ensures phase == accumulator.phase
      ensures phase as int + (if periodStart then TWO32 else 0)
           == old(accumulator.phase) as int + accumulator.increment
    {
      phase, periodStart := accumulator.Step();
      for k := 0 to h
        invariant Valid()
        invariant phase == accumulator.phase
        invariant phase as int + (if periodStart then TWO32 else 0)
               == old(accumulator.phase) as int + accumulator.increment
        invariant forall j :: 0 <= j < k ==> cos[j] == lut.Cos(WrapMul(j + 1, phase))
        invariant forall j :: 0 <= j < k ==> sin[j] == lut.Sin(WrapMul(j + 1, phase))
      {
        var harmonicPhase := WrapMul(k + 1, phase);
        cos[k] := lut.Cos(harmonicPhase);
        sin[k] := lut.Sin(harmonicPhase);
      }
    }

    /** Projecting the frame is evaluating the whole series directly at its phase. */
    method Project(c: FourierCoeffs, lut: SinLut) returns (value: real)
      requires Valid() && c.Has(h) && FrameAt(lut)
      ensures value == PartialSeries(c, lut, phase, h)
    {
      value := c.mean;
      for k := 0 to h
        invariant value == PartialSeries(c, lut, phase, k)
      {
        value := value + (c.a[k] * cos[k] + c.b[k] * sin[k]);
      }
    }
  }

  /** The Fourier series at an unwrapped angle, in quanta of 2^-32 turns: a mean and, for every
      multiple of the angle, a cosine and a sine read from a table of one sine period. */
  function SeriesAt(c: FourierCoeffs, lut: SinLut, advance: nat, n: nat): real
    requires n <= |c.a| && n <= |c.b|
  {
    if n == 0 then
      c.mean
    else
      SeriesAt(c, lut, advance, n - 1)
      + c.a[n - 1] * lut.sine((n * advance + 0x4000_0000) % 0x1_0000_0000)
      + c.b[n - 1] * lut.sine(n * advance % 0x1_0000_0000)
  }

  lemma HarmonicOf(c: FourierCoeffs, lut: SinLut, n: nat, angle: nat)
    requires 0 < n <= |c.a| && n <= |c.b|
    ensures Harmonic(c, lut, n - 1, WrapMul(n, angle))
         == c.a[n - 1] * lut.sine((n * angle + 0x4000_0000) % 0x1_0000_0000)
          + c.b[n - 1] * lut.sine(n * angle % 0x1_0000_0000)
  {
    WrapAddIsMod(WrapMul(n, angle), 0x4000_0000);
    SumOfRemainders(n * angle, 0x4000_0000, TWO32);
  }

  lemma SeriesNext(c: FourierCoeffs, lut: SinLut, advance: nat, n: nat)
    requires 0 < n <= |c.a| && n <= |c.b|
    ensures SeriesAt(c, lut, advance, n) == SeriesAt(c, lut, advance, n - 1) + Harmonic(c, lut, n - 1, WrapMul(n, advance))
  {
    HarmonicOf(c, lut, n, advance);
    hide Harmonic, WrapMul;
  }

  /** After any run the projected value is the series at the exact total advance,
      so harmonics never slip against the fundamental. */
  lemma {:induction false} ProjectionNeverSlips(
    c: FourierCoeffs, lut: SinLut, start: U32, increments: seq<U32>, n: nat)
    requires n <= |c.a| && n <= |c.b| && n < TWO32
    ensures PartialSeries(c, lut, PhaseAfter(start, increments), n)
         == SeriesAt(c, lut, start as int + Total(increments), n)
  {
    hide Harmonic, WrapMul, PhaseAfter, Total;
    if n > 0 {
      ProjectionNeverSlips(c, lut, start, increments, n - 1);
      HarmonicLocked(n, start, increments);
      SeriesNext(c, lut, start as int + Total(increments), n);
    }
  }
}
