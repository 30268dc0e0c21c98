/**
 * The pitch-shift stage. It does not resample: it multiplies each sample
 * by 0.8 + 0.2 * sin(phase) and advances a phase accumulator whose rate is
 * the pitch ratio, wrapping the phase at 1000 (not at 2 pi). One phase is
 * carried through every channel of a block and from block to block.
 *
 * `std::sin` is a parameter of the model: any function bounded by [-1, 1].
 */
module Shifter {

  /** What the model assumes of `std::sin`: every value lies in [-1, 1]. */
  ghost predicate UnitBounded(sin: real -> real)
  {
    forall x :: -1.0 <= sin(x) <= 1.0
  }

  /** A sample `x` after the stage has scaled it at a phase whose sine is `s`. */
  function Wobbled(x: real, s: real): real
  {
    x * (0.8 + 0.2 * s)
  }

  /** `y` lies between 0.6 times and 1.0 times `x`: same sign, at most 40% less magnitude. */
  predicate Attenuated(x: real, y: real)
  {
    (0.0 <= x ==> 0.6 * x <= y <= x) && (x <= 0.0 ==> x <= y <= 0.6 * x)
  }

  /** With |sin| <= 1 the factor lies in [0.6, 1.0], so a processed sample is an attenuated copy of the old one. */
  lemma WobbledBounds(x: real, s: real)
    requires -1.0 <= s <= 1.0
    ensures Attenuated(x, Wobbled(x, s))
  {
  }

  /** The stage is not a bypass: it leaves a nonzero sample unchanged only where the sine is exactly 1. */
  lemma WobbledFixedOnlyAtPeak(x: real, s: real)
    requires x != 0.0
    ensures Wobbled(x, s) == x <==> s == 1.0
  {
  }

  /** One per-sample phase update: add a tenth of the increment, subtract 1000 once past 1000. */
  function Advance(phase: real, increment: real): real
  {
    var next := phase + increment * 0.1;
    if next > 1000.0 then next - 1000.0 else next
  }

  /** A step of at most 1000 from a phase in [0, 1000] lands in [0, 1000]. */
  lemma AdvanceInRange(phase: real, increment: real)
    requires 0.0 <= phase <= 1000.0 && 0.0 <= increment * 0.1 <= 1000.0
    ensures 0.0 <= Advance(phase, increment) <= 1000.0
  {
  }

  /** The phase after `n` samples have been processed from `phase`. */
  function PhaseAfter(phase: real, increment: real, n: nat): real
  {
    if n == 0 then phase else Advance(PhaseAfter(phase, increment, n - 1), increment)
  }

  /** The wrap keeps the phase in [0, 1000] for any number of samples, given a start in range and a step of at most 1000. */
  lemma {:induction false} PhaseStaysInRange(phase: real, increment: real, n: nat)
    requires 0.0 <= phase <= 1000.0 && 0.0 <= increment * 0.1 <= 1000.0
    ensures 0.0 <= PhaseAfter(phase, increment, n) <= 1000.0
  {
    if n > 0 {
      PhaseStaysInRange(phase, increment, n - 1);
      AdvanceInRange(PhaseAfter(phase, increment, n - 1), increment);
    }
  }

  /** Running `m` samples and then `n` more leaves the phase where `m + n` samples in one go would. */
  lemma {:induction false} PhaseAfterAdditive(phase: real, increment: real, m: nat, n: nat)
    ensures PhaseAfter(PhaseAfter(phase, increment, m), increment, n) == PhaseAfter(phase, increment, m + n)
  {
    if n > 0 {
      PhaseAfterAdditive(phase, increment, m, n - 1);
    }
  }

  /** Without a wrap the phase grows linearly: n samples add n tenths of the increment. */
  lemma {:induction false} PhaseAfterLinear(phase: real, increment: real, n: nat)
    requires 0.0 <= increment
    requires phase + (n as real) * increment * 0.1 <= 1000.0
    ensures PhaseAfter(phase, increment, n) == phase + (n as real) * increment * 0.1
  {
    if n > 0 {
      var k := (n - 1) as real;
      assert (n as real) * increment * 0.1 == k * increment * 0.1 + increment * 0.1;
      assert 0.0 <= increment * 0.1;
      PhaseAfterLinear(phase, increment, n - 1);
    }
  }

  class SimpleShifter {
    var sampleRate: real
    var phase: real
    var phaseIncrement: real
    var pitchRatio: real

    constructor ()
      ensures sampleRate == 44100.0 && phase == 0.0 && phaseIncrement == 1.0 && pitchRatio == 1.0
    {
      sampleRate, phase, phaseIncrement, pitchRatio := 44100.0, 0.0, 1.0, 1.0;
    }

    method Prepare(newSampleRate: real)
      modifies this
      ensures sampleRate == newSampleRate && phase == 0.0 && phaseIncrement == 1.0
      ensures pitchRatio == old(pitchRatio)
    {
      sampleRate := newSampleRate;
      Reset();
    }

    method Reset()
      modifies this`phase, this`phaseIncrement
      ensures phase == 0.0 && phaseIncrement == 1.0
    {
      phase := 0.0;
      phaseIncrement := 1.0;
    }

    method SetPitchRatio(newRatio: real)
      modifies this`pitchRatio, this`phaseIncrement
      ensures pitchRatio == newRatio && phaseIncrement == newRatio
    {
      pitchRatio := newRatio;
      phaseIncrement := pitchRatio;
    }

    /**
     * Channel by channel, sample by sample: the sample at (c, i) is the
     * (c * numSamples + i)-th one processed, so it sees the phase advanced
     * that many times from the block's starting phase.
     */
    method ProcessBlock(audio: array2<real>, sin: real -> real)
      modifies this`phase, audio
      ensures phase == PhaseAfter(old(phase), phaseIncrement, audio.Length0 * audio.Length1)
      ensures forall c, i {:trigger audio[c, i]} :: 0 <= c < audio.Length0 && 0 <= i < audio.Length1 ==>
        audio[c, i] == Wobbled(old(audio[c, i]), sin(PhaseAfter(old(phase), phaseIncrement, c * audio.Length1 + i)))
      ensures UnitBounded(sin) ==> forall c, i {:trigger audio[c, i]} :: 0 <= c < audio.Length0 && 0 <= i < audio.Length1 ==>
        Attenuated(old(audio[c, i]), audio[c, i])
    {
      ghost var start := phase;
      var numSamples := audio.Length1;
      for channel := 0 to audio.Length0
        invariant phase == PhaseAfter(start, phaseIncrement, channel * numSamples)
        invariant forall c, i {:trigger audio[c, i]} :: 0 <= c < channel && 0 <= i < numSamples ==>
          audio[c, i] == Wobbled(old(audio[c, i]), sin(PhaseAfter(start, phaseIncrement, c * numSamples + i)))
        invariant forall c, i :: channel <= c < audio.Length0 && 0 <= i < numSamples ==>
          audio[c, i] == old(audio[c, i])
      {
        ghost var before := phase;
        ProcessChannel(audio, channel, sin);
        forall i | 0 <= i < numSamples
          ensures PhaseAfter(before, phaseIncrement, i) == PhaseAfter(start, phaseIncrement, channel * numSamples + i)
        {
          PhaseAfterAdditive(start, phaseIncrement, channel * numSamples, i);
        }
        PhaseAfterAdditive(start, phaseIncrement, channel * numSamples, numSamples);
        assert channel * numSamples + numSamples == (channel + 1) * numSamples;
      }
      if UnitBounded(sin) {
        forall c, i | 0 <= c < audio.Length0 && 0 <= i < numSamples
          ensures Attenuated(old(audio[c, i]), audio[c, i])
        {
          WobbledBounds(old(audio[c, i]), sin(PhaseAfter(start, phaseIncrement, c * numSamples + i)));
        }
      }
    }

    /** The inner loop of ProcessBlock: one channel, with the phase carried in from the previous one. */
    method ProcessChannel(audio: array2<real>, channel: nat, sin: real -> real)
      requires channel < audio.Length0
      modifies this`phase, audio
      ensures phase == PhaseAfter(old(phase), phaseIncrement, audio.Length1)
      ensures forall i {:trigger audio[channel, i]} :: 0 <= i < audio.Length1 ==>
        audio[channel, i] == Wobbled(old(audio[channel, i]), sin(PhaseAfter(old(phase), phaseIncrement, i)))
      ensures forall c, i {:trigger audio[c, i]} :: 0 <= c < audio.Length0 && c != channel && 0 <= i < audio.Length1 ==>
        audio[c, i] == old(audio[c, i])
    {
      for sample := 0 to audio.Length1
        invariant phase == PhaseAfter(old(phase), phaseIncrement, sample)
        invariant forall i {:trigger audio[channel, i]} :: 0 <= i < audio.Length1 ==>
          audio[channel, i] == if i < sample then Wobbled(old(audio[channel, i]), sin(PhaseAfter(old(phase), phaseIncrement, i)))
                               else old(audio[channel, i])
        invariant forall c, i {:trigger audio[c, i]} :: 0 <= c < audio.Length0 && c != channel && 0 <= i < audio.Length1 ==>
          audio[c, i] == old(audio[c, i])
      {
        ghost var before := phase;
        audio[channel, sample] := audio[channel, sample] * (0.8 + 0.2 * sin(phase));
        phase := phase + phaseIncrement * 0.1;
        if phase > 1000.0 {
          phase := phase - 1000.0;
        }
        assert phase == Advance(before, phaseIncrement);
      }
    }
  }
}
