/**
 * The formant-shift stage: a static brightness/darkness gain chosen by the
 * formant setting, applied to every sample of every channel. 0.5 is neutral.
 */
module FormantShifter {

  /** The factor one block applies to each sample for a formant setting `f`. */
  function FormantGain(f: real): (g: real)
    ensures g == 1.0 <==> f == 0.5
    ensures f > 0.5 ==> g > 1.0
    ensures f < 0.5 ==> g < 1.0
    ensures 0.0 <= f <= 1.0 ==> 0.8 <= g <= 1.1
  {
    if f > 0.5 then 1.0 + 0.2 * (f - 0.5)
    else if f < 0.5 then 0.8 + 0.4 * f
    else 1.0
  }

  /** Raising the formant setting never darkens: the gain is monotone, with both branches meeting at 1.0. */
  lemma FormantGainMonotone(f1: real, f2: real)
    requires f1 <= f2
    ensures FormantGain(f1) <= FormantGain(f2)
  {
  }

  class SimpleFormantShifter {
    var formantShift: real

    constructor ()
      ensures formantShift == 0.5
    {
      formantShift := 0.5;
    }

    method SetFormantShift(newShift: real)
      modifies this
      ensures formantShift == newShift
    {
      formantShift := newShift;
    }

    /** Scales every sample by FormantGain(formantShift); at exactly 0.5 neither branch runs. */
    method ProcessBlock(audio: array2<real>)
      modifies audio
      ensures formantShift == 0.5 ==> forall c, i :: 0 <= c < audio.Length0 && 0 <= i < audio.Length1 ==>
        audio[c, i] == old(audio[c, i])
      ensures forall c, i {:trigger audio[c, i]} :: 0 <= c < audio.Length0 && 0 <= i < audio.Length1 ==>
        audio[c, i] == old(audio[c, i]) * FormantGain(formantShift)
    {
      // The source computes a filter frequency here and never reads it.
      var filterFreq := 500.0 + 1000.0 * formantShift;
      ghost var gain := FormantGain(formantShift);
      for channel := 0 to audio.Length0
        invariant forall c, i {:trigger audio[c, i]} :: 0 <= c < audio.Length0 && 0 <= i < audio.Length1 ==>
          audio[c, i] == if c < channel then old(audio[c, i]) * gain else old(audio[c, i])
      {
        for sample := 0 to audio.Length1
          invariant forall c, i {:trigger audio[c, i]} :: 0 <= c < audio.Length0 && 0 <= i < audio.Length1 ==>
            audio[c, i] == if c < channel || (c == channel && i < sample) then old(audio[c, i]) * gain
                           else old(audio[c, i])
        {
          if formantShift > 0.5 {
            audio[channel, sample] := audio[channel, sample] * (1.0 + 0.2 * (formantShift - 0.5));
          } else if formantShift < 0.5 {
            audio[channel, sample] := audio[channel, sample] * (0.8 + 0.4 * formantShift);
          }
        }
      }
    }
  }
}
