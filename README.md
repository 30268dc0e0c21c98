# Vocal Transformer effect stages, modelled in Dafny

Vocal Transformer is a JUCE audio plugin that turns a live voice into a
"character" (Robot, Alien, Child, Giant, Elder, Choir). This project models
the three effect stages nested in its audio processor, together with the
character enumeration and the shape of a character preset:

- **SimpleShifter** (`shifter.dfy`) is the pitch stage. It does not resample.
  Each sample is multiplied by `0.8 + 0.2 * sin(phase)`. A phase accumulator
  then steps by a tenth of the pitch ratio and wraps at 1000. One phase runs
  through every channel of a block and on into the next block.
- **SimpleFormantShifter** (`formant_shifter.dfy`) is the formant stage. It
  applies one static gain to every sample: brighter above 0.5, darker below,
  and a bypass at exactly 0.5.
- **SimpleVoiceMultiplier** (`voice_multiplier.dfy`) adds "unison" voices from
  a 50 ms ring buffer. The ring is shared by all channels. For each channel,
  the stage first stores the channel's samples into the ring, then adds
  `voiceCount - 1` voices. Voice `v` reads `(int)(10 * detune * v) + i` slots
  behind the cursor and is scaled by `0.7 / voiceCount`.
- **CharacterType** and **CharacterPreset** (`characters.dfy`): the seven
  characters, their ordinals, and the record of five preset targets.
- `numerics.dfy` holds the C++ conversions the stages use: the `(int)` cast
  and `juce::jlimit`. It also holds the 64-bit `size_t` modulus and the facts
  about `%` the ring proofs need.

Each stage is a class whose fields the methods update, as in the source. The
audio buffer is an `array2<real>` indexed `[channel, sample]`, and the
voice ring is an `array<real>`. The ring is specified through `History()`:
its samples listed oldest first, starting at the write cursor. Storing a
sample drops the oldest entry and appends the new one (`ViewAfterWrite`), so
storing a sequence `xs` yields `AfterWrites(view, xs)`.

Three facts about the voice multiplier follow from the code and are proved here:

- **The read runs backwards.** Voice `v` reading sample `i` of the channel
  just stored lands on input sample `n - delay - i`, where `n` is the block
  length (`ReadBackInBlock`, `VoicesEchoOwnChannel`). So with `detune = 0`,
  output sample `i` gains `(voiceCount - 1) * 0.7 / voiceCount` times input
  sample `n - i`, not times itself (`EchoWithoutDetune`). So detune 0 does
  not scale the input by `1 + (voiceCount - 1) * 0.7 / voiceCount`; sample
  `i` gains the mirrored sample `n - i`, and sample 0 reads the oldest slot
  of the ring.
- **Later channels can read earlier ones.** A read that reaches past the
  current channel lands on the previous channel's samples
  (`ReadsPreviousChannel`).
- **The read position can wrap.** `writePos - delaySamples - i + buffer.size()`
  is computed in unsigned 64-bit arithmetic. `ReadPos` keeps that wrap.
  `ReadPosIsModulo` proves that it matches the mathematical residue exactly
  when the sum does not go negative, or when the ring size divides 2^64.
  `ReadPosWrapExample` gives a concrete case where the two differ.

## Model

| member | source | states |
|---|---|---|
| Numerics.TruncateTowardZero | PluginProcessor.h:179 | the `(int)` cast truncates toward zero: the result is within 1 of `x`, on the same side of 0, never farther from 0 |
| Numerics.Limit | PluginProcessor.h:189 | `jlimit(lower, upper, v)` lies in [lower, upper], equals `v` iff `v` is already in range, and is the nearest point of the range to `v` |
| Characters.Ordinal | PluginProcessor.h:6-15 | every character's ordinal is below NUM_CHARACTERS (7), and only NORMAL has ordinal 0 |
| Characters.FromOrdinal | PluginProcessor.h:6-15 | an integer index names a character exactly when `0 <= index < NUM_CHARACTERS`, the range `applyCharacterPreset` accepts before indexing the preset table |
| Characters.OrdinalRoundTrip | PluginProcessor.h:6-15 | the character a character's ordinal names is that character |
| Characters.FromOrdinalRoundTrip | PluginProcessor.h:6-15 | every index in [0, NUM_CHARACTERS) names a character whose ordinal is that index |
| Characters.OrdinalInjective | PluginProcessor.h:6-15 | distinct characters have distinct ordinals, so each preset slot belongs to one character |
| Characters.PresetFor | PluginProcessor.h:240-248 | a table of NUM_CHARACTERS presets holds an entry for every character, taken from the table |
| Shifter.Wobbled | PluginProcessor.h:117 | no contract; the definition of `channelData[sample] * (0.8f + 0.2f * std::sin(phase))` for a sine value `s`, whose properties WobbledBounds and WobbledFixedOnlyAtPeak state |
| Shifter.WobbledBounds | PluginProcessor.h:117 | with the sine in [-1, 1], a processed sample keeps its sign and is scaled by a factor between 0.6 and 1.0 |
| Shifter.WobbledFixedOnlyAtPeak | PluginProcessor.h:117 | a nonzero sample comes out unchanged iff the sine at that phase is exactly 1 |
| Shifter.Advance | PluginProcessor.h:118-122 | no contract; the definition of one phase update, `+= phaseIncrement * 0.1f` then one `-= 1000` past 1000, whose range AdvanceInRange states |
| Shifter.PhaseAfter | PluginProcessor.h:112-123 | no contract; the phase after `n` per-sample updates, the sequence the loops of processBlock walk through, whose properties PhaseStaysInRange, PhaseAfterAdditive and PhaseAfterLinear state |
| Shifter.AdvanceInRange | PluginProcessor.h:118-122 | one phase step of at most 1000 keeps a phase in [0, 1000] |
| Shifter.PhaseStaysInRange | PluginProcessor.h:118-122 | the wrap keeps the phase in [0, 1000] after any number of samples, given a start in range and a step of at most 1000 |
| Shifter.PhaseAfterAdditive | PluginProcessor.h:112-123 | `m` samples followed by `n` samples leave the phase where `m + n` samples do: the phase carries across channels and blocks |
| Shifter.PhaseAfterLinear | PluginProcessor.h:118 | while no wrap occurs, `n` samples add `n` tenths of the increment to the phase |
| Shifter.SimpleShifter.constructor | PluginProcessor.h:128-131 | the fields start at 44100 Hz, phase 0, increment 1 and ratio 1 |
| Shifter.SimpleShifter.Prepare | PluginProcessor.h:94-97 | records the sample rate, resets the phase and increment, and keeps the pitch ratio |
| Shifter.SimpleShifter.Reset | PluginProcessor.h:99-102 | phase back to 0 and increment back to 1; nothing else changes |
| Shifter.SimpleShifter.SetPitchRatio | PluginProcessor.h:104-107 | the ratio and the phase increment both take the new ratio |
| Shifter.SimpleShifter.ProcessBlock | PluginProcessor.h:109-125 | sample (c, i) is scaled at the phase reached after `c * numSamples + i` steps from the block's start phase, and the phase ends `numChannels * numSamples` steps on; for any sine bounded by 1, every sample ends between 0.6 and 1.0 times its old value, with its sign kept |
| Shifter.SimpleShifter.ProcessChannel | PluginProcessor.h:113-123 | one channel: sample `i` is scaled at the phase `i` steps on; other channels are untouched |
| FormantShifter.FormantGain | PluginProcessor.h:159-165 | the gain is 1 iff the setting is 0.5, above 1 above 0.5, below 1 below 0.5, and within [0.8, 1.1] for settings in [0, 1] |
| FormantShifter.FormantGainMonotone | PluginProcessor.h:159-165 | a higher formant setting never gives a lower gain: the two branches meet at 1.0 |
| FormantShifter.SimpleFormantShifter.constructor | PluginProcessor.h:171 | the formant setting starts neutral (0.5) |
| FormantShifter.SimpleFormantShifter.SetFormantShift | PluginProcessor.h:145-147 | stores the new setting |
| FormantShifter.SimpleFormantShifter.ProcessBlock | PluginProcessor.h:149-168 | every sample of every channel is multiplied by the setting's gain; at exactly 0.5 the block is unchanged |
| VoiceMultiplier.ViewAfterWrite | PluginProcessor.h:209-210 | storing a sample at the cursor and advancing the cursor drops the oldest ring entry and appends the sample |
| VoiceMultiplier.ViewAt | PluginProcessor.h:219-220 | ring slot `p` holds the ring's entry at `p`'s distance past the cursor |
| VoiceMultiplier.StoreStep | PluginProcessor.h:208-211 | one pass of the store loop appends one sample to the ring's contents |
| VoiceMultiplier.AfterWritesAppend | PluginProcessor.h:204-211 | storing one channel after another is storing their concatenation |
| VoiceMultiplier.AfterWritesForgets | PluginProcessor.h:208-211 | after at least ring-size stores, the ring holds exactly the last ring-size samples stored |
| VoiceMultiplier.DelaySamples | PluginProcessor.h:215 | `(int)(10.0f * detune * voice)`: 0 when detune is 0, and for non-negative detune and voice a non-negative delay no larger than `10 * detune * voice` |
| VoiceMultiplier.VoiceGain | PluginProcessor.h:216 | `0.7f / voiceCount`: the gains of the voices add up to 0.7 over `voiceCount` of them, and the gain is positive for a positive count |
| VoiceMultiplier.VoiceTerm | PluginProcessor.h:218-220 | no contract; what one voice adds to sample `i`, the gain times the ring entry at `ReadPos`, taken through the ring's view |
| VoiceMultiplier.VoiceSum | PluginProcessor.h:214-221 | no contract; the sum of VoiceTerm over voices 1 to `k - 1`, which AddVoices and ProcessBlock ensure each sample gains |
| VoiceMultiplier.EchoSum | PluginProcessor.h:214-221 | no contract; the reference behaviour of the voice loop, the gain-weighted input samples `n - delay(v) - i` of the channel, to which VoicesEchoOwnChannel equates VoiceSum |
| VoiceMultiplier.ReadPos | PluginProcessor.h:219 | the read index, with its 64-bit unsigned wrap, is always a valid ring slot |
| VoiceMultiplier.ReadPosIsModulo | PluginProcessor.h:219 | the read index equals `(writePos - delay - i) mod size` iff `delay + i <= writePos + size` or the ring size divides 2^64 |
| VoiceMultiplier.ReadPosWrapExample | PluginProcessor.h:219 | a 400-slot ring with cursor 224 reads slot 340 for sample 700, where the residue is 324 |
| VoiceMultiplier.ReadBackInBlock | PluginProcessor.h:208-220 | a read `delay + i` slots behind the cursor, right after a channel of `n` samples is stored, yields that channel's input sample `n - delay - i` |
| VoiceMultiplier.VoicesEchoOwnChannel | PluginProcessor.h:213-222 | when every voice's reach stays within the channel just stored, the voices add the gain-weighted input samples `n - delay(v) - i` of that channel |
| VoiceMultiplier.EchoStep | PluginProcessor.h:214-221 | adding voice `k - 1` keeps the voice sum equal to the echo sum of the channel's input |
| VoiceMultiplier.ReadsPreviousChannel | PluginProcessor.h:204-222 | a read reaching past the channel just stored lands on the previous channel's samples in the shared ring |
| VoiceMultiplier.EchoWithoutDetune | PluginProcessor.h:215-220 | with detune 0 every voice has delay 0, and the voices add `(k - 1) * 0.7 / voiceCount` times input sample `n - i` |
| VoiceMultiplier.CursorAfter | PluginProcessor.h:204-211 | the cursor after each channel's store loop stays a valid ring slot |
| VoiceMultiplier.ConcatLength | PluginProcessor.h:201-204 | channels of `numSamples` samples each put `numChannels * numSamples` samples into the ring |
| VoiceMultiplier.CursorAfterStored | PluginProcessor.h:204-211 | after any number of channels, the cursor has moved on by the number of samples stored, modulo the ring size |
| VoiceMultiplier.SimpleVoiceMultiplier.constructor | PluginProcessor.h:227-231 | the fields start at 44100 Hz, an empty ring, cursor 0, one voice and detune 0 |
| VoiceMultiplier.SimpleVoiceMultiplier.Prepare | PluginProcessor.h:177-181 | the ring becomes a fresh, all-zero array of `(int)(sampleRate * 0.05)` slots with the cursor at 0; it is usable iff the rate is at least 20 Hz; voice count and detune are kept |
| VoiceMultiplier.SimpleVoiceMultiplier.Reset | PluginProcessor.h:183-186 | every ring slot becomes 0 and the cursor returns to 0 |
| VoiceMultiplier.SimpleVoiceMultiplier.SetVoiceCount | PluginProcessor.h:188-190 | the voice count is clamped into [1, 4] and equals the request when it is in range |
| VoiceMultiplier.SimpleVoiceMultiplier.SetDetune | PluginProcessor.h:192-194 | stores the detune unchanged |
| VoiceMultiplier.SimpleVoiceMultiplier.ProcessBlock | PluginProcessor.h:196-224 | with at most one voice nothing changes. Otherwise the ring ends holding every channel appended in order, the cursor ends `numChannels * numSamples` slots on (mod ring size), and sample (c, i) gains the voice sum read from the ring as it stood after channel c was stored |
| VoiceMultiplier.SimpleVoiceMultiplier.ProcessChannel | PluginProcessor.h:204-223 | one channel-loop pass: the ring gains the channel, and only that channel receives its voices |
| VoiceMultiplier.SimpleVoiceMultiplier.StoreSamples | PluginProcessor.h:208-211 | the ring's contents gain the channel's samples in order, and the cursor moves on by `numSamples` modulo the ring size |
| VoiceMultiplier.SimpleVoiceMultiplier.AddVoices | PluginProcessor.h:213-222 | only the given channel changes: each sample gains the sum of voices 1 to `voiceCount - 1`, read from the current ring |
| VoiceMultiplier.SimpleVoiceMultiplier.AddVoice | PluginProcessor.h:215-221 | each sample of the channel gains `0.7 / voiceCount` times the ring entry at its read position for that voice |

## Left out

- The host plumbing is not modelled: construction, bus layouts, editor, state save and restore, and the parameter tree and its IDs (PluginProcessor.h:18-71). These are JUCE framework calls.
- The `processBlock` of the plugin that chains the stages is not modelled. The input and output gains and the Reverb stage are not modelled either (PluginProcessor.h:74-75, 237). Both live in JUCE or in PluginProcessor.cpp, which is not part of this model.
- The low-cut, distortion and tone helpers are not modelled. The header only declares them (PluginProcessor.h:83-89).
- `initializeCharacterPresets` and `applyCharacterPreset` are not modelled. The header only declares them (PluginProcessor.h:249-250). Only the preset record's shape and the index range check are modelled. The table's values and the blending live in PluginProcessor.cpp.
- Samples, rates, detune and gains are `real`. Single-precision rounding is not modelled, so the constants are exact: `0.05`, `0.7f / voiceCount`, the `1000` phase wrap.
- `std::sin` is a parameter of `SimpleShifter.ProcessBlock`. `UnitBounded` states what the model assumes of it. Its actual values are not modelled.
- `SimpleFormantShifter::prepare` and `reset` are not modelled. Their bodies are empty, so they change nothing.
- Two values are never read after they are set: the shifter's `sampleRate` (PluginProcessor.h:95, 128) and the formant stage's `filterFreq` (PluginProcessor.h:152). Both are kept in the model; beyond the shifter's Prepare storing its rate, nothing is proved about them. The voice multiplier reads its rate once, in `prepare`, to size the ring.
- `std::vector::resize` followed by `reset` is modelled as a fresh zeroed array of the new size. The model does not capture the vector keeping its old storage.
- VoiceMultiplier.SimpleVoiceMultiplier.ProcessBlock requires a non-empty ring when `voiceCount > 1`. In the source, processing more than one voice before `prepare`, or at a rate below 20 Hz, takes `% buffer.size()` with size 0, which is undefined behaviour. That `%` sits inside the sample loops (PluginProcessor.h:210, 219), so a block with no channels or no samples is defined even on an empty ring and leaves everything unchanged; the requires excludes that case too.
- VoiceMultiplier.SimpleVoiceMultiplier.Prepare requires a non-negative sample rate. A negative rate would make `resize` receive a huge `size_t`, and the model does not follow that path.
- Integer overflow of `writePos`, `delaySamples` or `i` is not modelled. They are unbounded `int`s, and `ReadPosIsModulo` states its 32-bit ranges as preconditions.
