/**
 * The voice-multiplier stage: a circular delay line (the ring) with one
 * write cursor. Each channel of a block is first copied into the ring,
 * advancing the cursor once per sample; then every extra voice adds a
 * scaled, delayed read of the ring to each sample. One ring and one cursor
 * serve all channels in turn.
 *
 * The ring is described abstractly by its view: the samples read from the
 * cursor onward, oldest first and most recent last.
 */
module VoiceMultiplier {
  import opened Numerics

  // ---------------------------------------------------------------------
  // Ring views

  /** The ring read from the cursor onward: oldest sample first, most recent last. */
  function View(ring: seq<real>, writePos: int): (v: seq<real>)
    requires 0 <= writePos < |ring|
    ensures |v| == |ring|
  {
    seq(|ring|, t requires 0 <= t < |ring| => ring[(writePos + t) % |ring|])
  }

  /** Storing `x` at the cursor and advancing it drops the oldest sample of the view and appends `x`. */
  lemma ViewAfterWrite(ring: seq<real>, writePos: int, x: real)
    requires 0 <= writePos < |ring|
    ensures 0 <= (writePos + 1) % |ring| < |ring|
    ensures View(ring[writePos := x], (writePos + 1) % |ring|) == View(ring, writePos)[1..] + [x]
  {
    var size := |ring|;
    var next := (writePos + 1) % size;
    ModNear(writePos + 1, size);
    var after := View(ring[writePos := x], next);
    var expected := View(ring, writePos)[1..] + [x];
    forall t | 0 <= t < size
      ensures after[t] == expected[t]
    {
      ModNear(next + t, size);
      ModNear(writePos + 1 + t, size);
    }
  }

  /** Slot `p` of the ring holds the view's entry at `p`'s distance from the cursor. */
  lemma ViewAt(ring: seq<real>, writePos: int, p: int)
    requires 0 <= writePos < |ring| && 0 <= p < |ring|
    ensures 0 <= (p - writePos) % |ring| < |ring|
    ensures View(ring, writePos)[(p - writePos) % |ring|] == ring[p]
  {
    var size := |ring|;
    ModNear(p - writePos, size);
    ModNear(writePos + (p - writePos) % size, size);
  }

  /** The view after the samples `xs` have been stored, one at a time, into a ring whose view was `view`. */
  function AfterWrites(view: seq<real>, xs: seq<real>): (v: seq<real>)
    ensures |v| == |view|
  {
    (view + xs)[|xs|..]
  }

  lemma AfterWritesSnoc(view: seq<real>, xs: seq<real>, x: real)
    requires 0 < |view|
    ensures AfterWrites(view, xs + [x]) == AfterWrites(view, xs)[1..] + [x]
  {
    assert view + (xs + [x]) == (view + xs) + [x];
  }

  /** One iteration of the store loop, on views: write at the cursor, advance it, and the view gains `x`. */
  lemma StoreStep(ring: seq<real>, writePos: int, start: seq<real>, xs: seq<real>, x: real)
    requires 0 <= writePos < |ring| && View(ring, writePos) == AfterWrites(start, xs)
    ensures 0 <= (writePos + 1) % |ring| < |ring|
    ensures View(ring[writePos := x], (writePos + 1) % |ring|) == AfterWrites(start, xs + [x])
  {
    ViewAfterWrite(ring, writePos, x);
    AfterWritesSnoc(start, xs, x);
  }

  /** Storing two runs of samples one after the other is storing their concatenation. */
  lemma AfterWritesAppend(view: seq<real>, xs: seq<real>, ys: seq<real>)
    ensures AfterWrites(AfterWrites(view, xs), ys) == AfterWrites(view, xs + ys)
  {
    assert view + (xs + ys) == (view + xs) + ys;
  }

  /** After at least |view| writes the view holds exactly the last |view| samples written: nothing older survives. */
  lemma AfterWritesForgets(view: seq<real>, xs: seq<real>)
    requires |view| <= |xs|
    ensures AfterWrites(view, xs) == xs[|xs| - |view|..]
  {
    var v := AfterWrites(view, xs);
    forall t | 0 <= t < |view|
      ensures v[t] == xs[|xs| - |view| + t]
    {
    }
  }

  // ---------------------------------------------------------------------
  // Reading the delayed voices

  /** `(int)(10.0f * detune * voice)`: how far behind the cursor voice `voice` reads. */
  function DelaySamples(detune: real, voice: int): (d: int)
    ensures detune == 0.0 ==> d == 0
    ensures 0.0 <= detune && 0 <= voice ==> 0 <= d && d as real <= 10.0 * detune * voice as real
  {
    TruncateTowardZero(10.0 * detune * voice as real)
  }

  /** `0.7f / voiceCount`: the gain of every extra voice. */
  function VoiceGain(voiceCount: int): (g: real)
    requires voiceCount != 0
    ensures g * voiceCount as real == 0.7
    ensures 0 < voiceCount ==> 0.0 < g
  {
    0.7 / voiceCount as real
  }

  /**
   * The read position of the delayed voices, as the C++ evaluates it: the
   * `int` difference is converted to the 64-bit unsigned `size_t` of
   * `buffer.size()`, so a negative intermediate wraps modulo 2^64 before
   * the final `%`.
   */
  function ReadPos(writePos: int, delay: int, i: int, size: int): (r: int)
    requires 0 < size
    ensures 0 <= r < size
  {
    ((writePos - delay - i + size) % SizeTModulus) % size
  }

  /**
   * The read position equals the mathematical `(writePos - delay - i) mod size`
   * exactly when the unsigned sum does not wrap (`delay + i <= writePos + size`)
   * or when the ring size divides 2^64.
   */
  lemma ReadPosIsModulo(writePos: int, delay: int, i: int, size: int)
    requires 0 <= writePos < size <= IntMax
    requires 0 <= delay + i <= IntMax
    ensures ReadPos(writePos, delay, i, size) == (writePos - delay - i) % size
        <==> delay + i <= writePos + size || SizeTModulus % size == 0
  {
    var v := writePos - delay - i;
    if 0 <= v + size {
      DivModUnique(v + size, SizeTModulus, 0, v + size);
      ModAddLeft(size, v, size);
      DivModUnique(size, size, 1, 0);
    } else {
      DivModUnique(v + size, SizeTModulus, -1, v + size + SizeTModulus);
      // ((v + M) + size) % size == (v + M) % size
      ModAddLeft(size, v + SizeTModulus, size);
      DivModUnique(size, size, 1, 0);
      // (v + M) % size == (v % size + M % size) % size
      ModAddLeft(v, SizeTModulus, size);
      ModAddLeft(SizeTModulus, v % size, size);
      ModNear(v % size + SizeTModulus % size, size);
    }
  }

  /** A concrete wrap: a 400-sample ring (8 kHz), cursor 224, sample 700, no detune reads slot 340, not 324. */
  lemma ReadPosWrapExample()
    ensures ReadPos(224, 0, 700, 400) == 340
    ensures (224 - 0 - 700) % 400 == 324
  {
  }

  /** What voice `v` adds to sample `i`: the gain times the ring's entry at the voice's read position. */
  function VoiceTerm(view: seq<real>, writePos: int, i: int, voiceCount: int, detune: real, v: int): real
    requires 0 <= writePos < |view| && voiceCount != 0
  {
    var p := ReadPos(writePos, DelaySamples(detune, v), i, |view|);
    view[(p - writePos) % |view|] * VoiceGain(voiceCount)
  }

  /**
   * Sum of the extra voices 1 .. k-1 that the stage adds to sample `i`,
   * reading the ring through its view and cursor after the channel was stored.
   */
  function VoiceSum(view: seq<real>, writePos: int, i: int, voiceCount: int, detune: real, k: int): real
    requires 0 <= writePos < |view| && voiceCount != 0
    decreases k
  {
    if k <= 1 then 0.0
    else VoiceSum(view, writePos, i, voiceCount, detune, k - 1) + VoiceTerm(view, writePos, i, voiceCount, detune, k - 1)
  }

  /**
   * The reference behaviour of the extra voices 1 .. k-1 on sample `i`:
   * voice v adds the gain times the same channel's input at index
   * `n - delay(v) - i`, so the read runs backwards through the block.
   */
  function EchoSum(xs: seq<real>, i: int, voiceCount: int, detune: real, k: int): real
    requires voiceCount != 0
    requires forall v :: 1 <= v < k ==> 1 <= DelaySamples(detune, v) + i <= |xs|
    decreases k
  {
    if k <= 1 then 0.0
    else EchoSum(xs, i, voiceCount, detune, k - 1) + xs[|xs| - DelaySamples(detune, k - 1) - i] * VoiceGain(voiceCount)
  }

  /** One delayed read of a channel just stored: it lands on that channel's input `delay + i` samples from the end. */
  lemma ReadBackInBlock(view: seq<real>, xs: seq<real>, writePos: int, delay: int, i: int)
    requires 0 <= writePos < |view| <= IntMax
    requires |xs| <= |view|
    requires 1 <= delay + i <= |xs|
    ensures 0 <= (ReadPos(writePos, delay, i, |view|) - writePos) % |view| < |view|
    ensures AfterWrites(view, xs)[(ReadPos(writePos, delay, i, |view|) - writePos) % |view|] == xs[|xs| - delay - i]
  {
    var size := |view|;
    ReadPosIsModulo(writePos, delay, i, size);
    ModAddLeft(writePos - delay - i, -writePos, size);
    ModNear(-delay - i, size);
  }

  /**
   * When the block fits in the ring and every voice's delay keeps the read
   * inside the block, the extra voices add exactly the reference echoes of
   * the same channel's input.
   */
  lemma {:induction false} VoicesEchoOwnChannel(view: seq<real>, xs: seq<real>, writePos: int, i: int,
                                                voiceCount: int, detune: real, k: int)
    requires 0 <= writePos < |view| <= IntMax
    requires |xs| <= |view|
    requires voiceCount != 0
    requires forall v :: 1 <= v < k ==> 1 <= DelaySamples(detune, v) + i <= |xs|
    ensures VoiceSum(AfterWrites(view, xs), writePos, i, voiceCount, detune, k) == EchoSum(xs, i, voiceCount, detune, k)
  {
    if k > 1 {
      VoicesEchoOwnChannel(view, xs, writePos, i, voiceCount, detune, k - 1);
      EchoStep(view, xs, writePos, i, voiceCount, detune, k);
    }
  }

  /** The inductive step of VoicesEchoOwnChannel: voice k - 1 reads its echo. */
  lemma EchoStep(view: seq<real>, xs: seq<real>, writePos: int, i: int, voiceCount: int, detune: real, k: int)
    requires 0 <= writePos < |view| <= IntMax
    requires |xs| <= |view|
    requires voiceCount != 0 && 1 < k
    requires forall v :: 1 <= v < k ==> 1 <= DelaySamples(detune, v) + i <= |xs|
    requires VoiceSum(AfterWrites(view, xs), writePos, i, voiceCount, detune, k - 1) == EchoSum(xs, i, voiceCount, detune, k - 1)
    ensures VoiceSum(AfterWrites(view, xs), writePos, i, voiceCount, detune, k) == EchoSum(xs, i, voiceCount, detune, k)
  {
    ReadBackInBlock(view, xs, writePos, DelaySamples(detune, k - 1), i);
  }

  /**
   * One ring serves every channel: a read reaching past the start of the
   * current channel's block lands on the previous channel's samples.
   */
  lemma ReadsPreviousChannel(view: seq<real>, prev: seq<real>, xs: seq<real>, writePos: int, delay: int, i: int)
    requires 0 <= writePos < |view| <= IntMax
    requires |prev| == |xs| && |prev| + |xs| <= |view|
    requires |xs| < delay + i <= |prev| + |xs|
    ensures 0 <= (ReadPos(writePos, delay, i, |view|) - writePos) % |view| < |view|
    ensures AfterWrites(AfterWrites(view, prev), xs)[(ReadPos(writePos, delay, i, |view|) - writePos) % |view|]
         == prev[|prev| + |xs| - delay - i]
  {
    AfterWritesAppend(view, prev, xs);
    ReadBackInBlock(view, prev + xs, writePos, delay, i);
  }

  /**
   * With no detune every voice reads offset 0: sample i (for 1 <= i <= n)
   * gets (k - 1) gains times the input at the mirrored index n - i, not
   * its own input.
   */
  lemma {:induction false} EchoWithoutDetune(xs: seq<real>, i: int, voiceCount: int, k: int)
    requires voiceCount != 0 && 1 <= k
    requires 1 <= i <= |xs|
    ensures forall v :: 1 <= v < k ==> DelaySamples(0.0, v) == 0
    ensures EchoSum(xs, i, voiceCount, 0.0, k) == (k - 1) as real * VoiceGain(voiceCount) * xs[|xs| - i]
  {
    if k > 1 {
      EchoWithoutDetune(xs, i, voiceCount, k - 1);
      var g := VoiceGain(voiceCount) * xs[|xs| - i];
      assert (k - 1) as real * g == (k - 2) as real * g + g;
    }
  }

  // ---------------------------------------------------------------------
  // Reading the audio buffer in processing order

  /** The samples of channel `c`, in order. */
  function Row(audio: array2<real>, c: int): (r: seq<real>)
    reads audio
    requires 0 <= c < audio.Length0
    ensures |r| == audio.Length1
  {
    seq(audio.Length1, i requires 0 <= i < audio.Length1 reads audio => audio[c, i])
  }

  /** All channels of the buffer, each as its sequence of samples. */
  function Rows(audio: array2<real>): (rows: seq<seq<real>>)
    reads audio
    ensures |rows| == audio.Length0
  {
    seq(audio.Length0, c requires 0 <= c < audio.Length0 reads audio => Row(audio, c))
  }

  /** The channels laid end to end, channel after channel: the order in which the stage stores them. */
  function Concat(rows: seq<seq<real>>): seq<real>
  {
    if |rows| == 0 then [] else Concat(rows[..|rows| - 1]) + rows[|rows| - 1]
  }

  /** The cursor after `c` channels of `n` samples each have been stored, starting from `startPos`. */
  function CursorAfter(startPos: int, n: int, size: int, c: nat): (r: int)
    requires 0 <= startPos < size
    ensures 0 <= r < size
  {
    if c == 0 then startPos else (CursorAfter(startPos, n, size, c - 1) + n) % size
  }

  /** Channels of `n` samples each lay out `|rows| * n` samples end to end. */
  lemma {:induction false} ConcatLength(rows: seq<seq<real>>, n: int)
    requires forall k :: 0 <= k < |rows| ==> |rows[k]| == n
    ensures |Concat(rows)| == |rows| * n
  {
    if |rows| > 0 {
      ConcatLength(rows[..|rows| - 1], n);
    }
  }

  /** If `prev` is `before` reduced modulo `size`, then `prev + n` and `before + n` agree modulo `size`. */
  lemma ModStep(prev: int, before: int, n: int, size: int)
    requires 0 < size && prev == before % size
    ensures (prev + n) % size == (before + n) % size
  {
    ModAddLeft(before, n, size);
  }

  /** The cursor ends where it started, moved on by the number of samples stored, modulo the ring size. */
  lemma {:induction false} CursorAfterStored(startPos: int, size: int, rows: seq<seq<real>>, n: int)
    requires 0 <= startPos < size
    requires forall k :: 0 <= k < |rows| ==> |rows[k]| == n
    ensures CursorAfter(startPos, n, size, |rows|) == (startPos + |Concat(rows)|) % size
  {
    if |rows| == 0 {
      DivModUnique(startPos, size, 0, startPos);
    } else {
      var init := rows[..|rows| - 1];
      var prev := CursorAfter(startPos, n, size, |init|);
      var before := startPos + |Concat(init)|;
      assert prev == before % size by {
        CursorAfterStored(startPos, size, init, n);
      }
      assert before + n == startPos + |Concat(rows)|;
      assert (prev + n) % size == (before + n) % size by {
        ModStep(prev, before, n, size);
      }
    }
  }

  // ---------------------------------------------------------------------
  // The stage

  class SimpleVoiceMultiplier {
    var sampleRate: real
    var buffer: array<real>
    var writePos: int
    var voiceCount: int
    var detune: real

    /** The ring is usable: non-empty, with the cursor on one of its slots. */
    ghost predicate Ready()
      reads this
    {
      0 <= writePos < buffer.Length
    }

    /** The ring's samples, oldest first. */
    ghost function History(): seq<real>
      reads this, buffer
      requires Ready()
    {
      View(buffer[..], writePos)
    }

    constructor ()
      ensures sampleRate == 44100.0 && buffer.Length == 0 && writePos == 0
      ensures voiceCount == 1 && detune == 0.0
    {
      sampleRate := 44100.0;
      buffer := new real[0];
      writePos := 0;
      voiceCount := 1;
      detune := 0.0;
    }

    /** Sizes the ring to 50 ms of samples and clears it; the ring is usable exactly from 20 Hz up. */
    method Prepare(newSampleRate: real)
      requires 0.0 <= newSampleRate
      modifies this
      ensures sampleRate == newSampleRate && fresh(buffer)
      ensures buffer.Length == TruncateTowardZero(newSampleRate * 0.05)
      ensures forall k :: 0 <= k < buffer.Length ==> buffer[k] == 0.0
      ensures writePos == 0
      ensures Ready() <==> 20.0 <= newSampleRate
      ensures voiceCount == old(voiceCount) && detune == old(detune)
    {
      sampleRate := newSampleRate;
      buffer := new real[TruncateTowardZero(sampleRate * 0.05)];
      Reset();
    }

    /** `std::fill` with zeros, then the cursor back to the start. */
    method Reset()
      modifies this`writePos, buffer
      ensures forall k :: 0 <= k < buffer.Length ==> buffer[k] == 0.0
      ensures writePos == 0
    {
      for k := 0 to buffer.Length
        invariant forall j :: 0 <= j < k ==> buffer[j] == 0.0
      {
        buffer[k] := 0.0;
      }
      writePos := 0;
    }

    method SetVoiceCount(newCount: int)
      modifies this`voiceCount
      ensures 1 <= voiceCount <= 4
      ensures 1 <= newCount <= 4 ==> voiceCount == newCount
      ensures voiceCount == Limit(1, 4, newCount)
    {
      voiceCount := Limit(1, 4, newCount);
    }

    method SetDetune(newDetune: real)
      modifies this`detune
      ensures detune == newDetune
    {
      detune := newDetune;
    }

    /**
     * With more than one voice: every channel in turn is stored into the
     * shared ring and then receives its extra voices, read through the ring
     * as it stands after that channel was stored.
     */
    method ProcessBlock(audioBuffer: array2<real>)
      requires 1 < voiceCount ==> Ready()
      modifies this`writePos, buffer, audioBuffer
      ensures voiceCount <= 1 ==> writePos == old(writePos) && unchanged(buffer) && unchanged(audioBuffer)
      ensures 1 < voiceCount ==> Ready()
      ensures 1 < voiceCount ==>
        History() == AfterWrites(old(History()), Concat(old(Rows(audioBuffer))))
      ensures 1 < voiceCount ==>
        writePos == (old(writePos) + audioBuffer.Length0 * audioBuffer.Length1) % buffer.Length
          == CursorAfter(old(writePos), audioBuffer.Length1, buffer.Length, audioBuffer.Length0)
      ensures 1 < voiceCount ==>
        forall c, i {:trigger audioBuffer[c, i]} :: 0 <= c < audioBuffer.Length0 && 0 <= i < audioBuffer.Length1 ==>
          audioBuffer[c, i] == old(audioBuffer[c, i])
            + VoiceSum(AfterWrites(old(History()), Concat(old(Rows(audioBuffer))[..c + 1])),
                       CursorAfter(old(writePos), audioBuffer.Length1, buffer.Length, c + 1),
                       i, voiceCount, detune, voiceCount)
    {
      if voiceCount <= 1 {
        return;
      }
      var numSamples := audioBuffer.Length1;
      var numChannels := audioBuffer.Length0;
      ghost var start := History();
      ghost var startPos := writePos;
      ghost var rows := Rows(audioBuffer);
      for channel := 0 to numChannels
        invariant Ready()
        invariant History() == AfterWrites(start, Concat(rows[..channel]))
        invariant writePos == CursorAfter(startPos, numSamples, buffer.Length, channel)
        invariant forall c, i {:trigger audioBuffer[c, i]} :: 0 <= c < numChannels && 0 <= i < numSamples ==>
          audioBuffer[c, i] == if c < channel
            then old(audioBuffer[c, i])
              + VoiceSum(AfterWrites(start, Concat(rows[..c + 1])), CursorAfter(startPos, numSamples, buffer.Length, c + 1),
                         i, voiceCount, detune, voiceCount)
            else old(audioBuffer[c, i])
      {
        ProcessChannel(audioBuffer, channel, start, rows, startPos);
      }
      assert rows[..numChannels] == rows;
      CursorAfterStored(startPos, buffer.Length, rows, numSamples);
      ConcatLength(rows, numSamples);
    }

    /**
     * One pass of the channel loop: store the channel into the ring, then
     * add its voices. The ghost parameters are the block's starting view,
     * channels and cursor, which place this channel within the block.
     */
    method ProcessChannel(audioBuffer: array2<real>, channel: int,
                          ghost start: seq<real>, ghost rows: seq<seq<real>>, ghost startPos: int)
      requires Ready() && 0 <= channel < audioBuffer.Length0 && 1 <= voiceCount
      requires |rows| == audioBuffer.Length0 && rows[channel] == Row(audioBuffer, channel)
      requires History() == AfterWrites(start, Concat(rows[..channel]))
      requires 0 <= startPos < buffer.Length
      requires writePos == CursorAfter(startPos, audioBuffer.Length1, buffer.Length, channel)
      modifies this`writePos, buffer, audioBuffer
      ensures Ready()
      ensures History() == AfterWrites(start, Concat(rows[..channel + 1]))
      ensures writePos == CursorAfter(startPos, audioBuffer.Length1, buffer.Length, channel + 1)
      ensures forall c, i {:trigger audioBuffer[c, i]} :: 0 <= c < audioBuffer.Length0 && 0 <= i < audioBuffer.Length1 ==>
        audioBuffer[c, i] == if c == channel
          then old(audioBuffer[c, i])
            + VoiceSum(AfterWrites(start, Concat(rows[..channel + 1])),
                       CursorAfter(startPos, audioBuffer.Length1, buffer.Length, channel + 1),
                       i, voiceCount, detune, voiceCount)
          else old(audioBuffer[c, i])
    {
      StoreSamples(audioBuffer, channel);
      assert History() == AfterWrites(start, Concat(rows[..channel + 1])) by {
        assert rows[..channel + 1][..channel] == rows[..channel];
        AfterWritesAppend(start, Concat(rows[..channel]), rows[channel]);
      }
      AddVoices(audioBuffer, channel);
    }

    /** The first inner loop: store channel `channel` into the ring, advancing the cursor per sample. */
    method StoreSamples(audioBuffer: array2<real>, channel: int)
      requires Ready() && 0 <= channel < audioBuffer.Length0
      modifies this`writePos, buffer
      ensures Ready()
      ensures History() == AfterWrites(old(History()), Row(audioBuffer, channel))
      ensures writePos == (old(writePos) + audioBuffer.Length1) % buffer.Length
    {
      ghost var start := History();
      ghost var row := Row(audioBuffer, channel);
      ghost var size := buffer.Length;
      for i := 0 to audioBuffer.Length1
        invariant Ready() && buffer.Length == size
        invariant History() == AfterWrites(start, row[..i])
        invariant writePos == (old(writePos) + i) % size
      {
        ghost var ring := buffer[..];
        ghost var pos := writePos;
        var x := audioBuffer[channel, i];
        assert x == row[i];
        buffer[writePos] := x;
        writePos := (writePos + 1) % buffer.Length;
        assert History() == AfterWrites(start, row[..i + 1]) by {
          assert buffer[..] == ring[pos := x];
          assert row[..i + 1] == row[..i] + [x];
          StoreStep(ring, pos, start, row[..i], x);
        }
        assert writePos == (old(writePos) + i + 1) % size by {
          ModAddLeft(old(writePos) + i, 1, size);
        }
      }
      assert row[..audioBuffer.Length1] == row;
    }

    /** The voice loop: only channel `channel` of the audio buffer changes; the ring is only read. */
    method AddVoices(audioBuffer: array2<real>, channel: int)
      requires Ready() && 0 <= channel < audioBuffer.Length0 && 1 <= voiceCount
      modifies audioBuffer
      ensures forall c, i {:trigger audioBuffer[c, i]} :: 0 <= c < audioBuffer.Length0 && 0 <= i < audioBuffer.Length1 ==>
        audioBuffer[c, i] == if c == channel
          then old(audioBuffer[c, i]) + VoiceSum(History(), writePos, i, voiceCount, detune, voiceCount)
          else old(audioBuffer[c, i])
    {
      ghost var view := History();
      for voice := 1 to voiceCount
        invariant forall c, i {:trigger audioBuffer[c, i]} :: 0 <= c < audioBuffer.Length0 && 0 <= i < audioBuffer.Length1 ==>
          audioBuffer[c, i] == if c == channel
            then old(audioBuffer[c, i]) + VoiceSum(view, writePos, i, voiceCount, detune, voice)
            else old(audioBuffer[c, i])
      {
        AddVoice(audioBuffer, channel, voice);
      }
    }

    /** The sample loop for one voice: each sample of the channel gains that voice's delayed read. */
    method AddVoice(audioBuffer: array2<real>, channel: int, voice: int)
      requires Ready() && 0 <= channel < audioBuffer.Length0 && 1 <= voiceCount
      modifies audioBuffer
      ensures forall c, i {:trigger audioBuffer[c, i]} :: 0 <= c < audioBuffer.Length0 && 0 <= i < audioBuffer.Length1 ==>
        audioBuffer[c, i] == if c == channel
          then old(audioBuffer[c, i]) + VoiceTerm(History(), writePos, i, voiceCount, detune, voice)
          else old(audioBuffer[c, i])
    {
      ghost var view := History();
      ghost var pos := writePos;
      ghost var count := voiceCount;
      ghost var amount := detune;
      var delaySamples := DelaySamples(detune, voice);
      var gain := VoiceGain(voiceCount);
      for i := 0 to audioBuffer.Length1
        invariant forall c, j {:trigger audioBuffer[c, j]} :: 0 <= c < audioBuffer.Length0 && 0 <= j < audioBuffer.Length1 ==>
          audioBuffer[c, j] == if c == channel && j < i
            then old(audioBuffer[c, j]) + VoiceTerm(view, pos, j, count, amount, voice)
            else old(audioBuffer[c, j])
      {
        var readPos := ReadPos(writePos, delaySamples, i, buffer.Length);
        assert buffer[readPos] * gain == VoiceTerm(view, pos, i, count, amount, voice) by {
          ViewAt(buffer[..], writePos, readPos);
        }
        audioBuffer[channel, i] := audioBuffer[channel, i] + buffer[readPos] * gain;
      }
    }
  }
}
