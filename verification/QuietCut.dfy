/** QuietCut: where a chunk of 16 kHz mono 16-bit PCM is cut. */
module QuietCut {
  const SAMPLE_RATE := 16000
  const BYTES_PER_SECOND := 32000
  const FRAME_SAMPLES := 1600
  const WINDOW_FRAMES := 3
  const MAX_INT64 := 0x7FFF_FFFF_FFFF_FFFF

  type Byte = b: int | 0 <= b < 256

  type Pcm = seq<Byte>

  /** A little-endian 16-bit sample, signed. */
  function Sample(pcm: Pcm, i: nat): int
    requires 2 * i + 1 < |pcm|
  {
    var word: int := pcm[2 * i] as int + 256 * pcm[2 * i + 1] as int;
    if word < 0x8000 then word else word - 0x1_0000
  }

  function Amplitude(pcm: Pcm, i: nat): (a: nat)
    requires 2 * i + 1 < |pcm|
    ensures a <= 0x8000
  {
    var v := Sample(pcm, i);
    if v < 0 then -v else v
  }

  function Frames(pcm: Pcm): nat {
    |pcm| / 2 / FRAME_SAMPLES
  }

  /** The summed absolute amplitude of samples from up to end. */
  function Loudness(pcm: Pcm, from: nat, end: nat): nat
    requires from <= end && 2 * end <= |pcm|
  {
    if from == end then 0 else Loudness(pcm, from, end - 1) + Amplitude(pcm, end - 1)
  }

  lemma {:induction false} LoudnessSplits(pcm: Pcm, from: nat, mid: nat, end: nat)
    requires from <= mid <= end && 2 * end <= |pcm|
    ensures Loudness(pcm, from, end) == Loudness(pcm, from, mid) + Loudness(pcm, mid, end)
  {
    if mid < end {
      LoudnessSplits(pcm, from, mid, end - 1);
    }
  }

  lemma {:induction false} LoudnessBounded(pcm: Pcm, from: nat, end: nat)
    requires from <= end && 2 * end <= |pcm|
    ensures Loudness(pcm, from, end) <= 0x8000 * (end - from)
  {
    if from < end {
      LoudnessBounded(pcm, from, end - 1);
    }
  }

  /** The summed absolute amplitude of the 300 ms that start at a 100 ms frame. */
  function WindowLoudness(pcm: Pcm, frame: nat): nat
    requires frame + WINDOW_FRAMES <= Frames(pcm)
  {
    Loudness(pcm, frame * FRAME_SAMPLES, (frame + WINDOW_FRAMES) * FRAME_SAMPLES)
  }

  function FirstFrame(pcm: Pcm, searchSeconds: int): nat {
    var first := Frames(pcm) - searchSeconds * 10;
    if first < 0 then 0 else first
  }

  /** The bytes up to the middle of a window. */
  function CutAt(frame: nat): nat {
    2 * (frame * FRAME_SAMPLES + WINDOW_FRAMES * FRAME_SAMPLES / 2)
  }

  /** A quietest window of the searched tail, and the latest one on ties. */
  ghost predicate Quietest(pcm: Pcm, searchSeconds: int, frame: nat) {
    && FirstFrame(pcm, searchSeconds) <= frame && frame + WINDOW_FRAMES <= Frames(pcm)
    && forall f: nat :: FirstFrame(pcm, searchSeconds) <= f && f + WINDOW_FRAMES <= Frames(pcm) ==>
         WindowLoudness(pcm, frame) <= WindowLoudness(pcm, f)
           && (f > frame ==> WindowLoudness(pcm, frame) < WindowLoudness(pcm, f))
  }

  lemma QuietestUnique(pcm: Pcm, searchSeconds: int, a: nat, b: nat)
    requires Quietest(pcm, searchSeconds, a) && Quietest(pcm, searchSeconds, b)
    ensures a == b
  {
    assert WindowLoudness(pcm, a) <= WindowLoudness(pcm, b) && WindowLoudness(pcm, b) <= WindowLoudness(pcm, a);
  }

  /** A cut is as far from the start of its window as from the end. */
  lemma CutInTheMiddle(frame: nat)
    ensures var start, end := 2 * frame * FRAME_SAMPLES, 2 * (frame + WINDOW_FRAMES) * FRAME_SAMPLES;
            CutAt(frame) - start == end - CutAt(frame) && CutAt(frame) % 2 == 0
  {
  }

  /** The searched windows are those that begin within the last searchSeconds of whole frames. */
  lemma SearchedTail(pcm: Pcm, searchSeconds: int, frame: nat)
    ensures FirstFrame(pcm, searchSeconds) <= frame <==>
      (Frames(pcm) - frame) * FRAME_SAMPLES <= searchSeconds * SAMPLE_RATE
    ensures Frames(pcm) * FRAME_SAMPLES * 2 <= |pcm| < (Frames(pcm) + 1) * FRAME_SAMPLES * 2
  {
    assert SAMPLE_RATE == 10 * FRAME_SAMPLES;
  }

  /** A sample is the two's complement number of its bytes, the lower one first. */
  lemma SampleBytes(pcm: Pcm, i: nat)
    requires 2 * i + 1 < |pcm|
    ensures -0x8000 <= Sample(pcm, i) < 0x8000
    ensures Sample(pcm, i) % 256 == pcm[2 * i] as int && Sample(pcm, i) / 256 % 256 == pcm[2 * i + 1] as int
  {
  }

  /** The amplitude of each frame. */
  method FrameEnergies(pcm: Pcm, frames: nat) returns (energy: array<nat>)
    requires frames == Frames(pcm)
    ensures fresh(energy) && energy.Length == frames
    ensures forall f :: 0 <= f < frames ==> energy[f] == Loudness(pcm, f * FRAME_SAMPLES, (f + 1) * FRAME_SAMPLES)
  {
    energy := new nat[frames](i => 0);
    for frame := 0 to frames
      invariant forall f :: 0 <= f < frame ==> energy[f] == Loudness(pcm, f * FRAME_SAMPLES, (f + 1) * FRAME_SAMPLES)
      invariant forall f :: frame <= f < frames ==> energy[f] == 0
    {
      for sample := frame * FRAME_SAMPLES to (frame + 1) * FRAME_SAMPLES
        invariant forall f :: 0 <= f < frame ==> energy[f] == Loudness(pcm, f * FRAME_SAMPLES, (f + 1) * FRAME_SAMPLES)
        invariant forall f :: frame < f < frames ==> energy[f] == 0
        invariant energy[frame] == Loudness(pcm, frame * FRAME_SAMPLES, sample)
      {
        energy[frame] := energy[frame] + Amplitude(pcm, sample);
      }
    }
  }

  /** One window, from the amplitudes of its frames. */
  method WindowSum(pcm: Pcm, energy: array<nat>, frame: nat) returns (sum: nat)
    requires frame + WINDOW_FRAMES <= Frames(pcm) == energy.Length
    requires forall f :: 0 <= f < energy.Length ==>
      energy[f] == Loudness(pcm, f * FRAME_SAMPLES, (f + 1) * FRAME_SAMPLES)
    ensures sum == WindowLoudness(pcm, frame) && sum <= MAX_INT64
  {
    sum := 0;
    for offset := 0 to WINDOW_FRAMES
      invariant sum == Loudness(pcm, frame * FRAME_SAMPLES, (frame + offset) * FRAME_SAMPLES)
    {
      LoudnessSplits(pcm, frame * FRAME_SAMPLES, (frame + offset) * FRAME_SAMPLES,
        (frame + offset + 1) * FRAME_SAMPLES);
      sum := sum + energy[frame + offset];
    }
    LoudnessBounded(pcm, frame * FRAME_SAMPLES, (frame + WINDOW_FRAMES) * FRAME_SAMPLES);
  }

  /** How many bytes of a chunk to send. */
  method FindQuietCut(pcm: Pcm, searchSeconds: int) returns (bytes: nat)
    ensures bytes % 2 == 0 && bytes <= |pcm|
    ensures Frames(pcm) < WINDOW_FRAMES ==> bytes == |pcm| - |pcm| % 2
    ensures Frames(pcm) >= WINDOW_FRAMES && searchSeconds > 0 ==> exists frame ::
      Quietest(pcm, searchSeconds, frame) && bytes == CutAt(frame)
    ensures Frames(pcm) >= WINDOW_FRAMES && searchSeconds <= 0 ==> bytes == CutAt(Frames(pcm) - WINDOW_FRAMES)
  {
    var frames := |pcm| / 2 / FRAME_SAMPLES;
    if frames < WINDOW_FRAMES {
      return |pcm| - |pcm| % 2;
    }
    var energy := FrameEnergies(pcm, frames);
    var first := FirstFrame(pcm, searchSeconds);
    ghost var measured := energy[..];
    var best, bestFrame := MAX_INT64, frames - WINDOW_FRAMES;
    var frame := first;
    while frame + WINDOW_FRAMES <= frames
      invariant first <= frame && (frame + WINDOW_FRAMES <= frames + 1 || frame == first)
      invariant bestFrame + WINDOW_FRAMES <= frames
      invariant energy[..] == measured
      invariant if frame == first then best == MAX_INT64 && bestFrame == frames - WINDOW_FRAMES
                else first <= bestFrame < frame && best == WindowLoudness(pcm, bestFrame)
      invariant forall f: nat :: first <= f < frame && f + WINDOW_FRAMES <= frames ==>
                  best <= WindowLoudness(pcm, f) && (f > bestFrame ==> best < WindowLoudness(pcm, f))
    {
      assert forall f :: 0 <= f < frames ==> energy[f] == measured[f];
      var sum := WindowSum(pcm, energy, frame);
      if sum <= best {
        best, bestFrame := sum, frame;
      }
      frame := frame + 1;
    }
    if searchSeconds > 0 {
      assert Quietest(pcm, searchSeconds, bestFrame);
    }
    bytes := CutAt(bestFrame);
  }
}
