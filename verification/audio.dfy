/**
 * Decoded audio: a sample rate and one sequence of float samples per channel,
 * all channels of equal length.
 */
module Audio {

  datatype AudioBuffer = AudioBuffer(sampleRate: int, channels: seq<seq<real>>)

  /** The invariants every decoded or rendered buffer satisfies. */
  predicate Valid(b: AudioBuffer) {
    && b.sampleRate > 0
    && |b.channels| >= 1
    && forall c :: 0 <= c < |b.channels| ==> |b.channels[c]| == |b.channels[0]|
  }

  /** Number of sample frames. */
  function Length(b: AudioBuffer): nat
    requires |b.channels| >= 1
  {
    |b.channels[0]|
  }

  /** Duration in seconds. */
  function Duration(b: AudioBuffer): real
    requires Valid(b)
  {
    Length(b) as real / b.sampleRate as real
  }

  /** Two buffers have the same shape: rate, channel count and length. */
  predicate SameShape(a: AudioBuffer, b: AudioBuffer) {
    && a.sampleRate == b.sampleRate
    && |a.channels| == |b.channels|
    && forall c :: 0 <= c < |a.channels| ==> |a.channels[c]| == |b.channels[c]|
  }
}
