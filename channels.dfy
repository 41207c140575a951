/** Sample storage shared by the plug-in and its host bridge.

    A channel is an array of samples that the host owns; a buffer handed to a
    processing call is a table of channels (the `float**` of the C++ code)
    together with the number of samples of the block. Only the first
    `numSamples` samples of each channel belong to the block. */
module Channels {

  /** One audio sample. Floating-point rounding plays no part in what is proved,
      so samples are modelled as reals. */
  type Sample = real

  const Silence: Sample := 0.0

  /** Every channel of the table holds at least `n` samples. */
  predicate HoldsSamples(chans: seq<array<Sample>>, n: nat) {
    forall c :: 0 <= c < |chans| ==> n <= chans[c].Length
  }

  /** No channel appears twice in the table, so writing one never changes another. */
  predicate Distinct(chans: seq<array<Sample>>) {
    forall c, d :: 0 <= c < |chans| && 0 <= d < |chans| && c != d ==> chans[c] != chans[d]
  }

  /** Every row of `b` is exactly one block of `n` samples long. */
  predicate IsBlock(b: seq<seq<Sample>>, n: nat) {
    forall c :: 0 <= c < |b| ==> |b[c]| == n
  }

  /** The block currently held by the table: the first `n` samples of each channel. */
  ghost function Snapshot(chans: seq<array<Sample>>, n: nat): (b: seq<seq<Sample>>)
    requires HoldsSamples(chans, n)
    reads chans
    ensures |b| == |chans| && IsBlock(b, n)
    ensures forall c, k :: 0 <= c < |chans| && 0 <= k < n ==> b[c][k] == chans[c][k]
  {
    seq(|chans|, c requires 0 <= c < |chans| reads chans => chans[c][..n])
  }

  /** Copies the first `n` samples of `src` into `dst` (FloatVectorOperations::copy).
      `dst` may be `src` itself. */
  method CopySamples(dst: array<Sample>, src: array<Sample>, n: nat)
    requires n <= dst.Length && n <= src.Length
    modifies dst
    ensures forall k :: 0 <= k < n ==> dst[k] == old(src[k])
    ensures forall k :: n <= k < dst.Length ==> dst[k] == old(dst[k])
  {
    var k := 0;
    while k < n
      invariant 0 <= k <= n
      invariant forall j :: 0 <= j < k ==> dst[j] == old(src[j])
      invariant forall j :: k <= j < dst.Length ==> dst[j] == old(dst[j])
      invariant forall j :: k <= j < src.Length ==> src[j] == old(src[j])
    {
      dst[k] := src[k];
      k := k + 1;
    }
  }

  /** Sets the first `n` samples of `dst` to silence (FloatVectorOperations::clear,
      AudioSampleBuffer::clear). */
  method ClearSamples(dst: array<Sample>, n: nat)
    requires n <= dst.Length
    modifies dst
    ensures forall k :: 0 <= k < n ==> dst[k] == Silence
    ensures forall k :: n <= k < dst.Length ==> dst[k] == old(dst[k])
  {
    var k := 0;
    while k < n
      invariant 0 <= k <= n
      invariant forall j :: 0 <= j < k ==> dst[j] == Silence
      invariant forall j :: k <= j < dst.Length ==> dst[j] == old(dst[j])
    {
      dst[k] := Silence;
      k := k + 1;
    }
  }
}
