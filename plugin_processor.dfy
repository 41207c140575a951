/** The plug-in's own audio processor (AudioPluginAudioProcessor).

    Its one piece of signal processing is `processBlock`: with exactly two
    input channels both channels are replaced, sample by sample, by the side
    signal `left - right` (which removes whatever is common to both, the
    "centre"); afterwards every output channel that has no matching input is
    cleared. The processor has no parameters and names channels by their
    1-based number. */
module PluginProcessor {
  import opened Channels
  import Decimal

  /** getNumParameters: the processor exposes no parameters. */
  const NumParameters: nat := 0

  /** silenceInProducesSilenceOut: what the processor advertises to its host;
      `SilenceInSilenceOut` below proves it of `ProcessedBlock`. */
  const SilenceInProducesSilenceOut: bool := true

  /** The side signal of one stereo sample. */
  function Side(left: Sample, right: Sample): Sample {
    left - right
  }

  /** The sample at channel `c`, index `k`, once processBlock has run on block `b`
      (the channels before the call) with `numIn` inputs and `numOut` outputs. */
  function ProcessedSample(b: seq<seq<Sample>>, n: nat, numIn: nat, numOut: nat, c: nat, k: nat): Sample
    requires IsBlock(b, n) && numIn <= |b| && c < |b| && k < n
  {
    if numIn == 2 && c < 2 then Side(b[0][k], b[1][k])
    else if numIn <= c < numOut then Silence
    else b[c][k]
  }

  /** The whole block after processBlock. */
  function ProcessedBlock(b: seq<seq<Sample>>, n: nat, numIn: nat, numOut: nat): (r: seq<seq<Sample>>)
    requires IsBlock(b, n) && numIn <= |b|
    ensures |r| == |b| && IsBlock(r, n)
  {
    seq(|b|, c requires 0 <= c < |b| =>
      seq(n, k requires 0 <= k < n => ProcessedSample(b, n, numIn, numOut, c, k)))
  }

  /** The stereo loop of processBlock: both channels become, sample by sample,
      the side signal of the pair. */
  method WriteSide(left: array<Sample>, right: array<Sample>, numSamples: nat)
    requires left != right && numSamples <= left.Length && numSamples <= right.Length
    modifies left, right
    ensures forall k :: 0 <= k < numSamples ==> left[k] == Side(old(left[k]), old(right[k])) && right[k] == left[k]
    ensures forall k :: numSamples <= k < left.Length ==> left[k] == old(left[k])
    ensures forall k :: numSamples <= k < right.Length ==> right[k] == old(right[k])
  {
    var side: Sample := 0.0;
    var i := 0;
    while i < numSamples
      invariant 0 <= i <= numSamples
      invariant forall k :: 0 <= k < i ==> left[k] == Side(old(left[k]), old(right[k])) && right[k] == left[k]
      invariant forall k :: i <= k < left.Length ==> left[k] == old(left[k])
      invariant forall k :: i <= k < right.Length ==> right[k] == old(right[k])
    {
      side := left[i] - right[i];
      left[i] := side;
      right[i] := side;
      i := i + 1;
    }
  }

  /** The clearing loop of processBlock: channels `from` up to `to` are
      cleared over the block; no other sample changes. */
  method ClearChannels(chans: seq<array<Sample>>, from: nat, to: nat, numSamples: nat)
    requires to <= |chans| && HoldsSamples(chans, numSamples) && Distinct(chans)
    modifies chans
    ensures forall d, k :: 0 <= d < |chans| && 0 <= k < chans[d].Length ==>
      chans[d][k] == if from <= d < to && k < numSamples then Silence else old(chans[d][k])
  {
    var c := from;
    while c < to
      invariant from <= c && (c == from || c <= to)
      invariant forall d, k :: 0 <= d < |chans| && 0 <= k < chans[d].Length ==>
        chans[d][k] == if from <= d < c && k < numSamples then Silence else old(chans[d][k])
    {
      assert forall d :: 0 <= d < |chans| && d != c ==> chans[d] != chans[c];
      ClearSamples(chans[c], numSamples);
      c := c + 1;
    }
  }

  /** processBlock, in place on the channel table `chans` of a block of
      `numSamples` samples. The table holds at least max(numIn, numOut)
      distinct channels. */
  method ProcessBlock(chans: seq<array<Sample>>, numSamples: nat, numIn: nat, numOut: nat)
    requires numIn <= |chans| && numOut <= |chans|
    requires HoldsSamples(chans, numSamples) && Distinct(chans)
    modifies chans
    ensures Snapshot(chans, numSamples) == ProcessedBlock(old(Snapshot(chans, numSamples)), numSamples, numIn, numOut)
    ensures forall c, k :: 0 <= c < |chans| && numSamples <= k < chans[c].Length ==> chans[c][k] == old(chans[c][k])
  {
    ghost var pre := Snapshot(chans, numSamples);
    if numIn == 2 {
      WriteSide(chans[0], chans[1], numSamples);
    }
    // The block once the side loop is done (the block itself when it does not run).
    ghost var sided := Snapshot(chans, numSamples);
    assert forall d, k :: 0 <= d < |chans| && numSamples <= k < chans[d].Length ==> chans[d][k] == old(chans[d][k]);
    // Outputs without a matching input may hold garbage: clear them.
    ClearChannels(chans, numIn, numOut, numSamples);
    ghost var post := Snapshot(chans, numSamples);
    ghost var spec := ProcessedBlock(pre, numSamples, numIn, numOut);
    forall d, k | 0 <= d < |chans| && 0 <= k < numSamples
      ensures post[d][k] == spec[d][k]
    {
      assert post[d][k] == if numIn <= d < numOut then Silence else sided[d][k];
      assert sided[d][k] == if numIn == 2 && d < 2 then Side(pre[0][k], pre[1][k]) else pre[d][k];
      assert spec[d][k] == ProcessedSample(pre, numSamples, numIn, numOut, d, k);
    }
    assert forall d :: 0 <= d < |chans| ==> post[d] == spec[d];
  }

  /** getInputChannelName / getOutputChannelName: the name of a channel is the
      decimal text of its 1-based number. */
  function ChannelName(channelIndex: int): (name: string)
    ensures Decimal.IsCanonical(name)
    ensures Decimal.ParseInt(name) == channelIndex + 1
  {
    Decimal.IntToDecimalRoundTrip(channelIndex + 1);
    Decimal.IntToDecimal(channelIndex + 1)
  }

  /** Two channels have the same name only if they are the same channel. */
  lemma ChannelNamesDistinct(c: int, d: int)
    requires ChannelName(c) == ChannelName(d)
    ensures c == d
  {
  }

  /** With two inputs, channels 0 and 1 carry the same signal afterwards, and
      that signal at index k is the side of the two input samples at index k. */
  lemma StereoChannelsEqual(b: seq<seq<Sample>>, n: nat, numOut: nat, k: nat)
    requires IsBlock(b, n) && 2 <= |b| && k < n
    ensures ProcessedBlock(b, n, 2, numOut)[0][k] == ProcessedBlock(b, n, 2, numOut)[1][k]
    ensures ProcessedBlock(b, n, 2, numOut)[0][k] == b[0][k] - b[1][k]
  {
  }

  /** The result at index k depends on the samples at index k only: two blocks
      that agree there agree there afterwards, whatever else they hold. */
  lemma ProcessedAtIndexIsLocal(b: seq<seq<Sample>>, b': seq<seq<Sample>>, n: nat, numIn: nat, numOut: nat, c: nat, k: nat)
    requires IsBlock(b, n) && IsBlock(b', n) && |b| == |b'| && numIn <= |b| && c < |b| && k < n
    requires forall d :: 0 <= d < |b| ==> b[d][k] == b'[d][k]
    ensures ProcessedBlock(b, n, numIn, numOut)[c][k] == ProcessedBlock(b', n, numIn, numOut)[c][k]
  {
  }

  /** Unless there are exactly two inputs, no input channel is touched. */
  lemma NotStereoLeavesInputs(b: seq<seq<Sample>>, n: nat, numIn: nat, numOut: nat, c: nat)
    requires IsBlock(b, n) && numIn <= |b| && numIn != 2 && c < numIn
    ensures ProcessedBlock(b, n, numIn, numOut)[c] == b[c]
  {
  }

  /** Every output channel without a matching input is silent afterwards. */
  lemma ExtraOutputsSilent(b: seq<seq<Sample>>, n: nat, numIn: nat, numOut: nat, c: nat, k: nat)
    requires IsBlock(b, n) && numIn <= |b| && numIn <= c < numOut && c < |b| && k < n
    ensures ProcessedBlock(b, n, numIn, numOut)[c][k] == Silence
  {
  }

  /** Nothing else changes: inputs numbered 2 or above, and channels at or past
      max(numIn, numOut), keep their samples. */
  lemma OtherChannelsUnchanged(b: seq<seq<Sample>>, n: nat, numIn: nat, numOut: nat, c: nat)
    requires IsBlock(b, n) && numIn <= |b| && c < |b|
    requires (2 <= c < numIn) || (numIn <= c && numOut <= c)
    ensures ProcessedBlock(b, n, numIn, numOut)[c] == b[c]
  {
  }

  /** Silence in gives silence out, as the processor advertises: if every input
      channel is silent, so is every output channel. */
  lemma SilenceInSilenceOut(b: seq<seq<Sample>>, n: nat, numIn: nat, numOut: nat)
    requires IsBlock(b, n) && numIn <= |b| && numOut <= |b|
    requires forall c, k :: 0 <= c < numIn && 0 <= k < n ==> b[c][k] == Silence
    ensures SilenceInProducesSilenceOut
    ensures forall c, k :: 0 <= c < numOut && 0 <= k < n ==> ProcessedBlock(b, n, numIn, numOut)[c][k] == Silence
  {
  }
}
