/** The RTAS host bridge (JucePlugInProcess): one object per plug-in instance
    that the host drives, standing between the host's render calls, control
    updates and chunk requests and the plug-in's audio processor.

    Calls into the processor other than processBlock, and GUI start-up and
    shut-down, are recorded as events in a log; processBlock is the plug-in's
    own, `PluginProcessor.ProcessBlock`. */
module RtasWrapper {
  import opened Channels
  import PluginProcessor
  import opened RtasControls
  import opened RtasMidi
  import opened RtasChunks

  /** A call the bridge makes into the audio processor (juceFilter). */
  datatype FilterCall =
    | SetPlayConfigDetails(numIns: nat, numOuts: nat, sampleRate: real, blockSize: int)
    | PrepareToPlay(sampleRate: real, blockSize: int)
    | ProcessBlock(midi: seq<MidiEvent>)
    | ProcessBlockBypassed(midi: seq<MidiEvent>)
    | SetParameter(index: int, rawValue: int)
    | SetStateInformation(data: seq<byte>, sizeInBytes: int)
    | ReleaseResources

  /** Start-up and shut-down of the GUI runtime shared by all instances. */
  datatype GuiCall = InitialiseGui | ShutdownGui

  /** A request the bridge answers itself, or one it passes to the SDK's base class. */
  datatype Reply<T> = Handled(value: T) | Delegated

  /** A chunk as GetChunk fills it in: its total size and its payload. */
  datatype ChunkData = ChunkData(fSize: int, data: seq<byte>)

  /** The four-character code 'juce' of the bridge's own chunk. */
  const JuceChunkType: int := 0x6A756365

  /** Construction and destruction of bridge objects, as counted by numInstances. */
  datatype Lifecycle = Construct | Destruct

  /** The instance count after a history of constructions and destructions. */
  function InstancesAfter(history: seq<Lifecycle>): int {
    if history == [] then 0
    else
      var before := InstancesAfter(history[..|history| - 1]);
      if history[|history| - 1] == Construct then before + 1 else before - 1
  }

  /** The count is the number of constructions less the number of destructions. */
  lemma {:induction false} InstancesBalance(history: seq<Lifecycle>)
    ensures InstancesAfter(history) == multiset(history)[Construct] as int - multiset(history)[Destruct] as int
  {
    if history != [] {
      var front := history[..|history| - 1];
      InstancesBalance(front);
      assert history == front + [history[|history| - 1]];
      assert multiset(history) == multiset(front) + multiset{history[|history| - 1]};
    }
  }

  /** One more construction or destruction moves the count by one. */
  lemma InstancesAfterAppend(history: seq<Lifecycle>, e: Lifecycle)
    ensures InstancesAfter(history + [e]) == InstancesAfter(history) + (if e == Construct then 1 else -1)
  {
    assert (history + [e])[..|history|] == history;
  }

  /** This plug-in's processor has no parameters, so the effect registers the
      bypass switch alone: the one control index in use is the bypass one. */
  lemma OnlyBypassControl()
    ensures RegisteredControls(PluginProcessor.NumParameters) == [MasterBypass]
    ensures |RegisteredControls(PluginProcessor.NumParameters)| == BypassControlIndex
  {
  }

  /** The process-wide state of the loaded plug-in: the numInstances counter
      and the GUI runtime it starts and stops. */
  class PluginModule {
    var numInstances: int
    var guiCalls: seq<GuiCall>
    ghost var history: seq<Lifecycle>

    ghost predicate Valid()
      reads this
    {
      numInstances == InstancesAfter(history)
    }

    constructor ()
      ensures Valid() && numInstances == 0 && guiCalls == [] && history == []
    {
      numInstances := 0;
      guiCalls := [];
      history := [];
    }

    /** createNewProcess: start the GUI runtime, then construct a bridge object. */
    method CreateNewProcess(numInputs: nat, numOutputs: nat, chunkHeaderSize: nat) returns (p: JucePlugInProcess)
      requires Valid()
      modifies this
      ensures Valid()
      ensures fresh(p) && p.shared == this && p.Initial()
      ensures p.numInputs == numInputs && p.numOutputs == numOutputs && p.chunkHeaderSize == chunkHeaderSize
      ensures numInstances == old(numInstances) + 1 && history == old(history) + [Construct]
      ensures guiCalls == old(guiCalls) + [InitialiseGui]
    {
      guiCalls := guiCalls + [InitialiseGui];
      p := new JucePlugInProcess(this, numInputs, numOutputs, chunkHeaderSize);
    }

    /** ~JucePlugInGroup: the plug-in group shuts the GUI runtime down as well. */
    method DestroyGroup()
      modifies this`guiCalls
      ensures guiCalls == old(guiCalls) + [ShutdownGui]
    {
      guiCalls := guiCalls + [ShutdownGui];
    }
  }

  class JucePlugInProcess {
    const shared: PluginModule
    /** fNumInputs / fNumOutputs, which the bridge also gives the processor as
        its play configuration. */
    const numInputs: nat
    const numOutputs: nat
    /** sizeof (SFicPlugInChunkHeader), fixed by the host SDK. */
    const chunkHeaderSize: nat

    var prepared: bool
    var sampleRate: real
    /** mBypassed */
    var bypassed: bool
    /** How many times the asynchronous preparation was asked for. */
    var updateRequests: nat
    /** The channel table handed to the processor. */
    var channels: seq<array<Sample>>
    var tempFilterData: seq<byte>
    var midiEvents: seq<MidiEvent>
    var filterCalls: seq<FilterCall>

    /** The state of a freshly constructed bridge object. */
    ghost predicate Initial()
      reads this
    {
      !prepared && sampleRate == 44100.0 && !bypassed && updateRequests == 0 &&
      channels == [] && tempFilterData == [] && midiEvents == [] && filterCalls == []
    }

    constructor (shared: PluginModule, numInputs: nat, numOutputs: nat, chunkHeaderSize: nat)
      requires shared.Valid()
      modifies shared
      ensures this.shared == shared && Initial()
      ensures this.numInputs == numInputs && this.numOutputs == numOutputs && this.chunkHeaderSize == chunkHeaderSize
      ensures shared.Valid() && shared.numInstances == old(shared.numInstances) + 1
      ensures shared.history == old(shared.history) + [Construct] && shared.guiCalls == old(shared.guiCalls)
    {
      this.shared := shared;
      this.numInputs := numInputs;
      this.numOutputs := numOutputs;
      this.chunkHeaderSize := chunkHeaderSize;
      prepared := false;
      sampleRate := 44100.0;
      bypassed := false;
      updateRequests := 0;
      channels := [];
      tempFilterData := [];
      midiEvents := [];
      filterCalls := [];
      new;
      ghost var h := shared.history + [Construct];
      InstancesAfterAppend(shared.history, Construct);
      shared.numInstances := shared.numInstances + 1;
      shared.history := h;
    }

    /** The destructor: release the processor's resources if it was prepared,
        and shut the GUI runtime down when the last instance goes. */
    method Destroy()
      requires shared.Valid()
      modifies this`filterCalls, shared
      ensures filterCalls == old(filterCalls) + (if prepared then [ReleaseResources] else [])
      ensures shared.Valid() && shared.numInstances == old(shared.numInstances) - 1
      ensures shared.history == old(shared.history) + [Destruct]
      ensures shared.guiCalls == old(shared.guiCalls) + (if shared.numInstances == 0 then [ShutdownGui] else [])
    {
      if prepared {
        filterCalls := filterCalls + [ReleaseResources];
      }
      ghost var h := shared.history + [Destruct];
      InstancesAfterAppend(shared.history, Destruct);
      shared.numInstances := shared.numInstances - 1;
      shared.history := h;
      if shared.numInstances == 0 {
        shared.guiCalls := shared.guiCalls + [ShutdownGui];
      }
    }

    /** handleAsyncUpdate: prepare the processor once, with the host's sample
        rate and hardware buffer size; later calls do nothing. */
    method HandleAsyncUpdate(hostSampleRate: real, hwBufferSize: int)
      modifies this`prepared, this`sampleRate, this`filterCalls
      ensures prepared
      ensures old(prepared) ==> sampleRate == old(sampleRate) && filterCalls == old(filterCalls)
      ensures !old(prepared) ==> (sampleRate == hostSampleRate &&
        filterCalls == old(filterCalls) + [SetPlayConfigDetails(numInputs, numOutputs, hostSampleRate, hwBufferSize),
                                           PrepareToPlay(hostSampleRate, hwBufferSize)])
    {
      if !prepared {
        sampleRate := hostSampleRate;
        filterCalls := filterCalls + [SetPlayConfigDetails(numInputs, numOutputs, sampleRate, hwBufferSize),
                                      PrepareToPlay(sampleRate, hwBufferSize)];
        prepared := true;
      }
    }

    /** What the host promises about the buffers of a render call: enough
        channels of at least `numSamples` samples, no channel twice on one side,
        and an input channel shared with an output only at the same index (an
        in-place host). */
    predicate HostBuffers(inputs: seq<array<Sample>>, outputs: seq<array<Sample>>, numSamples: nat) {
      numInputs <= |inputs| && numOutputs <= |outputs| &&
      HoldsSamples(inputs, numSamples) && HoldsSamples(outputs, numSamples) &&
      (forall i, j :: 0 <= i < j < numInputs ==> inputs[i] != inputs[j]) &&
      (forall i, j :: 0 <= i < j < numOutputs ==> outputs[i] != outputs[j]) &&
      (forall i, j :: 0 <= i < numInputs && 0 <= j < numOutputs && inputs[i] == outputs[j] ==> i == j)
    }

    /** The channel table of a render call: the outputs first, then the inputs
        that have no output, max(numInputs, numOutputs) channels in all. */
    function Table(inputs: seq<array<Sample>>, outputs: seq<array<Sample>>): (t: seq<array<Sample>>)
      requires numInputs <= |inputs| && numOutputs <= |outputs|
      ensures |t| == if numInputs > numOutputs then numInputs else numOutputs
      ensures forall c :: 0 <= c < |t| ==> t[c] == if c < numOutputs then outputs[c] else inputs[c]
    {
      outputs[..numOutputs] + (if numInputs > numOutputs then inputs[numOutputs..numInputs] else [])
    }

    /** What the bypass path writes to the outputs: the matching input, or
        silence where there is none. `ins` is the block the inputs held. */
    function PassThrough(ins: seq<seq<Sample>>, n: nat): (outs: seq<seq<Sample>>)
      requires numInputs <= |ins| && IsBlock(ins, n)
      ensures |outs| == numOutputs && IsBlock(outs, n)
    {
      seq(numOutputs, i requires 0 <= i < numOutputs =>
        if i < numInputs then ins[i] else seq(n, k requires 0 <= k < n => Silence))
    }

    /** The block the processor is handed: each output holds its matching
        input's samples when there is one and its old contents when not; the
        inputs past the outputs are passed as they are. */
    function RoutedBlock(ins: seq<seq<Sample>>, outs: seq<seq<Sample>>): (b: seq<seq<Sample>>)
      requires numInputs <= |ins| && numOutputs <= |outs|
      ensures |b| == if numInputs > numOutputs then numInputs else numOutputs
      ensures forall c :: 0 <= c < numInputs && c < numOutputs ==> b[c] == ins[c]
      ensures forall c :: numInputs <= c < numOutputs ==> b[c] == outs[c]
      ensures forall c :: numOutputs <= c < numInputs ==> b[c] == ins[c]
    {
      seq(if numInputs > numOutputs then numInputs else numOutputs, c requires 0 <= c < numInputs || 0 <= c < numOutputs =>
        if c < numOutputs && c >= numInputs then outs[c] else ins[c])
    }

    /** The routing table holds distinct channels, each long enough for the block. */
    lemma TableIsDistinct(inputs: seq<array<Sample>>, outputs: seq<array<Sample>>, numSamples: nat)
      requires HostBuffers(inputs, outputs, numSamples)
      ensures Distinct(Table(inputs, outputs)) && HoldsSamples(Table(inputs, outputs), numSamples)
    {
      var t := Table(inputs, outputs);
      forall c, d | 0 <= c < |t| && 0 <= d < |t| && c != d
        ensures t[c] != t[d]
      {
        if c < d {
          assert t[c] != t[d];
        } else {
          assert t[d] != t[c];
        }
      }
    }

    /** Outputs holding, sample by sample, what PassThrough says hold the
        pass-through block. */
    lemma PassThroughSnapshot(outputs: seq<array<Sample>>, numSamples: nat, ins: seq<seq<Sample>>)
      requires numOutputs <= |outputs| && HoldsSamples(outputs, numSamples)
      requires numInputs <= |ins| && IsBlock(ins, numSamples)
      requires forall j, k :: 0 <= j < numOutputs && 0 <= k < numSamples ==> outputs[j][k] == PassThrough(ins, numSamples)[j][k]
      ensures Snapshot(outputs[..numOutputs], numSamples) == PassThrough(ins, numSamples)
    {
      var post := Snapshot(outputs[..numOutputs], numSamples);
      var expected := PassThrough(ins, numSamples);
      forall j, k | 0 <= j < numOutputs && 0 <= k < numSamples
        ensures post[j][k] == expected[j][k]
      {
        assert post[j][k] == outputs[j][k];
      }
      assert forall j :: 0 <= j < numOutputs ==> post[j] == expected[j];
    }

    /** bypassBuffers: from the last output down, copy the matching input or
        clear the output when it has none. Only outputs are written. */
    method BypassBuffers(inputs: seq<array<Sample>>, outputs: seq<array<Sample>>, numSamples: nat)
      requires HostBuffers(inputs, outputs, numSamples)
      modifies outputs[..numOutputs]
      ensures Snapshot(outputs[..numOutputs], numSamples) == PassThrough(old(Snapshot(inputs, numSamples)), numSamples)
      ensures forall c, k :: 0 <= c < numOutputs && numSamples <= k < outputs[c].Length ==> outputs[c][k] == old(outputs[c][k])
    {
      ghost var ins := Snapshot(inputs, numSamples);
      ghost var expected := PassThrough(ins, numSamples);
      var i := numOutputs;
      while i > 0
        invariant 0 <= i <= numOutputs
        invariant forall j, k :: i <= j < numOutputs && 0 <= k < numSamples ==> outputs[j][k] == expected[j][k]
        invariant forall j, k :: 0 <= j < i && 0 <= k < outputs[j].Length ==> outputs[j][k] == old(outputs[j][k])
        invariant forall j, k :: 0 <= j < numOutputs && numSamples <= k < outputs[j].Length ==> outputs[j][k] == old(outputs[j][k])
        invariant forall j, k :: 0 <= j < i && j < numInputs && 0 <= k < inputs[j].Length ==> inputs[j][k] == old(inputs[j][k])
      {
        i := i - 1;
        assert forall j :: 0 <= j < numOutputs && j != i ==> outputs[j] != outputs[i];
        assert forall j :: 0 <= j < numInputs && j != i ==> inputs[j] != outputs[i];
        if i < numInputs {
          CopySamples(outputs[i], inputs[i], numSamples);
        } else {
          ClearSamples(outputs[i], numSamples);
        }
      }
      PassThroughSnapshot(outputs, numSamples, ins);
    }

    /** The first routing loop of RenderAudio: the table starts with the
        outputs, and each output that has a matching input receives a copy of
        it, unless the host passed one table for both. */
    method RouteOutputs(inputs: seq<array<Sample>>, outputs: seq<array<Sample>>, sameTable: bool, numSamples: nat)
      returns (table: seq<array<Sample>>)
      requires HostBuffers(inputs, outputs, numSamples)
      requires sameTable ==> inputs == outputs
      modifies outputs[..numOutputs]
      ensures table == outputs[..numOutputs]
      ensures forall j, k :: 0 <= j < numOutputs && 0 <= k < outputs[j].Length ==>
        outputs[j][k] == if j < numInputs && k < numSamples then old(inputs[j][k]) else old(outputs[j][k])
      ensures forall j, k :: 0 <= j < numInputs && 0 <= k < inputs[j].Length ==> inputs[j][k] == old(inputs[j][k])
    {
      table := [];
      var i := 0;
      while i < numOutputs
        invariant 0 <= i <= numOutputs
        invariant table == outputs[..i]
        invariant forall j, k :: 0 <= j < numOutputs && 0 <= k < outputs[j].Length ==>
          outputs[j][k] == if j < i && j < numInputs && k < numSamples then old(inputs[j][k]) else old(outputs[j][k])
        invariant forall j, k :: 0 <= j < numInputs && 0 <= k < inputs[j].Length ==> inputs[j][k] == old(inputs[j][k])
      {
        assert forall j :: 0 <= j < numOutputs && j != i ==> outputs[j] != outputs[i];
        assert forall j :: 0 <= j < numInputs && j != i ==> inputs[j] != outputs[i];
        table := table + [outputs[i]];
        if i < numInputs && !sameTable {
          CopySamples(outputs[i], inputs[i], numSamples);
        }
        i := i + 1;
      }
    }

    /** The second routing loop of RenderAudio: the inputs numbered from
        numOutputs up, which have no output to go to. */
    method UnmatchedInputs(inputs: seq<array<Sample>>) returns (rest: seq<array<Sample>>)
      requires numInputs <= |inputs|
      ensures rest == if numInputs > numOutputs then inputs[numOutputs..numInputs] else []
    {
      rest := [];
      var i := numOutputs;
      while i < numInputs
        invariant numOutputs <= i && (i == numOutputs || i <= numInputs)
        invariant rest == if i > numOutputs then inputs[numOutputs..i] else []
      {
        rest := rest + [inputs[i]];
        i := i + 1;
      }
    }

    /** What the first routing loop leaves behind, read as blocks: when every
        output with a matching input holds that input's samples of `ins`, the
        other outputs their samples of `outs`, and the inputs still hold `ins`,
        the table holds the routed block. */
    lemma RoutedSnapshot(inputs: seq<array<Sample>>, outputs: seq<array<Sample>>, numSamples: nat,
                         ins: seq<seq<Sample>>, outs: seq<seq<Sample>>)
      requires HostBuffers(inputs, outputs, numSamples)
      requires |ins| == |inputs| && |outs| == |outputs| && IsBlock(ins, numSamples) && IsBlock(outs, numSamples)
      requires forall j, k :: 0 <= j < numOutputs && 0 <= k < numSamples ==>
        outputs[j][k] == if j < numInputs then ins[j][k] else outs[j][k]
      requires forall j, k :: 0 <= j < numInputs && 0 <= k < numSamples ==> inputs[j][k] == ins[j][k]
      ensures Snapshot(Table(inputs, outputs), numSamples) == RoutedBlock(ins, outs)
    {
      var table := Table(inputs, outputs);
      var post := Snapshot(table, numSamples);
      var expected := RoutedBlock(ins, outs);
      forall c, k | 0 <= c < |table| && 0 <= k < numSamples
        ensures post[c][k] == expected[c][k]
      {
        assert post[c][k] == table[c][k];
        if c < numOutputs && c >= numInputs {
          assert expected[c][k] == outs[c][k];
        } else {
          assert expected[c][k] == ins[c][k];
        }
      }
      assert forall c :: 0 <= c < |table| ==> post[c] == expected[c];
    }

    /** The routing of RenderAudio: build the channel table (the outputs, then
        the inputs that have no output) and copy each input into its matching
        output, unless the host passed one table for both. */
    method RouteChannels(inputs: seq<array<Sample>>, outputs: seq<array<Sample>>, sameTable: bool, numSamples: nat)
      returns (table: seq<array<Sample>>)
      requires HostBuffers(inputs, outputs, numSamples)
      requires sameTable ==> inputs == outputs
      modifies outputs[..numOutputs]
      ensures table == Table(inputs, outputs)
      ensures Snapshot(table, numSamples) == RoutedBlock(old(Snapshot(inputs, numSamples)), old(Snapshot(outputs, numSamples)))
      ensures forall c, k :: 0 <= c < |table| && numSamples <= k < table[c].Length ==> table[c][k] == old(table[c][k])
      ensures forall c, k :: numOutputs <= c < numInputs && 0 <= k < inputs[c].Length ==> inputs[c][k] == old(inputs[c][k])
    {
      ghost var ins := Snapshot(inputs, numSamples);
      ghost var outs := Snapshot(outputs, numSamples);
      table := RouteOutputs(inputs, outputs, sameTable, numSamples);
      RoutedSnapshot(inputs, outputs, numSamples, ins, outs);
      var rest := UnmatchedInputs(inputs);
      table := table + rest;
    }

    /** The suspended branch of RenderAudio: every output channel is cleared
        over the block; the inputs that have no output are left alone. */
    method SilenceOutputs(inputs: seq<array<Sample>>, outputs: seq<array<Sample>>, numSamples: nat)
      requires HostBuffers(inputs, outputs, numSamples)
      modifies outputs[..numOutputs]
      ensures forall c, k :: 0 <= c < numOutputs && 0 <= k < numSamples ==> outputs[c][k] == Silence
      ensures forall c, k :: numOutputs <= c < numInputs && 0 <= k < inputs[c].Length ==> inputs[c][k] == old(inputs[c][k])
      ensures forall c, k :: 0 <= c < |Table(inputs, outputs)| && numSamples <= k < Table(inputs, outputs)[c].Length ==>
        Table(inputs, outputs)[c][k] == old(Table(inputs, outputs)[c][k])
    {
      ghost var table := Table(inputs, outputs);
      assert forall c :: numOutputs <= c < numInputs ==> inputs[c] !in outputs[..numOutputs];
      var i := 0;
      while i < numOutputs
        invariant 0 <= i <= numOutputs
        invariant forall c, k :: 0 <= c < i && 0 <= k < numSamples ==> outputs[c][k] == Silence
        invariant forall c, k :: 0 <= c < numOutputs && numSamples <= k < outputs[c].Length ==> outputs[c][k] == old(outputs[c][k])
        modifies outputs[..numOutputs]
      {
        assert forall j :: 0 <= j < numOutputs && j != i ==> outputs[j] != outputs[i];
        ClearSamples(outputs[i], numSamples);
        i := i + 1;
      }
      assert forall c, k :: 0 <= c < |table| && numSamples <= k < table[c].Length ==> table[c][k] == old(table[c][k]);
    }

    /** The dispatch of RenderAudio: the routed table and the block's MIDI
        events go to processBlockBypassed when the bypass switch is on, to the
        plug-in's processBlock otherwise. */
    method DispatchBlock(table: seq<array<Sample>>, numSamples: nat, events: seq<MidiEvent>)
      requires numInputs <= |table| && numOutputs <= |table|
      requires HoldsSamples(table, numSamples) && Distinct(table)
      modifies this`filterCalls, table
      ensures filterCalls == old(filterCalls) + [if bypassed then ProcessBlockBypassed(events) else ProcessBlock(events)]
      ensures Snapshot(table, numSamples) ==
        if bypassed then old(Snapshot(table, numSamples))
        else PluginProcessor.ProcessedBlock(old(Snapshot(table, numSamples)), numSamples, numInputs, numOutputs)
      ensures bypassed ==> forall c, k :: 0 <= c < |table| && 0 <= k < table[c].Length ==> table[c][k] == old(table[c][k])
      ensures forall c, k :: 0 <= c < |table| && numSamples <= k < table[c].Length ==> table[c][k] == old(table[c][k])
    {
      if bypassed {
        filterCalls := filterCalls + [ProcessBlockBypassed(events)];
      } else {
        PluginProcessor.ProcessBlock(table, numSamples, numInputs, numOutputs);
        filterCalls := filterCalls + [ProcessBlock(events)];
      }
    }

    /** The running branch of RenderAudio: build the channel table, then hand
        it with the block's MIDI events to processBlockBypassed or to the
        plug-in's processBlock, as the bypass switch says. */
    method ProcessRoutedBlock(inputs: seq<array<Sample>>, outputs: seq<array<Sample>>, sameTable: bool, numSamples: nat,
                              events: seq<MidiEvent>)
      requires HostBuffers(inputs, outputs, numSamples)
      requires sameTable ==> inputs == outputs
      modifies this`channels, this`filterCalls, Table(inputs, outputs)
      ensures channels == Table(inputs, outputs)
      ensures filterCalls == old(filterCalls) + [if bypassed then ProcessBlockBypassed(events) else ProcessBlock(events)]
      ensures Snapshot(channels, numSamples) ==
        var routed := RoutedBlock(old(Snapshot(inputs, numSamples)), old(Snapshot(outputs, numSamples)));
        if bypassed then routed else PluginProcessor.ProcessedBlock(routed, numSamples, numInputs, numOutputs)
      ensures bypassed ==> forall c, k :: numOutputs <= c < numInputs && 0 <= k < inputs[c].Length ==> inputs[c][k] == old(inputs[c][k])
      ensures forall c, k :: 0 <= c < |Table(inputs, outputs)| && numSamples <= k < Table(inputs, outputs)[c].Length ==>
        Table(inputs, outputs)[c][k] == old(Table(inputs, outputs)[c][k])
    {
      ghost var routed := RoutedBlock(Snapshot(inputs, numSamples), Snapshot(outputs, numSamples));
      var table := RouteChannels(inputs, outputs, sameTable, numSamples);
      assert Snapshot(table, numSamples) == routed;
      TableIsDistinct(inputs, outputs, numSamples);
      channels := table;
      DispatchBlock(table, numSamples, events);
    }
    /** The prepared part of RenderAudio: collect the block's MIDI input; if the
        processor is suspended, silence the outputs, otherwise route the
        channels and run the processor; then empty the MIDI buffer. */
    method RenderPreparedBlock(inputs: seq<array<Sample>>, outputs: seq<array<Sample>>, sameTable: bool,
                               numSamples: nat, suspended: bool, packets: seq<MidiPacket>)
      requires HostBuffers(inputs, outputs, numSamples)
      requires sameTable ==> inputs == outputs
      modifies this`channels, this`midiEvents, this`filterCalls, Table(inputs, outputs)
      ensures midiEvents == []
      ensures suspended ==> (channels == old(channels) && filterCalls == old(filterCalls) &&
        forall c, k :: 0 <= c < numOutputs && 0 <= k < numSamples ==> outputs[c][k] == Silence)
      ensures !suspended ==> (channels == Table(inputs, outputs) &&
        filterCalls == old(filterCalls) + [if bypassed then ProcessBlockBypassed(BlockEvents(packets, numSamples))
                                           else ProcessBlock(BlockEvents(packets, numSamples))] &&
        Snapshot(channels, numSamples) ==
          var routed := RoutedBlock(old(Snapshot(inputs, numSamples)), old(Snapshot(outputs, numSamples)));
          if bypassed then routed else PluginProcessor.ProcessedBlock(routed, numSamples, numInputs, numOutputs))
      ensures suspended || bypassed ==>
        forall c, k :: numOutputs <= c < numInputs && 0 <= k < inputs[c].Length ==> inputs[c][k] == old(inputs[c][k])
      ensures forall c, k :: 0 <= c < |Table(inputs, outputs)| && numSamples <= k < Table(inputs, outputs)[c].Length ==>
        Table(inputs, outputs)[c][k] == old(Table(inputs, outputs)[c][k])
    {
      ghost var preIn := Snapshot(inputs, numSamples);
      ghost var preOut := Snapshot(outputs, numSamples);
      var events := CollectMidiEvents(packets, numSamples);
      if suspended {
        SilenceOutputs(inputs, outputs, numSamples);
      } else {
        assert Snapshot(inputs, numSamples) == preIn && Snapshot(outputs, numSamples) == preOut;
        ProcessRoutedBlock(inputs, outputs, sameTable, numSamples, events);
      }
      midiEvents := [];
    }

    /** The unprepared branch of RenderAudio: ask for the asynchronous
        preparation and pass the audio straight through. */
    method RenderUnprepared(inputs: seq<array<Sample>>, outputs: seq<array<Sample>>, numSamples: nat)
      requires HostBuffers(inputs, outputs, numSamples)
      modifies this`updateRequests, outputs[..numOutputs]
      ensures updateRequests == old(updateRequests) + 1
      ensures Snapshot(outputs[..numOutputs], numSamples) == PassThrough(old(Snapshot(inputs, numSamples)), numSamples)
      ensures forall c, k :: numOutputs <= c < numInputs && 0 <= k < inputs[c].Length ==> inputs[c][k] == old(inputs[c][k])
      ensures forall c, k :: 0 <= c < numOutputs && numSamples <= k < outputs[c].Length ==> outputs[c][k] == old(outputs[c][k])
    {
      assert forall c :: numOutputs <= c < numInputs ==> inputs[c] !in outputs[..numOutputs];
      updateRequests := updateRequests + 1;
      BypassBuffers(inputs, outputs, numSamples);
    }

    /** RenderAudio. Until the processor is prepared, ask for preparation and
        pass the audio through without calling it; once it is prepared, render
        the block as RenderPreparedBlock describes. */
    method RenderAudio(inputs: seq<array<Sample>>, outputs: seq<array<Sample>>, sameTable: bool,
                       numSamples: nat, suspended: bool, packets: seq<MidiPacket>)
      requires HostBuffers(inputs, outputs, numSamples)
      requires sameTable ==> inputs == outputs
      modifies this`updateRequests, this`channels, this`midiEvents, this`filterCalls, Table(inputs, outputs)
      ensures !prepared ==> (updateRequests == old(updateRequests) + 1 && channels == old(channels) &&
        midiEvents == old(midiEvents) && filterCalls == old(filterCalls) &&
        Snapshot(outputs[..numOutputs], numSamples) == PassThrough(old(Snapshot(inputs, numSamples)), numSamples))
      ensures prepared ==> updateRequests == old(updateRequests) && midiEvents == []
      ensures prepared && suspended ==> (channels == old(channels) && filterCalls == old(filterCalls) &&
        forall c, k :: 0 <= c < numOutputs && 0 <= k < numSamples ==> outputs[c][k] == Silence)
      ensures prepared && !suspended ==> (channels == Table(inputs, outputs) &&
        filterCalls == old(filterCalls) + [if bypassed then ProcessBlockBypassed(BlockEvents(packets, numSamples))
                                           else ProcessBlock(BlockEvents(packets, numSamples))] &&
        Snapshot(channels, numSamples) ==
          var routed := RoutedBlock(old(Snapshot(inputs, numSamples)), old(Snapshot(outputs, numSamples)));
          if bypassed then routed else PluginProcessor.ProcessedBlock(routed, numSamples, numInputs, numOutputs))
      ensures !prepared || suspended || bypassed ==>
        forall c, k :: numOutputs <= c < numInputs && 0 <= k < inputs[c].Length ==> inputs[c][k] == old(inputs[c][k])
      ensures !prepared ==>
        forall c, k :: 0 <= c < numOutputs && numSamples <= k < outputs[c].Length ==> outputs[c][k] == old(outputs[c][k])
      ensures prepared ==>
        forall c, k :: 0 <= c < |Table(inputs, outputs)| && numSamples <= k < Table(inputs, outputs)[c].Length ==>
          Table(inputs, outputs)[c][k] == old(Table(inputs, outputs)[c][k])
    {
      if !prepared {
        RenderUnprepared(inputs, outputs, numSamples);
      } else {
        RenderPreparedBlock(inputs, outputs, sameTable, numSamples, suspended, packets);
      }
    }

    /** UpdateControlValue: the bypass control sets the bypass flag, any other
        control sets parameter controlIndex - 2 of the processor. */
    method UpdateControlValue(controlIndex: int, value: int)
      modifies this`bypassed, this`filterCalls
      ensures match RouteControlUpdate(controlIndex, value)
        case SetBypass(on) => bypassed == on && filterCalls == old(filterCalls)
        case SetParameter(index, raw) => bypassed == old(bypassed) && filterCalls == old(filterCalls) + [FilterCall.SetParameter(index, raw)]
    {
      if controlIndex != BypassControlIndex {
        filterCalls := filterCalls + [FilterCall.SetParameter(controlIndex - 2, value)];
      } else {
        bypassed := value > 0;
      }
    }

    /** GetChunkSize: for the bridge's own chunk, capture the processor's state
        afresh (`filterState` is what its getStateInformation writes) and report
        header plus state. */
    method GetChunkSize(chunkId: int, filterState: seq<byte>) returns (reply: Reply<int>)
      modifies this`tempFilterData
      ensures chunkId == JuceChunkType ==> tempFilterData == filterState && reply == Handled(chunkHeaderSize + |filterState|)
      ensures chunkId != JuceChunkType ==> tempFilterData == old(tempFilterData) && reply == Delegated
    {
      if chunkId == JuceChunkType {
        tempFilterData := [];
        tempFilterData := filterState;
        return Handled(chunkHeaderSize + |tempFilterData|);
      }
      return Delegated;
    }

    /** GetChunk: hand out the state captured by GetChunkSize (capturing it now
        if there is none), with the same size, and empty the cache. */
    method GetChunk(chunkId: int, filterState: seq<byte>) returns (reply: Reply<ChunkData>)
      modifies this`tempFilterData
      ensures chunkId == JuceChunkType ==>
        var cached := if old(tempFilterData) == [] then filterState else old(tempFilterData);
        tempFilterData == [] && reply == Handled(ChunkData(chunkHeaderSize + |cached|, cached))
      ensures chunkId != JuceChunkType ==> tempFilterData == old(tempFilterData) && reply == Delegated
    {
      if chunkId == JuceChunkType {
        if |tempFilterData| == 0 {
          tempFilterData := filterState;
        }
        var chunk := ChunkData(chunkHeaderSize + |tempFilterData|, tempFilterData);
        tempFilterData := [];
        return Handled(chunk);
      }
      return Delegated;
    }

    /** SetChunk: empty the cache and hand the payload to the processor when
        the size test, computed in unsigned arithmetic, passes. */
    method SetChunk(chunkId: int, fSize: int, fData: seq<byte>) returns (reply: Reply<()>)
      modifies this`tempFilterData, this`filterCalls
      ensures chunkId == JuceChunkType ==> (tempFilterData == [] && reply == Handled(()) &&
        filterCalls == old(filterCalls) +
          (if ForwardsState(fSize, chunkHeaderSize) then [SetStateInformation(fData, ForwardedSize(fSize, chunkHeaderSize))] else []))
      ensures chunkId != JuceChunkType ==> tempFilterData == old(tempFilterData) && filterCalls == old(filterCalls) && reply == Delegated
    {
      if chunkId == JuceChunkType {
        tempFilterData := [];
        if UnsignedPayloadSize(fSize, chunkHeaderSize) > 0 {
          filterCalls := filterCalls + [SetStateInformation(fData, ToInt32(UnsignedPayloadSize(fSize, chunkHeaderSize)))];
        }
        return Handled(());
      }
      return Delegated;
    }

    /** A host saving the bridge's state asks for the size, then for the chunk,
        and the processor's state may move on in between. A non-empty state
        captured for the size is the one the chunk carries, with the size that
        was announced; an empty one is captured again for the chunk. */
    method SaveChunk(stateAtSize: seq<byte>, stateAtChunk: seq<byte>) returns (size: Reply<int>, chunk: Reply<ChunkData>)
      modifies this`tempFilterData
      ensures tempFilterData == []
      ensures size == Handled(chunkHeaderSize + |stateAtSize|)
      ensures stateAtSize != [] ==> chunk == Handled(ChunkData(chunkHeaderSize + |stateAtSize|, stateAtSize))
      ensures stateAtSize == [] ==> chunk == Handled(ChunkData(chunkHeaderSize + |stateAtChunk|, stateAtChunk))
    {
      size := GetChunkSize(JuceChunkType, stateAtSize);
      chunk := GetChunk(JuceChunkType, stateAtChunk);
    }
  }
}
