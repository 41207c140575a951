# Center remover: the block processor and its RTAS host bridge

This project models two parts of the "center remover" audio plug-in.

The first part is the plug-in's own processor (`AudioPluginAudioProcessor`).
Its `processBlock` works in place on a table of channels holding one block of
samples:

- with exactly two input channels, both channels become the side signal
  `left - right`, sample by sample, so what is common to both ("the centre")
  cancels;
- every output channel with no matching input is then cleared.

The processor has no parameters. It names a channel by its 1-based number and
advertises that silence in gives silence out.

The second part is the RTAS host bridge (`JucePlugInProcess`, one object per
plug-in instance), together with the two pieces of the plug-in group
(`JucePlugInGroup`) that declare the channel layouts. The bridge:

- passes audio straight through until the processor has been prepared once;
- renders each block: it collects the MIDI input with time stamps pulled into
  the block, clears the outputs when the processor is suspended, and otherwise
  builds the channel table (the outputs, then the inputs that have no output)
  and hands it to `processBlock` or `processBlockBypassed`;
- numbers the host's controls (bypass at 1, parameter `p` at `p + 2`) in both
  directions;
- caches the processor's state between `GetChunkSize` and `GetChunk`, and
  hands a chunk's payload back on `SetChunk`;
- counts live instances and shuts the GUI runtime down when the last one
  goes.

Modules, one file each:

- `Channels` (channels.dfy): samples, channel tables as `seq<array<real>>`, and
  the ghost `Snapshot` that reads a table as a block `seq<seq<real>>`.
- `Decimal` (decimal.dfy): JUCE's `String (int)` decimal text, with a parser as
  its partner.
- `PluginProcessor` (plugin_processor.dfy): `processBlock`, the function
  `ProcessedBlock` that specifies it, and the constant getters.
- `RtasControls` (rtas_controls.dfy): control numbering, `UpdateControlValue`'s
  dispatch, the parameter notifications, `touchAllParameters`, `GetID`.
- `RtasStems` (rtas_stems.dfy): `getFormatForChans` and the stem pairing of
  `CreateEffectTypes`.
- `RtasMidi` (rtas_midi.dfy): the MIDI loop of `RenderAudio`.
- `RtasChunks` (rtas_chunks.dfy): the size arithmetic of `SetChunk`, as the C++
  computes it.
- `RtasWrapper` (rtas_wrapper.dfy): the bridge object (a class), the
  process-wide instance counter (a class), and their methods.

How the model is built:

- Every loop of the source that writes samples is a `while` loop over arrays.
  `BypassBuffers`, `RouteChannels` and `ProcessBlock` are proved against
  functions on blocks (`PassThrough`, `RoutedBlock`, `ProcessedBlock`).
  The clearing loops (`SilenceOutputs`, `ClearChannels`) state their result
  sample by sample.
- The bridge's calls into the processor that change it are appended to a log,
  `filterCalls`: setPlayConfigDetails, prepareToPlay, processBlock,
  processBlockBypassed, setParameter, setStateInformation and releaseResources.
  A processBlock call is logged and also runs the plug-in's own `ProcessBlock`
  on the channel table.
- The processor's answers to the bridge's queries come in as parameters:
  getStateInformation's data, getParameter's values and isSuspended.
- Calls on the host's control surface are returned as a sequence of
  `HostCall`s.
- GUI start-up and shut-down are logged in `guiCalls`.
- Values that come from the host or the SDK are parameters: the sample rate,
  the hardware buffer size, whether the processor is suspended, the MIDI
  packets, the processor's serialised state, `sizeof (SFicPlugInChunkHeader)`
  and `PT_VERS_MAJOR`.

Notes where the model reads the code closely:

- `SetChunk` tests `fSize - sizeof (header) > 0`. That subtraction is done
  in unsigned `size_t` arithmetic, so the test fails only when the chunk is
  exactly its header. The widths of `fSize` and `size_t` come from the host SDK
  and the compiler. The model computes with a 64-bit `size_t`, and
  `RtasChunks.SameOnNarrowWords` shows that 32-bit words give the same test
  result and the same `int` size.
  A chunk shorter than its header passes, and its size reaches
  `setStateInformation` as a negative `int`. The model computes the test as
  written (`RtasChunks.ForwardsState`), and `EmptyChunkForwardsNegativeSize`
  exhibits the case.
- `GetChunk` captures the state again only when the cache is empty. So when
  the state was empty at `GetChunkSize` time, the chunk can carry a state of a
  different size than the one announced (`SaveChunk`).
- `processBlock` with more inputs than outputs leaves inputs past the outputs
  in the table. Its side loop then writes channel 1 even when channel 1 is an
  input of the host (one output, two inputs).
- The host's channel pointers are assumed to be what a host passes: distinct
  within each side, and an input equal to an output only at the same index (an
  in-place host passes the same table for both). This is the `HostBuffers`
  precondition.

## Model

| member | source | states |
|---|---|---|
| PluginProcessor.ProcessBlock | Source/PluginProcessor.cpp:138-162 | after the call the block held by the table is `ProcessedBlock` of the block before it; samples past the block are untouched |
| PluginProcessor.ProcessedBlock | Source/PluginProcessor.cpp:138-162 | the specification of processBlock: one channel per channel of the table, each one block long; the lemmas below state what it holds |
| PluginProcessor.WriteSide | Source/PluginProcessor.cpp:143-154 | both stereo channels end up holding, at each index, the left-minus-right of that index's original samples; nothing past the block changes |
| PluginProcessor.ClearChannels | Source/PluginProcessor.cpp:155-161 | channels numIn..numOut-1 are silent over the block, and every other sample of every channel keeps its value |
| PluginProcessor.StereoChannelsEqual | Source/PluginProcessor.cpp:143-153 | with two inputs, channels 0 and 1 are equal at every index afterwards, and equal to b[0][k] - b[1][k] |
| PluginProcessor.ProcessedAtIndexIsLocal | Source/PluginProcessor.cpp:148-152 | the result at index k depends only on the samples at index k, so earlier writes cannot affect later indices |
| PluginProcessor.NotStereoLeavesInputs | Source/PluginProcessor.cpp:143 | unless there are exactly two inputs, every input channel keeps its samples |
| PluginProcessor.ExtraOutputsSilent | Source/PluginProcessor.cpp:155-161 | every channel in [numIn, numOut) is silent afterwards |
| PluginProcessor.OtherChannelsUnchanged | Source/PluginProcessor.cpp:143-161 | inputs numbered 2 or more, and channels at or past max(numIn, numOut), keep their samples |
| PluginProcessor.SilenceInSilenceOut | Source/PluginProcessor.cpp:92-95 | the processor advertises silence-in-silence-out, and every output is silent after processBlock when every input is |
| RtasWrapper.OnlyBypassControl | Source/PluginProcessor.cpp:30-33 | with the processor's 0 parameters the effect registers the bypass switch alone, so control 1 is the only control index |
| PluginProcessor.ChannelName | Source/PluginProcessor.cpp:54-62 | a channel's name is well-formed decimal text that reads back as its 1-based number |
| PluginProcessor.ChannelNamesDistinct | Source/PluginProcessor.cpp:54-62 | different channels have different names |
| Decimal.IntToDecimalRoundTrip | Source/PluginProcessor.cpp:56 | the decimal text of every integer is canonical and parses back to that integer |
| RtasControls.ControlNumbering | JuceLibraryCode/modules/juce_audio_plugin_client/RTAS/juce_RTAS_Wrapper.cpp:466-470 | in registration order, control 1 is the bypass switch and control p+2 is parameter p; no parameter lands on control 1, and c-2 undoes p+2 |
| RtasControls.RegisteredControlIndices | JuceLibraryCode/modules/juce_audio_plugin_client/RTAS/juce_RTAS_Wrapper.cpp:466-470 | every registered control other than 1 is the parameter its index minus 2 names, and that parameter exists |
| RtasControls.RouteControlUpdate | JuceLibraryCode/modules/juce_audio_plugin_client/RTAS/juce_RTAS_Wrapper.cpp:674-682 | an update sets the bypass flag (to value > 0) exactly when it is for control 1; otherwise it sets the parameter whose control is the one updated, with the raw value |
| RtasControls.GestureBegin | JuceLibraryCode/modules/juce_audio_plugin_client/RTAS/juce_RTAS_Wrapper.cpp:755-758 | a gesture begin touches the control that maps back to the parameter, never the bypass control |
| RtasControls.ParameterChanged | JuceLibraryCode/modules/juce_audio_plugin_client/RTAS/juce_RTAS_Wrapper.cpp:750-753 | a change sets the control that maps back to the parameter to the new value, never the bypass control |
| RtasControls.GestureEnd | JuceLibraryCode/modules/juce_audio_plugin_client/RTAS/juce_RTAS_Wrapper.cpp:760-763 | a gesture end releases the control that maps back to the parameter, never the bypass control |
| RtasControls.NotificationsRoundTrip | JuceLibraryCode/modules/juce_audio_plugin_client/RTAS/juce_RTAS_Wrapper.cpp:750-763 | a parameter's begin, change and end notifications never target the bypass control, and a host update of the control they name reaches that same parameter |
| RtasControls.TouchAllParameters | JuceLibraryCode/modules/juce_audio_plugin_client/RTAS/juce_RTAS_Wrapper.cpp:770-778 | for each parameter in ascending order: touch, set to its current value, release, all on control p+2; no call reaches the bypass control |
| RtasControls.ParameterControlId | JuceLibraryCode/modules/juce_audio_plugin_client/RTAS/juce_RTAS_Wrapper.cpp:842 | a parameter control's identifier is positive |
| RtasControls.ParameterControlIdsDistinct | JuceLibraryCode/modules/juce_audio_plugin_client/RTAS/juce_RTAS_Wrapper.cpp:842 | distinct parameters have distinct control identifiers |
| RtasControls.ControlIdsUnique | JuceLibraryCode/modules/juce_audio_plugin_client/RTAS/juce_RTAS_Wrapper.cpp:842 | parameter identifiers are 1..numParameters, one per parameter, and none is the bypass control's 'bypa' |
| RtasStems.FormatForChans | JuceLibraryCode/modules/juce_audio_plugin_client/RTAS/juce_RTAS_Wrapper.cpp:973-996 | 1..8 channels give a format carrying that many channels, and anything else gives Generic; 8 channels give the DTS 7.1 layout exactly from SDK version 9 |
| RtasStems.FormatForChansInjective | JuceLibraryCode/modules/juce_audio_plugin_client/RTAS/juce_RTAS_Wrapper.cpp:973-996 | the counts 1..8 map to eight different formats |
| RtasStems.StemPair | JuceLibraryCode/modules/juce_audio_plugin_client/RTAS/juce_RTAS_Wrapper.cpp:931-932 | a side with no channels gets the other side's format; a side with 1..8 channels gets a format of its own count; 0 and 0 give Generic on both sides |
| RtasStems.CreateEffectTypes | JuceLibraryCode/modules/juce_audio_plugin_client/RTAS/juce_RTAS_Wrapper.cpp:912-947 | one effect type per configuration, numbered 'jcaa'+i with pairwise distinct numbers, each with the stem pair of its configuration |
| RtasMidi.Limit | JuceLibraryCode/modules/juce_audio_plugin_client/RTAS/juce_RTAS_Wrapper.cpp:551-552 | the result lies within the limits when they are ordered: the value itself when it already does, the lower limit below it and the upper limit above it |
| RtasMidi.BlockEvents | JuceLibraryCode/modules/juce_audio_plugin_client/RTAS/juce_RTAS_Wrapper.cpp:545-553 | one event per packet with the packet's bytes; in a non-empty block every position lies in [0, numSamples-1]: a stamp inside the block is kept, a late one goes to the last sample, a negative one to the first |
| RtasMidi.CollectMidiEvents | JuceLibraryCode/modules/juce_audio_plugin_client/RTAS/juce_RTAS_Wrapper.cpp:530-556 | the loop produces exactly BlockEvents of its packets, so every position handed to the processor lies inside the block |
| RtasChunks.UnsignedPayloadSize | JuceLibraryCode/modules/juce_audio_plugin_client/RTAS/juce_RTAS_Wrapper.cpp:661 | the difference is an unsigned 64-bit value |
| RtasChunks.ToInt32 | JuceLibraryCode/modules/juce_audio_plugin_client/RTAS/juce_RTAS_Wrapper.cpp:663-664 | the conversion to int lands in the signed 32-bit range |
| RtasChunks.ForwardsState | JuceLibraryCode/modules/juce_audio_plugin_client/RTAS/juce_RTAS_Wrapper.cpp:661 | a chunk that is all header is never handed on |
| RtasChunks.ForwardedSize | JuceLibraryCode/modules/juce_audio_plugin_client/RTAS/juce_RTAS_Wrapper.cpp:663-664 | the size handed to setStateInformation is always a valid int |
| RtasChunks.SameOnNarrowWords | JuceLibraryCode/modules/juce_audio_plugin_client/RTAS/juce_RTAS_Wrapper.cpp:661-664 | with 32-bit words the test and the size handed on are the same as with 64-bit words |
| RtasChunks.ForwardsUnlessHeaderOnly | JuceLibraryCode/modules/juce_audio_plugin_client/RTAS/juce_RTAS_Wrapper.cpp:661 | the unsigned test fails exactly when fSize equals the header size |
| RtasChunks.ForwardedSizeIsDifference | JuceLibraryCode/modules/juce_audio_plugin_client/RTAS/juce_RTAS_Wrapper.cpp:663-664 | within 2^31 of the header size, the size passed on is fSize minus the header size, negative for a short chunk |
| RtasChunks.EmptyChunkForwardsNegativeSize | JuceLibraryCode/modules/juce_audio_plugin_client/RTAS/juce_RTAS_Wrapper.cpp:661-664 | a 0-byte chunk passes the test and is handed on with size minus the header size |
| RtasChunks.ChunkRoundTrip | JuceLibraryCode/modules/juce_audio_plugin_client/RTAS/juce_RTAS_Wrapper.cpp:637-671 | a chunk of header plus payload, as GetChunk sizes it, is handed back by SetChunk with its payload size exactly when the payload is non-empty |
| RtasWrapper.InstancesBalance | JuceLibraryCode/modules/juce_audio_plugin_client/RTAS/juce_RTAS_Wrapper.cpp:142 | the instance count after any history is the number of constructions minus the number of destructions |
| RtasWrapper.PluginModule.constructor | JuceLibraryCode/modules/juce_audio_plugin_client/RTAS/juce_RTAS_Wrapper.cpp:142 | the counter starts at 0 with no history and no GUI calls |
| RtasWrapper.PluginModule.CreateNewProcess | JuceLibraryCode/modules/juce_audio_plugin_client/RTAS/juce_RTAS_Wrapper.cpp:956-965 | starts the GUI runtime, then returns a fresh bridge object in its initial state; the count rises by one |
| RtasWrapper.PluginModule.DestroyGroup | JuceLibraryCode/modules/juce_audio_plugin_client/RTAS/juce_RTAS_Wrapper.cpp:906-909 | destroying the plug-in group shuts the GUI runtime down |
| RtasWrapper.JucePlugInProcess.constructor | JuceLibraryCode/modules/juce_audio_plugin_client/RTAS/juce_RTAS_Wrapper.cpp:152-162 | a new bridge is unprepared at 44100 Hz with an empty cache and log, and the instance count rises by one, keeping it equal to the history's balance |
| RtasWrapper.JucePlugInProcess.Destroy | JuceLibraryCode/modules/juce_audio_plugin_client/RTAS/juce_RTAS_Wrapper.cpp:164-191 | a prepared processor is released; the count falls by one, and the GUI runtime is shut down exactly when it reaches 0 |
| RtasWrapper.JucePlugInProcess.HandleAsyncUpdate | JuceLibraryCode/modules/juce_audio_plugin_client/RTAS/juce_RTAS_Wrapper.cpp:502-519 | prepared becomes true and stays true; the first call configures and prepares the processor with the host's sample rate, and later calls change nothing |
| RtasWrapper.JucePlugInProcess.Table | JuceLibraryCode/modules/juce_audio_plugin_client/RTAS/juce_RTAS_Wrapper.cpp:577-589 | the channel table has max(numIn, numOut) entries: output i below numOut, input i from numOut to numIn |
| RtasWrapper.JucePlugInProcess.TableIsDistinct | JuceLibraryCode/modules/juce_audio_plugin_client/RTAS/juce_RTAS_Wrapper.cpp:577-591 | for buffers a host passes, the table holds no channel twice, and each entry holds the whole block |
| RtasWrapper.JucePlugInProcess.PassThrough | JuceLibraryCode/modules/juce_audio_plugin_client/RTAS/juce_RTAS_Wrapper.cpp:819-828 | the pass-through block has one channel per output, each one block long |
| Channels.CopySamples | JuceLibraryCode/modules/juce_audio_plugin_client/RTAS/juce_RTAS_Wrapper.cpp:584 | FloatVectorOperations::copy: the first n samples of the destination become the source's, and the rest keep theirs |
| Channels.ClearSamples | JuceLibraryCode/modules/juce_audio_plugin_client/RTAS/juce_RTAS_Wrapper.cpp:573 | FloatVectorOperations::clear: the first n samples become silence, and the rest keep theirs |
| RtasWrapper.JucePlugInProcess.BypassBuffers | JuceLibraryCode/modules/juce_audio_plugin_client/RTAS/juce_RTAS_Wrapper.cpp:819-828 | each output holds its matching input's samples, or silence when it has none; outputs past the block keep their samples, and only outputs are written |
| RtasWrapper.JucePlugInProcess.RouteOutputs | JuceLibraryCode/modules/juce_audio_plugin_client/RTAS/juce_RTAS_Wrapper.cpp:579-585 | the table so far is the outputs; an output with a matching input holds a copy of that input over the block, and everything else is untouched |
| RtasWrapper.JucePlugInProcess.UnmatchedInputs | JuceLibraryCode/modules/juce_audio_plugin_client/RTAS/juce_RTAS_Wrapper.cpp:587-588 | the rest of the table is the inputs from numOut up to numIn, or nothing |
| RtasWrapper.JucePlugInProcess.RoutedSnapshot | JuceLibraryCode/modules/juce_audio_plugin_client/RTAS/juce_RTAS_Wrapper.cpp:577-589 | outputs holding the copied inputs, with the inputs unchanged, mean the table holds RoutedBlock of the blocks before routing |
| RtasWrapper.JucePlugInProcess.RoutedBlock | JuceLibraryCode/modules/juce_audio_plugin_client/RTAS/juce_RTAS_Wrapper.cpp:575-591 | the block the processor sees: a matched output holds its input's samples, an unmatched output keeps its own, an unmatched input is passed as it is |
| RtasWrapper.JucePlugInProcess.RouteChannels | JuceLibraryCode/modules/juce_audio_plugin_client/RTAS/juce_RTAS_Wrapper.cpp:575-591 | returns the channel table, and it holds RoutedBlock of the host's input and output blocks; samples past the block and the unmatched inputs are untouched |
| RtasWrapper.JucePlugInProcess.SilenceOutputs | JuceLibraryCode/modules/juce_audio_plugin_client/RTAS/juce_RTAS_Wrapper.cpp:570-574 | all numOut outputs are silent over the block; the unmatched inputs and all samples past the block are untouched |
| RtasWrapper.JucePlugInProcess.DispatchBlock | JuceLibraryCode/modules/juce_audio_plugin_client/RTAS/juce_RTAS_Wrapper.cpp:591-596 | when bypassed, processBlockBypassed is called and no sample changes; otherwise processBlock runs and the table holds ProcessedBlock of what it held; samples past the block are untouched either way |
| RtasWrapper.JucePlugInProcess.ProcessRoutedBlock | JuceLibraryCode/modules/juce_audio_plugin_client/RTAS/juce_RTAS_Wrapper.cpp:575-597 | the processor gets the routed block and the events: unchanged when bypassed, ProcessedBlock of it otherwise; exactly one process call is logged; samples past the block are untouched |
| RtasWrapper.JucePlugInProcess.RenderPreparedBlock | JuceLibraryCode/modules/juce_audio_plugin_client/RTAS/juce_RTAS_Wrapper.cpp:530-619 | suspended: outputs silenced and no process call; otherwise the routed block is processed or bypassed with the block's clamped MIDI events; the MIDI buffer ends empty and samples past the block are untouched |
| RtasWrapper.JucePlugInProcess.RenderUnprepared | JuceLibraryCode/modules/juce_audio_plugin_client/RTAS/juce_RTAS_Wrapper.cpp:523-528 | asks once more for preparation and leaves the outputs holding the pass-through block, with no processor call; output samples past the block are untouched |
| RtasWrapper.JucePlugInProcess.RenderAudio | JuceLibraryCode/modules/juce_audio_plugin_client/RTAS/juce_RTAS_Wrapper.cpp:521-620 | unprepared: request, pass-through, no processor call; prepared: suspended clears the outputs, otherwise the routed block goes to processBlock or processBlockBypassed with the clamped MIDI events; samples past the block are untouched; prepared never changes |
| RtasWrapper.JucePlugInProcess.UpdateControlValue | JuceLibraryCode/modules/juce_audio_plugin_client/RTAS/juce_RTAS_Wrapper.cpp:674-682 | control 1 sets the bypass flag to value > 0 and calls nothing; any other control c calls setParameter(c - 2) and leaves the flag alone |
| RtasWrapper.JucePlugInProcess.GetChunkSize | JuceLibraryCode/modules/juce_audio_plugin_client/RTAS/juce_RTAS_Wrapper.cpp:623-635 | for the bridge's chunk, the cache is the fresh state and the size is header plus state; other chunks go to the SDK |
| RtasWrapper.JucePlugInProcess.GetChunk | JuceLibraryCode/modules/juce_audio_plugin_client/RTAS/juce_RTAS_Wrapper.cpp:637-653 | the chunk carries the cached state (or a fresh one if none is cached) with header-plus-state size, and the cache ends empty |
| RtasWrapper.JucePlugInProcess.SetChunk | JuceLibraryCode/modules/juce_audio_plugin_client/RTAS/juce_RTAS_Wrapper.cpp:655-671 | the cache ends empty, and the payload reaches setStateInformation exactly when the unsigned size test passes, with the size truncated to int |
| RtasWrapper.JucePlugInProcess.SaveChunk | JuceLibraryCode/modules/juce_audio_plugin_client/RTAS/juce_RTAS_Wrapper.cpp:623-653 | size then chunk: a non-empty state captured for the size is carried by the chunk with the announced size, an empty one is captured again, and the cache ends empty |

## Left out

- The editor and windowing (`JuceCustomUIView`, `EditorCompWrapper`, view rectangles), the fake mouse-move generator and Source/PluginEditor.cpp: user interface only.
- `longToFloat` / `floatToLong` and `getCurrentPosition`: floating-point and timing conversions. Control values travel unconverted: `UpdateControlValue` logs the raw 32-bit value, and the notifications carry the processor's normalised value.
- The callback lock and the asynchronous updater: this is concurrency. `handleAsyncUpdate` is a plain method, and triggering it is counted in `updateRequests`.
- SDK calls: `AddControl` (only the resulting numbering is modelled), MIDI log-in and log-out, the buffered MIDI node and its schedule time, `CEffectMIDITransport`, and the base-class `GetChunkSize`/`GetChunk`/`SetChunk`/`UpdateControlValue`. These come from a proprietary SDK. Chunk requests for other chunk types return `Delegated`.
- MIDI input that is compiled out, a missing MIDI node and a failed `FillMIDIBuffer` are all modelled as an empty packet sequence. They cannot be told apart from the bridge's side.
- The body of `processBlockBypassed` (the processor's default, not part of this plug-in): the model logs the call and leaves the samples as they are.
- MidiBuffer's own handling in `addEvent`: ordering events by position, and trimming the data to the length of the MIDI message it starts with. `midiEvents` is kept in packet order, and each event holds the packet's bytes verbatim.
- ScopedPointer, `HeapBlock::calloc` of the channel table and MemoryBlock copying: memory management. The table is a sequence built by each render call.
- The processor and the bridge are taken to agree on channel counts: the processor's input and output counts are taken to be `fNumInputs` and `fNumOutputs`, which `handleAsyncUpdate` gives it.
- `ChannelName` does not model the overflow of `channelIndex + 1` at INT_MAX; integers are unbounded here.
- The processor's state hooks `getStateInformation`/`setStateInformation` are empty. Their content is a parameter of the chunk methods, so no state round trip is stated.
- Gestalt declarations, type names and sample-rate support in `CreateEffectTypes`: host metadata with no logic.
- The debug-only `jassert` checks (the sample rate, the MIDI time stamps, the configuration count, an unknown channel count): they compile to nothing in a release build, so the model has no counterpart for them.
- Samples are reals: IEEE rounding of the subtraction plays no part in any property.
