/** MIDI input of one render call: every packet that the host's MIDI node delivered
    for the block becomes an event of the processor's MIDI buffer, placed at
    its time stamp pulled into the block. */
module RtasMidi {

  type byte = bv8

  /** A DirectMidiPacket: the message bytes and the time stamp, already read as
      a signed int. */
  datatype MidiPacket = MidiPacket(data: seq<byte>, timestamp: int)

  /** An event of the processor's MIDI buffer: the message and its sample position. */
  datatype MidiEvent = MidiEvent(data: seq<byte>, position: int)

  /** jlimit (lower, upper, v): `lower` for values below it, `upper` for values
      above it, `v` otherwise. */
  function Limit(lower: int, upper: int, v: int): (r: int)
    ensures lower <= upper ==> lower <= r <= upper
    ensures lower <= v <= upper ==> r == v
    ensures v < lower ==> r == lower
    ensures lower <= upper && upper < v ==> r == upper
  {
    if v < lower then lower else if upper < v then upper else v
  }

  /** The event that one packet becomes in a block of `numSamples` samples. */
  function ToEvent(packet: MidiPacket, numSamples: int): MidiEvent {
    MidiEvent(packet.data, Limit(0, numSamples - 1, packet.timestamp))
  }

  /** The events of a block: every packet, in order, turned into an event.
      In a block of at least one sample every event lies inside the block: an
      event whose time stamp already lay inside keeps it, a late one lands on
      the last sample and one stamped before the block on the first. */
  function BlockEvents(packets: seq<MidiPacket>, numSamples: int): (events: seq<MidiEvent>)
    ensures |events| == |packets|
    ensures forall k :: 0 <= k < |events| ==> events[k].data == packets[k].data
    ensures numSamples >= 1 ==> forall k :: 0 <= k < |events| ==> 0 <= events[k].position < numSamples
    ensures forall k :: 0 <= k < |packets| && 0 <= packets[k].timestamp < numSamples ==>
      events[k].position == packets[k].timestamp
    ensures numSamples >= 1 ==> forall k :: 0 <= k < |packets| && packets[k].timestamp >= numSamples ==>
      events[k].position == numSamples - 1
    ensures forall k :: 0 <= k < |packets| && packets[k].timestamp < 0 ==> events[k].position == 0
  {
    seq(|packets|, k requires 0 <= k < |packets| => ToEvent(packets[k], numSamples))
  }

  /** The MIDI loop of RenderAudio: clears the buffer and adds one event per
      packet. Every position lies in [0, numSamples - 1], and a packet already
      inside the block keeps its time stamp. */
  method CollectMidiEvents(packets: seq<MidiPacket>, numSamples: int) returns (events: seq<MidiEvent>)
    ensures events == BlockEvents(packets, numSamples)
    ensures numSamples >= 1 ==> forall k :: 0 <= k < |events| ==> 0 <= events[k].position < numSamples
    ensures forall k :: 0 <= k < |packets| && 0 <= packets[k].timestamp < numSamples ==>
      events[k].position == packets[k].timestamp && events[k].data == packets[k].data
  {
    events := [];
    var i := 0;
    while i < |packets|
      invariant 0 <= i <= |packets|
      invariant events == BlockEvents(packets[..i], numSamples)
    {
      var m := packets[i];
      events := events + [MidiEvent(m.data, Limit(0, numSamples - 1, m.timestamp))];
      i := i + 1;
    }
    assert packets[..i] == packets;
  }
}
