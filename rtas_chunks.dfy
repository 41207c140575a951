/** The size arithmetic of SetChunk, as the C++ expression computes it.

    SetChunk decides whether to hand the chunk's payload to the processor by
    testing `fSize - sizeof (header) > 0`. The right operand is a `size_t`,
    so the subtraction is done in unsigned arithmetic and the test only fails
    when the two are equal. The payload size is then passed on as an `int`,
    which keeps the low 32 bits. A chunk shorter than its header therefore
    passes the test and is handed on with a negative size.

    The widths of `fSize` and `size_t` are the host SDK's and the compiler's.
    The model computes with a 64-bit `size_t`; `SameOnNarrowWords` shows
    that a 32-bit build gives the same test result and the same size. */
module RtasChunks {

  const SizeModulus: int := 0x1_0000_0000_0000_0000
  const IntModulus: int := 0x1_0000_0000

  /** The range of a signed 64-bit `long`. */
  predicate IsLong(v: int) {
    -0x8000_0000_0000_0000 <= v < 0x8000_0000_0000_0000
  }

  /** fSize - sizeof (header), computed in unsigned 64-bit arithmetic. */
  function UnsignedPayloadSize(fSize: int, headerSize: nat): (d: nat)
    ensures d < SizeModulus
  {
    (fSize - headerSize) % SizeModulus
  }

  /** The conversion of an unsigned value to a 32-bit `int`: the low 32 bits,
      read in two's complement. */
  function ToInt32(u: nat): (r: int)
    ensures -0x8000_0000 <= r < 0x8000_0000
  {
    var w := u % IntModulus;
    if w >= 0x8000_0000 then w - IntModulus else w
  }

  /** The test of SetChunk: a chunk that is all header is never forwarded. */
  predicate ForwardsState(fSize: int, headerSize: nat): (forwards: bool)
    ensures fSize == headerSize ==> !forwards
  {
    UnsignedPayloadSize(fSize, headerSize) > 0
  }

  /** The size SetChunk passes to setStateInformation: always a valid `int`. */
  function ForwardedSize(fSize: int, headerSize: nat): (size: int)
    ensures -0x8000_0000 <= size < 0x8000_0000
  {
    ToInt32(UnsignedPayloadSize(fSize, headerSize))
  }

  /** The test fails exactly for a chunk that is all header. */
  lemma ForwardsUnlessHeaderOnly(fSize: int, headerSize: nat)
    requires IsLong(fSize) && IsLong(headerSize)
    ensures ForwardsState(fSize, headerSize) <==> fSize != headerSize
  {
    var d := fSize - headerSize;
    assert -SizeModulus < d < SizeModulus;
    if d < 0 {
      assert (d + SizeModulus) % SizeModulus == d % SizeModulus;
      assert 0 < d + SizeModulus < SizeModulus;
    }
  }

  /** For sizes within 2^31 of the header size, the size passed on is fSize
      minus the header size, negative when the chunk is shorter than its
      header. */
  lemma ForwardedSizeIsDifference(fSize: int, headerSize: nat)
    requires -0x8000_0000 <= fSize - headerSize < 0x8000_0000
    ensures ForwardedSize(fSize, headerSize) == fSize - headerSize
  {
    var d := fSize - headerSize;
    if d < 0 {
      var u := d + SizeModulus;
      assert UnsignedPayloadSize(fSize, headerSize) == u;
      assert u % IntModulus == d + IntModulus;
    }
  }

  /** The input that shows it: a chunk of 0 bytes with a header of 1 byte or
      more is handed on, with a negative size. */
  lemma EmptyChunkForwardsNegativeSize(headerSize: nat)
    requires 0 < headerSize <= 0x8000_0000
    ensures ForwardsState(0, headerSize)
    ensures ForwardedSize(0, headerSize) == 0 - headerSize as int
  {
    ForwardsUnlessHeaderOnly(0, headerSize);
    ForwardedSizeIsDifference(0, headerSize);
  }

  /** A chunk as GetChunk writes it (header plus payload) is handed back to
      the processor with its payload size by SetChunk when the payload is not
      empty, and not handed back when it is. */
  lemma ChunkRoundTrip(headerSize: nat, payloadSize: nat)
    requires payloadSize < 0x8000_0000
    ensures ForwardsState(headerSize + payloadSize, headerSize) <==> payloadSize > 0
    ensures ForwardedSize(headerSize + payloadSize, headerSize) == payloadSize
  {
    ForwardedSizeIsDifference(headerSize + payloadSize, headerSize);
  }

  /** The range of a signed 32-bit integer. */
  predicate IsInt32(v: int) {
    -0x8000_0000 <= v < 0x8000_0000
  }

  /** With a 32-bit `long` and `size_t`, as on a 32-bit host, the unsigned
      difference is taken modulo 2^32 instead; the test and the size passed
      on come out the same as with 64-bit words. */
  lemma SameOnNarrowWords(fSize: int, headerSize: nat)
    requires IsInt32(fSize) && IsInt32(headerSize)
    ensures ((fSize - headerSize) % IntModulus > 0) == ForwardsState(fSize, headerSize)
    ensures ToInt32((fSize - headerSize) % IntModulus) == ForwardedSize(fSize, headerSize)
  {
    var d := fSize - headerSize;
    assert -IntModulus < d < IntModulus;
    ForwardsUnlessHeaderOnly(fSize, headerSize);
    if d < 0 {
      assert d % IntModulus == d + IntModulus;
      assert UnsignedPayloadSize(fSize, headerSize) == d + SizeModulus;
      assert (d + SizeModulus) % IntModulus == d + IntModulus;
    }
  }
}
