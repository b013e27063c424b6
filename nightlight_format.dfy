/**
 * The binary layout of the Windows Night Light state blob
 * ("bluelightreductionstate"), as pure functions: the 5-byte timestamp
 * encoding, the encoder `Encode` and the decoder `Decode`, and the laws
 * that tie them together.
 *
 * Layout (offsets in bytes):
 *   0..4    STRUCT_HEADER
 *   4..10   TIMESTAMP_LEAD (timestamp header and prefix)
 *   10..15  the encoded timestamp
 *   15..18  TIMESTAMP_SUFFIX
 *   18      size byte = 1 + length of the inner block
 *   19..    inner block: STRUCT_HEADER, ENABLED_MARKER if enabled, remaining data
 *   last 4  STRUCT_FOOTER
 */
module NightlightFormat {
  import opened Wrappers

  type byte = b: int | 0 <= b < 0x100

  /** Rust's `u64`, the type of the stored Unix timestamp. */
  type u64 = n: nat | n < 0x1_0000_0000_0000_0000

  const STRUCT_HEADER: seq<byte> := [0x43, 0x42, 0x01, 0x00]
  /** The timestamp header followed by the timestamp prefix. */
  const TIMESTAMP_LEAD: seq<byte> := [0x0A, 0x02, 0x01, 0x00, 0x2A, 0x06]
  const TIMESTAMP_SUFFIX: seq<byte> := [0x2A, 0x2B, 0x0E]
  const STRUCT_FOOTER: seq<byte> := [0x00, 0x00, 0x00, 0x00]
  const ENABLED_MARKER: seq<byte> := [0x10, 0x00]

  const TIMESTAMP_SIZE: nat := 5
  /** Offset of the encoded timestamp, of the size byte and of the inner block. */
  const TIMESTAMP_POS: nat := 10
  const SIZE_BYTE_POS: nat := 18
  const INNER_POS: nat := 19

  /** Timestamps below this bound survive the 5-byte encoding unchanged. */
  const TIMESTAMP_BOUND: nat := 0x8_0000_0000

  /** The in-memory state: `State` with its three fields, as a value. */
  datatype StateValue = StateValue(timestamp: u64, isEnabled: bool, remainingData: seq<byte>)

  /** Why a blob was refused; each failure of the decoder is its own case. */
  datatype ParseError =
    | StructHeader(expected: seq<byte>, actual: seq<byte>)
      /** the timestamp block parser found fewer than 14 bytes after the header */
    | TimestampBlock
    | MissingSizeByte
      /** the size byte is 0, so `size - 1` underflows */
    | SizeByteUnderflow
    | InvalidStructSize(expectedLen: nat, pos: nat, actualLen: nat, sizeByte: byte)
    | InvalidRemainingDataSlice
    | StructFooter

  // ---------------------------------------------------------------------------
  // The 5-byte timestamp encoding

  /** The 7-bit group `k` (bits 7k .. 7k+6) of `t`. */
  function Group(t: nat, k: nat): (g: nat)
    requires k < 4
    ensures g < 0x80
  {
    match k
    case 0 => t % 0x80
    case 1 => (t / 0x80) % 0x80
    case 2 => (t / 0x4000) % 0x80
    case 3 => (t / 0x20_0000) % 0x80
  }

  /**
   * Bytes 0 to 3 carry the 7-bit groups of bits 0-27 with bit 7 forced on;
   * byte 4 carries bits 28-34 with bit 7 clear.
   */
  function EncodeTimestamp(t: u64): (b: seq<byte>)
    ensures |b| == TIMESTAMP_SIZE
    ensures forall k :: 0 <= k < 4 ==> b[k] >= 0x80 && b[k] % 0x80 == Group(t, k)
    ensures b[4] < 0x80 && b[4] == (t / 0x1000_0000) % 0x80
  {
    [0x80 + Group(t, 0), 0x80 + Group(t, 1), 0x80 + Group(t, 2), 0x80 + Group(t, 3),
     (t / 0x1000_0000) % 0x80]
  }

  /** Strips bit 7 from bytes 0 to 3 and takes byte 4 as it is. */
  function DecodeTimestamp(b: seq<byte>): (t: nat)
    requires |b| == TIMESTAMP_SIZE
    ensures t < 0x10_0000_0000
  {
    (b[0] % 0x80) as nat + (b[1] % 0x80) as nat * 0x80 + (b[2] % 0x80) as nat * 0x4000
    + (b[3] % 0x80) as nat * 0x20_0000 + b[4] as nat * 0x1000_0000
  }

  /** The bytes `EncodeTimestamp` can produce: bit 7 set on bytes 0-3, clear on byte 4. */
  predicate CanonicalTimestamp(b: seq<byte>)
  {
    |b| == TIMESTAMP_SIZE && b[0] >= 0x80 && b[1] >= 0x80 && b[2] >= 0x80 && b[3] >= 0x80 && b[4] < 0x80
  }

  lemma SplitGroup(x: nat)
    ensures x == x % 0x80 + 0x80 * (x / 0x80)
  {
  }

  /** Decoding the encoding of a timestamp below 2^35 gives it back. */
  lemma TimestampRoundTrip(t: u64)
    requires t < TIMESTAMP_BOUND
    ensures DecodeTimestamp(EncodeTimestamp(t)) == t
  {
    var q1, q2, q3, q4 := t / 0x80, t / 0x4000, t / 0x20_0000, t / 0x1000_0000;
    assert q1 / 0x80 == q2 && q2 / 0x80 == q3 && q3 / 0x80 == q4;
    assert q4 < 0x80;
    SplitGroup(t);
    SplitGroup(q1);
    SplitGroup(q2);
    SplitGroup(q3);
  }

  lemma ShiftGroup(g: nat, rest: nat)
    requires g < 0x80
    ensures (g + 0x80 * rest) % 0x80 == g && (g + 0x80 * rest) / 0x80 == rest
  {
  }

  lemma NestedDivisions(t: nat)
    ensures t / 0x80 / 0x80 == t / 0x4000
    ensures t / 0x4000 / 0x80 == t / 0x20_0000
    ensures t / 0x20_0000 / 0x80 == t / 0x1000_0000
  {
  }

  /** Encoding the decoded value of canonical bytes gives the same bytes back. */
  lemma TimestampBytesRoundTrip(b: seq<byte>)
    requires CanonicalTimestamp(b)
    ensures DecodeTimestamp(b) < TIMESTAMP_BOUND
    ensures EncodeTimestamp(DecodeTimestamp(b)) == b
  {
    var g0: nat, g1: nat, g2: nat, g3: nat, g4: nat := b[0] - 0x80, b[1] - 0x80, b[2] - 0x80, b[3] - 0x80, b[4];
    var r3 := g3 + 0x80 * g4;
    var r2 := g2 + 0x80 * r3;
    var r1 := g1 + 0x80 * r2;
    var t := DecodeTimestamp(b);
    assert t == g0 + 0x80 * r1;
    ShiftGroup(g0, r1);
    ShiftGroup(g1, r2);
    ShiftGroup(g2, r3);
    ShiftGroup(g3, g4);
    NestedDivisions(t);
    assert t / 0x4000 == r2 && t / 0x20_0000 == r3 && t / 0x1000_0000 == g4;
    var e := EncodeTimestamp(t);
    assert e[0] == b[0] && e[1] == b[1] && e[2] == b[2] && e[3] == b[3] && e[4] == b[4];
  }

  // ---------------------------------------------------------------------------
  // Encoding a state

  /** The block the size byte describes: second header, marker if enabled, remaining data. */
  function Inner(s: StateValue): (inner: seq<byte>)
    ensures |inner| == |STRUCT_HEADER| + (if s.isEnabled then |ENABLED_MARKER| else 0) + |s.remainingData|
  {
    STRUCT_HEADER + (if s.isEnabled then ENABLED_MARKER else []) + s.remainingData
  }

  /** The size byte: the inner length plus one, cast to `u8` (so it wraps modulo 256). */
  function SizeByte(s: StateValue): (size: byte)
    ensures |Inner(s)| + 1 < 0x100 ==> size == |Inner(s)| + 1
  {
    (|Inner(s)| + 1) % 0x100
  }

  /** The serialized form of a state (`serialize_to_bytes`). */
  function Encode(s: StateValue): (bytes: seq<byte>)
    ensures |bytes| == INNER_POS + |Inner(s)| + |STRUCT_FOOTER|
  {
    STRUCT_HEADER + TIMESTAMP_LEAD + EncodeTimestamp(s.timestamp) + TIMESTAMP_SUFFIX
    + [SizeByte(s)] + Inner(s) + STRUCT_FOOTER
  }

  /** Where each part of the layout sits in `Encode(s)`. */
  lemma EncodeLayout(s: StateValue)
    ensures var bytes := Encode(s);
      && bytes[..4] == STRUCT_HEADER
      && bytes[4..TIMESTAMP_POS] == TIMESTAMP_LEAD
      && bytes[TIMESTAMP_POS..15] == EncodeTimestamp(s.timestamp)
      && bytes[15..SIZE_BYTE_POS] == TIMESTAMP_SUFFIX
      && bytes[SIZE_BYTE_POS] == SizeByte(s)
      && bytes[INNER_POS..|bytes| - 4] == Inner(s)
      && bytes[INNER_POS..INNER_POS + 4] == STRUCT_HEADER
      && bytes[|bytes| - 4..] == STRUCT_FOOTER
  {
    var bytes := Encode(s);
    var front := STRUCT_HEADER + TIMESTAMP_LEAD + EncodeTimestamp(s.timestamp) + TIMESTAMP_SUFFIX + [SizeByte(s)];
    assert bytes == front + Inner(s) + STRUCT_FOOTER;
    assert |front| == INNER_POS;
    assert bytes[..INNER_POS] == front;
    assert bytes[INNER_POS..|bytes| - 4] == Inner(s);
    assert Inner(s)[..4] == STRUCT_HEADER;
  }

  // ---------------------------------------------------------------------------
  // Decoding a blob

  /**
   * `deserialize_from_bytes`: the checks run in the source's order, and the
   * first one that fails decides the error.
   */
  function Decode(data: seq<byte>): (r: Result<StateValue, ParseError>)
    ensures r.Success? ==>
      && |data| >= INNER_POS + 8
      && data[..4] == STRUCT_HEADER
      && data[INNER_POS..INNER_POS + 4] == STRUCT_HEADER
      && data[|data| - 4..] == STRUCT_FOOTER
      && |data| == INNER_POS + data[SIZE_BYTE_POS] - 1 + |STRUCT_FOOTER|
      && r.value.timestamp == DecodeTimestamp(data[TIMESTAMP_POS..15])
      && r.value.isEnabled == (data[INNER_POS + 4..INNER_POS + 6] == ENABLED_MARKER)
      && data[INNER_POS..|data| - 4] == Inner(r.value)
  {
    if |data| < 4 || data[..4] != STRUCT_HEADER then
      Failure(StructHeader(STRUCT_HEADER, if |data| < 4 then [] else data[..4]))
    else if |data| < SIZE_BYTE_POS then
      Failure(TimestampBlock)
    else if |data| == SIZE_BYTE_POS then
      Failure(MissingSizeByte)
    else
      var size := data[SIZE_BYTE_POS];
      if size == 0 then
        Failure(SizeByteUnderflow)
      else if |data| - INNER_POS != size - 1 + |STRUCT_FOOTER| then
        Failure(InvalidStructSize(size - 1 + |STRUCT_FOOTER|, INNER_POS, |data| - INNER_POS, size))
      else if data[INNER_POS..INNER_POS + 4] != STRUCT_HEADER then
        Failure(StructHeader(STRUCT_HEADER, data[INNER_POS..INNER_POS + 4]))
      else
        var enabled := |data| >= INNER_POS + 6 && data[INNER_POS + 4..INNER_POS + 6] == ENABLED_MARKER;
        var start := if enabled then INNER_POS + 6 else INNER_POS + 4;
        if start > |data| - 4 then
          Failure(InvalidRemainingDataSlice)
        else if data[|data| - 4..] != STRUCT_FOOTER then
          Failure(StructFooter)
        else
          var s := StateValue(DecodeTimestamp(data[TIMESTAMP_POS..15]), enabled, data[start..|data| - 4]);
          assert data[INNER_POS + 4..start] == if enabled then ENABLED_MARKER else [];
          assert data[INNER_POS..|data| - 4]
              == data[INNER_POS..INNER_POS + 4] + data[INNER_POS + 4..start] + data[start..|data| - 4];
          Success(s)
  }

  // ---------------------------------------------------------------------------
  // Laws

  /**
   * The states whose encoding decodes back to them: the timestamp fits the
   * five bytes, the size byte does not wrap, and for a disabled state the two
   * bytes the decoder inspects for the enabled marker (the start of the
   * remaining data, running on into the footer) are not 0x10 0x00.
   */
  predicate RoundTrips(s: StateValue)
  {
    && s.timestamp < TIMESTAMP_BOUND
    && |Inner(s)| + 1 < 0x100
    && (!s.isEnabled ==> (s.remainingData + STRUCT_FOOTER)[..2] != ENABLED_MARKER)
  }

  /** Blobs whose constant timestamp bytes and timestamp encoding are the ones `Encode` writes. */
  predicate WellFormed(data: seq<byte>)
  {
    && |data| >= INNER_POS
    && data[4..TIMESTAMP_POS] == TIMESTAMP_LEAD
    && CanonicalTimestamp(data[TIMESTAMP_POS..15])
    && data[15..SIZE_BYTE_POS] == TIMESTAMP_SUFFIX
  }

  /** Decoding the serialization of a state returns that state. */
  lemma DecodeEncode(s: StateValue)
    requires RoundTrips(s)
    ensures Decode(Encode(s)) == Success(s)
  {
    var bytes := Encode(s);
    EncodeLayout(s);
    TimestampRoundTrip(s.timestamp);
    var n := |bytes|;
    assert bytes[SIZE_BYTE_POS] == |Inner(s)| + 1;
    assert n - INNER_POS == bytes[SIZE_BYTE_POS] - 1 + |STRUCT_FOOTER|;
    var enabled := n >= INNER_POS + 6 && bytes[INNER_POS + 4..INNER_POS + 6] == ENABLED_MARKER;
    var start := if enabled then INNER_POS + 6 else INNER_POS + 4;
    assert bytes[INNER_POS + 4..] == Inner(s)[4..] + STRUCT_FOOTER;
    if s.isEnabled {
      assert Inner(s)[4..] == ENABLED_MARKER + s.remainingData;
      assert bytes[INNER_POS + 4..INNER_POS + 6] == ENABLED_MARKER;
      assert enabled;
      assert bytes[start..n - 4] == bytes[INNER_POS..n - 4][6..];
      assert Inner(s)[6..] == s.remainingData;
    } else {
      assert Inner(s)[4..] == s.remainingData;
      assert bytes[INNER_POS + 4..INNER_POS + 6] == (s.remainingData + STRUCT_FOOTER)[..2];
      assert !enabled;
      assert bytes[start..n - 4] == bytes[INNER_POS..n - 4][4..];
    }
    assert start <= n - 4;
  }

  /** A decoded blob with a canonical timestamp always satisfies `RoundTrips`. */
  lemma DecodedRoundTrips(data: seq<byte>)
    requires Decode(data).Success? && WellFormed(data)
    ensures RoundTrips(Decode(data).value)
  {
    var s := Decode(data).value;
    TimestampBytesRoundTrip(data[TIMESTAMP_POS..15]);
    if !s.isEnabled {
      assert data[INNER_POS..|data| - 4] == Inner(s);
      assert data[INNER_POS + 4..] == s.remainingData + STRUCT_FOOTER;
      assert (s.remainingData + STRUCT_FOOTER)[..2] == data[INNER_POS + 4..INNER_POS + 6];
    }
  }

  /** Serializing a decoded well-formed blob reproduces the blob byte for byte. */
  lemma EncodeDecode(data: seq<byte>)
    requires Decode(data).Success? && WellFormed(data)
    ensures Encode(Decode(data).value) == data
  {
    var s := Decode(data).value;
    var bytes := Encode(s);
    EncodeLayout(s);
    TimestampBytesRoundTrip(data[TIMESTAMP_POS..15]);
    DecodedRoundTrips(data);
    assert |bytes| == |data|;
    assert data == data[..4] + data[4..TIMESTAMP_POS] + data[TIMESTAMP_POS..15] + data[15..SIZE_BYTE_POS]
      + [data[SIZE_BYTE_POS]] + data[INNER_POS..|data| - 4] + data[|data| - 4..];
  }

  /**
   * The blobs the decoder accepts with the canonical constant bytes are exactly
   * the encodings of the states that round-trip.
   */
  lemma DecodeIffEncode(data: seq<byte>, s: StateValue)
    ensures (Decode(data) == Success(s) && WellFormed(data)) <==> (RoundTrips(s) && data == Encode(s))
  {
    if Decode(data) == Success(s) && WellFormed(data) {
      DecodedRoundTrips(data);
      EncodeDecode(data);
    }
    if RoundTrips(s) && data == Encode(s) {
      DecodeEncode(s);
      EncodeLayout(s);
    }
  }

  /**
   * An accepted blob holds exactly `size - 1` bytes after the size byte plus
   * the footer; a blob with a good first header and a nonzero size byte that
   * disagrees with its length is refused with both lengths reported.
   */
  lemma SizeByteAccounting(data: seq<byte>)
    requires |data| > SIZE_BYTE_POS && data[..4] == STRUCT_HEADER && data[SIZE_BYTE_POS] != 0
    ensures Decode(data).Success? ==> |data| - INNER_POS == data[SIZE_BYTE_POS] - 1 + |STRUCT_FOOTER|
    ensures |data| - INNER_POS != data[SIZE_BYTE_POS] - 1 + |STRUCT_FOOTER| ==>
      Decode(data) == Failure(InvalidStructSize(data[SIZE_BYTE_POS] - 1 + |STRUCT_FOOTER|, INNER_POS,
                                                |data| - INNER_POS, data[SIZE_BYTE_POS]))
  {
  }

  /** Blobs that pass the first header, the size byte and the length check. */
  predicate SizeChecked(data: seq<byte>)
  {
    && |data| > SIZE_BYTE_POS && data[..4] == STRUCT_HEADER && data[SIZE_BYTE_POS] != 0
    && |data| - INNER_POS == data[SIZE_BYTE_POS] - 1 + |STRUCT_FOOTER|
  }

  /**
   * The error each failing check reports: the first header, the timestamp
   * block, the size byte, the second header, the remaining-data slice (which
   * starts after the marker when the two bytes after the second header are
   * 0x10 0x00) and the footer. The length check is `SizeByteAccounting`.
   */
  lemma DecodeErrors(data: seq<byte>)
    ensures |data| < 4 || data[..4] != STRUCT_HEADER ==>
      Decode(data) == Failure(StructHeader(STRUCT_HEADER, if |data| < 4 then [] else data[..4]))
    ensures 4 <= |data| < SIZE_BYTE_POS && data[..4] == STRUCT_HEADER ==> Decode(data) == Failure(TimestampBlock)
    ensures |data| == SIZE_BYTE_POS && data[..4] == STRUCT_HEADER ==> Decode(data) == Failure(MissingSizeByte)
    ensures |data| > SIZE_BYTE_POS && data[..4] == STRUCT_HEADER && data[SIZE_BYTE_POS] == 0 ==>
      Decode(data) == Failure(SizeByteUnderflow)
    ensures SizeChecked(data) && data[INNER_POS..INNER_POS + 4] != STRUCT_HEADER ==>
      Decode(data) == Failure(StructHeader(STRUCT_HEADER, data[INNER_POS..INNER_POS + 4]))
    ensures SizeChecked(data) && data[INNER_POS..INNER_POS + 4] == STRUCT_HEADER ==>
      var marked := |data| >= INNER_POS + 6 && data[INNER_POS + 4..INNER_POS + 6] == ENABLED_MARKER;
      var start := if marked then INNER_POS + 6 else INNER_POS + 4;
      && (start > |data| - 4 ==> Decode(data) == Failure(InvalidRemainingDataSlice))
      && (start <= |data| - 4 && data[|data| - 4..] != STRUCT_FOOTER ==> Decode(data) == Failure(StructFooter))
  {
  }

  /** When every check passes, the state read: the timestamp, the marker test and the bytes before the footer. */
  lemma DecodeAccepts(data: seq<byte>)
    requires SizeChecked(data) && data[INNER_POS..INNER_POS + 4] == STRUCT_HEADER
    ensures var marked := |data| >= INNER_POS + 6 && data[INNER_POS + 4..INNER_POS + 6] == ENABLED_MARKER;
      var start := if marked then INNER_POS + 6 else INNER_POS + 4;
      start <= |data| - 4 && data[|data| - 4..] == STRUCT_FOOTER ==>
        Decode(data) == Success(StateValue(DecodeTimestamp(data[TIMESTAMP_POS..15]), marked, data[start..|data| - 4]))
  {
  }

  // ---------------------------------------------------------------------------
  // The two captured blobs and the limits of the round trip

  const FIXTURE_TIMESTAMP: u64 := 1742670473
  const FIXTURE_REMAINING: seq<byte> :=
    [0xD0, 0x0A, 0x02, 0xC6, 0x14, 0xA9, 0xF6, 0xE2, 0xD3, 0xEF, 0xEA, 0xE6, 0xED, 0x01]

  /** A captured disabled blob (41 bytes), grouped by field. */
  const BYTES_DISABLED: seq<byte> :=
    [0x43, 0x42, 0x01, 0x00]               // header
    + [0x0A, 0x02, 0x01, 0x00, 0x2A, 0x06] // timestamp header and prefix
    + [0x89, 0x95, 0xFC, 0xBE, 0x06]       // timestamp 1742670473
    + [0x2A, 0x2B, 0x0E]                   // timestamp suffix
    + [0x13]                               // size byte 19
    + [0x43, 0x42, 0x01, 0x00]             // header again
    + [0xD0, 0x0A, 0x02, 0xC6, 0x14, 0xA9, 0xF6, 0xE2, 0xD3, 0xEF, 0xEA, 0xE6, 0xED, 0x01]
    + [0x00, 0x00, 0x00, 0x00]             // footer

  /** The same blob enabled (43 bytes): size byte 21 and the marker after the second header. */
  const BYTES_ENABLED: seq<byte> :=
    [0x43, 0x42, 0x01, 0x00]
    + [0x0A, 0x02, 0x01, 0x00, 0x2A, 0x06]
    + [0x89, 0x95, 0xFC, 0xBE, 0x06]
    + [0x2A, 0x2B, 0x0E]
    + [0x15]                               // size byte 21
    + [0x43, 0x42, 0x01, 0x00]
    + [0x10, 0x00]                         // enabled marker
    + [0xD0, 0x0A, 0x02, 0xC6, 0x14, 0xA9, 0xF6, 0xE2, 0xD3, 0xEF, 0xEA, 0xE6, 0xED, 0x01]
    + [0x00, 0x00, 0x00, 0x00]

  lemma FixtureTimestamp()
    ensures EncodeTimestamp(FIXTURE_TIMESTAMP) == [0x89, 0x95, 0xFC, 0xBE, 0x06]
  {
    assert FIXTURE_TIMESTAMP == 0x09 + 0x80 * (0x15 + 0x80 * (0x7C + 0x80 * (0x3E + 0x80 * 0x06)));
  }

  /** Encoding the captured state with the flag clear reproduces the disabled blob byte for byte. */
  lemma FixtureEncodingDisabled()
    ensures |BYTES_DISABLED| == 41
    ensures Encode(StateValue(FIXTURE_TIMESTAMP, false, FIXTURE_REMAINING)) == BYTES_DISABLED
  {
    var s := StateValue(FIXTURE_TIMESTAMP, false, FIXTURE_REMAINING);
    FixtureTimestamp();
    assert Inner(s) == STRUCT_HEADER + FIXTURE_REMAINING;
    assert SizeByte(s) == 0x13;
  }

  /** Encoding the captured state with the flag set reproduces the enabled blob byte for byte. */
  lemma FixtureEncodingEnabled()
    ensures |BYTES_ENABLED| == 43
    ensures Encode(StateValue(FIXTURE_TIMESTAMP, true, FIXTURE_REMAINING)) == BYTES_ENABLED
  {
    var s := StateValue(FIXTURE_TIMESTAMP, true, FIXTURE_REMAINING);
    FixtureTimestamp();
    assert Inner(s) == STRUCT_HEADER + ENABLED_MARKER + FIXTURE_REMAINING;
    assert SizeByte(s) == 0x15;
  }

  /** Both captured blobs decode to the captured timestamp and remaining data; only the flag differs. */
  lemma FixtureDecodings()
    ensures Decode(BYTES_DISABLED) == Success(StateValue(FIXTURE_TIMESTAMP, false, FIXTURE_REMAINING))
    ensures Decode(BYTES_ENABLED) == Success(StateValue(FIXTURE_TIMESTAMP, true, FIXTURE_REMAINING))
  {
    FixtureEncodingDisabled();
    FixtureEncodingEnabled();
    assert (FIXTURE_REMAINING + STRUCT_FOOTER)[..2] != ENABLED_MARKER by {
      assert (FIXTURE_REMAINING + STRUCT_FOOTER)[0] == 0xD0;
    }
    DecodeEncode(StateValue(FIXTURE_TIMESTAMP, false, FIXTURE_REMAINING));
    DecodeEncode(StateValue(FIXTURE_TIMESTAMP, true, FIXTURE_REMAINING));
  }

  /**
   * Why `RoundTrips` asks for its third condition: a disabled state whose
   * remaining data begins with 0x10 0x00 is read back as enabled.
   */
  lemma MarkerAmbiguity(t: u64)
    requires t < TIMESTAMP_BOUND
    ensures Decode(Encode(StateValue(t, false, ENABLED_MARKER))) == Success(StateValue(t, true, []))
  {
    var s := StateValue(t, false, ENABLED_MARKER);
    var bytes := Encode(s);
    EncodeLayout(s);
    TimestampRoundTrip(t);
    assert bytes[INNER_POS + 4..INNER_POS + 6] == ENABLED_MARKER;
  }

  /**
   * The marker check may read into the footer: a disabled state whose
   * remaining data is the single byte 0x10 is refused when read back.
   */
  lemma MarkerReadsIntoFooter(t: u64)
    requires t < TIMESTAMP_BOUND
    ensures Decode(Encode(StateValue(t, false, [0x10]))) == Failure(InvalidRemainingDataSlice)
  {
    var s := StateValue(t, false, [0x10]);
    var bytes := Encode(s);
    EncodeLayout(s);
    assert bytes[INNER_POS + 4..INNER_POS + 6] == ENABLED_MARKER;
  }

  /**
   * Why `RoundTrips` bounds the inner block: with 251 bytes of remaining data
   * the size byte wraps to 0 and the blob is refused.
   */
  lemma SizeByteWraps(t: u64)
    ensures var s := StateValue(t, false, seq(251, _ => 0));
      SizeByte(s) == 0 && Decode(Encode(s)) == Failure(SizeByteUnderflow)
  {
    var s := StateValue(t, false, seq(251, _ => 0));
    EncodeLayout(s);
  }

  /** In general: no state whose inner block has 255 bytes or more reads back as itself. */
  lemma OversizedNeverRoundTrips(s: StateValue)
    requires |Inner(s)| + 1 >= 0x100
    ensures Decode(Encode(s)) != Success(s)
  {
    EncodeLayout(s);
    assert WellFormed(Encode(s));
    DecodeIffEncode(Encode(s), s);
  }
}
