/**
 * The Night Light state as the program handles it: a `State` object that is
 * decoded from and encoded to the stored blob with a moving cursor and an
 * growing buffer, flipped in place by `Enable`/`Disable`, and the
 * read-modify-write operations that run against the registry value.
 *
 * The registry value is a `BlobStore`: a byte cell that may be missing (reads
 * fail with NotFound) or read-only (writes fail with PermissionDenied). The
 * clock is the parameter `now`.
 */
module Nightlight {
  import opened Wrappers
  import opened NightlightFormat

  datatype IoKind = NotFound | PermissionDenied

  /** The crate error as far as this module raises it. */
  datatype Error = Io(kind: IoKind) | Parse(cause: ParseError)

  /** The registry value as a value: whether the key exists, whether it may be written, its bytes. */
  datatype Cell = Cell(present: bool, writable: bool, data: seq<byte>)

  /** Number of bytes the timestamp block parser consumes: lead, timestamp, suffix. */
  const TIMESTAMP_BLOCK_SIZE: nat := 14

  // ---------------------------------------------------------------------------
  // Specification of the operations on values

  /**
   * What `enable` (on = true) and `disable` (on = false) do to a state: set the
   * flag, and take the new timestamp only when the flag actually changes.
   */
  function SetEnabled(v: StateValue, on: bool, now: u64): (w: StateValue)
    ensures w.isEnabled == on && w.remainingData == v.remainingData
    ensures v.isEnabled == on ==> w == v
    ensures v.isEnabled != on ==> w.timestamp == now
  {
    if v.isEnabled == on then v else StateValue(now, on, v.remainingData)
  }

  /** Reading the state out of the registry value (`read_from_registry`). */
  function LoadState(c: Cell): (r: Result<StateValue, Error>)
    ensures r.Success? <==> c.present && Decode(c.data).Success?
    ensures r.Success? ==> r.value == Decode(c.data).value
    ensures !c.present ==> r == Failure(Io(NotFound))
    ensures c.present && Decode(c.data).Failure? ==> r == Failure(Parse(Decode(c.data).error))
  {
    if !c.present then Failure(Io(NotFound))
    else match Decode(c.data)
      case Success(v) => Success(v)
      case Failure(e) => Failure(Parse(e))
  }

  /** Writing a state into the registry value (`write_to_registry`). */
  function StoreState(c: Cell, v: StateValue): (r: (Result<(), Error>, Cell))
    ensures r.0.Success? <==> c.present && c.writable
    ensures r.0.Success? ==> r.1 == c.(data := Encode(v))
    ensures r.0.Failure? ==> r.0.error == Io(PermissionDenied) && r.1 == c
  {
    if c.present && c.writable then (Success(()), c.(data := Encode(v)))
    else (Failure(Io(PermissionDenied)), c)
  }

  /**
   * The module-level `enable` (on = true) and `disable` (on = false): read the
   * state, and only if the flag differs set it, stamp `now` and write it back.
   * Returns whether a change was made, and the registry value afterwards.
   */
  function SetFlagInStore(c: Cell, on: bool, now: u64): (r: (Result<bool, Error>, Cell))
    ensures LoadState(c).Failure? ==> r == (Failure(LoadState(c).error), c)
    ensures r.1 != c ==> r.0 == Success(true)
  {
    match LoadState(c)
    case Failure(e) => (Failure(e), c)
    case Success(v) =>
      if v.isEnabled == on then (Success(false), c)
      else
        Saved(StoreState(c, SetEnabled(v, on, now)))
  }

  /**
   * The module-level `toggle`: read the flag, then run `disable` if it was set
   * and `enable` otherwise (which reads the registry value a second time).
   * Reports `(true, new flag)`.
   */
  function ToggleInStore(c: Cell, now: u64): (r: (Result<(bool, bool), Error>, Cell))
    ensures LoadState(c).Failure? ==> r == (Failure(LoadState(c).error), c)
    ensures r.0.Success? ==> LoadState(c).Success? && r.0.value == (true, !LoadState(c).value.isEnabled)
    ensures LoadState(c).Success? ==> (r.0.Success? <==> c.writable)
  {
    match LoadState(c)
    case Failure(e) => (Failure(e), c)
    case Success(v) =>
      var (changed, c') := SetFlagInStore(c, !v.isEnabled, now);
      if changed.Failure? then (Failure(changed.error), c') else (Success((true, !v.isEnabled)), c')
  }

  /** The outcome of `*_and_save` once a change was made: the write's error, or `true`. */
  function Saved(written: (Result<(), Error>, Cell)): (r: (Result<bool, Error>, Cell))
    ensures r.1 == written.1
    ensures r.0.Success? <==> written.0.Success?
    ensures r.0.Success? ==> r.0.value
  {
    (if written.0.Failure? then Failure(written.0.error) else Success(true), written.1)
  }

  // ---------------------------------------------------------------------------
  // The registry value

  class BlobStore {
    var present: bool
    var writable: bool
    var data: seq<byte>

    function Value(): Cell
      reads this
    {
      Cell(present, writable, data)
    }

    constructor (present: bool, writable: bool, data: seq<byte>)
      ensures Value() == Cell(present, writable, data)
    {
      this.present := present;
      this.writable := writable;
      this.data := data;
    }

    /** Opens the key for reading and fetches the raw bytes. */
    method Read() returns (r: Result<seq<byte>, Error>)
      ensures present ==> r == Success(data)
      ensures !present ==> r == Failure(Io(NotFound))
    {
      if !present {
        return Failure(Io(NotFound));
      }
      return Success(data);
    }

    /** Opens the key for writing and replaces the raw bytes. */
    method Write(bytes: seq<byte>) returns (r: Result<(), Error>)
      modifies this
      ensures present == old(present) && writable == old(writable)
      ensures r == if present && writable then Success(()) else Failure(Io(PermissionDenied))
      ensures data == if present && writable then bytes else old(data)
    {
      if !present || !writable {
        return Failure(Io(PermissionDenied));
      }
      data := bytes;
      return Success(());
    }
  }

  // ---------------------------------------------------------------------------
  // The state object

  class State {
    /** The last-modified Unix timestamp in seconds. */
    var timestamp: u64
    var isEnabled: bool
    /** The bytes after the marker, kept verbatim to be written back. */
    var remainingData: seq<byte>

    function Value(): StateValue
      reads this
    {
      StateValue(timestamp, isEnabled, remainingData)
    }

    constructor (v: StateValue)
      ensures Value() == v
    {
      timestamp := v.timestamp;
      isEnabled := v.isEnabled;
      remainingData := v.remainingData;
    }

    /**
     * `deserialize_from_bytes`: walks a cursor through the blob and stops at
     * the first check that fails, exactly as `Decode` specifies.
     */
    static method DeserializeFromBytes(data: seq<byte>) returns (r: Result<State, Error>)
      ensures r.Success? <==> Decode(data).Success?
      ensures r.Success? ==> fresh(r.value) && r.value.Value() == Decode(data).value
      ensures r.Failure? ==> r.error == Parse(Decode(data).error)
    {
      DecodeErrors(data);
      var pos: nat := 0;
      var end := pos + |STRUCT_HEADER|;
      if end > |data| || data[pos..end] != STRUCT_HEADER {
        return Failure(Parse(StructHeader(STRUCT_HEADER, if end > |data| then [] else data[pos..end])));
      }
      pos := end;

      // the timestamp block: lead bytes, the five timestamp bytes, suffix bytes
      if |data| - pos < TIMESTAMP_BLOCK_SIZE {
        return Failure(Parse(TimestampBlock));
      }
      var ts := DecodeTimestamp(data[pos + |TIMESTAMP_LEAD|..pos + |TIMESTAMP_LEAD| + TIMESTAMP_SIZE]);
      pos := pos + TIMESTAMP_BLOCK_SIZE;

      if pos >= |data| {
        return Failure(Parse(MissingSizeByte));
      }
      var size := data[pos];
      pos := pos + 1;
      if size == 0 {
        return Failure(Parse(SizeByteUnderflow));
      }
      var expectedLen := size - 1 + |STRUCT_FOOTER|;
      if |data| - pos != expectedLen {
        return Failure(Parse(InvalidStructSize(expectedLen, pos, |data| - pos, size)));
      }

      end := pos + |STRUCT_HEADER|;
      if end > |data| || data[pos..end] != STRUCT_HEADER {
        return Failure(Parse(StructHeader(STRUCT_HEADER, if end > |data| then [] else data[pos..end])));
      }
      pos := end;

      var enabled := false;
      if pos + |ENABLED_MARKER| <= |data| && data[pos..pos + |ENABLED_MARKER|] == ENABLED_MARKER {
        enabled := true;
        pos := pos + |ENABLED_MARKER|;
      }

      var endOfRemaining := if |data| >= |STRUCT_FOOTER| then |data| - |STRUCT_FOOTER| else 0;
      if pos > endOfRemaining {
        return Failure(Parse(InvalidRemainingDataSlice));
      }
      var remaining := data[pos..endOfRemaining];
      pos := pos + |remaining|;

      end := pos + |STRUCT_FOOTER|;
      if end > |data| || data[pos..end] != STRUCT_FOOTER {
        return Failure(Parse(StructFooter));
      }
      assert ts == DecodeTimestamp(data[TIMESTAMP_POS..15]);
      assert enabled == (|data| >= INNER_POS + 6 && data[INNER_POS + 4..INNER_POS + 6] == ENABLED_MARKER);
      assert remaining == data[if enabled then INNER_POS + 6 else INNER_POS + 4..|data| - 4];
      DecodeAccepts(data);
      var state := new State(StateValue(ts, enabled, remaining));
      return Success(state);
    }

    /** `serialize_to_bytes`: appends the parts of the layout one after another. */
    method SerializeToBytes() returns (bytes: seq<byte>)
      ensures bytes == Encode(Value())
    {
      bytes := [];
      bytes := bytes + STRUCT_HEADER;
      bytes := bytes + TIMESTAMP_LEAD;
      var timestampBytes := EncodeTimestamp(timestamp);
      bytes := bytes + timestampBytes;
      bytes := bytes + TIMESTAMP_SUFFIX;

      var content: seq<byte> := [];
      content := content + STRUCT_HEADER;
      if isEnabled {
        content := content + ENABLED_MARKER;
      }
      content := content + remainingData;

      var sizeByte: byte := (|content| + 1) % 0x100;
      bytes := bytes + [sizeByte];
      bytes := bytes + content;
      bytes := bytes + STRUCT_FOOTER;
    }

    /** Sets the flag; stamps `now` and reports a change only if it was clear. */
    method Enable(now: u64) returns (changed: bool)
      modifies this
      ensures changed == !old(isEnabled)
      ensures Value() == SetEnabled(old(Value()), true, now)
    {
      if !isEnabled {
        isEnabled := true;
        timestamp := now;
        return true;
      }
      return false;
    }

    /** Clears the flag; stamps `now` and reports a change only if it was set. */
    method Disable(now: u64) returns (changed: bool)
      modifies this
      ensures changed == old(isEnabled)
      ensures Value() == SetEnabled(old(Value()), false, now)
    {
      if isEnabled {
        isEnabled := false;
        timestamp := now;
        return true;
      }
      return false;
    }

    /** `read_from_registry`. */
    static method ReadFrom(store: BlobStore) returns (r: Result<State, Error>)
      ensures r.Success? <==> LoadState(store.Value()).Success?
      ensures r.Success? ==> fresh(r.value) && r.value.Value() == LoadState(store.Value()).value
      ensures r.Failure? ==> r.error == LoadState(store.Value()).error
    {
      var bytes := store.Read();
      if bytes.Failure? {
        return Failure(bytes.error);
      }
      r := DeserializeFromBytes(bytes.value);
    }

    /** `write_to_registry`. */
    method WriteTo(store: BlobStore) returns (r: Result<(), Error>)
      modifies store
      ensures (r, store.Value()) == StoreState(old(store.Value()), Value())
    {
      var bytes := SerializeToBytes();
      r := store.Write(bytes);
    }

    /**
     * `enable_and_save`: writes only when `Enable` made a change. The flag and
     * timestamp stay changed in memory even when the write fails.
     */
    method EnableAndSave(store: BlobStore, now: u64) returns (r: Result<bool, Error>)
      modifies this, store
      ensures Value() == SetEnabled(old(Value()), true, now)
      ensures old(isEnabled) ==> r == Success(false) && store.Value() == old(store.Value())
      ensures !old(isEnabled) ==> (r, store.Value()) == Saved(StoreState(old(store.Value()), Value()))
    {
      var changed := Enable(now);
      if changed {
        var w := WriteTo(store);
        if w.Failure? {
          return Failure(w.error);
        }
      }
      return Success(changed);
    }

    /** `disable_and_save`, symmetric to `EnableAndSave`. */
    method DisableAndSave(store: BlobStore, now: u64) returns (r: Result<bool, Error>)
      modifies this, store
      ensures Value() == SetEnabled(old(Value()), false, now)
      ensures !old(isEnabled) ==> r == Success(false) && store.Value() == old(store.Value())
      ensures old(isEnabled) ==> (r, store.Value()) == Saved(StoreState(old(store.Value()), Value()))
    {
      var changed := Disable(now);
      if changed {
        var w := WriteTo(store);
        if w.Failure? {
          return Failure(w.error);
        }
      }
      return Success(changed);
    }
  }

  // ---------------------------------------------------------------------------
  // Module-level operations

  /** `get_state`. */
  method GetState(store: BlobStore) returns (r: Result<State, Error>)
    ensures r.Success? <==> LoadState(store.Value()).Success?
    ensures r.Success? ==> fresh(r.value) && r.value.Value() == LoadState(store.Value()).value
    ensures r.Failure? ==> r.error == LoadState(store.Value()).error
  {
    r := State.ReadFrom(store);
  }

  /** `is_enabled`: the stored flag. */
  method IsEnabled(store: BlobStore) returns (r: Result<bool, Error>)
    ensures r.Success? <==> LoadState(store.Value()).Success?
    ensures r.Success? ==> r.value == LoadState(store.Value()).value.isEnabled
    ensures r.Failure? ==> r.error == LoadState(store.Value()).error
  {
    var state := GetState(store);
    if state.Failure? {
      return Failure(state.error);
    }
    return Success(state.value.isEnabled);
  }

  /** The module-level `enable` (on = true) and `disable` (on = false). */
  method SetFlag(store: BlobStore, on: bool, now: u64) returns (r: Result<bool, Error>)
    modifies store
    ensures (r, store.Value()) == SetFlagInStore(old(store.Value()), on, now)
  {
    var read := State.ReadFrom(store);
    if read.Failure? {
      return Failure(read.error);
    }
    var state := read.value;
    if state.isEnabled != on {
      state.isEnabled := on;
      state.timestamp := now;
      var w := state.WriteTo(store);
      if w.Failure? {
        return Failure(w.error);
      }
      return Success(true);
    }
    return Success(false);
  }

  method Enable(store: BlobStore, now: u64) returns (r: Result<bool, Error>)
    modifies store
    ensures (r, store.Value()) == SetFlagInStore(old(store.Value()), true, now)
  {
    r := SetFlag(store, true, now);
  }

  method Disable(store: BlobStore, now: u64) returns (r: Result<bool, Error>)
    modifies store
    ensures (r, store.Value()) == SetFlagInStore(old(store.Value()), false, now)
  {
    r := SetFlag(store, false, now);
  }

  /** `toggle`: reads the flag, then disables or enables. */
  method Toggle(store: BlobStore, now: u64) returns (r: Result<(bool, bool), Error>)
    modifies store
    ensures (r, store.Value()) == ToggleInStore(old(store.Value()), now)
  {
    var enabled := IsEnabled(store);
    if enabled.Failure? {
      return Failure(enabled.error);
    }
    if enabled.value {
      var d := Disable(store, now);
      if d.Failure? {
        return Failure(d.error);
      }
      return Success((true, false));
    } else {
      var e := Enable(store, now);
      if e.Failure? {
        return Failure(e.error);
      }
      return Success((true, true));
    }
  }

  // ---------------------------------------------------------------------------
  // Laws of the read-modify-write cycle

  /**
   * States whose flag can be flipped either way and still be read back: the
   * enabled form fits the size byte, and the disabled form does not start
   * with the enabled marker.
   */
  predicate Flippable(v: StateValue)
  {
    && |v.remainingData| + |STRUCT_HEADER| + |ENABLED_MARKER| + 1 < 0x100
    && (v.remainingData + STRUCT_FOOTER)[..2] != ENABLED_MARKER
  }

  lemma FlippableRoundTrips(v: StateValue, on: bool, now: u64)
    requires Flippable(v) && now < TIMESTAMP_BOUND
    ensures v.isEnabled != on ==> RoundTrips(SetEnabled(v, on, now))
    ensures Flippable(SetEnabled(v, on, now))
  {
  }

  /** Setting the flag twice to the same value is the same as setting it once. */
  lemma SetEnabledIdempotent(v: StateValue, on: bool, now: u64, later: u64)
    ensures SetEnabled(SetEnabled(v, on, now), on, later) == SetEnabled(v, on, now)
  {
  }

  /** Flipping the flag and flipping it back restores everything except the timestamp. */
  lemma SetEnabledUndo(v: StateValue, now: u64, later: u64)
    ensures var w := SetEnabled(SetEnabled(v, !v.isEnabled, now), v.isEnabled, later);
      w == v.(timestamp := later)
  {
  }

  /**
   * The registry value changes only when the flag differed and the write
   * succeeded; asking for the flag it already has leaves it untouched and
   * reports no change.
   */
  lemma StoreWrittenOnlyOnChange(c: Cell, on: bool, now: u64)
    ensures var (r, c') := SetFlagInStore(c, on, now);
      && (r == Success(false) ==> c' == c)
      && (r.Failure? ==> c' == c)
      && (c' != c ==> r == Success(true) && c'.data == Encode(SetEnabled(LoadState(c).value, on, now)))
      && (LoadState(c).Success? && LoadState(c).value.isEnabled == on ==> r == Success(false))
  {
  }

  /**
   * After a successful change the registry value holds the new state: reading
   * it back gives the flag asked for, the timestamp `now` and the same remaining data.
   */
  lemma SetFlagPersists(c: Cell, on: bool, now: u64)
    requires LoadState(c).Success? && c.writable
    requires LoadState(c).value.isEnabled != on
    requires RoundTrips(SetEnabled(LoadState(c).value, on, now))
    ensures var (r, c') := SetFlagInStore(c, on, now);
      && r == Success(true)
      && LoadState(c') == Success(StateValue(now, on, LoadState(c).value.remainingData))
  {
    var v := LoadState(c).value;
    DecodeEncode(SetEnabled(v, on, now));
  }

  /** A successful toggle reports `(true, !previous)` and stores the flipped flag. */
  lemma ToggleFlips(c: Cell, now: u64)
    requires LoadState(c).Success? && c.writable
    requires Flippable(LoadState(c).value) && now < TIMESTAMP_BOUND
    ensures var v := LoadState(c).value;
      var (r, c') := ToggleInStore(c, now);
      && r == Success((true, !v.isEnabled))
      && LoadState(c') == Success(StateValue(now, !v.isEnabled, v.remainingData))
      && Flippable(LoadState(c').value) && c'.writable
  {
    var v := LoadState(c).value;
    FlippableRoundTrips(v, !v.isEnabled, now);
    SetFlagPersists(c, !v.isEnabled, now);
  }

  /** Two toggles restore the original flag and remaining data, stamped with the second time. */
  lemma ToggleTwiceRestores(c: Cell, now: u64, later: u64)
    requires LoadState(c).Success? && c.writable
    requires Flippable(LoadState(c).value) && now < TIMESTAMP_BOUND && later < TIMESTAMP_BOUND
    ensures var v := LoadState(c).value;
      var (r1, c1) := ToggleInStore(c, now);
      var (r2, c2) := ToggleInStore(c1, later);
      && r1 == Success((true, !v.isEnabled))
      && r2 == Success((true, v.isEnabled))
      && LoadState(c2) == Success(StateValue(later, v.isEnabled, v.remainingData))
  {
    ToggleFlips(c, now);
    var c1 := ToggleInStore(c, now).1;
    ToggleFlips(c1, later);
  }

  /**
   * Without `Flippable` a toggle can report a flip that does not happen: an
   * enabled state whose remaining data is 0x10 0x00 is written back disabled,
   * and the decoder reads those two bytes as the marker again, so the
   * registry still says enabled.
   */
  lemma ToggleMisreadsMarker(t: u64, now: u64)
    requires t < TIMESTAMP_BOUND && now < TIMESTAMP_BOUND
    ensures var v := StateValue(t, true, ENABLED_MARKER);
      var c := Cell(true, true, Encode(v));
      var (r, c') := ToggleInStore(c, now);
      && LoadState(c) == Success(v)
      && r == Success((true, false))
      && LoadState(c') == Success(StateValue(now, true, []))
  {
    DecodeEncode(StateValue(t, true, ENABLED_MARKER));
    MarkerAmbiguity(now);
  }

  /** A blob that loads and has the canonical constant bytes is exactly the encoding of the loaded state. */
  lemma LoadedBlobIsEncoding(c: Cell)
    requires LoadState(c).Success? && WellFormed(c.data)
    ensures Encode(LoadState(c).value) == c.data
    ensures RoundTrips(LoadState(c).value)
  {
    EncodeDecode(c.data);
    DecodedRoundTrips(c.data);
  }
}
