# wallter core, modelled in Dafny

wallter is a desktop wallpaper manager. This project models the parts of it
that hold its logic, and proves properties about them:

- **Night Light codec** (`NightlightFormat`, `Nightlight`). Windows keeps the
  Night Light state in a registry value as a binary blob. The blob holds a
  struct header, a 5-byte variable-length timestamp, a size byte, the header
  again, the optional "enabled" marker `10 00`, a block of opaque bytes and a
  4-byte footer. The model includes:
  - the decoder and encoder;
  - the state object whose `enable`/`disable` flip the flag and stamp the time;
  - the read-modify-write operations `enable`, `disable` and `toggle`, which
    work against the registry value.
- **API source configuration** (`ApiSource`): the `Source` record and its
  builder methods. The model also states the invariant the builders keep:
  `valid` holds exactly when no key is required or a key is present.
- **Colour configuration** (`ColorConfig`):
  - filtering colours against the 29 allowed hex codes;
  - the random selection of `count` distinct colours, done as an in-place
    Fisher–Yates shuffle followed by taking a prefix.
- **Colour mode** (`ColorMode`):
  - resolving the requested mode against the detected system mode;
  - the toggle target;
  - the guard that refuses to set `auto` as the system theme;
  - the display names.
- **Path configuration** (`ConfigFormat`, `PathConfig`):
  - the config-file format and its extension;
  - detecting the format from a path's extension;
  - the directory layout under `~/Pictures/Wallter`;
  - the `&mut self` helper that rebuilds the config-file path.
- **Monitor orientation** (`MonitorOrientation`): orientation computed from a
  resolution, and its display names.
- **Printing helpers** (`Print`): the field and heading lines produced by
  `pout_field`, `pout_heading` and the `printf!`/`printh!` macros, modelled as
  the strings they write.

`wrappers.dfy` holds the `Option` and `Result` types used throughout.

Paths are modelled as sequences of components, so `join` appends one
component. The registry value is a `BlobStore` object with three fields:
whether the key exists, whether it may be written, and its bytes. The
current time is a `now` parameter. The random number generator is a
sequence of draws.

The Night Light format description at
`src/config/color/mode/windows/nightlight.rs:19-23` says the fifth timestamp
byte carries bits 28-31. The model follows the encoder that this comment
describes, but lets that byte carry bits 28-34: seven bits, with the top bit
clear. Both readings agree on every 32-bit timestamp. The round trip is
proved for all timestamps below 2^35.

## Model

| member | source | states |
|---|---|---|
| NightlightFormat.EncodeTimestamp | src/config/color/mode/windows/nightlight.rs:17-23 | five bytes; bytes 0-3 carry 7-bit groups of the timestamp with the top bit set, byte 4 carries bits 28 and up with the top bit clear |
| NightlightFormat.DecodeTimestamp | src/config/color/mode/windows/nightlight.rs:17-23 | takes the low 7 bits of bytes 0-3 and byte 4 whole (8 bits), so the value is below 2^36; `TimestampBytesRoundTrip` ties it to the encoder |
| NightlightFormat.TimestampRoundTrip | src/config/color/mode/windows/nightlight.rs:446-451 | decoding the encoding of any timestamp below 2^35 gives it back |
| NightlightFormat.TimestampBytesRoundTrip | src/config/color/mode/windows/nightlight.rs:17-23 | every canonical 5-byte group is the encoding of the timestamp it decodes to |
| NightlightFormat.Inner | src/config/color/mode/windows/nightlight.rs:220-228 | the block after the size byte is the header, the marker only when enabled, and the remaining data, with lengths adding up |
| NightlightFormat.SizeByte | src/config/color/mode/windows/nightlight.rs:230-233 | the size byte is the inner block's length plus one whenever that fits in a byte |
| NightlightFormat.Encode | src/config/color/mode/windows/nightlight.rs:209-237 | the blob's length is the fixed prefix, the inner block and the footer |
| NightlightFormat.EncodeLayout | src/config/color/mode/windows/nightlight.rs:209-237 | every field of the blob sits at its fixed offset: header, timestamp lead and bytes, suffix, size byte, header, marker when enabled, remaining data, footer |
| NightlightFormat.Decode | src/config/color/mode/windows/nightlight.rs:120-205 | on success: both headers, the footer and the length equation hold, and the timestamp, flag and remaining data are read from their positions in the layout; the error of each failing check is stated by `DecodeErrors` and `SizeByteAccounting`, and the accepted state by `DecodeAccepts` |
| NightlightFormat.DecodeAccepts | src/config/color/mode/windows/nightlight.rs:160-204 | once both headers and the length check pass, and the slice fits and the footer matches, the blob is accepted, giving the timestamp, the marker test's flag and the bytes before the footer |
| NightlightFormat.DecodeErrors | src/config/color/mode/windows/nightlight.rs:120-194 | the error of each failing check, in the source's order: first header (with the bytes found), short timestamp block, missing size byte, zero size byte, second header, remaining-data slice, footer |
| NightlightFormat.DecodeEncode | src/config/color/mode/windows/nightlight.rs:432-443 | deserialize(serialize(s)) == s for every state that fits the format |
| NightlightFormat.DecodedRoundTrips | src/config/color/mode/windows/nightlight.rs:169-177 | a state decoded from a well-formed blob fits the format, so it round-trips |
| NightlightFormat.EncodeDecode | src/config/color/mode/windows/nightlight.rs:179-188 | serialize(deserialize(b)) == b for every well-formed blob: the opaque bytes are written back verbatim |
| NightlightFormat.DecodeIffEncode | src/config/color/mode/windows/nightlight.rs:120-237 | a well-formed blob decodes to s exactly when s fits the format and the blob is its encoding |
| NightlightFormat.SizeByteAccounting | src/config/color/mode/windows/nightlight.rs:142-158 | a blob that decodes has exactly size-1 bytes plus the footer after the size byte, and any other length is rejected with the struct-size error |
| NightlightFormat.FixtureTimestamp | src/config/color/mode/windows/nightlight.rs:365-367 | 1742670473 encodes to 89 95 FC BE 06 |
| NightlightFormat.FixtureEncodingDisabled | src/config/color/mode/windows/nightlight.rs:381-391 | the disabled fixture state serializes to the 41-byte fixture |
| NightlightFormat.FixtureEncodingEnabled | src/config/color/mode/windows/nightlight.rs:393-402 | the enabled fixture state serializes to the 43-byte fixture |
| NightlightFormat.FixtureDecodings | src/config/color/mode/windows/nightlight.rs:406-429 | both fixtures deserialize to their states |
| NightlightFormat.MarkerAmbiguity | src/config/color/mode/windows/nightlight.rs:169-177 | a disabled state whose remaining data is `10 00` reads back as enabled with no remaining data |
| NightlightFormat.MarkerReadsIntoFooter | src/config/color/mode/windows/nightlight.rs:169-187 | a disabled state whose remaining data is `10` reads back as the remaining-data-slice error, because the marker test also looks at the footer |
| NightlightFormat.SizeByteWraps | src/config/color/mode/windows/nightlight.rs:232-233 | with 251 bytes of remaining data the size byte wraps to 0 and the blob is refused |
| NightlightFormat.OversizedNeverRoundTrips | src/config/color/mode/windows/nightlight.rs:232-233 | no state whose inner block is 255 bytes or longer reads back as itself |
| Nightlight.SetEnabled | src/config/color/mode/windows/nightlight.rs:250-279 | the flag becomes `on`; the timestamp becomes `now` only when the flag changed; the remaining data is untouched |
| Nightlight.LoadState | src/config/color/mode/windows/nightlight.rs:70-91 | reading fails with NotFound when the key is missing and with the parse error when the bytes do not decode; otherwise gives the decoded state |
| Nightlight.StoreState | src/config/color/mode/windows/nightlight.rs:94-116 | writing stores the encoding when the key exists and is writable; otherwise fails with PermissionDenied and changes nothing |
| Nightlight.SetFlagInStore | src/config/color/mode/windows/nightlight.rs:313-344 | a read failure is passed through without a write, and the stored value changes only on a reported change |
| Nightlight.ToggleInStore | src/config/color/mode/windows/nightlight.rs:351-359 | a read failure is passed through; after a successful read it succeeds exactly when the value is writable, and then reports `(true, !previous)` |
| Nightlight.BlobStore.Read | src/config/color/mode/windows/nightlight.rs:80-89 | gives the stored bytes, or NotFound when the key is missing |
| Nightlight.BlobStore.Write | src/config/color/mode/windows/nightlight.rs:99-115 | replaces the bytes when the key exists and is writable, else PermissionDenied with the bytes unchanged |
| Nightlight.State.DeserializeFromBytes | src/config/color/mode/windows/nightlight.rs:120-205 | the cursor-driven parser succeeds exactly when `Decode` does, builds a fresh state equal to its value, and otherwise reports its error |
| Nightlight.State.SerializeToBytes | src/config/color/mode/windows/nightlight.rs:209-237 | the bytes appended step by step are `Encode` of the state |
| Nightlight.State.Enable | src/config/color/mode/windows/nightlight.rs:250-262 | reports a change exactly when it was disabled; the new state is `SetEnabled(old, true, now)` |
| Nightlight.State.Disable | src/config/color/mode/windows/nightlight.rs:267-279 | reports a change exactly when it was enabled; the new state is `SetEnabled(old, false, now)` |
| Nightlight.State.ReadFrom | src/config/color/mode/windows/nightlight.rs:70-91 | agrees with `LoadState` on the store's contents |
| Nightlight.State.WriteTo | src/config/color/mode/windows/nightlight.rs:94-116 | its result and the store's new contents are `StoreState` of the old contents |
| Nightlight.State.EnableAndSave | src/config/color/mode/windows/nightlight.rs:282-288 | enables; writes only when that changed something; reports the change or the write error |
| Nightlight.State.DisableAndSave | src/config/color/mode/windows/nightlight.rs:291-297 | disables; writes only when that changed something; reports the change or the write error |
| Nightlight.GetState | src/config/color/mode/windows/nightlight.rs:301-303 | agrees with `LoadState` |
| Nightlight.IsEnabled | src/config/color/mode/windows/nightlight.rs:306-308 | gives the loaded state's flag or the load error |
| Nightlight.SetFlag | src/config/color/mode/windows/nightlight.rs:313-344 | the shared body of the module `enable`/`disable`: result and new store are `SetFlagInStore(old, on, now)` |
| Nightlight.Enable | src/config/color/mode/windows/nightlight.rs:313-326 | result and new store are `SetFlagInStore(old, true, now)` |
| Nightlight.Disable | src/config/color/mode/windows/nightlight.rs:331-344 | result and new store are `SetFlagInStore(old, false, now)` |
| Nightlight.Toggle | src/config/color/mode/windows/nightlight.rs:351-359 | result and new store are `ToggleInStore(old, now)` |
| Nightlight.SetEnabledIdempotent | src/config/color/mode/windows/nightlight.rs:255-261 | setting the same flag twice equals setting it once |
| Nightlight.SetEnabledUndo | src/config/color/mode/windows/nightlight.rs:250-279 | flipping and flipping back restores everything except the timestamp |
| Nightlight.StoreWrittenOnlyOnChange | src/config/color/mode/windows/nightlight.rs:313-344 | the store changes only on `Ok(true)` and then holds the new encoding; asking for the flag already set gives `Ok(false)` |
| Nightlight.SetFlagPersists | src/config/color/mode/windows/nightlight.rs:470-489 | when the flag differs, the value is writable and the new state fits the format (`RoundTrips`), reading back after the change gives the flag asked for, time `now` and the same remaining data |
| Nightlight.ToggleFlips | src/config/color/mode/windows/nightlight.rs:509-519 | for a writable store holding a `Flippable` state (the flipped state fits the format) and `now` below 2^35, a toggle reports `(true, !initial)` and reading back gives the flipped state |
| Nightlight.ToggleTwiceRestores | src/config/color/mode/windows/nightlight.rs:509-528 | for a writable store holding a `Flippable` state, two toggles report `(true, !initial)` then `(true, initial)` and restore flag and remaining data |
| Nightlight.ToggleMisreadsMarker | src/config/color/mode/windows/nightlight.rs:169-177 | an enabled state whose remaining data is `10 00`: the toggle reports `(true, false)`, but the value read back is still enabled |
| Nightlight.LoadedBlobIsEncoding | src/config/color/mode/windows/nightlight.rs:432-443 | a well-formed blob that loads is exactly the encoding of the loaded state |
| ApiSource.Default | src/config/api/source.rs:78-93 | name "Unknown", empty URL, no key, no query, key not required, enabled, valid, no params |
| ApiSource.New | src/config/api/source.rs:157-167 | the given name, URL and key requirement over the defaults; valid exactly when no key is required |
| ApiSource.WithApiKey | src/config/api/source.rs:177-182 | sets the key and marks the source valid; keeps the validity invariant |
| ApiSource.ClearApiKey | src/config/api/source.rs:189-195 | removes the key; valid exactly when no key is required; keeps the validity invariant |
| ApiSource.WithDefaultQuery | src/config/api/source.rs:202-205 | changes only the default query |
| ApiSource.ClearDefaultQuery | src/config/api/source.rs:208-211 | changes only the default query, to none |
| ApiSource.WithParams | src/config/api/source.rs:230-240 | replaces the parameter map and nothing else |
| ApiSource.WithEnabled | src/config/api/source.rs:249-252 | changes only the enabled flag |
| ApiSource.Enable | src/config/api/source.rs:259-262 | is `WithEnabled(true)` |
| ApiSource.StepPreservesConsistent | src/config/api/source.rs:177-262 | every builder keeps "valid iff no key required or key present" |
| ApiSource.BuiltSourcesConsistent | src/config/api/source.rs:157-262 | any chain of builders starting from `new` yields a consistent source |
| ApiSource.KeyBuildersRepair | src/config/api/source.rs:177-195 | the key builders leave a consistent source even from an inconsistent one; the enable builders neither repair nor break it |
| ApiSource.EnableKeepsStaleValid | src/config/api/default.rs:37-42 | a source built by struct update from the defaults with a key required keeps `valid` true without a key |
| ApiSource.ClearUndoesSet | src/config/api/source.rs:177-195 | clearing a key just set is the same as clearing it directly |
| ColorConfig.AllowedColorsDistinct | src/config/color/default.rs:13-19 | the allowed list has 29 distinct entries |
| ColorConfig.Keep | src/config/color/default.rs:68-73 | the kept colours are allowed, and each allowed colour keeps its multiplicity |
| ColorConfig.ValidateColors | src/config/color/default.rs:68-73 | output only allowed colours, each with its input multiplicity; drops every other |
| ColorConfig.ValidateKeepsOrder | src/config/color/default.rs:68-73 | filtering distributes over concatenation and keeps a single colour exactly when it is allowed, so input order is kept |
| ColorConfig.ValidateIdempotent | src/config/color/default.rs:68-73 | filtering twice is filtering once |
| ColorConfig.New | src/config/color/default.rs:46-51 | the given mode, and the colours filtered |
| ColorConfig.WithMode | src/config/color/default.rs:55-58 | changes the mode only |
| ColorConfig.WithColors | src/config/color/default.rs:62-65 | keeps the mode and replaces the colours by the filtered list |
| ColorConfig.Shuffle | src/config/color/default.rs:94-95 | the array after shuffling is a permutation of the array before |
| ColorConfig.ShuffledPrefix | src/config/color/default.rs:87-100 | from a list of distinct entries: all of them in some order when count is large enough, else exactly `count` distinct entries of the list |
| ColorConfig.RandomizeColors | src/config/color/default.rs:80-101 | empty for 0; a permutation of all allowed colours when count ≥ 29; otherwise `count` distinct allowed colours |
| ColorConfig.DefaultConfig | src/config/color/default.rs:35-42 | mode `auto` and 5 distinct allowed colours |
| ColorMode.DefaultMode | src/config/color/mode/default.rs:27-34 | the default is `auto` |
| ColorMode.ResolveTargetMode | src/config/color/mode/default.rs:95-104 | an explicit mode is its own target; `auto` resolves to the detected mode |
| ColorMode.SetSystemTheme | src/config/color/mode/default.rs:107-116 | fails with the "cannot set auto" error exactly for `auto` |
| ColorMode.Apply | src/config/color/mode/default.rs:53-65 | does nothing exactly when the target equals the detected mode; otherwise requests a concrete mode different from it |
| ColorMode.ToggleTarget | src/config/color/mode/default.rs:69-92 | never `auto`, always different from the detected mode, light exactly when the detected mode is not light |
| ColorMode.ToggleTheme | src/config/color/mode/default.rs:69-92 | always succeeds, requesting the toggle target |
| ColorMode.ModeName | src/config/color/mode/default.rs:150-158 | a lower-case name of 4 or 5 letters |
| ColorMode.ApplyNeverFails | src/config/color/mode/default.rs:53-65 | for every setting and detected mode, `apply` never errors; it does nothing exactly when the setting is `auto` or equals the detected mode, and otherwise sets the setting |
| ColorMode.ToggleTwice | src/config/color/mode/default.rs:207-224 | toggling twice returns to a concrete mode; from `auto` it settles on dark |
| ColorMode.ModeNameInjective | src/config/color/mode/default.rs:165-169 | different modes display differently |
| ConfigFormat.DefaultFormat | src/config/path/types.rs:5-10 | the default format is TOML |
| ConfigFormat.Extension | src/config/path/types.rs:14-19 | a four-letter lower-case extension |
| ConfigFormat.FileName | src/config/path/types.rs:24 | the last component, unless the path is empty or ends in `..` |
| ConfigFormat.LastDot | src/config/path/types.rs:24 | the index of the last dot in a name, or none exactly when it has no dot |
| ConfigFormat.NameExtension | src/config/path/types.rs:24 | the text after the last dot, and none when there is no dot or the only dot leads the name |
| ConfigFormat.PathExtension | src/config/path/types.rs:23-25 | the extension of the path's file name |
| ConfigFormat.AsciiLower | src/config/path/types.rs:26 | each letter A-Z lowered, every other character kept |
| ConfigFormat.FromExtension | src/config/path/types.rs:22-32 | fails with "Unknown config file format" exactly when there is no extension; JSON exactly for a case-insensitive `json` |
| ConfigFormat.FromExtensionOfName | src/config/path/types.rs:22-32 | for `stem.ext`: JSON when `ext` lowers to `json`, TOML for any other extension |
| ConfigFormat.FromExtensionRoundTrip | src/config/path/types.rs:14-32 | a file named `stem.<extension(f)>` is detected as `f` |
| ConfigFormat.FromExtensionIgnoresCase | src/config/path/types.rs:26-28 | any capitalisation of an extension detects its format |
| ConfigFormat.MixedCaseExtensions | src/config/path/types.rs:26-28 | `TOML` and `Json` lower to the two extensions |
| ConfigFormat.UnknownExtensionIsToml | src/config/path/types.rs:29 | an unrecognised extension falls back to TOML |
| ConfigFormat.MissingExtensionFails | src/config/path/types.rs:31 | the empty path, a dotless name and a dot-file all fail |
| PathConfig.Capitalize | src/config/path/default.rs:44-50 | the first letter upper-cased, the rest kept |
| PathConfig.HomeDir | src/config/path/default.rs:52-57 | the user's home joined with `Pictures` and `Wallter` |
| PathConfig.ConfigFilePath | src/config/path/default.rs:152-158 | the home directory joined with `name.ext` |
| PathConfig.Config.constructor | src/config/path/default.rs:43-74 | the home, downloads, favorites and wallpaper directories, name `config`, TOML, and `config.toml` under the home |
| PathConfig.Config.UpdateConfigFile | src/config/path/default.rs:152-158 | rebuilds the config file from name and type and changes nothing else |
| PathConfig.Config.WithConfigName | src/config/path/default.rs:138-142 | sets the name and rebuilds the config file |
| PathConfig.Config.WithType | src/config/path/default.rs:145-149 | sets the type and rebuilds the config file |
| PathConfig.ConfigFileNamesItsFormat | src/config/path/default.rs:152-182 | the config file built from a non-empty name is detected as its own type |
| PathConfig.EmptyNameHasNoFormat | src/config/path/default.rs:138-158 | with an empty name the file is `.toml` or `.json`, which has no extension |
| MonitorOrientation.FromResolution | src/config/monitor/orientation.rs:20-26 | landscape exactly when wider, portrait exactly when taller, square exactly when equal |
| MonitorOrientation.SwapRotates | src/config/monitor/orientation.rs:20-26 | swapping width and height swaps landscape and portrait and keeps square |
| MonitorOrientation.OrientationName | src/config/monitor/orientation.rs:29-36 | a capitalised name |
| MonitorOrientation.OrientationNameInjective | src/config/monitor/orientation.rs:29-36 | different orientations display differently |
| Print.Spaces | src/utils/print.rs:17 | `n` spaces |
| Print.PadRight | src/utils/print.rs:17 | the key followed by spaces up to `pad`, never truncated |
| Print.PoutField | src/utils/print.rs:10-18 | the line's length is indent, the padded key, the separator, the value and one newline, and it ends in the newline; the full layout is `FieldLayout` |
| Print.PoutHeading | src/utils/print.rs:21-27 | the line's length is indent, text and one newline, and it ends in the newline; the full layout is `HeadingLayout` |
| Print.PrintField | src/utils/print.rs:38-40 | the three-argument `printf!`: a line of indent 4 and pad 24; the column positions are `MacroDefaults` |
| Print.PrintFieldPadded | src/utils/print.rs:35-37 | the four-argument `printf!`: a line of indent 4 and the given pad; the key's position is `MacroDefaults` |
| Print.PrintHeading | src/utils/print.rs:49-51 | the two-argument `printh!`: indent 2; `MacroDefaults` gives the whole line |
| Print.FieldLayout | src/utils/print.rs:10-18 | indent, key, padding to column `indent + max(pad, len)`, then the separator (equals sign, bar, space), the value and one newline |
| Print.HeadingLayout | src/utils/print.rs:21-27 | indent, text and one newline, nothing else |
| Print.MacroDefaults | src/utils/print.rs:31-52 | the macro forms indent fields by 4 and headings by 2, and pad fields to 24 |

## Left out

- The Windows registry is a `BlobStore` object. The key path and value name are not modelled. Neither are the error message texts: only the error kinds (NotFound for reads, PermissionDenied for writes) are kept.
- `src/consts.rs` and `src/utils/parse.rs` are not part of this model. The header, timestamp-lead, suffix and footer bytes are taken from the fixtures at `src/config/color/mode/windows/nightlight.rs:365-378`. `last_modified_timestamp_block` is modelled as taking the 14 bytes after the header: six lead bytes, five timestamp bytes and three suffix bytes. It fails only when the blob is too short. The lead and suffix bytes are not checked, because that code is not available; the laws that rebuild a blob from its decoded state require them to have the values the encoder writes.
- The source reports most parse failures as `Block(String)` messages. The model gives each of them its own structured error case, carrying the same numbers.
- NightlightFormat.Decode: a size byte of 0 makes the source subtract 1 from an unsigned zero, which panics in debug builds. The model rejects such blobs with `SizeByteUnderflow`.
- Nightlight.SetFlagPersists: proved only when the new state fits the format (`RoundTrips`). Otherwise the value written does not read back as the state written. The causes are the marker test at `src/config/color/mode/windows/nightlight.rs:169-177`, which takes remaining data starting with `10 00` for the marker, and the size byte wrapping at 255 bytes (`MarkerAmbiguity`, `OversizedNeverRoundTrips`).
- Nightlight.ToggleFlips: the persistence half is proved only for `Flippable` states, for the same cause. `ToggleMisreadsMarker` exhibits a toggle that reports a flip while the value read back keeps the old flag. The reported result `(true, !initial)` holds for every readable, writable value (`ToggleInStore`).
- Nightlight.ToggleTwiceRestores: proved only for `Flippable` states, for the same cause. The source's toggle test assumes it for any registry value.
- NightlightFormat.TimestampRoundTrip: timestamps of 2^35 and above lose their high bits in the 5-byte encoding, so the round trip is stated only below 2^35.
- The current time (`SystemTime::now`) is the `now` parameter. The `[DEBUG]` `println!` output is not modelled.
- The `State` value's `Debug`, `Clone` and `PartialEq` derives are not modelled. Neither is the test that needs a live registry (`test_standalone_nightlight_operations`).
- `detect_current`, the platform theme managers and the post-toggle re-detection are not modelled, because they call the operating system. The detected mode is a parameter, and setting the theme is the `Set` step of a plan.
- ColorConfig.RandomizeColors: the random number generator is a sequence of draws. The shuffle is modelled as a Fisher–Yates pass, which is what `SliceRandom::shuffle` does. The contract states the permutation and distinctness, not uniformity.
- Lower- and upper-casing (`to_lowercase`, `to_uppercase`) are modelled for ASCII letters only. Other Unicode case mappings are not modelled.
- Paths: the model has no `to_str` failure for non-UTF-8 names. It also does not model `.` components, separators inside a component, or the rule that joining an absolute path replaces the base.
- The user's home directory lookup (`directories::UserDirs`) is a parameter. Its panic when no home exists is not modelled.
- The filesystem operations `create_all`, `create_wallpaper_dirs`, `get_wallpaper_dir`, `create_config_dirs`, `create_config_file` and `config_exists` are not modelled, because they do I/O.
- The duplicate `Type` enum in `src/config/path/default.rs:161-182` has the same code as `src/config/path/types.rs`. Both are modelled by `ConfigFormat`.
- The `Display` implementations of `Source`, the colour `Config` and the path `Config` are not modelled: they only format fields through the printing helpers. Serde and clap derives are not modelled either.
- Print: formatter errors are not modelled. The displayed value is given as its string.
