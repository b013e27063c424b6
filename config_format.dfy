/**
 * The configuration file formats and how a format is recognised from a path's
 * extension. A path is the sequence of its components; the extension is
 * taken from the last one the way Rust's `Path::extension` does.
 */
module ConfigFormat {
  import opened Wrappers

  datatype Format = Toml | Json

  /** A path as its normalised components, e.g. `["home", "me", "config.toml"]`. */
  type Path = seq<string>

  const UNKNOWN_FORMAT: string := "Unknown config file format"

  function DefaultFormat(): (f: Format)
    ensures f == Toml
  {
    Toml
  }

  /** The file extension for a format, without the dot. */
  function Extension(f: Format): (e: string)
    ensures |e| == 4 && forall i :: 0 <= i < |e| ==> 'a' <= e[i] <= 'z'
  {
    match f
    case Toml => "toml"
    case Json => "json"
  }

  /** `Path::file_name`: the last component, unless there is none or it is "..". */
  function FileName(p: Path): (r: Option<string>)
    ensures r.Some? <==> |p| > 0 && p[|p| - 1] != ".."
    ensures r.Some? ==> r.value == p[|p| - 1]
  {
    if |p| == 0 || p[|p| - 1] == ".." then None else Some(p[|p| - 1])
  }

  /** The position of the last '.' in `s`, if any. */
  function LastDot(s: string): (r: Option<nat>)
    ensures r.None? <==> forall i :: 0 <= i < |s| ==> s[i] != '.'
    ensures r.Some? ==> r.value < |s| && s[r.value] == '.'
    ensures r.Some? ==> forall i :: r.value < i < |s| ==> s[i] != '.'
  {
    if |s| == 0 then None
    else if s[|s| - 1] == '.' then Some(|s| - 1)
    else LastDot(s[..|s| - 1])
  }

  /**
   * The extension of a file name: the text after the last dot, unless there is
   * no dot or the only dot is the leading one of a hidden file such as ".toml".
   */
  function NameExtension(name: string): (r: Option<string>)
    ensures r.Some? ==> LastDot(name).Some? && LastDot(name).value > 0 && r.value == name[LastDot(name).value + 1..]
    ensures r.None? ==> LastDot(name).None? || LastDot(name).value == 0
  {
    match LastDot(name)
    case None => None
    case Some(i) => if i == 0 then None else Some(name[i + 1..])
  }

  /** `Path::extension`. */
  function PathExtension(p: Path): (r: Option<string>)
    ensures r.Some? ==> FileName(p).Some? && NameExtension(FileName(p).value) == r
  {
    match FileName(p)
    case None => None
    case Some(name) => NameExtension(name)
  }

  function AsciiLowerChar(c: char): (l: char)
    ensures 'A' <= c <= 'Z' ==> l == c - 'A' + 'a'
    ensures !('A' <= c <= 'Z') ==> l == c
  {
    if 'A' <= c <= 'Z' then c - 'A' + 'a' else c
  }

  /** `str::to_lowercase`, for ASCII letters. */
  function AsciiLower(s: string): (l: string)
    ensures |l| == |s| && forall i :: 0 <= i < |s| ==> l[i] == AsciiLowerChar(s[i])
  {
    seq(|s|, i requires 0 <= i < |s| => AsciiLowerChar(s[i]))
  }

  /**
   * `from_extension`: "toml" and "json" in any case name their format, any
   * other extension falls back to the default, and a path without an
   * extension is an error.
   */
  function FromExtension(p: Path): (r: Result<Format, string>)
    ensures r.Failure? <==> PathExtension(p).None?
    ensures r.Failure? ==> r.error == UNKNOWN_FORMAT
    ensures r.Success? && r.value == Json <==> PathExtension(p).Some? && AsciiLower(PathExtension(p).value) == "json"
  {
    match PathExtension(p)
    case None => Failure(UNKNOWN_FORMAT)
    case Some(ext) =>
      var lower := AsciiLower(ext);
      if lower == "toml" then Success(Toml)
      else if lower == "json" then Success(Json)
      else Success(DefaultFormat())
  }

  /** A dot followed by dot-free text is the last dot. */
  lemma LastDotOfSuffix(stem: string, ext: string)
    requires forall i :: 0 <= i < |ext| ==> ext[i] != '.'
    ensures LastDot(stem + "." + ext) == Some(|stem|)
  {
    var s := stem + "." + ext;
    assert s[|stem|] == '.';
    var r := LastDot(s);
    assert r.Some?;
    assert r.value >= |stem|;
    assert r.value <= |stem|;
  }

  /** The extension of `stem.ext` is `ext` when the stem is not empty and `ext` has no dot. */
  lemma NameExtensionOf(stem: string, ext: string)
    requires stem != "" && forall i :: 0 <= i < |ext| ==> ext[i] != '.'
    ensures NameExtension(stem + "." + ext) == Some(ext)
  {
    LastDotOfSuffix(stem, ext);
    assert (stem + "." + ext)[|stem| + 1..] == ext;
  }

  /** The format `from_extension` reads off a file named `stem.ext`. */
  lemma FromExtensionOfName(dir: Path, stem: string, ext: string)
    requires stem != "" && (stem != "." || ext != "")
    requires forall i :: 0 <= i < |ext| ==> ext[i] != '.'
    ensures var r := FromExtension(dir + [stem + "." + ext]);
      && r.Success?
      && (AsciiLower(ext) == "json" <==> r.value == Json)
  {
    var name := stem + "." + ext;
    if |stem| == 1 && |ext| == 0 {
      assert name[0] == stem[0] && stem == [stem[0]];
    }
    assert name != "..";
    NameExtensionOf(stem, ext);
    assert FileName(dir + [name]) == Some(name);
  }

  /** A file named `stem.<extension of f>` is recognised as `f`, whatever directory it is in. */
  lemma FromExtensionRoundTrip(dir: Path, stem: string, f: Format)
    requires stem != ""
    ensures FromExtension(dir + [stem + "." + Extension(f)]) == Success(f)
  {
    FromExtensionOfName(dir, stem, Extension(f));
    assert AsciiLower(Extension(f)) == Extension(f);
  }

  /** Recognition ignores case: an extension whose lower-case form names a format gives that format. */
  lemma FromExtensionIgnoresCase(dir: Path, stem: string, ext: string, f: Format)
    requires stem != "" && AsciiLower(ext) == Extension(f)
    ensures FromExtension(dir + [stem + "." + ext]) == Success(f)
  {
    assert forall i :: 0 <= i < |ext| ==> AsciiLowerChar(ext[i]) == Extension(f)[i];
    FromExtensionOfName(dir, stem, ext);
  }

  /** "TOML" and "Json" are recognised. */
  lemma MixedCaseExtensions()
    ensures AsciiLower("TOML") == Extension(Toml) && AsciiLower("Json") == Extension(Json)
  {
    assert AsciiLower("TOML") == "toml";
    assert AsciiLower("Json") == "json";
  }

  /** Any other extension falls back to TOML. */
  lemma UnknownExtensionIsToml(dir: Path, stem: string, ext: string)
    requires stem != "" && (stem != "." || ext != "")
    requires forall i :: 0 <= i < |ext| ==> ext[i] != '.'
    requires AsciiLower(ext) != "json"
    ensures FromExtension(dir + [stem + "." + ext]) == Success(Toml)
  {
    FromExtensionOfName(dir, stem, ext);
  }

  /** No extension is an error: no file name, a name without a dot, or a hidden file such as ".toml". */
  lemma MissingExtensionFails(dir: Path, name: string, ext: string)
    requires forall i :: 0 <= i < |name| ==> name[i] != '.'
    requires forall i :: 0 <= i < |ext| ==> ext[i] != '.'
    ensures FromExtension([]) == Failure(UNKNOWN_FORMAT)
    ensures FromExtension(dir + [name]) == Failure(UNKNOWN_FORMAT)
    ensures FromExtension(dir + ["." + ext]) == Failure(UNKNOWN_FORMAT)
  {
    assert FileName(dir + [name]) == Some(name) || name == "..";
    LastDotOfSuffix("", ext);
    assert "" + "." + ext == "." + ext;
  }
}
