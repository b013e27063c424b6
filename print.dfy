/**
 * The padded key/value lines and indented headings the program prints its
 * settings with, as the text each call writes.
 */
module Print {
  /** `n` spaces. */
  function Spaces(n: nat): (s: string)
    ensures |s| == n && forall i :: 0 <= i < n ==> s[i] == ' '
  {
    seq(n, _ => ' ')
  }

  /** `{key:<pad$}`: the key, then spaces up to `pad` characters; a longer key is kept whole. */
  function PadRight(key: string, pad: nat): (s: string)
    ensures |s| == if |key| >= pad then |key| else pad
    ensures s[..|key|] == key
    ensures forall i :: |key| <= i < |s| ==> s[i] == ' '
  {
    if |key| >= pad then key else key + Spaces(pad - |key|)
  }

  const SEPARATOR: string := "=| "

  /** `pout_field`: indent, padded key, the separator, the value and a newline. */
  function PoutField(key: string, value: string, pad: nat, indent: nat): (line: string)
    ensures |line| == indent + (if |key| >= pad then |key| else pad) + |SEPARATOR| + |value| + 1
    ensures line[|line| - 1] == '\n'
  {
    Spaces(indent) + PadRight(key, pad) + SEPARATOR + value + "\n"
  }

  /** `pout_heading`: indent, the text and a newline. */
  function PoutHeading(text: string, indent: nat): (line: string)
    ensures |line| == indent + |text| + 1 && line[|line| - 1] == '\n'
  {
    Spaces(indent) + text + "\n"
  }

  /** The defaults the `printf!` forms fill in: pad 24 and indent 4, or indent 4. */
  const DEFAULT_PAD: nat := 24
  const DEFAULT_FIELD_INDENT: nat := 4
  const DEFAULT_HEADING_INDENT: nat := 2

  /** `printf!(f, key, value)`. */
  function PrintField(key: string, value: string): (line: string)
    ensures |line| == 4 + (if |key| >= 24 then |key| else 24) + |SEPARATOR| + |value| + 1
  {
    PoutField(key, value, DEFAULT_PAD, DEFAULT_FIELD_INDENT)
  }

  /** `printf!(f, key, value, pad)`. */
  function PrintFieldPadded(key: string, value: string, pad: nat): (line: string)
    ensures |line| == 4 + (if |key| >= pad then |key| else pad) + |SEPARATOR| + |value| + 1
  {
    PoutField(key, value, pad, DEFAULT_FIELD_INDENT)
  }

  /** `printh!(f, text)`. */
  function PrintHeading(text: string): (line: string)
    ensures |line| == 2 + |text| + 1
  {
    PoutHeading(text, DEFAULT_HEADING_INDENT)
  }

  /**
   * How a field line reads back: `indent` spaces, then the key, then spaces up
   * to column `indent + max(pad, |key|)`, where "=| " starts; the value
   * follows and the line ends with a single newline.
   */
  lemma FieldLayout(key: string, value: string, pad: nat, indent: nat)
    ensures var line := PoutField(key, value, pad, indent);
      var col := indent + (if |key| >= pad then |key| else pad);
      && |line| == col + |SEPARATOR| + |value| + 1
      && (forall i :: 0 <= i < indent ==> line[i] == ' ')
      && line[indent..indent + |key|] == key
      && (forall i :: indent + |key| <= i < col ==> line[i] == ' ')
      && line[col..col + |SEPARATOR|] == SEPARATOR
      && line[col + |SEPARATOR|..|line| - 1] == value
      && line[|line| - 1] == '\n'
  {
    var line := PoutField(key, value, pad, indent);
    var head := Spaces(indent) + PadRight(key, pad);
    var tail := SEPARATOR + value + "\n";
    assert line == head + tail;
    FieldHead(key, pad, indent);
    FieldTail(value);
    assert line[..|head|] == head;
    assert line[|head|..] == tail;
  }

  /** The part before the separator: the indent, the key, the padding. */
  lemma FieldHead(key: string, pad: nat, indent: nat)
    ensures var head := Spaces(indent) + PadRight(key, pad);
      && |head| == indent + (if |key| >= pad then |key| else pad)
      && (forall i :: 0 <= i < indent ==> head[i] == ' ')
      && head[indent..indent + |key|] == key
      && (forall i :: indent + |key| <= i < |head| ==> head[i] == ' ')
  {
    var padded := PadRight(key, pad);
    var head := Spaces(indent) + padded;
    assert head[indent..] == padded;
    assert head[indent..indent + |key|] == padded[..|key|];
  }

  /** The part from the separator on: the separator, the value, the newline. */
  lemma FieldTail(value: string)
    ensures var tail := SEPARATOR + value + "\n";
      && tail[..|SEPARATOR|] == SEPARATOR
      && tail[|SEPARATOR|..|tail| - 1] == value
      && tail[|tail| - 1] == '\n'
  {
  }

  /**
   * What the macro forms fill in: a three-argument field is indented by 4 and
   * keys of up to 24 characters put the separator at column 28; a
   * four-argument field is indented by 4; a two-argument heading by 2.
   */
  lemma MacroDefaults(key: string, value: string, pad: nat, text: string)
    ensures |key| <= 24 ==> PrintField(key, value)[..4] == "    " && PrintField(key, value)[28..31] == SEPARATOR
    ensures PrintFieldPadded(key, value, pad)[..4] == "    " && PrintFieldPadded(key, value, pad)[4..4 + |key|] == key
    ensures PrintHeading(text) == "  " + text + "\n"
  {
    FieldLayout(key, value, DEFAULT_PAD, DEFAULT_FIELD_INDENT);
    FieldLayout(key, value, pad, DEFAULT_FIELD_INDENT);
    assert Spaces(4) == "    ";
    assert Spaces(2) == "  ";
  }

  /** A heading line is the indent, the text and a newline, and nothing else. */
  lemma HeadingLayout(text: string, indent: nat)
    ensures var line := PoutHeading(text, indent);
      && |line| == indent + |text| + 1
      && (forall i :: 0 <= i < indent ==> line[i] == ' ')
      && line[indent..indent + |text|] == text
      && line[|line| - 1] == '\n'
  {
    var line := PoutHeading(text, indent);
    assert line[indent..indent + |text|] == (Spaces(indent) + text)[indent..];
  }
}
