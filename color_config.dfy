/**
 * The colour preferences: a mode and a list of colour tags restricted to a
 * fixed allow-list, and the random choice of distinct colours. The random
 * number generator is the parameter `draws`.
 */
module ColorConfig {
  import opened ColorMode

  const ALLOWED_COLORS: seq<string> := [
    "#660000", "#990000", "#cc0000", "#cc3333", "#ea4c88", "#993399", "#663399",
    "#333399", "#0066cc", "#0099cc", "#66cccc", "#77cc33", "#669900", "#336600",
    "#666600", "#999900", "#cccc33", "#ffff00", "#ffcc33", "#ff9900", "#ff6600",
    "#cc6633", "#996633", "#663300", "#000000", "#999999", "#cccccc", "#ffffff",
    "#424153"
  ]

  const DEFAULT_RANDOM_COLOR_COUNT: nat := 5

  /** No value occurs twice. */
  predicate Distinct<T(==)>(s: seq<T>)
  {
    forall i, j :: 0 <= i < j < |s| ==> s[i] != s[j]
  }

  lemma AllowedColorsDistinct()
    ensures |ALLOWED_COLORS| == 29 && Distinct(ALLOWED_COLORS)
  {
  }

  /** The preferences: the desired mode and the colour tags. */
  datatype Config = Config(mode: Mode, colors: seq<string>)

  /** Every tag is on the allow-list. */
  predicate AllAllowed(colors: seq<string>)
  {
    forall c :: c in colors ==> c in ALLOWED_COLORS
  }

  // ---------------------------------------------------------------------------
  // Validation

  /** The tags of `colors` that are in `allowed`, in their order, each as often as given. */
  function Keep(allowed: seq<string>, colors: seq<string>): (r: seq<string>)
    ensures |r| <= |colors| && forall c :: c in r ==> c in allowed
    ensures forall c :: multiset(r)[c] == if c in allowed then multiset(colors)[c] else 0
  {
    if |colors| == 0 then []
    else
      var rest := Keep(allowed, colors[1..]);
      assert colors == [colors[0]] + colors[1..];
      if colors[0] in allowed then [colors[0]] + rest else rest
  }

  /** `validate_colors`: keeps the tags on the allow-list and drops the others. */
  function ValidateColors(colors: seq<string>): (r: seq<string>)
    ensures AllAllowed(r) && |r| <= |colors|
    ensures forall c :: multiset(r)[c] == if c in ALLOWED_COLORS then multiset(colors)[c] else 0
  {
    Keep(ALLOWED_COLORS, colors)
  }

  /** Filtering keeps the order: filtering a concatenation concatenates the filtered parts. */
  lemma {:induction false} KeepAppend(allowed: seq<string>, a: seq<string>, b: seq<string>)
    ensures Keep(allowed, a + b) == Keep(allowed, a) + Keep(allowed, b)
  {
    if |a| > 0 {
      assert (a + b)[0] == a[0];
      assert (a + b)[1..] == a[1..] + b;
      KeepAppend(allowed, a[1..], b);
      var rest := Keep(allowed, a[1..]) + Keep(allowed, b);
      if a[0] in allowed {
        assert Keep(allowed, a + b) == [a[0]] + rest;
        assert Keep(allowed, a) == [a[0]] + Keep(allowed, a[1..]);
        assert [a[0]] + rest == [a[0]] + Keep(allowed, a[1..]) + Keep(allowed, b);
      } else {
        assert Keep(allowed, a + b) == rest;
        assert Keep(allowed, a) == Keep(allowed, a[1..]);
      }
    } else {
      assert a + b == b;
    }
  }

  /** A list of allowed tags passes unchanged. */
  lemma {:induction false} KeepAllowed(allowed: seq<string>, colors: seq<string>)
    requires forall c :: c in colors ==> c in allowed
    ensures Keep(allowed, colors) == colors
  {
    if |colors| > 0 {
      KeepAllowed(allowed, colors[1..]);
    }
  }

  /**
   * Validation is a filter: it distributes over concatenation and keeps a
   * single tag exactly when it is allowed, so it keeps the allowed tags in
   * their order, duplicates included.
   */
  lemma ValidateKeepsOrder(a: seq<string>, b: seq<string>, c: string)
    ensures ValidateColors(a + b) == ValidateColors(a) + ValidateColors(b)
    ensures ValidateColors([c]) == if c in ALLOWED_COLORS then [c] else []
  {
    KeepAppend(ALLOWED_COLORS, a, b);
  }

  /** Validating twice is validating once. */
  lemma ValidateIdempotent(colors: seq<string>)
    ensures ValidateColors(ValidateColors(colors)) == ValidateColors(colors)
  {
    KeepAllowed(ALLOWED_COLORS, ValidateColors(colors));
  }

  // ---------------------------------------------------------------------------
  // Building a configuration

  /** `new`: the given mode and the validated tags. */
  function New(mode: Mode, colors: seq<string>): (r: Config)
    ensures r.mode == mode && r.colors == ValidateColors(colors) && AllAllowed(r.colors)
  {
    Config(mode, ValidateColors(colors))
  }

  /** `with_mode`: only the mode changes. */
  function WithMode(c: Config, mode: Mode): (r: Config)
    ensures r.mode == mode && r.colors == c.colors
  {
    c.(mode := mode)
  }

  /** `with_colors`: the validated tags replace the old ones; the mode stays. */
  function WithColors(c: Config, colors: seq<string>): (r: Config)
    ensures r.mode == c.mode && r.colors == ValidateColors(colors) && AllAllowed(r.colors)
  {
    c.(colors := ValidateColors(colors))
  }

  // ---------------------------------------------------------------------------
  // Random choice of colours

  /**
   * The slice shuffle: for i from the last index down to 1, swap element i
   * with the one at a drawn index in 0..i. `draws` supplies the generator's
   * numbers; once it runs out, no more swaps are made.
   */
  method Shuffle(a: array<string>, draws: seq<nat>)
    modifies a
    ensures multiset(a[..]) == multiset(old(a[..]))
  {
    var i := a.Length;
    var k := 0;
    while i > 1
      invariant 0 <= i <= a.Length
      invariant multiset(a[..]) == multiset(old(a[..]))
    {
      i := i - 1;
      var j := if k < |draws| then draws[k] % (i + 1) else i;
      a[i], a[j] := a[j], a[i];
      k := k + 1;
    }
  }

  /**
   * `randomize_colors`: none for a count of 0; all allowed colours in shuffled
   * order when the count reaches their number; otherwise the first `count`
   * of the shuffled list, so `count` distinct allowed colours.
   */
  method RandomizeColors(count: nat, draws: seq<nat>) returns (colors: seq<string>)
    ensures count == 0 ==> colors == []
    ensures count >= |ALLOWED_COLORS| ==> multiset(colors) == multiset(ALLOWED_COLORS)
    ensures count < |ALLOWED_COLORS| ==> |colors| == count
    ensures Distinct(colors) && AllAllowed(colors)
  {
    AllowedColorsDistinct();
    colors := ShuffledPrefix(ALLOWED_COLORS, count, draws);
  }

  /** Shuffles a copy of `s` and takes its first `count` elements (all of them if `count` is larger). */
  method ShuffledPrefix(s: seq<string>, count: nat, draws: seq<nat>) returns (colors: seq<string>)
    requires Distinct(s)
    ensures count == 0 ==> colors == []
    ensures count >= |s| ==> multiset(colors) == multiset(s)
    ensures count < |s| ==> |colors| == count
    ensures Distinct(colors) && forall c :: c in colors ==> c in s
  {
    if count == 0 {
      return [];
    }
    var a := new string[|s|](i requires 0 <= i < |s| => s[i]);
    assert a[..] == s;
    Shuffle(a, draws);
    if count >= a.Length {
      PrefixOfPermutation(s, a[..], a.Length);
      assert a[..a.Length] == a[..];
      return a[..];
    }
    PrefixOfPermutation(s, a[..], count);
    colors := a[..count];
  }

  /** Any prefix of a permutation of a list without repeats is without repeats and drawn from that list. */
  lemma PrefixOfPermutation(s: seq<string>, p: seq<string>, n: nat)
    requires Distinct(s) && multiset(p) == multiset(s) && n <= |p|
    ensures Distinct(p[..n]) && forall c :: c in p[..n] ==> c in s
  {
    PermutationKeepsDistinct(s, p);
    forall c | c in p[..n]
      ensures c in s
    {
      assert c in multiset(p);
    }
  }

  /** `Default`: follow the system mode, with five random colours. */
  method DefaultConfig(draws: seq<nat>) returns (c: Config)
    ensures c.mode == Auto && |c.colors| == DEFAULT_RANDOM_COLOR_COUNT
    ensures Distinct(c.colors) && AllAllowed(c.colors)
  {
    var colors := RandomizeColors(DEFAULT_RANDOM_COLOR_COUNT, draws);
    c := Config(DefaultMode(), colors);
  }

  /** A list has no repeats exactly when no value occurs in it more than once. */
  lemma {:induction false} DistinctMultiplicity(s: seq<string>)
    ensures Distinct(s) <==> forall x :: multiset(s)[x] <= 1
  {
    if |s| > 0 {
      var t := s[1..];
      DistinctMultiplicity(t);
      assert s == [s[0]] + t;
      assert multiset(s) == multiset{s[0]} + multiset(t);
      if Distinct(s) {
        assert Distinct(t) by {
          forall i, j | 0 <= i < j < |t|
            ensures t[i] != t[j]
          {
            assert t[i] == s[i + 1] && t[j] == s[j + 1];
          }
        }
        assert s[0] !in t;
      }
      if forall x :: multiset(s)[x] <= 1 {
        assert multiset(s)[s[0]] == multiset(t)[s[0]] + 1;
        assert multiset(t)[s[0]] == 0;
        assert forall x :: multiset(t)[x] <= multiset(s)[x];
        forall i, j | 0 <= i < j < |s|
          ensures s[i] != s[j]
        {
          if i == 0 {
            assert s[j] == t[j - 1];
            assert s[j] in multiset(t);
          } else {
            assert s[i] == t[i - 1] && s[j] == t[j - 1];
          }
        }
      }
    }
  }

  /** A permutation of a list without repeats has none either. */
  lemma PermutationKeepsDistinct(s: seq<string>, t: seq<string>)
    requires Distinct(s) && multiset(s) == multiset(t)
    ensures Distinct(t)
  {
    DistinctMultiplicity(s);
    DistinctMultiplicity(t);
  }
}
