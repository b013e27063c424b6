/**
 * The configuration of one wallpaper source API and its builder methods. Each
 * builder takes the record by value and returns the updated copy; the runtime
 * flag `valid` is meant to track whether a required API key is present.
 */
module ApiSource {
  import opened Wrappers

  datatype Source = Source(
    name: string,
    apiKey: Option<string>,
    baseUrl: string,
    defaultQuery: Option<string>,
    requiresApiKey: bool,
    /** the user's intent to use this source */
    enabled: bool,
    /** whether the source is ready for API calls */
    valid: bool,
    params: map<string, string>)

  /** The bookkeeping the builders maintain: valid exactly when no key is needed or one is set. */
  predicate Consistent(s: Source)
  {
    s.valid == (!s.requiresApiKey || s.apiKey.Some?)
  }

  /** `Default`: an enabled source named "Unknown" that needs no key. */
  function Default(): (s: Source)
    ensures s.name == "Unknown" && s.baseUrl == "" && s.apiKey == None && s.defaultQuery == None
    ensures !s.requiresApiKey && s.enabled && s.valid && s.params == map[]
    ensures Consistent(s)
  {
    var requiresApiKey := false;
    var apiKey: Option<string> := None;
    Source("Unknown", apiKey, "", None, requiresApiKey, true, !requiresApiKey || apiKey.Some?, map[])
  }

  /** `new`: the defaults with the given name, URL and key requirement; valid unless a key is needed. */
  function New(name: string, baseUrl: string, requiresApiKey: bool): (s: Source)
    ensures s.name == name && s.baseUrl == baseUrl && s.requiresApiKey == requiresApiKey
    ensures s.apiKey == None && s.defaultQuery == None && s.enabled && s.params == map[]
    ensures s.valid == !requiresApiKey
    ensures Consistent(s)
  {
    var s := Default().(name := name, baseUrl := baseUrl, requiresApiKey := requiresApiKey);
    s.(valid := !s.requiresApiKey || s.apiKey.Some?)
  }

  /** `with_api_key`: sets the key, which makes the source valid. */
  function WithApiKey(s: Source, key: string): (r: Source)
    ensures r == s.(apiKey := Some(key), valid := true)
    ensures Consistent(r)
  {
    s.(apiKey := Some(key)).(valid := true)
  }

  /** `clear_api_key`: removes the key; the source stays valid only if it needs none. */
  function ClearApiKey(s: Source): (r: Source)
    ensures r == s.(apiKey := None, valid := !s.requiresApiKey)
    ensures Consistent(r)
  {
    s.(apiKey := None).(valid := !s.requiresApiKey)
  }

  function WithDefaultQuery(s: Source, query: string): (r: Source)
    ensures r == s.(defaultQuery := Some(query))
  {
    s.(defaultQuery := Some(query))
  }

  function ClearDefaultQuery(s: Source): (r: Source)
    ensures r == s.(defaultQuery := None)
  {
    s.(defaultQuery := None)
  }

  /** `with_params`: replaces the whole parameter map, whatever was there before. */
  function WithParams(s: Source, params: map<string, string>): (r: Source)
    ensures r == s.(params := params)
  {
    s.(params := map k | k in params :: params[k])
  }

  /** `with_enabled`: sets the user's intent only; `valid` is not re-evaluated. */
  function WithEnabled(s: Source, enabled: bool): (r: Source)
    ensures r == s.(enabled := enabled)
  {
    s.(enabled := enabled)
  }

  /** `enable`: `with_enabled(true)`. */
  function Enable(s: Source): (r: Source)
    ensures r == WithEnabled(s, true)
  {
    s.(enabled := true)
  }

  /** The builder steps a configuration can be put through. */
  datatype Step =
    | SetApiKey(key: string)
    | ClearKey
    | SetDefaultQuery(query: string)
    | ClearQuery
    | SetParams(params: map<string, string>)
    | SetEnabled(enabled: bool)
    | EnableStep

  function ApplyStep(s: Source, step: Step): (r: Source)
    ensures r.requiresApiKey == s.requiresApiKey && r.name == s.name && r.baseUrl == s.baseUrl
  {
    match step
    case SetApiKey(k) => WithApiKey(s, k)
    case ClearKey => ClearApiKey(s)
    case SetDefaultQuery(q) => WithDefaultQuery(s, q)
    case ClearQuery => ClearDefaultQuery(s)
    case SetParams(p) => WithParams(s, p)
    case SetEnabled(e) => WithEnabled(s, e)
    case EnableStep => Enable(s)
  }

  /** A chain of builder calls, left to right. */
  function ApplySteps(s: Source, steps: seq<Step>): (r: Source)
    ensures r.requiresApiKey == s.requiresApiKey && r.name == s.name && r.baseUrl == s.baseUrl
    decreases |steps|
  {
    if |steps| == 0 then s else ApplySteps(ApplyStep(s, steps[0]), steps[1..])
  }

  /** Every builder keeps the bookkeeping right. */
  lemma StepPreservesConsistent(s: Source, step: Step)
    requires Consistent(s)
    ensures Consistent(ApplyStep(s, step))
  {
  }

  /**
   * A source made by `new` and put through any chain of builders is valid
   * exactly when it needs no key or has one.
   */
  lemma {:induction false} BuiltSourcesConsistent(name: string, baseUrl: string, requiresApiKey: bool, steps: seq<Step>)
    ensures Consistent(ApplySteps(New(name, baseUrl, requiresApiKey), steps))
  {
    StepsPreserveConsistent(New(name, baseUrl, requiresApiKey), steps);
  }

  lemma {:induction false} StepsPreserveConsistent(s: Source, steps: seq<Step>)
    requires Consistent(s)
    ensures Consistent(ApplySteps(s, steps))
    decreases |steps|
  {
    if |steps| > 0 {
      StepPreservesConsistent(s, steps[0]);
      StepsPreserveConsistent(ApplyStep(s, steps[0]), steps[1..]);
    }
  }

  /**
   * The key builders restore the bookkeeping even on a record whose flag was
   * set by hand; the enabling builders leave a wrong flag wrong.
   */
  lemma KeyBuildersRepair(s: Source, key: string)
    ensures Consistent(WithApiKey(s, key)) && Consistent(ClearApiKey(s))
    ensures Consistent(WithEnabled(s, true)) == Consistent(s)
    ensures Consistent(Enable(s)) == Consistent(s)
  {
  }

  /** A record literal that needs a key but claims to be valid stays that way after `enable`. */
  lemma EnableKeepsStaleValid()
    ensures var s := Default().(name := "unsplash", requiresApiKey := true);
      s.valid && !Consistent(Enable(s))
  {
  }

  /** Setting and then clearing the key gives back what `clear_api_key` alone gives. */
  lemma ClearUndoesSet(s: Source, key: string)
    ensures ClearApiKey(WithApiKey(s, key)) == ClearApiKey(s)
  {
  }
}
