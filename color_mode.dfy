/**
 * The colour-mode setting (light, dark or follow the system) and the pure
 * decisions around applying it: which mode to set, what a toggle switches to,
 * and the guard that refuses to set "auto" as a system theme. Detecting and
 * setting the system theme are done by the platform; here the detected mode is
 * a parameter and setting it is the `Set` step of a plan.
 */
module ColorMode {
  import opened Wrappers

  datatype Mode = Light | Dark | Auto

  /** The error raised when asked to set the system theme to `Auto`. */
  datatype ModeError = ColorModeSet(message: string)

  /** What `apply` does once it knows the current system mode. */
  datatype Plan = AlreadySet | Set(target: Mode)

  const AUTO_NOT_SETTABLE: string := "Cannot set system theme to Auto - must be Light or Dark"

  /** The default setting is to follow the system. */
  function DefaultMode(): (m: Mode)
    ensures m == Auto
  {
    Auto
  }

  /**
   * `resolve_target_mode`: an explicit setting is its own target whatever the
   * system shows; `Auto` resolves to the mode the system currently has.
   */
  function ResolveTargetMode(setting: Mode, current: Mode): (r: Result<Mode, ModeError>)
    ensures r.Success?
    ensures setting != Auto ==> r.value == setting
    ensures setting == Auto ==> r.value == current
  {
    match setting
    case Light => Success(Light)
    case Dark => Success(Dark)
    case Auto => Success(current)
  }

  /** The target of `toggle_theme`: light and dark swap, and `Auto` counts as dark. */
  function ToggleTarget(current: Mode): (target: Mode)
    ensures target != Auto && target != current
    ensures current != Light <==> target == Light
  {
    match current
    case Light => Dark
    case Dark => Light
    case Auto => Light
  }

  /** `set_system_theme`'s guard: `Auto` is refused, any other mode is handed to the platform. */
  function SetSystemTheme(target: Mode): (r: Result<Mode, ModeError>)
    ensures r.Success? <==> target != Auto
    ensures r.Success? ==> r.value == target
    ensures r.Failure? ==> r.error == ColorModeSet(AUTO_NOT_SETTABLE)
  {
    if target == Auto then Failure(ColorModeSet(AUTO_NOT_SETTABLE)) else Success(target)
  }

  /**
   * `apply` given the detected mode: nothing to do when the target equals the
   * current mode, otherwise the guarded request to set the target.
   */
  function Apply(setting: Mode, current: Mode): (r: Result<Plan, ModeError>)
    ensures r.Success? && r.value == AlreadySet <==> ResolveTargetMode(setting, current).value == current
    ensures r.Success? && r.value.Set? ==> r.value.target != current && r.value.target != Auto
  {
    var target := ResolveTargetMode(setting, current).value;
    if current == target then Success(AlreadySet)
    else match SetSystemTheme(target)
      case Success(m) => Success(Set(m))
      case Failure(e) => Failure(e)
  }

  /** `toggle_theme` given the detected mode: the guarded request to set the toggle target. */
  function ToggleTheme(current: Mode): (r: Result<Mode, ModeError>)
    ensures r.Success? && r.value == ToggleTarget(current)
  {
    SetSystemTheme(ToggleTarget(current))
  }

  /** The `Display` text: the variant's name in lower case. */
  function ModeName(m: Mode): (s: string)
    ensures 4 <= |s| <= 5 && forall i :: 0 <= i < |s| ==> 'a' <= s[i] <= 'z'
  {
    match m
    case Light => "light"
    case Dark => "dark"
    case Auto => "auto"
  }

  /**
   * `apply` never reaches the guard's error: a target of `Auto` only arises
   * when the current mode is `Auto` too, which is the do-nothing case. It
   * either does nothing or sets the explicit setting.
   */
  lemma ApplyNeverFails(setting: Mode, current: Mode)
    ensures Apply(setting, current).Success?
    ensures setting == Auto || setting == current <==> Apply(setting, current) == Success(AlreadySet)
    ensures setting != Auto && setting != current ==> Apply(setting, current) == Success(Set(setting))
  {
  }

  /** Toggling twice from a concrete mode comes back to it; from `Auto` it settles on dark. */
  lemma ToggleTwice(current: Mode)
    ensures current != Auto ==> ToggleTarget(ToggleTarget(current)) == current
    ensures current == Auto ==> ToggleTarget(ToggleTarget(current)) == Dark
  {
  }

  /** The names tell the modes apart. */
  lemma ModeNameInjective(a: Mode, b: Mode)
    ensures ModeName(a) == ModeName(b) <==> a == b
  {
    if a != b {
      assert ModeName(a)[0] != ModeName(b)[0];
    }
  }
}
