/**
 * The layout density chosen for Windows browsers from the viewport size
 * (useWindowsViewportDensity.ts). The viewport and the user-agent string
 * are parameters; the resize listener is not modelled.
 */
module ViewportDensity {
  import opened Text

  datatype Density = Default | Compact | Tight

  /** The hook's viewport state; `width` and `height` are `innerWidth` and `innerHeight`. */
  datatype ViewportState = ViewportState(width: nat, height: nat, isWindows: bool)

  /** The state before the first measurement. */
  const DEFAULT_VIEWPORT := ViewportState(0, 0, false)

  /** `/Windows/i.test(userAgent)`, with ASCII case folding. */
  predicate IsWindowsAgent(userAgent: string) {
    Contains(Lower(userAgent), "windows")
  }

  function Measure(width: nat, height: nat, userAgent: string): ViewportState {
    ViewportState(width, height, IsWindowsAgent(userAgent))
  }

  /** `getDensity`. */
  function GetDensity(v: ViewportState): Density {
    if !v.isWindows || v.width == 0 || v.height == 0 then Default
    else if v.height <= 760 || (v.height <= 820 && v.width <= 1366) then Tight
    else if v.height <= 840 || (v.height <= 900 && v.width <= 1440) then Compact
    else Default
  }

  /** `isCompact`: compact or tighter. */
  predicate IsCompact(d: Density) {
    d == Compact || d == Tight
  }

  predicate IsTight(d: Density) {
    d == Tight
  }

  /** How dense a layout is: Default < Compact < Tight. */
  function Rank(d: Density): (r: nat)
    ensures r <= 2
  {
    match d
    case Default => 0
    case Compact => 1
    case Tight => 2
  }

  /** The derived flags: tight implies compact, and compact holds exactly for a non-default density. */
  lemma FlagsSpec(v: ViewportState)
    ensures IsTight(GetDensity(v)) ==> IsCompact(GetDensity(v))
    ensures IsCompact(GetDensity(v)) <==> Rank(GetDensity(v)) >= 1
    ensures IsTight(GetDensity(v)) <==> Rank(GetDensity(v)) == 2
  {
  }

  /** Off Windows, or before the viewport is measured, the layout is never condensed. */
  lemma NonWindowsIsDefault(v: ViewportState)
    requires !v.isWindows || v.width == 0 || v.height == 0
    ensures GetDensity(v) == Default
    ensures GetDensity(DEFAULT_VIEWPORT) == Default
  {
  }

  /** The thresholds: a 1366x768 Windows laptop is tight, 1440x900 compact, 1920x1080 default. */
  lemma CommonScreens()
    ensures GetDensity(ViewportState(1366, 768, true)) == Tight
    ensures GetDensity(ViewportState(1440, 900, true)) == Compact
    ensures GetDensity(ViewportState(1920, 1080, true)) == Default
    ensures GetDensity(ViewportState(1920, 760, true)) == Tight
  {
  }

  /** A viewport taller than 900 px is never condensed, whatever its width or platform. */
  lemma TallIsDefault(v: ViewportState)
    requires v.height > 900
    ensures GetDensity(v) == Default
  {
  }

  /** A shorter measured viewport is never laid out less densely. */
  lemma ShorterIsDenser(width: nat, h: nat, h': nat, isWindows: bool)
    requires 1 <= h' <= h
    ensures Rank(GetDensity(ViewportState(width, h', isWindows))) >= Rank(GetDensity(ViewportState(width, h, isWindows)))
  {
  }

  /** A narrower measured viewport is never laid out less densely. */
  lemma NarrowerIsDenser(w: nat, w': nat, height: nat, isWindows: bool)
    requires 1 <= w' <= w
    ensures Rank(GetDensity(ViewportState(w', height, isWindows))) >= Rank(GetDensity(ViewportState(w, height, isWindows)))
  {
  }

  /** The agent test ignores case. */
  lemma AgentTestIgnoresCase(userAgent: string)
    ensures IsWindowsAgent(userAgent) <==> IsWindowsAgent(Lower(userAgent))
  {
    LowerIdempotent(userAgent);
  }
}
