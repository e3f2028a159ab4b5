/**
 * The light/dark switch (theme-toggle.tsx): on which pages it is locked,
 * which of its two forms it takes (the pill beside the site menu, or the
 * corner switch), its track and thumb geometry, and what a click asks the
 * theme provider for. The theme provider is outside the model: its current
 * theme is an input and `setTheme` is returned as the theme asked for.
 */
module ThemeToggle {
  import opened Wrappers
  import SiteNav

  /** The measured `innerWidth`/`innerHeight`; both are 0 until the first measurement. */
  datatype Viewport = Viewport(width: nat, height: nat)

  predicate IsMobileViewport(v: Viewport) {
    v.width > 0 && v.width < 768
  }

  /** The pages the site menu is shown on: not the chat, and the home page only on a phone. */
  predicate IsNavPage(pathname: string, v: Viewport) {
    var isHomeMobile := pathname == "/" && IsMobileViewport(v);
    pathname != "/chat" && (pathname != "/" || isHomeMobile)
  }

  predicate IsThemeLockedPage(pathname: string) {
    pathname == "/" || pathname == "/contact"
  }

  /** `theme === 'dark'`; the provider may also report "light", "system" or nothing. */
  predicate IsDark(theme: Option<string>) {
    theme == Some("dark")
  }

  predicate IsCompactLaptop(v: Viewport) {
    v.height > 0 && (v.height < 860 || (v.width > 0 && v.width < 1500))
  }

  predicate IsTightLaptop(v: Viewport) {
    v.height > 0 && (v.height < 740 || (v.width > 0 && v.width < 1280))
  }

  /** `toggleTheme`: the theme asked of the provider, or nothing on a locked page. */
  function ToggleTheme(pathname: string, theme: Option<string>): Option<string> {
    if IsThemeLockedPage(pathname) then None
    else Some(if IsDark(theme) then "light" else "dark")
  }

  /** The switch's track and thumb, in px. */
  datatype SwitchGeometry = SwitchGeometry(trackWidth: int, trackHeight: int, thumbSize: int)

  /** The thumb's top offset. */
  function ThumbTop(g: SwitchGeometry): int {
    (g.trackHeight - g.thumbSize) / 2
  }

  /** The thumb's x offset: against the right end when dark, against the left otherwise. */
  function ThumbX(g: SwitchGeometry, isDark: bool): int {
    if isDark then g.trackWidth - g.thumbSize - 2 else 2
  }

  /** The pill beside the site menu: smaller on phones (640 px or narrower). */
  function PillGeometry(v: Viewport): SwitchGeometry {
    var isMobile := v.width > 0 && v.width <= 640;
    if isMobile then SwitchGeometry(34, 18, 14) else SwitchGeometry(48, 24, 20)
  }

  /** The corner switch: smaller on compact and tight laptop screens. */
  function CornerGeometry(v: Viewport): SwitchGeometry {
    if IsTightLaptop(v) then SwitchGeometry(38, 20, 14)
    else if IsCompactLaptop(v) then SwitchGeometry(44, 22, 16)
    else SwitchGeometry(48, 24, 20)
  }

  /** The corner switch's distance from the top and right edges. */
  function EdgeOffsetPx(v: Viewport): int {
    if IsTightLaptop(v) then 8 else if IsCompactLaptop(v) then 12 else 24
  }

  /** What the component renders. */
  datatype Rendered =
    | NothingRendered
    | NavPill(geometry: SwitchGeometry, disabled: bool)
    | CornerSwitch(geometry: SwitchGeometry, edgeOffset: int, disabled: bool)

  function Render(mounted: bool, pathname: string, v: Viewport): Rendered {
    if !mounted then NothingRendered
    else if pathname == "/" && v.width == 0 then NothingRendered
    else if IsNavPage(pathname, v) then NavPill(PillGeometry(v), IsThemeLockedPage(pathname))
    else CornerSwitch(CornerGeometry(v), EdgeOffsetPx(v), IsThemeLockedPage(pathname))
  }

  /** A geometry whose thumb fits the track with a 2 px margin at both ends and is centred vertically. */
  predicate ThumbFits(g: SwitchGeometry) {
    && 0 <= ThumbTop(g) && ThumbTop(g) + g.thumbSize + ThumbTop(g) == g.trackHeight
    && ThumbX(g, false) == 2
    && ThumbX(g, true) + g.thumbSize + 2 == g.trackWidth
    && ThumbX(g, false) < ThumbX(g, true)
  }

  /** Every size the switch takes keeps the thumb inside its track in both positions. */
  lemma ThumbInsideTrack(v: Viewport)
    ensures ThumbFits(PillGeometry(v))
    ensures ThumbFits(CornerGeometry(v))
  {
  }

  /**
   * On '/' and '/contact' a click asks for nothing; elsewhere it asks for the
   * opposite of the current theme, so two clicks restore whether it is dark.
   */
  lemma ToggleSpec(pathname: string, theme: Option<string>)
    ensures ToggleTheme(pathname, theme).None? <==> IsThemeLockedPage(pathname)
    ensures ToggleTheme(pathname, theme).Some? ==> IsDark(ToggleTheme(pathname, theme)) == !IsDark(theme)
    ensures ToggleTheme(pathname, theme).Some? ==>
              IsDark(ToggleTheme(pathname, ToggleTheme(pathname, theme))) == IsDark(theme)
  {
  }

  /** A tight screen is also compact, and before the height is known neither holds. */
  lemma ViewportFlagsSpec(v: Viewport)
    ensures IsTightLaptop(v) ==> IsCompactLaptop(v)
    ensures v.height == 0 ==> !IsCompactLaptop(v) && !IsTightLaptop(v)
  {
  }

  /** The corner switch sits closer to the edge the more cramped the screen: 8, 12 or 24 px. */
  lemma EdgeOffsetSpec(v: Viewport)
    ensures EdgeOffsetPx(v) == 8 <==> IsTightLaptop(v)
    ensures EdgeOffsetPx(v) == 12 <==> IsCompactLaptop(v) && !IsTightLaptop(v)
    ensures EdgeOffsetPx(v) == 24 <==> !IsCompactLaptop(v)
  {
  }

  /**
   * Nothing is drawn before mounting, nor on the home page before the width
   * is measured; once measured, the pill form is used exactly where the site
   * menu is shown, and the switch is disabled exactly on the locked pages.
   */
  lemma RenderSpec(mounted: bool, pathname: string, v: Viewport)
    ensures !mounted ==> Render(mounted, pathname, v) == NothingRendered
    ensures pathname == "/" && v.width == 0 ==> Render(mounted, pathname, v) == NothingRendered
    ensures mounted && v.width > 0 ==>
              (Render(mounted, pathname, v).NavPill? <==>
                 !SiteNav.Hidden(pathname, SiteNav.IsMobileViewport(v.width)))
    ensures Render(mounted, pathname, v) != NothingRendered ==>
              Render(mounted, pathname, v).disabled == IsThemeLockedPage(pathname)
  {
  }

  /**
   * The toggle's own state, set by its effects: whether it has mounted and
   * the last measured viewport.
   */
  class ThemeSwitch {
    var mounted: bool
    var viewport: Viewport

    constructor ()
      ensures !mounted && viewport == Viewport(0, 0)
    {
      mounted := false;
      viewport := Viewport(0, 0);
    }

    /** The mount effect. */
    method Mount()
      modifies this
      ensures mounted && viewport == old(viewport)
    {
      mounted := true;
    }

    /** The resize listener (also run once on mount). */
    method Measure(innerWidth: nat, innerHeight: nat)
      modifies this
      ensures viewport == Viewport(innerWidth, innerHeight) && mounted == old(mounted)
    {
      viewport := Viewport(innerWidth, innerHeight);
    }

    /** What the component draws in its current state. */
    method View(pathname: string) returns (r: Rendered)
      ensures r == Render(mounted, pathname, viewport)
      ensures !mounted ==> r == NothingRendered
    {
      if !mounted {
        return NothingRendered;
      }
      if pathname == "/" && viewport.width == 0 {
        return NothingRendered;
      }
      if IsNavPage(pathname, viewport) {
        r := NavPill(PillGeometry(viewport), IsThemeLockedPage(pathname));
      } else {
        r := CornerSwitch(CornerGeometry(viewport), EdgeOffsetPx(viewport), IsThemeLockedPage(pathname));
      }
    }

    /** A click: the theme asked of the provider, if any. */
    method Click(pathname: string, theme: Option<string>) returns (requested: Option<string>)
      ensures requested == ToggleTheme(pathname, theme)
      ensures requested.Some? ==> IsDark(requested) != IsDark(theme)
    {
      if IsThemeLockedPage(pathname) {
        return None;
      }
      requested := Some(if theme == Some("dark") then "light" else "dark");
    }
  }
}
