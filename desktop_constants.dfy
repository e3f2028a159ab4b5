/**
 * The static tables of the simulated desktop and its icon layout
 * (constants.ts): icon configurations given as fixed offsets from the
 * viewport centre, the dock table and the first window z-index.
 */
module DesktopConstants {
  import opened Wrappers
  import opened DesktopTypes

  /** The design-time viewport the offsets were measured on. */
  const REFERENCE_WIDTH: real := 1200.0
  const REFERENCE_HEIGHT: real := 800.0
  const REFERENCE_CENTER_X: real := REFERENCE_WIDTH / 2.0
  const REFERENCE_CENTER_Y: real := REFERENCE_HEIGHT / 2.0
  const VERTICAL_ADJUSTMENT: real := -220.0
  const SPACING_MULTIPLIER: real := 1.2

  datatype IconConfig = IconConfig(
    id: string,
    title: string,
    projectIndex: int,
    icon: string,
    size: Size,
    offsetFromCenter: Position)

  /** The offset of an icon drawn at (refX, refY) on the reference viewport, spread by 20% and lifted by 220 px. */
  function OffsetFrom(refX: real, refY: real): Position {
    Position((refX - REFERENCE_CENTER_X) * SPACING_MULTIPLIER,
             (refY - REFERENCE_CENTER_Y) * SPACING_MULTIPLIER + VERTICAL_ADJUSTMENT)
  }

  const ICON_CONFIGS: seq<IconConfig> := [
    IconConfig("synto", "Synto", 0, "/syntopreview.png", Size(85, 85), OffsetFrom(360.0, 340.0)),
    IconConfig("rrate", "Rrate", 1, "/ratepreview.png", Size(70, 90), OffsetFrom(530.0, 500.0)),
    IconConfig("defai", "Defai", 2, "/defaipreview.png", Size(75, 75), OffsetFrom(600.0, 240.0)),
    IconConfig("fitgear", "Frigear", 3, "/fitgearpreview.png", Size(95, 70), OffsetFrom(755.0, 460.0)),
    IconConfig("datai", "Datai", 4, "/dataipreview.png", Size(80, 95), OffsetFrom(880.0, 280.0)),
    IconConfig("3dpong", "3D Pong", 5, "/transcendancepreview.png", Size(65, 65), OffsetFrom(315.0, 600.0)),
    IconConfig("minishell", "Minishell", 6, "/minishellpreview.png", Size(90, 75), OffsetFrom(555.0, 700.0)),
    IconConfig("youbot", "YouBot", 7, "/youbotpreview.png", Size(70, 85), OffsetFrom(950.0, 545.0)),
    IconConfig("oldportfolio", "Old Portfo...", 8, "/oldportfoliopreview.png", Size(80, 80), OffsetFrom(815.0, 700.0))
  ]

  /** One icon placed relative to the viewport centre (cx, cy). */
  function PlaceIcon(config: IconConfig, cx: real, cy: real): DesktopIconData {
    DesktopIconData(
      config.id, config.title, config.icon,
      Position(cx + config.offsetFromCenter.x, cy + config.offsetFromCenter.y),
      config.projectIndex, Some(config.size))
  }

  /** `calculateIconPositions`: every configured icon, in table order, around the viewport centre. */
  function CalculateIconPositions(viewportWidth: real, viewportHeight: real): (r: seq<DesktopIconData>)
    ensures |r| == |ICON_CONFIGS|
  {
    seq(|ICON_CONFIGS|, i requires 0 <= i < |ICON_CONFIGS| =>
      PlaceIcon(ICON_CONFIGS[i], viewportWidth / 2.0, viewportHeight / 2.0))
  }

  /** The positions used before the viewport is known (server rendering). */
  const INITIAL_DESKTOP_ICONS: seq<DesktopIconData> := CalculateIconPositions(REFERENCE_WIDTH, REFERENCE_HEIGHT)

  const DOCK_ICONS: seq<DockIcon> := [
    DockIcon("github", "", "GitHub", Some("#"), false),
    DockIcon("tiktok", "", "TikTok", Some("#"), false),
    DockIcon("instagram", "", "Instagram", Some("#"), false),
    DockIcon("notes", "", "Notes", Some("#"), true),
    DockIcon("photos", "", "Photos", Some("#"), false),
    DockIcon("email", "", "Mail", Some("#"), false),
    DockIcon("trash", "\U{1F5D1}\U{FE0F}", "Trash", Some("#"), true)
  ]

  const WINDOW_INITIAL_POSITION: Position := Position(100.0, 50.0)
  const WINDOW_Z_INDEX_START: int := 10

  /** Each computed icon copies its configuration and sits at the centre plus the fixed offset. */
  lemma CalculateIconPositionsSpec(w: real, h: real, i: nat)
    requires i < |ICON_CONFIGS|
    ensures var r := CalculateIconPositions(w, h)[i];
            var c := ICON_CONFIGS[i];
            && r.id == c.id && r.title == c.title && r.projectIndex == c.projectIndex
            && r.icon == c.icon && r.size == Some(c.size)
            && r.position == Position(w / 2.0 + c.offsetFromCenter.x, h / 2.0 + c.offsetFromCenter.y)
  {
  }

  /** The layout is rigid: the displacement between two icons does not depend on the viewport. */
  lemma RelativeLayoutFixed(w: real, h: real, w': real, h': real, i: nat, j: nat)
    requires i < |ICON_CONFIGS| && j < |ICON_CONFIGS|
    ensures var a, b := CalculateIconPositions(w, h), CalculateIconPositions(w', h');
            && a[i].position.x - a[j].position.x == b[i].position.x - b[j].position.x
            && a[i].position.y - a[j].position.y == b[i].position.y - b[j].position.y
  {
  }

  /** Widening the viewport by d moves every icon right by d/2 and leaves its height alone. */
  lemma WideningShiftsRight(w: real, h: real, d: real, i: nat)
    requires i < |ICON_CONFIGS|
    ensures CalculateIconPositions(w + d, h)[i].position.x == CalculateIconPositions(w, h)[i].position.x + d / 2.0
    ensures CalculateIconPositions(w + d, h)[i].position.y == CalculateIconPositions(w, h)[i].position.y
  {
  }

  /** The fallback layout is the 1200x800 one; 'synto' lands at (312, 108) and 'oldportfolio' at (858, 540). */
  lemma InitialIconsAtReference()
    ensures INITIAL_DESKTOP_ICONS == CalculateIconPositions(1200.0, 800.0)
    ensures INITIAL_DESKTOP_ICONS[0].id == "synto" && INITIAL_DESKTOP_ICONS[0].position == Position(312.0, 108.0)
    ensures INITIAL_DESKTOP_ICONS[8].id == "oldportfolio" && INITIAL_DESKTOP_ICONS[8].position == Position(858.0, 540.0)
  {
  }

  /** The icon table: distinct ids, and projectIndex is the row number 0..8. */
  lemma IconConfigsWellFormed()
    ensures |ICON_CONFIGS| == 9
    ensures forall i :: 0 <= i < |ICON_CONFIGS| ==> ICON_CONFIGS[i].projectIndex == i
    ensures forall i, j :: 0 <= i < j < |ICON_CONFIGS| ==> ICON_CONFIGS[i].id != ICON_CONFIGS[j].id
  {
  }

  /** The dock table: distinct ids, and the trash is the one and only last entry. */
  lemma DockIconsWellFormed()
    ensures |DOCK_ICONS| == 7
    ensures forall i, j :: 0 <= i < j < |DOCK_ICONS| ==> DOCK_ICONS[i].id != DOCK_ICONS[j].id
    ensures DOCK_ICONS[|DOCK_ICONS| - 1].id == "trash"
    ensures forall i :: 0 <= i < |DOCK_ICONS| - 1 ==> DOCK_ICONS[i].id != "trash"
  {
  }
}
