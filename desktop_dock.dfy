/**
 * The desktop's dock (DesktopDock.tsx): what a click on each dock icon
 * does, which icons take pointer events while the trash sequence hides
 * them, the staggered hide/show delays and the dock's height above the
 * prompt.
 */
module DesktopDock {
  import opened Wrappers
  import opened Text
  import opened DesktopTypes
  import opened DesktopConstants

  /**
   * The dock's props. A handler is modelled by whether it was passed; an
   * omitted `trashDisabled` is falsy.
   */
  datatype DockProps = DockProps(
    showQuickQuestions: bool,
    hasNotesHandler: bool,
    hasPhotosHandler: bool,
    hasTrashHandler: bool,
    trashVisible: bool,
    trashDisabled: bool)

  /** The props the desktop passes: only `showQuickQuestions`; every other prop takes its default. */
  function DesktopProps(showQuickQuestions: bool): DockProps {
    DockProps(showQuickQuestions, false, false, false, true, false)
  }

  /** What a click on a dock icon results in. */
  datatype ClickEffect =
    | CallTrash
    | CallNotes
    | CallPhotos
    | NavigateSameTab(url: string)   // `window.location.href = href`
    | OpenNewTab(url: string)        // `window.open(href, '_blank', ...)`
    | NoEffect

  predicate IsTrash(icon: DockIcon) {
    icon.id == "trash"
  }

  /** The click handler's if/else chain. */
  function ClickEffectOf(icon: DockIcon, props: DockProps): ClickEffect {
    if IsTrash(icon) && props.hasTrashHandler && !props.trashDisabled then CallTrash
    else if icon.id == "notes" && props.hasNotesHandler then CallNotes
    else if icon.id == "photos" && props.hasPhotosHandler then CallPhotos
    else if icon.href.Some? && icon.href.value != "" && icon.href.value != "#" then
      (if StartsWith(icon.href.value, "mailto:") then NavigateSameTab(icon.href.value) else OpenNewTab(icon.href.value))
    else NoEffect
  }

  /** `bottom-[260px]` above the quick questions, `bottom-[140px]` without them. */
  function BottomOffsetPx(showQuickQuestions: bool): (px: nat)
    ensures px == 260 || px == 140
    ensures showQuickQuestions <==> px > 140
  {
    if showQuickQuestions then 260 else 140
  }

  /** How many of these icons are not the trash. */
  function CountNonTrash(icons: seq<DockIcon>): (n: nat)
    ensures n <= |icons|
  {
    if icons == [] then 0 else CountNonTrash(icons[..|icons| - 1]) + (if IsTrash(icons[|icons| - 1]) then 0 else 1)
  }

  /** An icon's place in the hide/show stagger: 0 for the trash, else the non-trash icons before it. */
  function NonTrashIndex(icons: seq<DockIcon>, index: nat): nat
    requires index < |icons|
  {
    if IsTrash(icons[index]) then 0 else CountNonTrash(icons[..index])
  }

  /** Non-trash icons stop taking clicks while hidden; the trash always takes them. */
  predicate TakesPointerEvents(icon: DockIcon, props: DockProps) {
    IsTrash(icon) || props.trashVisible
  }

  /** The non-trash icon transition delay, in seconds. */
  function StaggerDelay(trashVisible: bool, nonTrashIndex: nat): real {
    if trashVisible then 0.3 + nonTrashIndex as real * 0.05 else 0.48 + nonTrashIndex as real * 0.08
  }

  /** A separator is drawn before an icon that asks for one: animated for ordinary icons, static for the trash. */
  datatype SeparatorKind = NoSeparator | AnimatedSeparator | StaticSeparator

  function SeparatorOf(icon: DockIcon): SeparatorKind {
    if !icon.separator then NoSeparator
    else if IsTrash(icon) then StaticSeparator
    else AnimatedSeparator
  }

  /**
   * The trash acts exactly when it has a handler and is not disabled; the
   * notes and photos icons act exactly when given their handler.
   */
  lemma ClickEffectSpec(icon: DockIcon, props: DockProps)
    ensures ClickEffectOf(icon, props) == CallTrash <==> IsTrash(icon) && props.hasTrashHandler && !props.trashDisabled
    ensures ClickEffectOf(icon, props) == CallNotes <==> icon.id == "notes" && props.hasNotesHandler
    ensures ClickEffectOf(icon, props) == CallPhotos <==> icon.id == "photos" && props.hasPhotosHandler
  {
  }

  /**
   * A link is followed only when it is a real target: `mailto:` links in the
   * same tab, any other in a new tab; a missing, empty or '#' target does
   * nothing.
   */
  lemma LinkTargets(icon: DockIcon, props: DockProps)
    requires !IsTrash(icon) && icon.id != "notes" && icon.id != "photos"
    ensures icon.href == Some("#") || icon.href == Some("") || icon.href == None ==> ClickEffectOf(icon, props) == NoEffect
    ensures ClickEffectOf(icon, props).NavigateSameTab? ==>
              (Some(ClickEffectOf(icon, props).url) == icon.href && StartsWith(icon.href.value, "mailto:"))
    ensures ClickEffectOf(icon, props).OpenNewTab? ==>
              (Some(ClickEffectOf(icon, props).url) == icon.href && !StartsWith(icon.href.value, "mailto:"))
  {
  }

  /**
   * On the desktop, which passes no handlers and whose dock table points
   * every icon at '#', no dock click has any effect.
   */
  lemma DesktopDockInert(showQuickQuestions: bool, i: nat)
    requires i < |DOCK_ICONS|
    ensures ClickEffectOf(DOCK_ICONS[i], DesktopProps(showQuickQuestions)) == NoEffect
  {
  }

  /** With no trash among them, every icon counts. */
  lemma {:induction false} CountNonTrashAll(icons: seq<DockIcon>)
    requires forall i :: 0 <= i < |icons| ==> !IsTrash(icons[i])
    ensures CountNonTrash(icons) == |icons|
  {
    if icons != [] {
      CountNonTrashAll(icons[..|icons| - 1]);
    }
  }

  /** In the dock table, each non-trash icon's stagger index is its position, and the trash's is 0. */
  lemma DockStaggerIndices()
    ensures forall i :: 0 <= i < |DOCK_ICONS| && !IsTrash(DOCK_ICONS[i]) ==> NonTrashIndex(DOCK_ICONS, i) == i
    ensures NonTrashIndex(DOCK_ICONS, |DOCK_ICONS| - 1) == 0
  {
    DockIconsWellFormed();
    forall i | 0 <= i < |DOCK_ICONS| && !IsTrash(DOCK_ICONS[i])
      ensures NonTrashIndex(DOCK_ICONS, i) == i
    {
      CountNonTrashAll(DOCK_ICONS[..i]);
    }
  }

  /** Hiding sweeps later icons out later, and every hide starts after every show delay for the same icon. */
  lemma StaggerOrdered(a: nat, b: nat)
    requires a < b
    ensures StaggerDelay(false, a) < StaggerDelay(false, b)
    ensures StaggerDelay(true, a) < StaggerDelay(true, b)
    ensures StaggerDelay(true, a) < StaggerDelay(false, a)
  {
  }

  /** While the trash sequence hides the dock, only the trash still takes clicks. */
  lemma HiddenDockOnlyTrash(props: DockProps, i: nat)
    requires i < |DOCK_ICONS| && !props.trashVisible
    ensures TakesPointerEvents(DOCK_ICONS[i], props) <==> i == |DOCK_ICONS| - 1
  {
    DockIconsWellFormed();
  }

  /** Only the notes icon carries an animated separator and only the trash a static one. */
  lemma DockSeparators()
    ensures forall i :: 0 <= i < |DOCK_ICONS| ==>
              (SeparatorOf(DOCK_ICONS[i]) == AnimatedSeparator <==> DOCK_ICONS[i].id == "notes")
              && (SeparatorOf(DOCK_ICONS[i]) == StaticSeparator <==> DOCK_ICONS[i].id == "trash")
  {
  }
}
