/**
 * The simulated desktop's window manager (MacOSDesktop.tsx): the icon
 * layout, the list of open project windows with their stacking order, and
 * the z-index counter that every open or focus draws from.
 */
module MacOSDesktop {
  import opened Wrappers
  import opened DesktopTypes
  import opened DesktopConstants
  import ProjectData

  /** The component's state: icons, open windows, the next z-index and the quick-questions flag. */
  datatype DesktopState = DesktopState(
    icons: seq<DesktopIconData>,
    openWindows: seq<OpenWindow>,
    nextZIndex: int,
    showQuickQuestions: bool)

  const INITIAL_STATE := DesktopState(INITIAL_DESKTOP_ICONS, [], WINDOW_Z_INDEX_START, true)

  /** `openWindows.find(w => w.id === id)` finds something. */
  predicate HasWindow(ws: seq<OpenWindow>, id: string) {
    exists w :: w in ws && w.id == id
  }

  /** Give the window(s) with this id the z-index `z`; all else is kept. */
  function Raise(ws: seq<OpenWindow>, id: string, z: int): (r: seq<OpenWindow>)
    ensures |r| == |ws|
    ensures forall i :: 0 <= i < |ws| ==>
              r[i].(zIndex := ws[i].zIndex) == ws[i]
              && r[i].zIndex == (if ws[i].id == id then z else ws[i].zIndex)
  {
    seq(|ws|, i requires 0 <= i < |ws| => if ws[i].id == id then ws[i].(zIndex := z) else ws[i])
  }

  /** The window a closed icon opens: offset 50 px right of and 50 px above the icon. */
  function NewWindow(icon: DesktopIconData, position: Position, z: int): OpenWindow {
    OpenWindow(icon.id, icon.title, icon.projectIndex, z, Position(position.x + 50.0, position.y - 50.0))
  }

  /** `handleIconOpen`: raise the icon's window if it is open, else append a new one; the counter advances either way. */
  function OpenStep(s: DesktopState, icon: DesktopIconData, position: Position): DesktopState {
    if HasWindow(s.openWindows, icon.id) then
      s.(openWindows := Raise(s.openWindows, icon.id, s.nextZIndex), nextZIndex := s.nextZIndex + 1)
    else
      s.(openWindows := s.openWindows + [NewWindow(icon, position, s.nextZIndex)], nextZIndex := s.nextZIndex + 1)
  }

  /** `prev.filter(w => w.id !== windowId)`. */
  function CloseWindows(ws: seq<OpenWindow>, id: string): (r: seq<OpenWindow>)
    ensures |r| <= |ws|
    ensures forall w :: w in r <==> w in ws && w.id != id
  {
    if ws == [] then []
    else if ws[0].id == id then CloseWindows(ws[1..], id)
    else [ws[0]] + CloseWindows(ws[1..], id)
  }

  /** `handleWindowClose`. */
  function CloseStep(s: DesktopState, id: string): DesktopState {
    s.(openWindows := CloseWindows(s.openWindows, id))
  }

  /** `handleWindowFocus`: the counter advances even when no window has the id. */
  function FocusStep(s: DesktopState, id: string): DesktopState {
    s.(openWindows := Raise(s.openWindows, id, s.nextZIndex), nextZIndex := s.nextZIndex + 1)
  }

  /** Move the icon(s) with this id to (x, y). */
  function MoveIcon(icons: seq<DesktopIconData>, id: string, x: real, y: real): (r: seq<DesktopIconData>)
    ensures |r| == |icons|
    ensures forall i :: 0 <= i < |icons| ==>
              r[i].(position := icons[i].position) == icons[i]
              && r[i].position == (if icons[i].id == id then Position(x, y) else icons[i].position)
  {
    seq(|icons|, i requires 0 <= i < |icons| =>
      if icons[i].id == id then icons[i].(position := Position(x, y)) else icons[i])
  }

  /** `handleIconPositionChange`. */
  function MoveStep(s: DesktopState, id: string, x: real, y: real): DesktopState {
    s.(icons := MoveIcon(s.icons, id, x, y))
  }

  /** The resize listener: the layout is recomputed for the new viewport, dragged positions are lost. */
  function ResizeStep(s: DesktopState, width: real, height: real): DesktopState {
    s.(icons := CalculateIconPositions(width, height))
  }

  /** The dock's quick-questions toggle. */
  function ToggleQuickStep(s: DesktopState): DesktopState {
    s.(showQuickQuestions := !s.showQuickQuestions)
  }

  /** An icon is one of the configured icons, wherever it has been dragged. */
  predicate SameIcon(d: DesktopIconData, c: IconConfig) {
    d.id == c.id && d.title == c.title && d.projectIndex == c.projectIndex
    && d.icon == c.icon && d.size == Some(c.size)
  }

  predicate IconsFromConfig(icons: seq<DesktopIconData>) {
    |icons| == |ICON_CONFIGS| && forall i :: 0 <= i < |icons| ==> SameIcon(icons[i], ICON_CONFIGS[i])
  }

  /** A window was opened from a configured icon. */
  predicate FromSomeIcon(w: OpenWindow) {
    exists c :: c in ICON_CONFIGS && w.id == c.id && w.title == c.title && w.projectIndex == c.projectIndex
  }

  /**
   * The window list is well formed: one window per id, distinct z-indices
   * all drawn from [WINDOW_Z_INDEX_START, nextZ), a counter that never falls
   * below its start, and each window belongs to a configured icon.
   */
  predicate WindowsValid(ws: seq<OpenWindow>, nextZ: int) {
    && WINDOW_Z_INDEX_START <= nextZ
    && (forall i, j :: 0 <= i < j < |ws| ==> ws[i].id != ws[j].id)
    && (forall i, j :: 0 <= i < j < |ws| ==> ws[i].zIndex != ws[j].zIndex)
    && (forall i :: 0 <= i < |ws| ==> WINDOW_Z_INDEX_START <= ws[i].zIndex < nextZ)
    && (forall w :: w in ws ==> FromSomeIcon(w))
  }

  predicate Valid(s: DesktopState) {
    IconsFromConfig(s.icons) && WindowsValid(s.openWindows, s.nextZIndex)
  }

  /** The window with this id is drawn above every other open window. */
  predicate OnTop(ws: seq<OpenWindow>, id: string) {
    exists i :: 0 <= i < |ws| && ws[i].id == id
      && forall j :: 0 <= j < |ws| && j != i ==> ws[j].zIndex < ws[i].zIndex
  }

  lemma InitialValid()
    ensures Valid(INITIAL_STATE)
  {
    forall i | 0 <= i < |ICON_CONFIGS|
      ensures SameIcon(INITIAL_DESKTOP_ICONS[i], ICON_CONFIGS[i])
    {
      CalculateIconPositionsSpec(REFERENCE_WIDTH, REFERENCE_HEIGHT, i);
    }
  }

  /** Every layout the resize listener can produce is the configured icon set. */
  lemma ResizePreservesValid(s: DesktopState, width: real, height: real)
    requires Valid(s)
    ensures Valid(ResizeStep(s, width, height))
  {
    forall i | 0 <= i < |ICON_CONFIGS|
      ensures SameIcon(CalculateIconPositions(width, height)[i], ICON_CONFIGS[i])
    {
      CalculateIconPositionsSpec(width, height, i);
    }
  }

  /** Dragging changes only positions, never which icons exist. */
  lemma MovePreservesValid(s: DesktopState, id: string, x: real, y: real)
    requires Valid(s)
    ensures Valid(MoveStep(s, id, x, y))
  {
  }

  /** Raising a window keeps the list well formed once the counter moves past the z-index it handed out. */
  lemma RaisePreservesValid(ws: seq<OpenWindow>, id: string, z: int)
    requires WindowsValid(ws, z)
    ensures WindowsValid(Raise(ws, id, z), z + 1)
  {
    var r := Raise(ws, id, z);
    forall v | v in r ensures FromSomeIcon(v) {
      var i :| 0 <= i < |r| && r[i] == v;
      assert ws[i] in ws;
    }
  }

  lemma FocusPreservesValid(s: DesktopState, id: string)
    requires Valid(s)
    ensures Valid(FocusStep(s, id))
  {
    RaisePreservesValid(s.openWindows, id, s.nextZIndex);
  }

  /** A window opened from one of a well-formed desktop's icons belongs to a configured icon. */
  lemma NewWindowFromIcon(icons: seq<DesktopIconData>, icon: DesktopIconData, position: Position, z: int)
    requires IconsFromConfig(icons) && icon in icons
    ensures FromSomeIcon(NewWindow(icon, position, z))
  {
    var k :| 0 <= k < |icons| && icons[k] == icon;
    assert SameIcon(icon, ICON_CONFIGS[k]);
    assert ICON_CONFIGS[k] in ICON_CONFIGS;
  }

  /** Appending a window with a new id and the counter's z-index keeps the list well formed. */
  lemma AppendPreservesValid(ws: seq<OpenWindow>, w: OpenWindow, z: int)
    requires WindowsValid(ws, z) && FromSomeIcon(w) && w.zIndex == z && !HasWindow(ws, w.id)
    ensures WindowsValid(ws + [w], z + 1)
  {
    var r := ws + [w];
    forall i | 0 <= i < |ws| ensures r[i].id != w.id {
      assert ws[i] in ws;
    }
    forall v | v in r ensures FromSomeIcon(v) {
      if v != w {
        assert v in ws;
      }
    }
  }

  /** Opening one of the desktop's icons keeps the window list well formed. */
  lemma OpenPreservesValid(s: DesktopState, icon: DesktopIconData, position: Position)
    requires Valid(s) && icon in s.icons
    ensures Valid(OpenStep(s, icon, position))
  {
    if HasWindow(s.openWindows, icon.id) {
      RaisePreservesValid(s.openWindows, icon.id, s.nextZIndex);
    } else {
      NewWindowFromIcon(s.icons, icon, position, s.nextZIndex);
      AppendPreservesValid(s.openWindows, NewWindow(icon, position, s.nextZIndex), s.nextZIndex);
    }
  }

  /** A window that clashes with none of a list keeps ids and z-indices distinct when put in front. */
  lemma ConsDistinct(w: OpenWindow, rest: seq<OpenWindow>)
    requires forall i, j :: 0 <= i < j < |rest| ==> rest[i].id != rest[j].id && rest[i].zIndex != rest[j].zIndex
    requires forall v :: v in rest ==> v.id != w.id && v.zIndex != w.zIndex
    ensures var r := [w] + rest;
            forall i, j :: 0 <= i < j < |r| ==> r[i].id != r[j].id && r[i].zIndex != r[j].zIndex
  {
    var r := [w] + rest;
    forall i, j | 0 <= i < j < |r| ensures r[i].id != r[j].id && r[i].zIndex != r[j].zIndex {
      assert r[j] == rest[j - 1];
      if i > 0 {
        assert r[i] == rest[i - 1];
      } else {
        assert rest[j - 1] in rest;
      }
    }
  }

  lemma ConsInRange(w: OpenWindow, rest: seq<OpenWindow>, z: int)
    requires forall i :: 0 <= i < |rest| ==> WINDOW_Z_INDEX_START <= rest[i].zIndex < z
    requires WINDOW_Z_INDEX_START <= w.zIndex < z
    ensures var r := [w] + rest;
            forall i :: 0 <= i < |r| ==> WINDOW_Z_INDEX_START <= r[i].zIndex < z
  {
    var r := [w] + rest;
    forall i | 0 <= i < |r| ensures WINDOW_Z_INDEX_START <= r[i].zIndex < z {
      if i > 0 {
        assert r[i] == rest[i - 1];
      }
    }
  }

  lemma ConsFromIcon(w: OpenWindow, rest: seq<OpenWindow>)
    requires FromSomeIcon(w) && forall v :: v in rest ==> FromSomeIcon(v)
    ensures forall v :: v in [w] + rest ==> FromSomeIcon(v)
  {
    forall v | v in [w] + rest ensures FromSomeIcon(v) {
      if v != w {
        assert v in rest;
      }
    }
  }

  /** Putting a window in front of a list keeps it well formed when it clashes with none of them. */
  lemma ConsPreservesValid(w: OpenWindow, rest: seq<OpenWindow>, z: int)
    requires WindowsValid(rest, z) && FromSomeIcon(w) && WINDOW_Z_INDEX_START <= w.zIndex < z
    requires forall v :: v in rest ==> v.id != w.id && v.zIndex != w.zIndex
    ensures WindowsValid([w] + rest, z)
  {
    ConsDistinct(w, rest);
    ConsInRange(w, rest, z);
    ConsFromIcon(w, rest);
  }

  /** Dropping the first window keeps the list well formed. */
  lemma TailPreservesValid(ws: seq<OpenWindow>, z: int)
    requires ws != [] && WindowsValid(ws, z)
    ensures WindowsValid(ws[1..], z)
    ensures forall v :: v in ws[1..] ==> v.id != ws[0].id && v.zIndex != ws[0].zIndex
  {
    var tail := ws[1..];
    forall v | v in tail ensures v.id != ws[0].id && v.zIndex != ws[0].zIndex {
      var k :| 0 <= k < |tail| && tail[k] == v;
      assert ws[k + 1] == v;
    }
    forall i, j | 0 <= i < j < |tail| ensures tail[i].id != tail[j].id && tail[i].zIndex != tail[j].zIndex {
      assert tail[i] == ws[i + 1] && tail[j] == ws[j + 1];
    }
  }

  /** Closing keeps the list well formed. */
  lemma {:induction false} CloseWindowsPreservesValid(ws: seq<OpenWindow>, id: string, z: int)
    requires WindowsValid(ws, z)
    ensures WindowsValid(CloseWindows(ws, id), z)
  {
    if ws != [] {
      TailPreservesValid(ws, z);
      CloseWindowsPreservesValid(ws[1..], id, z);
      if ws[0].id != id {
        assert ws[0] in ws;
        ConsPreservesValid(ws[0], CloseWindows(ws[1..], id), z);
      }
    }
  }

  lemma ClosePreservesValid(s: DesktopState, id: string)
    requires Valid(s)
    ensures Valid(CloseStep(s, id))
  {
    CloseWindowsPreservesValid(s.openWindows, id, s.nextZIndex);
  }

  /** In a well-formed list the window whose z-index equals the counter minus one is on top. */
  lemma FreshZIsTop(ws: seq<OpenWindow>, id: string, z: int, i: nat)
    requires WindowsValid(ws, z + 1)
    requires i < |ws| && ws[i].id == id && ws[i].zIndex == z
    ensures OnTop(ws, id)
  {
    forall j | 0 <= j < |ws| && j != i ensures ws[j].zIndex < ws[i].zIndex {
      if j < i {
        assert ws[j].zIndex != ws[i].zIndex;
      } else {
        assert ws[i].zIndex != ws[j].zIndex;
      }
    }
  }

  /**
   * Opening an icon leaves a well-formed desktop with exactly one window for
   * it, on top of all others; the list grows by one exactly when no window
   * for it was open, and the counter advances by one.
   */
  lemma OpenBringsToFront(s: DesktopState, icon: DesktopIconData, position: Position)
    requires Valid(s) && icon in s.icons
    ensures var t := OpenStep(s, icon, position);
            && Valid(t)
            && HasWindow(t.openWindows, icon.id)
            && OnTop(t.openWindows, icon.id)
            && OneWindowFor(t.openWindows, icon.id)
            && |t.openWindows| == |s.openWindows| + (if HasWindow(s.openWindows, icon.id) then 0 else 1)
            && t.nextZIndex == s.nextZIndex + 1
  {
    OpenPreservesValid(s, icon, position);
    if HasWindow(s.openWindows, icon.id) {
      RaisedIsOnTop(s.openWindows, icon.id, s.nextZIndex);
    } else {
      AppendedIsOnTop(s.openWindows, NewWindow(icon, position, s.nextZIndex), s.nextZIndex);
    }
    DistinctIdsOneWindow(OpenStep(s, icon, position).openWindows, icon.id);
  }

  /**
   * Where opening puts things: an open window only changes its z-index and
   * the others keep theirs; a new one is appended after the others, 50 px
   * right of and 50 px above the icon, with the counter's z-index.
   */
  lemma OpenPlacement(s: DesktopState, icon: DesktopIconData, position: Position)
    ensures var t := OpenStep(s, icon, position);
            HasWindow(s.openWindows, icon.id) ==>
              forall i :: 0 <= i < |s.openWindows| ==>
                (&& t.openWindows[i].(zIndex := s.openWindows[i].zIndex) == s.openWindows[i]
                 && (t.openWindows[i].id != icon.id ==> t.openWindows[i].zIndex == s.openWindows[i].zIndex))
    ensures var t := OpenStep(s, icon, position);
            !HasWindow(s.openWindows, icon.id) ==>
              && t.openWindows[..|s.openWindows|] == s.openWindows
              && t.openWindows[|s.openWindows|]
                 == OpenWindow(icon.id, icon.title, icon.projectIndex, s.nextZIndex,
                               Position(position.x + 50.0, position.y - 50.0))
  {
    var t := OpenStep(s, icon, position);
    if !HasWindow(s.openWindows, icon.id) {
      assert t.openWindows[..|s.openWindows|] == s.openWindows;
    }
  }

  /** At most one window in the list has this id. */
  predicate OneWindowFor(ws: seq<OpenWindow>, id: string) {
    forall i, j :: 0 <= i < |ws| && 0 <= j < |ws| && ws[i].id == id && ws[j].id == id ==> i == j
  }

  lemma DistinctIdsOneWindow(ws: seq<OpenWindow>, id: string)
    requires forall i, j :: 0 <= i < j < |ws| ==> ws[i].id != ws[j].id
    ensures OneWindowFor(ws, id)
  {
  }

  /** The window raised to the counter's z-index is on top. */
  lemma RaisedIsOnTop(ws: seq<OpenWindow>, id: string, z: int)
    requires HasWindow(ws, id) && WindowsValid(Raise(ws, id, z), z + 1)
    ensures HasWindow(Raise(ws, id, z), id) && OnTop(Raise(ws, id, z), id)
  {
    var r := Raise(ws, id, z);
    var w :| w in ws && w.id == id;
    var i :| 0 <= i < |ws| && ws[i] == w;
    assert r[i] in r;
    FreshZIsTop(r, id, z, i);
  }

  /** A window appended with the counter's z-index is on top. */
  lemma AppendedIsOnTop(ws: seq<OpenWindow>, w: OpenWindow, z: int)
    requires w.zIndex == z && WindowsValid(ws + [w], z + 1)
    ensures HasWindow(ws + [w], w.id) && OnTop(ws + [w], w.id)
  {
    var r := ws + [w];
    var i := |ws|;
    assert r[i] in r;
    FreshZIsTop(r, w.id, z, i);
  }

  /** Opening an icon whose window is open is the same as focusing that window. */
  lemma OpenExistingIsFocus(s: DesktopState, icon: DesktopIconData, position: Position)
    requires HasWindow(s.openWindows, icon.id)
    ensures OpenStep(s, icon, position) == FocusStep(s, icon.id)
  {
  }

  /** Opening the same icon twice never yields a second window for it. */
  lemma OpenTwiceOneWindow(s: DesktopState, icon: DesktopIconData, p1: Position, p2: Position)
    requires Valid(s) && icon in s.icons
    ensures var t := OpenStep(OpenStep(s, icon, p1), icon, p2);
            && |t.openWindows| == |OpenStep(s, icon, p1).openWindows|
            && t.nextZIndex == s.nextZIndex + 2
            && OnTop(t.openWindows, icon.id)
  {
    OpenBringsToFront(s, icon, p1);
    OpenPreservesValid(s, icon, p1);
    OpenBringsToFront(OpenStep(s, icon, p1), icon, p2);
  }

  /** Focusing an open window puts it on top; focusing an unknown id only spends a z-index. */
  lemma FocusSpec(s: DesktopState, id: string)
    requires Valid(s)
    ensures HasWindow(s.openWindows, id) ==> OnTop(FocusStep(s, id).openWindows, id)
    ensures !HasWindow(s.openWindows, id) ==> FocusStep(s, id) == s.(nextZIndex := s.nextZIndex + 1)
  {
    var t := FocusStep(s, id);
    if HasWindow(s.openWindows, id) {
      var w :| w in s.openWindows && w.id == id;
      var i :| 0 <= i < |s.openWindows| && s.openWindows[i] == w;
      RaisePreservesValid(s.openWindows, id, s.nextZIndex);
      FreshZIsTop(t.openWindows, id, s.nextZIndex, i);
    } else {
      forall i | 0 <= i < |s.openWindows| ensures t.openWindows[i] == s.openWindows[i] {
        assert s.openWindows[i] in s.openWindows;
      }
    }
  }

  /**
   * Closing removes every window with the id and keeps all the others. An
   * unknown id changes nothing; a known one is cut out of the list, and the
   * windows before and after it keep their order.
   */
  lemma CloseSpec(s: DesktopState, id: string)
    requires Valid(s)
    ensures !HasWindow(CloseStep(s, id).openWindows, id)
    ensures forall w :: w in s.openWindows && w.id != id ==> w in CloseStep(s, id).openWindows
    ensures |CloseStep(s, id).openWindows| == |s.openWindows| - (if HasWindow(s.openWindows, id) then 1 else 0)
    ensures !HasWindow(s.openWindows, id) ==> CloseStep(s, id) == s
    ensures HasWindow(s.openWindows, id) ==>
              exists k :: 0 <= k < |s.openWindows| && s.openWindows[k].id == id
                && CloseStep(s, id).openWindows == s.openWindows[..k] + s.openWindows[k + 1..]
  {
    CloseDistinct(s.openWindows, id);
  }

  /** `CloseSpec` on the window list alone, where only distinct ids matter. */
  lemma CloseDistinct(ws: seq<OpenWindow>, id: string)
    requires forall i, j :: 0 <= i < j < |ws| ==> ws[i].id != ws[j].id
    ensures !HasWindow(CloseWindows(ws, id), id)
    ensures |CloseWindows(ws, id)| == |ws| - (if HasWindow(ws, id) then 1 else 0)
    ensures !HasWindow(ws, id) ==> CloseWindows(ws, id) == ws
    ensures HasWindow(ws, id) ==>
              exists k :: 0 <= k < |ws| && ws[k].id == id && CloseWindows(ws, id) == ws[..k] + ws[k + 1..]
  {
    CloseWindowsCount(ws, id);
    if !HasWindow(ws, id) {
      CloseWindowsAbsent(ws, id);
    } else {
      var w :| w in ws && w.id == id;
      var k :| 0 <= k < |ws| && ws[k] == w;
      CloseCutsOne(ws, id, k);
    }
  }

  /** With distinct ids, closing the id of window `k` cuts exactly that window out. */
  lemma CloseCutsOne(ws: seq<OpenWindow>, id: string, k: nat)
    requires forall i, j :: 0 <= i < j < |ws| ==> ws[i].id != ws[j].id
    requires k < |ws| && ws[k].id == id
    ensures CloseWindows(ws, id) == ws[..k] + ws[k + 1..]
  {
    assert ws == ws[..k] + ([ws[k]] + ws[k + 1..]);
    OthersLackId(ws, id, k, 0, k);
    OthersLackId(ws, id, k, k + 1, |ws|);
    CloseAround(ws[..k], ws[k], ws[k + 1..], id);
  }

  /** With distinct ids, no window of a slice that avoids index `k` has the id of window `k`. */
  lemma OthersLackId(ws: seq<OpenWindow>, id: string, k: nat, lo: nat, hi: nat)
    requires forall i, j :: 0 <= i < j < |ws| ==> ws[i].id != ws[j].id
    requires k < |ws| && ws[k].id == id
    requires lo <= hi <= |ws| && (hi <= k || k < lo)
    ensures forall v :: v in ws[lo..hi] ==> v.id != id
  {
    forall v | v in ws[lo..hi] ensures v.id != id {
      var i :| lo <= i < hi && ws[i] == v;
    }
  }

  /** Closing `id` around the one window that has it leaves the windows on either side. */
  lemma CloseAround(before: seq<OpenWindow>, w: OpenWindow, after: seq<OpenWindow>, id: string)
    requires forall v :: v in before ==> v.id != id
    requires forall v :: v in after ==> v.id != id
    requires w.id == id
    ensures CloseWindows(before + ([w] + after), id) == before + after
  {
    CloseWindowsAbsent(before, id);
    CloseWindowsAbsent(after, id);
    CloseWindowsSingle(w, id);
    CloseWindowsAppend([w], after, id);
    CloseWindowsAppend(before, [w] + after, id);
  }

  /** Closing a concatenation closes each part in turn: the surviving windows keep their order. */
  lemma {:induction false} CloseWindowsAppend(a: seq<OpenWindow>, b: seq<OpenWindow>, id: string)
    ensures CloseWindows(a + b, id) == CloseWindows(a, id) + CloseWindows(b, id)
  {
    if a == [] {
      assert a + b == b;
    } else {
      assert (a + b)[0] == a[0] && (a + b)[1..] == a[1..] + b;
      CloseWindowsAppend(a[1..], b, id);
    }
  }

  /** One window is closed exactly when it has the id. */
  lemma CloseWindowsSingle(w: OpenWindow, id: string)
    ensures CloseWindows([w], id) == if w.id == id then [] else [w]
  {
    assert [w][1..] == [];
  }

  /** Closing an id no window has leaves the list as it is. */
  lemma {:induction false} CloseWindowsAbsent(ws: seq<OpenWindow>, id: string)
    requires !HasWindow(ws, id)
    ensures CloseWindows(ws, id) == ws
  {
    if ws != [] {
      assert ws[0] in ws;
      assert !HasWindow(ws[1..], id) by {
        forall w | w in ws[1..] ensures w.id != id {
          assert w in ws;
        }
      }
      CloseWindowsAbsent(ws[1..], id);
      assert ws == [ws[0]] + ws[1..];
    }
  }

  /** Ids stay distinct in the tail of a list. */
  lemma TailIdsDistinct(ws: seq<OpenWindow>)
    requires ws != [] && forall i, j :: 0 <= i < j < |ws| ==> ws[i].id != ws[j].id
    ensures forall i, j :: 0 <= i < j < |ws[1..]| ==> ws[1..][i].id != ws[1..][j].id
  {
    var tail := ws[1..];
    forall i, j | 0 <= i < j < |tail| ensures tail[i].id != tail[j].id {
      assert tail[i] == ws[i + 1] && tail[j] == ws[j + 1];
    }
  }

  /** A list has a window with this id exactly when its head or its tail does; with distinct ids, not both. */
  lemma HasWindowCons(ws: seq<OpenWindow>, id: string)
    requires ws != [] && forall i, j :: 0 <= i < j < |ws| ==> ws[i].id != ws[j].id
    ensures HasWindow(ws, id) <==> ws[0].id == id || HasWindow(ws[1..], id)
    ensures ws[0].id == id ==> !HasWindow(ws[1..], id)
  {
    var tail := ws[1..];
    if HasWindow(ws, id) && ws[0].id != id {
      var w :| w in ws && w.id == id;
      var k :| 0 <= k < |ws| && ws[k] == w;
      assert k > 0 && ws[k] == tail[k - 1];
    }
    if HasWindow(tail, id) {
      var w :| w in tail && w.id == id;
      var k :| 0 <= k < |tail| && tail[k] == w;
      assert ws[k + 1] == w;
    }
    assert ws[0] in ws;
  }

  lemma {:induction false} CloseWindowsCount(ws: seq<OpenWindow>, id: string)
    requires forall i, j :: 0 <= i < j < |ws| ==> ws[i].id != ws[j].id
    ensures |CloseWindows(ws, id)| == |ws| - (if HasWindow(ws, id) then 1 else 0)
  {
    if ws != [] {
      TailIdsDistinct(ws);
      CloseWindowsCount(ws[1..], id);
      HasWindowCons(ws, id);
    }
  }

  /**
   * Every open window of a well-formed desktop names a row of the project
   * table, and that row's details panel finds its content.
   */
  lemma WindowsShowProjects(s: DesktopState)
    requires Valid(s)
    ensures forall i :: 0 <= i < |s.openWindows| ==>
              0 <= s.openWindows[i].projectIndex < |ProjectData.DATA|
              && ProjectData.RenderProjectContent(ProjectData.DATA[s.openWindows[i].projectIndex].content).Details?
  {
    IconConfigsWellFormed();
    ProjectData.DataRowsResolve();
    forall i | 0 <= i < |s.openWindows|
      ensures 0 <= s.openWindows[i].projectIndex < |ProjectData.DATA|
    {
      assert s.openWindows[i] in s.openWindows;
      var c :| c in ICON_CONFIGS && s.openWindows[i].projectIndex == c.projectIndex;
      var k :| 0 <= k < |ICON_CONFIGS| && ICON_CONFIGS[k] == c;
    }
  }

  // ---------------------------------------------------------------------
  // Sequences of handler calls
  // ---------------------------------------------------------------------

  /** One call of a handler, with its arguments. */
  datatype DesktopEvent =
    | IconOpen(icon: DesktopIconData, position: Position)
    | WindowClose(windowId: string)
    | WindowFocus(focusId: string)
    | IconMove(iconId: string, x: real, y: real)
    | Resize(width: real, height: real)
    | ToggleQuick

  function Step(s: DesktopState, e: DesktopEvent): DesktopState {
    match e
    case IconOpen(icon, position) => OpenStep(s, icon, position)
    case WindowClose(id) => CloseStep(s, id)
    case WindowFocus(id) => FocusStep(s, id)
    case IconMove(id, x, y) => MoveStep(s, id, x, y)
    case Resize(width, height) => ResizeStep(s, width, height)
    case ToggleQuick => ToggleQuickStep(s)
  }

  /** Icons are opened only from the icons on the desktop. */
  predicate Allowed(s: DesktopState, e: DesktopEvent) {
    e.IconOpen? ==> e.icon in s.icons
  }

  /** The state after the handler calls, one after another. */
  function Run(s: DesktopState, events: seq<DesktopEvent>): DesktopState
    decreases |events|
  {
    if events == [] then s else Run(Step(s, events[0]), events[1..])
  }

  predicate RunAllowed(s: DesktopState, events: seq<DesktopEvent>)
    decreases |events|
  {
    events == [] || (Allowed(s, events[0]) && RunAllowed(Step(s, events[0]), events[1..]))
  }

  /** The handlers that draw a z-index from the counter: open and focus. */
  predicate Draws(e: DesktopEvent) {
    e.IconOpen? || e.WindowFocus?
  }

  function DrawCount(events: seq<DesktopEvent>): nat {
    if events == [] then 0 else (if Draws(events[0]) then 1 else 0) + DrawCount(events[1..])
  }

  /**
   * The window most recently opened or focused, while it stays open: an
   * open or a focus of an open window names it, closing it forgets it, and
   * every other call leaves it as it was.
   */
  function Touch(s: DesktopState, last: Option<string>, e: DesktopEvent): Option<string> {
    match e
    case IconOpen(icon, _) => Some(icon.id)
    case WindowFocus(id) => if HasWindow(s.openWindows, id) then Some(id) else last
    case WindowClose(id) => if last == Some(id) then None else last
    case _ => last
  }

  function LastTouched(s: DesktopState, last: Option<string>, events: seq<DesktopEvent>): Option<string>
    decreases |events|
  {
    if events == [] then last
    else LastTouched(Step(s, events[0]), Touch(s, last, events[0]), events[1..])
  }

  /** The remembered window, if any, is drawn above every other. */
  predicate TopKept(ws: seq<OpenWindow>, last: Option<string>) {
    last.Some? ==> OnTop(ws, last.value)
  }

  /** Closing another window keeps the top window on top. */
  lemma CloseKeepsTop(s: DesktopState, id: string, top: string)
    requires Valid(s) && OnTop(s.openWindows, top) && top != id
    ensures OnTop(CloseStep(s, id).openWindows, top)
  {
    var ws := s.openWindows;
    var r := CloseWindows(ws, id);
    CloseWindowsPreservesValid(ws, id, s.nextZIndex);
    var i :| 0 <= i < |ws| && ws[i].id == top
             && forall j :: 0 <= j < |ws| && j != i ==> ws[j].zIndex < ws[i].zIndex;
    assert ws[i] in ws;
    var k :| 0 <= k < |r| && r[k] == ws[i];
    forall j | 0 <= j < |r| && j != k ensures r[j].zIndex < r[k].zIndex {
      assert r[j].id != r[k].id by {
        if j < k {
          assert r[j].id != r[k].id;
        } else {
          assert r[k].id != r[j].id;
        }
      }
      assert r[j] in r;
      var m :| 0 <= m < |ws| && ws[m] == r[j];
    }
  }

  /** Each handler call keeps the desktop well formed and advances the counter by one exactly when it draws. */
  lemma StepPreservesValid(s: DesktopState, e: DesktopEvent)
    requires Valid(s) && Allowed(s, e)
    ensures Valid(Step(s, e))
    ensures Step(s, e).nextZIndex == s.nextZIndex + (if Draws(e) then 1 else 0)
  {
    match e
    case IconOpen(icon, position) => OpenPreservesValid(s, icon, position);
    case WindowClose(id) => ClosePreservesValid(s, id);
    case WindowFocus(id) => FocusPreservesValid(s, id);
    case IconMove(id, x, y) => MovePreservesValid(s, id, x, y);
    case Resize(width, height) => ResizePreservesValid(s, width, height);
    case ToggleQuick =>
  }

  /** Each handler call keeps the most recently opened or focused window on top. */
  lemma StepKeepsTop(s: DesktopState, e: DesktopEvent, last: Option<string>)
    requires Valid(s) && Allowed(s, e) && TopKept(s.openWindows, last)
    ensures TopKept(Step(s, e).openWindows, Touch(s, last, e))
  {
    match e
    case IconOpen(icon, position) => OpenBringsToFront(s, icon, position);
    case WindowClose(id) =>
      if last.Some? && last.value != id {
        CloseKeepsTop(s, id, last.value);
      }
    case WindowFocus(id) => FocusSpec(s, id);
    case IconMove(id, x, y) =>
    case Resize(width, height) =>
    case ToggleQuick =>
  }

  /** The counter ends as many z-indices above where it started as there were opens and focuses. */
  lemma {:induction false} RunCounter(s: DesktopState, events: seq<DesktopEvent>)
    ensures Run(s, events).nextZIndex == s.nextZIndex + DrawCount(events)
    decreases |events|
  {
    if events != [] {
      RunCounter(Step(s, events[0]), events[1..]);
    }
  }

  /** Running a prefix, then the rest, is running the whole sequence. */
  lemma {:induction false} RunSplit(s: DesktopState, events: seq<DesktopEvent>, k: nat)
    requires k <= |events|
    ensures Run(s, events) == Run(Run(s, events[..k]), events[k..])
    ensures DrawCount(events) == DrawCount(events[..k]) + DrawCount(events[k..])
    decreases k
  {
    if k > 0 {
      assert events[..k][0] == events[0] && events[..k][1..] == events[1..][..k - 1];
      assert events[k..] == events[1..][k - 1..];
      RunSplit(Step(s, events[0]), events[1..], k - 1);
    } else {
      assert events[k..] == events;
    }
  }

  /** The counter never decreases: after any prefix of the calls it is at most its final value. */
  lemma CounterNeverDecreases(s: DesktopState, events: seq<DesktopEvent>, k: nat)
    requires k <= |events|
    ensures s.nextZIndex <= Run(s, events[..k]).nextZIndex <= Run(s, events).nextZIndex
  {
    RunSplit(s, events, k);
    RunCounter(s, events[..k]);
    RunCounter(Run(s, events[..k]), events[k..]);
  }

  /**
   * Over any sequence of handler calls the desktop stays well formed, the
   * window most recently opened or focused (until it is closed) has the
   * strictly greatest z-index, and the counter has advanced once per open
   * and focus.
   */
  lemma {:induction false} RunKeepsTop(s: DesktopState, events: seq<DesktopEvent>, last: Option<string>)
    requires Valid(s) && TopKept(s.openWindows, last) && RunAllowed(s, events)
    ensures Valid(Run(s, events))
    ensures TopKept(Run(s, events).openWindows, LastTouched(s, last, events))
    decreases |events|
  {
    if events != [] {
      StepPreservesValid(s, events[0]);
      StepKeepsTop(s, events[0], last);
      RunKeepsTop(Step(s, events[0]), events[1..], Touch(s, last, events[0]));
    }
  }

  /** From the initial desktop, after any calls, the last window opened or focused is on top. */
  lemma RunFromStart(events: seq<DesktopEvent>)
    requires RunAllowed(INITIAL_STATE, events)
    ensures Valid(Run(INITIAL_STATE, events))
    ensures TopKept(Run(INITIAL_STATE, events).openWindows, LastTouched(INITIAL_STATE, None, events))
    ensures Run(INITIAL_STATE, events).nextZIndex == WINDOW_Z_INDEX_START + DrawCount(events)
  {
    InitialValid();
    RunKeepsTop(INITIAL_STATE, events, None);
    RunCounter(INITIAL_STATE, events);
  }

  /**
   * The component: its state variables updated in place by the handlers.
   * Each method performs the corresponding step and keeps `Valid`, and the
   * ghost `lastTouched` follows `Touch`, so the window it names stays on top.
   */
  class Desktop {
    var icons: seq<DesktopIconData>
    var openWindows: seq<OpenWindow>
    var nextZIndex: int
    var showQuickQuestions: bool
    /** The window most recently opened or focused, while it stays open. */
    ghost var lastTouched: Option<string>

    function Snapshot(): DesktopState
      reads this
    {
      DesktopState(icons, openWindows, nextZIndex, showQuickQuestions)
    }

    constructor ()
      ensures Snapshot() == INITIAL_STATE && Valid(Snapshot()) && lastTouched == None
    {
      icons := INITIAL_DESKTOP_ICONS;
      openWindows := [];
      nextZIndex := WINDOW_Z_INDEX_START;
      showQuickQuestions := true;
      lastTouched := None;
      InitialValid();
    }

    /** The mount-time call and every later resize event. */
    method UpdateIconPositions(width: real, height: real)
      requires Valid(Snapshot()) && TopKept(openWindows, lastTouched)
      modifies this
      ensures Snapshot() == ResizeStep(old(Snapshot()), width, height) && Valid(Snapshot())
      ensures lastTouched == old(lastTouched) && TopKept(openWindows, lastTouched)
    {
      ResizePreservesValid(Snapshot(), width, height);
      icons := CalculateIconPositions(width, height);
    }

    method HandleIconOpen(icon: DesktopIconData, position: Position)
      requires Valid(Snapshot()) && icon in icons && TopKept(openWindows, lastTouched)
      modifies this
      ensures Snapshot() == OpenStep(old(Snapshot()), icon, position) && Valid(Snapshot())
      ensures OnTop(openWindows, icon.id)
      ensures lastTouched == Some(icon.id) && TopKept(openWindows, lastTouched)
    {
      OpenBringsToFront(Snapshot(), icon, position);
      OpenPreservesValid(Snapshot(), icon, position);
      if HasWindow(openWindows, icon.id) {
        openWindows := Raise(openWindows, icon.id, nextZIndex);
        nextZIndex := nextZIndex + 1;
      } else {
        openWindows := openWindows + [NewWindow(icon, position, nextZIndex)];
        nextZIndex := nextZIndex + 1;
      }
      lastTouched := Some(icon.id);
    }

    method HandleWindowClose(windowId: string)
      requires Valid(Snapshot()) && TopKept(openWindows, lastTouched)
      modifies this
      ensures Snapshot() == CloseStep(old(Snapshot()), windowId) && Valid(Snapshot())
      ensures !HasWindow(openWindows, windowId)
      ensures lastTouched == Touch(old(Snapshot()), old(lastTouched), WindowClose(windowId))
      ensures TopKept(openWindows, lastTouched)
    {
      ClosePreservesValid(Snapshot(), windowId);
      CloseSpec(Snapshot(), windowId);
      StepKeepsTop(Snapshot(), WindowClose(windowId), lastTouched);
      lastTouched := Touch(Snapshot(), lastTouched, WindowClose(windowId));
      openWindows := CloseWindows(openWindows, windowId);
    }

    method HandleWindowFocus(windowId: string)
      requires Valid(Snapshot()) && TopKept(openWindows, lastTouched)
      modifies this
      ensures Snapshot() == FocusStep(old(Snapshot()), windowId) && Valid(Snapshot())
      ensures HasWindow(old(openWindows), windowId) ==> OnTop(openWindows, windowId)
      ensures lastTouched == Touch(old(Snapshot()), old(lastTouched), WindowFocus(windowId))
      ensures TopKept(openWindows, lastTouched)
    {
      FocusPreservesValid(Snapshot(), windowId);
      FocusSpec(Snapshot(), windowId);
      StepKeepsTop(Snapshot(), WindowFocus(windowId), lastTouched);
      lastTouched := Touch(Snapshot(), lastTouched, WindowFocus(windowId));
      openWindows := Raise(openWindows, windowId, nextZIndex);
      nextZIndex := nextZIndex + 1;
    }

    method HandleIconPositionChange(iconId: string, x: real, y: real)
      requires Valid(Snapshot()) && TopKept(openWindows, lastTouched)
      modifies this
      ensures Snapshot() == MoveStep(old(Snapshot()), iconId, x, y) && Valid(Snapshot())
      ensures lastTouched == old(lastTouched) && TopKept(openWindows, lastTouched)
    {
      MovePreservesValid(Snapshot(), iconId, x, y);
      icons := MoveIcon(icons, iconId, x, y);
    }

    method ToggleQuickQuestions()
      modifies this
      ensures Snapshot() == ToggleQuickStep(old(Snapshot()))
      ensures lastTouched == old(lastTouched)
    {
      showQuickQuestions := !showQuickQuestions;
    }
  }
}
