/**
 * One draggable desktop icon (DesktopIcon.tsx): its box geometry, and the
 * gesture logic that tells a click from a drag. The clock (`Date.now()`) is
 * a parameter, and the 100 ms `setTimeout` that re-enables clicks is an
 * explicit `FireDragReset` step.
 */
module DesktopIcon {
  import opened Wrappers
  import opened DesktopTypes
  import opened DesktopConstants

  /** `icon.size || { width: 80, height: 80 }`. */
  function IconSize(size: Option<Size>): Size {
    size.GetOr(Size(80, 80))
  }

  /** The side of the square the icon is laid out in. */
  function MaxDimension(size: Size): (m: int)
    ensures m >= size.width && m >= size.height
    ensures m == size.width || m == size.height
  {
    if size.width >= size.height then size.width else size.height
  }

  /** The box's top-left corner (`left`, `top`): the icon's position is the box's centre. */
  function BoxOrigin(position: Position, maxDimension: int): (o: Position)
    ensures o.x + maxDimension as real / 2.0 == position.x
    ensures o.y + maxDimension as real / 2.0 == position.y
  {
    Position(position.x - maxDimension as real / 2.0, position.y - maxDimension as real / 2.0)
  }

  /** The label is at least 120 px wide and at least 20 px wider than the box. */
  function LabelMaxWidth(maxDimension: int): (w: int)
    ensures w >= 120 && w >= maxDimension + 20
    ensures w == 120 || w == maxDimension + 20
  {
    if maxDimension + 20 >= 120 then maxDimension + 20 else 120
  }

  const CLICK_MAX_DURATION_MS: int := 200
  const CLICK_MAX_DISTANCE: real := 5.0
  const DRAG_RESET_DELAY_MS: nat := 100

  /**
   * A drag counts as a click when it lasted under 200 ms and moved less than
   * 5 px. The Euclidean distance is compared through its square, which is
   * the same test for a non-negative bound.
   */
  predicate IsClickLike(start: Position, end: Position, durationMs: int) {
    var dx, dy := end.x - start.x, end.y - start.y;
    durationMs < CLICK_MAX_DURATION_MS && dx * dx + dy * dy < CLICK_MAX_DISTANCE * CLICK_MAX_DISTANCE
  }

  /**
   * The icon's gesture state: `isDragging`, `currentPosition`, the two refs
   * taken at drag start, and how many click re-enabling timeouts are pending.
   */
  datatype Gesture = Gesture(
    isDragging: bool,
    currentPosition: Position,
    dragStartPos: Position,
    dragStartTime: int,
    pendingResets: nat)

  function InitialGesture(iconPosition: Position): Gesture {
    Gesture(false, iconPosition, Position(0.0, 0.0), 0, 0)
  }

  function DragStartStep(g: Gesture, point: Position, now: int): Gesture {
    g.(isDragging := true, dragStartPos := point, dragStartTime := now)
  }

  function DragStep(g: Gesture, point: Position): Gesture {
    g.(currentPosition := point)
  }

  /** The drop: the icon stays where it was dropped and opens there if the drag was click-like. */
  function DragEndStep(g: Gesture, point: Position, now: int): (Gesture, Option<Position>) {
    (g.(currentPosition := point, pendingResets := g.pendingResets + 1),
     if IsClickLike(g.dragStartPos, point, now - g.dragStartTime) then Some(point) else None)
  }

  /** A click opens the icon at its current position unless a drag is in progress. */
  function ClickStep(g: Gesture): Option<Position> {
    if g.isDragging then None else Some(g.currentPosition)
  }

  /** One pending 100 ms timeout fires: clicks are allowed again. */
  function ResetStep(g: Gesture): Gesture
    requires g.pendingResets > 0
  {
    g.(isDragging := false, pendingResets := g.pendingResets - 1)
  }

  /** Apply `DragStep` for each reported pointer position. */
  function DragThrough(g: Gesture, points: seq<Position>): (r: Gesture)
    ensures r.isDragging == g.isDragging && r.pendingResets == g.pendingResets
    ensures r.dragStartPos == g.dragStartPos && r.dragStartTime == g.dragStartTime
    ensures points != [] ==> r.currentPosition == points[|points| - 1]
    ensures points == [] ==> r == g
    decreases |points|
  {
    if points == [] then g else DragThrough(DragStep(g, points[0]), points[1..])
  }

  /**
   * A press-move-release gesture opens the icon at most once: the drop may
   * open it, but a click that arrives before the 100 ms timeout fires is
   * ignored, however the pointer moved in between.
   */
  lemma DragThenClickOpensOnce(g: Gesture, start: Position, moves: seq<Position>, end: Position, t0: int, t1: int)
    ensures var res := DragEndStep(DragThrough(DragStartStep(g, start, t0), moves), end, t1);
            var after := res.0;
            var openAt := res.1;
            && ClickStep(after) == None
            && (openAt.Some? <==> IsClickLike(start, end, t1 - t0))
            && after.currentPosition == end
            && after.pendingResets == g.pendingResets + 1
  {
  }

  /** Once the only pending timeout fires, a click opens the icon where it was last dropped. */
  lemma ClickAfterResetOpensAtDrop(g: Gesture, start: Position, end: Position, t0: int, t1: int)
    requires g.pendingResets == 0
    ensures var after := ResetStep(DragEndStep(DragStartStep(g, start, t0), end, t1).0);
            && after.pendingResets == 0
            && ClickStep(after) == Some(end)
  {
  }

  /** A motionless, instant drag is click-like; a move of 5 px or more, or a hold of 200 ms or more, is not. */
  lemma ClickLikeBounds(start: Position, end: Position, d: int)
    ensures IsClickLike(start, start, 0)
    ensures d >= 200 ==> !IsClickLike(start, end, d)
    ensures (end.x - start.x >= 5.0 || start.x - end.x >= 5.0) ==> !IsClickLike(start, end, d)
  {
    var dx, dy := end.x - start.x, end.y - start.y;
    if dx >= 5.0 || -dx >= 5.0 {
      assert dx * dx >= 25.0;
      assert dy * dy >= 0.0;
    }
  }

  /** Every configured icon is laid out in a 65 to 95 px box under a 120 px label. */
  lemma ConfiguredIconGeometry(i: nat)
    requires i < |ICON_CONFIGS|
    ensures var m := MaxDimension(IconSize(Some(ICON_CONFIGS[i].size)));
            && LabelMaxWidth(m) == 120
            && 65 <= m <= 95
  {
  }

  /**
   * The icon's local gesture state, updated in place by the drag and click
   * handlers; each method performs the corresponding step.
   */
  class IconGesture {
    var isDragging: bool
    var currentPosition: Position
    var dragStartPos: Position
    var dragStartTime: int
    var pendingResets: nat

    function Snapshot(): Gesture
      reads this
    {
      Gesture(isDragging, currentPosition, dragStartPos, dragStartTime, pendingResets)
    }

    constructor (iconPosition: Position)
      ensures Snapshot() == InitialGesture(iconPosition)
    {
      isDragging := false;
      currentPosition := iconPosition;
      dragStartPos := Position(0.0, 0.0);
      dragStartTime := 0;
      pendingResets := 0;
    }

    method OnDragStart(point: Position, now: int)
      modifies this
      ensures Snapshot() == DragStartStep(old(Snapshot()), point, now)
    {
      isDragging := true;
      dragStartPos := point;
      dragStartTime := now;
    }

    method OnDrag(point: Position)
      modifies this
      ensures Snapshot() == DragStep(old(Snapshot()), point)
    {
      currentPosition := point;
    }

    /** Returns the position the icon asks to be opened at, if the drag was click-like. */
    method OnDragEnd(point: Position, now: int) returns (openAt: Option<Position>)
      modifies this
      ensures (Snapshot(), openAt) == DragEndStep(old(Snapshot()), point, now)
    {
      var dx := point.x - dragStartPos.x;
      var dy := point.y - dragStartPos.y;
      var duration := now - dragStartTime;
      currentPosition := point;
      if duration < CLICK_MAX_DURATION_MS && dx * dx + dy * dy < CLICK_MAX_DISTANCE * CLICK_MAX_DISTANCE {
        openAt := Some(point);
      } else {
        openAt := None;
      }
      pendingResets := pendingResets + 1;
    }

    method FireDragReset()
      requires pendingResets > 0
      modifies this
      ensures Snapshot() == ResetStep(old(Snapshot()))
    {
      isDragging := false;
      pendingResets := pendingResets - 1;
    }

    /** Returns the position the icon asks to be opened at, unless a drag is in progress. */
    method OnClick() returns (openAt: Option<Position>)
      ensures openAt == ClickStep(Snapshot())
      ensures openAt.Some? <==> !isDragging
    {
      if !isDragging {
        openAt := Some(currentPosition);
      } else {
        openAt := None;
      }
    }
  }
}
