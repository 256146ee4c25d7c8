/**
 * The floating widget's interaction controller (App.tsx, `ClippyApp`): the
 * mouse-down handler picks a gesture, the window-level mouse-move handler
 * applies it to the position or the size, the window-level mouse-up handler
 * ends it, and the minimise button, the badge click and the double click
 * switch the view between open and minimised.
 *
 * Each handler is specified by a pure transition on `WidgetState`; the class
 * `Controller` holds the same state in fields and updates it in place.
 */
module Widget {

  /** A screen point, an offset between points, or the widget's top-left corner. */
  datatype Point = Point(x: int, y: int)

  /** The widget's width and height in pixels. */
  datatype Dim = Dim(w: int, h: int)

  datatype ViewState = Open | Minimized

  /** Where a mouse-down landed: inside `.resize-handle`, inside `.drag-handle`
      (which also holds the settings and minimise buttons), or elsewhere on
      the widget (the message list, the input row, the minimised badge). */
  datatype Target = ResizeHandle | DragHandle | Elsewhere

  datatype WidgetState = WidgetState(
    isDragging: bool,
    isResizing: bool,
    dragOffset: Point,
    position: Point,
    size: Dim,
    viewState: ViewState)

  /** The smallest width and height a resize can produce. */
  const MinSide: int := 300

  /** The state at mount: idle, at (50, 50), 340 by 420, open. */
  const Initial: WidgetState :=
    WidgetState(false, false, Point(0, 0), Point(50, 50), Dim(340, 420), Open)

  /** `Math.max(a, b)`. */
  function Max(a: int, b: int): (m: int)
    ensures m >= a && m >= b
    ensures m == a || m == b
  {
    if a < b then b else a
  }

  predicate Idle(s: WidgetState) {
    !s.isDragging && !s.isResizing
  }

  /** At most one gesture is in progress. */
  predicate OneMode(s: WidgetState) {
    !(s.isDragging && s.isResizing)
  }

  predicate SizeAtLeastMinimum(s: WidgetState) {
    s.size.w >= MinSide && s.size.h >= MinSide
  }

  /** The size a resize gives for a cursor at `p` while the top-left corner
      stays at `corner`: the cursor's distance from the corner on each axis,
      never less than `MinSide`. */
  function ResizedTo(p: Point, corner: Point): (d: Dim)
    ensures d.w >= MinSide && d.h >= MinSide
    ensures d.w >= p.x - corner.x && d.h >= p.y - corner.y
    ensures (d.w == MinSide || d.w == p.x - corner.x) && (d.h == MinSide || d.h == p.y - corner.y)
  {
    Dim(Max(MinSide, p.x - corner.x), Max(MinSide, p.y - corner.y))
  }

  /** `handleMouseDown`: the resize handle wins and suppresses a drag;
      otherwise the drag handle, or any point of the minimised badge, starts
      a drag anchored at the cursor's offset from the corner. */
  function OnMouseDown(s: WidgetState, target: Target, p: Point): (r: WidgetState)
    ensures r.position == s.position && r.size == s.size && r.viewState == s.viewState
    ensures target == ResizeHandle ==>
              r.isResizing && r.isDragging == s.isDragging && r.dragOffset == s.dragOffset
    ensures target != ResizeHandle && (target == DragHandle || s.viewState == Minimized) ==>
              && r.isDragging && r.isResizing == s.isResizing
              && r.position.x + r.dragOffset.x == p.x && r.position.y + r.dragOffset.y == p.y
    ensures target == Elsewhere && s.viewState == Open ==> r == s
    ensures Idle(s) ==> OneMode(r)
  {
    if target == ResizeHandle then
      s.(isResizing := true)
    else if target == DragHandle || s.viewState == Minimized then
      s.(isDragging := true, dragOffset := Point(p.x - s.position.x, p.y - s.position.y))
    else
      s
  }

  /** The window-level mouse-move handler. A drag puts the corner at the
      cursor minus the anchor offset; a resize recomputes the size from the
      corner captured when the handler was installed. Neither touches the
      gesture flags, and with no gesture nothing moves. */
  function OnMouseMove(s: WidgetState, p: Point): (r: WidgetState)
    ensures r.isDragging == s.isDragging && r.isResizing == s.isResizing
    ensures r.dragOffset == s.dragOffset && r.viewState == s.viewState
    ensures s.isDragging ==> r.position.x + s.dragOffset.x == p.x && r.position.y + s.dragOffset.y == p.y
    ensures !s.isDragging ==> r.position == s.position
    ensures s.isResizing ==> r.size == ResizedTo(p, s.position)
    ensures !s.isResizing ==> r.size == s.size
    ensures Idle(s) ==> r == s
  {
    var position := if s.isDragging then Point(p.x - s.dragOffset.x, p.y - s.dragOffset.y) else s.position;
    var size := if s.isResizing then ResizedTo(p, s.position) else s.size;
    s.(position := position, size := size)
  }

  /** The window-level mouse-up handler: the only way back to idle. */
  function OnMouseUp(s: WidgetState): (r: WidgetState)
    ensures Idle(r)
    ensures r.position == s.position && r.size == s.size && r.viewState == s.viewState
    ensures r.dragOffset == s.dragOffset
  {
    s.(isDragging := false, isResizing := false)
  }

  /** Position, size and the gesture in progress are the same in both states. */
  predicate SameGeometry(r: WidgetState, s: WidgetState) {
    && r.position == s.position && r.size == s.size
    && r.isDragging == s.isDragging && r.isResizing == s.isResizing && r.dragOffset == s.dragOffset
  }

  /** The minimise button: the view closes to the badge, geometry kept. */
  function OnMinimize(s: WidgetState): (r: WidgetState)
    ensures r.viewState == Minimized
    ensures SameGeometry(r, s)
  {
    s.(viewState := Minimized)
  }

  /** A click on the minimised badge opens the view, geometry kept. */
  function OnBadgeClick(s: WidgetState): (r: WidgetState)
    ensures r.viewState == Open
    ensures SameGeometry(r, s)
  {
    s.(viewState := Open)
  }

  /** A double click on the widget opens it when minimised and does nothing
      when already open. */
  function OnDoubleClick(s: WidgetState): (r: WidgetState)
    ensures r.viewState == Open
    ensures SameGeometry(r, s)
    ensures s.viewState == Open ==> r == s
  {
    if s.viewState.Minimized? then s.(viewState := Open) else s
  }

  datatype Event =
    | MouseDown(target: Target, at: Point)
    | MouseMove(to: Point)
    | MouseUp
    | MinimizeClick
    | BadgeClick
    | DoubleClick

  function Step(s: WidgetState, e: Event): WidgetState {
    match e
    case MouseDown(target, p) => OnMouseDown(s, target, p)
    case MouseMove(p) => OnMouseMove(s, p)
    case MouseUp => OnMouseUp(s)
    case MinimizeClick => OnMinimize(s)
    case BadgeClick => OnBadgeClick(s)
    case DoubleClick => OnDoubleClick(s)
  }

  /** The state after a sequence of events, in order. */
  function Run(s: WidgetState, events: seq<Event>): WidgetState
    decreases |events|
  {
    if events == [] then s else Run(Step(s, events[0]), events[1..])
  }

  /** No event can shrink the widget below the minimum size. */
  lemma {:induction false} RunKeepsMinimumSize(s: WidgetState, events: seq<Event>)
    requires SizeAtLeastMinimum(s)
    ensures SizeAtLeastMinimum(Run(s, events))
    decreases |events|
  {
    if events != [] {
      RunKeepsMinimumSize(Step(s, events[0]), events[1..]);
    }
  }

  /** The user presses a button only with no button held: every mouse-down
      of `events` arrives while no gesture is in progress. */
  predicate PressesWhenIdle(s: WidgetState, events: seq<Event>)
    decreases |events|
  {
    events == [] ||
    ((events[0].MouseDown? ==> Idle(s)) && PressesWhenIdle(Step(s, events[0]), events[1..]))
  }

  /** Dragging and resizing never run at once, provided no mouse-down arrives
      in the middle of a gesture. */
  lemma {:induction false} RunKeepsOneMode(s: WidgetState, events: seq<Event>)
    requires OneMode(s) && PressesWhenIdle(s, events)
    ensures OneMode(Run(s, events))
    decreases |events|
  {
    if events != [] {
      RunKeepsOneMode(Step(s, events[0]), events[1..]);
    }
  }

  /** The handlers themselves do not guard against a second button pressed
      during a gesture: pressed over the drag handle while resizing, it sets
      both flags, so `PressesWhenIdle` cannot be dropped from `RunKeepsOneMode`. */
  lemma SecondPressDuringResizeSetsBothModes()
    ensures !OneMode(Run(Initial, [MouseDown(ResizeHandle, Point(390, 470)), MouseDown(DragHandle, Point(60, 60))]))
  {
  }

  predicate AllMoves(events: seq<Event>) {
    forall k :: 0 <= k < |events| ==> events[k].MouseMove?
  }

  /** Cursor moves keep the gesture as it is; during a pure drag the corner
      ends at the last cursor position minus the anchor offset and the size is kept. */
  lemma {:induction false} DragMovesFollowCursor(s: WidgetState, moves: seq<Event>)
    requires s.isDragging && !s.isResizing && AllMoves(moves) && moves != []
    ensures var r := Run(s, moves);
            && r.isDragging && !r.isResizing && r.dragOffset == s.dragOffset
            && r.size == s.size && r.viewState == s.viewState
            && r.position.x == moves[|moves| - 1].to.x - s.dragOffset.x
            && r.position.y == moves[|moves| - 1].to.y - s.dragOffset.y
    decreases |moves|
  {
    var t := OnMouseMove(s, moves[0].to);
    if |moves| > 1 {
      DragMovesFollowCursor(t, moves[1..]);
      assert moves[1..][|moves[1..]| - 1] == moves[|moves| - 1];
    }
  }

  /** Drag offset-invariance: grab the widget at corner (x0, y0) anywhere on
      its drag handle, at cursor (px, py); after any moves ending at
      (px + dx, py + dy) the corner is at (x0 + dx, y0 + dy), whichever point
      of the handle was grabbed, and the size has not changed. */
  lemma DragIsOffsetInvariant(s: WidgetState, grab: Point, moves: seq<Event>, dx: int, dy: int)
    requires Idle(s) && AllMoves(moves) && moves != []
    requires moves[|moves| - 1].to == Point(grab.x + dx, grab.y + dy)
    ensures var r := Run(OnMouseDown(s, DragHandle, grab), moves);
            r.position == Point(s.position.x + dx, s.position.y + dy) && r.size == s.size
  {
    DragMovesFollowCursor(OnMouseDown(s, DragHandle, grab), moves);
  }

  /** During a pure resize the corner never moves and the size follows the
      last cursor position, floored at the minimum on each axis. */
  lemma {:induction false} ResizeMovesKeepCorner(s: WidgetState, moves: seq<Event>)
    requires s.isResizing && !s.isDragging && AllMoves(moves) && moves != []
    ensures var r := Run(s, moves);
            && r.isResizing && !r.isDragging
            && r.position == s.position && r.viewState == s.viewState
            && r.size == ResizedTo(moves[|moves| - 1].to, s.position)
            && SizeAtLeastMinimum(r)
    decreases |moves|
  {
    var t := OnMouseMove(s, moves[0].to);
    if |moves| > 1 {
      ResizeMovesKeepCorner(t, moves[1..]);
      assert moves[1..][|moves[1..]| - 1] == moves[|moves| - 1];
    }
  }

  /** The widget's interaction state, held in fields the handlers update. */
  class Controller {
    var isDragging: bool
    var isResizing: bool
    var dragOffset: Point
    var position: Point
    var size: Dim
    var viewState: ViewState

    /** The fields as one value. */
    function State(): WidgetState
      reads this
    {
      WidgetState(isDragging, isResizing, dragOffset, position, size, viewState)
    }

    ghost predicate Valid()
      reads this
    {
      OneMode(State()) && SizeAtLeastMinimum(State())
    }

    constructor ()
      ensures State() == Initial && Valid()
    {
      isDragging, isResizing := false, false;
      dragOffset := Point(0, 0);
      position := Point(50, 50);
      size := Dim(340, 420);
      viewState := Open;
    }

    method HandleMouseDown(target: Target, p: Point)
      modifies this
      ensures State() == OnMouseDown(old(State()), target, p)
      ensures old(Valid()) && old(Idle(State())) ==> Valid()
    {
      if target == ResizeHandle {
        isResizing := true;
        return;
      }
      if target == DragHandle || viewState == Minimized {
        isDragging := true;
        dragOffset := Point(p.x - position.x, p.y - position.y);
      }
    }

    method HandleMouseMove(p: Point)
      modifies this
      ensures State() == OnMouseMove(old(State()), p)
      ensures old(Valid()) ==> Valid()
    {
      var corner := position;
      if isDragging {
        position := Point(p.x - dragOffset.x, p.y - dragOffset.y);
      }
      if isResizing {
        var newWidth := Max(MinSide, p.x - corner.x);
        var newHeight := Max(MinSide, p.y - corner.y);
        size := Dim(newWidth, newHeight);
      }
    }

    method HandleMouseUp()
      modifies this
      ensures State() == OnMouseUp(old(State()))
      ensures old(SizeAtLeastMinimum(State())) ==> Valid()
    {
      isDragging := false;
      isResizing := false;
    }

    method Minimize()
      modifies this
      ensures State() == OnMinimize(old(State()))
      ensures old(Valid()) ==> Valid()
    {
      viewState := Minimized;
    }

    method ClickBadge()
      modifies this
      ensures State() == OnBadgeClick(old(State()))
      ensures old(Valid()) ==> Valid()
    {
      viewState := Open;
    }

    method DoubleClickWidget()
      modifies this
      ensures State() == OnDoubleClick(old(State()))
      ensures old(Valid()) ==> Valid()
    {
      if viewState == Minimized {
        viewState := Open;
      }
    }
  }
}
