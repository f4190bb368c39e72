/** A desktop window's frame (components/Window.tsx): the title-bar drag
    state machine kept locally by each window, the rule that hides closed and
    minimised windows, and the choice between the mobile, maximised and
    floating layouts.

    The viewport width is an input: `isMobile` is whether it is below the
    768-pixel breakpoint. */
module WindowFrame {
  import opened Types

  /** Viewports narrower than this are laid out as mobile. */
  const MobileBreakpoint: int := 768

  /** The status bar above and the dock below that the full-bleed layouts leave free. */
  const TopInset: int := 32
  const BottomInset: int := 80
  const CornerRadius: int := 12

  predicate IsMobileWidth(viewportWidth: int)
  {
    viewportWidth < MobileBreakpoint
  }

  /** The frame's local state. */
  datatype FrameState = FrameState(isDragging: bool, dragOffset: Point, position: Point, isMobile: bool)

  /** On mount the frame shows the record's position and is not dragging. */
  function Mount(record: WindowState, viewportWidth: int): (f: FrameState)
    ensures !f.isDragging && f.position == record.position
    ensures f.isMobile <==> viewportWidth < MobileBreakpoint
  {
    FrameState(false, Point(0, 0), record.position, IsMobileWidth(viewportWidth))
  }

  /** The outcome of pressing the title bar: the new frame state and the id
      whose focus is requested, if any. The only callback argument is the id. */
  datatype Press = Press(frame: FrameState, focus: Option<AppID>)

  function MouseDown(f: FrameState, record: WindowState, pointer: Point): Press
  {
    if record.isMaximized || f.isMobile then Press(f, None)
    else Press(f.(isDragging := true, dragOffset := Sub(pointer, f.position)), Some(record.id))
  }

  /** Where a press lands: on the title bar, whose own handler runs first
      before the press bubbles to the frame, or anywhere else in the frame. */
  datatype PressTarget = TitleBar | FrameBody

  /** A press anywhere in the frame: the new frame state and the focus
      requests sent, in the order they are sent. */
  datatype PressOutcome = PressOutcome(frame: FrameState, requests: seq<AppID>)

  /** The frame's own press handler asks to focus the window on every press;
      on the title bar `handleMouseDown` runs before it. */
  function FramePress(f: FrameState, record: WindowState, pointer: Point, target: PressTarget): PressOutcome
  {
    match target
    case FrameBody => PressOutcome(f, [record.id])
    case TitleBar =>
      var p := MouseDown(f, record, pointer);
      PressOutcome(p.frame, (if p.focus.Some? then [p.focus.value] else []) + [record.id])
  }

  /** A pointer move while the listeners are attached, that is while dragging. */
  function MouseMove(f: FrameState, pointer: Point): FrameState
  {
    if f.isDragging then f.(position := Sub(pointer, f.dragOffset)) else f
  }

  function MouseUp(f: FrameState): FrameState
  {
    f.(isDragging := false)
  }

  function Resize(f: FrameState, viewportWidth: int): FrameState
  {
    f.(isMobile := IsMobileWidth(viewportWidth))
  }

  /** The effect run when the record's position changes. */
  function SyncPosition(f: FrameState, p: Point): FrameState
  {
    f.(position := p)
  }

  /** A sequence of pointer moves. */
  function Moves(f: FrameState, pointers: seq<Point>): FrameState
    decreases |pointers|
  {
    if pointers == [] then f else Moves(MouseMove(f, pointers[0]), pointers[1..])
  }

  /** A window renders only while its record is open and not minimised. */
  predicate Visible(record: WindowState)
  {
    record.isOpen && !record.isMinimized
  }

  datatype Length = Pixels(n: int) | FullWidth | AutoLength

  /** The geometry part of the frame's style. `right` and `bottom` are absent
      for a floating window. */
  datatype Style = Style(top: int, left: int, right: Option<int>, bottom: Option<int>,
                         width: Length, height: Length, borderRadius: int, marginX: int)

  const MobileStyle: Style :=
    Style(TopInset, 0, Some(0), Some(BottomInset), FullWidth, AutoLength, 0, 0)

  const MaximizedStyle: Style :=
    Style(TopInset, 0, Some(0), Some(BottomInset), AutoLength, AutoLength, CornerRadius, 8)

  function Layout(isMobile: bool, isMaximized: bool, position: Point, size: Size): Style
  {
    if isMobile then MobileStyle
    else if isMaximized then MaximizedStyle
    else Style(position.y, position.x, None, None, Pixels(size.width), Pixels(size.height), CornerRadius, 0)
  }

  datatype Rendered = Rendered(style: Style, zIndex: int, title: string)

  function Render(record: WindowState, f: FrameState): Option<Rendered>
  {
    if !Visible(record) then None
    else Some(Rendered(Layout(f.isMobile, record.isMaximized, f.position, record.size),
                       record.zIndex, record.title))
  }

  /** The three title-bar buttons and what each asks of the shell. */
  datatype Button = CloseButton | MinimizeButton | ZoomButton
  datatype Request = CloseRequest(id: AppID) | MinimizeRequest(id: AppID)

  function ButtonRequest(b: Button, record: WindowState): Option<Request>
  {
    match b
    case CloseButton => Some(CloseRequest(record.id))
    case MinimizeButton => Some(MinimizeRequest(record.id))
    case ZoomButton => None
  }

  // ---------------------------------------------------------------------
  // Properties

  /** A closed or minimised window renders nothing, and a visible one always renders. */
  lemma HiddenRendersNothing(record: WindowState, f: FrameState)
    ensures Render(record, f).None? <==> !record.isOpen || record.isMinimized
  {
  }

  /** The title bar's handler starts no drag and requests no focus while
      maximised or on a mobile viewport; then nothing changes. */
  lemma DragGuard(f: FrameState, record: WindowState, pointer: Point)
    ensures MouseDown(f, record, pointer).focus.None? <==> record.isMaximized || f.isMobile
    ensures record.isMaximized || f.isMobile ==> MouseDown(f, record, pointer).frame == f
  {
  }

  /** Every press in the frame ends with a request to focus this window, and
      requests nothing else; only a title-bar press that starts a drag asks
      twice, and a press that starts no drag leaves the frame as it was. */
  lemma EveryPressFocuses(f: FrameState, record: WindowState, pointer: Point, target: PressTarget)
    ensures var o := FramePress(f, record, pointer, target);
            0 < |o.requests| <= 2 && o.requests[|o.requests| - 1] == record.id &&
            (forall i :: 0 <= i < |o.requests| ==> o.requests[i] == record.id) &&
            (|o.requests| == 2 <==> target == TitleBar && !record.isMaximized && !f.isMobile) &&
            (|o.requests| == 1 ==> o.frame == f)
  {
  }

  /** Starting a drag records the offset of the pointer from the position and
      asks to focus this window; the position itself does not move yet. */
  lemma DragStart(f: FrameState, record: WindowState, pointer: Point)
    requires !record.isMaximized && !f.isMobile
    ensures var p := MouseDown(f, record, pointer);
            p.frame.isDragging && p.frame.dragOffset == Sub(pointer, f.position) &&
            p.frame.position == f.position && p.focus == Some(record.id)
  {
  }

  /** While dragging, moves keep the drag going and never change the offset
      or the mobile flag. */
  lemma {:induction false} MovesKeepDrag(f: FrameState, pointers: seq<Point>)
    ensures Moves(f, pointers).isDragging == f.isDragging
    ensures Moves(f, pointers).dragOffset == f.dragOffset
    ensures Moves(f, pointers).isMobile == f.isMobile
    decreases |pointers|
  {
    if pointers != [] {
      MovesKeepDrag(MouseMove(f, pointers[0]), pointers[1..]);
    }
  }

  /** While dragging, the window sits at the last pointer minus the offset. */
  lemma {:induction false} DragFollowsPointer(f: FrameState, pointers: seq<Point>)
    requires f.isDragging && pointers != []
    ensures Moves(f, pointers).position == Sub(pointers[|pointers| - 1], f.dragOffset)
    decreases |pointers|
  {
    var g := MouseMove(f, pointers[0]);
    if |pointers| > 1 {
      DragFollowsPointer(g, pointers[1..]);
    }
  }

  /** From the press to the last move, the window moves by exactly as much
      as the pointer. */
  lemma DragDisplacement(f: FrameState, record: WindowState, start: Point, pointers: seq<Point>)
    requires !record.isMaximized && !f.isMobile && pointers != []
    ensures Moves(MouseDown(f, record, start).frame, pointers).position ==
            Add(f.position, Sub(pointers[|pointers| - 1], start))
  {
    DragFollowsPointer(MouseDown(f, record, start).frame, pointers);
  }

  /** Once the button is released, later moves leave the window where it is. */
  lemma {:induction false} ReleasedIgnoresMoves(f: FrameState, pointers: seq<Point>)
    requires !f.isDragging
    ensures Moves(f, pointers) == f
    decreases |pointers|
  {
    if pointers != [] {
      ReleasedIgnoresMoves(MouseMove(f, pointers[0]), pointers[1..]);
    }
  }

  lemma MouseUpEndsDrag(f: FrameState, pointers: seq<Point>)
    ensures !MouseUp(f).isDragging
    ensures Moves(MouseUp(f), pointers) == MouseUp(f)
    ensures MouseUp(f).position == f.position
  {
    ReleasedIgnoresMoves(MouseUp(f), pointers);
  }

  /** A change of the record's position replaces the local one, whatever the drag did. */
  lemma SyncResets(f: FrameState, p: Point, pointers: seq<Point>)
    requires !f.isDragging
    ensures Moves(SyncPosition(f, p), pointers).position == p
  {
    ReleasedIgnoresMoves(SyncPosition(f, p), pointers);
  }

  /** Mobile and maximised frames are fixed insets that ignore position and
      size; a floating frame uses the local position and the stored size verbatim. */
  lemma LayoutChoice(isMobile: bool, isMaximized: bool, p: Point, s: Size, p': Point, s': Size)
    ensures isMobile || isMaximized ==> Layout(isMobile, isMaximized, p, s) == Layout(isMobile, isMaximized, p', s')
    ensures isMobile || isMaximized ==> Layout(isMobile, isMaximized, p, s).top == TopInset &&
                                        Layout(isMobile, isMaximized, p, s).bottom == Some(BottomInset)
    ensures !isMobile && !isMaximized ==>
              var st := Layout(isMobile, isMaximized, p, s);
              st.left == p.x && st.top == p.y && st.width == Pixels(s.width) && st.height == Pixels(s.height)
  {
  }

  /** A visible window is stacked at its record's z value and shows its
      record's title; its geometry comes from the local frame. */
  lemma RenderFollowsRecord(record: WindowState, f: FrameState)
    requires Visible(record)
    ensures Render(record, f).Some?
    ensures Render(record, f).value.zIndex == record.zIndex
    ensures Render(record, f).value.title == record.title
    ensures !f.isMobile && !record.isMaximized ==>
              Render(record, f).value.style.left == f.position.x &&
              Render(record, f).value.style.top == f.position.y
  {
  }

  /** The green button asks nothing of the shell: there is no maximise toggle. */
  lemma ZoomDoesNothing(record: WindowState)
    ensures ButtonRequest(ZoomButton, record).None?
    ensures ButtonRequest(CloseButton, record) == Some(CloseRequest(record.id))
    ensures ButtonRequest(MinimizeButton, record) == Some(MinimizeRequest(record.id))
  {
  }

  // ---------------------------------------------------------------------
  // The frame as an object with fields

  class Frame {
    var isDragging: bool
    var dragOffset: Point
    var position: Point
    var isMobile: bool

    function State(): FrameState
      reads this
    {
      FrameState(isDragging, dragOffset, position, isMobile)
    }

    constructor (record: WindowState, viewportWidth: int)
      ensures State() == Mount(record, viewportWidth)
    {
      isDragging := false;
      dragOffset := Point(0, 0);
      position := record.position;
      isMobile := viewportWidth < MobileBreakpoint;
    }

    method HandleMouseDown(record: WindowState, pointer: Point) returns (focus: Option<AppID>)
      modifies this
      ensures Press(State(), focus) == MouseDown(old(State()), record, pointer)
    {
      if record.isMaximized || isMobile {
        return None;
      }
      isDragging := true;
      dragOffset := Sub(pointer, position);
      focus := Some(record.id);
    }

    /** A press in the frame: on the title bar the drag handler runs, then
        the frame's own handler requests focus. */
    method HandlePress(record: WindowState, pointer: Point, target: PressTarget)
      returns (requests: seq<AppID>)
      modifies this
      ensures PressOutcome(State(), requests) == FramePress(old(State()), record, pointer, target)
    {
      requests := [];
      if target == TitleBar {
        var focus := HandleMouseDown(record, pointer);
        requests := if focus.Some? then [focus.value] else [];
      }
      requests := requests + [record.id];
    }

    method HandleMouseMove(pointer: Point)
      modifies this
      ensures State() == MouseMove(old(State()), pointer)
    {
      position := if isDragging then Sub(pointer, dragOffset) else position;
    }

    method HandleMouseUp()
      modifies this
      ensures State() == MouseUp(old(State()))
    {
      isDragging := false;
    }

    method HandleResize(viewportWidth: int)
      modifies this
      ensures State() == Resize(old(State()), viewportWidth)
    {
      isMobile := viewportWidth < MobileBreakpoint;
    }

    method HandlePositionProp(p: Point)
      modifies this
      ensures State() == SyncPosition(old(State()), p)
    {
      position := p;
    }
  }
}
