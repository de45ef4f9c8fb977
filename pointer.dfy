/** Pointer-event rules shared by the viewer and the player: the modifier test for wheel
    zoom and drag start, the outside-the-window test on mouse-leave, the drag-to-scroll
    arithmetic and the cursor choice. */
module Pointer {
  import opened Types

  /** `(e.ctrlKey && !e.metaKey) || (!e.ctrlKey && e.metaKey)` */
  function ModifierHeld(ctrl: bool, meta: bool): (r: bool)
    ensures r <==> ctrl != meta
  {
    (ctrl && !meta) || (!ctrl && meta)
  }

  /** The pointer left through the window's edge rather than onto a child element. */
  function OutsideWindow(client: Point, innerWidth: real, innerHeight: real): (r: bool)
    ensures !r <==> 0.0 <= client.x <= innerWidth && 0.0 <= client.y <= innerHeight
  {
    client.x < 0.0 || client.x > innerWidth || client.y < 0.0 || client.y > innerHeight
  }

  /** The anchor recorded on mouse-down: scroll offset plus pointer position. */
  function DragAnchor(scroll: Point, client: Point): (r: Point)
    ensures r.x - client.x == scroll.x && r.y - client.y == scroll.y
  {
    Point(scroll.x + client.x, scroll.y + client.y)
  }

  /** The scroll offset set on mouse-move while an anchor is held. */
  function DragScroll(anchor: Point, client: Point): (r: Point)
    ensures r.x + client.x == anchor.x && r.y + client.y == anchor.y
  {
    Point(anchor.x - client.x, anchor.y - client.y)
  }

  /** Dragging moves the content with the pointer: the scroll offset changes by the opposite
      of the pointer's displacement, and moving back to the start restores the start scroll. */
  lemma DragFollowsPointer(scroll: Point, start: Point, current: Point)
    ensures DragScroll(DragAnchor(scroll, start), current)
         == Point(scroll.x - (current.x - start.x), scroll.y - (current.y - start.y))
    ensures DragScroll(DragAnchor(scroll, start), start) == scroll
  {
  }

  /** CSS cursors: `undefined` leaves the default. */
  datatype Cursor = Grabbing | DefaultCursor | NoCursor

  /** `dragOffset ? 'grabbing' : controlBarVisible ? undefined : 'none'` */
  function CursorFor(dragging: bool, controlBarVisible: bool): (r: Cursor)
    ensures r == Grabbing <==> dragging
    ensures r == DefaultCursor <==> !dragging && controlBarVisible
    ensures r == NoCursor <==> !dragging && !controlBarVisible
  {
    if dragging then Grabbing else if controlBarVisible then DefaultCursor else NoCursor
  }
}
