/** The video player component: drag-to-scroll and the control bar's auto-hide timer. */
module Player {
  import opened Types
  import Pointer

  class PlayerController {
    var scroll: Point
    var dragOffset: Option<Point>
    var hovered: bool
    var controlBarVisible: bool
    /** A hide timer is pending. */
    var timerArmed: bool

    /** No hide timer is pending while a bar is hovered. */
    ghost predicate Valid()
      reads this
    {
      hovered ==> !timerArmed
    }

    constructor ()
      ensures Valid()
      ensures scroll == Point(0.0, 0.0) && dragOffset == None
      ensures !hovered && !controlBarVisible && !timerArmed
    {
      scroll := Point(0.0, 0.0);
      dragOffset := None;
      hovered := false;
      controlBarVisible := false;
      timerArmed := false;
    }

    function Cursor(): (r: Pointer.Cursor)
      reads this
      ensures r == Pointer.Grabbing <==> dragOffset.Some?
      ensures r == Pointer.DefaultCursor <==> dragOffset.None? && controlBarVisible
      ensures r == Pointer.NoCursor <==> dragOffset.None? && !controlBarVisible
    {
      Pointer.CursorFor(dragOffset.Some?, controlBarVisible)
    }

    /** Show the bar, clear any pending hide timer, and arm a new one unless hovered. */
    method ResetTimer(h: bool)
      modifies this`controlBarVisible, this`timerArmed
      ensures controlBarVisible && timerArmed == !h
    {
      controlBarVisible := true;
      timerArmed := false;
      if h {
        return;
      }
      timerArmed := true;
    }

    /** The hide timer fires; a cleared timer never does. */
    method FireTimer()
      requires Valid()
      modifies this`controlBarVisible, this`timerArmed
      ensures Valid()
      ensures old(timerArmed) ==> !controlBarVisible && !timerArmed
      ensures !old(timerArmed) ==> controlBarVisible == old(controlBarVisible) && !timerArmed
    {
      if timerArmed {
        controlBarVisible := false;
        timerArmed := false;
      }
    }

    /** The effect on `hovered`: while hovered, show the bar with no timer pending. */
    method HoveredEffect()
      requires Valid()
      modifies this`controlBarVisible, this`timerArmed
      ensures Valid()
      ensures hovered ==> controlBarVisible && !timerArmed
      ensures !hovered ==> controlBarVisible == old(controlBarVisible) && timerArmed == old(timerArmed)
    {
      if hovered {
        ResetTimer(hovered);
      }
    }

    /** With exactly one of ctrl / meta held, anchor a drag at scroll plus pointer. */
    method MouseDown(ctrl: bool, meta: bool, client: Point)
      modifies this`dragOffset
      ensures ctrl != meta ==> dragOffset == Some(Pointer.DragAnchor(scroll, client))
      ensures ctrl == meta ==> dragOffset == old(dragOffset)
    {
      if Pointer.ModifierHeld(ctrl, meta) {
        dragOffset := Some(Pointer.DragAnchor(scroll, client));
      }
    }

    /** Any move resets the timer; while dragging it also scrolls to anchor minus pointer. */
    method MouseMove(client: Point)
      requires Valid()
      modifies this`controlBarVisible, this`timerArmed, this`scroll
      ensures Valid()
      ensures controlBarVisible && timerArmed == !hovered
      ensures dragOffset.Some? ==> scroll == Pointer.DragScroll(dragOffset.value, client)
      ensures dragOffset.None? ==> scroll == old(scroll)
    {
      ResetTimer(hovered);
      if dragOffset.Some? {
        scroll := Pointer.DragScroll(dragOffset.value, client);
      }
    }

    method MouseUp()
      modifies this`dragOffset
      ensures dragOffset == None
    {
      dragOffset := None;
    }

    method MouseEnter()
      requires Valid()
      modifies this`controlBarVisible, this`timerArmed
      ensures Valid()
      ensures controlBarVisible && timerArmed == !hovered
    {
      ResetTimer(hovered);
    }

    /** Leaving through the window's edge ends the drag and hides the bar; leaving onto a
        child element changes nothing. The pending timer, if any, is left armed. */
    method MouseLeave(client: Point, innerWidth: real, innerHeight: real)
      requires Valid()
      modifies this`dragOffset, this`controlBarVisible
      ensures Valid()
      ensures Pointer.OutsideWindow(client, innerWidth, innerHeight) ==> dragOffset == None && !controlBarVisible
      ensures !Pointer.OutsideWindow(client, innerWidth, innerHeight) ==>
        dragOffset == old(dragOffset) && controlBarVisible == old(controlBarVisible)
    {
      if Pointer.OutsideWindow(client, innerWidth, innerHeight) {
        dragOffset := None;
        controlBarVisible := false;
      }
    }

    method MouseEnterBar()
      requires Valid()
      modifies this`hovered, this`controlBarVisible, this`timerArmed
      ensures Valid()
      ensures hovered && controlBarVisible && !timerArmed
    {
      hovered := true;
      ResetTimer(true);
    }

    method MouseLeaveBar()
      requires Valid()
      modifies this`hovered, this`controlBarVisible, this`timerArmed
      ensures Valid()
      ensures !hovered && controlBarVisible && timerArmed
    {
      hovered := false;
      ResetTimer(false);
    }
  }

  /** A modifier drag that returns to its start point restores the start scroll; a timer
      that fires while a bar is hovered hides nothing; after leaving the bar the timer
      hides it, and the next pointer move shows it again with a fresh timer. */
  method DragAndHide(start: Point, elsewhere: Point)
  {
    var player := new PlayerController();
    var before := player.scroll;
    player.MouseDown(true, false, start);
    player.MouseMove(elsewhere);
    player.MouseMove(start);
    assert player.scroll == before;
    player.MouseUp();
    assert player.Cursor() == Pointer.DefaultCursor;

    player.MouseEnterBar();
    player.FireTimer();
    assert player.controlBarVisible;
    player.MouseLeaveBar();
    player.FireTimer();
    assert !player.controlBarVisible && player.Cursor() == Pointer.NoCursor;
    player.MouseMove(elsewhere);
    assert player.controlBarVisible && player.timerArmed;
  }
}
