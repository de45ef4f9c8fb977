/** The image viewer component: the decoded image's state, the fit-to-container size,
    zoom-to-cursor scrolling, drag-to-scroll and the control bar's auto-hide timer. */
module Viewer {
  import opened Types
  import Pointer

  datatype ImageState = ImageState(size: Option<Size>, status: Status, url: Option<string>)

  datatype Action =
    | ActionError
    | ActionLoaded(size: Size, url: string)
    | ActionLoading

  /** A `loaded` action keeps size and url; `error` and `loading` clear both. */
  function Reducer(state: ImageState, action: Action): (r: ImageState)
    ensures r.status == Loaded <==> action.ActionLoaded?
    ensures r.status == Error <==> action.ActionError?
    ensures action.ActionLoaded? ==> r.size == Some(action.size) && r.url == Some(action.url)
    ensures !action.ActionLoaded? ==> r.size == None && r.url == None
  {
    match action
    case ActionLoaded(size, url) => ImageState(Some(size), Loaded, Some(url))
    case ActionError => ImageState(None, Error, None)
    case ActionLoading => ImageState(None, Loading, None)
  }

  predicate Positive(s: Size) {
    s.height > 0.0 && s.width > 0.0
  }

  /** The scale at zoom 1: fit the container on the limiting axis, never enlarge. */
  function FitRatio(native: Size, wrapper: Size): (r: real)
    requires Positive(native)
    ensures r <= 1.0 && r <= wrapper.height / native.height && r <= wrapper.width / native.width
    ensures r == 1.0 || r == wrapper.height / native.height || r == wrapper.width / native.width
  {
    Min(1.0, Min(wrapper.height / native.height, wrapper.width / native.width))
  }

  /** The rendered size memo: unknown until both sizes are known, then the native size
      scaled by the fit ratio times the zoom, which keeps the aspect ratio. */
  function RenderedSize(nativeSize: Option<Size>, wrapperSize: Option<Size>, zoom: real): (r: Option<Size>)
    requires nativeSize.Some? ==> Positive(nativeSize.value)
    ensures r.Some? <==> nativeSize.Some? && wrapperSize.Some?
    ensures r.Some? ==> r.value.height * nativeSize.value.width == r.value.width * nativeSize.value.height
  {
    if nativeSize.None? || wrapperSize.None? then None
    else
      var ratio := FitRatio(nativeSize.value, wrapperSize.value) * zoom;
      Some(Size(nativeSize.value.height * ratio, nativeSize.value.width * ratio))
  }

  /** One axis of the fit: a scale no greater than `w / n` and 1 keeps `n` within `w` and `n`. */
  lemma AxisFit(n: real, w: real, ratio: real)
    requires n > 0.0 && ratio <= w / n && ratio <= 1.0
    ensures n * ratio <= w && n * ratio <= n
    ensures ratio == w / n ==> n * ratio == w
  {
    assert n * (w / n) == w;
  }

  /** At zoom 1 the image fits the container and is never larger than its native size,
      and it touches the container, or is at native size, on at least one axis. */
  lemma FitAtZoomOne(native: Size, wrapper: Size)
    requires Positive(native)
    ensures var r := RenderedSize(Some(native), Some(wrapper), 1.0).value;
      r.height <= wrapper.height && r.width <= wrapper.width &&
      r.height <= native.height && r.width <= native.width &&
      (r.height == wrapper.height || r.width == wrapper.width || r == native)
  {
    var ratio := FitRatio(native, wrapper);
    var r := RenderedSize(Some(native), Some(wrapper), 1.0).value;
    assert r == Size(native.height * ratio, native.width * ratio);
    AxisFit(native.height, wrapper.height, ratio);
    AxisFit(native.width, wrapper.width, ratio);
  }

  /** The rendered size grows linearly with the zoom. */
  lemma RenderedSizeScalesWithZoom(native: Size, wrapper: Size, zoom: real)
    requires Positive(native)
    ensures var one := RenderedSize(Some(native), Some(wrapper), 1.0).value;
      RenderedSize(Some(native), Some(wrapper), zoom).value == Size(one.height * zoom, one.width * zoom)
  {
    var ratio := FitRatio(native, wrapper);
    assert native.height * (ratio * zoom) == (native.height * ratio) * zoom;
    assert native.width * (ratio * zoom) == (native.width * ratio) * zoom;
  }

  /** A 800x300 image in a 400x300 container is fitted to 400x150. */
  lemma FitExample()
    ensures RenderedSize(Some(Size(300.0, 800.0)), Some(Size(300.0, 400.0)), 1.0) == Some(Size(150.0, 400.0))
  {
    assert FitRatio(Size(300.0, 800.0), Size(300.0, 400.0)) == 0.5;
  }

  /** The scroll effect after a zoom: the content point under the pointer stays under it. */
  function ScrollAfterZoom(scroll: Point, position: Point, previousSize: Size, size: Size): (r: Point)
    requires Positive(previousSize)
    ensures size.width != 0.0 ==> (r.x + position.x) / size.width == (scroll.x + position.x) / previousSize.width
    ensures size.height != 0.0 ==> (r.y + position.y) / size.height == (scroll.y + position.y) / previousSize.height
  {
    Point(((scroll.x + position.x) / previousSize.width) * size.width - position.x,
          ((scroll.y + position.y) / previousSize.height) * size.height - position.y)
  }

  /** An unchanged size leaves the scroll where it was. */
  lemma ScrollAfterZoomUnchanged(scroll: Point, position: Point, size: Size)
    requires Positive(size)
    ensures ScrollAfterZoom(scroll, position, size, size) == scroll
  {
  }

  /** The message memo: the provider's fetch status decides first, the image's own
      status only when the fetch is settled. */
  function ViewerMessage(fetchStatus: Status, status: Status): (r: Option<string>)
    ensures fetchStatus != Loaded ==> r == StatusMessage(fetchStatus)
    ensures fetchStatus == Loaded ==> r == StatusMessage(status)
    ensures r.None? <==> fetchStatus == Loaded && status == Loaded
  {
    match fetchStatus
    case Loading => Some(LoadingMessage)
    case Error => Some(FailedMessage)
    case Loaded =>
      match status
      case Loading => Some(LoadingMessage)
      case Error => Some(FailedMessage)
      case Loaded => None
  }

  /** The multiplier applied to the wheel's `deltaY` before `zoomBy`. */
  const WheelFactor: real := 0.01

  class ViewerController {
    var image: ImageState
    var wrapperSize: Option<Size>
    var position: Option<Point>
    var scroll: Point
    var dragOffset: Option<Point>
    var hovered: bool
    var controlBarVisible: bool
    /** A hide timer is pending. */
    var timerArmed: bool

    /** The image state is one the reducer produces (a size and a url exactly when
        loaded), decoded images have positive dimensions, and no hide timer is pending
        while a bar is hovered. */
    ghost predicate Valid()
      reads this
    {
      (image.status == Loaded <==> image.size.Some?) &&
      (image.status == Loaded <==> image.url.Some?) &&
      (image.size.Some? ==> Positive(image.size.value)) &&
      (hovered ==> !timerArmed)
    }

    constructor ()
      ensures Valid()
      ensures image == ImageState(None, Loading, None)
      ensures wrapperSize == None && position == None && dragOffset == None
      ensures scroll == Point(0.0, 0.0)
      ensures !hovered && !controlBarVisible && !timerArmed
    {
      image := ImageState(None, Loading, None);
      wrapperSize := None;
      position := None;
      scroll := Point(0.0, 0.0);
      dragOffset := None;
      hovered := false;
      controlBarVisible := false;
      timerArmed := false;
    }

    function Size(zoom: real): (r: Option<Size>)
      requires Valid()
      reads this
      ensures r.Some? <==> image.size.Some? && wrapperSize.Some?
      ensures r.Some? <==> image.status == Loaded && wrapperSize.Some?
    {
      RenderedSize(image.size, wrapperSize, zoom)
    }

    function Message(fetchStatus: Status): (r: Option<string>)
      reads this
      ensures r.None? <==> fetchStatus == Loaded && image.status == Loaded
    {
      ViewerMessage(fetchStatus, image.status)
    }

    /** The `<img>` is rendered only when loaded with a non-empty url and a known size. */
    function ShowsImage(zoom: real): (r: bool)
      requires Valid()
      reads this
      ensures r <==> image.status == Loaded && Truthy(image.url) && image.size.Some? && wrapperSize.Some?
    {
      image.status == Loaded && Truthy(image.url) && Size(zoom).Some?
    }

    /** The wrapper's cursor: grabbing while dragging, the default while the bar shows,
        hidden otherwise. */
    function Cursor(): (r: Pointer.Cursor)
      reads this
      ensures r == Pointer.Grabbing <==> dragOffset.Some?
      ensures r == Pointer.DefaultCursor <==> dragOffset.None? && controlBarVisible
      ensures r == Pointer.NoCursor <==> dragOffset.None? && !controlBarVisible
    {
      Pointer.CursorFor(dragOffset.Some?, controlBarVisible)
    }

    /** The resize observer's report of the wrapper's content box. */
    method Resize(size: Size)
      modifies this`wrapperSize
      ensures wrapperSize == Some(size)
    {
      wrapperSize := Some(size);
    }

    /** The decode effect for the selected image: nothing without an image; otherwise
        `decoded` is the decoded size, or `None` when decoding failed. */
    method LoadImage(selected: Option<File>, decoded: Option<Size>)
      requires Valid()
      requires decoded.Some? ==> Positive(decoded.value)
      modifies this`image
      ensures Valid()
      ensures selected.None? ==> image == old(image)
      ensures selected.Some? && decoded.Some? ==> image == ImageState(decoded, Loaded, Some(selected.value.url))
      ensures selected.Some? && decoded.None? ==> image == ImageState(None, Error, None)
    {
      if selected.None? {
        return;
      }
      if decoded.Some? {
        image := Reducer(image, ActionLoaded(decoded.value, selected.value.url));
      } else {
        image := Reducer(image, ActionError);
      }
    }

    /** The wheel handler: with exactly one of ctrl / meta held it records the pointer
        position and asks for `zoomBy(deltaY * 0.01)`; otherwise it does nothing. */
    method HandleWheel(ctrl: bool, meta: bool, client: Point, deltaY: real) returns (zoomDelta: Option<real>)
      modifies this`position
      ensures zoomDelta.Some? <==> ctrl != meta
      ensures ctrl != meta ==> position == Some(client) && zoomDelta == Some(deltaY * WheelFactor)
      ensures ctrl == meta ==> position == old(position)
    {
      zoomDelta := None;
      if Pointer.ModifierHeld(ctrl, meta) {
        position := Some(client);
        zoomDelta := Some(deltaY * WheelFactor);
      }
    }

    /** The zoom-to-cursor effect, run with the previous and the new rendered size. */
    method ApplyZoomScroll(previousSize: Option<Size>, size: Option<Size>)
      requires previousSize.Some? ==> Positive(previousSize.value)
      modifies this`scroll
      ensures position.None? || previousSize.None? || size.None? ==> scroll == old(scroll)
      ensures position.Some? && previousSize.Some? && size.Some? ==>
        scroll == ScrollAfterZoom(old(scroll), position.value, previousSize.value, size.value)
    {
      if position.None? || previousSize.None? || size.None? {
        return;
      }
      scroll := ScrollAfterZoom(scroll, position.value, previousSize.value, size.value);
    }

    /** Show the bar, clear any pending hide timer, and arm a new one unless hovered. */
    method ResetTimer(h: bool)
      modifies this`controlBarVisible, this`timerArmed
      ensures controlBarVisible && timerArmed == !h
    {
      controlBarVisible := true;
      timerArmed := false;
      if h {
        return;
      }
      timerArmed := true;
    }

    /** The hide timer fires; a cleared timer never does. */
    method FireTimer()
      requires Valid()
      modifies this`controlBarVisible, this`timerArmed
      ensures Valid()
      ensures old(timerArmed) ==> !controlBarVisible && !timerArmed
      ensures !old(timerArmed) ==> controlBarVisible == old(controlBarVisible) && !timerArmed
    {
      if timerArmed {
        controlBarVisible := false;
        timerArmed := false;
      }
    }

    /** The effect on `hovered`: while hovered, show the bar with no timer pending. */
    method HoveredEffect()
      requires Valid()
      modifies this`controlBarVisible, this`timerArmed
      ensures Valid()
      ensures hovered ==> controlBarVisible && !timerArmed
      ensures !hovered ==> controlBarVisible == old(controlBarVisible) && timerArmed == old(timerArmed)
    {
      if hovered {
        ResetTimer(hovered);
      }
    }

    /** With exactly one of ctrl / meta held, anchor a drag at scroll plus pointer. */
    method MouseDown(ctrl: bool, meta: bool, client: Point)
      modifies this`dragOffset
      ensures ctrl != meta ==> dragOffset == Some(Pointer.DragAnchor(scroll, client))
      ensures ctrl == meta ==> dragOffset == old(dragOffset)
    {
      if Pointer.ModifierHeld(ctrl, meta) {
        dragOffset := Some(Pointer.DragAnchor(scroll, client));
      }
    }

    /** Any move resets the timer; while dragging it also scrolls to anchor minus pointer. */
    method MouseMove(client: Point)
      requires Valid()
      modifies this`controlBarVisible, this`timerArmed, this`scroll
      ensures Valid()
      ensures controlBarVisible && timerArmed == !hovered
      ensures dragOffset.Some? ==> scroll == Pointer.DragScroll(dragOffset.value, client)
      ensures dragOffset.None? ==> scroll == old(scroll)
    {
      ResetTimer(hovered);
      if dragOffset.Some? {
        scroll := Pointer.DragScroll(dragOffset.value, client);
      }
    }

    method MouseUp()
      modifies this`dragOffset
      ensures dragOffset == None
    {
      dragOffset := None;
    }

    method MouseEnter()
      requires Valid()
      modifies this`controlBarVisible, this`timerArmed
      ensures Valid()
      ensures controlBarVisible && timerArmed == !hovered
    {
      ResetTimer(hovered);
    }

    /** Leaving through the window's edge ends the drag and hides the bar; leaving onto a
        child element changes nothing. The pending timer, if any, is left armed. */
    method MouseLeave(client: Point, innerWidth: real, innerHeight: real)
      requires Valid()
      modifies this`dragOffset, this`controlBarVisible
      ensures Valid()
      ensures Pointer.OutsideWindow(client, innerWidth, innerHeight) ==> dragOffset == None && !controlBarVisible
      ensures !Pointer.OutsideWindow(client, innerWidth, innerHeight) ==>
        dragOffset == old(dragOffset) && controlBarVisible == old(controlBarVisible)
    {
      if Pointer.OutsideWindow(client, innerWidth, innerHeight) {
        dragOffset := None;
        controlBarVisible := false;
      }
    }

    method MouseEnterBar()
      requires Valid()
      modifies this`hovered, this`controlBarVisible, this`timerArmed
      ensures Valid()
      ensures hovered && controlBarVisible && !timerArmed
    {
      hovered := true;
      ResetTimer(true);
    }

    method MouseLeaveBar()
      requires Valid()
      modifies this`hovered, this`controlBarVisible, this`timerArmed
      ensures Valid()
      ensures !hovered && controlBarVisible && timerArmed
    {
      hovered := false;
      ResetTimer(false);
    }
  }
}
