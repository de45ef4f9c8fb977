/** The zoom rule shared by the image and video providers:
    `zoomBy(v)` multiplies the zoom by `1 + v` and clamps it to [1, 10]. */
module Zoom {
  import opened Types

  const MinZoom: real := 1.0
  const MaxZoom: real := 10.0
  /** The factor step of `zoomIn` / `zoomOut`. */
  const Step: real := 0.1

  predicate InRange(zoom: real) {
    MinZoom <= zoom <= MaxZoom
  }

  /** `Math.min(Math.max(1, zoom * (1 + value)), 10)`. */
  function ZoomBy(zoom: real, value: real): (r: real)
    ensures InRange(r)
    ensures InRange(zoom * (1.0 + value)) ==> r == zoom * (1.0 + value)
    ensures zoom * (1.0 + value) < MinZoom ==> r == MinZoom
    ensures zoom * (1.0 + value) > MaxZoom ==> r == MaxZoom
  {
    Min(Max(MinZoom, zoom * (1.0 + value)), MaxZoom)
  }

  /** `zoomBy(0.1)`: stays in range and never shrinks an in-range zoom. */
  function ZoomIn(zoom: real): (r: real)
    ensures InRange(r)
    ensures InRange(zoom) ==> zoom <= r
    ensures zoom * (1.0 + Step) <= MaxZoom && MinZoom <= zoom * (1.0 + Step) ==> r == zoom * (1.0 + Step)
  {
    ZoomBy(zoom, Step)
  }

  /** `zoomBy(-0.1)`: stays in range and never enlarges an in-range zoom. */
  function ZoomOut(zoom: real): (r: real)
    ensures InRange(r)
    ensures InRange(zoom) ==> r <= zoom
    ensures zoom * (1.0 - Step) <= MaxZoom && MinZoom <= zoom * (1.0 - Step) ==> r == zoom * (1.0 - Step)
  {
    ZoomBy(zoom, -Step)
  }

  /** Zooming out at the lower bound stays there; zooming in at the upper bound stays there. */
  lemma ZoomAtBounds()
    ensures ZoomOut(MinZoom) == MinZoom
    ensures ZoomIn(MaxZoom) == MaxZoom
  {
  }

  /** Inside the range, zooming in strictly enlarges and zooming out strictly shrinks,
      until the bound is reached. */
  lemma ZoomDirection(zoom: real)
    requires InRange(zoom)
    ensures zoom <= ZoomIn(zoom) && (zoom < MaxZoom ==> zoom < ZoomIn(zoom))
    ensures ZoomOut(zoom) <= zoom && (zoom > MinZoom ==> ZoomOut(zoom) < zoom)
  {
  }

  /** A zoom factor already in range is a fixed point of `zoomBy(0)`. */
  lemma ZoomByZero(zoom: real)
    ensures InRange(zoom) <==> ZoomBy(zoom, 0.0) == zoom
  {
  }
}
