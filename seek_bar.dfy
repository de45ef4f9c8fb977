/** The seek bar: a 1-based slider over the image list, and its show/hide styles. */
module SeekBar {
  import opened Types

  datatype SliderProps = SliderProps(min: int, max: int, step: int, value: int)

  /** The slider shows `index + 1`. */
  function SliderValue(index: int): (r: int)
    ensures 0 <= index ==> 1 <= r
    ensures r - 1 == index
  {
    index + 1
  }

  /** `handleChange` asks for `moveTo(value - 1)`. */
  function ChangeTarget(value: int): (r: int)
    ensures 1 <= value ==> 0 <= r
    ensures r + 1 == value
  {
    value - 1
  }

  /** The two mappings are inverse to each other. */
  lemma ValueRoundTrip(index: int, value: int)
    ensures ChangeTarget(SliderValue(index)) == index
    ensures SliderValue(ChangeTarget(value)) == value
  {
  }

  /** The slider is rendered only while the index is defined, from 1 to the number of
      images in steps of 1. */
  function Slider(index: Option<int>, imageCount: nat): (r: Option<SliderProps>)
    ensures r.Some? <==> index.Some?
    ensures r.Some? ==> r.value.min == 1 && r.value.max == imageCount && r.value.step == 1
    ensures r.Some? ==> ChangeTarget(r.value.value) == index.value
  {
    match index
    case None => None
    case Some(i) => Some(SliderProps(1, imageCount, 1, SliderValue(i)))
  }

  /** A value the slider can report: within its range and on a step. */
  predicate Reachable(props: SliderProps, value: int)
    requires props.step > 0
  {
    props.min <= value <= props.max && (value - props.min) % props.step == 0
  }

  /** Every value the slider can report moves to an index inside the image list, and every
      index inside the list is shown as such a value. */
  lemma ChangeStaysInRange(index: int, imageCount: nat, value: int)
    ensures var props := Slider(Some(index), imageCount).value;
      Reachable(props, value) <==> 0 <= ChangeTarget(value) < imageCount
    ensures 0 <= index < imageCount ==> Reachable(Slider(Some(index), imageCount).value, SliderValue(index))
  {
  }

  datatype Style = Style(inset: string, opacity: real, translateY: int)

  /** The shown style; `spacing` is the theme's `spacing(1)`, which is not part of this model. */
  function AppearStyle(spacing: string): (r: Style)
    ensures r.opacity == 1.0 && r.translateY == -61
    ensures r.inset == "auto " + spacing + " 1px"
  {
    Style("auto " + spacing + " 1px", 1.0, -61)
  }

  /** The hidden style: fully transparent unless the bar is set to be always shown, in which
      case it stays opaque and slides flat to the bottom edge. */
  function DisappearStyle(shouldAlwaysShowSeekBar: bool, spacing: string): (r: Style)
    ensures r.opacity == 1.0 <==> shouldAlwaysShowSeekBar
    ensures r.opacity == 0.0 <==> !shouldAlwaysShowSeekBar
    ensures !shouldAlwaysShowSeekBar ==> r.inset == AppearStyle(spacing).inset && r.translateY == AppearStyle(spacing).translateY
    ensures shouldAlwaysShowSeekBar ==> r.inset == "auto 0 1px" && r.translateY == -14
  {
    var appear := AppearStyle(spacing);
    Style(if shouldAlwaysShowSeekBar then "auto 0 1px" else appear.inset,
          if shouldAlwaysShowSeekBar then appear.opacity else 0.0,
          if shouldAlwaysShowSeekBar then -14 else appear.translateY)
  }

  datatype TransitionState = Entering | Entered | Exiting | Exited | Unmounted

  /** `transitionStyles[state]` */
  function TransitionStyle(state: TransitionState, shouldAlwaysShowSeekBar: bool, spacing: string): (r: Style)
    ensures state == Entering || state == Entered ==> r == AppearStyle(spacing)
    ensures state != Entering && state != Entered ==> r == DisappearStyle(shouldAlwaysShowSeekBar, spacing)
  {
    match state
    case Entering => AppearStyle(spacing)
    case Entered => AppearStyle(spacing)
    case Exiting => DisappearStyle(shouldAlwaysShowSeekBar, spacing)
    case Exited => DisappearStyle(shouldAlwaysShowSeekBar, spacing)
    case Unmounted => DisappearStyle(shouldAlwaysShowSeekBar, spacing)
  }

  /** With the setting on, the seek bar is opaque in every transition state; with it off,
      it is transparent exactly while the control bar is leaving or gone. */
  lemma OpacityBySetting(state: TransitionState, spacing: string)
    ensures TransitionStyle(state, true, spacing).opacity == 1.0
    ensures TransitionStyle(state, false, spacing).opacity == 0.0 <==> state in {Exiting, Exited, Unmounted}
  {
  }
}
