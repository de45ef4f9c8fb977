/** The settings slice: three persisted preferences and their reducers. */
module Settings {

  datatype ViewMode = Fullscreen | Maximized | Normal

  datatype State = State(
    defaultViewMode: ViewMode,
    shouldAlwaysShowSeekBar: bool,
    shouldCloseWindowWithEscapeKey: bool)

  const InitialState: State := State(Normal, false, false)

  /** The slice's actions. */
  datatype Action =
    | ReplaceState(state: State)
    | SetDefaultViewMode(defaultViewMode: ViewMode)
    | ToggleShouldAlwaysShowSeekBar
    | ToggleShouldCloseWindowWithEscapeKey

  /** The slice reducer. */
  function Reduce(state: State, action: Action): (r: State)
    ensures action.ReplaceState? ==> r == action.state
    ensures action.SetDefaultViewMode? ==>
      r.defaultViewMode == action.defaultViewMode &&
      r.shouldAlwaysShowSeekBar == state.shouldAlwaysShowSeekBar &&
      r.shouldCloseWindowWithEscapeKey == state.shouldCloseWindowWithEscapeKey
    ensures action.ToggleShouldAlwaysShowSeekBar? ==>
      r.shouldAlwaysShowSeekBar == !state.shouldAlwaysShowSeekBar &&
      r.defaultViewMode == state.defaultViewMode &&
      r.shouldCloseWindowWithEscapeKey == state.shouldCloseWindowWithEscapeKey
    ensures action.ToggleShouldCloseWindowWithEscapeKey? ==>
      r.shouldCloseWindowWithEscapeKey == !state.shouldCloseWindowWithEscapeKey &&
      r.defaultViewMode == state.defaultViewMode &&
      r.shouldAlwaysShowSeekBar == state.shouldAlwaysShowSeekBar
  {
    match action
    case ReplaceState(s) => s
    case SetDefaultViewMode(mode) => state.(defaultViewMode := mode)
    case ToggleShouldAlwaysShowSeekBar => state.(shouldAlwaysShowSeekBar := !state.shouldAlwaysShowSeekBar)
    case ToggleShouldCloseWindowWithEscapeKey =>
      state.(shouldCloseWindowWithEscapeKey := !state.shouldCloseWindowWithEscapeKey)
  }

  /** Both toggles are involutions. */
  lemma TogglesAreInvolutions(state: State)
    ensures Reduce(Reduce(state, ToggleShouldAlwaysShowSeekBar), ToggleShouldAlwaysShowSeekBar) == state
    ensures Reduce(Reduce(state, ToggleShouldCloseWindowWithEscapeKey), ToggleShouldCloseWindowWithEscapeKey) == state
  {
  }

  /** The toggles touch different fields, so their order does not matter. */
  lemma TogglesCommute(state: State)
    ensures Reduce(Reduce(state, ToggleShouldAlwaysShowSeekBar), ToggleShouldCloseWindowWithEscapeKey)
         == Reduce(Reduce(state, ToggleShouldCloseWindowWithEscapeKey), ToggleShouldAlwaysShowSeekBar)
  {
  }

  /** Setting the view mode twice is setting it once; the later setting wins. */
  lemma SetDefaultViewModeIdempotent(state: State, first: ViewMode, second: ViewMode)
    ensures Reduce(Reduce(state, SetDefaultViewMode(first)), SetDefaultViewMode(first))
         == Reduce(state, SetDefaultViewMode(first))
    ensures Reduce(Reduce(state, SetDefaultViewMode(first)), SetDefaultViewMode(second))
         == Reduce(state, SetDefaultViewMode(second))
  {
  }

  /** Replacing ignores the prior state, and any state can be reached by one replace. */
  lemma ReplaceIgnoresPrior(prior1: State, prior2: State, payload: State)
    ensures Reduce(prior1, ReplaceState(payload)) == Reduce(prior2, ReplaceState(payload)) == payload
  {
  }

  /** `n` applications of one action. */
  function Repeat(state: State, action: Action, n: nat): State
  {
    if n == 0 then state else Reduce(Repeat(state, action, n - 1), action)
  }

  /** Toggling the seek-bar setting `n` times leaves it flipped exactly when `n` is odd. */
  lemma {:induction false} RepeatedToggle(state: State, n: nat)
    ensures Repeat(state, ToggleShouldAlwaysShowSeekBar, n)
         == state.(shouldAlwaysShowSeekBar := if n % 2 == 0 then state.shouldAlwaysShowSeekBar else !state.shouldAlwaysShowSeekBar)
  {
    if n > 0 {
      RepeatedToggle(state, n - 1);
    }
  }

  /** The selectors, applied to the settings sub-state. */
  function SelectDefaultViewMode(settings: State): (r: ViewMode)
    ensures r == settings.defaultViewMode
  {
    settings.defaultViewMode
  }

  function SelectShouldAlwaysShowSeekBar(settings: State): (r: bool)
    ensures r == settings.shouldAlwaysShowSeekBar
  {
    settings.shouldAlwaysShowSeekBar
  }

  function SelectShouldCloseWindowWithEscapeKey(settings: State): (r: bool)
    ensures r == settings.shouldCloseWindowWithEscapeKey
  {
    settings.shouldCloseWindowWithEscapeKey
  }

  /** The selectors see what the reducers wrote: the initial values, a toggled flag and
      the mode last set. */
  lemma SelectorsObserveReducers(state: State, mode: ViewMode)
    ensures SelectDefaultViewMode(InitialState) == Normal
    ensures !SelectShouldAlwaysShowSeekBar(InitialState) && !SelectShouldCloseWindowWithEscapeKey(InitialState)
    ensures SelectDefaultViewMode(Reduce(state, SetDefaultViewMode(mode))) == mode
    ensures SelectShouldAlwaysShowSeekBar(Reduce(state, ToggleShouldAlwaysShowSeekBar)) == !SelectShouldAlwaysShowSeekBar(state)
    ensures SelectShouldCloseWindowWithEscapeKey(Reduce(state, ToggleShouldCloseWindowWithEscapeKey))
         == !SelectShouldCloseWindowWithEscapeKey(state)
  {
  }
}
