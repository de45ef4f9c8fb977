/** The window slice: the opened file's path, per window id. */
module WindowStore {
  import opened Types

  datatype WindowState = WindowState(filePath: Option<string>)

  /** Keyed by window id. */
  type State = map<int, WindowState>

  const DefaultWindowState: WindowState := WindowState(None)

  const InitialState: State := map[]

  /** `replaceState` returns its payload. */
  /** `replaceState` installs its payload; the prior state plays no part. */
  function ReplaceState(state: State, payload: State): (r: State)
    ensures r == payload
  {
    payload
  }

  /** Replacing ignores the prior state entirely. */
  lemma ReplaceIgnoresPrior(prior1: State, prior2: State, payload: State, windowId: int)
    ensures ReplaceState(prior1, payload) == ReplaceState(prior2, payload) == payload
    ensures SelectFilePath(ReplaceState(prior1, payload), windowId) == SelectFilePath(payload, windowId)
  {
  }

  /** `load` records the path for one window and leaves every other window as it was. */
  function Load(state: State, id: int, filePath: string): (r: State)
    ensures r.Keys == state.Keys + {id}
    ensures r[id] == WindowState(Some(filePath))
    ensures forall k :: k in state && k != id ==> r[k] == state[k]
  {
    state[id := DefaultWindowState.(filePath := Some(filePath))]
  }

  /** A later load of the same window overrides an earlier one; loads of different windows
      commute. */
  lemma LoadOverrides(state: State, id: int, other: int, first: string, second: string)
    ensures Load(Load(state, id, first), id, second) == Load(state, id, second)
    ensures id != other ==> Load(Load(state, id, first), other, second) == Load(Load(state, other, second), id, first)
  {
  }

  /** `selectCurrentWindow`: the window's record, or the default when there is none. */
  function SelectCurrentWindow(state: State, windowId: int): (r: WindowState)
    ensures windowId in state ==> r == state[windowId]
    ensures windowId !in state ==> r.filePath.None?
  {
    if windowId in state then state[windowId] else DefaultWindowState
  }

  function SelectFilePath(state: State, windowId: int): (r: Option<string>)
    ensures windowId in state ==> r == state[windowId].filePath
    ensures windowId !in state ==> r == None
  {
    SelectCurrentWindow(state, windowId).filePath
  }

  /** The `load` thunk: dispatch `load` for the current window. */
  function LoadThunk(state: State, windowId: int, filePath: string): (r: State)
    ensures SelectFilePath(r, windowId) == Some(filePath)
    ensures forall other :: other != windowId ==> SelectFilePath(r, other) == SelectFilePath(state, other)
  {
    Load(state, windowId, filePath)
  }

  /** Every window starts with no file. */
  lemma InitiallyNoFile(windowId: int)
    ensures SelectFilePath(InitialState, windowId) == None
  {
  }
}
