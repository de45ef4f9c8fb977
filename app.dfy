/** The application shell's two dispatch switches: host messages and key presses, each
    mapped to the effect the handler performs. */
module App {
  import opened Types

  /** The calls the handlers make. */
  datatype Effect =
    | NoEffect
    | InitializeWindow(file: Option<File>)
    | ResetZoom
    | ZoomIn
    | ZoomOut
    | ToggleShouldAlwaysShowSeekBar
    | ToggleShouldCloseWindowOnEscapeKey
    | ToggleFullscreen
    | CloseWindow
    | ExitFullscreen

  /** A host message: its `type` tag and the `file` of its data, when it carries one. */
  datatype Message = Message(kind: string, file: Option<File>)

  /** The message listener's switch; unknown tags do nothing. */
  function DispatchMessage(message: Message): (r: Effect)
    ensures message.kind == "changeFile" <==> r.InitializeWindow?
    ensures r.InitializeWindow? ==> r.file == message.file
    ensures message.kind == "resetZoom" <==> r == ResetZoom
    ensures message.kind == "zoomIn" <==> r == ZoomIn
    ensures message.kind == "zoomOut" <==> r == ZoomOut
    ensures message.kind == "toggleShouldAlwaysShowSeekBar" <==> r == ToggleShouldAlwaysShowSeekBar
    ensures message.kind == "toggleShouldCloseWindowOnEscapeKey" <==> r == ToggleShouldCloseWindowOnEscapeKey
    ensures message.kind == "toggleFullscreen" <==> r == ToggleFullscreen
    ensures r != CloseWindow && r != ExitFullscreen
  {
    match message.kind
    case "changeFile" => InitializeWindow(message.file)
    case "resetZoom" => ResetZoom
    case "toggleShouldAlwaysShowSeekBar" => ToggleShouldAlwaysShowSeekBar
    case "toggleFullscreen" => ToggleFullscreen
    case "toggleShouldCloseWindowOnEscapeKey" => ToggleShouldCloseWindowOnEscapeKey
    case "zoomIn" => ZoomIn
    case "zoomOut" => ZoomOut
    case _ => NoEffect
  }

  /** The message tags the listener handles. */
  const MessageKinds: set<string> := {
    "changeFile", "resetZoom", "toggleShouldAlwaysShowSeekBar", "toggleFullscreen",
    "toggleShouldCloseWindowOnEscapeKey", "zoomIn", "zoomOut"
  }

  /** A message has an effect exactly when its tag is one of the handled ones. */
  lemma UnknownMessagesIgnored(message: Message)
    ensures DispatchMessage(message) == NoEffect <==> message.kind !in MessageKinds
  {
  }

  /** The outcome of a key press: whether the default action is prevented, and the effect. */
  datatype KeyOutcome = KeyOutcome(preventDefault: bool, effect: Effect)

  /** The keydown handler's switch, given the `shouldCloseWindowOnEscapeKey` setting. */
  function DispatchKey(key: string, shouldCloseWindowOnEscapeKey: bool): (r: KeyOutcome)
    ensures key == "Escape" ==> r == KeyOutcome(true, if shouldCloseWindowOnEscapeKey then CloseWindow else ExitFullscreen)
    ensures key == "f" ==> r == KeyOutcome(true, ToggleFullscreen)
    ensures key == "ArrowLeft" || key == "ArrowRight" ==> r == KeyOutcome(true, NoEffect)
    ensures key !in {"ArrowLeft", "ArrowRight", "Escape", "f"} ==> r == KeyOutcome(false, NoEffect)
  {
    match key
    case "ArrowLeft" => KeyOutcome(true, NoEffect)
    case "ArrowRight" => KeyOutcome(true, NoEffect)
    case "Escape" => KeyOutcome(true, if shouldCloseWindowOnEscapeKey then CloseWindow else ExitFullscreen)
    case "f" => KeyOutcome(true, ToggleFullscreen)
    case _ => KeyOutcome(false, NoEffect)
  }

  /** Only Escape closes the window, and only with the setting on; only 'f' toggles fullscreen. */
  lemma KeyEffects(key: string, setting: bool)
    ensures DispatchKey(key, setting).effect == CloseWindow <==> key == "Escape" && setting
    ensures DispatchKey(key, setting).effect == ExitFullscreen <==> key == "Escape" && !setting
    ensures DispatchKey(key, setting).effect == ToggleFullscreen <==> key == "f"
    ensures DispatchKey(key, setting).effect != NoEffect ==> DispatchKey(key, setting).preventDefault
  {
  }
}
