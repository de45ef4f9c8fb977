/** Value types shared by the viewer's providers and components. */
module Types {

  /** `undefined` in the source becomes `None`. */
  datatype Option<+T> = None | Some(value: T)

  /** A file-system entry as the host bridge returns it. */
  datatype File = File(name: string, path: string, url: string)

  /** The load status every reducer of the front end tracks. */
  datatype Status = Loading | Loaded | Error

  /** Pixel dimensions; the source keeps them as floating-point numbers. */
  datatype Size = Size(height: real, width: real)

  /** A pointer position or a scroll offset. */
  datatype Point = Point(x: real, y: real)

  const LoadingMessage: string := "Loading..."
  const FailedMessage: string := "Failed to load."

  /** `Math.min` and `Math.max` on two numbers. */
  function Min(a: real, b: real): real { if a <= b then a else b }
  function Max(a: real, b: real): real { if a >= b then a else b }

  /** A JavaScript string is falsy exactly when it is empty. */
  predicate Truthy(s: Option<string>) {
    s.Some? && s.value != ""
  }

  /** The status-to-message switch used by the image provider and the viewer. */
  function StatusMessage(status: Status): (r: Option<string>)
    ensures r.None? <==> status == Loaded
    ensures status == Loading ==> r == Some(LoadingMessage)
    ensures status == Error ==> r == Some(FailedMessage)
  {
    match status
    case Loading => Some(LoadingMessage)
    case Error => Some(FailedMessage)
    case Loaded => None
  }
}
