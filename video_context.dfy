/** The video context: a list of entries, an index into it and a zoom factor.
    Its `state` is created as 'loading' and never updated. */
module VideoContext {
  import opened Types
  import Zoom
  import Navigation

  /** The placeholder entry shown when the index is out of range. */
  const EmptyFile: File := File("", "", "")

  /** `entries[index] ?? { name: '', path: '', url: '' }` */
  function SelectEntry(entries: seq<File>, index: int): (r: File)
    ensures 0 <= index < |entries| ==> r == entries[index]
    ensures !(0 <= index < |entries|) ==> r == EmptyFile
  {
    if 0 <= index < |entries| then entries[index] else EmptyFile
  }

  /** The message switch of this file, over the string state. */
  function StateMessage(state: string): (r: Option<string>)
    ensures state == "loading" <==> r == Some(LoadingMessage)
    ensures state == "error" <==> r == Some(FailedMessage)
    ensures r.None? <==> state != "loading" && state != "error"
  {
    if state == "loading" then Some(LoadingMessage)
    else if state == "error" then Some(FailedMessage)
    else None
  }

  class VideoProvider {
    /** `useState('loading')` without its setter. */
    const state: string := "loading"
    var fullscreen: bool
    var zoom: real
    var entries: seq<File>
    var index: int

    ghost predicate Valid()
      reads this
    {
      Zoom.InRange(zoom)
    }

    constructor ()
      ensures Valid()
      ensures !fullscreen && zoom == 1.0 && entries == [] && index == 0
    {
      fullscreen := false;
      zoom := 1.0;
      entries := [];
      index := 0;
    }

    function Entry(): (r: File)
      reads this
      ensures 0 <= index < |entries| ==> r == entries[index]
      ensures !(0 <= index < |entries|) ==> r == EmptyFile
    {
      SelectEntry(entries, index)
    }

    /** Since `state` never changes, the message is always "Loading...". */
    function Message(): (r: Option<string>)
      ensures r == Some(LoadingMessage)
    {
      StateMessage(state)
    }

    /** The listing effect stores the host's entries; the index is kept as it is. */
    method SetEntries(newEntries: seq<File>)
      modifies this`entries
      ensures entries == newEntries
    {
      entries := newEntries;
    }

    method ZoomBy(value: real)
      requires Valid()
      modifies this`zoom
      ensures Valid()
      ensures zoom == Zoom.ZoomBy(old(zoom), value)
    {
      zoom := Zoom.ZoomBy(zoom, value);
    }

    method ZoomIn()
      requires Valid()
      modifies this`zoom
      ensures Valid()
      ensures zoom == Zoom.ZoomBy(old(zoom), Zoom.Step)
    {
      ZoomBy(Zoom.Step);
    }

    method ZoomOut()
      requires Valid()
      modifies this`zoom
      ensures Valid()
      ensures zoom == Zoom.ZoomBy(old(zoom), -Zoom.Step)
    {
      ZoomBy(-Zoom.Step);
    }

    method ResetZoom()
      requires Valid()
      modifies this`zoom
      ensures Valid()
      ensures zoom == 1.0
    {
      zoom := 1.0;
    }

    method MovePrevious()
      modifies this`index
      ensures index == Navigation.Previous(old(index), |entries|)
    {
      index := if index <= 0 then |entries| - 1 else index - 1;
    }

    method MoveNext()
      modifies this`index
      ensures index == Navigation.Next(old(index), |entries|)
    {
      index := if index >= |entries| - 1 then 0 else index + 1;
    }

    /** Stores the index as given; the range is not checked, and an out-of-range index
        shows the placeholder entry. */
    method MoveTo(i: int)
      modifies this`index
      ensures index == i
      ensures !(0 <= i < |entries|) ==> Entry() == EmptyFile
    {
      index := i;
    }

    method OnFullscreenChange(value: bool)
      modifies this`fullscreen
      ensures fullscreen == value
    {
      fullscreen := value;
    }
  }
}
