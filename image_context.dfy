/** The earlier image context: it keeps the whole directory listing, derives the image
    list from it, and starts with no index at all. */
module ImageContext {
  import opened Types
  import Zoom
  import Navigation
  import Files

  datatype State = State(directory: Option<File>, entries: seq<File>, status: Status)

  datatype Action =
    | ActionError
    | ActionLoaded(directory: File, entries: seq<File>)
    | ActionLoading

  /** A `loaded` action stores directory and entries; `error` and `loading` reset both,
      whatever the state before. */
  function Reducer(state: State, action: Action): (r: State)
    ensures r.status == Loaded <==> action.ActionLoaded?
    ensures r.status == Error <==> action.ActionError?
    ensures action.ActionLoaded? ==> r.directory == Some(action.directory) && r.entries == action.entries
    ensures !action.ActionLoaded? ==> r.directory == None && r.entries == []
  {
    match action
    case ActionLoaded(directory, entries) => State(Some(directory), entries, Loaded)
    case ActionError => State(None, [], Error)
    case ActionLoading => State(None, [], Loading)
  }

  /** The `image` memo tests the index for truthiness, so index 0 shows no image even when
      the list has one; any other in-range index selects that image. */
  function SelectImage(images: seq<File>, index: Option<int>): (r: Option<File>)
    ensures (index == None || index == Some(0)) ==> r == None
    ensures index.Some? && index.value != 0 ==>
      (r.Some? <==> 0 <= index.value < |images|) && (r.Some? ==> r.value == images[index.value])
  {
    match index
    case None => None
    case Some(i) => if i != 0 && 0 <= i < |images| then Some(images[i]) else None
  }

  /** The quirk: the first image of a non-empty list is never selected. */
  lemma FirstImageNeverSelected(images: seq<File>)
    requires |images| > 0
    ensures SelectImage(images, Some(0)) == None
    ensures forall i :: 0 < i < |images| ==> SelectImage(images, Some(i)) == Some(images[i])
  {
  }

  /** The selection the falsy test evidently stands for, `index !== undefined ? images[index]
      : undefined` (the form the later image provider uses): every in-range index, 0 included,
      selects its image. */
  function SelectImageCorrected(images: seq<File>, index: Option<int>): (r: Option<File>)
    ensures r.Some? <==> index.Some? && 0 <= index.value < |images|
    ensures r.Some? ==> r.value == images[index.value]
  {
    match index
    case None => None
    case Some(i) => if 0 <= i < |images| then Some(images[i]) else None
  }

  /** The two selections differ exactly on index 0 of a non-empty list. */
  lemma SelectionsDifferOnlyAtZero(images: seq<File>, index: Option<int>)
    ensures SelectImage(images, index) != SelectImageCorrected(images, index)
        <==> index == Some(0) && |images| > 0
  {
  }

  /** The guarded step: an undefined index stays undefined. */
  function StepPrevious(index: Option<int>, length: nat): (r: Option<int>)
    ensures index.None? <==> r.None?
    ensures index.Some? ==> r == Some(Navigation.Previous(index.value, length))
  {
    match index
    case None => None
    case Some(i) => Some(if i <= 0 then length - 1 else i - 1)
  }

  function StepNext(index: Option<int>, length: nat): (r: Option<int>)
    ensures index.None? <==> r.None?
    ensures index.Some? ==> r == Some(Navigation.Next(index.value, length))
  {
    match index
    case None => None
    case Some(i) => Some(if i >= length - 1 then 0 else i + 1)
  }

  /** The guarded steps undo each other, defined or not. */
  lemma GuardedRoundTrip(index: Option<int>, length: nat)
    requires index.Some? ==> 0 <= index.value < length
    ensures StepNext(StepPrevious(index, length), length) == index
    ensures StepPrevious(StepNext(index, length), length) == index
  {
    if index.Some? {
      Navigation.RoundTrip(index.value, length);
    }
  }

  class Provider {
    /** `isImageFile`, a lookup of the path's media type that is not part of this model. */
    const isImage: string -> bool
    var state: State
    var fullscreen: bool
    var zoom: real
    var index: Option<int>

    ghost predicate Valid()
      reads this
    {
      Zoom.InRange(zoom)
    }

    constructor (isImage: string -> bool)
      ensures Valid()
      ensures this.isImage == isImage
      ensures state == State(None, [], Loading)
      ensures !fullscreen && zoom == 1.0 && index == None
    {
      this.isImage := isImage;
      state := State(None, [], Loading);
      fullscreen := false;
      zoom := 1.0;
      index := None;
    }

    /** The `images` memo: the entries that are image files, in listing order. */
    function Images(): (r: seq<File>)
      reads this
      ensures forall f :: f in r <==> f in state.entries && isImage(f.path)
      ensures Files.IsSubsequence(r, state.entries)
    {
      Files.FilterIsSubsequence(state.entries, isImage);
      Files.Filter(state.entries, isImage)
    }

    function Image(): (r: Option<File>)
      reads this
      ensures r.Some? ==> r.value in state.entries && isImage(r.value.path)
      ensures index == Some(0) ==> r == None
    {
      SelectImage(Images(), index)
    }

    /** The listing effect, first half: it runs for every path, empty or not. */
    method StartLoad()
      modifies this`state
      ensures state == State(None, [], Loading)
    {
      state := Reducer(state, ActionLoading);
    }

    /** The listing effect, second half: `None` stands for a failed host call. */
    method FinishLoad(listing: Option<(File, seq<File>)>)
      modifies this`state
      ensures listing.Some? ==> state == State(Some(listing.value.0), listing.value.1, Loaded)
      ensures listing.None? ==> state == State(None, [], Error)
    {
      match listing
      case Some((directory, entries)) => state := Reducer(state, ActionLoaded(directory, entries));
      case None => state := Reducer(state, ActionError);
    }

    /** The index-sync effect: the file's first position among the images, or 0 when it is
        not there (also when there are no images at all). */
    method SyncIndex(filePath: string)
      modifies this`index
      ensures index.Some?
      ensures var images := Images();
        (exists j :: 0 <= j < |images| && images[j].path == filePath) ==>
          0 <= index.value < |images| && images[index.value].path == filePath &&
          forall j :: 0 <= j < index.value ==> images[j].path != filePath
      ensures var images := Images();
        (forall j :: 0 <= j < |images| ==> images[j].path != filePath) ==> index == Some(0)
    {
      var k := Files.FindIndex(Images(), filePath);
      index := Some(if k == -1 then 0 else k);
    }

    method MovePrevious()
      modifies this`index
      ensures index == StepPrevious(old(index), |Images()|)
    {
      var length := |Images()|;
      if index == None {
        return;
      }
      index := Some(if index.value <= 0 then length - 1 else index.value - 1);
    }

    method MoveNext()
      modifies this`index
      ensures index == StepNext(old(index), |Images()|)
    {
      var length := |Images()|;
      if index == None {
        return;
      }
      index := Some(if index.value >= length - 1 then 0 else index.value + 1);
    }

    /** Stores the index as given; the range is not checked. */
    method MoveTo(i: int)
      modifies this`index
      ensures index == Some(i)
    {
      index := Some(i);
    }

    method ZoomBy(value: real)
      requires Valid()
      modifies this`zoom
      ensures Valid()
      ensures zoom == Zoom.ZoomBy(old(zoom), value)
    {
      zoom := Zoom.ZoomBy(zoom, value);
    }

    method ZoomIn()
      requires Valid()
      modifies this`zoom
      ensures Valid()
      ensures zoom == Zoom.ZoomBy(old(zoom), Zoom.Step)
    {
      ZoomBy(Zoom.Step);
    }

    method ZoomOut()
      requires Valid()
      modifies this`zoom
      ensures Valid()
      ensures zoom == Zoom.ZoomBy(old(zoom), -Zoom.Step)
    {
      ZoomBy(-Zoom.Step);
    }

    method ResetZoom()
      requires Valid()
      modifies this`zoom
      ensures Valid()
      ensures zoom == 1.0
    {
      zoom := 1.0;
    }

    method OnFullscreenChange(value: bool)
      modifies this`fullscreen
      ensures fullscreen == value
    {
      fullscreen := value;
    }
  }
}
