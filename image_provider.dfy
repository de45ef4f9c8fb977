/** The image provider: directory listing state, the opened image's load state,
    the zoom factor and the index of the shown image. */
module ImageProvider {
  import opened Types
  import Zoom
  import Navigation
  import Files

  datatype DirectoryState = DirectoryState(directory: Option<File>, images: seq<File>, status: Status)

  datatype DirectoryAction =
    | DirectoryError
    | DirectoryLoaded(directory: File, images: seq<File>)
    | DirectoryLoading

  /** A `loaded` action stores its payload; `error` and `loading` clear the listing,
      whatever the state before. */
  function DirectoryReducer(state: DirectoryState, action: DirectoryAction): (r: DirectoryState)
    ensures r.status == Loaded <==> action.DirectoryLoaded?
    ensures r.status == Error <==> action.DirectoryError?
    ensures action.DirectoryLoaded? ==> r.directory == Some(action.directory) && r.images == action.images
    ensures !action.DirectoryLoaded? ==> r.directory == None && r.images == []
  {
    match action
    case DirectoryLoaded(directory, images) => DirectoryState(Some(directory), images, Loaded)
    case DirectoryError => DirectoryState(None, [], Error)
    case DirectoryLoading => DirectoryState(None, [], Loading)
  }

  datatype FileState = FileState(size: Option<Size>, status: Status)

  datatype FileAction =
    | FileError
    | FileLoaded(size: Size)
    | FileLoading

  /** A `loaded` action records the natural size; `error` and `loading` forget it. */
  function FileReducer(state: FileState, action: FileAction): (r: FileState)
    ensures r.status == Loaded <==> action.FileLoaded?
    ensures r.status == Error <==> action.FileError?
    ensures r.size.Some? <==> action.FileLoaded?
    ensures action.FileLoaded? ==> r.size == Some(action.size)
  {
    match action
    case FileLoaded(size) => FileState(Some(size), Loaded)
    case FileError => FileState(None, Error)
    case FileLoading => FileState(None, Loading)
  }

  /** Neither reducer depends on the state it replaces. */
  lemma ReducersForgetState(d1: DirectoryState, d2: DirectoryState, da: DirectoryAction,
                            f1: FileState, f2: FileState, fa: FileAction)
    ensures DirectoryReducer(d1, da) == DirectoryReducer(d2, da)
    ensures FileReducer(f1, fa) == FileReducer(f2, fa)
  {
  }

  /** The overall status: the store's `loading` flag, then the store's `error` flag,
      then a directory listing that is not loaded, and only then the image's own status. */
  function DeriveStatus(loading: bool, error: bool, directoryStatus: Status, fileStatus: Status): (r: Status)
    ensures loading ==> r == Loading
    ensures !loading && error ==> r == Error
    ensures !loading && !error && directoryStatus != Loaded ==> r == directoryStatus
    ensures !loading && !error && directoryStatus == Loaded ==> r == fileStatus
  {
    if loading then Loading
    else if error then Error
    else if directoryStatus != Loaded then directoryStatus
    else fileStatus
  }

  /** The image provider shows no message exactly when the store, the listing and the image
      are all settled and loaded. */
  lemma MessageAbsentIffAllLoaded(loading: bool, error: bool, directoryStatus: Status, fileStatus: Status)
    ensures StatusMessage(DeriveStatus(loading, error, directoryStatus, fileStatus)).None?
        <==> !loading && !error && directoryStatus == Loaded && fileStatus == Loaded
    ensures StatusMessage(DeriveStatus(loading, error, directoryStatus, fileStatus)) == Some(LoadingMessage)
        <==> loading || (!error && directoryStatus == Loading) || (!error && directoryStatus == Loaded && fileStatus == Loading)
  {
  }

  /** What the host bridge answers for the parent directory and its entries. */
  datatype Listing = Listing(directory: File, entries: seq<File>)

  class Provider {
    /** `isImageFile`, a lookup of the path's media type that is not part of this model. */
    const isImage: string -> bool
    var directoryState: DirectoryState
    var fileState: FileState
    var fullscreen: bool
    var zoom: real
    var index: int

    /** The zoom stays in [1, 10] and the listing only ever holds image files. */
    ghost predicate Valid()
      reads this
    {
      Zoom.InRange(zoom) && forall f :: f in directoryState.images ==> isImage(f.path)
    }

    constructor (isImage: string -> bool)
      ensures Valid()
      ensures this.isImage == isImage
      ensures directoryState == DirectoryState(None, [], Loading)
      ensures fileState == FileState(None, Loading)
      ensures !fullscreen && zoom == 1.0 && index == 0
    {
      this.isImage := isImage;
      directoryState := DirectoryState(None, [], Loading);
      fileState := FileState(None, Loading);
      fullscreen := false;
      zoom := 1.0;
      index := 0;
    }

    /** `images[index]`, which is `undefined` when the index is out of range. */
    function Image(): (r: Option<File>)
      reads this
      ensures r.Some? <==> 0 <= index < |directoryState.images|
      ensures r.Some? ==> r.value == directoryState.images[index]
    {
      if 0 <= index < |directoryState.images| then Some(directoryState.images[index]) else None
    }

    /** The status memo, given the store's `loading` and `error` flags. */
    function Status(loading: bool, error: bool): (r: Status)
      reads this
      ensures r == Loaded <==> !loading && !error && directoryState.status == Loaded && fileState.status == Loaded
      ensures r == Error ==> error || directoryState.status == Error || fileState.status == Error
    {
      DeriveStatus(loading, error, directoryState.status, fileState.status)
    }

    /** The message memo. */
    function Message(loading: bool, error: bool): (r: Option<string>)
      reads this
      ensures r.None? <==> !loading && !error && directoryState.status == Loaded && fileState.status == Loaded
    {
      MessageAbsentIffAllLoaded(loading, error, directoryState.status, fileState.status);
      StatusMessage(Status(loading, error))
    }

    method ZoomBy(value: real)
      requires Valid()
      modifies this`zoom
      ensures Valid()
      ensures zoom == Zoom.ZoomBy(old(zoom), value)
    {
      zoom := Zoom.ZoomBy(zoom, value);
    }

    method ZoomIn()
      requires Valid()
      modifies this`zoom
      ensures Valid()
      ensures zoom == Zoom.ZoomBy(old(zoom), Zoom.Step)
    {
      ZoomBy(Zoom.Step);
    }

    method ZoomOut()
      requires Valid()
      modifies this`zoom
      ensures Valid()
      ensures zoom == Zoom.ZoomBy(old(zoom), -Zoom.Step)
    {
      ZoomBy(-Zoom.Step);
    }

    method ResetZoom()
      requires Valid()
      modifies this`zoom
      ensures Valid()
      ensures zoom == 1.0
    {
      zoom := 1.0;
    }

    /** Wraps from 0 to the last image; there is no guard for an empty listing. */
    method MovePrevious()
      modifies this`index
      ensures index == Navigation.Previous(old(index), |directoryState.images|)
    {
      index := if index <= 0 then |directoryState.images| - 1 else index - 1;
    }

    /** Wraps from the last image to 0. */
    method MoveNext()
      modifies this`index
      ensures index == Navigation.Next(old(index), |directoryState.images|)
    {
      index := if index >= |directoryState.images| - 1 then 0 else index + 1;
    }

    /** Stores the index as given; the range is not checked. */
    method MoveTo(i: int)
      modifies this`index
      ensures index == i
    {
      index := i;
    }

    /** The index-sync effect: jump to the first image whose path is the opened file's path,
        and keep the index when there is no such image or no (or an empty) path. */
    method SyncIndex(filePath: Option<string>)
      modifies this`index
      ensures var images := directoryState.images;
        Truthy(filePath) && (exists j :: 0 <= j < |images| && images[j].path == filePath.value) ==>
          0 <= index < |images| && images[index].path == filePath.value &&
          forall j :: 0 <= j < index ==> images[j].path != filePath.value
      ensures var images := directoryState.images;
        !(Truthy(filePath) && exists j :: 0 <= j < |images| && images[j].path == filePath.value) ==>
          index == old(index)
    {
      if !Truthy(filePath) {
        return;
      }
      var k := Files.FindIndex(directoryState.images, filePath.value);
      if k == -1 {
        return;
      }
      index := k;
    }

    /** The first half of the listing effect: nothing happens without a file path;
        otherwise the listing is reset to `loading`. */
    method StartDirectoryLoad(filePath: Option<string>) returns (started: bool)
      requires Valid()
      modifies this`directoryState
      ensures Valid()
      ensures started == Truthy(filePath)
      ensures started ==> directoryState == DirectoryState(None, [], Loading)
      ensures !started ==> directoryState == old(directoryState)
    {
      started := Truthy(filePath);
      if started {
        directoryState := DirectoryReducer(directoryState, DirectoryLoading);
      }
    }

    /** The second half: a listing (`None` when the host call failed) is filtered to the
        image files, in listing order, and stored. */
    method FinishDirectoryLoad(listing: Option<Listing>)
      requires Valid()
      modifies this`directoryState
      ensures Valid()
      ensures listing.Some? ==>
        directoryState == DirectoryState(Some(listing.value.directory), Files.Filter(listing.value.entries, isImage), Loaded)
      ensures listing.None? ==> directoryState == DirectoryState(None, [], Error)
    {
      match listing
      case Some(Listing(directory, entries)) =>
        var images := Files.Filter(entries, isImage);
        directoryState := DirectoryReducer(directoryState, DirectoryLoaded(directory, images));
      case None =>
        directoryState := DirectoryReducer(directoryState, DirectoryError);
    }

    /** The image element's `load` handler: zoom back to 1 and record the natural size. */
    method HandleLoad(naturalSize: Size)
      requires Valid()
      modifies this`zoom, this`fileState
      ensures Valid()
      ensures zoom == 1.0 && fileState == FileState(Some(naturalSize), Loaded)
    {
      zoom := 1.0;
      fileState := FileReducer(fileState, FileLoaded(naturalSize));
    }

    /** The image element's `error` handler: zoom back to 1 and forget the size. */
    method HandleError()
      requires Valid()
      modifies this`zoom, this`fileState
      ensures Valid()
      ensures zoom == 1.0 && fileState == FileState(None, Error)
    {
      zoom := 1.0;
      fileState := FileReducer(fileState, FileError);
    }

    /** The host's fullscreen-change notification. */
    method OnFullscreenChange(value: bool)
      modifies this`fullscreen
      ensures fullscreen == value
    {
      fullscreen := value;
    }
  }

  /** Opening file A of a directory holding images A, B and C (in that order) shows A,
      and three forward steps show B, C and A again. */
  method OpenAndBrowse(a: File, b: File, c: File, directory: File)
    requires a.path != "" && a.path != b.path && a.path != c.path
  {
    var keep := (p: string) => true;
    var provider := new Provider(keep);
    var started := provider.StartDirectoryLoad(Some(a.path));
    provider.FinishDirectoryLoad(Some(Listing(directory, [a, b, c])));
    assert provider.directoryState.images == [a, b, c];
    provider.SyncIndex(Some(a.path));
    assert [a, b, c][0].path == a.path;
    assert provider.index == 0;
    provider.MoveNext();
    assert provider.Image() == Some(b);
    provider.MoveNext();
    assert provider.Image() == Some(c);
    provider.MoveNext();
    assert provider.Image() == Some(a);
  }
}
