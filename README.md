# photy viewer core in Dafny

This project models the interactive core of the photy desktop image/video viewer: the
navigation and zoom controllers of its image and video providers, the viewer's and
player's viewport logic (fit-to-container size, zoom-to-cursor scrolling, drag-to-scroll,
and the auto-hiding control bar's timer), the seek bar's 1-based slider mapping, the
application shell's message and key dispatch, and the two Redux slices for settings and
per-window state. It then proves properties of that model.

The three provider files come from different revisions of the program. Each is modelled on
its own terms:

- `ImageProvider` is the later image provider. It has a numeric index that starts at 0 and
  filters the listing when the listing arrives.
- `ImageContext` is the earlier image context. Its index starts undefined and it filters
  the stored entries in a memo.
- `VideoContext` is the video context.

In the same way, `App` uses the setting name `shouldCloseWindowOnEscapeKey`, while
`Settings` calls it `shouldCloseWindowWithEscapeKey`.

Layout, one module per file:

- `types.dfy` (`Types`): `Option`, `File`, the `loading | loaded | error` status, sizes,
  points and the status messages.
- `zoom.dfy` (`Zoom`): the clamped `zoomBy` rule shared by all three providers.
- `navigation.dfy` (`Navigation`): wrap-around `movePrevious` / `moveNext`.
- `files.dfy` (`Files`): `filter` by `isImageFile` and `findIndex` by path.
- `image_provider.dfy`, `image_context.dfy`, `video_context.dfy`: the providers. Each is a
  class whose fields are the component's state and whose methods are its setters and
  effects, next to its pure reducers.
- `pointer.dfy` (`Pointer`): the modifier test, the outside-window test, the drag
  arithmetic and the cursor choice. `Viewer` and `Player` both use it.
- `viewer.dfy`, `player.dfy`: the two components' controllers.
- `seek_bar.dfy`, `app.dfy`, `settings.dfy`, `window_store.dfy`: pure functions.

Three behaviours of the code worth noting:

- The image provider's `movePrevious` / `moveNext` have no guard for an empty list. From 0,
  they give -1 and 0.
- When the opened file is not among the images, the later image provider keeps the index it
  had. Only the earlier image context falls back to 0.
- The video context's status never leaves `loading`, so its message is always "Loading...".

## Model

| member | source | states |
|---|---|---|
| Types.StatusMessage | src/providers/ImageProvider.tsx:111-120 | "Loading..." for loading, "Failed to load." for error, and no message exactly when loaded |
| Zoom.ZoomBy | src/providers/ImageProvider.tsx:127-131 | the result always lies in [1, 10]; it is the product zoom·(1+v) when that is in range, 1 below the range and 10 above it |
| Zoom.ZoomIn | src/providers/ImageProvider.tsx:133 | `zoomBy(0.1)` stays in [1, 10], never shrinks an in-range zoom, and is the product zoom·1.1 when that is in range |
| Zoom.ZoomOut | src/providers/ImageProvider.tsx:135 | `zoomBy(-0.1)` stays in [1, 10], never enlarges an in-range zoom, and is the product zoom·0.9 when that is in range |
| Zoom.ZoomAtBounds | src/providers/ImageProvider.tsx:133-135 | zooming out from 1 stays at 1, and zooming in from 10 stays at 10 |
| Zoom.ZoomDirection | src/providers/ImageProvider.tsx:133-135 | inside the range, zoom-in never shrinks and zoom-out never enlarges, and both strictly move while away from their bound |
| Zoom.ZoomByZero | src/providers/ImageProvider.tsx:127-131 | `zoomBy(0)` leaves a zoom unchanged if and only if it is already in [1, 10] |
| Navigation.Previous | src/providers/ImageProvider.tsx:139-145 | an in-range index stays in range; any index ≤ 0 (negative ones included) goes to length−1; a positive index decreases by one |
| Navigation.Next | src/providers/ImageProvider.tsx:147-153 | an in-range index stays in range; any index ≥ length−1 (past the end, or any index of an empty list, included) goes to 0; a smaller index increases by one |
| Navigation.StepsAreModular | src/providers/ImageProvider.tsx:139-153 | on in-range indices, the two steps equal (i+1) mod n and (i−1+n) mod n |
| Navigation.RoundTrip | src/providers/ImageProvider.tsx:139-153 | next after previous, and previous after next, give back any in-range index |
| Navigation.EmptyList | src/providers/ImageProvider.tsx:142-150 | over an empty list, stepping back from 0 gives −1 and stepping forward gives 0 |
| Navigation.NextTimesIsModular | src/providers/ImageProvider.tsx:147-153 | k forward steps from an in-range index land on (i+k) mod n |
| Navigation.FullCycle | src/providers/ImageProvider.tsx:147-153 | n forward steps return to the start, and no fewer steps do |
| Files.Filter | src/providers/ImageProvider.tsx:185 | the result holds exactly the image entries of the listing and is no longer than it |
| Files.FilterKeepsOccurrences | src/providers/ImageProvider.tsx:185 | every occurrence of an image entry is kept, duplicates included, and no other entry remains |
| Files.FilterIsSubsequence | src/contexts/ImageContext.tsx:81-84 | the image list is a subsequence of the entries, so listing order is kept |
| Files.FilterAppend | src/providers/ImageProvider.tsx:185 | filtering a concatenation filters each part in turn |
| Files.FilterIdempotent | src/contexts/ImageContext.tsx:81-84 | filtering an already filtered list changes nothing |
| Files.FindIndex | src/providers/ImageProvider.tsx:167 | −1 exactly when no entry has the path; otherwise the first position whose path matches |
| ImageProvider.DirectoryReducer | src/providers/ImageProvider.tsx:29-40 | `loaded` stores directory and images with status loaded; `error` and `loading` clear both and set their own status |
| ImageProvider.FileReducer | src/providers/ImageProvider.tsx:55-66 | `loaded` records the size with status loaded; `error` and `loading` forget the size |
| ImageProvider.ReducersForgetState | src/providers/ImageProvider.tsx:29-66 | neither reducer depends on the prior state |
| ImageProvider.DeriveStatus | src/providers/ImageProvider.tsx:98-109 | precedence: store loading, then store error, then a directory status that is not loaded, then the file status |
| ImageProvider.MessageAbsentIffAllLoaded | src/providers/ImageProvider.tsx:98-120 | there is no message exactly when everything is loaded; "Loading..." exactly in the loading cases |
| ImageProvider.Provider.constructor | src/providers/ImageProvider.tsx:77-90 | the initial state is listing loading and empty, file loading, zoom 1, index 0, not fullscreen |
| ImageProvider.Provider.Image | src/providers/ImageProvider.tsx:94-97 | the shown image is `images[index]` when the index is in range, and none otherwise |
| ImageProvider.Provider.Status | src/providers/ImageProvider.tsx:98-109 | loaded exactly when the store is settled and both listing and file are loaded |
| ImageProvider.Provider.Message | src/providers/ImageProvider.tsx:111-120 | no message exactly when the store is settled and both listing and file are loaded |
| ImageProvider.Provider.ZoomBy | src/providers/ImageProvider.tsx:127-131 | the new zoom is the clamped product, so zoom stays in [1, 10] |
| ImageProvider.Provider.ZoomIn | src/providers/ImageProvider.tsx:133 | `zoomBy(0.1)` |
| ImageProvider.Provider.ZoomOut | src/providers/ImageProvider.tsx:135 | `zoomBy(-0.1)` |
| ImageProvider.Provider.ResetZoom | src/providers/ImageProvider.tsx:137 | the zoom becomes exactly 1 |
| ImageProvider.Provider.MovePrevious | src/providers/ImageProvider.tsx:139-145 | the index takes one wrap-around step back over the image count; nothing else changes |
| ImageProvider.Provider.MoveNext | src/providers/ImageProvider.tsx:147-153 | the index takes one wrap-around step forward over the image count; nothing else changes |
| ImageProvider.Provider.MoveTo | src/providers/ImageProvider.tsx:155 | the index becomes the argument, with no range check |
| ImageProvider.Provider.SyncIndex | src/providers/ImageProvider.tsx:162-173 | with a non-empty path present among the images, the index becomes its first position; otherwise the index is unchanged |
| ImageProvider.Provider.StartDirectoryLoad | src/providers/ImageProvider.tsx:176-181 | without a (non-empty) path nothing changes; otherwise the listing resets to loading |
| ImageProvider.Provider.FinishDirectoryLoad | src/providers/ImageProvider.tsx:182-189 | a listing is stored with its entries filtered to images; a failed listing gives error with no directory or images |
| ImageProvider.Provider.HandleLoad | src/providers/ImageProvider.tsx:199-207 | the zoom resets to 1 and the natural size is recorded as loaded |
| ImageProvider.Provider.HandleError | src/providers/ImageProvider.tsx:208-211 | the zoom resets to 1 and the size is cleared with status error |
| ImageProvider.Provider.OnFullscreenChange | src/providers/ImageProvider.tsx:157-160 | the fullscreen flag follows the host notification |
| ImageContext.Reducer | src/contexts/ImageContext.tsx:51-62 | `loaded` stores directory and entries; `error` and `loading` reset to none and [] with their own status |
| ImageContext.SelectImage | src/contexts/ImageContext.tsx:86-89 | none when the index is undefined or 0; otherwise `images[index]` when in range |
| ImageContext.FirstImageNeverSelected | src/contexts/ImageContext.tsx:86-89 | on a non-empty list, index 0 selects nothing while every other in-range index selects its image |
| ImageContext.SelectImageCorrected | src/contexts/ImageContext.tsx:86-89 | the intended selection: any defined in-range index, 0 included, selects its image |
| ImageContext.SelectionsDifferOnlyAtZero | src/contexts/ImageContext.tsx:86-89 | the written and the intended selection differ exactly at index 0 of a non-empty list |
| ImageContext.StepPrevious | src/contexts/ImageContext.tsx:132-141 | an undefined index stays undefined; a defined one takes the wrap-around step back |
| ImageContext.StepNext | src/contexts/ImageContext.tsx:143-152 | an undefined index stays undefined; a defined one takes the wrap-around step forward |
| ImageContext.GuardedRoundTrip | src/contexts/ImageContext.tsx:132-152 | the guarded steps undo each other for an undefined or in-range index |
| ImageContext.Provider.constructor | src/contexts/ImageContext.tsx:71-79 | the initial state is loading and empty, zoom 1, index undefined |
| ImageContext.Provider.Images | src/contexts/ImageContext.tsx:81-84 | exactly the image entries, as a subsequence of the entries |
| ImageContext.Provider.Image | src/contexts/ImageContext.tsx:86-89 | a selected image is an image entry of the listing; index 0 selects nothing |
| ImageContext.Provider.StartLoad | src/contexts/ImageContext.tsx:97-99 | the state resets to loading with no directory and no entries |
| ImageContext.Provider.FinishLoad | src/contexts/ImageContext.tsx:100-106 | the listing is stored unfiltered as loaded, or the state becomes error |
| ImageContext.Provider.SyncIndex | src/contexts/ImageContext.tsx:110-113 | the index becomes defined: the file's first position among the images, or 0 if it is absent |
| ImageContext.Provider.MovePrevious | src/contexts/ImageContext.tsx:132-141 | the guarded step back over the image count |
| ImageContext.Provider.MoveNext | src/contexts/ImageContext.tsx:143-152 | the guarded step forward over the image count |
| ImageContext.Provider.MoveTo | src/contexts/ImageContext.tsx:154 | the index becomes the argument, unchecked |
| ImageContext.Provider.ZoomBy | src/contexts/ImageContext.tsx:120-124 | the new zoom is the clamped product, so zoom stays in [1, 10] |
| ImageContext.Provider.ZoomIn | src/contexts/ImageContext.tsx:126 | `zoomBy(0.1)` |
| ImageContext.Provider.ZoomOut | src/contexts/ImageContext.tsx:128 | `zoomBy(-0.1)` |
| ImageContext.Provider.ResetZoom | src/contexts/ImageContext.tsx:130 | the zoom becomes exactly 1 |
| ImageContext.Provider.OnFullscreenChange | src/contexts/ImageContext.tsx:91-95 | the fullscreen flag follows the host notification |
| VideoContext.SelectEntry | src/contexts/VideoContext.tsx:46-49 | `entries[index]` when in range, and the empty file {'', '', ''} otherwise |
| VideoContext.StateMessage | src/contexts/VideoContext.tsx:51-60 | "Loading..." exactly for 'loading', "Failed to load." exactly for 'error', and no message otherwise |
| VideoContext.VideoProvider.constructor | src/contexts/VideoContext.tsx:39-44 | the initial state is no entries, index 0, zoom 1, not fullscreen |
| VideoContext.VideoProvider.Entry | src/contexts/VideoContext.tsx:46-49 | the current entry, or the empty file when the index is out of range |
| VideoContext.VideoProvider.Message | src/contexts/VideoContext.tsx:40-60 | the state is never updated, so the message is always "Loading..." |
| VideoContext.VideoProvider.SetEntries | src/contexts/VideoContext.tsx:68-73 | the entries become the host's listing; the index is kept |
| VideoContext.VideoProvider.ZoomBy | src/contexts/VideoContext.tsx:80-84 | the new zoom is the clamped product, so zoom stays in [1, 10] |
| VideoContext.VideoProvider.ZoomIn | src/contexts/VideoContext.tsx:86 | `zoomBy(0.1)` |
| VideoContext.VideoProvider.ZoomOut | src/contexts/VideoContext.tsx:88 | `zoomBy(-0.1)` |
| VideoContext.VideoProvider.ResetZoom | src/contexts/VideoContext.tsx:90 | the zoom becomes exactly 1 |
| VideoContext.VideoProvider.MovePrevious | src/contexts/VideoContext.tsx:92-95 | one wrap-around step back over the entry count |
| VideoContext.VideoProvider.MoveNext | src/contexts/VideoContext.tsx:97-100 | one wrap-around step forward over the entry count |
| VideoContext.VideoProvider.MoveTo | src/contexts/VideoContext.tsx:102 | the index becomes the argument, unchecked; out of range it shows the empty file |
| VideoContext.VideoProvider.OnFullscreenChange | src/contexts/VideoContext.tsx:62-66 | the fullscreen flag follows the host notification |
| Pointer.ModifierHeld | src/components/Viewer.tsx:118 | true exactly when one of ctrl and meta is held (exclusive or) |
| Pointer.OutsideWindow | src/components/Player.tsx:84-89 | false exactly when the pointer lies within [0, innerWidth] × [0, innerHeight] |
| Pointer.DragAnchor | src/components/Viewer.tsx:215-218 | the anchor less the pointer position is the scroll offset at mouse-down |
| Pointer.DragScroll | src/components/Viewer.tsx:227-230 | the new scroll plus the pointer position is the anchor |
| Pointer.DragFollowsPointer | src/components/Player.tsx:52-74 | a drag shifts the scroll by the opposite of the pointer's displacement, and returning to the start point restores the start scroll |
| Pointer.CursorFor | src/components/Player.tsx:119-123 | grabbing exactly while dragging; the default exactly while not dragging with the bar visible; none otherwise |
| Viewer.Reducer | src/components/Viewer.tsx:34-45 | `loaded` keeps size and url; `error` and `loading` clear both |
| Viewer.FitRatio | src/components/Viewer.tsx:80-81 | the zoom-1 scale is at most 1 and at most each container/native ratio, and equals one of them |
| Viewer.RenderedSize | src/components/Viewer.tsx:74-86 | a size exists exactly when both native and wrapper sizes are known, and it keeps the native aspect ratio |
| Viewer.AxisFit | src/components/Viewer.tsx:80-85 | on one axis, the scaled length stays within both the container and the native length |
| Viewer.FitAtZoomOne | src/components/Viewer.tsx:80-85 | at zoom 1 the image is within the container and within its native size on both axes, and it touches the container or is at native size |
| Viewer.RenderedSizeScalesWithZoom | src/components/Viewer.tsx:80-85 | the rendered size is the zoom-1 size multiplied by the zoom |
| Viewer.FitExample | src/components/Viewer.tsx:74-86 | an 800×300 image in a 400×300 container renders at 400×150 |
| Viewer.ScrollAfterZoom | src/components/Viewer.tsx:136-141 | the content point under the pointer keeps its relative position: (left+x)/newW = (scrollLeft+x)/oldW, and likewise for top |
| Viewer.ScrollAfterZoomUnchanged | src/components/Viewer.tsx:136-141 | an unchanged size leaves the scroll unchanged |
| Viewer.ViewerMessage | src/components/Viewer.tsx:173-189 | the fetch status's message wins unless the fetch is loaded; there is no message exactly when both statuses are loaded |
| Viewer.ViewerController.constructor | src/components/Viewer.tsx:54-69 | the initial state: image loading with no size or url, no sizes, no position, no drag, bar hidden, no timer |
| Viewer.ViewerController.Size | src/components/Viewer.tsx:74-86 | a rendered size exists exactly when the native and wrapper sizes are known, which is exactly when the image is loaded and the wrapper is measured |
| Viewer.ViewerController.Message | src/components/Viewer.tsx:173-189 | there is no message exactly when fetch and image are both loaded |
| Viewer.ViewerController.ShowsImage | src/components/Viewer.tsx:293 | the image is drawn exactly when it is loaded with a non-empty url, its size is known and the container is measured |
| Viewer.ViewerController.Cursor | src/components/Viewer.tsx:277-281 | grabbing while dragging, the default while the bar is visible, none otherwise |
| Viewer.ViewerController.Resize | src/components/Viewer.tsx:100-106 | the wrapper size becomes the observed size |
| Viewer.ViewerController.LoadImage | src/components/Viewer.tsx:145-171 | no image changes nothing; a decoded image is loaded with its size and url; a failed decode gives error |
| Viewer.ViewerController.HandleWheel | src/components/Viewer.tsx:117-123 | only with exactly one of ctrl/meta: record the pointer position and request `zoomBy(deltaY·0.01)` |
| Viewer.ViewerController.ApplyZoomScroll | src/components/Viewer.tsx:128-143 | no scroll unless position, previous size and size are all present; otherwise the zoom-to-cursor scroll |
| Viewer.ViewerController.ResetTimer | src/components/Viewer.tsx:193-203 | the bar becomes visible, and a hide timer is armed exactly when not hovered |
| Viewer.ViewerController.FireTimer | src/components/Viewer.tsx:200 | an armed timer hides the bar and is spent; a cleared one changes nothing |
| Viewer.ViewerController.HoveredEffect | src/components/Viewer.tsx:205-209 | while hovered, the bar is visible with no timer pending |
| Viewer.ViewerController.MouseDown | src/components/Viewer.tsx:211-221 | with exactly one of ctrl/meta, the drag anchor becomes scroll + pointer; otherwise nothing changes |
| Viewer.ViewerController.MouseMove | src/components/Viewer.tsx:223-233 | the timer is always reset; with an anchor the scroll becomes anchor − pointer, without one it is unchanged |
| Viewer.ViewerController.MouseUp | src/components/Viewer.tsx:235 | the drag anchor is cleared |
| Viewer.ViewerController.MouseEnter | src/components/Viewer.tsx:237-240 | the timer is reset with the current hover state |
| Viewer.ViewerController.MouseLeave | src/components/Viewer.tsx:242-252 | leaving through the window edge clears the drag and hides the bar; inside the bounds nothing changes |
| Viewer.ViewerController.MouseEnterBar | src/components/Viewer.tsx:254-257 | the bar is hovered and visible with no timer pending |
| Viewer.ViewerController.MouseLeaveBar | src/components/Viewer.tsx:259-262 | the bar is no longer hovered, stays visible, and a hide timer is armed |
| Player.PlayerController.constructor | src/components/Player.tsx:18-26 | the initial state: no drag, not hovered, bar hidden, no timer |
| Player.PlayerController.Cursor | src/components/Player.tsx:119-123 | grabbing while dragging, the default while the bar is visible, none otherwise |
| Player.PlayerController.ResetTimer | src/components/Player.tsx:34-44 | the bar becomes visible, the pending timer is cleared, and a new one is armed exactly when not hovered |
| Player.PlayerController.FireTimer | src/components/Player.tsx:41 | an armed timer hides the bar and is spent; a cleared one changes nothing |
| Player.PlayerController.HoveredEffect | src/components/Player.tsx:46-50 | while hovered, the bar is visible with no timer pending |
| Player.PlayerController.MouseDown | src/components/Player.tsx:52-62 | a drag anchor is recorded only with exactly one of ctrl/meta held |
| Player.PlayerController.MouseMove | src/components/Player.tsx:64-74 | the timer is always reset; with an anchor the scroll becomes anchor − pointer, without one it is unchanged |
| Player.PlayerController.MouseUp | src/components/Player.tsx:76 | the drag anchor is cleared |
| Player.PlayerController.MouseEnter | src/components/Player.tsx:78-81 | the timer is reset with the current hover state |
| Player.PlayerController.MouseLeave | src/components/Player.tsx:83-93 | outside the window bounds the drag is cleared and the bar hidden; inside the bounds nothing changes |
| Player.PlayerController.MouseEnterBar | src/components/Player.tsx:95-98 | the bar is hovered and visible with no timer pending |
| Player.PlayerController.MouseLeaveBar | src/components/Player.tsx:100-103 | the bar is no longer hovered, stays visible, and a hide timer is armed |
| SeekBar.SliderValue | src/components/SeekBar.tsx:119 | the shown value is one more than the index, so a valid index shows a value ≥ 1 |
| SeekBar.ChangeTarget | src/components/SeekBar.tsx:42-45 | the requested index is one less than the value, so a value ≥ 1 requests an index ≥ 0 |
| SeekBar.AppearStyle | src/components/SeekBar.tsx:25-29 | the shown style: inset `auto <spacing> 1px`, fully opaque, raised by 61 px |
| SeekBar.ValueRoundTrip | src/components/SeekBar.tsx:42-45 | the shown value index+1 and the change target value−1 are inverse to each other |
| SeekBar.Slider | src/components/SeekBar.tsx:69-119 | the slider exists exactly when the index is defined, with min 1, max the image count, step 1, and a value that maps back to the index |
| SeekBar.ChangeStaysInRange | src/components/SeekBar.tsx:71-81 | a value the slider can report maps to an index in [0, count−1], and every such index is shown as a value the slider can report |
| SeekBar.DisappearStyle | src/components/SeekBar.tsx:32-38 | the opacity is 1 exactly when the seek bar is always shown, and 0 otherwise |
| SeekBar.TransitionStyle | src/components/SeekBar.tsx:49-55 | entering and entered use the appear style; exiting, exited and unmounted use the disappear style |
| SeekBar.OpacityBySetting | src/components/SeekBar.tsx:24-55 | with the setting on, the seek bar is opaque in every state; with it off, it is transparent exactly in the exit states |
| App.DispatchMessage | src/App.tsx:28-43 | each handled tag maps to its own effect and back; 'changeFile' initializes with the file; no message closes the window or exits fullscreen |
| App.UnknownMessagesIgnored | src/App.tsx:28-43 | a message has no effect exactly when its tag is not handled |
| App.DispatchKey | src/App.tsx:56-75 | the outcome of each handled key (Escape depends on the setting), and no effect and no preventDefault for any other key |
| App.KeyEffects | src/App.tsx:64-73 | close-window exactly on Escape with the setting on; exit-fullscreen exactly on Escape with it off; toggle-fullscreen exactly on 'f' |
| Settings.Reduce | src/store/settings.ts:23-49 | replace returns its payload; the view-mode setter and each toggle change only their own field |
| Settings.TogglesAreInvolutions | src/store/settings.ts:37-48 | applying either toggle twice is the identity |
| Settings.TogglesCommute | src/store/settings.ts:37-48 | the two toggles commute |
| Settings.SetDefaultViewModeIdempotent | src/store/settings.ts:27-36 | setting the view mode is idempotent, and the later setting wins |
| Settings.ReplaceIgnoresPrior | src/store/settings.ts:24-26 | replacing yields the payload, whatever the prior state |
| Settings.RepeatedToggle | src/store/settings.ts:37-42 | n seek-bar toggles flip the flag exactly when n is odd and change nothing else |
| Settings.SelectDefaultViewMode | src/store/settings.ts:63-66 | reads the slice's default view mode |
| Settings.SelectShouldAlwaysShowSeekBar | src/store/settings.ts:68-71 | reads the slice's always-show-seek-bar flag |
| Settings.SelectShouldCloseWindowWithEscapeKey | src/store/settings.ts:73-76 | reads the slice's close-on-Escape flag |
| Settings.SelectorsObserveReducers | src/store/settings.ts:61-76 | the initial state is normal/false/false as the selectors read it; each selector returns its field as the reducers left it |
| WindowStore.Load | src/store/window.ts:30-39 | the window's record becomes {filePath: p}; the id is added to the keys and every other window is unchanged |
| WindowStore.LoadOverrides | src/store/window.ts:30-39 | a later load of the same window overrides an earlier one; loads of different windows commute |
| WindowStore.ReplaceState | src/store/window.ts:27-29 | the result is the payload |
| WindowStore.ReplaceIgnoresPrior | src/store/window.ts:27-29 | replacing yields the payload, whatever the prior state |
| WindowStore.SelectCurrentWindow | src/store/window.ts:49-53 | the window's record if present, and otherwise the default with no file path |
| WindowStore.SelectFilePath | src/store/window.ts:55-58 | the window's recorded file path when the window is present, and no path otherwise |
| WindowStore.LoadThunk | src/store/window.ts:60-68 | afterwards the current window's file path is p, and every other window's path is unchanged |
| WindowStore.InitiallyNoFile | src/store/window.ts:17-21 | the initial state is empty, so every window starts with no file path |

## Left out

- Host bridge calls are not modelled: directory listing, parent lookup, fullscreen toggling, closing the window, the cursor-position query and the application menu. Their results are parameters: a `Listing` or `None` for a failed call, a decoded size or `None`. The calls themselves are named by `App.Effect` values.
- The `isImageFile` media-type lookup is a `string -> bool` given to each provider. `src/utils/file.ts` and the `mime` library are not part of this model.
- Asynchronous timing is not modelled: the order in which listings and image decodes resolve, the stale-listing race, and React's render/effect scheduling. Each effect is a method that produces the state it leaves behind. Two effects are split into their start and finish steps: the image provider's listing (`StartDirectoryLoad`, `FinishDirectoryLoad`) and the image context's listing (`StartLoad`, `FinishLoad`).
- Timers are an armed flag plus an explicit `FireTimer` step. The 2000 ms delay is not modelled.
- Sizes, scroll offsets and zoom are `real`. IEEE-754 rounding, NaN and infinities are not modelled.
- The browser's clamping of `scrollTo` and `scrollLeft` to the scrollable range is not modelled.
- The wrapper element is assumed to be mounted. Handlers that return early on a null ref are not modelled.
- Viewer.RenderedSize: requires a positive native size, because the code divides by it. The zero-size results of JavaScript division are not modelled.
- Viewer.ViewerController.LoadImage: requires a positive decoded size, for the same reason.
- Viewer.ScrollAfterZoom: requires a positive previous size, for the same reason. The property holds on each axis whose new length is non-zero.
- Viewer.ViewerController.ApplyZoomScroll: requires a positive previous size, as above.
- JavaScript indices are doubles. Indices are `int` here, so fractional or NaN indices passed to `moveTo` are not modelled.
- The window-id slice (`selectWindowId`) is not part of this model. The window id is a parameter of the selectors and of the thunk. The image provider's store flags `loading` and `error` are parameters too.
- App.DispatchMessage: a message whose `data` object is missing is not modelled. The code would throw on `data.file`.
- Rendering, styling, theming (the theme's `spacing(1)` is a string parameter), transitions' durations, drag-and-drop, the title bar and the traffic-light visibility hook are not modelled. So are persistence (`src/store/index.ts`, `src/contexts/StoreContext.tsx`), the Electron main process, preload scripts and packaging.

## Findings

| source | as written | input that shows it | evidently intended | confidence | as-written member | corrected member |
|---|---|---|---|---|---|---|
| src/contexts/ImageContext.tsx:86-89 | `index ? images[index] : undefined` tests the index for truthiness | images = [A, B], index = 0: no image is selected, although A is at index 0 | `index !== undefined ? images[index] : undefined`, the form that src/providers/ImageProvider.tsx:94-97 uses | high (not executed) | ImageContext.FirstImageNeverSelected | ImageContext.SelectImageCorrected |

The image context keeps the code's behaviour. `ImageContext.Provider.Image` uses the
as-written selection. `ImageContext.SelectionsDifferOnlyAtZero` proves that the two
selections differ only at index 0 of a non-empty list.
