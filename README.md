# Imagura viewer core in Dafny

This project models the deterministic core of Imagura, a full-screen image
viewer written in Python over raylib. It covers:

- the view-transform arithmetic: fit scale, centring, anchor-preserving zoom, the
  centre-deviation pan clamp, the heuristic view sanitiser, and the older
  copies of these in the single-file viewer `imagura2.py`;
- the clamp, lerp and easing helpers;
- the per-concern state records: image list and view memory, zoom state,
  pan and double click, gallery, context menu, toolbar and background mode;
- the bounded switch queue and the prepare/complete switch handshake;
- the animation controller: one animation per type, with start, cancel and
  update partitioning against an explicit clock;
- the command guards, the commands that change state, and the command queue
  with its bounded history;
- the PNG and JPEG header probes over byte sequences, the heavy-image
  decision and the extension check;
- the hit tests and input context of the input handler;
- the rotation and flip dimension helpers;
- the single-file viewer's state (`Viewer.ViewerState`): deferred texture
  unloading, thumbnail scheduling, building and insertion-order eviction,
  the prefetch window update on an image switch, the background fade step
  and the zoom-state cycle.

All arithmetic is over `real`. Python's `int(x)` is `MathUtils.Trunc`
(toward zero). Every `now()` is an explicit `now: real` parameter in seconds.
Texture loading and thumbnail building are oracle parameters
(`load: string -> Option<(int, int)>`, `build: (string, int) -> BitmapThumb`).
`load` gives the decoded size of a path, or None when `_safe` returns None;
every call of `load_texture` makes a new texture, so the viewer hands out
texture handles from a counter (`nextTexId`). A texture is an opaque
`Texture(id)`.

Modules follow the source files: `MathUtils`, `Types`, `ViewMath`,
`Transforms`, `ImageUtils`, `StateAnimation`, `StateLoading`, `StateImages`,
`StateView`, `StateInput`, `StateGallery`, `StateUi`, `Animations`,
`Commands`, `InputHandling`, `ViewerMath` and `Viewer`, plus a small
`Wrappers` module holding `Option`. The objects whose fields the source
updates in place are classes. The pure helpers are functions, and each has
lemmas that relate it to an inverse, an invariant or a reference definition.

When the switch queue is full, `queue_switch` rejects the new
request (imagura/state/animation.py:58-61); it does not drop the oldest one.

## Model

| member | source | states |
|---|---|---|
| MathUtils.Clamp | imagura/math_utils.py:6-8 | with a <= b the result lies in [a, b]; it is v inside the range, a below it and b above it |
| MathUtils.Lerp | imagura/math_utils.py:11-14 | t is clamped to [0, 1]: t <= 0 gives a, t >= 1 gives b, and the result lies between a and b |
| MathUtils.EaseOutQuad | imagura/math_utils.py:17-23 | 0 for t <= 0, 1 for t >= 1, and within [0, 1] |
| MathUtils.EaseOutQuadMonotone | imagura/math_utils.py:17-23 | ease_out_quad never decreases |
| MathUtils.EaseInOutCubic | imagura/math_utils.py:26-36 | 0 for t <= 0, 1 for t >= 1, within [0, 1]; at most 0.5 on the first half and at least 0.5 from the midpoint on |
| MathUtils.EaseInOutCubicMonotone | imagura/math_utils.py:26-36 | ease_in_out_cubic never decreases, across the branch change at 0.5 too |
| MathUtils.DistanceSquared | imagura/math_utils.py:39-43 | non-negative, and zero for coinciding points |
| MathUtils.DistanceSquaredSymmetric | imagura/math_utils.py:39-43 | swapping the two points does not change the squared distance |
| Types.LoadPriority.Value | imagura/types.py:11-15 | every priority has a value below 3 |
| Types.PriorityOrder | imagura/types.py:11-15 | CURRENT < NEIGHBOR < GALLERY, and distinct priorities have distinct values |
| Types.TaskLessPriorityFirst | imagura/types.py:26-28 | a task of smaller priority value comes first, whatever the timestamps |
| Types.TaskLess | imagura/types.py:26-30 | `LoadTask.__lt__`: priority value first, timestamp on ties; TaskLessStrictOrder and TaskLessTotal state its order laws |
| Types.TaskLessFifo | imagura/types.py:29-30 | with equal priority, tasks order by timestamp |
| Types.TaskLessStrictOrder | imagura/types.py:26-30 | `__lt__` is irreflexive, asymmetric and transitive |
| Types.TaskLessTotal | imagura/types.py:26-30 | two tasks differing in priority or timestamp are comparable |
| Types.ViewParams.Copy | imagura/types.py:47-49 | the copy has equal scale and offsets |
| Types.DefaultView | imagura/types.py:41-45 | the default view is scale 1 at offset (0, 0) |
| Types.TextureInfo.CopyRef | imagura/types.py:60-62 | the copy shares the texture and copies width, height and path |
| Types.EmptyCache | imagura/types.py:66-71 | an empty cache has no prev, curr or next slot |
| Types.DefaultThumb | imagura/types.py:74-79 | a default thumbnail has no texture, size (0, 0), empty path and is not ready |
| ViewMath.ComputeFitScale | imagura/view_math.py:11-32 | 1.0 when either dimension is 0; otherwise one of the two screen-to-image ratios |
| ViewMath.FitScaleFits | imagura/view_math.py:30-32 | for positive dimensions the scaled image fits within frac × screen on both axes and touches that limit on one axis |
| ViewMath.CenterViewFor | imagura/view_math.py:35-58 | keeps the scale and puts the scaled image's centre at the screen centre |
| ViewMath.CenteredUnique | imagura/view_math.py:54-58 | a centred view is the one center_view_for computes at its scale |
| ViewMath.ComputeFitView | imagura/view_math.py:61-81 | the fit scale, centred |
| ViewMath.FitViewExample | imagura/view_math.py:61-81 | 1920×1080 on 1920×1080 at 0.95 gives scale 0.95 at offsets (48, 27) |
| ViewMath.ClampAxis | imagura/view_math.py:119-136 | one axis of clamp_pan: the centre stays within half the size difference of the screen centre; a smaller image stays on screen, a larger one covers it |
| ViewMath.ClampAxisKeeps | imagura/view_math.py:119-136 | an offset already within the allowed deviation is kept |
| ViewMath.ClampPan | imagura/view_math.py:84-138 | keeps the scale; on each axis the centre deviation is bounded, a smaller image stays fully on screen and a larger one covers the screen |
| ViewMath.ClampPanIdempotent | imagura/view_math.py:127-138 | clamping twice is clamping once |
| ViewMath.ClampPanCentered | imagura/view_math.py:127-138 | a centred view is left unchanged |
| ViewMath.RecomputeViewAnchorZoom | imagura/view_math.py:141-174 | new scale is max(0.01, new_scale); when the old scale exceeds 1e-6 the image point under the anchor is the same before and after |
| ViewMath.ViewFor1to1Centered | imagura/view_math.py:177-194 | scale 1, centred |
| ViewMath.SanitizeView | imagura/view_math.py:197-255 | near-zero or asymmetric offsets (one under 5, the other over 50) give the centred view at the same scale; otherwise a scale within 0.01 of 1 with an offset more than 50 from the centred 1:1 offsets gives the centred 1:1 view; anything else gives clamp_pan of the view |
| ViewMath.SanitizeThenClamp | imagura/view_math.py:223-255 | clamp_pan leaves a sanitised view unchanged |
| ViewMath.SanitizeExample | imagura/view_math.py:223-255 | scale 1 at (0, 0), 800×600 on 1920×1080 becomes (560, 240) |
| ViewMath.SanitizeSnapsCentredNearOneToOne | imagura/view_math.py:243-251 | a view already centred at scale 0.995 (a 30000×100 strip on 1920×1080) is moved to the centred 1:1 view, so sanitising can change a well-formed view's scale |
| Transforms.RotatedDimensions | imagura/transforms.py:103-105 | rotation swaps width and height |
| Transforms.FlippedDimensions | imagura/transforms.py:108-110 | flipping keeps width and height |
| Transforms.RotationDirectionIrrelevant | imagura/transforms.py:103-105 | the result does not depend on the clockwise flag |
| Transforms.RotateTwice | imagura/transforms.py:103-105 | two rotations restore the original dimensions |
| Transforms.FlipCommutesWithRotate | imagura/transforms.py:103-110 | flipping before rotating gives the rotated dimensions |
| ImageUtils.BE16 | imagura/image_utils.py:47-53 | a big-endian 16-bit field lies in [0, 65536) |
| ImageUtils.BE32 | imagura/image_utils.py:66-68 | a big-endian 32-bit field lies in [0, 2^32) |
| ImageUtils.EncodeBE16 | imagura/image_utils.py:47-53 | the two-byte encoding decodes back to n |
| ImageUtils.EncodeBE32 | imagura/image_utils.py:66-68 | the four-byte encoding decodes back to n |
| ImageUtils.ProbePng | imagura/image_utils.py:62-68 | a result iff there are 24 bytes and the 8-byte PNG signature matches; width and height are the big-endian words at bytes 16-19 and 20-23 |
| ImageUtils.PngHeader | imagura/image_utils.py:62-68 | a signature plus IHDR prefix is 24 bytes |
| ImageUtils.ProbePngRoundTrip | imagura/image_utils.py:62-68 | probing a header built for (w, h), followed by any bytes, gives (w, h) |
| ImageUtils.ProbeJpeg | imagura/image_utils.py:41-59 | the while loop computes the marker scan JpegScan from index 0 |
| ImageUtils.JpegScan | imagura/image_utils.py:41-59 | `_probe_jpeg` as written, one marker step per call from index i; its soundness, bounds and failure cases are JpegScanSound, JpegScanBounds, JpegScanNoSof and JpegScanMissesFrameAfterSoi |
| ImageUtils.JpegScanSound | imagura/image_utils.py:44-51 | a result comes from an 0xFF, SOF0-3 pair inside the data, with height from bytes i+5..i+6 and width from i+7..i+8 |
| ImageUtils.JpegScanBounds | imagura/image_utils.py:45-51 | both dimensions are below 65536 |
| ImageUtils.JpegScanNoSof | imagura/image_utils.py:52-59 | with no SOF0-3 marker from i on, the scan returns None |
| ImageUtils.JpegScanExample | imagura/image_utils.py:44-59 | a non-0xFF byte is stepped over and an SOF0 header gives (640, 480) |
| ImageUtils.EncodeSegment | imagura/image_utils.py:52-56 | a segment is 0xFF, its marker and a big-endian length that counts itself and the payload |
| ImageUtils.EncodeSegments | imagura/image_utils.py:52-56 | a non-empty segment list starts with 0xFF |
| ImageUtils.FrameHeader | imagura/image_utils.py:45-51 | an SOF0 header carries height at bytes 5-6 and width at bytes 7-8 |
| ImageUtils.JpegStream | imagura/image_utils.py:41-59 | a JPEG stream starts with the SOI marker FF D8 followed by a marker |
| ImageUtils.JpegScanMissesFrameAfterSoi | imagura/image_utils.py:41-59 | as written, the scan finds no frame in any standard stream of up to 65291 bytes |
| ImageUtils.JpegScanFixed | imagura/image_utils.py:41-59 | the corrected scan returns dimensions below 65536 |
| ImageUtils.JpegScanFixedFrame | imagura/image_utils.py:45-51 | the corrected scan reads a frame header at the scan position |
| ImageUtils.JpegScanFixedSkip | imagura/image_utils.py:52-56 | the corrected scan skips a whole length-bearing segment |
| ImageUtils.JpegScanFixedFirstSegment | imagura/image_utils.py:52-56 | skipping the first segment of a list leaves the rest and the frame in place |
| ImageUtils.JpegScanFixedSegments | imagura/image_utils.py:52-56 | the corrected scan passes any run of skippable segments and reaches the frame |
| ImageUtils.JpegScanFixedFindsFrame | imagura/image_utils.py:41-59 | the corrected scan finds (w, h) in every standard stream |
| ImageUtils.IsHeavyImage | imagura/image_utils.py:82-94 | heavy iff the size is at least 10 MB or both probed dimensions are at least 4000 |
| ImageUtils.RFind | imagura/image_utils.py:153-156 | the last index of c, or -1 when c does not occur |
| ImageUtils.RFindBelow | imagura/image_utils.py:153-156 | the last index of c below n, or -1 |
| ImageUtils.HasNonDot | imagura/image_utils.py:153-156 | true iff some character is not a dot |
| ImageUtils.Extension | imagura/image_utils.py:153-156 | the extension is empty or a suffix of the path that starts with its only dot and holds no separator |
| ImageUtils.LowerChar | imagura/image_utils.py:153-156 | upper-case ASCII letters map to lower case; every other character is kept |
| ImageUtils.Lower | imagura/image_utils.py:153-156 | lower-cases every character and keeps the length |
| ImageUtils.SupportedUpperCaseExtension | imagura/image_utils.py:153-156 | an upper-case `.JPG` under a Windows path is supported |
| ImageUtils.DotFileNotSupported | imagura/image_utils.py:153-156 | a name made of one dot and a dot- and separator-free rest, such as `.png`, has no extension and is not an image |
| ImageUtils.DottedFolderNotSupported | imagura/image_utils.py:153-156 | a dot in a folder name is not an extension |
| ImageUtils.ProbeImageDimensions | imagura/image_utils.py:18-38 | no header gives None; `.png` uses the PNG probe, `.jpg` and `.jpeg` the JPEG scan as written; every other extension gives None |
| ImageUtils.ProbeImageDimensionsFixed | imagura/image_utils.py:18-38 | as ProbeImageDimensions, with `.jpg` and `.jpeg` going through the corrected JPEG scan |
| ImageUtils.ProbeDimensionsOfSmallJpeg | imagura/image_utils.py:18-59 | for every standard JPEG within the 64 KiB header read, the probe as written gives None and the corrected probe gives the frame's (w, h) |
| ImageUtils.IsSupportedImage | imagura/image_utils.py:153-156 | the lower-cased `splitext` extension is one of the supported ones; see SupportedUpperCaseExtension, DotFileNotSupported and DottedFolderNotSupported |
| StateAnimation.EnqueueSwitch | imagura/state/animation.py:56-61 | accepted iff fewer than 20 are queued; then appended, else the queue is unchanged |
| StateAnimation.DequeueSwitch | imagura/state/animation.py:63-67 | a result iff the queue is non-empty, and it is the oldest entry; an empty queue gives None and stays empty |
| StateAnimation.EnqueueSwitchBounded | imagura/state/animation.py:56-61 | the queue never grows past 20 |
| StateAnimation.SwitchQueueFifo | imagura/state/animation.py:56-67 | A then B queued pop as A, then B, then nothing |
| StateAnimation.EnqueueThenDrain | imagura/state/animation.py:56-67 | popping everything after an accepted append yields the old queue followed by the new request |
| StateAnimation.DrainIsContents | imagura/state/animation.py:63-67 | popping until empty yields the queue in order |
| StateAnimation.AnimationState.constructor | imagura/state/animation.py:12-38 | all flags off, no queued switch, no snapshot, times and views at their defaults |
| StateAnimation.AnimationState.AnyAnimating | imagura/state/animation.py:40-49 | true iff open, switch, zoom or toggle-zoom is active |
| StateAnimation.AnimationState.AnyZoomAnimating | imagura/state/animation.py:40-43 | zoom or toggle-zoom is active; AnyAnimating states that this implies any_animating |
| StateAnimation.AnimationState.HasQueuedSwitches | imagura/state/animation.py:51-54 | true iff a pop would return a request |
| StateAnimation.AnimationState.QueueSwitch | imagura/state/animation.py:56-61 | result and new queue are those of EnqueueSwitch |
| StateAnimation.AnimationState.PopSwitch | imagura/state/animation.py:63-67 | result and new queue are those of DequeueSwitch |
| StateAnimation.AnimationState.ClearSwitchPrev | imagura/state/animation.py:69-73 | returns the old snapshot and leaves None |
| StateLoading.Prepare | imagura/state/loading.py:34-42 | waiting, target, duration and snapshot set; a copy of the previous view stored; loading flags untouched |
| StateLoading.Complete | imagura/state/loading.py:44-62 | with no wait or no target, (None, None, 0, 0) and no change; otherwise the prepared tuple, and the pending fields reset with the duration back to 200 |
| StateLoading.ResetPending | imagura/state/loading.py:64-70 | clears waiting, snapshot, target and neighbour loading; duration back to 200 |
| StateLoading.PrepareThenComplete | imagura/state/loading.py:34-62 | completing a prepared switch returns exactly what was prepared and leaves nothing pending |
| StateLoading.CompleteTwice | imagura/state/loading.py:44-62 | a second completion returns the empty tuple and changes nothing |
| StateLoading.PreparedIsBusy | imagura/state/loading.py:24-42 | after prepare_switch the state is busy and has a pending switch |
| StateLoading.IsBusy | imagura/state/loading.py:24-27 | loading the current image or waiting for a switch; PreparedIsBusy and PrepareThenComplete state when it holds |
| StateLoading.HasPendingSwitch | imagura/state/loading.py:29-32 | a target index is pending; set by Prepare and cleared by Complete (PrepareThenComplete) |
| StateLoading.LoadingState.constructor | imagura/state/loading.py:12-22 | nothing loading, waiting or pending; duration 200 |
| StateLoading.LoadingState.PrepareSwitch | imagura/state/loading.py:34-42 | the new state is Prepare of the old |
| StateLoading.LoadingState.CompleteSwitch | imagura/state/loading.py:44-62 | result and new state are Complete of the old |
| StateLoading.LoadingState.ResetPendingState | imagura/state/loading.py:64-70 | the new state is ResetPending of the old |
| StateImages.ClampIndex | imagura/state/images.py:51-55 | 0 for an empty list; otherwise in [0, n-1], unchanged when in range, 0 below and n-1 above |
| StateImages.ClampIndexIdempotent | imagura/state/images.py:51-55 | clamping twice is clamping once |
| StateImages.PathAt | imagura/state/images.py:45-49 | the path iff the index is in range, else None |
| StateImages.ClampedIndexHasPath | imagura/state/images.py:45-55 | a clamped index into a non-empty list always has a path |
| StateImages.ImageListState.constructor | imagura/state/images.py:12-22 | no images, index 0, empty cache and empty memories |
| StateImages.ImageListState.Count | imagura/state/images.py:23-26 | the number of images |
| StateImages.ImageListState.CurrentPath | imagura/state/images.py:28-33 | a path iff the index is in range, and it is in the list |
| StateImages.ImageListState.HasPrev | imagura/state/images.py:35-38 | true iff index > 0, and then the previous path exists |
| StateImages.ImageListState.HasNext | imagura/state/images.py:40-43 | true iff index < n-1, and then the next path exists |
| StateImages.ImageListState.GetSavedView | imagura/state/images.py:61-63 | the saved view iff one is stored for the path |
| StateImages.ImageListState.GetUserZoom | imagura/state/images.py:69-71 | the saved user zoom iff one is stored for the path |
| StateImages.ImageListState.SaveView | imagura/state/images.py:57-59 | reading the path back gives the view; other paths and the user-zoom map are unchanged |
| StateImages.ImageListState.SaveUserZoom | imagura/state/images.py:65-67 | reading the path back gives the view; other paths and the view map are unchanged |
| StateView.ZoomStateFor | imagura/state/view.py:38-43 | 0 iff within 0.01 of 1:1; else 1 iff within 0.01 of fit; else 2 |
| StateView.IsAtFit | imagura/state/view.py:27-29 | the scale is strictly within the tolerance (0.01 by default) of the fit scale |
| StateView.IsAtOneToOne | imagura/state/view.py:31-33 | the scale is strictly within the tolerance (0.01 by default) of 1; OneToOneBeatsFit states that it wins over IsAtFit |
| StateView.OneToOneBeatsFit | imagura/state/view.py:38-41 | when 1:1 is also at fit, the 1:1 state wins |
| StateView.UserZoomBetween | imagura/state/view.py:40-43 | a scale clear of both fit and 1:1 is a user zoom |
| StateView.ViewState.constructor | imagura/state/view.py:10-16 | default views, zoom state fit, not zoomed |
| StateView.ViewState.UpdateZoomState | imagura/state/view.py:35-43 | zoomed iff scale exceeds the fit scale; zoom state as ZoomStateFor; views unchanged |
| StateInput.PanDelta | imagura/state/input.py:33-37 | start mouse plus delta is the current mouse |
| StateInput.PannedOffset | imagura/state/input.py:39-42 | the offset moves exactly as far as the mouse did |
| StateInput.PannedOffsetAtStart | imagura/state/input.py:39-42 | at the start mouse position the start offset is returned |
| StateInput.PannedOffsetCompose | imagura/state/input.py:39-42 | restarting the drag midway gives the same offset |
| StateInput.NoTripleClick | imagura/state/input.py:54-57 | after a detected double click the time is reset, so a third click 0.3 s after time 0 is not another double click |
| StateInput.IsDoubleClick | imagura/state/input.py:49-53 | the click comes within 0.3 s of the last one and within max_distance on both axes; NoTripleClick and CheckDoubleClick use it |
| StateInput.InputState.constructor | imagura/state/input.py:12-18 | not panning, start positions and last click at zero |
| StateInput.InputState.StartPan | imagura/state/input.py:20-25 | panning, with start mouse and start offset recorded |
| StateInput.InputState.EndPan | imagura/state/input.py:27-31 | returns the previous panning flag and leaves it false |
| StateInput.InputState.GetPannedOffset | imagura/state/input.py:39-42 | start offset plus the mouse movement; the start offset at the start position |
| StateInput.InputState.CheckDoubleClick | imagura/state/input.py:44-59 | true iff within 0.3 s and under max_distance on both axes; then the time resets and the position stays, else time and position are recorded |
| StateGallery.GalleryHeight | imagura/state/gallery.py:19-21 | floor(screen_h × 0.12), within [0, screen_h] |
| StateGallery.YVisible | imagura/state/gallery.py:23-25 | screen_h minus the height, between 0 and the hidden position |
| StateGallery.YHidden | imagura/state/gallery.py:27-29 | the hidden position is screen_h |
| StateGallery.GalleryHeightExample | imagura/state/gallery.py:19-25 | a 1080 screen gives height 129 and visible y 951 |
| StateGallery.GalleryState.constructor | imagura/state/gallery.py:10-17 | hidden at 0 with no target |
| StateGallery.GalleryState.IsFullyVisible | imagura/state/gallery.py:31-33 | true iff y_position <= y_visible |
| StateGallery.GalleryState.IsFullyHidden | imagura/state/gallery.py:35-37 | true iff y_position >= screen_h; with a visible strip never both |
| StateGallery.GalleryState.HasPendingTarget | imagura/state/gallery.py:39-42 | a target index is set; ClearTarget makes it false |
| StateGallery.GalleryState.ClearTarget | imagura/state/gallery.py:44-46 | no pending target afterwards, nothing else changed |
| StateUi.HoveredAt | imagura/state/ui.py:52-56 | an item iff 0 <= hover_index < len, and it is that entry |
| StateUi.NextBgModeIndex | imagura/state/ui.py:127-130 | (index + 1) mod 4 |
| StateUi.BgModeCycleReturns | imagura/state/ui.py:127-130 | four cycles restore the mode |
| StateUi.ContextMenuState.constructor | imagura/state/ui.py:32-38 | hidden at (0, 0) with the default items and no hover |
| StateUi.ContextMenuState.Show | imagura/state/ui.py:40-45 | visible at the given point, no hover; items unchanged |
| StateUi.ContextMenuState.Hide | imagura/state/ui.py:47-50 | hidden, no hover; position unchanged |
| StateUi.ContextMenuState.GetHoveredItem | imagura/state/ui.py:52-56 | the hovered item iff the hover index is in range |
| StateUi.ToolbarState.constructor | imagura/state/ui.py:82-87 | transparent, the default buttons, no hover |
| StateUi.ToolbarState.GetHoveredButton | imagura/state/ui.py:89-93 | the hovered button iff the hover index is in range |
| StateUi.UiState.constructor | imagura/state/ui.py:97-110 | HUD and filename off, mode 0 with its opacity, fresh menu and toolbar |
| StateUi.UiState.CurrentBgMode | imagura/state/ui.py:112-116 | the mode at bg_mode_index |
| StateUi.UiState.BgBlurEnabled | imagura/state/ui.py:118-121 | the current mode's blur flag, which is on exactly for the translucent modes |
| StateUi.UiState.BgColor | imagura/state/ui.py:123-125 | the current mode's colour, black for the first two modes |
| StateUi.UiState.CycleBgMode | imagura/state/ui.py:127-130 | next mode index mod 4 and that mode's target opacity |
| StateUi.UiState.ToggleHud | imagura/state/ui.py:132-134 | negates the HUD flag |
| StateUi.UiState.ToggleFilename | imagura/state/ui.py:136-138 | negates the filename flag |
| Animations.Progress | imagura/animation.py:30-36 | 1 when duration <= 0; at most 1, non-negative from the start time, 0 at the start, and 1 exactly once the duration has elapsed |
| Animations.IsComplete | imagura/animation.py:38-41 | complete iff finished or progress has reached 1 |
| Animations.Finish | imagura/animation.py:48-51 | a finished animation is complete at every time and keeps its type |
| Animations.CompleteStaysComplete | imagura/animation.py:38-41 | once complete, complete at every later time |
| Animations.ProgressMonotone | imagura/animation.py:30-36 | progress never decreases with time |
| Animations.OpenScaleFactor | imagura/animation.py:66-69 | the target scale at the end, between start and target throughout |
| Animations.OpenAlpha | imagura/animation.py:71-74 | the target alpha at the end, between start and target throughout |
| Animations.OpenBgOpacity | imagura/animation.py:77-80 | the target opacity at the end, between start and target throughout |
| Animations.SwitchOffsetProgress | imagura/animation.py:92-94 | within [0, 1], and 1 at the end |
| Animations.SwitchPrevAlpha | imagura/animation.py:96-98 | within [0, 1], and previous plus current alpha is 1 |
| Animations.SwitchCurrAlpha | imagura/animation.py:100-102 | within [0, 1], and equal to the offset progress |
| Animations.LerpView | imagura/animation.py:114-121 | the start view at t <= 0, the target at t >= 1, and a scale between the two |
| Animations.ZoomCurrentView | imagura/animation.py:114-121 | from_view at the start, to_view once complete, and a scale between the two |
| Animations.ToggleZoomCurrentView | imagura/animation.py:134-141 | from_view at the start, to_view once complete, and a scale between the two |
| Animations.BgFadeOpacity | imagura/animation.py:153-156 | the start opacity at the start and the target once complete |
| Animations.RemoveType | imagura/animation.py:186-190 | keeps exactly the animations of other types |
| Animations.UpdatePartitions | imagura/animation.py:208-228 | completed and still-running split the list with nothing lost; the first are all complete, the second all incomplete |
| Animations.TypeOf | imagura/animation.py:44-46 | the type each animation kind reports; RemoveTypeDistinct and FirstOfType rely on it |
| Animations.Completed | imagura/animation.py:208-228 | the completed animations in list order; UpdatePartitions states the split |
| Animations.StillRunning | imagura/animation.py:208-228 | the animations not yet complete, in list order; UpdatePartitions and StillRunningDistinct state their properties |
| Animations.FiredCallbacksSpec | imagura/animation.py:216-226 | every fired callback is the one registered for a completed type; the callbacks left are those of types with no completed animation |
| Animations.RemoveTypeDistinct | imagura/animation.py:182-190 | removing a type keeps one animation per type |
| Animations.StillRunningDistinct | imagura/animation.py:208-228 | the running rest keeps one animation per type and comes from the list |
| Animations.FirstOfType | imagura/animation.py:171-176 | an animation iff one of that type is in the list, and it has that type |
| Animations.AnimationController.constructor | imagura/animation.py:162-164 | no animations and no callbacks |
| Animations.AnimationController.HasAnimations | imagura/animation.py:167-169 | true iff the list is non-empty |
| Animations.AnimationController.GetAnimation | imagura/animation.py:171-176 | the first animation of the type, if any |
| Animations.AnimationController.IsRunning | imagura/animation.py:178-180 | true iff an animation of the type is in the list |
| Animations.AnimationController.Start | imagura/animation.py:182-195 | older animations of the type removed, the new one appended; the callback replaced only when one is given; one animation per type kept |
| Animations.AnimationController.Cancel | imagura/animation.py:197-201 | the type and its callback removed, other types intact |
| Animations.AnimationController.CancelAll | imagura/animation.py:203-206 | both collections empty |
| Animations.AnimationController.Update | imagura/animation.py:208-228 | returns the completed animations, keeps the incomplete ones in order, and pops and fires each completed type's callback |
| Commands.CanExecute | imagura/commands.py:23-44 | the guard of every command: navigation needs a target and no open animation, StartPan needs an image, zoom and no pan, EndPan and UpdatePan need a pan, ContextMenuClick a visible menu and a valid item, the rest always run |
| Commands.NavigationTargetsExist | imagura/commands.py:37-92 | an allowed navigation targets an index in range other than the current one |
| Commands.OpenAnimationBlocksNavigationOnly | imagura/commands.py:42-156 | the open animation blocks navigation and zoom-in but not the zoom toggle |
| Commands.PanGuardsExclusive | imagura/commands.py:173-213 | StartPan and EndPan are never both allowed |
| Commands.GalleryScrollTarget | imagura/commands.py:262-275 | delta > 0 gives max(0, base - 1), else min(n - 1, base + 1); in range and one step away when base is in range |
| Commands.GalleryScrollRepeated | imagura/commands.py:262-275 | k scroll steps from a valid base stay in range and move at most k |
| Commands.AppState.constructor | imagura/state/app_state.py:35-43 | holds the given sub-states |
| Commands.AppState.Guards | imagura/commands.py:42-81 | the guard snapshot reads the image count, the index and the current image |
| Commands.AppState.ExecuteStartPan | imagura/commands.py:168-188 | runs iff its guard holds; then panning from the mouse at the current view offsets, else no change |
| Commands.AppState.ExecuteEndPan | imagura/commands.py:207-218 | returns the previous panning flag and leaves panning off |
| Commands.AppState.ExecuteGalleryScroll | imagura/commands.py:258-275 | false and no change for no images; else the target is GalleryScrollTarget from the pending target or the index |
| Commands.AppState.ExecuteContextMenuClick | imagura/commands.py:377-391 | runs iff the menu is visible and the item is valid; then the menu is hidden, else no change |
| Commands.AppState.Execute | imagura/commands.py:19-422 | every command except GalleryScroll runs iff its guard holds; a command that does not run changes nothing; one that runs leaves the state Executed states: its own change (pan start and end, scroll target, HUD, file name and background toggles, menu show, hide and click) and nothing else of the input, gallery and interface state, and no change at all for the commands whose effect is outside this module |
| Commands.Record | imagura/commands.py:438-449 | appends the command and drops the oldest to keep at most max_history |
| Commands.HistoryKeepsNewest | imagura/commands.py:438-449 | after any run of recorded commands the history is the newest max_history of all of them, in order |
| Commands.HistoryOfFreshQueue | imagura/commands.py:434-449 | from an empty history, the newest max_history commands |
| Commands.CommandQueue.constructor | imagura/commands.py:434-436 | empty history |
| Commands.CommandQueue.Execute | imagura/commands.py:438-449 | a failing guard returns false with the history and the state untouched; a command that passes its guard leaves the state AppState.Execute states; a success is recorded |
| Commands.CommandQueue.History | imagura/commands.py:451-454 | the history, at most max_history long |
| Commands.CommandQueue.ClearHistory | imagura/commands.py:456-458 | empty history |
| InputHandling.GetContext | imagura/input_handler.py:96-110 | ANIMATING whenever open or toggle-zoom runs; else GALLERY_HOVER, ZOOMED, NORMAL in that order |
| InputHandling.GalleryHoverInBottomStrip | imagura/input_handler.py:96-110 | gallery hover means the mouse is in the bottom 12% of the screen |
| InputHandling.IsOnEdge | imagura/input_handler.py:129-135 | left at x <= 10% of the width, else right at x >= 90%, else none |
| InputHandling.IsOverImage | imagura/input_handler.py:137-147 | true iff there is an image and the mouse is inside its scaled rectangle |
| InputHandling.ScreenCentreOverCentredImage | imagura/input_handler.py:137-147 | the screen centre is over any centred image |
| InputHandling.CloseButtonExtent | imagura/input_handler.py:120-127 | the centre is on the button, and every hit lies inside its bounding box |
| InputHandling.IsOnCloseButton | imagura/input_handler.py:120-127 | the squared distance to the button centre is at most the squared radius; CloseButtonExtent states its extent |
| InputHandling.FirstToolbarHit | imagura/input_handler.py:164-170 | the first button from i whose circle holds the mouse, or -1 when none does |
| InputHandling.ToolbarButtonAt | imagura/input_handler.py:153-170 | -1 when alpha < 0.5; else -1 when no button is hit, or a hit index in range |
| InputHandling.ToolbarButtonsDisjoint | imagura/input_handler.py:153-170 | no point lies on two buttons |
| InputHandling.ToolbarHitUnique | imagura/input_handler.py:153-170 | when the mouse is on button j and the toolbar is shown, j is returned |
| InputHandling.GetToolbarButtonAt | imagura/input_handler.py:153-170 | the loop computes ToolbarButtonAt |
| InputHandling.MenuOrigin | imagura/input_handler.py:183-186 | the clamped origin is at least 5 on both axes, kept where it fits, and inside the screen when the menu fits |
| InputHandling.IsInContextMenu | imagura/input_handler.py:172-188 | true iff the menu is visible and the mouse is inside the clamped box |
| InputHandling.FirstMenuRow | imagura/input_handler.py:209-215 | the row under y, or -1 outside the rows |
| InputHandling.MenuItemAt | imagura/input_handler.py:190-215 | -1 when hidden or outside the rows; else the row index in [0, n) under the mouse |
| InputHandling.MenuItemInsideMenu | imagura/input_handler.py:172-215 | a hit item lies inside the menu |
| InputHandling.GetContextMenuItemAt | imagura/input_handler.py:190-215 | the loop computes MenuItemAt |
| InputHandling.MenuRowAt | imagura/input_handler.py:209-215 | the row loop finds FirstMenuRow from row 0: the first row holding the mouse, or -1 |
| InputHandling.InputHandler.constructor | imagura/input_handler.py:62-80 | last click at time 0 and position (0, 0) |
| InputHandling.InputHandler.CheckDoubleClick | imagura/input_handler.py:217-232 | true iff within 300 ms and 10 px on both axes of the last click; then the time resets, else time and position are recorded |
| ViewerMath.LegacyClampAxis | imagura2.py:490-501 | one axis: centred when the image fits, else covering the screen, and kept when it already covers |
| ViewerMath.LegacyClampPan | imagura2.py:490-501 | keeps the scale; a fitting axis is centred and a larger one covers the screen |
| ViewerMath.LegacyClampPanIdempotent | imagura2.py:490-501 | clamping twice is clamping once |
| ViewerMath.LegacyClampWithinModernClamp | imagura2.py:490-501 | the modern clamp keeps every legacy result, and the two agree on axes where the image is larger |
| ViewerMath.LegacyAxisWithinClampAxis | imagura2.py:493-500 | one axis of the above: the modern axis clamp keeps the legacy offset, and equals it when the image is larger than the screen |
| ViewerMath.EaseLogInOut | imagura2.py:285-293 | 0 for t <= 0, 1 for t >= 1, within [0, 1], below 0.5 on the first half and above on the second |
| ViewerMath.EaseLogInOutSymmetric | imagura2.py:285-293 | point-symmetric about (0.5, 0.5) |
| ViewerMath.EaseLogInOutMonotone | imagura2.py:285-293 | never decreases |
| ViewerMath.NextZoomState | imagura2.py:846 | 0 to 1, 1 to 2, 2 to 0; other values have no successor |
| ViewerMath.ZoomCycleReturns | imagura2.py:846 | three toggles return to the start |
| ViewerMath.ZoomTarget | imagura2.py:847-852 | 1:1-centred, last fit, or last user view falling back to last fit |
| ViewerMath.ZoomProgress | imagura2.py:857-864 | the animation's progress is capped at 1 and reaches 1 exactly when 150 ms have passed since the start |
| ViewerMath.ZoomCycleFrameView | imagura2.py:864-871 | a frame's view starts at the clamped start view, ends at the clamped target, and keeps its scale between the two |
| ViewerMath.BgOpacityStep | imagura2.py:886 | a step is a ninth of full opacity: 150 ms at 60 frames per second |
| ViewerMath.BgOpacityTick | imagura2.py:883-887 | no move within 0.001; else a step of at most one toward the target that never overshoots, and the distance shrinks by exactly one step or to zero |
| ViewerMath.BgFadeSettles | imagura2.py:883-887 | a fade within k steps of its target settles within k frames |
| ViewerMath.BgFadeStays | imagura2.py:883-887 | once within 0.001 the opacity no longer moves |
| Viewer.DeferUnload | imagura2.py:402-404 | appends the texture iff it exists with a non-zero id; else the list is unchanged |
| Viewer.DeferUnloadKeepsNonNull | imagura2.py:402-404 | the pending list never holds a null texture |
| Viewer.Reverse | imagura2.py:407-413 | popping from the end visits every entry once |
| Viewer.ReverseSameElements | imagura2.py:407-413 | exactly the pending textures are unloaded |
| Viewer.ReverseIndex | imagura2.py:407-413 | the i-th unloaded texture is the i-th from the end |
| Viewer.ScheduleFrom | imagura2.py:448-452 | the loop over the window only appends to the queue |
| Viewer.ScheduleFromAdds | imagura2.py:448-452 | each appended path is in the window, not cached and not already queued |
| Viewer.ScheduleFromNoDup | imagura2.py:448-452 | a queue without duplicates stays without them |
| Viewer.ScheduleFromCovers | imagura2.py:448-452 | afterwards every uncached window path is queued |
| Viewer.WindowLo | imagura2.py:446 | the window starts at max(0, i - 40): at least both, and equal to one of them |
| Viewer.WindowHi | imagura2.py:447 | the window ends at min(n - 1, i + 40): at most both, and equal to one of them |
| Viewer.Schedule | imagura2.py:443-452 | schedule_thumbs only appends to the queue |
| Viewer.ScheduleEmptyWindow | imagura2.py:443-447 | with no images or an empty window the queue is left as it was |
| Viewer.ScheduleAddsOnlyNew | imagura2.py:443-452 | scheduling adds only window paths that were neither cached nor already queued |
| Viewer.ScheduleCovers | imagura2.py:443-452 | afterwards every path of the 81-index window is cached or queued |
| Viewer.ScheduleNoDup | imagura2.py:443-452 | a queue without duplicates stays without them |
| Viewer.ScheduleFromSettled | imagura2.py:448-452 | a window already covered adds nothing |
| Viewer.ScheduleIdempotent | imagura2.py:443-452 | scheduling twice around the same index is scheduling once |
| Viewer.BuildPlan | imagura2.py:458-465 | at most the budget of 2 thumbnails is built |
| Viewer.BuildPlanSpec | imagura2.py:458-465 | the queue left is a suffix; built paths were queued, uncached and distinct; cached paths cost no budget, and the queue is empty when the budget was not used up |
| Viewer.CacheInsert | imagura2.py:462-463 | inserting a new key keeps insertion order and key set in step |
| Viewer.CacheDropOldest | imagura2.py:466-467 | dropping the oldest keeps insertion order and key set in step |
| Viewer.ThumbTexture | imagura2.py:468-469 | a thumbnail's texture, if it has one |
| Viewer.EvictionUnloads | imagura2.py:466-469 | each evicted entry adds at most one texture to the pending list |
| Viewer.Newest | imagura2.py:466-467 | eviction keeps the newest entries, at most the limit, and everything when within it |
| Viewer.NeighborCache | imagura2.py:796-805 | curr is the new image and prev and next its neighbours when they exist and loaded, each with its decoded size; every slot holds a new texture, none shared with another slot or made before |
| Viewer.ReleaseSlot | imagura2.py:793-794 | as written each slot is deferred for unloading; a retained texture is not |
| Viewer.SlotUnloads | imagura2.py:793-794 | up to three textures are appended and the old list kept |
| Viewer.SaveLeavingView | imagura2.py:789-791 | the view is saved under the old path iff there is a current image and the index is in range |
| Viewer.FitView | imagura2.py:483-487 | the default view without an image, else the fit view at 0.95 |
| Viewer.ThumbTargetHeight | imagura2.py:456 | `int(screen_h × 0.12 × 0.8)`: non-negative, within 1 below screen_h × 0.096, and no taller than the gallery strip |
| Viewer.SwitchUnloadsTwiceAsWritten | imagura2.py:820-834 | as written, an animated switch queues the snapshot texture at once and again when the slide ends |
| Viewer.SwitchUnloadsOnceCorrected | imagura2.py:820-834 | retaining the snapshot queues it exactly once, at the end of the slide, and releases the other slots as before |
| Viewer.ReleaseSlotAdds | imagura2.py:793-794 | one release adds nothing, or the slot's texture when it is not the retained one |
| Viewer.SwitchUnloadsAppend | imagura2.py:793-794 | a corrected switch only appends: the replaced snapshot and the slots other than the one kept |
| Viewer.SlotUnloadsBelow | imagura2.py:793-794 | releasing a window queues only textures of that window, all older than any loaded afterwards |
| Viewer.SwitchQueuesNothingLive | imagura2.py:776-834 | corrected: a switch queues nothing the new window holds and nothing the slide still draws |
| Viewer.OverlappingSlidesUnloadEachSnapshotOnce | imagura2.py:820-834 | corrected: when a second animated switch starts while the first slide runs (the nav buttons at 695 and 712 and the gallery click at 763 do not wait for the slide), each snapshot is queued exactly once |
| Viewer.RenderFramesEndSlideOrNot | imagura2.py:554-583 | once the open animation is over, any run of frames leaves the slide as it was or ends it |
| Viewer.SlideEndsWithinZoomCycle | imagura2.py:856-876 | a slide begun no later than a zoom cycle ends within the cycle's frames, and its snapshot is queued once |
| Viewer.ZoomCycleViewAsWritten | imagura2.py:858-871 | the final view of the cycle as written: it fails exactly when there is no current texture, and is otherwise the clamped target |
| Viewer.ZoomCycleFailsAfterFailedLoad | imagura2.py:796-871 | after a switch to an image whose texture did not load, the cycle as written fails |
| Viewer.ViewerState.constructor | imagura2.py:233-273 | the given screen and images, index 0, empty caches and queues, default views |
| Viewer.ViewerState.UnloadTextureDeferred | imagura2.py:402-404 | the pending list becomes DeferUnload of the old one |
| Viewer.ViewerState.ProcessDeferredUnloads | imagura2.py:407-413 | unloads the pending textures last first and leaves the list empty |
| Viewer.ViewerState.ScheduleThumbs | imagura2.py:443-452 | the loop computes Schedule around the index |
| Viewer.ViewerState.ScheduleRange | imagura2.py:449-451 | the loop over the indices lo..hi leaves the queue ScheduleFrom computes |
| Viewer.ViewerState.ProcessThumbQueue | imagura2.py:455-469 | builds the BuildPlan paths; the cache keeps the newest 400 in insertion order with rebuilt entries; each evicted texture is deferred; the cache stays consistent |
| Viewer.ViewerState.BuildThumbs | imagura2.py:458-465 | the build loop computes BuildPlan and appends the built paths to the insertion order |
| Viewer.ViewerState.AddThumb | imagura2.py:463 | a thumbnail not yet cached joins the dictionary as its newest entry: the entry is added and its path appended to the insertion order, keeping the two consistent |
| Viewer.ViewerState.EvictOldest | imagura2.py:466-469 | the eviction loop keeps the newest 400 and defers each evicted texture |
| Viewer.ViewerState.DropOldest | imagura2.py:467-469 | the oldest entry leaves both the order and the cache, the cache stays consistent, and its texture, if any, is deferred |
| Viewer.ViewerState.PreloadNeighbors | imagura2.py:780-817 | empty list: empty cache, index 0, nothing else; otherwise clamped index, old view saved, old slots deferred, new neighbours loaded as new textures from the next three handles, thumbnails scheduled, view restored from memory or set to fit and not zoomed |
| Viewer.ViewerState.PreloadAt | imagura2.py:787-817 | at an index inside a non-empty list: that index and its neighbour window become current, the left view is saved, the old slots are deferred, thumbnails are scheduled and the view restored or fit |
| Viewer.ViewerState.EnterIndex | imagura2.py:789-805 | the left view is remembered, the three old slots are deferred (keeping `retained`), and the window around the new index is loaded as new textures from the next three handles and made current |
| Viewer.ViewerState.RememberView | imagura2.py:789-791 | the view memory becomes SaveLeavingView |
| Viewer.ViewerState.ReleaseSlots | imagura2.py:793-794 | the pending list becomes SlotUnloads of the cache |
| Viewer.ViewerState.RestoreView | imagura2.py:808-817 | fit view recomputed; the saved view and its zoom flag when one exists, else fit and not zoomed |
| Viewer.ViewerState.SwitchToAsWritten | imagura2.py:776-834 | no-op on the same index; else panning off, the slide state is snapshotted (curr, now, direction ±1) if and only if animate is set and curr exists and is otherwise unchanged; with no images the cache empties and the index is 0; otherwise the index is clamped, the leaving view is remembered, every old slot is released, the three slots are loaded as new textures, the thumbnails are scheduled, and the view is the remembered or the fit view; nothing queued is in the new window |
| Viewer.ViewerState.SwitchTo | imagura2.py:776-834 | as SwitchToAsWritten in every clause, except that the snapshot texture is kept out of the slot release and a snapshot the new slide replaces is queued; nothing queued is in the new window or is the slide's snapshot |
| Viewer.ViewerState.SwitchAway | imagura2.py:820-834 | the corrected switch to another index: the slide restarts as in SwitchTo and the window moves as in SwitchTo, with the queue gaining the replaced snapshot and the old window minus the new snapshot |
| Viewer.ViewerState.RestartSlide | imagura2.py:820-832 | as BeginSwitch, after queueing the snapshot of a slide the new one replaces; nothing queued is the new snapshot |
| Viewer.ViewerState.BeginSwitch | imagura2.py:822-832 | panning stops; an animated switch from a loaded image snapshots it with the time and direction ±1 and returns its texture; otherwise the animation fields are untouched |
| Viewer.ViewerState.SettleSwitchAnimation | imagura2.py:554-583 | without a current image nothing changes; while the open animation runs it ends once 200 ms have passed and the slide state is untouched; otherwise, once the slide has run its 150 ms, the flag clears and the snapshot is deferred, and before that nothing changes; the snapshot queued is not in the window |
| Viewer.ViewerState.ApplyBgOpacityAnim | imagura2.py:883-887 | the opacity becomes BgOpacityTick of the old one |
| Viewer.ViewerState.ViewFor1to1Centered | imagura2.py:839-842 | the current view without an image, else scale 1 centred |
| Viewer.ViewerState.CycleZoomState | imagura2.py:845-878 | without a current image nothing changes (corrected); otherwise the next zoom state, the view becomes the clamped target of that state, zoomed iff above the fit scale, and every frame of the loop settles the open animation and the slide as `render_image` does |

## Left out

- Rendering, window management, raylib calls and logging: they are draw calls, OS I/O and stdout writes.
- Texture creation and destruction are oracles. `load_texture` is a function parameter and `build_thumb_for` another; `rl.UnloadTexture` is reported as the returned sequence of `ProcessDeferredUnloads`.
- File-system reads: `probe_image_dimensions` takes the header bytes as a parameter, and `is_heavy_image` takes the size and the probed dimensions.
- The threaded decode pool and the UI event queue are not part of this model; only `LoadTask`'s ordering is.
- IEEE floating point: all view and easing arithmetic is over exact reals.
- Viewer.ViewerState.CycleZoomState: each frame reads the clock once, for both the loop and `render_image`; the early exit when the window closes is not modelled, nor the gallery drawn in each frame (`render_gallery` clamps its scroll and can start a switch on a thumbnail click).
- Viewer.ViewerState.SwitchTo: thumbnail textures come from the `build` oracle, and the model does not relate their handles to the counter, so "nothing queued is in the new window" is stated for what the switch queues, not for older entries of the list.
- ViewerMath.LegacyClampPan: returns a new view; the source mutates its argument, but every caller passes a fresh view and reassigns the result.
- Viewer.ViewerState.PreloadNeighbors: the restored view is a copy; in the source it shares the stored object with `view_memory`. No later code mutates it in place, so nothing observable depends on the sharing.
- Animations.AnimationController.Update: callbacks are opaque tokens, and their own effects are not modelled. A callback that calls `start` adds an animation that the source's `self._animations = still_running` (imagura/animation.py:227) then discards; the model returns the callbacks to invoke and does not run them.
- Exceptions raised by callbacks, the loader or `rl.UnloadTexture`: the source catches and logs them and carries on, so the model has no failure path there.
- MathUtils.DistanceSquared: states only the "coinciding points give zero" direction; the converse needs positivity of a sum of squares, which the model does not prove.
- `update_gallery_visibility_and_slide`, `detect_double_click` and the other helpers of `imagura2.py` not listed in the model: the gallery slide is frame animation, and the double click duplicates `InputHandling.InputHandler.CheckDoubleClick`.
- `is_in_center_zone`, `is_in_toolbar_zone`, `poll` and `poll_mouse` of the input handler: device polling and zone checks that no modelled command uses.
- Commands whose `execute` calls back into the application (navigation, zoom, rotate, flip, copy, toolbar click, close): only their guards are modelled. Their effects are callbacks the command module cannot see.
- `is_supported_image` follows `ntpath.splitext`; other platforms' path rules are not modelled.
- `build_thumb_for`'s scaling and image resizing is inside the thumbnail oracle.

## Findings

| source | as written | input that shows it | evidently intended | confidence | as-written member | corrected member |
|---|---|---|---|---|---|---|
| imagura2.py:820-834 | `switch_to` snapshots `cache.curr` for the slide, then `preload_neighbors` defers the same texture for unloading (793-794), and the slide's end at `render_image` (577-582) defers it again | any animated switch from an image with a loaded texture (`animate` true, `cache.curr` present) | keep the snapshot texture alive while the slide draws it and unload it once: when the slide ends, or when a new slide replaces it (the nav buttons at 695 and 712 and the gallery click at 763 switch without waiting for the slide) | medium, not executed | Viewer.SwitchUnloadsTwiceAsWritten | Viewer.SwitchUnloadsOnceCorrected |
| imagura/image_utils.py:41-59 | `_probe_jpeg` treats the SOI marker FF D8 at offset 0 as a length-bearing segment; its "length" is read from the next marker bytes (at least 0xFF00), so the scan jumps past every header shorter than 65292 bytes | any standard JPEG: FF D8, optional segments, then an SOF0 frame header | step over standalone markers (SOI, RSTn, TEM) by two bytes and read the frame header | high, not executed | ImageUtils.JpegScanMissesFrameAfterSoi | ImageUtils.JpegScanFixedFindsFrame |
| imagura2.py:845-878 | `cycle_zoom_state` is called from the key and mouse handlers (1024-1029) without checking `cache.curr`, and `clamp_pan` (490-501) reads the width of the current texture, so with no current texture it raises an attribute error that nothing catches | a switch to an image whose `load_texture` raised, so that `_safe` (796-803) left `cache.curr` empty, followed by F or a double click | do nothing without a current image, as the pan and wheel handlers do (1009, 1032) | low, not executed | Viewer.ZoomCycleFailsAfterFailedLoad | Viewer.ViewerState.CycleZoomState |
