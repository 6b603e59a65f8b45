# Depth viewer and Quilt capture, modelled in Dafny

This project models the bookkeeping of ComfyUI-Depth-Visualization-Advanced,
a ComfyUI node that shows an image displaced by its depth map in a Three.js
view and captures a "Quilt": a row of frames rendered from evenly spaced
camera headings. The system has three parts, and the model follows them:

- **The renderer frame** (`web/js/threeVisualizer.js`; `three_visualizer.dfy`,
  with closed-form rules in `renderer_logic.dfy`).
  - **State.** The module-level variables form the class
    `ThreeVisualizer.Visualizer`. They are grouped into the live parameters
    (`LiveParams`), the Quilt session (`QuiltSession`) and the scene side
    (`Stage`).
  - **Operations.** Each operation is a method that updates those fields in
    place: the message listener, `resetView`, `main`, `frameUpdate`,
    `startQuilts`, `stopQuilts`, `updateQuilts` and `takeQuiltsScreenshot`.
  - **Specifications.** Every such method promises the result of a pure step
    function over `RendererState` (`Handle`, `Load`, `Frame`, `Tick`,
    `Start`, `Stop`, `Screenshot`, `ResetHome`). The lemmas are proved about
    those functions.
  - **Invariant.** The invariant `Ok` is kept by every step. It says:
    - the controls are disabled exactly while a session runs;
    - a running session holds one capture per finished leg;
    - the mesh's uniforms and z always match the stored parameters;
    - the camera's heading lies where `atan2` puts it.
- **The host panel** (`web/visualization.js`; `visualization.dfy`).
  - The node (`Visualization.Node`) has the `quiltsComplete` listener and
    `onResize`.
  - The control panel (`Visualization.Visualizer`) has the slider callbacks
    and their reset buttons, `updateVisual` and the scale selection.
  - The pure rules: the screenshot size `512·2^v`, the slider default, the
    scale tiers, and the size clamp.
- **The backend node** (`depthviewer.py`; `depthviewer.dfy`).
  - `DepthViewer.DepthViewerNode` models `run` and `display`: it builds the
    output file names and records, and advances the counter.
  - The " [type]" tagging of uploaded frame names is rewritten in place in the
    frame list. The base-name strip of `load_image_to_tensor` undoes it.
  - The loaded frames are collected and stacked into the node's one output,
    with a black 512×512 default when none loads.

`protocol.dfy` holds the values that cross between the parts: image
descriptors, the renderer element's attributes and the host-to-renderer
messages. `config.dfy` copies the constants of `web/config.js`.
`strings.dfy` holds substring search and decimal printing, with their round
trips.

Some lemmas connect the parts:

- `Visualization.RoutedToOwnNode`: a Quilt batch reaches exactly the node
  whose id the renderer's URL carries.
- `Visualization.UpdateSyncsRenderer`: the panel's `update` message leaves
  the renderer holding the panel's values.
- `ThreeVisualizer.StartUp`: shows how the frame loop starts.
- `DepthViewer.OutputFileRequested`: the backend's output names are ones the
  renderer loads.

## Behaviour kept as the code has it

In these places the code does something other than what its design intends.
The model follows the code:

- **A one-frame Quilt** (`currentQuiltsNum` = 1, which the slider allows)
  divides by zero. The camera's x and z become NaN, modelled as
  `Camera.Undefined`. The one capture is taken from there and posted at once
  (`SingleFrameSession`). No capture is made at +range/2.
- **The angle sequence is recomputed on every tick** from the live frame
  count and angle range. A change during a session redirects the remaining
  legs.
- **Frame 0 waits a full leg.** It is captured only after a full 1000 ms leg
  whose target is the heading the session started at.
- **The canvas size after a capture is not the original.** The renderer is
  set back to `renderer.domElement.width`, which is the drawing-buffer size
  (CSS size × `devicePixelRatio`), read as a CSS size. The size is restored
  only at a pixel ratio of 1; at 2 each capture doubles it
  (`ScreenshotRestoredSize`).
- **The frame loop starts only from `main`'s trailing `frameUpdate`.**
  - The first `update` with both images runs `main`.
  - Its `frameUpdate` sees attributes different from the initial "" and runs
    `main` a second time.
  - From then on the loop renders (`StartUp`).
- **A failed `JSON.parse` stops the loop.** If the attributes ever read
  "undefined", the parse throws inside `frameUpdate` and the loop stops
  (`FrameOutcome.Stalled`).
- **`scene.clear()` comes before the load check.** So a `main` without both
  textures leaves the old mesh out of the scene. Its uniforms are still kept
  current.
- **The renderer starts with 0 for depth of field and focus.** The panel's
  defaults are 0.5 and 0.95, and the renderer receives them only with the
  first `update` (`InitialValuesAgree`).
- **The host's numeric-id check.** It compares `String(id)` with the node id
  after a truthiness test, so a numeric id 0 is turned away while the string
  "0" is accepted (`NumericIds`).

## Model

Step functions and predicates that only compute have no row of their own.
The lemmas about them state their properties:

- `ThreeVisualizer.Handle` (web/js/threeVisualizer.js:29-83):
  `HandleKeepsOk`, `UpdateMessage`, `ZOffsetMessage`, `StoreMessages`,
  `ToggleMessage` and `Visualization.ResetViewSyncsRenderer`.
  `SetStrengths` and `Toggle` are its `update` and `toggleQuilts` cases.
- `ThreeVisualizer.Tick`: `TickKeepsOk`, `TickIdle`, `TickMidLeg` and
  `TickCompletesLeg`.
- `ThreeVisualizer.Load` and `Rebuilt`: `LoadKeepsOk` and `LoadOutcomes`.
- `ThreeVisualizer.Frame`: `FrameKeepsOk` and `FrameOutcomes`.
- `ThreeVisualizer.Ok`: `Initial` and the lemmas named `…KeepsOk`.
- `Visualization.Accepts`: `RoutedToOwnNode` and `NumericIds`.
- `Visualization.Kept` and `Uploaded`: `UploadedBounds`, `UploadedConcat`,
  `UploadedAll` and `UploadedPrefix`.
- `Visualization.Clamped`: `ClampedSize`.
- `Visualization.SliderDefault`: `ConfiguredDefaults` and
  `UnconfiguredDefault`.
- `RendererLogic.IsSupportedImage`: `ExtensionOfDotted` and `UndottedNames`.
- `DepthViewer.ReplaceAll` and `OutputFile`: `ReplaceAllAbsent`,
  `OutputFileInjective`, `ReferenceNotDepth` and `OutputFileRequested`.
- `DepthViewer.TaggedName`: `TaggedNameChanges`, `TaggedIdempotent` and
  `StripUndoesTag`.
- `DepthViewer.Fitted`: `StackedSameShape` and `StackedShapes`.

| member | source | states |
|---|---|---|
| Strings.FindFrom | depthviewer.py:123 | the result is the first index at or after `from` where the needle occurs, and `None` means it occurs nowhere from there |
| Strings.SplitFirst | depthviewer.py:28 | `s.split(sep)[0]`: a prefix of `s` that is all of `s` when `sep` does not occur, and otherwise is followed by the first `sep` |
| Strings.ContainsSuffix | depthviewer.py:123 | a string with `sub` appended contains `sub` |
| Strings.LastIndexOf | web/js/threeVisualizer.js:297 | `lastIndexOf` of a character: -1 or an index holding it, with no occurrence after it |
| Strings.DigitChar | depthviewer.py:93 | the character of a decimal digit is a digit with that value |
| Strings.NatToString | depthviewer.py:91 | `str(n)`: at least one digit, and no leading zero for a positive number |
| Strings.NatToStringRoundTrip | depthviewer.py:91 | reading the decimal spelling back gives the number |
| Strings.NatToStringInjective | depthviewer.py:91 | distinct numbers print differently |
| Strings.IntToString | web/visualization.js:73 | `String(i)` of an integer: digits, with a leading '-' for a negative number |
| Strings.IntToStringInjective | web/visualization.js:73 | distinct integers print differently, so comparing printed ids compares ids |
| Strings.Zeros | depthviewer.py:93 | `k` zero digits |
| Strings.ZeroPad5 | depthviewer.py:93 | `{:05}`: all digits, with length max(5, number of digits) |
| Strings.LeadingZerosValue | depthviewer.py:93 | leading zeros do not change a decimal value |
| Strings.ZerosValue | depthviewer.py:93 | a run of zeros has the value 0 |
| Strings.ZeroPad5RoundTrip | depthviewer.py:93 | the padded counter reads back as the counter |
| RendererLogic.Wrap | web/js/threeVisualizer.js:578 | the heading `atan2` reads back lies in (-180, 180] and equals the set heading when that is already in range |
| RendererLogic.WrapTurn | web/js/threeVisualizer.js:578 | a whole turn does not change the heading read back |
| RendererLogic.Orbit | web/js/threeVisualizer.js:583-589 | `position.set(sin·r, y, cos·r)` keeps the radius and height and sets the wrapped heading; a NaN camera stays NaN |
| RendererLogic.OnViewAxis | web/js/threeVisualizer.js:256 | `position.set(0, 0, z)` is on the view axis at distance abs(z), heading 0 or 180 |
| RendererLogic.HomeDistance | web/js/threeVisualizer.js:247-254 | the home distance is 5·c + 1.25·d + zOffset |
| RendererLogic.HomeDistanceMonotone | web/js/threeVisualizer.js:247-254 | the home distance strictly increases with the fov compensation and with the depth strength |
| RendererLogic.Progress | web/js/threeVisualizer.js:561-563 | `min(elapsed/1000, 1)`: at most 1, not negative for elapsed ≥ 0, exactly 1 iff elapsed ≥ 1000, else elapsed/1000 |
| RendererLogic.LegStep | web/js/threeVisualizer.js:580 | progress 1 lands on the target and progress 0 stays put |
| RendererLogic.LegStepBetween | web/js/threeVisualizer.js:580 | for progress in [0, 1] the heading stays between the current one and the target |
| RendererLogic.AngleStep | web/js/threeVisualizer.js:568-571 | (n-1) steps span exactly -range, and the step is negative for a positive range and n > 1 |
| RendererLogic.TargetHeading | web/js/threeVisualizer.js:567-572 | the target is undefined (not a finite number) exactly when n = 1; its values are pinned by `TargetHeadingFirst` and `TargetHeadingStep` |
| RendererLogic.TargetHeadingFirst | web/js/threeVisualizer.js:519-525 | frame 0 aims at +range/2, the heading the session starts at |
| RendererLogic.TargetHeadingStep | web/js/threeVisualizer.js:571-572 | consecutive frames are exactly one step apart |
| RendererLogic.TargetHeadingLast | web/js/threeVisualizer.js:568-572 | frame n-1 aims at -range/2 |
| RendererLogic.TargetHeadingDecreasing | web/js/threeVisualizer.js:567-572 | for a positive range and n > 1 the targets strictly decrease |
| RendererLogic.DefaultSessionHeadings | web/js/threeVisualizer.js:15-16 | the default 4 frames over 14° aim at 7, 7/3, -7/3 and -7 |
| RendererLogic.Extension | web/js/threeVisualizer.js:297 | the extension is the dot-free tail after the last '.', and the whole name when there is no dot |
| RendererLogic.ExtensionOfDotted | web/js/threeVisualizer.js:297-299 | `stem.ext` has extension `ext` and is loaded iff `ext` is png, jpg or jpeg (case-sensitive) |
| RendererLogic.UndottedNames | web/js/threeVisualizer.js:297-299 | a dot-free name is loaded iff it is exactly png, jpg or jpeg |
| ThreeVisualizer.Initial | web/js/threeVisualizer.js:5-26 | the state after the top level is idle with the controls enabled and `needUpdate` false, and keeps the invariant |
| ThreeVisualizer.ResetHome | web/js/threeVisualizer.js:247-264 | the camera goes onto the view axis at 5·c + 1.25·d + zOffset; the parameters, the session and the rest of the scene side are unchanged |
| ThreeVisualizer.Start | web/js/threeVisualizer.js:500-534 | a session starts now at frame 0 with progress 0, no captures, target +range/2 and the controls off; the camera is turned to +range/2 at its radius and height; the parameters and the rest of the scene side are unchanged |
| ThreeVisualizer.Stop | web/js/threeVisualizer.js:536-556 | it posts iff there are captures, exactly those and the iframe id; the session ends with the controls on and no captures; nothing else changes |
| ThreeVisualizer.Screenshot | web/js/threeVisualizer.js:612-649 | exactly one capture (`ShotOf`) is appended and nothing else of the session changes; the camera, mesh and scene are as before; the size becomes floor(size·pixelRatio) |
| ThreeVisualizer.LegCamera | web/js/threeVisualizer.js:575-590 | one tick keeps the camera's height and horizontal radius and sets the wrapped heading `cur + (target − cur)·progress`; a NaN target leaves the camera undefined |
| ThreeVisualizer.NewMesh | web/js/threeVisualizer.js:321-436 | the new mesh's uniforms and z match the parameters, and the plane is 10 wide |
| ThreeVisualizer.Resized | web/js/threeVisualizer.js:136-150 | the canvas becomes the smaller window side and nothing else changes |
| ThreeVisualizer.HandleKeepsOk | web/js/threeVisualizer.js:29-83 | every message keeps the invariant |
| ThreeVisualizer.UpdateMessage | web/js/threeVisualizer.js:32-56 | `update` stores exactly the strengths it carries and writes them into the mesh's uniforms and z, keeping its textures and plane; the camera, scene, size, last attributes, `needUpdate` and the session stay; `main` is called iff it carries both images |
| ThreeVisualizer.ZOffsetMessage | web/js/threeVisualizer.js:71-77 | `updateZOffset` v sets the offset and the mesh z to v − 2.5·d, and changes nothing else |
| ThreeVisualizer.StoreMessages | web/js/threeVisualizer.js:30-31 | `init`, `updateQuiltsNum`, `updateQuiltsAngleRange`, `updateScreenshotSize` and `updateCameraFOV` each store their one value and change nothing else; an unknown type changes nothing; none posts |
| ThreeVisualizer.ToggleMessage | web/js/threeVisualizer.js:65-70 | `toggleQuilts` starts an idle renderer; a running session stops and posts its captures iff there are any |
| ThreeVisualizer.TickKeepsOk | web/js/threeVisualizer.js:558-609 | a tick keeps the invariant |
| ThreeVisualizer.TickIdle | web/js/threeVisualizer.js:558-559 | outside a session a tick changes nothing |
| ThreeVisualizer.TickMidLeg | web/js/threeVisualizer.js:561-592 | within a leg a tick sets the progress to `Progress(elapsed)` < 1 and moves the camera to `LegCamera` of the frame's target at that progress; nothing else changes, and nothing is captured or posted |
| ThreeVisualizer.TickCompletesLeg | web/js/threeVisualizer.js:593-607 | a full leg lands on the target, appends exactly one capture from there, and starts the next leg or ends and posts every capture in order |
| ThreeVisualizer.CaptureHidesHelpers | web/js/threeVisualizer.js:618-632 | a capture draws exactly the scene minus the centre point and axes |
| ThreeVisualizer.ScreenshotRestoredSize | web/js/threeVisualizer.js:613-639 | the size is restored at pixel ratio 1 and doubled at ratio 2 |
| ThreeVisualizer.LoadKeepsOk | web/js/threeVisualizer.js:266-452 | `main` keeps the invariant |
| ThreeVisualizer.LoadOutcomes | web/js/threeVisualizer.js:295-441 | a failed requested load aborts with the base scene; otherwise the mesh is rebuilt iff both images were requested, the camera is reset iff that happens while `needUpdate` is false, and `needUpdate` is set |
| ThreeVisualizer.FrameKeepsOk | web/js/threeVisualizer.js:211-234 | a frame keeps the invariant |
| ThreeVisualizer.FrameOutcomes | web/js/threeVisualizer.js:211-234 | new attribute texts are recorded, the scene is cleared, and `main` is called iff both parse; the same texts render when `needUpdate` is set and change nothing otherwise |
| ThreeVisualizer.StartUp | web/js/threeVisualizer.js:207-234 | the first `update` with both images builds the mesh and sends the camera home; the second `main` keeps it there; the next frame renders with no change |
| ThreeVisualizer.DefaultSession | web/js/threeVisualizer.js:500-609 | 4 frames over 14° ticked each second post captures at 7, 7/3, -7/3 and -7 in order, and return the controls |
| ThreeVisualizer.SingleFrameSession | web/js/threeVisualizer.js:567-572 | with one frame the one capture is taken from an undefined (NaN) camera and posted at once |
| ThreeVisualizer.StopPartway | web/js/threeVisualizer.js:536-556 | toggling after 2 of 4 frames posts exactly 2 captures and leaves the renderer idle with the controls on |
| ThreeVisualizer.Visualizer.constructor | web/js/threeVisualizer.js:5-26 | the fields start as `Initial` for the smaller window side and keep the invariant |
| ThreeVisualizer.Visualizer.OnWindowResize | web/js/threeVisualizer.js:200-202 | the new state is `Resized` of the old, and the invariant is kept |
| ThreeVisualizer.Visualizer.ResetView | web/js/threeVisualizer.js:247-264 | the new state is `ResetHome` of the old |
| ThreeVisualizer.Visualizer.StartQuilts | web/js/threeVisualizer.js:500-534 | the new state is `Start` of the old |
| ThreeVisualizer.Visualizer.StopQuilts | web/js/threeVisualizer.js:536-556 | the new state and the posted message are `Stop` of the old state |
| ThreeVisualizer.Visualizer.TakeQuiltsScreenshot | web/js/threeVisualizer.js:612-649 | the new state is `Screenshot` of the old |
| ThreeVisualizer.Visualizer.UpdateQuilts | web/js/threeVisualizer.js:558-609 | the new state and the posted message are `Tick` of the old state |
| ThreeVisualizer.Visualizer.ApplyStrengths | web/js/threeVisualizer.js:33-53 | the new state is `SetStrengths` of the old |
| ThreeVisualizer.Visualizer.ToggleQuiltsMode | web/js/threeVisualizer.js:65-70 | the new state and the effect are `Toggle` of the old state |
| ThreeVisualizer.Visualizer.ApplyZOffset | web/js/threeVisualizer.js:71-77 | the new state is `SetZOffset` of the old |
| ThreeVisualizer.Visualizer.OnMessage | web/js/threeVisualizer.js:29-83 | the new state and the effect are `Handle` of the old state, and the invariant is kept |
| ThreeVisualizer.Visualizer.RebuildMesh | web/js/threeVisualizer.js:321-441 | the new state is `Rebuilt` of the old |
| ThreeVisualizer.Visualizer.LoadScene | web/js/threeVisualizer.js:266-452 | the new state and the completion flag are `Load` of the old state, and the invariant is kept |
| ThreeVisualizer.Visualizer.FrameUpdate | web/js/threeVisualizer.js:211-234 | the new state and the outcome are `Frame` of the old state, and the invariant is kept |
| Visualization.UploadedBounds | web/visualization.js:88-116 | at most one frame per entry, and every collected frame has a name |
| Visualization.UploadedConcat | web/visualization.js:88-116 | the frames of a concatenation are the frames of each part in order |
| Visualization.UploadedAll | web/visualization.js:88-116 | when every entry is a non-empty string that uploads, there is one frame per entry, in input order |
| Visualization.UploadedPrefix | web/visualization.js:88-112 | one more entry adds its frame at the end |
| Visualization.RoutedToOwnNode | web/visualization.js:60-81 | a batch with id `nodeId` is accepted by that node and by no other; one without an id is accepted by none |
| Visualization.NumericIds | web/visualization.js:60-73 | a numeric id is accepted iff it is the node id and not 0; the string "0" is accepted by node 0 |
| Visualization.Node.constructor | web/visualization.js:597 | a new node has no frames and the minimum size |
| Visualization.Node.OnQuiltsComplete | web/visualization.js:51-132 | a rejected message changes nothing; an accepted one replaces the frames with the uploads of its images in order, and sets the title to "Input #" + their count |
| Visualization.Node.OnResize | web/visualization.js:551-561 | the new size is `Clamped` of the old |
| Visualization.ClampedSize | web/visualization.js:551-561 | the result is at least 600×500; a width above 600 is kept with height w − 100; at width 600 a height above 500 is kept; clamping twice is clamping once |
| Visualization.TierScale | web/visualization.js:220-226 | the scale is the default or that of a tier the dimension reaches |
| Visualization.PanelScaleTable | web/visualization.js:215-229 | ≥ 800 → 1.25, ≥ 600 → 1.0, ≥ 400 → 0.6, ≥ 300 → 0.5, below → 0.75 |
| Visualization.ScreenshotPixels | web/visualization.js:344 | `512·2^v` is at least 512 |
| Visualization.ScreenshotSizes | web/visualization.js:340-350 | positions 0–3 give 512, 1024, 2048, 4096, and the default position matches the renderer's initial 1024 |
| Visualization.ScreenshotPixelsIncreasing | web/visualization.js:344 | a higher position gives a strictly larger size |
| Visualization.ConfiguredDefaults | web/visualization.js:388 | every configured slider starts at its configured default, which lies in its range |
| Visualization.UnconfiguredDefault | web/visualization.js:388 | without a configured default a slider starts at its first allowed value, or at its minimum |
| Visualization.InitialValuesAgree | web/visualization.js:388 | the renderer's initial depth, frame count, angle range and fov match the panel defaults; its dof and focus do not |
| Visualization.DefaultOf | web/visualization.js:437-446 | the reset value is the slider's default and lies within its range |
| Visualization.UpdateSyncsRenderer | web/visualization.js:455-471 | after handling the panel's `update`, the renderer holds the panel's three values, keeps its invariant, and reloads iff both images are known |
| Visualization.Visualizer.constructor | web/visualization.js:252-305 | the panel starts at the configured defaults, with no images and the default scale |
| Visualization.Visualizer.UpdateControlPanelScale | web/visualization.js:215-229 | the scale is `TierScale` of min(width, height) |
| Visualization.Visualizer.UpdateVisual | web/visualization.js:455-471 | the images are remembered and written, stringified, as attributes; the posted `update` carries them and the panel's three values |
| Visualization.Visualizer.OnSliderChange | web/visualization.js:251-350 | depth, dof and focus store the value and re-send the images; the others post their value, the screenshot slider as `512·2^v`; nothing else changes |
| Visualization.Visualizer.ResetSlider | web/visualization.js:437-446 | a reset runs the callback with the default: Z offset 0, frames 4, range 14, size 1024, or the stored default; the images stay; the panel's sliders rewrite the attributes from them, the others leave the attributes alone |
| Visualization.Visualizer.ResetViewButton | web/visualization.js:243-248 | the reset-view button posts `resetView` with the panel's depth strength (what the renderer does with it: `ResetViewSyncsRenderer`) |
| Visualization.ResetViewSyncsRenderer | web/js/threeVisualizer.js:57-58 | the button's `resetView` puts the renderer's camera on the view axis at the home distance for the panel's depth strength; parameters, session and the rest of the scene stay, and the invariant is kept |
| DepthViewer.ReplaceAllAbsent | depthviewer.py:91 | `replace` leaves a name without the placeholder unchanged |
| DepthViewer.SameSuffixHeads | depthviewer.py:93 | equal names with the same prefix and suffix have equal middles |
| DepthViewer.OutputFileInjective | depthviewer.py:91-97 | for one batch entry, different counters give different file names |
| DepthViewer.ReferenceNotDepth | depthviewer.py:93-96 | a reference file and a depth file never share a name |
| DepthViewer.OutputFileRequested | depthviewer.py:93-109 | both output records name PNG files, which the renderer requests |
| DepthViewer.Records | depthviewer.py:99-109 | `n` pairs give `n` records |
| DepthViewer.RecordsSplit | depthviewer.py:99-110 | records for m + 1 pairs are those for m plus pair m under counter k + m |
| DepthViewer.BaseName | depthviewer.py:28 | the looked-up name is a prefix of the name |
| DepthViewer.TaggedNameChanges | depthviewer.py:123-124 | a typed name changes iff it does not already mention "[type]" |
| DepthViewer.TaggedIdempotent | depthviewer.py:123-124 | tagging twice is tagging once |
| DepthViewer.NotContainsAt | depthviewer.py:28 | a name without " [" has no occurrence of it at any index |
| DepthViewer.StripUndoesTag | depthviewer.py:28 | for a name without " [", stripping the tagged name gives the name back |
| DepthViewer.FirstOccurrence | depthviewer.py:28 | an occurrence with none before it is where `split` cuts |
| DepthViewer.Loaded | depthviewer.py:121-133 | no more frames load than there are entries |
| DepthViewer.LoadedPrefix | depthviewer.py:121-133 | one more entry adds its frame, if it loads, at the end |
| DepthViewer.LoadedAll | depthviewer.py:121-133 | when every base name loads, every frame is kept in order |
| DepthViewer.Stacked | depthviewer.py:137-160 | the output starts with the first frame and is no longer than the input |
| DepthViewer.StackedSameShape | depthviewer.py:137-160 | frames that all share the first one's shape are kept unchanged |
| DepthViewer.StackedShapes | depthviewer.py:139-160 | when the resizers honour the size asked for, every output frame has the first frame's shape |
| DepthViewer.FrameResult | depthviewer.py:113-164 | the output has at least one frame |
| DepthViewer.FrameResultDefault | depthviewer.py:113-164 | the output is the black default iff no frame loads, and otherwise starts with the first loaded frame |
| DepthViewer.StackFrames | depthviewer.py:137-160 | the loop's output is `Stacked` of the loaded frames |
| DepthViewer.TagEntry | depthviewer.py:123-124 | entry i is tagged in place and the others are unchanged |
| DepthViewer.CollectFrames | depthviewer.py:121-133 | every entry is tagged in place, and the frames are `Loaded` of the tagged entries |
| DepthViewer.DepthViewerNode.constructor | depthviewer.py:60-66 | a new node has empty record lists and the counter it was given |
| DepthViewer.DepthViewerNode.SaveRecords | depthviewer.py:90-110 | one reference and one depth record per pair are appended, and the counter advances by the number of pairs |
| DepthViewer.DepthViewerNode.Display | depthviewer.py:89-164 | records and counter as for each zipped pair; the UI lists the records; the frames are tagged in place; the result is `FrameResult` |
| DepthViewer.DepthViewerNode.Run | depthviewer.py:78-87 | the lists are cleared, and the UI holds exactly this run's two files under the old counter, which advances by one |
| DepthViewer.RunsNeverOverwrite | depthviewer.py:91-97 | runs under different counters never save to the same file name |
| DepthViewer.DefaultPrefixName | depthviewer.py:91-93 | the default prefix saves entry 0 under counter 7 as "imagesave_00007_reference.png" |

## Left out

- JavaScript numbers are modelled as exact reals, without rounding or
  overflow. So these hold exactly in the model, but only up to rounding in
  double-precision floating point:
  - a finished leg landing on its target (`cur + (target − cur)·1`);
  - the headings 7/3 and −7/3 of the default session;
  - the division in `Progress`.
  Timestamps and canvas sizes are integers.
- DepthViewer.DepthViewerNode.Display and Run return the record lists as
  values. In the source, the UI dictionary holds the node's own
  `saved_reference` and `saved_depth` lists (depthviewer.py:164). So the next
  run's `clear()` (depthviewer.py:79-80) also empties a UI returned earlier.
  The model does not capture that aliasing.
- The GLSL shaders, their displacement and depth-of-field blur
  (web/js/threeVisualizer.js:341-428): GPU floating-point numerics.
- Three.js itself is reduced to the camera in orbit terms.
  - The renderer, the projection matrix, `lookAt` and OrbitControls damping
    are not modelled.
  - A user dragging the camera between frames is not modelled.
  - The camera moves only through the modelled operations.
- The trigonometry is not computed.
  - `atan2` reading back a heading is `Wrap`.
  - 1/tan(fov/2) is the parameter `fovCompensation`.
  - A camera on the vertical axis (radius 0, where `atan2(0, 0)` reads
    back 0) keeps the heading it was set to.
- Time, `requestAnimationFrame` and `postMessage` are replaced by explicit
  inputs.
  - The time is the parameter `now`.
  - Each frame is one call of `FrameUpdate`.
  - Posted messages are returned values (`Effect`, `HostMessage`).
  - The extra frame loops started by every completed `main` are not
    modelled.
- ThreeVisualizer.Visualizer.LoadScene: runs atomically, with the texture loads'
  outcomes as parameters. Messages that arrive while its awaits are pending
  are not interleaved. The `/view` URL built from `apiURL` is not modelled.
- The progress dialog, the distance and rotation HUD, and the `takeScreenshot`
  download link are not modelled (web/js/threeVisualizer.js:96-133 and
  457-497, web/visualization.js:486-521). They are UI only.
- The captured images are not encoded. A capture records the camera, the
  canvas side and the objects drawn. A failed encoding is not modelled.
- Visualization.Node.OnQuiltsComplete: the upload is the parameter `upload`,
  with `None` for an upload that throws or returns nothing. The loop runs
  without interleaving between its awaits. `_seed = Math.random()` and
  `setDirtyCanvas` are not modelled.
- Visualization.Visualizer.OnSliderChange: slider values are reals as
  `parseFloat` gives them. The label texts are not modelled. The screenshot
  slider moves in whole steps (`OnGrid`).
- The host never posts `updateCameraFOV`, because the panel creates no slider
  for `cameraFOV`. The renderer's handling of it is modelled.
- DOM construction, widget drawing, the `ResizeObserver` wiring and the
  `init` message sent on iframe load are not modelled
  (web/visualization.js:374-380). The `init` message itself is modelled on
  the renderer side.
- Images in the backend are opaque values with a height and a width.
  - Conversions between torch and PIL, and the channel layout, are not
    modelled.
  - A `torch.cat` failure on mismatched channels is not modelled.
  - The saving of the files is not modelled; only their names and records
    are.
- `folder_paths.get_save_image_path` scans the output folder. Its results
  (prefix, subfolder, starting counter) are the node's constructor
  parameters.
- File lookup by base name is the parameter `loader` (`None` when the file is
  missing or does not open). `common_upscale` and the PIL resize are
  parameters too.
- DepthViewer.DepthViewerNode.Run: requires non-empty image batches, which
  ComfyUI always passes. An empty batch would raise on `image[0]`. A frame
  entry without `name` (a `KeyError`) cannot arise, because entries are the
  host's upload results.
- DepthViewer.StackedShapes: its shape property assumes the resizers return
  the size they were asked for.
- Node registration (`INPUT_TYPES`, `RETURN_TYPES`, `NODE_CLASS_MAPPINGS`) and
  logging are not modelled.
