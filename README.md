# Frame arithmetic of a four-scene Remotion edit

This project models in Dafny the logic that turns a frame index into parameters in a short
Remotion video. The video has four scenes: Intro, Glitch, Speed and Outro. Three transitions
join them inside a `TransitionSeries`. Every frame is a pure function of its index, so the
model is also pure: datatypes, functions and lemmas, with no state and no loops.

- `Timeline` (timeline.dfy) models the main composition's series of sequences and linear
  transitions:
  - the total length;
  - the first frame of each scene;
  - `Resolve`, which maps a global frame to one scene at its local frame, or to two scenes
    blending with linear progress.
- `Interpolation` (interpolation.dfy) models the library's `interpolate` over `real`:
  - it finds the segment, then clamps or extends on each side;
  - it applies an optional easing and blends linearly.

  Every opacity, offset and gain curve of the scenes is built from it. This module is a model
  of the library's documented behaviour; it is not code in the repository.
- `Format` (format.dfy) models `String(n)` for naturals and `padStart`, and the digit reading
  and character search that undo them.
- `GlitchScene`, `SpeedScene`, `IntroScene` and `OutroScene` each model the `const`
  computations of one scene file.

The library's seeded `random(seed)` becomes a function parameter `rnd: string -> real`. It is
constrained only to return values in [0, 1). A `spring(...)` value becomes a plain `real`
parameter. `Easing.in/out(Easing.cubic)` becomes an easing parameter. The only thing assumed
of an easing is that it fixes 0 and 1, maps [0, 1] into itself and never decreases there.
Frames are natural numbers.

Facts about the main edit that follow from its arithmetic:

- **Transitions overlap the scenes.** The total of 561 is the sum of the scenes less the sum
  of the transitions, so each transition covers the last frames of one scene and the first of
  the next. The scenes start at frames 0, 105, 243 and 381. Transition 0 covers frames
  [105, 120). Frame 112 blends Intro frame 112 into Glitch frame 7 at progress 7/15
  (`Timeline.MainFrame112`). Frame 125 is the Glitch scene alone at its frame 20
  (`Timeline.MainFrame125`).
- **Frames outside the series show nothing.** Frames outside [0, Total) resolve to `Empty`;
  nothing is clamped (`Timeline.ResolveEmpty`).
- **The Outro's length.** The doc comment at the top of `Main.tsx` counts the Outro as 150
  frames plus a 30-frame buffer. The code gives the Outro sequence 180 frames. Both reach 561
  (`Timeline.MainTotal`).

## Model

| member | source | states |
|---|---|---|
| `Timeline.Split` | src/remotion/compositions/Main.tsx:34-72 | the series children split into scene durations and transition durations in order; `AlternatesCounts` and `MainEntriesSplit` state its result |
| `Timeline.SeriesLength` | src/remotion/compositions/Main.tsx:34-72 | frames the series plays, each sequence adding and each transition subtracting its length; `SeriesLengthIsTotal` equates it with `Total` |
| `Timeline.Total` | src/remotion/compositions/Main.tsx:34-72 | sum of the scenes less sum of the transitions; `MainTotal` gives 561 and `ResolveEmpty` shows it is exactly the resolvable range |
| `Timeline.Start` | src/remotion/compositions/Main.tsx:36-69 | first frame of scene k, the scenes before it less the transitions before it; `StartStep`, `StartsNonDecreasing` and `MainStarts` state its values |
| `Timeline.Resolve` | src/remotion/compositions/Main.tsx:34-72 | the scene or the two blending scenes on screen at a global frame, `Empty` outside the series; `ResolveSolo`, `ResolveWindow` and `ResolveEmpty` pin its value on every frame |
| `Timeline.AlternatesCounts` | src/remotion/compositions/Main.tsx:34-72 | a series that alternates sequence and transition, starting and ending on a sequence, splits into n scenes and n-1 transitions |
| `Timeline.SeriesLengthIsTotal` | src/remotion/compositions/Main.tsx:22-23 | adding every sequence length and subtracting every transition length gives the sum of the scenes less the sum of the transitions |
| `Timeline.MainEntriesSplit` | src/remotion/compositions/Main.tsx:36-69 | the main series alternates, and its scenes are [120,150,150,180] and its transitions [15,12,12] |
| `Timeline.MainWellFormed` | src/remotion/compositions/Main.tsx:36-69 | every duration is positive, each transition fits in both neighbours, and no scene's two transition windows overlap |
| `Timeline.MainTotal` | src/remotion/compositions/Main.tsx:20-23 | the main series plays 561 frames, which is the comment's 531 (Outro counted as 150) plus its 30-frame buffer |
| `Timeline.StartStep` | src/remotion/compositions/Main.tsx:36-69 | scene k+1 starts where scene k starts, plus its length, less the transition between them |
| `Timeline.StartsNonDecreasing` | src/remotion/compositions/Main.tsx:36-69 | in a well-formed series a later scene never starts before an earlier one |
| `Timeline.MainStarts` | src/remotion/compositions/Main.tsx:36-69 | the four scenes start at frames 0, 105, 243 and 381 |
| `Timeline.LastEndsAtTotal` | src/remotion/compositions/Main.tsx:69 | the last scene ends exactly at the series' total length |
| `Timeline.ResolveFrom` | src/remotion/compositions/Main.tsx:34-72 | a resolved single scene is a real scene at a local frame inside its duration; a resolved blend is inside a transition window, both local frames are consistent with the overlap, and its progress is the elapsed fraction of the window |
| `Timeline.ResolveSolo` | src/remotion/compositions/Main.tsx:34-72 | between the end of its incoming window and the start of its outgoing one, a frame shows scene k alone at frame f - Start(k) |
| `Timeline.ResolveWindow` | src/remotion/compositions/Main.tsx:41-44 | inside transition k's window, a frame blends scene k into scene k+1, with linear progress (f - window start) / duration |
| `Timeline.ResolveEmpty` | src/remotion/compositions/Main.tsx:34-72 | nothing is on screen exactly when the frame is negative or at least the total: the resolvable frames are exactly [0, Total) |
| `Timeline.ProgressEnds` | src/remotion/compositions/Main.tsx:43 | linear timing is 0 at the start of the window and 1 at its end |
| `Timeline.ProgressIncreasing` | src/remotion/compositions/Main.tsx:54 | linear timing strictly increases with the elapsed frames |
| `Timeline.ProgressInWindow` | src/remotion/compositions/Main.tsx:65 | inside the window linear timing is in [0, 1) |
| `Timeline.MainFrame112` | src/remotion/compositions/Main.tsx:36-44 | frame 112 is the Intro at 112 passing into the Glitch scene at 7, with progress 7/15 |
| `Timeline.MainFrame125` | src/remotion/compositions/Main.tsx:41-49 | frame 125 is the Glitch scene alone at its frame 20 |
| `Timeline.MainLastFrame` | src/remotion/compositions/Main.tsx:69 | frame 560 is the Outro alone at its frame 179, and nothing plays at 561 |
| `Interpolation.Interpolate` | src/remotion/compositions/scenes/OutroScene.tsx:41-56 | the library's `interpolate`: choose the segment, clamp or extend on each side, ease the normalised position and blend the two values; `OnSegment`, `AtBreakpoint`, `ClampedBelow`, `ClampedAbove`, `Bounded`, `Monotone`, `TwoPointLine` and `Triangle` state its behaviour |
| `Interpolation.FindRange` | src/remotion/compositions/scenes/OutroScene.tsx:41-56 | the segment chosen for x is the first whose upper breakpoint reaches x, or the last segment |
| `Interpolation.FindRangeMonotone` | src/remotion/compositions/scenes/OutroScene.tsx:41-56 | a larger input never selects an earlier segment |
| `Interpolation.OnSegment` | src/remotion/compositions/scenes/OutroScene.tsx:41-56 | between two breakpoints the result is the eased position blended between their two values |
| `Interpolation.AtBreakpoint` | src/remotion/compositions/scenes/OutroScene.tsx:59-69 | at every breakpoint the configured value is returned exactly |
| `Interpolation.ClampedBelow` | src/remotion/compositions/scenes/SpeedScene.tsx:36-40 | a clamped left side returns the first value for every input up to the first breakpoint |
| `Interpolation.ClampedAbove` | src/remotion/compositions/scenes/SpeedScene.tsx:121-125 | a clamped right side returns the last value for every input from the last breakpoint on |
| `Interpolation.Bounded` | src/remotion/compositions/scenes/SpeedScene.tsx:43-46 | for a clamped or in-domain input and an easing, the result stays within any band that holds all the output values |
| `Interpolation.Monotone` | src/remotion/compositions/scenes/OutroScene.tsx:41-56 | over non-decreasing outputs and an easing, the curve never decreases for clamped or in-domain inputs |
| `Interpolation.TwoPointLine` | src/remotion/compositions/scenes/IntroScene.tsx:37 | two breakpoints with the default easing give the straight line through both points |
| `Interpolation.Triangle` | src/remotion/compositions/scenes/IntroScene.tsx:40-43 | a clamped rise-and-fall envelope from 0 up to h and back stays in [0, h], is positive exactly strictly between its ends, and equals h only at its peak |
| `Format.NatToString` | src/remotion/compositions/scenes/GlitchScene.tsx:261 | the decimal text is non-empty, all digits, reads back as the number, and has no leading zero unless it is "0" |
| `Format.NatToStringInjective` | src/remotion/compositions/scenes/GlitchScene.tsx:62 | different numbers never print alike |
| `Format.NatToStringLength` | src/remotion/compositions/scenes/GlitchScene.tsx:261 | the text of n has at most k characters exactly when n < 10^k |
| `Format.PadStart` | src/remotion/compositions/scenes/SpeedScene.tsx:236-239 | padding reaches the width (or keeps a longer string), keeps the string as its suffix, and fills only with the pad character |
| `Format.PaddedReadsBack` | src/remotion/compositions/scenes/SpeedScene.tsx:236-239 | a zero-padded number still reads back as that number |
| `Format.PaddedWidth` | src/remotion/compositions/scenes/GlitchScene.tsx:261 | a number below 10^width pads to exactly width characters |
| `Format.IndexOf` | src/remotion/compositions/scenes/SpeedScene.tsx:236-239 | the result is the first occurrence of the character, or the length when it is absent |
| `Format.JoinInjective` | src/remotion/compositions/scenes/GlitchScene.tsx:126 | two digit strings joined by a non-digit separator split back uniquely |
| `Format.SplitAfterDigits` | src/remotion/compositions/scenes/SpeedScene.tsx:236-239 | after a digit field the first separator is right after the field, and slicing around it returns both parts |
| `GlitchScene.SliceAt` | src/remotion/compositions/scenes/GlitchScene.tsx:126-140 | slice i of a phase: skipped when its draw exceeds 0.4, otherwise its band, shift and hue turn; `DrawnIff`, `SliceBounds` and `DrawnSliceBounds` state its properties |
| `GlitchScene.LabelOpacity` | src/remotion/compositions/scenes/GlitchScene.tsx:88 | label opacity from its spring; `LabelSlidesWithOpacity` shows it equals the spring value |
| `GlitchScene.LabelX` | src/remotion/compositions/scenes/GlitchScene.tsx:89 | label offset from the same spring; `LabelSlidesWithOpacity` shows it is 40 times (opacity - 1) |
| `GlitchScene.AccentBarWidth` | src/remotion/compositions/scenes/GlitchScene.tsx:222 | accent bar width from its spring; `LabelSlidesWithOpacity` shows it is 60 times the spring value |
| `GlitchScene.FrameCounter` | src/remotion/compositions/scenes/GlitchScene.tsx:261 | the frame padded to 4 digits, " / ", fps padded to 2, "fps"; `FrameCounterReadsBack` reads the frame back from it |
| `GlitchScene.VideoVolume` | src/remotion/compositions/scenes/GlitchScene.tsx:114-118 | the base video gain, right-clamped fade-in to 0.8; `VideoVolumeFadeIn` states its shape |
| `GlitchScene.GlitchAt` | src/remotion/compositions/scenes/GlitchScene.tsx:61-75 | the phase is frame/4; the phase glitches iff its draw exceeds 0.7; intensity, split and hue shift are 0 when it does not; intensity is in [0, 0.8) when it does; the split is under 9.6 and the hue shift under 32; the overlays show iff the split exceeds 1 |
| `GlitchScene.PhaseShared` | src/remotion/compositions/scenes/GlitchScene.tsx:61-65 | the four frames 4p..4p+3 share every glitch decision |
| `GlitchScene.DrawnIff` | src/remotion/compositions/scenes/GlitchScene.tsx:124-127 | slice i is drawn iff the phase glitches and the slice's own draw is at most 0.4 |
| `GlitchScene.SliceBounds` | src/remotion/compositions/scenes/GlitchScene.tsx:129-140 | a kept slice has its band's insets, a shift within 40 times the intensity, and a hue turn in [-30, 30) |
| `GlitchScene.DrawnSliceBounds` | src/remotion/compositions/scenes/GlitchScene.tsx:124-140 | a drawn slice keeps its band, shifts by at most 40 times the phase intensity (under 32 pixels), and turns its hue by less than 30 degrees |
| `GlitchScene.SlicesTile` | src/remotion/compositions/scenes/GlitchScene.tsx:68-69 | top + 12.5 + bottom = 100 for each slice; the first touches the top, the last the bottom, and each starts where the previous ends |
| `GlitchScene.SlicesCover` | src/remotion/compositions/scenes/GlitchScene.tsx:131-132 | every height of the frame lies in some slice's band, and the bands do not overlap |
| `GlitchScene.OverlaysNeedGlitch` | src/remotion/compositions/scenes/GlitchScene.tsx:159 | the split overlays show iff the phase glitches with intensity above 1/12 |
| `GlitchScene.PhaseKeysDistinct` | src/remotion/compositions/scenes/GlitchScene.tsx:62-64 | the glitch and intensity seeds of different phases never coincide, and never coincide with each other |
| `GlitchScene.IndexedKeyInjective` | src/remotion/compositions/scenes/GlitchScene.tsx:126 | a seed of the form prefix-phase-index determines its phase and index |
| `GlitchScene.SliceKeysDistinct` | src/remotion/compositions/scenes/GlitchScene.tsx:126-140 | the slice, shift and hue seeds each name one phase and one slice, and the three families never coincide |
| `GlitchScene.FloatingLine` | src/remotion/compositions/scenes/GlitchScene.tsx:34-43 | from the seed alone: base height in [0, height), length in [200, 800), left offset in [0, 60)% |
| `GlitchScene.FloatingLineDrift` | src/remotion/compositions/scenes/GlitchScene.tsx:35-36 | the line stays within 40 pixels of its base height and its opacity in [0.05, 0.25] |
| `GlitchScene.Drift` | src/remotion/compositions/scenes/GlitchScene.tsx:78-80 | the video zoom is in [1.005, 1.035], the shifts within 8 and 5 pixels |
| `GlitchScene.LabelSlidesWithOpacity` | src/remotion/compositions/scenes/GlitchScene.tsx:83-96 | the label's opacity is its spring value, its offset is 40 times (opacity - 1), and the accent bar is 60 times its own spring value |
| `GlitchScene.FrameCounterReadsBack` | src/remotion/compositions/scenes/GlitchScene.tsx:261 | the counter's text up to its first space reads back as the frame, and is exactly 4 characters below frame 10000 |
| `GlitchScene.VideoVolumeFadeIn` | src/remotion/compositions/scenes/GlitchScene.tsx:114-118 | the gain rises linearly from 0 to 0.8 over frames 0..15, holds 0.8 after, and stays in [0, 0.8] |
| `SpeedScene.BlurAmount` | src/remotion/compositions/scenes/SpeedScene.tsx:82-89 | the blur: a clamped triangle over frame mod 90 while the ramp is on, 0 otherwise; `RampWindow` and `BlurEnvelope` state its window, period, range and peak |
| `SpeedScene.LineProgress` | src/remotion/compositions/scenes/SpeedScene.tsx:36-40 | a speed line's eased, clamped run over the 8 frames after its delay; `LineProgressRange` and `LinesSpentAfterFirstRamp` state its values |
| `SpeedScene.LineX` | src/remotion/compositions/scenes/SpeedScene.tsx:42 | a speed line's left edge from its run; `LineSweep` shows it is linear from -lineWidth to width + 100 |
| `SpeedScene.LineOpacity` | src/remotion/compositions/scenes/SpeedScene.tsx:43-46 | a speed line's opacity from its run; `LineOpacityEnvelope` states its range, zeros and plateau |
| `SpeedScene.LabelOpacity` | src/remotion/compositions/scenes/SpeedScene.tsx:190 | label and timestamp opacity from their spring; `LabelAndDivider` shows it equals the spring value |
| `SpeedScene.DividerWidth` | src/remotion/compositions/scenes/SpeedScene.tsx:99-103 | divider width from its spring; `LabelAndDivider` shows it is 200 times the spring value |
| `SpeedScene.Timestamp` | src/remotion/compositions/scenes/SpeedScene.tsx:236-239 | seconds and frame-within-second, each padded to 2 digits, joined by ":"; `TimestampReadsBack` reads both back |
| `SpeedScene.VideoVolume` | src/remotion/compositions/scenes/SpeedScene.tsx:121-125 | the base video gain, right-clamped fade-in to 0.7; `VideoVolumeFadeIn` states its shape |
| `SpeedScene.RampWindow` | src/remotion/compositions/scenes/SpeedScene.tsx:82-89 | the ramp is on iff frame mod 90 is in 31..44, and the ramp and the blur repeat every 90 frames |
| `SpeedScene.BlurEnvelope` | src/remotion/compositions/scenes/SpeedScene.tsx:84-89 | the blur is in [0, 4], is positive (the overlay drawn) iff the ramp is on, and is 4 iff frame mod 90 = 37 |
| `SpeedScene.LinesShown` | src/remotion/compositions/scenes/SpeedScene.tsx:141-174 | five speed lines are mounted during the ramp and none otherwise |
| `SpeedScene.LineProgressRange` | src/remotion/compositions/scenes/SpeedScene.tsx:36-40 | a line's run is in [0, 1], is 0 up to its delay, is 1 from 8 frames after it, and never decreases |
| `SpeedScene.LineSweep` | src/remotion/compositions/scenes/SpeedScene.tsx:42 | the line's left edge is linear in its run, from -lineWidth at 0 to width + 100 at 1 |
| `SpeedScene.LineOpacityEnvelope` | src/remotion/compositions/scenes/SpeedScene.tsx:43-46 | line opacity is in [0, 0.6], is 0 at and beyond both ends of the run, and is 0.6 on [0.3, 0.7] |
| `SpeedScene.LinesSpentAfterFirstRamp` | src/remotion/compositions/scenes/SpeedScene.tsx:141-174 | in any ramp after the first, every mounted line has finished its run and is fully transparent |
| `SpeedScene.CameraAt` | src/remotion/compositions/scenes/SpeedScene.tsx:71-79 | zoom in [1.02, 1.08], pans within 15 and 8 pixels, warmth in [0, 15] degrees, brightness in [0.95, 1.05] |
| `SpeedScene.TimestampReadsBack` | src/remotion/compositions/scenes/SpeedScene.tsx:236-239 | the timestamp splits at its colon into two digit fields of at least 2 characters; the frame field is below fps; seconds times fps plus frames is the frame; the frame field is exactly 2 characters when fps is at most 100 |
| `SpeedScene.VideoVolumeFadeIn` | src/remotion/compositions/scenes/SpeedScene.tsx:121-125 | the gain rises linearly from 0 to 0.7 over frames 0..15, holds 0.7 after, and stays in [0, 0.7] |
| `SpeedScene.LabelAndDivider` | src/remotion/compositions/scenes/SpeedScene.tsx:92-103 | the label's opacity is its spring value and the divider is 200 times its own spring value |
| `IntroScene.VideoScale` | src/remotion/compositions/scenes/IntroScene.tsx:37 | video scale from the zoom spring; `ZoomLine` shows it is 1.4 - 0.35 times the spring value |
| `IntroScene.FlashOpacity` | src/remotion/compositions/scenes/IntroScene.tsx:40-43 | the white flash, a clamped triangle over frames 25, 30, 40; `FlashEnvelope` states its range, window and peak |
| `IntroScene.TitleY` | src/remotion/compositions/scenes/IntroScene.tsx:51 | title offset from the title spring; `TitleRisesWithOpacity` shows it is 60 times (1 - opacity) |
| `IntroScene.TitleOpacity` | src/remotion/compositions/scenes/IntroScene.tsx:52 | title opacity from the title spring; `TitleRisesWithOpacity` and `BracketsFollowTitle` state its value and the bracket test |
| `IntroScene.SubtitleOpacity` | src/remotion/compositions/scenes/IntroScene.tsx:60 | subtitle opacity from its spring; `TitleRisesWithOpacity` shows it equals the spring value |
| `IntroScene.ScanY` | src/remotion/compositions/scenes/IntroScene.tsx:63-65 | scan line height, right-clamped over frames 0..90; `ScanSweep` states its line, end value and monotonicity |
| `IntroScene.ChromaIntensity` | src/remotion/compositions/scenes/IntroScene.tsx:68-71 | aberration offset, a clamped triangle over frames 25, 32, 50; `ChromaEnvelope` and `ChromaShownWindow` state its range, peak and mount window |
| `IntroScene.ZoomLine` | src/remotion/compositions/scenes/IntroScene.tsx:32-37 | the video scale is 1.4 - 0.35 times the zoom spring: 1.4 at 0 and 1.05 at 1 |
| `IntroScene.FlashEnvelope` | src/remotion/compositions/scenes/IntroScene.tsx:40-43 | the flash is in [0, 0.9], visible iff 25 < frame < 40, and 0.9 iff frame = 30 |
| `IntroScene.TitleRisesWithOpacity` | src/remotion/compositions/scenes/IntroScene.tsx:46-60 | title opacity is its spring value, the title sits 60 times (1 - opacity) pixels low, and subtitle opacity is its own spring value |
| `IntroScene.BracketsFollowTitle` | src/remotion/compositions/scenes/IntroScene.tsx:213 | the corner brackets are mounted iff the title spring exceeds 0.5 |
| `IntroScene.ScanSweep` | src/remotion/compositions/scenes/IntroScene.tsx:63-65 | the scan line is linear from -20 at frame 0 to height + 20 at frame 90, stays there after, and never moves up |
| `IntroScene.ChromaEnvelope` | src/remotion/compositions/scenes/IntroScene.tsx:68-71 | the aberration is in [0, 8], positive iff 25 < frame < 50, and 8 iff frame = 32 |
| `IntroScene.ChromaShownWindow` | src/remotion/compositions/scenes/IntroScene.tsx:95 | on whole frames the aberration layers are mounted iff 26 <= frame <= 48 |
| `OutroScene.ShutdownProgress` | src/remotion/compositions/scenes/OutroScene.tsx:37-57 | the eased, clamped shutdown curve from duration - 60, 0 before it; `GuardRedundant` and `ShutdownEnvelope` state its values and monotonicity |
| `OutroScene.ScaleY` | src/remotion/compositions/scenes/OutroScene.tsx:59-61 | vertical squeeze from the progress; `SqueezeBounds`, `CrtAtRest` and `CrtOff` state its range and end values |
| `OutroScene.ScaleX` | src/remotion/compositions/scenes/OutroScene.tsx:62-64 | horizontal squeeze from the progress; `SqueezeBounds`, `CrtAtRest` and `CrtOff` state its range, its first-half plateau and end values |
| `OutroScene.Brightness` | src/remotion/compositions/scenes/OutroScene.tsx:66-69 | brightness flare from the progress; `SqueezeBounds`, `CrtAtRest` and `CrtOff` state its range and end values |
| `OutroScene.DotGlow` | src/remotion/compositions/scenes/OutroScene.tsx:71-77 | the final dot, a clamped triangle over progress 0.85, 0.95, 1; `DotGlowEnvelope` states its range, window and peak |
| `OutroScene.CrtAt` | src/remotion/compositions/scenes/OutroScene.tsx:59-77 | the whole CRT treatment at a frame, untouched before the shutdown; `CrtAtRest`, `CrtOff` and `MainShutdown` state it at both ends |
| `OutroScene.ReplayOpacity` | src/remotion/compositions/scenes/OutroScene.tsx:80-85 | the REPLAY caption's clamped fade-in; `ReplayFadesIn` states its range, ends and monotonicity |
| `OutroScene.FadeIn` | src/remotion/compositions/scenes/OutroScene.tsx:122-124 | right-clamped fade-in of the video to 0.7; `VideoVolumeEnvelope` uses it |
| `OutroScene.FadeOut` | src/remotion/compositions/scenes/OutroScene.tsx:116-121 | clamped fade-out of the video from 0.7 between 90 and 30 frames before the end; `VideoVolumeEnvelope` uses it |
| `OutroScene.VideoVolume` | src/remotion/compositions/scenes/OutroScene.tsx:115-126 | the lower of the two fades; `VideoVolumeEnvelope` states its range and its silent and full stretches |
| `OutroScene.DroneVolume` | src/remotion/compositions/scenes/OutroScene.tsx:246-255 | the drone gain, right-clamped, over frames 0, 30, duration - 60, duration; `DroneEnvelope` states its range, plateau and silences |
| `OutroScene.ShutdownFramesIncreasing` | src/remotion/compositions/scenes/OutroScene.tsx:41-50 | the shutdown breakpoints strictly increase for every scene length, and the levels never decrease |
| `OutroScene.GuardRedundant` | src/remotion/compositions/scenes/OutroScene.tsx:37-57 | the `isShuttingDown` guard changes nothing: the left-clamped curve is 0 before the shutdown anyway |
| `OutroScene.ShutdownEnvelope` | src/remotion/compositions/scenes/OutroScene.tsx:36-57 | the shutdown progress is in [0, 1], 0 at duration - 60, 1 from 55 frames later on, and never decreases with the frame |
| `OutroScene.CrtAtRest` | src/remotion/compositions/scenes/OutroScene.tsx:59-77 | before the shutdown and at its first frame, both scales and the brightness are 1 and the dot is off |
| `OutroScene.CrtOff` | src/remotion/compositions/scenes/OutroScene.tsx:59-77 | from 55 frames into the shutdown, both scales, the brightness and the dot are 0 |
| `OutroScene.SqueezeBounds` | src/remotion/compositions/scenes/OutroScene.tsx:59-69 | for progress in [0, 1] both scales are in [0, 1] and the brightness in [0, 3]; the width is 1 up to progress 0.5 |
| `OutroScene.DotGlowEnvelope` | src/remotion/compositions/scenes/OutroScene.tsx:72-77 | the dot's glow is in [0, 1], lit iff 0.85 < progress < 1, and 1 iff progress = 0.95 |
| `OutroScene.ReplayFadesIn` | src/remotion/compositions/scenes/OutroScene.tsx:80-85 | the caption's opacity is in [0, 1], 0 up to 45 frames into the shutdown, 1 from 55 on, and never decreases |
| `OutroScene.Drift` | src/remotion/compositions/scenes/OutroScene.tsx:88-89 | the video zoom is in [1.01, 1.05] and the shift within 10 pixels |
| `OutroScene.VideoVolumeEnvelope` | src/remotion/compositions/scenes/OutroScene.tsx:115-126 | the gain, the lower of the two fades, is in [0, 0.7]; it is 0 at frame 0 and for the last 30 frames, and 0.7 from frame 15 to 90 frames before the end |
| `OutroScene.DroneEnvelope` | src/remotion/compositions/scenes/OutroScene.tsx:246-255 | over the scene the drone is in [0, 0.15]; it is 0 at frame 0, 0.15 from frame 30 to 60 frames before the end, and 0 from the end on |
| `OutroScene.MainShutdown` | src/remotion/compositions/scenes/OutroScene.tsx:36-38 | in the main edit the Outro is alone and shutting down from global frame 501 to 560, and the picture has collapsed from frame 556 |

## Left out

- JSX trees, CSS strings and layout are left out. They render the numbers modelled here and
  hold no logic. This covers transforms, filters, gradients and the `clipPath` text.
- Media playback, `trimBefore` offsets, asset URLs, the sound-effect `Sequence`s and their
  constant volumes are left out. They are asset I/O.
- The sine and cosine drift, pan, warmth, brightness and floating-line oscillation are
  modelled only through their sine values. `CameraAt`, `Drift` and `FloatingLineDrift` take
  those values as parameters in [-1, 1] and state the resulting bounds. Floating-point
  trigonometry is not modelled.
- `spring`, `random` and the `Easing` curves are parameters, not definitions. Their code lives
  in the library. Only `random` in [0, 1) and the easing properties above are assumed.
- `TransitionSeries` blending and the `glitch`, `flashWhite` and `flashBlack` presentations
  are left out. `Resolve` gives only which scenes are on screen, their local frames and the
  linear progress.
- Effect and text components are left out: `Noise`, `Vignette`, `Letterbox`, `LightLeak`,
  `RetroOverlay`, `HackerText`, `FadeInChars`, `BlurReveal` and `SlideInText`. Font loading
  is left out too. Their code is not part of this model.
- The thumbnail `Artifact` at frame 0 is left out. It is export tooling.
- `useVideoConfig` values are parameters: fps, width, height and the Outro's
  `durationInFrames`. `OutroScene.MainShutdown` uses 180, the duration of the Outro
  sequence in the main edit.
- Every JavaScript number is modelled as an exact real (or integer). IEEE double rounding is
  not modelled, so a bound such as the floating line's 0.05 minimum opacity holds exactly in
  the model but may be missed by a rounding error of one unit in the last place.
- Timeline.Resolve requires a well-formed series: durations positive, each transition at most
  as long as either neighbour, and no scene whose two windows overlap. The library's
  behaviour on other series is not modelled.
- Timeline.ResolveFrom states the overlap arithmetic of the series only, not the library's
  own rendering. The library's code is not part of this model.
