/** The Speed scene: a motion blur that swells and fades in a 14-frame window repeating every
    90 frames, five speed lines that sweep across the frame during that window, a slow camera
    drift, and a seconds:frames timestamp. */
module SpeedScene {
  import opened Interpolation
  import opened Format

  const RampPeriod: nat := 90

  /** The speed ramp is on while the frame's position in its 90-frame cycle is strictly
      between 30 and 45. */
  predicate IsSpeedRamp(frame: nat) {
    30 < frame % RampPeriod < 45
  }

  /** Horizontal blur in pixels: a triangle over the cycle position, 0 outside the ramp. */
  function BlurAmount(frame: nat): real {
    if IsSpeedRamp(frame) then
      Interpolate((frame % RampPeriod) as real, [30.0, 37.0, 45.0], [0.0, 4.0, 0.0], Linear, Clamp, Clamp)
    else 0.0
  }

  // ---------------------------------------------------------------------------
  // Speed lines

  /** A speed line: its height as a fraction of the frame height, its start delay in scene
      frames, and its length in pixels. */
  datatype Line = Line(yFraction: real, delay: nat, lineWidth: real)

  const Lines: seq<Line> := [
    Line(0.2, 32, 400.0), Line(0.35, 33, 300.0), Line(0.55, 34, 500.0),
    Line(0.7, 35, 350.0), Line(0.85, 36, 250.0)]

  /** The lines mounted at a frame: all five during the ramp, none otherwise. */
  function LinesShown(frame: nat): (ls: seq<Line>)
    ensures |ls| == if IsSpeedRamp(frame) then 5 else 0
  {
    if IsSpeedRamp(frame) then Lines else []
  }

  /** How far a line has run: 0 to 1 over the 8 frames after its delay, eased, clamped. */
  function LineProgress(frame: nat, delay: nat, ease: real -> real): real {
    Interpolate((frame as int - delay as int) as real, [0.0, 8.0], [0.0, 1.0], ease, Clamp, Clamp)
  }

  /** The line's left edge: from fully off-screen left to 100 pixels past the right edge. */
  function LineX(progress: real, lineWidth: real, width: real): real {
    Interpolate(progress, [0.0, 1.0], [-lineWidth, width + 100.0], Linear, Extend, Extend)
  }

  /** The line fades in over the first 30% of its run and out over the last 30%. */
  function LineOpacity(progress: real): real {
    Interpolate(progress, [0.0, 0.3, 0.7, 1.0], [0.0, 0.6, 0.6, 0.0], Linear, Clamp, Clamp)
  }

  // ---------------------------------------------------------------------------
  // Camera, label, timestamp, audio

  /** The slow camera treatment, from the sine and cosine values of the frame: zoom, pan,
      hue warmth and brightness. */
  datatype Camera = Camera(scale: real, panX: real, panY: real, warmth: real, brightness: real)

  function CameraAt(sinZoom: real, sinPanX: real, cosPanY: real, sinWarmth: real, sinBright: real): (c: Camera)
    requires -1.0 <= sinZoom <= 1.0 && -1.0 <= sinPanX <= 1.0 && -1.0 <= cosPanY <= 1.0
    requires -1.0 <= sinWarmth <= 1.0 && -1.0 <= sinBright <= 1.0
    ensures 1.02 <= c.scale <= 1.08
    ensures -15.0 <= c.panX <= 15.0 && -8.0 <= c.panY <= 8.0
    ensures 0.0 <= c.warmth <= 15.0
    ensures 0.95 <= c.brightness <= 1.05
  {
    LinearIsEasing();
    Bounded(sinWarmth, [-1.0, 1.0], [0.0, 15.0], Linear, Extend, Extend, 0.0, 15.0);
    Camera(1.05 + sinZoom * 0.03, sinPanX * 15.0, cosPanY * 8.0,
           Interpolate(sinWarmth, [-1.0, 1.0], [0.0, 15.0], Linear, Extend, Extend),
           1.0 + sinBright * 0.05)
  }

  /** Label and timestamp opacity follow their spring value unchanged. */
  function LabelOpacity(labelProgress: real): real {
    Interpolate(labelProgress, [0.0, 1.0], [0.0, 1.0], Linear, Extend, Extend)
  }

  /** The divider grows to 200 pixels with its own spring. */
  function DividerWidth(dividerSpring: real): real {
    Interpolate(dividerSpring, [0.0, 1.0], [0.0, 200.0], Linear, Extend, Extend)
  }

  /** The `ss:ff` indicator: whole seconds and the frame within the second, each padded to two
      digits. */
  function Timestamp(frame: nat, fps: nat): string
    requires fps > 0
  {
    PadStart(NatToString(frame / fps), 2, '0') + ":" + PadStart(NatToString(frame % fps), 2, '0')
  }

  /** Gain of the base video at its own frame f. */
  function VideoVolume(f: nat): real {
    Interpolate(f as real, [0.0, 15.0], [0.0, 0.7], Linear, Extend, Clamp)
  }

  // ---------------------------------------------------------------------------
  // Properties

  /** The ramp covers cycle positions 31 to 44 and repeats every 90 frames. */
  lemma RampWindow(frame: nat)
    ensures IsSpeedRamp(frame) <==> 31 <= frame % 90 <= 44
    ensures IsSpeedRamp(frame + RampPeriod) == IsSpeedRamp(frame)
    ensures BlurAmount(frame + RampPeriod) == BlurAmount(frame)
  {
    assert (frame + 90) % 90 == frame % 90;
  }

  /** The blur stays within 4 pixels, is drawn exactly during the ramp, and reaches 4 pixels
      only at cycle position 37. */
  lemma BlurEnvelope(frame: nat)
    ensures 0.0 <= BlurAmount(frame) <= 4.0
    ensures BlurAmount(frame) > 0.0 <==> IsSpeedRamp(frame)
    ensures BlurAmount(frame) == 4.0 <==> frame % RampPeriod == 37
  {
    Triangle((frame % RampPeriod) as real, 30.0, 37.0, 45.0, 4.0);
  }

  /** A line's run is clamped to [0,1], has not started up to its delay, is complete 8 frames
      later, and never runs backwards. */
  lemma LineProgressRange(frame: nat, later: nat, delay: nat, ease: real -> real)
    requires IsEasing(ease) && frame <= later
    ensures 0.0 <= LineProgress(frame, delay, ease) <= 1.0
    ensures frame <= delay ==> LineProgress(frame, delay, ease) == 0.0
    ensures frame >= delay + 8 ==> LineProgress(frame, delay, ease) == 1.0
    ensures LineProgress(frame, delay, ease) <= LineProgress(later, delay, ease)
  {
    var x := (frame as int - delay as int) as real;
    var z := (later as int - delay as int) as real;
    Bounded(x, [0.0, 8.0], [0.0, 1.0], ease, Clamp, Clamp, 0.0, 1.0);
    if frame <= delay {
      ClampedBelow(x, [0.0, 8.0], [0.0, 1.0], ease, Clamp);
    }
    if frame >= delay + 8 {
      ClampedAbove(x, [0.0, 8.0], [0.0, 1.0], ease, Clamp);
    }
    Monotone(x, z, [0.0, 8.0], [0.0, 1.0], ease, Clamp, Clamp);
  }

  /** The line's left edge moves linearly with progress from -lineWidth to width + 100. */
  lemma LineSweep(progress: real, lineWidth: real, width: real)
    ensures LineX(progress, lineWidth, width) == -lineWidth + progress * (width + 100.0 + lineWidth)
    ensures LineX(0.0, lineWidth, width) == -lineWidth
    ensures LineX(1.0, lineWidth, width) == width + 100.0
  {
    TwoPointLine(progress, 0.0, 1.0, -lineWidth, width + 100.0, Extend, Extend);
    TwoPointLine(0.0, 0.0, 1.0, -lineWidth, width + 100.0, Extend, Extend);
    TwoPointLine(1.0, 0.0, 1.0, -lineWidth, width + 100.0, Extend, Extend);
  }

  /** Line opacity stays in [0, 0.6], is 0 at either end of the run (and beyond), and holds
      0.6 over the middle 40% of the run. */
  lemma LineOpacityEnvelope(progress: real)
    ensures 0.0 <= LineOpacity(progress) <= 0.6
    ensures progress <= 0.0 || progress >= 1.0 ==> LineOpacity(progress) == 0.0
    ensures 0.3 <= progress <= 0.7 ==> LineOpacity(progress) == 0.6
  {
    var inp, out := [0.0, 0.3, 0.7, 1.0], [0.0, 0.6, 0.6, 0.0];
    LinearIsEasing();
    Bounded(progress, inp, out, Linear, Clamp, Clamp, 0.0, 0.6);
    if progress <= 0.0 {
      ClampedBelow(progress, inp, out, Linear, Clamp);
    }
    if progress >= 1.0 {
      ClampedAbove(progress, inp, out, Linear, Clamp);
    }
    if 0.3 <= progress <= 0.7 {
      OnSegment(progress, inp, out, Linear, Clamp, Clamp, 1);
    }
  }

  /** The lines run on the scene frame, not on the cycle position: in every ramp after the
      first, each line has long finished its run and is fully transparent. */
  lemma LinesSpentAfterFirstRamp(frame: nat, k: nat, ease: real -> real)
    requires IsEasing(ease) && IsSpeedRamp(frame) && frame >= RampPeriod
    requires k < |LinesShown(frame)|
    ensures LineProgress(frame, LinesShown(frame)[k].delay, ease) == 1.0
    ensures LineOpacity(LineProgress(frame, LinesShown(frame)[k].delay, ease)) == 0.0
  {
    var l := LinesShown(frame)[k];
    assert l.delay <= 36;
    assert frame >= 121;
    LineProgressRange(frame, frame, l.delay, ease);
    LineOpacityEnvelope(1.0);
  }

  /** The timestamp splits at its colon into two digit fields, each at least two characters
      wide; they read back as the seconds and the frame within the second, so seconds times
      fps plus frames is the frame. Below 100 fps the frame field is exactly two digits. */
  lemma TimestampReadsBack(frame: nat, fps: nat)
    requires fps > 0
    ensures var s := Timestamp(frame, fps);
            var n := IndexOf(s, ':');
            && 2 <= n && n + 3 <= |s|
            && AllDigits(s[..n]) && AllDigits(s[n + 1..])
            && DigitsValue(s[n + 1..]) < fps
            && DigitsValue(s[..n]) * fps + DigitsValue(s[n + 1..]) == frame
            && (fps <= 100 ==> |s| == n + 3)
  {
    var q, r := frame / fps, frame % fps;
    assert q * fps + r == frame && r < fps;
    var secs := PadStart(NatToString(q), 2, '0');
    var frames := PadStart(NatToString(r), 2, '0');
    PaddedReadsBack(q, 2);
    PaddedReadsBack(r, 2);
    FieldsSplit(secs, frames);
    var s := Timestamp(frame, fps);
    assert s == secs + ":" + frames;
    var n := IndexOf(s, ':');
    assert s[..n] == secs && s[n + 1..] == frames;
    assert DigitsValue(s[..n]) * fps + DigitsValue(s[n + 1..]) == frame;
    if fps <= 100 {
      assert Pow10(2) == 100;
      PaddedWidth(r, 2);
    }
  }

  /** Two digit fields of at least two characters joined by a colon split back at it. */
  lemma FieldsSplit(secs: string, frames: string)
    requires AllDigits(secs) && |secs| >= 2 && |frames| >= 2
    ensures var s := secs + ":" + frames;
            var n := IndexOf(s, ':');
            && n == |secs| && |s| == n + 1 + |frames|
            && s[..n] == secs && s[n + 1..] == frames
  {
    SplitAfterDigits(secs, ':', frames);
  }

  /** The video fades in linearly from silence to 0.7 over its first 15 frames, then holds. */
  lemma VideoVolumeFadeIn(f: nat)
    ensures f <= 15 ==> VideoVolume(f) == 0.7 * (f as real) / 15.0
    ensures f >= 15 ==> VideoVolume(f) == 0.7
    ensures 0.0 <= VideoVolume(f) <= 0.7
  {
    if f <= 15 {
      TwoPointLine(f as real, 0.0, 15.0, 0.0, 0.7, Extend, Clamp);
    } else {
      ClampedAbove(f as real, [0.0, 15.0], [0.0, 0.7], Linear, Extend);
    }
  }

  /** The label shows its spring value as its opacity, and the divider is 200 pixels times
      its own spring value. */
  lemma LabelAndDivider(labelProgress: real, dividerSpring: real)
    ensures LabelOpacity(labelProgress) == labelProgress
    ensures DividerWidth(dividerSpring) == 200.0 * dividerSpring
  {
    TwoPointLine(labelProgress, 0.0, 1.0, 0.0, 1.0, Extend, Extend);
    TwoPointLine(dividerSpring, 0.0, 1.0, 0.0, 200.0, Extend, Extend);
  }
}
