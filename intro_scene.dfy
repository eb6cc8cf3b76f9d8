/** The Intro scene: a slow zoom out of the video, a white flash and a chromatic aberration
    burst around the impact at frame 25-30, a scan line sweeping down over the first three
    seconds, and a title whose position, opacity and corner brackets follow one spring. */
module IntroScene {
  import opened Interpolation

  /** Scale of the video layer, from the zoom spring: 1.4 at rest, 1.05 when settled. */
  function VideoScale(zoomProgress: real): real {
    Interpolate(zoomProgress, [0.0, 1.0], [1.4, 1.05], Linear, Extend, Extend)
  }

  /** Opacity of the white flash: up from 0 at frame 25 to 0.9 at 30, back to 0 at 40. */
  function FlashOpacity(frame: nat): real {
    Interpolate(frame as real, [25.0, 30.0, 40.0], [0.0, 0.9, 0.0], Linear, Clamp, Clamp)
  }

  /** Title offset below its place, in pixels, from the title spring. */
  function TitleY(titleIn: real): real {
    Interpolate(titleIn, [0.0, 1.0], [60.0, 0.0], Linear, Extend, Extend)
  }

  function TitleOpacity(titleIn: real): real {
    Interpolate(titleIn, [0.0, 1.0], [0.0, 1.0], Linear, Extend, Extend)
  }

  function SubtitleOpacity(subIn: real): real {
    Interpolate(subIn, [0.0, 1.0], [0.0, 1.0], Linear, Extend, Extend)
  }

  /** Top of the scan line: from 20 pixels above the frame at frame 0 to 20 below it at 90,
      where it stays. */
  function ScanY(frame: nat, height: real): real {
    Interpolate(frame as real, [0.0, 90.0], [-20.0, height + 20.0], Linear, Extend, Clamp)
  }

  /** Horizontal offset of the red and blue aberration layers, in pixels. */
  function ChromaIntensity(frame: nat): real {
    Interpolate(frame as real, [25.0, 32.0, 50.0], [0.0, 8.0, 0.0], Linear, Clamp, Clamp)
  }

  /** The two aberration layers are mounted only while the offset exceeds half a pixel. */
  predicate ChromaShown(frame: nat) {
    ChromaIntensity(frame) > 0.5
  }

  /** The corner brackets are mounted only once the title is more than half opaque. */
  predicate BracketsShown(titleIn: real) {
    TitleOpacity(titleIn) > 0.5
  }

  // ---------------------------------------------------------------------------
  // Properties

  /** The video shrinks linearly with the zoom spring, from 1.4 to 1.05. */
  lemma ZoomLine(zoomProgress: real)
    ensures VideoScale(zoomProgress) == 1.4 - 0.35 * zoomProgress
    ensures VideoScale(0.0) == 1.4 && VideoScale(1.0) == 1.05
  {
    TwoPointLine(zoomProgress, 0.0, 1.0, 1.4, 1.05, Extend, Extend);
    TwoPointLine(0.0, 0.0, 1.0, 1.4, 1.05, Extend, Extend);
    TwoPointLine(1.0, 0.0, 1.0, 1.4, 1.05, Extend, Extend);
  }

  /** The flash stays within [0, 0.9], is visible exactly on frames 26 to 39, and is at full
      strength only at frame 30. */
  lemma FlashEnvelope(frame: nat)
    ensures 0.0 <= FlashOpacity(frame) <= 0.9
    ensures FlashOpacity(frame) > 0.0 <==> 25 < frame < 40
    ensures FlashOpacity(frame) == 0.9 <==> frame == 30
  {
    Triangle(frame as real, 25.0, 30.0, 40.0, 0.9);
  }

  /** Whatever the spring value, the title sits 60 pixels low times what is still transparent
      of it, and the subtitle's opacity is its own spring value. */
  lemma TitleRisesWithOpacity(titleIn: real, subIn: real)
    ensures TitleOpacity(titleIn) == titleIn
    ensures TitleY(titleIn) == 60.0 * (1.0 - TitleOpacity(titleIn))
    ensures SubtitleOpacity(subIn) == subIn
  {
    TwoPointLine(titleIn, 0.0, 1.0, 0.0, 1.0, Extend, Extend);
    TwoPointLine(titleIn, 0.0, 1.0, 60.0, 0.0, Extend, Extend);
    TwoPointLine(subIn, 0.0, 1.0, 0.0, 1.0, Extend, Extend);
  }

  /** The brackets appear exactly when the title spring has passed the half-way point. */
  lemma BracketsFollowTitle(titleIn: real)
    ensures BracketsShown(titleIn) <==> titleIn > 0.5
  {
    TitleRisesWithOpacity(titleIn, 0.0);
  }

  /** The scan line starts 20 pixels above the frame, moves linearly to 20 pixels below it by
      frame 90 and stays there; it never moves up again. */
  lemma ScanSweep(frame: nat, later: nat, height: real)
    requires height >= 0.0 && frame <= later
    ensures frame <= 90 ==> ScanY(frame, height) == -20.0 + (frame as real) / 90.0 * (height + 40.0)
    ensures frame >= 90 ==> ScanY(frame, height) == height + 20.0
    ensures ScanY(frame, height) <= ScanY(later, height)
  {
    var inp, out := [0.0, 90.0], [-20.0, height + 20.0];
    if frame <= 90 {
      TwoPointLine(frame as real, 0.0, 90.0, -20.0, height + 20.0, Extend, Clamp);
    } else {
      ClampedAbove(frame as real, inp, out, Linear, Extend);
    }
    LinearIsEasing();
    Monotone(frame as real, later as real, inp, out, Linear, Extend, Clamp);
  }

  /** The aberration offset stays within [0, 8], is non-zero exactly strictly between frames
      25 and 50, and peaks at 8 only at frame 32. */
  lemma ChromaEnvelope(frame: nat)
    ensures 0.0 <= ChromaIntensity(frame) <= 8.0
    ensures ChromaIntensity(frame) > 0.0 <==> 25 < frame < 50
    ensures ChromaIntensity(frame) == 8.0 <==> frame == 32
  {
    Triangle(frame as real, 25.0, 32.0, 50.0, 8.0);
  }

  /** On whole frames the aberration layers are mounted exactly from frame 26 to frame 48. */
  lemma ChromaShownWindow(frame: nat)
    ensures ChromaShown(frame) <==> 26 <= frame <= 48
  {
    var inp, out := [25.0, 32.0, 50.0], [0.0, 8.0, 0.0];
    var x := frame as real;
    if frame <= 25 {
      ClampedBelow(x, inp, out, Linear, Clamp);
    } else if frame >= 50 {
      ClampedAbove(x, inp, out, Linear, Clamp);
    } else if frame <= 32 {
      OnSegment(x, inp, out, Linear, Clamp, Clamp, 0);
      assert ChromaIntensity(frame) == (x - 25.0) / 7.0 * 8.0;
    } else {
      OnSegment(x, inp, out, Linear, Clamp, Clamp, 1);
      assert ChromaIntensity(frame) == (x - 32.0) / 18.0 * (0.0 - 8.0) + 8.0;
    }
  }
}
