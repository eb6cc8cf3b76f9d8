/** The Outro scene: the video plays with a slight drift until 60 frames before the scene's
    end, then switches off like a CRT (it squeezes to a line, then to a glowing dot, while
    flaring in brightness), a REPLAY caption fades in, and the audio gains fade around it.
    `duration` is the scene's `durationInFrames`. */
module OutroScene {
  import opened Interpolation
  import opened Timeline

  function ShutdownStart(duration: int): int {
    duration - 60
  }

  predicate IsShuttingDown(frame: nat, duration: int) {
    frame >= ShutdownStart(duration)
  }

  /** Breakpoints of the shutdown curve, anchored at the shutdown start. */
  function ShutdownFrames(duration: int): seq<real> {
    var s := ShutdownStart(duration) as real;
    [s, s + 20.0, s + 40.0, s + 55.0]
  }

  const ShutdownLevels: seq<real> := [0.0, 0.7, 0.95, 1.0]

  /** How far the shutdown has gone, 0 before it starts; `ease` is the cubic ease-in. */
  function ShutdownProgress(frame: nat, duration: int, ease: real -> real): real {
    if IsShuttingDown(frame, duration) then
      Interpolate(frame as real, ShutdownFrames(duration), ShutdownLevels, ease, Clamp, Clamp)
    else 0.0
  }

  /** Vertical squeeze of the picture at a given shutdown progress. */
  function ScaleY(p: real): real {
    Interpolate(p, [0.0, 0.7, 1.0], [1.0, 0.01, 0.0], Linear, Extend, Extend)
  }

  /** Horizontal squeeze: none for the first half of the shutdown, then down to a dot. */
  function ScaleX(p: real): real {
    Interpolate(p, [0.0, 0.5, 0.9, 1.0], [1.0, 1.0, 0.3, 0.0], Linear, Extend, Extend)
  }

  /** Brightness multiplier: flares to 3 before going dark. */
  function Brightness(p: real): real {
    Interpolate(p, [0.0, 0.3, 0.7, 1.0], [1.0, 2.5, 3.0, 0.0], Linear, Extend, Extend)
  }

  /** Opacity of the glowing dot that remains once the picture has collapsed. */
  function DotGlow(p: real): real {
    Interpolate(p, [0.85, 0.95, 1.0], [0.0, 1.0, 0.0], Linear, Clamp, Clamp)
  }

  /** The picture's CRT treatment at one frame. */
  datatype Crt = Crt(progress: real, scaleX: real, scaleY: real, brightness: real, dotGlow: real)

  function CrtAt(frame: nat, duration: int, ease: real -> real): Crt {
    if IsShuttingDown(frame, duration) then
      var p := ShutdownProgress(frame, duration, ease);
      Crt(p, ScaleX(p), ScaleY(p), Brightness(p), DotGlow(p))
    else Crt(0.0, 1.0, 1.0, 1.0, 0.0)
  }

  /** The REPLAY caption fades in over frames 45 to 55 of the shutdown. */
  function ReplayOpacity(frame: nat, duration: int): real {
    var s := ShutdownStart(duration) as real;
    Interpolate(frame as real, [s + 45.0, s + 55.0], [0.0, 1.0], Linear, Clamp, Clamp)
  }

  /** The video's gain at its own frame f: the lower of a 15-frame fade-in to 0.7 and a fade
      from 0.7 to silence between 90 and 30 frames before the end. */
  function FadeIn(f: nat): real {
    Interpolate(f as real, [0.0, 15.0], [0.0, 0.7], Linear, Extend, Clamp)
  }

  function FadeOut(f: nat, duration: int): real {
    Interpolate(f as real, [(duration - 90) as real, (duration - 30) as real], [0.7, 0.0], Linear, Clamp, Clamp)
  }

  function VideoVolume(f: nat, duration: int): real {
    var a, b := FadeIn(f), FadeOut(f, duration);
    if a <= b then a else b
  }

  /** The drone's gain: up to 0.15 over the first second, held, and down to silence over the
      last 60 frames. The library rejects the breakpoints unless the scene is over 90 frames. */
  function DroneVolume(f: nat, duration: int): real
    requires duration > 90
  {
    Interpolate(f as real, [0.0, 30.0, (duration - 60) as real, duration as real], [0.0, 0.15, 0.15, 0.0],
                Linear, Extend, Clamp)
  }

  /** Zoom and horizontal shift of the drifting video, from the frame's sine values. */
  function Drift(sinScale: real, sinX: real): (r: (real, real))
    requires -1.0 <= sinScale <= 1.0 && -1.0 <= sinX <= 1.0
    ensures 1.01 <= r.0 <= 1.05 && -10.0 <= r.1 <= 10.0
  {
    (1.03 + sinScale * 0.02, sinX * 10.0)
  }

  // ---------------------------------------------------------------------------
  // Properties

  lemma ShutdownFramesIncreasing(duration: int)
    ensures |ShutdownFrames(duration)| == |ShutdownLevels| == 4
    ensures Increasing(ShutdownFrames(duration)) && NonDecreasing(ShutdownLevels)
  {
  }

  /** The `isShuttingDown` guard changes nothing: with the left side clamped, the curve is 0
      before the shutdown anyway. */
  lemma GuardRedundant(frame: nat, duration: int, ease: real -> real)
    requires ease(0.0) == 0.0
    ensures ShutdownProgress(frame, duration, ease)
            == Interpolate(frame as real, ShutdownFrames(duration), ShutdownLevels, ease, Clamp, Clamp)
  {
    if !IsShuttingDown(frame, duration) {
      ClampedBelow(frame as real, ShutdownFrames(duration), ShutdownLevels, ease, Clamp);
    }
  }

  /** The shutdown progress stays in [0,1], is 0 at the shutdown start, reaches 1 at 55
      frames in and stays there, and never goes back. */
  lemma ShutdownEnvelope(frame: nat, later: nat, duration: int, ease: real -> real)
    requires IsEasing(ease) && frame <= later
    ensures 0.0 <= ShutdownProgress(frame, duration, ease) <= 1.0
    ensures frame == ShutdownStart(duration) ==> ShutdownProgress(frame, duration, ease) == 0.0
    ensures frame >= ShutdownStart(duration) + 55 ==> ShutdownProgress(frame, duration, ease) == 1.0
    ensures ShutdownProgress(frame, duration, ease) <= ShutdownProgress(later, duration, ease)
  {
    var inp, out := ShutdownFrames(duration), ShutdownLevels;
    ShutdownFramesIncreasing(duration);
    var x, z := frame as real, later as real;
    GuardRedundant(frame, duration, ease);
    GuardRedundant(later, duration, ease);
    Bounded(x, inp, out, ease, Clamp, Clamp, 0.0, 1.0);
    if frame == ShutdownStart(duration) {
      AtBreakpoint(inp, out, ease, Clamp, Clamp, 0);
    }
    if frame >= ShutdownStart(duration) + 55 {
      ClampedAbove(x, inp, out, ease, Clamp);
    }
    Monotone(x, z, inp, out, ease, Clamp, Clamp);
  }

  /** Before the shutdown, and at its first frame, the picture is untouched: full size,
      normal brightness, no dot. */
  lemma CrtAtRest(frame: nat, duration: int, ease: real -> real)
    requires IsEasing(ease) && frame <= ShutdownStart(duration)
    ensures CrtAt(frame, duration, ease) == Crt(0.0, 1.0, 1.0, 1.0, 0.0)
  {
    if IsShuttingDown(frame, duration) {
      ShutdownEnvelope(frame, frame, duration, ease);
      AtBreakpoint([0.0, 0.5, 0.9, 1.0], [1.0, 1.0, 0.3, 0.0], Linear, Extend, Extend, 0);
      AtBreakpoint([0.0, 0.7, 1.0], [1.0, 0.01, 0.0], Linear, Extend, Extend, 0);
      AtBreakpoint([0.0, 0.3, 0.7, 1.0], [1.0, 2.5, 3.0, 0.0], Linear, Extend, Extend, 0);
      ClampedBelow(0.0, [0.85, 0.95, 1.0], [0.0, 1.0, 0.0], Linear, Clamp);
    }
  }

  /** From 55 frames into the shutdown the picture has collapsed completely: no width, no
      height, no brightness and no dot. */
  lemma CrtOff(frame: nat, duration: int, ease: real -> real)
    requires IsEasing(ease) && frame >= ShutdownStart(duration) + 55
    ensures CrtAt(frame, duration, ease) == Crt(1.0, 0.0, 0.0, 0.0, 0.0)
  {
    ShutdownEnvelope(frame, frame, duration, ease);
    AtBreakpoint([0.0, 0.5, 0.9, 1.0], [1.0, 1.0, 0.3, 0.0], Linear, Extend, Extend, 3);
    AtBreakpoint([0.0, 0.7, 1.0], [1.0, 0.01, 0.0], Linear, Extend, Extend, 2);
    AtBreakpoint([0.0, 0.3, 0.7, 1.0], [1.0, 2.5, 3.0, 0.0], Linear, Extend, Extend, 3);
    ClampedAbove(1.0, [0.85, 0.95, 1.0], [0.0, 1.0, 0.0], Linear, Clamp);
  }

  /** During the shutdown the squeeze factors stay in [0,1] and the brightness in [0,3]; the
      width is untouched for the first half of the progress. */
  lemma SqueezeBounds(p: real)
    requires 0.0 <= p <= 1.0
    ensures 0.0 <= ScaleX(p) <= 1.0 && 0.0 <= ScaleY(p) <= 1.0
    ensures 0.0 <= Brightness(p) <= 3.0
    ensures p <= 0.5 ==> ScaleX(p) == 1.0
  {
    LinearIsEasing();
    Bounded(p, [0.0, 0.5, 0.9, 1.0], [1.0, 1.0, 0.3, 0.0], Linear, Extend, Extend, 0.0, 1.0);
    Bounded(p, [0.0, 0.7, 1.0], [1.0, 0.01, 0.0], Linear, Extend, Extend, 0.0, 1.0);
    Bounded(p, [0.0, 0.3, 0.7, 1.0], [1.0, 2.5, 3.0, 0.0], Linear, Extend, Extend, 0.0, 3.0);
    if p <= 0.5 {
      OnSegment(p, [0.0, 0.5, 0.9, 1.0], [1.0, 1.0, 0.3, 0.0], Linear, Extend, Extend, 0);
    }
  }

  /** The dot glows in [0,1], only strictly between progress 0.85 and 1, fully only at 0.95. */
  lemma DotGlowEnvelope(p: real)
    ensures 0.0 <= DotGlow(p) <= 1.0
    ensures DotGlow(p) > 0.0 <==> 0.85 < p < 1.0
    ensures DotGlow(p) == 1.0 <==> p == 0.95
  {
    Triangle(p, 0.85, 0.95, 1.0, 1.0);
  }

  /** The caption is invisible until 45 frames into the shutdown, fully visible from 55 on,
      and in between never fades back. */
  lemma ReplayFadesIn(frame: nat, later: nat, duration: int)
    requires frame <= later
    ensures 0.0 <= ReplayOpacity(frame, duration) <= 1.0
    ensures frame <= ShutdownStart(duration) + 45 ==> ReplayOpacity(frame, duration) == 0.0
    ensures frame >= ShutdownStart(duration) + 55 ==> ReplayOpacity(frame, duration) == 1.0
    ensures ReplayOpacity(frame, duration) <= ReplayOpacity(later, duration)
  {
    var s := ShutdownStart(duration) as real;
    var inp, out := [s + 45.0, s + 55.0], [0.0, 1.0];
    LinearIsEasing();
    Bounded(frame as real, inp, out, Linear, Clamp, Clamp, 0.0, 1.0);
    if frame <= ShutdownStart(duration) + 45 {
      ClampedBelow(frame as real, inp, out, Linear, Clamp);
    }
    if frame >= ShutdownStart(duration) + 55 {
      ClampedAbove(frame as real, inp, out, Linear, Clamp);
    }
    Monotone(frame as real, later as real, inp, out, Linear, Clamp, Clamp);
  }

  /** The video never plays louder than 0.7, starts silent, is silent for its last 30
      frames, and in a scene of at least 105 frames holds 0.7 from frame 15 until 90 frames
      before the end. */
  lemma VideoVolumeEnvelope(f: nat, duration: int)
    ensures 0.0 <= VideoVolume(f, duration) <= 0.7
    ensures f == 0 ==> VideoVolume(f, duration) == 0.0
    ensures f >= duration - 30 ==> VideoVolume(f, duration) == 0.0
    ensures 15 <= f <= duration - 90 ==> VideoVolume(f, duration) == 0.7
  {
    var x := f as real;
    var inp := [(duration - 90) as real, (duration - 30) as real];
    LinearIsEasing();
    Bounded(x, inp, [0.7, 0.0], Linear, Clamp, Clamp, 0.0, 0.7);
    if f <= 15 {
      TwoPointLine(x, 0.0, 15.0, 0.0, 0.7, Extend, Clamp);
    } else {
      ClampedAbove(x, [0.0, 15.0], [0.0, 0.7], Linear, Extend);
    }
    if f >= duration - 30 {
      ClampedAbove(x, inp, [0.7, 0.0], Linear, Clamp);
    }
    if f <= duration - 90 {
      ClampedBelow(x, inp, [0.7, 0.0], Linear, Clamp);
    }
  }

  /** Over the scene the drone stays in [0, 0.15], starts silent, holds 0.15 from frame 30
      until 60 frames before the end, and is silent from the end on. */
  lemma DroneEnvelope(f: nat, duration: int)
    requires duration > 90
    ensures f <= duration ==> 0.0 <= DroneVolume(f, duration) <= 0.15
    ensures f == 0 ==> DroneVolume(f, duration) == 0.0
    ensures 30 <= f <= duration - 60 ==> DroneVolume(f, duration) == 0.15
    ensures f >= duration ==> DroneVolume(f, duration) == 0.0
  {
    var inp, out := [0.0, 30.0, (duration - 60) as real, duration as real], [0.0, 0.15, 0.15, 0.0];
    var x := f as real;
    LinearIsEasing();
    if f <= duration {
      Bounded(x, inp, out, Linear, Extend, Clamp, 0.0, 0.15);
    }
    if f == 0 {
      AtBreakpoint(inp, out, Linear, Extend, Clamp, 0);
    }
    if 30 <= f <= duration - 60 {
      OnSegment(x, inp, out, Linear, Extend, Clamp, 1);
    }
    if f >= duration {
      ClampedAbove(x, inp, out, Linear, Extend);
    }
  }

  /** In the main edit the Outro runs 180 frames, so its shutdown starts at global frame 501:
      from there to the last frame the Outro is on screen alone and shutting down, and from
      global frame 556 the screen is dark. */
  lemma MainShutdown(f: int, ease: real -> real)
    requires IsEasing(ease) && 501 <= f < 561
    ensures Resolve(Main, f) == Single(3, f - 381)
    ensures IsShuttingDown(f - 381, Main.scenes[3])
    ensures f >= 556 ==> CrtAt(f - 381, Main.scenes[3], ease) == Crt(1.0, 0.0, 0.0, 0.0, 0.0)
  {
    MainWellFormed();
    MainStarts();
    ResolveSolo(Main, 3, f);
    if f >= 556 {
      CrtOff(f - 381, Main.scenes[3], ease);
    }
  }
}
