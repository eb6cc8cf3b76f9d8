/** The Glitch scene: frames are grouped into 4-frame phases, and seeded random draws keyed
    by the phase decide whether the phase glitches, how strongly, which of the eight
    horizontal slices are displaced and by how much. Decorative floating lines take static
    properties from their own seeds. */
module GlitchScene {
  import opened Interpolation
  import opened Format

  /** The library's seeded `random(seed)`: any function into [0, 1). */
  ghost predicate RandomInRange(rnd: string -> real) {
    forall s :: 0.0 <= rnd(s) < 1.0
  }

  const PhaseLength: nat := 4
  const NumSlices: nat := 8
  const SliceHeight: real := 100.0 / 8.0

  // ---------------------------------------------------------------------------
  // Seed keys

  function GlitchKey(phase: nat): string { "glitch-" + NatToString(phase) }
  function IntensityKey(phase: nat): string { "glitch-i-" + NatToString(phase) }
  function SliceKey(phase: nat, i: nat): string { "slice-" + NatToString(phase) + "-" + NatToString(i) }
  function DisplaceKey(phase: nat, i: nat): string { "disp-x-" + NatToString(phase) + "-" + NatToString(i) }
  function HueKey(phase: nat, i: nat): string { "hue-" + NatToString(phase) + "-" + NatToString(i) }

  // ---------------------------------------------------------------------------
  // Per-phase glitch state

  /** One displaced horizontal band: inset from the top and bottom, in percent of the frame
      height, a horizontal shift in pixels and a hue rotation in degrees. */
  datatype Slice = Slice(top: real, bottom: real, displaceX: real, hueRotate: real)

  /** Everything the scene derives from the frame's phase before drawing. */
  datatype GlitchState = GlitchState(
    phase: nat,
    glitching: bool,
    intensity: real,
    rgbSplit: real,
    hueShift: real,
    rgbOverlays: bool,
    /** one entry per slice index, None where the slice is skipped; empty when not glitching */
    slices: seq<Option<Slice>>)

  function Phase(frame: nat): nat {
    frame / PhaseLength
  }

  function SliceTop(i: nat): real {
    i as real * SliceHeight
  }

  function SliceBottom(i: nat): real {
    100.0 - (i + 1) as real * SliceHeight
  }

  function SliceAt(rnd: string -> real, phase: nat, intensity: real, i: nat): Option<Slice> {
    if rnd(SliceKey(phase, i)) > 0.4 then None
    else Some(Slice(
      SliceTop(i),
      SliceBottom(i),
      (rnd(DisplaceKey(phase, i)) - 0.5) * 80.0 * intensity,
      rnd(HueKey(phase, i)) * 60.0 - 30.0))
  }

  function GlitchAt(rnd: string -> real, frame: nat): (g: GlitchState)
    requires RandomInRange(rnd)
    ensures g.phase == frame / 4
    ensures g.glitching <==> rnd(GlitchKey(g.phase)) > 0.7
    ensures !g.glitching ==> g.intensity == 0.0 && g.rgbSplit == 0.0 && g.hueShift == 0.0
    ensures !g.glitching ==> !g.rgbOverlays && g.slices == []
    ensures g.glitching ==> 0.0 <= g.intensity < 0.8 && |g.slices| == NumSlices
    ensures 0.0 <= g.rgbSplit < 9.6 && 0.0 <= g.hueShift < 32.0
    ensures g.rgbOverlays <==> g.rgbSplit > 1.0
  {
    var phase := Phase(frame);
    var glitching := rnd(GlitchKey(phase)) > 0.7;
    var intensity := if glitching then rnd(IntensityKey(phase)) * 0.8 else 0.0;
    var rgbSplit := intensity * 12.0;
    var hueShift := intensity * 40.0;
    var slices := if glitching then seq(NumSlices, i requires 0 <= i < NumSlices => SliceAt(rnd, phase, intensity, i))
                  else [];
    GlitchState(phase, glitching, intensity, rgbSplit, hueShift, rgbSplit > 1.0, slices)
  }

  /** Slice i is drawn at this frame. */
  predicate Drawn(g: GlitchState, i: nat) {
    i < |g.slices| && g.slices[i].Some?
  }

  // ---------------------------------------------------------------------------
  // Floating lines

  /** A floating line's seeded placement: base height in pixels, length in pixels, and
      left offset in percent of the frame width. It takes no frame: it never changes. */
  datatype LinePlacement = LinePlacement(baseY: real, width: real, leftPercent: real)

  function FloatingLine(rnd: string -> real, seed: string, height: real): (l: LinePlacement)
    requires RandomInRange(rnd)
    ensures height > 0.0 ==> 0.0 <= l.baseY < height
    ensures 200.0 <= l.width < 800.0
    ensures 0.0 <= l.leftPercent < 60.0
  {
    var r := rnd(seed);
    assert height > 0.0 ==> r * height < 1.0 * height;
    LinePlacement(r * height, 200.0 + rnd(seed + "w") * 600.0, rnd(seed + "x") * 60.0)
  }

  /** The line's height and opacity at one frame, given the two sine values of that frame. */
  function FloatingLineDrift(baseY: real, sinY: real, sinOpacity: real): (r: (real, real))
    requires -1.0 <= sinY <= 1.0 && -1.0 <= sinOpacity <= 1.0
    ensures baseY - 40.0 <= r.0 <= baseY + 40.0
    ensures 0.05 <= r.1 <= 0.25
  {
    (baseY + sinY * 40.0, 0.15 + sinOpacity * 0.1)
  }

  // ---------------------------------------------------------------------------
  // Label, counter and audio

  /** Label opacity and horizontal offset, both from the same spring value. */
  function LabelOpacity(labelIn: real): real {
    Interpolate(labelIn, [0.0, 1.0], [0.0, 1.0], Linear, Extend, Extend)
  }

  function LabelX(labelIn: real): real {
    Interpolate(labelIn, [0.0, 1.0], [-40.0, 0.0], Linear, Extend, Extend)
  }

  /** Width of the accent bar above the label, in pixels, from its own spring value. */
  function AccentBarWidth(barIn: real): real {
    Interpolate(barIn, [0.0, 1.0], [0.0, 60.0], Linear, Extend, Extend)
  }

  /** Zoom and shift of the drifting base video, from the frame's sine and cosine values. */
  function Drift(sinScale: real, sinX: real, cosY: real): (r: (real, real, real))
    requires -1.0 <= sinScale <= 1.0 && -1.0 <= sinX <= 1.0 && -1.0 <= cosY <= 1.0
    ensures 1.005 <= r.0 <= 1.035 && -8.0 <= r.1 <= 8.0 && -5.0 <= r.2 <= 5.0
  {
    (1.02 + sinScale * 0.015, sinX * 8.0, cosY * 5.0)
  }

  /** The bottom-right counter: frame padded to 4 digits, " / ", fps padded to 2, "fps". */
  function FrameCounter(frame: nat, fps: nat): string {
    PadStart(NatToString(frame), 4, '0') + " / " + PadStart(NatToString(fps), 2, '0') + "fps"
  }

  /** Gain of the base video at its own frame f. */
  function VideoVolume(f: nat): real {
    Interpolate(f as real, [0.0, 15.0], [0.0, 0.8], Linear, Extend, Clamp)
  }

  // ---------------------------------------------------------------------------
  // Properties

  /** The four frames of a phase share every glitch decision. */
  lemma PhaseShared(rnd: string -> real, phase: nat, j: nat)
    requires RandomInRange(rnd) && j < PhaseLength
    ensures GlitchAt(rnd, PhaseLength * phase + j) == GlitchAt(rnd, PhaseLength * phase)
    ensures GlitchAt(rnd, PhaseLength * phase).phase == phase
  {
    assert (4 * phase + j) / 4 == phase;
    assert (4 * phase) / 4 == phase;
  }

  /** Slice i is drawn exactly when the phase glitches and its own draw is at most 0.4. */
  lemma DrawnIff(rnd: string -> real, frame: nat, i: nat)
    requires RandomInRange(rnd) && i < NumSlices
    ensures var g := GlitchAt(rnd, frame);
            Drawn(g, i) <==> g.glitching && rnd(SliceKey(g.phase, i)) <= 0.4
  {
    var g := GlitchAt(rnd, frame);
    if g.glitching {
      assert g.slices[i] == SliceAt(rnd, g.phase, g.intensity, i);
    }
  }

  lemma ScaledOffset(r: real, k: real)
    requires 0.0 <= r <= 1.0 && 0.0 <= k
    ensures -40.0 * k <= (r - 0.5) * 80.0 * k <= 40.0 * k
  {
    MulNonneg((r - 0.5) * 80.0 + 40.0, k);
    MulNonneg(40.0 - (r - 0.5) * 80.0, k);
  }

  lemma SliceBounds(rnd: string -> real, phase: nat, intensity: real, i: nat)
    requires RandomInRange(rnd) && 0.0 <= intensity < 0.8
    requires SliceAt(rnd, phase, intensity, i).Some?
    ensures var s := SliceAt(rnd, phase, intensity, i).value;
            && s.top == SliceTop(i) && s.bottom == SliceBottom(i)
            && -40.0 * intensity <= s.displaceX <= 40.0 * intensity
            && -32.0 < s.displaceX < 32.0
            && -30.0 <= s.hueRotate < 30.0
  {
    var r := rnd(DisplaceKey(phase, i));
    assert 0.0 <= r < 1.0 && 0.0 <= rnd(HueKey(phase, i)) < 1.0;
    ScaledOffset(r, intensity);
  }

  /** A drawn slice keeps its band, shifts by at most 40 times the intensity (under 32 pixels)
      and turns its hue by less than 30 degrees either way. */
  lemma DrawnSliceBounds(rnd: string -> real, frame: nat, i: nat)
    requires RandomInRange(rnd)
    requires Drawn(GlitchAt(rnd, frame), i)
    ensures var g := GlitchAt(rnd, frame);
            var s := g.slices[i].value;
            && s.top == SliceTop(i) && s.bottom == SliceBottom(i)
            && -40.0 * g.intensity <= s.displaceX <= 40.0 * g.intensity
            && -32.0 < s.displaceX < 32.0
            && -30.0 <= s.hueRotate < 30.0
  {
    var g := GlitchAt(rnd, frame);
    assert g.slices[i] == SliceAt(rnd, g.phase, g.intensity, i);
    SliceBounds(rnd, g.phase, g.intensity, i);
  }

  /** The eight bands tile the frame from top to bottom: each is 12.5% high, the first
      touches the top, the last touches the bottom, and each begins where the previous ends. */
  lemma SlicesTile(i: nat)
    requires i < NumSlices
    ensures SliceTop(i) + SliceHeight + SliceBottom(i) == 100.0
    ensures SliceTop(0) == 0.0 && SliceBottom(NumSlices - 1) == 0.0
    ensures i + 1 < NumSlices ==> SliceTop(i + 1) == 100.0 - SliceBottom(i)
  {
  }

  /** Every height of the frame lies in exactly one band. */
  lemma SlicesCover(y: real)
    requires 0.0 <= y < 100.0
    ensures exists i :: 0 <= i < NumSlices && SliceTop(i) <= y < 100.0 - SliceBottom(i)
    ensures forall i, j :: 0 <= i < j < NumSlices ==> 100.0 - SliceBottom(i) <= SliceTop(j)
  {
    var k := (y / SliceHeight).Floor;
    assert 0 <= k < NumSlices;
    assert SliceTop(k) <= y < 100.0 - SliceBottom(k);
  }

  /** The colour-split overlays appear only in a glitching phase with intensity above 1/12. */
  lemma OverlaysNeedGlitch(rnd: string -> real, frame: nat)
    requires RandomInRange(rnd)
    ensures var g := GlitchAt(rnd, frame);
            g.rgbOverlays <==> g.glitching && g.intensity > 1.0 / 12.0
  {
  }

  /** A phase's glitch and intensity keys never collide, with each other or across phases. */
  lemma PhaseKeysDistinct(p: nat, q: nat)
    ensures GlitchKey(p) == GlitchKey(q) ==> p == q
    ensures IntensityKey(p) == IntensityKey(q) ==> p == q
    ensures GlitchKey(p) != IntensityKey(q)
  {
    var sp, sq := NatToString(p), NatToString(q);
    if GlitchKey(p) == GlitchKey(q) {
      assert sp == GlitchKey(p)[7..] == GlitchKey(q)[7..] == sq;
      NatToStringInjective(p, q);
    }
    if IntensityKey(p) == IntensityKey(q) {
      assert sp == IntensityKey(p)[9..] == IntensityKey(q)[9..] == sq;
      NatToStringInjective(p, q);
    }
    assert IsDigit(GlitchKey(p)[7]);
    assert IntensityKey(q)[7] == 'i';
  }

  lemma PrefixCancel(prefix: string, x: string, y: string)
    requires prefix + x == prefix + y
    ensures x == y
  {
    assert x == (prefix + x)[|prefix|..];
    assert y == (prefix + y)[|prefix|..];
  }

  lemma KeyParts(prefix: string, a: string, b: string)
    ensures prefix + a + "-" + b == prefix + (a + ['-'] + b)
  {
  }

  /** A key of the form prefix + phase + "-" + index names one phase and one index. */
  lemma IndexedKeyInjective(prefix: string, p: nat, q: nat, i: nat, j: nat)
    requires prefix + NatToString(p) + "-" + NatToString(i) == prefix + NatToString(q) + "-" + NatToString(j)
    ensures p == q && i == j
  {
    var sp, sq, si, sj := NatToString(p), NatToString(q), NatToString(i), NatToString(j);
    KeyParts(prefix, sp, si);
    KeyParts(prefix, sq, sj);
    PrefixCancel(prefix, sp + ['-'] + si, sq + ['-'] + sj);
    JoinInjective(sp, si, sq, sj, '-');
    NatToStringInjective(p, q);
    NatToStringInjective(i, j);
  }

  /** The per-slice keys never collide: each names one phase, one slice and one purpose. */
  lemma SliceKeysDistinct(p: nat, q: nat, i: nat, j: nat)
    ensures SliceKey(p, i) == SliceKey(q, j) ==> p == q && i == j
    ensures DisplaceKey(p, i) == DisplaceKey(q, j) ==> p == q && i == j
    ensures HueKey(p, i) == HueKey(q, j) ==> p == q && i == j
    ensures SliceKey(p, i) != DisplaceKey(q, j) && SliceKey(p, i) != HueKey(q, j)
    ensures DisplaceKey(p, i) != HueKey(q, j)
  {
    if SliceKey(p, i) == SliceKey(q, j) {
      IndexedKeyInjective("slice-", p, q, i, j);
    }
    if DisplaceKey(p, i) == DisplaceKey(q, j) {
      IndexedKeyInjective("disp-x-", p, q, i, j);
    }
    if HueKey(p, i) == HueKey(q, j) {
      IndexedKeyInjective("hue-", p, q, i, j);
    }
    assert SliceKey(p, i)[0] == 's' && DisplaceKey(q, j)[0] == 'd' && HueKey(q, j)[0] == 'h';
    assert DisplaceKey(p, i)[0] == 'd';
  }

  /** The label's opacity is its spring value, it sits 40 pixels left of home times what is
      still transparent of it, and the accent bar is 60 pixels times its own spring value. */
  lemma LabelSlidesWithOpacity(labelIn: real, barIn: real)
    ensures LabelOpacity(labelIn) == labelIn
    ensures LabelX(labelIn) == 40.0 * (LabelOpacity(labelIn) - 1.0)
    ensures AccentBarWidth(barIn) == 60.0 * barIn
  {
    TwoPointLine(labelIn, 0.0, 1.0, 0.0, 1.0, Extend, Extend);
    TwoPointLine(labelIn, 0.0, 1.0, -40.0, 0.0, Extend, Extend);
    TwoPointLine(barIn, 0.0, 1.0, 0.0, 60.0, Extend, Extend);
  }

  /** The counter reads back as the frame number, and below frame 10000 it is exactly four
      digits wide. */
  lemma FrameCounterReadsBack(frame: nat, fps: nat)
    ensures var s := FrameCounter(frame, fps);
            var n := IndexOf(s, ' ');
            && AllDigits(s[..n])
            && DigitsValue(s[..n]) == frame
            && (frame < 10000 ==> n == 4)
  {
    var head := PadStart(NatToString(frame), 4, '0');
    var tail := "/ " + PadStart(NatToString(fps), 2, '0') + "fps";
    PaddedReadsBack(frame, 4);
    assert FrameCounter(frame, fps) == head + [' '] + tail;
    IndexAfterHead(head, ' ', tail);
    assert (head + [' '] + tail)[..|head|] == head;
    if frame < 10000 {
      assert Pow10(4) == 10000;
      PaddedWidth(frame, 4);
    }
  }

  /** The video fades in linearly from silence to 0.8 over its first 15 frames and then holds. */
  lemma VideoVolumeFadeIn(f: nat)
    ensures f <= 15 ==> VideoVolume(f) == 0.8 * (f as real) / 15.0
    ensures f >= 15 ==> VideoVolume(f) == 0.8
    ensures 0.0 <= VideoVolume(f) <= 0.8
  {
    if f <= 15 {
      TwoPointLine(f as real, 0.0, 15.0, 0.0, 0.8, Extend, Clamp);
    } else {
      ClampedAbove(f as real, [0.0, 15.0], [0.0, 0.8], Linear, Extend);
    }
  }
}
