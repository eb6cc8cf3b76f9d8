/** The edit of the main composition: an alternating series of scene sequences and
    linear transitions. Each transition overlaps the last frames of the scene before it
    with the first frames of the scene after it, so the series is shorter than its scenes
    laid end to end by the sum of the transition lengths. */
module Timeline {

  /** One child of the transition series. */
  datatype Entry = Sequence(duration: int) | Transition(duration: int)

  /** The series of the main composition, in order: Intro, glitch wipe, Glitch, white flash,
      Speed, black flash, Outro. */
  const MainEntries: seq<Entry> := [
    Sequence(120), Transition(15), Sequence(150), Transition(12),
    Sequence(150), Transition(12), Sequence(180)
  ]

  /** Scene durations in order, and the transition durations between consecutive scenes. */
  datatype Timeline = Timeline(scenes: seq<int>, transitions: seq<int>)

  /** What the series shows at one frame. */
  datatype Context =
    | Empty
      /** one scene, at its own local frame */
    | Single(scene: nat, local: int)
      /** scene `from` at `fromLocal` passing into scene `from + 1` at `toLocal` */
    | Blend(from: nat, fromLocal: int, toLocal: int, progress: real)

  /** Sequence, then (Transition, Sequence) pairs: it opens and closes on a scene. */
  predicate Alternates(es: seq<Entry>)
    decreases |es|
  {
    && |es| >= 1
    && es[0].Sequence?
    && (|es| == 1 || (|es| >= 3 && es[1].Transition? && Alternates(es[2..])))
  }

  /** The scene durations and the transition durations, each in series order. */
  function Split(es: seq<Entry>): Timeline
  {
    if es == [] then Timeline([], [])
    else
      var rest := Split(es[1..]);
      match es[0]
      case Sequence(d) => Timeline([d] + rest.scenes, rest.transitions)
      case Transition(d) => Timeline(rest.scenes, [d] + rest.transitions)
  }

  /** Frames the series plays: each sequence adds its length, each transition's overlap
      takes its length away again. */
  function SeriesLength(es: seq<Entry>): int
  {
    if es == [] then 0
    else
      (match es[0] case Sequence(d) => d case Transition(d) => -d) + SeriesLength(es[1..])
  }

  function Sum(s: seq<int>): int
  {
    if s == [] then 0 else Sum(s[..|s| - 1]) + s[|s| - 1]
  }

  /** Positive durations, one transition fewer than scenes, no transition longer than either
      scene it joins, and no scene's two transition windows overlapping each other. */
  predicate WellFormed(t: Timeline) {
    && |t.scenes| >= 1
    && |t.transitions| == |t.scenes| - 1
    && (forall k :: 0 <= k < |t.scenes| ==> t.scenes[k] >= 1)
    && (forall k :: 0 <= k < |t.transitions| ==>
          1 <= t.transitions[k] <= t.scenes[k] && t.transitions[k] <= t.scenes[k + 1])
    && (forall k :: 1 <= k < |t.transitions| ==> t.transitions[k - 1] + t.transitions[k] <= t.scenes[k])
  }

  function Total(t: Timeline): int {
    Sum(t.scenes) - Sum(t.transitions)
  }

  /** First frame of scene k: the scenes before it, less the transitions before it. */
  function Start(t: Timeline, k: nat): int
    requires k < |t.scenes| && |t.transitions| == |t.scenes| - 1
  {
    Sum(t.scenes[..k]) - Sum(t.transitions[..k])
  }

  /** Linear timing: the fraction of the window elapsed. */
  function Progress(elapsed: int, duration: int): real
    requires duration > 0
  {
    elapsed as real / duration as real
  }

  lemma StartStep(t: Timeline, k: nat)
    requires k + 1 < |t.scenes| && |t.transitions| == |t.scenes| - 1
    ensures Start(t, k + 1) == Start(t, k) + t.scenes[k] - t.transitions[k]
  {
    assert t.scenes[..k + 1][..k] == t.scenes[..k];
    assert t.transitions[..k + 1][..k] == t.transitions[..k];
  }

  /** Scan the scenes from k: frame f is at or after scene k's start. */
  function ResolveFrom(t: Timeline, k: nat, f: int): (c: Context)
    requires WellFormed(t) && k < |t.scenes| && Start(t, k) <= f
    ensures c.Single? ==> k <= c.scene < |t.scenes| && 0 <= c.local < t.scenes[c.scene]
    ensures c.Blend? ==>
              && k <= c.from < |t.transitions|
              && 0 <= c.toLocal < t.transitions[c.from]
              && c.fromLocal == c.toLocal + t.scenes[c.from] - t.transitions[c.from]
              && c.progress == Progress(c.toLocal, t.transitions[c.from])
    decreases |t.scenes| - k
  {
    var s := Start(t, k);
    var end := s + t.scenes[k];
    if k == |t.scenes| - 1 then
      (if f < end then Single(k, f - s) else Empty)
    else
      StartStep(t, k);
      var next := end - t.transitions[k];
      if f < next then Single(k, f - s)
      else if f < end then Blend(k, f - s, f - next, Progress(f - next, t.transitions[k]))
      else ResolveFrom(t, k + 1, f)
  }

  /** The scene or scenes on screen at global frame f; outside the series nothing is. */
  function Resolve(t: Timeline, f: int): Context
    requires WellFormed(t)
  {
    if f < 0 then Empty else ResolveFrom(t, 0, f)
  }

  /** First frame where scene k is on screen alone. */
  function SoloFrom(t: Timeline, k: nat): int
    requires WellFormed(t) && k < |t.scenes|
  {
    Start(t, k) + (if k == 0 then 0 else t.transitions[k - 1])
  }

  /** First frame after scene k's solo stretch: its outgoing window, or its end. */
  function SoloUntil(t: Timeline, k: nat): int
    requires WellFormed(t) && k < |t.scenes|
  {
    Start(t, k) + t.scenes[k] - (if k == |t.scenes| - 1 then 0 else t.transitions[k])
  }

  // ---------------------------------------------------------------------------
  // Properties

  lemma {:induction false} SumCons(d: int, s: seq<int>)
    ensures Sum([d] + s) == d + Sum(s)
    decreases |s|
  {
    if s != [] {
      var s' := [d] + s;
      assert s'[..|s'| - 1] == [d] + s[..|s| - 1];
      SumCons(d, s[..|s| - 1]);
    }
  }

  /** An alternating series has exactly one transition fewer than scenes. */
  lemma {:induction false} AlternatesCounts(es: seq<Entry>)
    requires Alternates(es)
    ensures |Split(es).transitions| == |Split(es).scenes| - 1
    decreases |es|
  {
    if |es| > 1 {
      AlternatesCounts(es[2..]);
      assert es[1..][1..] == es[2..];
    }
  }

  /** The series length is the scenes' total less the transitions' total. */
  lemma {:induction false} SeriesLengthIsTotal(es: seq<Entry>)
    ensures SeriesLength(es) == Total(Split(es))
    decreases |es|
  {
    if es != [] {
      SeriesLengthIsTotal(es[1..]);
      var rest := Split(es[1..]);
      match es[0]
      case Sequence(d) => SumCons(d, rest.scenes);
      case Transition(d) => SumCons(d, rest.transitions);
    }
  }

  /** Each scene starts where the one before it starts, plus that scene, minus the overlap. */
  lemma {:induction false} StartsNonDecreasing(t: Timeline, j: nat, k: nat)
    requires WellFormed(t) && j <= k < |t.scenes|
    ensures Start(t, j) <= Start(t, k)
    decreases k - j
  {
    if j < k {
      StartStep(t, j);
      StartsNonDecreasing(t, j + 1, k);
    }
  }

  /** The last scene ends exactly on the last frame of the series. */
  lemma LastEndsAtTotal(t: Timeline)
    requires WellFormed(t)
    ensures Start(t, |t.scenes| - 1) + t.scenes[|t.scenes| - 1] == Total(t)
  {
    var n := |t.scenes|;
    assert t.scenes[..n][..n - 1] == t.scenes[..n - 1];
    assert t.scenes[..n] == t.scenes;
    assert t.transitions[..n - 1] == t.transitions;
  }

  /** A scene ends no later than the first solo frame of any later scene. */
  lemma {:induction false} EndBeforeSolo(t: Timeline, j: nat, k: nat)
    requires WellFormed(t) && j < k < |t.scenes|
    ensures Start(t, j) + t.scenes[j] <= SoloFrom(t, k)
    decreases k - j
  {
    StartStep(t, j);
    if j + 1 < k {
      EndBeforeSolo(t, j + 1, k);
      StartStep(t, j + 1);
    }
  }

  /** Frames at or after scene k's solo stretch are never claimed by an earlier scene. */
  lemma {:induction false} SkipTo(t: Timeline, j: nat, k: nat, f: int)
    requires WellFormed(t) && j <= k < |t.scenes| && SoloFrom(t, k) <= f
    ensures Start(t, j) <= f
    ensures ResolveFrom(t, j, f) == ResolveFrom(t, k, f)
    decreases k - j
  {
    StartsNonDecreasing(t, j, k);
    if j < k {
      EndBeforeSolo(t, j, k);
      StartStep(t, j);
      SkipTo(t, j + 1, k, f);
    }
  }

  /** Between its incoming and outgoing windows a scene plays alone at f - Start(k). */
  lemma ResolveSolo(t: Timeline, k: nat, f: int)
    requires WellFormed(t) && k < |t.scenes|
    requires SoloFrom(t, k) <= f < SoloUntil(t, k)
    ensures Resolve(t, f) == Single(k, f - Start(t, k))
  {
    SkipTo(t, 0, k, f);
  }

  /** Inside window k both neighbours play, each at its own local frame, and the progress
      is the elapsed fraction of the window. */
  lemma ResolveWindow(t: Timeline, k: nat, f: int)
    requires WellFormed(t) && k < |t.transitions|
    requires Start(t, k + 1) <= f < Start(t, k + 1) + t.transitions[k]
    ensures Resolve(t, f)
            == Blend(k, f - Start(t, k), f - Start(t, k + 1), Progress(f - Start(t, k + 1), t.transitions[k]))
  {
    StartStep(t, k);
    StartsNonDecreasing(t, 0, k);
    SkipTo(t, 0, k, f);
  }

  /** Every frame of [0, Total) shows something, and no frame outside it does. */
  lemma ResolveEmpty(t: Timeline, f: int)
    requires WellFormed(t)
    ensures Resolve(t, f) == Empty <==> f < 0 || f >= Total(t)
  {
    var n := |t.scenes|;
    LastEndsAtTotal(t);
    if 0 <= f {
      if f >= SoloFrom(t, n - 1) {
        SkipTo(t, 0, n - 1, f);
      } else {
        ResolveNotEmptyBefore(t, 0, f);
      }
    }
  }

  /** A frame before the last scene's solo stretch always resolves to something. */
  lemma {:induction false} ResolveNotEmptyBefore(t: Timeline, k: nat, f: int)
    requires WellFormed(t) && k < |t.scenes| && Start(t, k) <= f < SoloFrom(t, |t.scenes| - 1)
    ensures ResolveFrom(t, k, f) != Empty
    decreases |t.scenes| - k
  {
    var n := |t.scenes|;
    if k == n - 1 {
      assert SoloFrom(t, k) <= Start(t, k) + t.scenes[k];
    } else {
      StartStep(t, k);
      if f >= Start(t, k) + t.scenes[k] {
        ResolveNotEmptyBefore(t, k + 1, f);
      }
    }
  }

  /** Linear progress is 0 when a window opens and 1 on the first frame after it. */
  lemma ProgressEnds(d: int)
    requires d > 0
    ensures Progress(0, d) == 0.0 && Progress(d, d) == 1.0
  {
  }

  /** Linear progress rises strictly with the elapsed frames. */
  lemma ProgressIncreasing(e: int, e': int, d: int)
    requires d > 0 && e < e'
    ensures Progress(e, d) < Progress(e', d)
  {
    var p, p' := Progress(e, d), Progress(e', d);
    assert p * d as real == e as real;
    assert p' * d as real == e' as real;
    assert (p' - p) * d as real == (e' - e) as real;
    PositiveFactor(p' - p, d as real);
  }

  /** Inside a window the progress lies in [0, 1). */
  lemma ProgressInWindow(e: int, d: int)
    requires 0 <= e < d
    ensures 0.0 <= Progress(e, d) < 1.0
  {
    ProgressEnds(d);
    if e > 0 {
      ProgressIncreasing(0, e, d);
    }
    ProgressIncreasing(e, d, d);
  }

  lemma PositiveFactor(u: real, v: real)
    requires v > 0.0 && u * v > 0.0
    ensures u > 0.0
  {
  }

  // ---------------------------------------------------------------------------
  // The main composition

  /** Scene lengths Intro 120, Glitch 150, Speed 150, Outro 180; transitions 15, 12, 12. */
  const Main: Timeline := Timeline([120, 150, 150, 180], [15, 12, 12])

  /** The series alternates and splits into the four scenes and three transitions. */
  lemma MainEntriesSplit()
    ensures Alternates(MainEntries)
    ensures Split(MainEntries) == Main
  {
    assert MainEntries[2..][2..][2..] == [Sequence(180)];
  }

  /** No transition of the main series is longer than a scene it joins, nor do two windows
      share a frame. */
  lemma MainWellFormed()
    ensures WellFormed(Main)
  {
  }

  lemma SumOfTwo(a: int, b: int)
    ensures Sum([a, b]) == a + b
  {
    assert [a, b][..1] == [a];
    assert Sum([a]) == Sum([a][..0]) + a == a;
  }

  lemma SumOfThree(a: int, b: int, c: int)
    ensures Sum([a, b, c]) == a + b + c
  {
    assert [a, b, c][..2] == [a, b];
    SumOfTwo(a, b);
  }

  lemma SumOfFour(a: int, b: int, c: int, d: int)
    ensures Sum([a, b, c, d]) == a + b + c + d
  {
    assert [a, b, c, d][..3] == [a, b, c];
    SumOfThree(a, b, c);
  }

  /** The series lasts 561 frames. The doc comment's own count (an Outro of 150 frames,
      531 in all, plus a 30-frame buffer) lands on the same 561. */
  lemma MainTotal()
    ensures SeriesLength(MainEntries) == Total(Main) == 561
    ensures Total(Timeline([120, 150, 150, 150], [15, 12, 12])) + 30 == Total(Main)
  {
    MainEntriesSplit();
    SeriesLengthIsTotal(MainEntries);
    SumOfFour(120, 150, 150, 180);
    SumOfFour(120, 150, 150, 150);
    SumOfThree(15, 12, 12);
  }

  /** The scenes start at frames 0, 105, 243 and 381. */
  lemma MainStarts()
    ensures Start(Main, 0) == 0 && Start(Main, 1) == 105 && Start(Main, 2) == 243 && Start(Main, 3) == 381
  {
    StartStep(Main, 0);
    StartStep(Main, 1);
    StartStep(Main, 2);
  }

  /** Frame 112 is inside the glitch wipe: the Intro at its frame 112 and the Glitch scene
      at its frame 7, 7/15 of the way through. */
  lemma MainFrame112()
    ensures Resolve(Main, 112) == Blend(0, 112, 7, 7.0 / 15.0)
  {
    MainWellFormed();
    MainStarts();
    ResolveWindow(Main, 0, 112);
  }

  /** Frame 125 is the Glitch scene alone, at its frame 20. */
  lemma MainFrame125()
    ensures Resolve(Main, 125) == Single(1, 20)
  {
    MainWellFormed();
    MainStarts();
    ResolveSolo(Main, 1, 125);
  }

  /** The last frame, 560, is the Outro alone at its frame 179; nothing plays at 561. */
  lemma MainLastFrame()
    ensures Resolve(Main, 560) == Single(3, 179)
    ensures Resolve(Main, 561) == Empty
  {
    MainWellFormed();
    MainStarts();
    MainTotal();
    ResolveSolo(Main, 3, 560);
    ResolveEmpty(Main, 561);
  }
}
