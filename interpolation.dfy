/** A model of the animation library's `interpolate(input, inputRange, outputRange, options)`:
    piecewise-linear mapping through strictly increasing breakpoints, an optional easing
    applied to each segment's normalised position, and a clamp-or-extend policy per side.
    Every opacity, position and gain curve of the scenes is built from this one function. */
module Interpolation {

  /** What happens to an input beyond the first or last breakpoint. */
  datatype Extrapolation = Extend | Clamp

  /** The library's default easing: the identity. */
  function Linear(t: real): real { t }

  /** An easing curve: fixes 0 and 1, maps [0,1] into [0,1] and never decreases there.
      Easing.in(Easing.cubic) and Easing.out(Easing.cubic) are such curves. */
  ghost predicate IsEasing(ease: real -> real) {
    && ease(0.0) == 0.0
    && ease(1.0) == 1.0
    && (forall t :: 0.0 <= t <= 1.0 ==> 0.0 <= ease(t) <= 1.0)
    && (forall s, t :: 0.0 <= s <= t <= 1.0 ==> ease(s) <= ease(t))
  }

  /** The library rejects an input range unless each breakpoint exceeds its predecessor. */
  predicate Increasing(xs: seq<real>) {
    forall k :: 0 <= k < |xs| - 1 ==> xs[k] < xs[k + 1]
  }

  predicate NonDecreasing(ys: seq<real>) {
    forall p, q :: 0 <= p <= q < |ys| ==> ys[p] <= ys[q]
  }

  /** The segment search: the first i >= 1 (below the last index) whose breakpoint reaches x. */
  function FindFrom(x: real, inp: seq<real>, i: nat): (j: nat)
    requires 1 <= i <= |inp| - 1
    ensures i <= j <= |inp| - 1
    ensures j == |inp| - 1 || x <= inp[j]
    ensures forall m :: i <= m < j ==> inp[m] < x
    decreases |inp| - i
  {
    if i < |inp| - 1 && inp[i] < x then FindFrom(x, inp, i + 1) else i
  }

  /** Index of the segment [inp[i], inp[i+1]] that `Interpolate` uses for x. */
  function FindRange(x: real, inp: seq<real>): (i: nat)
    requires |inp| >= 2
    ensures i <= |inp| - 2
    ensures i == |inp| - 2 || x <= inp[i + 1]
    ensures forall m :: 1 <= m <= i ==> inp[m] < x
  {
    FindFrom(x, inp, 1) - 1
  }

  /** Normalised position of y between a and b: 0 at a, 1 at b. */
  function Position(y: real, a: real, b: real): real
    requires a < b
  {
    (y - a) / (b - a)
  }

  /** The input of one segment after the side policies: a clamped side pins it to the end. */
  function Clamped(x: real, a: real, b: real, left: Extrapolation, right: Extrapolation): real
  {
    if x < a && left == Clamp then a else if x > b && right == Clamp then b else x
  }

  /** The output at eased position e of a segment from value c to value d. */
  function Mix(e: real, c: real, d: real): real {
    e * (d - c) + c
  }

  /** One segment from (a, c) to (b, d): clamp the input if the side says so, normalise,
      ease, and scale into the output range (a constant segment returns its value). */
  function Segment(x: real, a: real, b: real, c: real, d: real, ease: real -> real,
                   left: Extrapolation, right: Extrapolation): real
    requires a < b
  {
    if c == d then c else Mix(ease(Position(Clamped(x, a, b, left, right), a, b)), c, d)
  }

  function Interpolate(x: real, inp: seq<real>, out: seq<real>, ease: real -> real,
                       left: Extrapolation, right: Extrapolation): real
    requires 2 <= |inp| == |out|
    requires Increasing(inp)
  {
    var i := FindRange(x, inp);
    Segment(x, inp[i], inp[i + 1], out[i], out[i + 1], ease, left, right)
  }

  /** The input lies in the domain, or the side it falls outside of is clamped. */
  predicate Admitted(x: real, inp: seq<real>, left: Extrapolation, right: Extrapolation)
    requires |inp| >= 1
  {
    (left == Clamp || inp[0] <= x) && (right == Clamp || x <= inp[|inp| - 1])
  }

  // ---------------------------------------------------------------------------
  // Arithmetic of the normalised position

  lemma PositionScaled(y: real, a: real, b: real)
    requires a < b
    ensures Position(y, a, b) * (b - a) == y - a
  {
  }

  lemma PositionEnds(a: real, b: real)
    requires a < b
    ensures Position(a, a, b) == 0.0 && Position(b, a, b) == 1.0
  {
    var d := b - a;
    assert Position(a, a, b) == 0.0 / d == 0.0;
    assert Position(b, a, b) == d / d == 1.0;
  }

  lemma PositionMonotone(y: real, z: real, a: real, b: real)
    requires a < b && y <= z
    ensures Position(y, a, b) <= Position(z, a, b)
  {
    PositionScaled(y, a, b);
    PositionScaled(z, a, b);
    assert (Position(z, a, b) - Position(y, a, b)) * (b - a) == z - y;
  }

  lemma PositionUnit(y: real, a: real, b: real)
    requires a < b && a <= y <= b
    ensures 0.0 <= Position(y, a, b) <= 1.0
  {
    PositionEnds(a, b);
    PositionMonotone(a, y, a, b);
    PositionMonotone(y, b, a, b);
  }

  lemma MulNonneg(u: real, v: real)
    requires 0.0 <= u && 0.0 <= v
    ensures 0.0 <= u * v
  {
  }

  /** The eased blend of a segment stays between the segment's two end values. */
  lemma BlendBetween(e: real, c: real, d: real)
    requires 0.0 <= e <= 1.0
    ensures c <= d ==> c <= Mix(e, c, d) <= d
    ensures d <= c ==> d <= Mix(e, c, d) <= c
  {
    if c <= d {
      MulNonneg(e, d - c);
      MulNonneg(1.0 - e, d - c);
      assert (1.0 - e) * (d - c) == (d - c) - e * (d - c);
    } else {
      MulNonneg(e, c - d);
      MulNonneg(1.0 - e, c - d);
      assert (1.0 - e) * (c - d) == (c - d) - e * (c - d);
      assert e * (c - d) == - (e * (d - c));
    }
  }

  lemma BlendWithin(e: real, c: real, d: real, lo: real, hi: real)
    requires 0.0 <= e <= 1.0
    requires lo <= c <= hi && lo <= d <= hi
    ensures lo <= Mix(e, c, d) <= hi
  {
    BlendBetween(e, c, d);
  }

  lemma BlendOrdered(e: real, f: real, c: real, d: real, c': real, d': real)
    requires 0.0 <= e <= 1.0 && 0.0 <= f <= 1.0
    requires c <= d <= c' <= d'
    ensures Mix(e, c, d) <= Mix(f, c', d')
  {
    BlendBetween(e, c, d);
    BlendBetween(f, c', d');
  }

  /** A later eased position never yields less on a rising segment. */
  lemma MixMonotone(e: real, f: real, c: real, d: real)
    requires e <= f && c <= d
    ensures Mix(e, c, d) <= Mix(f, c, d)
  {
    MulNonneg(f - e, d - c);
    assert (f - e) * (d - c) == f * (d - c) - e * (d - c);
  }

  // ---------------------------------------------------------------------------
  // Properties of the segment search

  lemma {:induction false} IncreasingPairwise(inp: seq<real>, p: nat, q: nat)
    requires Increasing(inp)
    requires p < q < |inp|
    ensures inp[p] < inp[q]
    decreases q - p
  {
    if p + 1 < q {
      IncreasingPairwise(inp, p + 1, q);
    }
  }

  /** Adjacent strict increase gives strict increase between any two breakpoints. */
  lemma IncreasingAll(inp: seq<real>)
    requires Increasing(inp)
    ensures forall p, q :: 0 <= p < q < |inp| ==> inp[p] < inp[q]
  {
    forall p, q | 0 <= p < q < |inp| ensures inp[p] < inp[q] {
      IncreasingPairwise(inp, p, q);
    }
  }

  /** The segment search never moves backwards as the input grows. */
  lemma FindRangeMonotone(x: real, y: real, inp: seq<real>)
    requires |inp| >= 2 && Increasing(inp)
    requires x <= y
    ensures FindRange(x, inp) <= FindRange(y, inp)
  {
    IncreasingAll(inp);
  }

  /** The segment chosen for an admitted x contains the clamped x. */
  lemma FindRangeAdmits(x: real, inp: seq<real>, left: Extrapolation, right: Extrapolation)
    requires |inp| >= 2 && Increasing(inp)
    requires Admitted(x, inp, left, right)
    ensures var i := FindRange(x, inp);
            inp[i] <= Clamped(x, inp[i], inp[i + 1], left, right) <= inp[i + 1]
  {
  }

  // ---------------------------------------------------------------------------
  // Properties of Interpolate

  /** Interpolate agrees on [inp[k], inp[k+1]] with the eased blend of segment k. */
  lemma OnSegment(x: real, inp: seq<real>, out: seq<real>, ease: real -> real,
                  left: Extrapolation, right: Extrapolation, k: nat)
    requires 2 <= |inp| == |out| && Increasing(inp)
    requires ease(0.0) == 0.0 && ease(1.0) == 1.0
    requires k < |inp| - 1 && inp[k] <= x <= inp[k + 1]
    ensures Interpolate(x, inp, out, ease, left, right)
            == Mix(ease(Position(x, inp[k], inp[k + 1])), out[k], out[k + 1])
  {
    IncreasingAll(inp);
    var i := FindRange(x, inp);
    assert i == k || (i + 1 == k && x == inp[k]);
    PositionEnds(inp[i], inp[i + 1]);
    PositionEnds(inp[k], inp[k + 1]);
  }

  /** At every breakpoint the configured value is returned exactly. */
  lemma AtBreakpoint(inp: seq<real>, out: seq<real>, ease: real -> real,
                     left: Extrapolation, right: Extrapolation, k: nat)
    requires 2 <= |inp| == |out| && Increasing(inp)
    requires ease(0.0) == 0.0 && ease(1.0) == 1.0
    requires k < |inp|
    ensures Interpolate(inp[k], inp, out, ease, left, right) == out[k]
  {
    var j := if k < |inp| - 1 then k else k - 1;
    OnSegment(inp[k], inp, out, ease, left, right, j);
    PositionEnds(inp[j], inp[j + 1]);
  }

  /** A clamped left side holds the first value for every input up to the first breakpoint. */
  lemma ClampedBelow(x: real, inp: seq<real>, out: seq<real>, ease: real -> real, right: Extrapolation)
    requires 2 <= |inp| == |out| && Increasing(inp)
    requires ease(0.0) == 0.0
    requires x <= inp[0]
    ensures Interpolate(x, inp, out, ease, Clamp, right) == out[0]
  {
    IncreasingAll(inp);
    assert FindRange(x, inp) == 0;
    PositionEnds(inp[0], inp[1]);
  }

  /** A clamped right side holds the last value for every input from the last breakpoint on. */
  lemma ClampedAbove(x: real, inp: seq<real>, out: seq<real>, ease: real -> real, left: Extrapolation)
    requires 2 <= |inp| == |out| && Increasing(inp)
    requires ease(1.0) == 1.0
    requires x >= inp[|inp| - 1]
    ensures Interpolate(x, inp, out, ease, left, Clamp) == out[|out| - 1]
  {
    IncreasingAll(inp);
    var n := |inp|;
    assert FindRange(x, inp) == n - 2;
    PositionEnds(inp[n - 2], inp[n - 1]);
  }

  /** An admitted input's segment evaluates to an eased blend at a position in [0,1]. */
  lemma AdmittedBlend(x: real, inp: seq<real>, out: seq<real>, ease: real -> real,
                      left: Extrapolation, right: Extrapolation)
    returns (i: nat, t: real)
    requires 2 <= |inp| == |out| && Increasing(inp)
    requires Admitted(x, inp, left, right)
    ensures i == FindRange(x, inp) && 0.0 <= t <= 1.0
    ensures t == Position(Clamped(x, inp[i], inp[i + 1], left, right), inp[i], inp[i + 1])
    ensures Interpolate(x, inp, out, ease, left, right) == Mix(ease(t), out[i], out[i + 1])
  {
    i := FindRange(x, inp);
    FindRangeAdmits(x, inp, left, right);
    t := Position(Clamped(x, inp[i], inp[i + 1], left, right), inp[i], inp[i + 1]);
    PositionUnit(Clamped(x, inp[i], inp[i + 1], left, right), inp[i], inp[i + 1]);
  }

  /** With a clamped or in-domain input, the result never leaves the band of the outputs. */
  lemma Bounded(x: real, inp: seq<real>, out: seq<real>, ease: real -> real,
                left: Extrapolation, right: Extrapolation, lo: real, hi: real)
    requires 2 <= |inp| == |out| && Increasing(inp)
    requires IsEasing(ease)
    requires Admitted(x, inp, left, right)
    requires forall k :: 0 <= k < |out| ==> lo <= out[k] <= hi
    ensures lo <= Interpolate(x, inp, out, ease, left, right) <= hi
  {
    var i, t := AdmittedBlend(x, inp, out, ease, left, right);
    var c, d := out[i], out[i + 1];
    assert lo <= c <= hi && lo <= d <= hi;
    assert 0.0 <= ease(t) <= 1.0;
    BlendWithin(ease(t), c, d, lo, hi);
  }


  /** Over non-decreasing outputs and a monotone easing, the curve never decreases. */
  lemma Monotone(x: real, z: real, inp: seq<real>, out: seq<real>, ease: real -> real,
                 left: Extrapolation, right: Extrapolation)
    requires 2 <= |inp| == |out| && Increasing(inp) && NonDecreasing(out)
    requires IsEasing(ease)
    requires Admitted(x, inp, left, right) && Admitted(z, inp, left, right)
    requires x <= z
    ensures Interpolate(x, inp, out, ease, left, right) <= Interpolate(z, inp, out, ease, left, right)
  {
    FindRangeMonotone(x, z, inp);
    var i, tx := AdmittedBlend(x, inp, out, ease, left, right);
    var j, tz := AdmittedBlend(z, inp, out, ease, left, right);
    var ex, ez := ease(tx), ease(tz);
    assert 0.0 <= ex <= 1.0 && 0.0 <= ez <= 1.0;
    if i == j {
      PositionMonotone(Clamped(x, inp[i], inp[i + 1], left, right),
                       Clamped(z, inp[i], inp[i + 1], left, right), inp[i], inp[i + 1]);
      assert ex <= ez;
      MixMonotone(ex, ez, out[i], out[i + 1]);
    } else {
      assert out[i] <= out[i + 1] <= out[j] <= out[j + 1];
      BlendOrdered(ex, ez, out[i], out[i + 1], out[j], out[j + 1]);
    }
  }



  /** The identity is an easing curve. */
  lemma LinearIsEasing()
    ensures IsEasing(Linear)
  {
  }

  /** Two unclamped breakpoints give the straight line through both points. */
  lemma TwoPointLine(x: real, a: real, b: real, c: real, d: real, left: Extrapolation, right: Extrapolation)
    requires a < b
    requires (left == Clamp ==> a <= x) && (right == Clamp ==> x <= b)
    ensures Interpolate(x, [a, b], [c, d], Linear, left, right) == c + (x - a) / (b - a) * (d - c)
  {
  }

  /** Strictly inside a segment the position is strictly between 0 and 1. */
  lemma PositionStrict(y: real, a: real, b: real)
    requires a < b
    ensures a < y ==> 0.0 < Position(y, a, b)
    ensures y < b ==> Position(y, a, b) < 1.0
  {
    PositionScaled(y, a, b);
    var p := Position(y, a, b);
    if a < y && p <= 0.0 {
      MulNonneg(-p, b - a);
    }
    if y < b && p >= 1.0 {
      MulNonneg(p - 1.0, b - a);
      assert (p - 1.0) * (b - a) == p * (b - a) - (b - a);
    }
  }

  lemma MulPos(u: real, v: real)
    requires 0.0 < u && 0.0 < v
    ensures 0.0 < u * v
  {
  }

  /** A clamped triangular envelope rising linearly from 0 at a to its peak h at m and falling
      back to 0 at b: it never leaves [0, h], it is positive exactly strictly between a and b,
      and it reaches h only at m. */
  lemma Triangle(x: real, a: real, m: real, b: real, h: real)
    requires a < m < b && 0.0 < h
    ensures var v := Interpolate(x, [a, m, b], [0.0, h, 0.0], Linear, Clamp, Clamp);
            && 0.0 <= v <= h
            && (0.0 < v <==> a < x < b)
            && (v == h <==> x == m)
  {
    var inp, out := [a, m, b], [0.0, h, 0.0];
    var v := Interpolate(x, inp, out, Linear, Clamp, Clamp);
    if x <= a {
      ClampedBelow(x, inp, out, Linear, Clamp);
    } else if x >= b {
      ClampedAbove(x, inp, out, Linear, Clamp);
    } else if x <= m {
      OnSegment(x, inp, out, Linear, Clamp, Clamp, 0);
      var p := Position(x, a, m);
      PositionUnit(x, a, m);
      PositionStrict(x, a, m);
      PositionEnds(a, m);
      assert v == p * h;
      ScaledUnit(p, h);
    } else {
      OnSegment(x, inp, out, Linear, Clamp, Clamp, 1);
      var p := Position(x, m, b);
      PositionUnit(x, m, b);
      PositionStrict(x, m, b);
      assert v == (1.0 - p) * h;
      ScaledUnit(1.0 - p, h);
    }
  }

  /** A fraction p of a positive height stays within it, is positive exactly when p is and
      reaches the full height exactly when p is 1. */
  lemma ScaledUnit(p: real, h: real)
    requires 0.0 <= p <= 1.0 && 0.0 < h
    ensures 0.0 <= p * h <= h
    ensures 0.0 < p * h <==> 0.0 < p
    ensures p * h == h <==> p == 1.0
  {
    MulNonneg(p, h);
    MulNonneg(1.0 - p, h);
    if 0.0 < p {
      MulPos(p, h);
    }
    if p < 1.0 {
      MulPos(1.0 - p, h);
    }
  }
}
