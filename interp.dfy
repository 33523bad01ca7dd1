/** Piecewise-linear table lookup with the semantics of openpilot's
    `openpilot.common.numpy_fast.interp`, which agree with `numpy.interp` on
    ascending breakpoints (imported by
    selfdrive/frogpilot/controls/frogpilot_planner.py, line 8). */
module Interpolation {
  import opened Common

  /** Breakpoints are strictly ascending, so every segment has a positive width. */
  predicate StrictlyIncreasing(xp: seq<real>) {
    forall i, j :: 0 <= i < j < |xp| ==> xp[i] < xp[j]
  }

  /** The value at `x` of the line through `(x0, f0)` and `(x1, f1)`. */
  function Segment(x: real, x0: real, x1: real, f0: real, f1: real): real
    requires x0 < x1
  {
    f0 + (x - x0) * (f1 - f0) / (x1 - x0)
  }

  /** `interp(x, xp, fp)`: flat before the first breakpoint and after the
      last, linear between neighbouring breakpoints. */
  function Interp(x: real, xp: seq<real>, fp: seq<real>): (r: real)
    requires |xp| == |fp| > 0 && StrictlyIncreasing(xp)
    ensures x <= xp[0] ==> r == fp[0]
    ensures x >= xp[|xp| - 1] ==> r == fp[|fp| - 1]
    decreases |xp|
  {
    if x <= xp[0] || |xp| == 1 then fp[0]
    else if x <= xp[1] then
      SegmentAtEnds(x, xp[0], xp[1], fp[0], fp[1]);
      Segment(x, xp[0], xp[1], fp[0], fp[1])
    else Interp(x, xp[1..], fp[1..])
  }

  /** A segment passes through its right end point. */
  lemma SegmentAtEnds(x: real, x0: real, x1: real, f0: real, f1: real)
    requires x0 < x1
    ensures x == x1 ==> Segment(x, x0, x1, f0, f1) == f1
  {
    if x == x1 {
      assert (x - x0) * (f1 - f0) / (x1 - x0) == f1 - f0;
    }
  }

  /** On its own interval a segment stays between its two end values. */
  lemma SegmentBetween(x: real, x0: real, x1: real, f0: real, f1: real)
    requires x0 < x1 && x0 <= x <= x1
    ensures Min(f0, f1) <= Segment(x, x0, x1, f0, f1) <= Max(f0, f1)
  {
    var t := (x - x0) / (x1 - x0);
    FractionWithin(x - x0, x1 - x0);
    SegmentAsFraction(x, x0, x1, f0, f1);
    if f0 <= f1 {
      BlendRising(Segment(x, x0, x1, f0, f1), t, f0, f1);
    } else {
      BlendFalling(Segment(x, x0, x1, f0, f1), t, f0, f1);
    }
  }

  /** A segment's value is `f0` plus a fraction of the rise. */
  lemma SegmentAsFraction(x: real, x0: real, x1: real, f0: real, f1: real)
    requires x0 < x1
    ensures Segment(x, x0, x1, f0, f1) == f0 + ((x - x0) / (x1 - x0)) * (f1 - f0)
  {
  }

  lemma FractionWithin(a: real, d: real)
    requires 0.0 <= a <= d && d > 0.0
    ensures 0.0 <= a / d <= 1.0
  {
    assert (a / d) * d == a;
  }

  lemma ScaledWithin(t: real, g: real)
    requires 0.0 <= t <= 1.0 && g >= 0.0
    ensures 0.0 <= t * g <= g
  {
    assert g - t * g == (1.0 - t) * g;
  }

  lemma NegatedProduct(t: real, a: real, b: real)
    ensures t * (b - a) == -(t * (a - b))
  {
  }

  /** A blend of a rising pair stays between them. */
  lemma BlendRising(y: real, t: real, f0: real, f1: real)
    requires 0.0 <= t <= 1.0 && y == f0 + t * (f1 - f0) && f0 <= f1
    ensures f0 <= y <= f1
  {
    ScaledWithin(t, f1 - f0);
    assert t * (f1 - f0) <= f1 - f0;
  }

  /** A blend of a falling pair stays between them. */
  lemma BlendFalling(y: real, t: real, f0: real, f1: real)
    requires 0.0 <= t <= 1.0 && y == f0 + t * (f1 - f0) && f1 < f0
    ensures f1 <= y <= f0
  {
    ScaledWithin(t, f0 - f1);
    NegatedProduct(t, f0, f1);
    assert f1 - f0 <= t * (f1 - f0);
  }

  /** Querying exactly at a breakpoint returns the tabulated value. */
  lemma {:induction false} InterpAtBreakpoint(xp: seq<real>, fp: seq<real>, i: nat)
    requires |xp| == |fp| > 0 && StrictlyIncreasing(xp) && i < |xp|
    ensures Interp(xp[i], xp, fp) == fp[i]
    decreases i
  {
    if i == 1 {
      SegmentAtEnds(xp[1], xp[0], xp[1], fp[0], fp[1]);
    } else if i > 1 {
      InterpAtBreakpoint(xp[1..], fp[1..], i - 1);
    }
  }

  /** Strictly after a breakpoint and up to the next one, the result is the
      value of the line through the two neighbouring table points. */
  lemma {:induction false} InterpLinear(x: real, xp: seq<real>, fp: seq<real>, i: nat)
    requires |xp| == |fp| > 0 && StrictlyIncreasing(xp)
    requires i + 1 < |xp| && xp[i] < x <= xp[i + 1]
    ensures Interp(x, xp, fp) == Segment(x, xp[i], xp[i + 1], fp[i], fp[i + 1])
    decreases i
  {
    if i > 0 {
      InterpLinear(x, xp[1..], fp[1..], i - 1);
    }
  }

  /** Between two neighbouring breakpoints the result lies between their
      two tabulated values. */
  lemma {:induction false} InterpBetweenNeighbours(x: real, xp: seq<real>, fp: seq<real>, i: nat)
    requires |xp| == |fp| > 0 && StrictlyIncreasing(xp)
    requires i + 1 < |xp| && xp[i] <= x <= xp[i + 1]
    ensures Min(fp[i], fp[i + 1]) <= Interp(x, xp, fp) <= Max(fp[i], fp[i + 1])
    decreases i
  {
    if i == 0 {
      if x > xp[0] {
        SegmentBetween(x, xp[0], xp[1], fp[0], fp[1]);
      }
    } else if x == xp[i] {
      InterpAtBreakpoint(xp, fp, i);
    } else {
      InterpBetweenNeighbours(x, xp[1..], fp[1..], i - 1);
    }
  }

  /** If every tabulated value lies in `[lo, hi]`, so does every result:
      interpolation never leaves the range of its table. */
  lemma {:induction false} InterpWithin(x: real, xp: seq<real>, fp: seq<real>, lo: real, hi: real)
    requires |xp| == |fp| > 0 && StrictlyIncreasing(xp)
    requires forall k :: 0 <= k < |fp| ==> lo <= fp[k] <= hi
    ensures lo <= Interp(x, xp, fp) <= hi
    decreases |xp|
  {
    if x <= xp[0] || |xp| == 1 {
    } else if x <= xp[1] {
      SegmentBetween(x, xp[0], xp[1], fp[0], fp[1]);
    } else {
      InterpWithin(x, xp[1..], fp[1..], lo, hi);
    }
  }
}
