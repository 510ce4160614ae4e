/**
 Continuous trackpad distances become whole wheel units; the fraction that is not reported is carried into
 the next frame, so nothing but a billionth of a unit per frame is ever lost.
 */
module TrackpadScroll {
  import opened Options

  /** Keeps a total that should be an integer from landing just below it. */
  const EPSILON := 0.000000001

  /** One frame; `None` is a distance that is not finite. */
  datatype Frame = Frame(distance: Option<real>, invert: bool)

  function Clamp(x: real, limit: real): real {
    if x < -limit then -limit else if x > limit then limit else x
  }

  function Abs(x: real): (r: real)
    ensures r >= 0.0 && (r == x || r == -x)
  {
    if x < 0.0 then -x else x
  }

  /** The fraction is dropped, towards zero. */
  function Truncate(x: real): int {
    if x >= 0.0 then x.Floor else -((-x).Floor)
  }

  /** x moved away from zero by epsilon. */
  function Nudged(x: real): real {
    if x < 0.0 then x - EPSILON else x + EPSILON
  }

  function Directed(distance: real, invert: bool): real {
    distance * if invert then -1.0 else 1.0
  }

  function Kept(clamped: real, whole: int): real {
    var rest := clamped - whole as real;
    if Abs(rest) < EPSILON then 0.0 else rest
  }

  function Converted(residual: real, limit: real, f: Frame): (real, int) {
    if f.distance.None? then (residual, 0)
    else
      var clamped := Clamp(Directed(f.distance.value, f.invert) + residual, limit);
      var whole := Truncate(Nudged(clamped));
      (Kept(clamped, whole), whole)
  }

  lemma TruncateNear(x: real)
    ensures Abs(x - Truncate(x) as real) < 1.0
    ensures x >= 0.0 ==> 0.0 <= Truncate(x) as real <= x
    ensures x <= 0.0 ==> x <= Truncate(x) as real <= 0.0
  {
  }

  /** The largest output a limit allows: the limit itself when it is whole. */
  predicate WithinLimit(whole: int, limit: real) {
    && Abs(whole as real) <= limit + EPSILON
    && (limit == limit.Floor as real ==> Abs(whole as real) <= limit)
  }

  lemma NearInteger(whole: int, limit: int)
    requires whole as real <= limit as real + EPSILON
    ensures whole <= limit
  {
    assert (whole - limit) as real <= EPSILON;
  }

  lemma WholeWithinLimit(clamped: real, limit: real)
    requires -limit <= clamped <= limit
    ensures WithinLimit(Truncate(Nudged(clamped)), limit)
  {
    var whole := Truncate(Nudged(clamped));
    TruncateNear(Nudged(clamped));
    if limit == limit.Floor as real {
      NearInteger(whole, limit.Floor);
      NearInteger(-whole, limit.Floor);
    }
  }

  lemma KeptBelowOne(clamped: real)
    ensures Abs(Kept(clamped, Truncate(Nudged(clamped)))) < 1.0
  {
    TruncateNear(Nudged(clamped));
  }

  /** One frame: the residual stays below a unit and the output within the limit. */
  lemma ConvertedBounds(residual: real, limit: real, f: Frame)
    requires Abs(residual) < 1.0 && limit >= 0.0
    ensures var (r, whole) := Converted(residual, limit, f);
      Abs(r) < 1.0 && WithinLimit(whole, limit)
  {
    if f.distance.Some? {
      var clamped := Clamp(Directed(f.distance.value, f.invert) + residual, limit);
      WholeWithinLimit(clamped, limit);
      KeptBelowOne(clamped);
    }
  }

  predicate Unclamped(residual: real, limit: real, f: Frame) {
    f.distance.Some? ==> Abs(Directed(f.distance.value, f.invert) + residual) <= limit
  }

  function Input(f: Frame): real {
    if f.distance.None? then 0.0 else if f.invert then -f.distance.value else f.distance.value
  }

  /** One frame without clamping loses less than epsilon. */
  lemma ConvertedConserves(residual: real, limit: real, f: Frame)
    requires Unclamped(residual, limit, f)
    ensures var (r, whole) := Converted(residual, limit, f);
      Abs(residual + Input(f) - whole as real - r) < EPSILON
  {
  }

  /** What a whole number of units is within a billionth of counts as that number, and leaves nothing over. */
  lemma NearWholeIsWhole(residual: real, limit: real, f: Frame, n: int)
    requires f.distance.Some? && Abs(residual + Input(f) - n as real) < EPSILON && Abs(residual + Input(f)) <= limit
    ensures Converted(residual, limit, f) == (0.0, n)
  {
    var x := residual + Input(f);
    var whole := Truncate(Nudged(x));
    TruncateNear(Nudged(x));
    assert Clamp(Directed(f.distance.value, f.invert) + residual, limit) == x;
    assert Abs(whole as real - n as real) < 1.0;
    assert whole == n;
  }

  predicate FarFrom(x: real, n: int) {
    Abs(x - n as real) > EPSILON
  }

  /** Everything else is cut off towards zero: the units reported never exceed the distance. */
  lemma ElseCutOff(residual: real, limit: real, f: Frame, x: real)
    requires f.distance.Some? && x == residual + Input(f) && Abs(x) <= limit
    requires forall n: int :: FarFrom(x, n)
    ensures var (r, whole) := Converted(residual, limit, f);
      && whole == Truncate(x) && r == x - whole as real && Abs(r) > EPSILON
  {
    var whole := Truncate(Nudged(x));
    TruncateNear(Nudged(x));
    TruncateNear(x);
    assert Clamp(Directed(f.distance.value, f.invert) + residual, limit) == x;
    assert FarFrom(x, whole) && FarFrom(x, whole - 1) && FarFrom(x, whole + 1);
  }

  /** What is left over is nothing, or more than the tolerance. */
  lemma LeftoverIsReal(residual: real, limit: real, f: Frame)
    requires f.distance.Some?
    ensures var r := Converted(residual, limit, f).0; r == 0.0 || Abs(r) >= EPSILON
  {
  }

  lemma NudgeMirrors(x: real)
    requires x != 0.0
    ensures Truncate(Nudged(-x)) == -Truncate(Nudged(x))
  {
  }

  /** Turning the direction around turns everything around. */
  lemma InvertMirrors(residual: real, limit: real, f: Frame)
    requires limit >= 0.0
    ensures var (r, whole) := Converted(residual, limit, f);
      Converted(-residual, limit, f.(invert := !f.invert)) == (-r, -whole)
  {
    if f.distance.Some? {
      var x := Clamp(Directed(f.distance.value, f.invert) + residual, limit);
      assert Clamp(Directed(f.distance.value, !f.invert) - residual, limit) == -x;
      if x != 0.0 { NudgeMirrors(x); }
    }
  }

  // ---- runs ------------------------------------------------------------------------------------

  function Residual(limit: real, fs: seq<Frame>): real
    decreases |fs|
  {
    if fs == [] then 0.0 else Converted(Residual(limit, fs[..|fs| - 1]), limit, fs[|fs| - 1]).0
  }

  function Outputs(limit: real, fs: seq<Frame>): int
    decreases |fs|
  {
    if fs == [] then 0
    else Outputs(limit, fs[..|fs| - 1]) + Converted(Residual(limit, fs[..|fs| - 1]), limit, fs[|fs| - 1]).1
  }

  function Inputs(fs: seq<Frame>): real
    decreases |fs|
  {
    if fs == [] then 0.0 else Inputs(fs[..|fs| - 1]) + Input(fs[|fs| - 1])
  }

  predicate NeverClamped(limit: real, fs: seq<Frame>)
    decreases |fs|
  {
    fs == [] || (NeverClamped(limit, fs[..|fs| - 1]) && Unclamped(Residual(limit, fs[..|fs| - 1]), limit, fs[|fs| - 1]))
  }

  lemma {:induction false} ResidualBounded(limit: real, fs: seq<Frame>)
    requires limit >= 0.0
    ensures Abs(Residual(limit, fs)) < 1.0
    decreases |fs|
  {
    if fs != [] {
      ResidualBounded(limit, fs[..|fs| - 1]);
      ConvertedBounds(Residual(limit, fs[..|fs| - 1]), limit, fs[|fs| - 1]);
    }
  }

  /** Every output of a run is within the limit, clamped or not. */
  lemma OutputBounded(limit: real, fs: seq<Frame>, f: Frame)
    requires limit >= 0.0
    ensures WithinLimit(Converted(Residual(limit, fs), limit, f).1, limit)
  {
    ResidualBounded(limit, fs);
    ConvertedBounds(Residual(limit, fs), limit, f);
  }

  lemma {:induction false} Drift(limit: real, fs: seq<Frame>)
    requires NeverClamped(limit, fs)
    ensures Abs(Inputs(fs) - Outputs(limit, fs) as real - Residual(limit, fs)) <= |fs| as real * EPSILON
    decreases |fs|
  {
    if fs != [] {
      var n := |fs| - 1;
      Drift(limit, fs[..n]);
      ConvertedConserves(Residual(limit, fs[..n]), limit, fs[n]);
      assert |fs| as real * EPSILON == n as real * EPSILON + EPSILON;
    }
  }

  /** The wheel units reported are never a unit off the distance scrolled, but for a billionth per frame. */
  lemma NothingLost(limit: real, fs: seq<Frame>)
    requires limit >= 0.0 && NeverClamped(limit, fs)
    ensures Abs(Inputs(fs) - Outputs(limit, fs) as real) < 1.0 + |fs| as real * EPSILON
  {
    Drift(limit, fs);
    ResidualBounded(limit, fs);
  }

  // ---- the accumulator object ------------------------------------------------------------------

  class TrackpadScrollAccumulator {
    const maxOutputDistance: real
    var residual: real

    constructor (limit: real)
      ensures maxOutputDistance == limit && residual == 0.0
    {
      maxOutputDistance, residual := limit, 0.0;
    }

    method Convert(f: Frame) returns (wholeUnits: int)
      modifies this
      ensures (residual, wholeUnits) == Converted(old(residual), maxOutputDistance, f)
    {
      if f.distance.None? {
        return 0;
      }
      var direction := if f.invert then -1.0 else 1.0;
      var converted := f.distance.value * direction + residual;
      var clamped := Clamp(converted, maxOutputDistance);
      var adjusted := if clamped < 0.0 then clamped - EPSILON else clamped + EPSILON;
      wholeUnits := Truncate(adjusted);
      residual := clamped - wholeUnits as real;
      if Abs(residual) < EPSILON {
        residual := 0.0;
      }
    }
  }
}
