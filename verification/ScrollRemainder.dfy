/**
 Wheel distances in 120ths of a detent are reported twice: exactly, and as whole detents.  What the detents
 have not reported yet is kept, per device and per axis.
 */
module ScrollRemainder {

  const DETENT := 120

  datatype Wheel = Wheel(absolute: bool, vertical: bool)

  datatype Emit = Detents(wheel: Wheel, n: int) | HighResolution(wheel: Wheel, distance: int) | Report

  /** Integer division towards zero, and its remainder. */
  function Quotient(total: int): int {
    if total >= 0 then total / DETENT else -(-total / DETENT)
  }

  function Remainder(total: int): int {
    total - DETENT * Quotient(total)
  }

  datatype State = State(remainder: Wheel -> int, log: seq<Emit>)

  function Initial(): State {
    State(_ => 0, [])
  }

  /** `present`: the device for this mode exists. */
  datatype Event = Scroll(wheel: Wheel, distance: int, present: bool)

  function Reported(w: Wheel, detents: int, distance: int): seq<Emit> {
    (if detents != 0 then [Detents(w, detents)] else []) + [HighResolution(w, distance), Report]
  }

  function Next(s: State, e: Event): State {
    if !e.present then s
    else
      var total := s.remainder(e.wheel) + e.distance;
      State(w => if w == e.wheel then Remainder(total) else s.remainder(w),
            s.log + Reported(e.wheel, Quotient(total), e.distance))
  }

  function After(es: seq<Event>): State
    decreases |es|
  {
    if es == [] then Initial() else Next(After(es[..|es| - 1]), es[|es| - 1])
  }

  function DetentSum(log: seq<Emit>, w: Wheel): int
    decreases |log|
  {
    if log == [] then 0
    else
      var e := log[|log| - 1];
      DetentSum(log[..|log| - 1], w) + if e.Detents? && e.wheel == w then e.n else 0
  }

  function DistanceSum(log: seq<Emit>, w: Wheel): int
    decreases |log|
  {
    if log == [] then 0
    else
      var e := log[|log| - 1];
      DistanceSum(log[..|log| - 1], w) + if e.HighResolution? && e.wheel == w then e.distance else 0
  }

  lemma QuotientBounds(total: int)
    ensures -DETENT < Remainder(total) < DETENT
    ensures total >= 0 ==> Remainder(total) >= 0
    ensures total <= 0 ==> Remainder(total) <= 0
  {
  }

  lemma SumsGrow(log: seq<Emit>, e: Emit, w: Wheel)
    ensures DetentSum(log + [e], w) == DetentSum(log, w) + if e.Detents? && e.wheel == w then e.n else 0
    ensures DistanceSum(log + [e], w)
         == DistanceSum(log, w) + if e.HighResolution? && e.wheel == w then e.distance else 0
  {
    assert (log + [e])[..|log|] == log;
  }

  lemma ReportedSums(log: seq<Emit>, v: Wheel, detents: int, distance: int, w: Wheel)
    ensures var l := log + Reported(v, detents, distance);
      && DetentSum(l, w) == DetentSum(log, w) + (if v == w then detents else 0)
      && DistanceSum(l, w) == DistanceSum(log, w) + (if v == w then distance else 0)
  {
    var l0 := if detents != 0 then log + [Detents(v, detents)] else log;
    if detents != 0 { SumsGrow(log, Detents(v, detents), w); }
    SumsGrow(l0, HighResolution(v, distance), w);
    SumsGrow(l0 + [HighResolution(v, distance)], Report, w);
    assert log + Reported(v, detents, distance) == l0 + [HighResolution(v, distance)] + [Report];
  }

  /**
   After any interleaving of scrolls on any devices and axes, for each of them: the detents and the remainder
   add up to the distance, and the remainder is less than one detent.
   */
  lemma {:induction false} Conserved(es: seq<Event>, w: Wheel)
    ensures var s := After(es);
      && DETENT * DetentSum(s.log, w) + s.remainder(w) == DistanceSum(s.log, w)
      && -DETENT < s.remainder(w) < DETENT
    decreases |es|
  {
    if es != [] {
      var n := |es| - 1;
      Conserved(es[..n], w);
      var s, e := After(es[..n]), es[n];
      var total := s.remainder(e.wheel) + e.distance;
      ReportedSums(s.log, e.wheel, Quotient(total), e.distance, w);
      QuotientBounds(total);
    }
  }

  /** The distance reported for a wheel is the distance it was scrolled while its device existed. */
  function Scrolled(es: seq<Event>, w: Wheel): int
    decreases |es|
  {
    if es == [] then 0
    else
      var e := es[|es| - 1];
      Scrolled(es[..|es| - 1], w) + if e.present && e.wheel == w then e.distance else 0
  }

  lemma {:induction false} DistanceIsExact(es: seq<Event>, w: Wheel)
    ensures DistanceSum(After(es).log, w) == Scrolled(es, w)
    decreases |es|
  {
    if es != [] {
      var n := |es| - 1;
      DistanceIsExact(es[..n], w);
      var s, e := After(es[..n]), es[n];
      ReportedSums(s.log, e.wheel, Quotient(s.remainder(e.wheel) + e.distance), e.distance, w);
    }
  }

  // ---- the mouse object ------------------------------------------------------------------------

  class LinuxMouse {
    /** Rows: relative, absolute; columns: vertical, horizontal. */
    const remainder: array2<int>
    ghost var log: seq<Emit>

    ghost predicate Valid()
      reads this
    {
      remainder.Length0 == 2 && remainder.Length1 == 2
    }

    static function Row(w: Wheel): nat { if w.absolute then 1 else 0 }

    static function Column(w: Wheel): nat { if w.vertical then 0 else 1 }

    ghost predicate Shows(s: State)
      requires Valid()
      reads this, remainder
    {
      log == s.log && forall w :: remainder[Row(w), Column(w)] == s.remainder(w)
    }

    constructor ()
      ensures Valid() && Shows(Initial()) && fresh(remainder)
    {
      remainder := new int[2, 2]((_, _) => 0);
      log := [];
    }

    method Scroll(w: Wheel, distance: int, present: bool, ghost s: State)
      requires Valid() && Shows(s)
      modifies this`log, remainder
      ensures Valid() && Shows(Next(s, Event.Scroll(w, distance, present)))
    {
      if !present {
        return;
      }
      var total := remainder[Row(w), Column(w)] + distance;
      var detents := Quotient(total);
      remainder[Row(w), Column(w)] := Remainder(total);
      if detents != 0 {
        log := log + [Detents(w, detents)];
      }
      log := log + [HighResolution(w, distance)];
      log := log + [Report];
    }
  }
}
