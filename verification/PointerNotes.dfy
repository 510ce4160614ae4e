/**
 What the embedder and the pointer get from a capture, in every run: each motion with its two distances, the
 place where the pointer is put back, and why a capture ended.
 */
module PointerNotes {
  import opened Options
  import opened PointerCapture

  predicate Tells(e: Effect) {
    e.MotionNote? || e.Hint? || e.Warp?
  }

  /** The motions and placings of a log, in order. */
  function Told(log: seq<Effect>): seq<Effect>
    decreases |log|
  {
    if log == [] then []
    else
      var n := |log| - 1;
      Told(log[..n]) + if Tells(log[n]) then [log[n]] else []
  }

  /** The raw events that are motions of the pointer: relative, finite and not zero. */
  function Motions(generation: int, es: seq<RawEvent>): seq<Effect> {
    if es == [] then []
    else
      var e := es[0];
      (if e.RawMotion? && e.relative && e.dx.Some? && e.dy.Some? && !(e.dx == Some(0.0) && e.dy == Some(0.0))
       then [MotionNote(generation, e.dx.value, e.dy.value)] else []) + Motions(generation, es[1..])
  }

  /** The pointer can be put back: the capture is complete, the view is alive, and both coordinates are finite. */
  predicate CanPlace(s: State, p: Placement) {
    s.active && p.alive && p.x.Some? && p.y.Some? && p.offset.Some?
  }

  function Placed(s: State, p: Placement): Effect
    requires CanPlace(s, p)
  {
    var x, y := Place(p.offset.value.0, p.width, p.x.value), Place(p.offset.value.1, p.height, p.y.value);
    if s.wayland then Hint(x, y) else Warp(x, y)
  }

  /** What one event must tell. */
  function Telling(s: State, e: Event): seq<Effect> {
    match e
    case ReadRaw(events) => if s.active then Motions(s.generation, events) else []
    case RelativeMotion(dx, dy) => if s.active then [MotionNote(s.generation, dx, dy)] else []
    case Reseed(id, p) => if s.generation == id && CanPlace(s, p) then [Placed(s, p)] else []
    case _ => []
  }

  lemma ToldGrows(log: seq<Effect>, e: Effect)
    ensures Told(log + [e]) == Told(log) + if Tells(e) then [e] else []
  {
    assert (log + [e])[..|log|] == log;
  }

  lemma DropTells(s: State, r: Resource)
    ensures Told(Drop(s, r).log) == Told(s.log)
  {
    if Uses(s.held, r) { ToldGrows(s.log, Freed(r)); }
  }

  lemma TakeTells(s: State, r: Resource)
    ensures Told(Take(s, r).log) == Told(s.log)
  {
    ToldGrows(s.log, Taken(r));
  }

  lemma DropWaylandTells(s: State)
    ensures Told(DropWayland(s).log) == Told(s.log)
  {
    DropTells(s, Timer);
    DropTells(Drop(s, Timer), Lock);
    DropTells(Drop(Drop(s, Timer), Lock), Relative);
  }

  lemma DropX11Tells(s: State)
    ensures Told(DropX11(s).log) == Told(s.log)
  {
    var t := if s.held.window then Drop(s, Grab) else s;
    DropTells(s, Grab);
    DropTells(t, Source);
    DropTells(Drop(t, Source), Raw);
  }

  lemma ReleasedTells(s: State, reason: string)
    ensures Told(Released(s, reason).log) == Told(s.log)
  {
    var t := s.(requested := false, active := false);
    DropWaylandTells(t);
    DropX11Tells(DropWayland(t));
    var u := DropX11(DropWayland(t));
    DropTells(u, Cursor);
    DropTells(Drop(u, Cursor), Window);
    ToldGrows(Emptied(s).log, UnlockedNote(s.generation, reason));
  }

  lemma LossTells(s: State, r: Resource, reason: string)
    ensures Told(Released(Drop(s, r), reason).log) == Told(s.log)
  {
    DropTells(s, r);
    ReleasedTells(Drop(s, r), reason);
  }

  lemma ConfirmedTells(s: State)
    ensures Told(Confirmed(s).log) == Told(s.log)
  {
    var t := s.(active := true);
    TakeTells(t, Cursor);
    DropTells(Hidden(t), Timer);
    ToldGrows(Drop(Hidden(t), Timer).log, LockedNote(s.generation));
  }

  lemma X11Tells(s: State, a: Attempt)
    ensures Told(LockedX11(s, a).0.log) == Told(s.log)
  {
    var t := Take(s, Raw);
    ReleasedTells(s, "failed");
    TakeTells(s, Raw);
    ReleasedTells(t, "failed");
    TakeTells(t, Cursor);
    var u := Hidden(t);
    ReleasedTells(u, "failed");
    TakeTells(u, Grab);
    TakeTells(Take(u, Grab), Source);
    ConfirmedTells(Take(Take(u, Grab), Source));
  }

  lemma WaylandTells(s: State, a: Attempt)
    ensures Told(LockedWayland(s, a).0.log) == Told(s.log)
  {
    ReleasedTells(s, "failed");
    TakeTells(s, Relative);
    TakeTells(Take(s, Relative), Lock);
    TakeTells(Take(Take(s, Relative), Lock), Timer);
  }

  lemma LockedTells(s: State, id: int, a: Attempt)
    ensures Told(Locked(s, id, a).0.log) == Told(s.log)
  {
    var t := Released(s, "replaced");
    ReleasedTells(s, "replaced");
    TakeTells(t, Window);
    ToldGrows(Take(t, Window).log, Requested(id));
    X11Tells(Begun(t, id), a);
    WaylandTells(Begun(t, id), a);
  }

  lemma ReseededTells(s: State, p: Placement)
    requires Inv(s)
    ensures Told(Reseeded(s, p).log) == Told(s.log) + if CanPlace(s, p) then [Placed(s, p)] else []
  {
    ReleasedTells(s, "released");
    if CanPlace(s, p) {
      var e := Placed(s, p);
      if s.wayland {
        ToldGrows(s.log, e);
        ReleasedTells(Note(s, e), "released");
      } else {
        var t := Drop(s.(active := false), Grab);
        DropTells(s.(active := false), Grab);
        ToldGrows(t.log, e);
        ReleasedTells(Note(t, e), "released");
      }
    }
  }

  lemma {:induction false} RawReadTells(s: State, es: seq<RawEvent>)
    ensures Told(RawRead(s, es).log) == Told(s.log) + if s.active then Motions(s.generation, es) else []
    decreases |es|
  {
    if es != [] {
      var t := if Counts(s, es[0]) then Moved(s, es[0].dx.value, es[0].dy.value) else s;
      if Counts(s, es[0]) { ToldGrows(s.log, MotionNote(s.generation, es[0].dx.value, es[0].dy.value)); }
      RawReadTells(t, es[1..]);
    }
  }

  /**
   In every reachable state an event tells exactly its motions, each with its own two distances and under the
   generation of the capture that is complete, or the one place where the pointer is put back.
   */
  lemma EventTells(s: State, e: Event)
    requires Inv(s)
    ensures Told(Next(s, e).log) == Told(s.log) + Telling(s, e)
  {
    if e.Reseed? { ReseededTells(s, e.placement); } else { OtherTells(s, e); }
  }

  lemma OtherTells(s: State, e: Event)
    requires !e.Reseed?
    ensures Told(Next(s, e).log) == Told(s.log) + Telling(s, e)
  {
    match e
    case LockCall(id, attempt) => LockedTells(s, id, attempt);
    case Unlock(reason) => ReleasedTells(s, reason);
    case UnlockGeneration(id) => ReleasedTells(s, "released");
    case Confirm => ConfirmedTells(s);
    case TimedOut => LossTells(s, Timer, "timeout");
    case HungUp => LossTells(s, Source, "connection-lost");
    case ReadRaw(events) => RawReadTells(s, events);
    case RelativeMotion(dx, dy) => ToldGrows(s.log, MotionNote(s.generation, dx, dy));
  }

  // ---- nothing is lost on the way --------------------------------------------------------------

  datatype Axis = Horizontal | Vertical

  function Along(a: Axis, dx: real, dy: real): real {
    if a.Horizontal? then dx else dy
  }

  /** How far the embedder was told the pointer moved. */
  function Reported(a: Axis, log: seq<Effect>): real
    decreases |log|
  {
    if log == [] then 0.0
    else
      var n := |log| - 1;
      Reported(a, log[..n]) + if log[n].MotionNote? then Along(a, log[n].dx, log[n].dy) else 0.0
  }

  /** How far it moved: every relative motion that is finite, zero or not. */
  function Travelled(a: Axis, es: seq<RawEvent>): real {
    if es == [] then 0.0
    else
      var e := es[0];
      (if e.RawMotion? && e.relative && e.dx.Some? && e.dy.Some? then Along(a, e.dx.value, e.dy.value) else 0.0)
      + Travelled(a, es[1..])
  }

  /** The same over a run, while a capture is complete. */
  function Journey(a: Axis, s: State, es: seq<Event>): real
    requires Runs(s, es)
    decreases |es|
  {
    if es == [] then 0.0 else Leg(a, s, es[0]) + Journey(a, Next(s, es[0]), es[1..])
  }

  function Leg(a: Axis, s: State, e: Event): real {
    match e
    case ReadRaw(events) => if s.active then Travelled(a, events) else 0.0
    case RelativeMotion(dx, dy) => if s.active then Along(a, dx, dy) else 0.0
    case _ => 0.0
  }

  lemma {:induction false} ReportedJoins(a: Axis, x: seq<Effect>, y: seq<Effect>)
    ensures Reported(a, x + y) == Reported(a, x) + Reported(a, y)
    decreases |y|
  {
    if y == [] {
      assert x + y == x;
    } else {
      var n := |y| - 1;
      assert (x + y)[..|x| + n] == x + y[..n];
      ReportedJoins(a, x, y[..n]);
    }
  }

  lemma ReportedOne(a: Axis, e: Effect)
    ensures Reported(a, [e]) == if e.MotionNote? then Along(a, e.dx, e.dy) else 0.0
  {
    assert [e][..0] == [];
  }

  lemma {:induction false} ReportedIsTold(a: Axis, log: seq<Effect>)
    ensures Reported(a, log) == Reported(a, Told(log))
    decreases |log|
  {
    if log != [] {
      var n := |log| - 1;
      ReportedIsTold(a, log[..n]);
      if Tells(log[n]) {
        ReportedGrows(a, Told(log[..n]), log[n]);
        assert Told(log) == Told(log[..n]) + [log[n]];
      } else {
        assert Told(log) == Told(log[..n]);
      }
    }
  }

  lemma ReportedGrows(a: Axis, log: seq<Effect>, e: Effect)
    ensures Reported(a, log + [e]) == Reported(a, log) + if e.MotionNote? then Along(a, e.dx, e.dy) else 0.0
  {
    assert (log + [e])[..|log|] == log;
  }

  lemma {:induction false} MotionsTravel(a: Axis, generation: int, es: seq<RawEvent>)
    ensures Reported(a, Motions(generation, es)) == Travelled(a, es)
    decreases |es|
  {
    if es != [] {
      var rest := Motions(generation, es[1..]);
      var first := Motions(generation, es)[..|Motions(generation, es)| - |rest|];
      assert Motions(generation, es) == first + rest;
      MotionsTravel(a, generation, es[1..]);
      ReportedJoins(a, first, rest);
      if first != [] { ReportedOne(a, first[0]); }
    }
  }

  lemma EventTravels(a: Axis, s: State, e: Event)
    requires Inv(s)
    ensures Reported(a, Next(s, e).log) == Reported(a, s.log) + Leg(a, s, e)
  {
    EventTells(s, e);
    ReportedIsTold(a, s.log);
    ReportedIsTold(a, Next(s, e).log);
    ReportedJoins(a, Told(s.log), Telling(s, e));
    match e
    case ReadRaw(events) => MotionsTravel(a, s.generation, events);
    case RelativeMotion(dx, dy) => ReportedOne(a, MotionNote(s.generation, dx, dy));
    case Reseed(_, _) => if Telling(s, e) != [] { ReportedOne(a, Telling(s, e)[0]); }
    case _ =>
  }

  /** Over every run the distances reported on an axis add up to the distances moved on that axis while captured. */
  lemma {:induction false} MotionIsConserved(a: Axis, s: State, es: seq<Event>)
    requires Inv(s) && Runs(s, es)
    ensures Reported(a, After(s, es).log) == Reported(a, s.log) + Journey(a, s, es)
    decreases |es|
  {
    if es != [] {
      EventTravels(a, s, es[0]);
      NextKeeps(s, es[0]);
      MotionIsConserved(a, Next(s, es[0]), es[1..]);
    }
  }

  // ---- where the pointer is put back -----------------------------------------------------------

  /** Inside the view the place is the coordinate itself, in pixels; only the last pixel is cut off. */
  lemma PlaceIsTheCoordinate(offset: int, size: int, x: real)
    requires size >= 1 && 0.0 <= x <= 1.0
    ensures Place(offset, size, x) == offset as real + x * size as real || x * size as real > (size - 1) as real
    ensures x * size as real > (size - 1) as real ==> Place(offset, size, x) == (offset + size - 1) as real
  {
  }

  // ---- when a capture begins, and why it ends --------------------------------------------------

  /** Nothing that this request depends on is missing. */
  predicate AllGoesWell(wayland: bool, a: Attempt) {
    a.supported && a.focused && a.realized && if wayland then a.pointer else a.opens && a.queries && a.grabs
  }

  lemma ReleasedLast(s: State, reason: string)
    requires LogOk(s) && Droppable(s)
    ensures Last(Released(s, reason).log) ==
      if s.requested then Some(UnlockedNote(s.generation, reason)) else Last(s.log)
    ensures !Released(s, reason).requested
    ensures Released(s, reason).wayland == s.wayland && Released(s, reason).generation == s.generation
  {
    EmptiedHoldsNothing(s);
    if s.requested { LogGrows(Emptied(s).log, UnlockedNote(s.generation, reason)); }
  }

  lemma RequestDecides(s: State, id: int, a: Attempt)
    ensures Locked(s, id, a).1 <==> AllGoesWell(Released(s, "replaced").wayland, a)
  {
  }

  lemma ConfirmedStays(s: State)
    ensures Confirmed(s).generation == s.generation && Confirmed(s).requested == s.requested
    ensures Confirmed(s).wayland == s.wayland
  {
  }

  lemma AttemptStays(s: State, a: Attempt)
    requires Attempted(s, a).1
    ensures Attempted(s, a).0.generation == s.generation && Attempted(s, a).0.wayland == s.wayland
  {
    if !s.wayland {
      var t := Take(Take(Hidden(Take(s, Raw)), Grab), Source);
      assert t.generation == s.generation && t.wayland == s.wayland;
      ConfirmedStays(t);
      assert Attempted(s, a).0 == Confirmed(t);
    }
  }

  /** A request succeeds exactly when nothing is missing; on X11 it is then complete, on Wayland to be confirmed. */
  lemma LockSucceedsExactly(s: State, id: int, a: Attempt)
    requires Inv(s)
    ensures var (t, ok) := Locked(s, id, a);
      && (ok <==> AllGoesWell(s.wayland, a))
      && (ok ==> t.requested && t.generation == id && (t.active <==> !s.wayland) && t.wayland == s.wayland)
      && (!ok ==> !t.requested && t.held == NOTHING)
  {
    LockAnswers(s, id, a);
    ReleasedKeeps(s, "replaced");
    RequestDecides(s, id, a);
    if Locked(s, id, a).1 { AttemptStays(Begun(Released(s, "replaced"), id), a); }
  }

  /** The capture of generation `generation` has ended, and that was the last note. */
  predicate EndedWith(t: State, generation: int, reason: string) {
    !t.requested && t.generation == generation && Last(t.log) == Some(UnlockedNote(generation, reason))
  }

  lemma ReleasedEnds(u: State, generation: int, reason: string)
    requires LogOk(u) && Droppable(u) && u.requested && u.generation == generation
    ensures EndedWith(Released(u, reason), generation, reason)
  {
    ReleasedLast(u, reason);
  }

  /** Why a capture under way ends with this event. */
  function Reason(e: Event): string {
    match e
    case LockCall(_, _) => "replaced"
    case Unlock(reason) => reason
    case TimedOut => "timeout"
    case HungUp => "connection-lost"
    case _ => "released"
  }

  predicate Ends(s: State, e: Event) {
    match e
    case Unlock(_) => true
    case TimedOut => true
    case HungUp => true
    case UnlockGeneration(id) => s.generation == id
    case Reseed(id, _) => s.generation == id
    case _ => false
  }

  /** A capture under way that ends is told so with the reason, and one that does not end is still under way. */
  lemma EndIsExplained(s: State, e: Event)
    requires Inv(s) && Possible(s, e) && s.requested && !e.LockCall?
    ensures var t := Next(s, e);
      if Ends(s, e) then EndedWith(t, s.generation, Reason(e)) else t.requested && t.generation == s.generation
  {
    match e
    case Unlock(reason) => ReleasedEnds(s, s.generation, reason);
    case UnlockGeneration(id) => ReleasedEnds(s, s.generation, "released");
    case Reseed(id, p) => ReseedExplained(s, p);
    case TimedOut => LossExplained(s, Timer, "timeout");
    case HungUp => LossExplained(s, Source, "connection-lost");
    case ReadRaw(events) => RawReadStays(s, events);
    case Confirm => ConfirmedStays(s);
    case RelativeMotion(_, _) =>
  }

  lemma LossExplained(s: State, r: Resource, reason: string)
    requires Inv(s) && s.requested && (r.Timer? || r.Source?)
    ensures EndedWith(Released(Drop(s, r), reason), s.generation, reason)
  {
    LossReady(s, r);
    ReleasedEnds(Drop(s, r), s.generation, reason);
  }

  lemma LossReady(s: State, r: Resource)
    requires LogOk(s) && Droppable(s) && (r.Timer? || r.Source?)
    ensures var u := Drop(s, r);
      LogOk(u) && Droppable(u) && u.generation == s.generation && u.requested == s.requested
  {
    DropKeeps(s, r);
  }

  lemma {:induction false} RawReadStays(s: State, es: seq<RawEvent>)
    ensures RawRead(s, es).requested == s.requested && RawRead(s, es).generation == s.generation
    decreases |es|
  {
    if es != [] {
      RawReadStays(if Counts(s, es[0]) then Moved(s, es[0].dx.value, es[0].dy.value) else s, es[1..]);
    }
  }

  lemma ReseedExplained(s: State, p: Placement)
    requires Inv(s) && s.requested
    ensures EndedWith(Reseeded(s, p), s.generation, "released")
  {
    if !Placeable(s, p) {
      ReleasedEnds(s, s.generation, "released");
    } else {
      var x, y := Place(p.offset.value.0, p.width, p.x.value), Place(p.offset.value.1, p.height, p.y.value);
      if s.wayland { HintExplained(s, x, y); } else { WarpExplained(s, x, y); }
    }
  }

  lemma HintExplained(s: State, x: real, y: real)
    requires Inv(s) && s.active && s.wayland
    ensures EndedWith(Released(Note(s, Hint(x, y)), "released"), s.generation, "released")
  {
    NoteKeeps(s, Hint(x, y));
    ReleasedEnds(Note(s, Hint(x, y)), s.generation, "released");
  }

  lemma WarpExplained(s: State, x: real, y: real)
    requires Inv(s) && s.active && !s.wayland
    ensures EndedWith(Released(Note(Drop(s.(active := false), Grab), Warp(x, y)), "released"), s.generation, "released")
  {
    WarpReady(s, x, y);
    ReleasedEnds(Note(Drop(s.(active := false), Grab), Warp(x, y)), s.generation, "released");
  }

  /** A request first ends the capture it replaces, with that reason, and is itself told when it fails half-way. */
  lemma RequestIsExplained(s: State, id: int, a: Attempt)
    requires Inv(s)
    ensures s.requested ==> Last(Released(s, "replaced").log) == Some(UnlockedNote(s.generation, "replaced"))
    ensures Released(s, "replaced").log <= Locked(s, id, a).0.log
    ensures a.supported && a.focused && a.realized && !AllGoesWell(s.wayland, a) ==>
      Last(Locked(s, id, a).0.log) == Some(UnlockedNote(id, "failed"))
    ensures !(a.supported && a.focused && a.realized) ==> Locked(s, id, a).0 == Released(s, "replaced")
  {
    var t := Released(s, "replaced");
    ReleasedLast(s, "replaced");
    ReleasedKeeps(s, "replaced");
    if a.supported && a.focused && a.realized {
      BegunKeeps(t, id);
      if t.wayland { WaylandFails(Begun(t, id), a); } else { X11Fails(Begun(t, id), a); }
      LogOnlyGrows(t, id, a);
    }
  }

  lemma WaylandFails(s: State, a: Attempt)
    requires LogOk(s) && s.requested && s.held == NOTHING.(window := true)
    ensures !a.pointer ==> Last(LockedWayland(s, a).0.log) == Some(UnlockedNote(s.generation, "failed"))
  {
    ReleasedLast(s, "failed");
  }

  lemma X11Fails(s: State, a: Attempt)
    requires LogOk(s) && s.requested && s.held == NOTHING.(window := true)
    ensures !(a.opens && a.queries && a.grabs) ==>
      Last(LockedX11(s, a).0.log) == Some(UnlockedNote(s.generation, "failed"))
  {
    var t := Take(s, Raw);
    ReleasedLast(s, "failed");
    GrowKeeps(s, Raw);
    ReleasedLast(t, "failed");
    GrowKeeps(t, Cursor);
    ReleasedLast(Hidden(t), "failed");
  }

  lemma LogOnlyGrows(t: State, id: int, a: Attempt)
    ensures t.log <= Attempted(Begun(t, id), a).0.log
  {
    var u := Begun(t, id);
    assert t.log <= u.log;
    if t.wayland { WaylandGrows(u, a); } else { X11Grows(u, a); }
  }

  lemma WaylandGrows(u: State, a: Attempt)
    ensures u.log <= LockedWayland(u, a).0.log
  {
    ReleasedGrows(u, "failed");
  }

  lemma X11Grows(u: State, a: Attempt)
    ensures u.log <= LockedX11(u, a).0.log
  {
    var v := Take(u, Raw);
    var w := Hidden(v);
    if !a.opens { ReleasedGrows(u, "failed"); }
    else if !a.queries { ReleasedGrows(v, "failed"); }
    else if !a.grabs { ReleasedGrows(w, "failed"); }
    else { GrabGrows(w); }
    assert u.log <= v.log <= w.log;
  }

  lemma GrabGrows(w: State)
    ensures w.log <= Confirmed(Take(Take(w, Grab), Source)).log
  {
    ConfirmedGrows(Take(Take(w, Grab), Source));
    assert w.log <= Take(w, Grab).log <= Take(Take(w, Grab), Source).log;
  }

  lemma ConfirmedGrows(s: State)
    ensures s.log <= Confirmed(s).log
  {
  }

  lemma DropGrows(s: State, r: Resource)
    ensures s.log <= Drop(s, r).log
  {
  }

  lemma DropWaylandGrows(s: State)
    ensures s.log <= DropWayland(s).log
  {
    DropGrows(s, Timer);
    DropGrows(Drop(s, Timer), Lock);
    DropGrows(Drop(Drop(s, Timer), Lock), Relative);
  }

  lemma DropX11Grows(s: State)
    ensures s.log <= DropX11(s).log
  {
    var t := if s.held.window then Drop(s, Grab) else s;
    DropGrows(s, Grab);
    DropGrows(t, Source);
    DropGrows(Drop(t, Source), Raw);
  }

  lemma ReleasedGrows(s: State, reason: string)
    ensures s.log <= Released(s, reason).log
  {
    var t := s.(requested := false, active := false);
    DropWaylandGrows(t);
    DropX11Grows(DropWayland(t));
    var u := DropX11(DropWayland(t));
    DropGrows(u, Cursor);
    DropGrows(Drop(u, Cursor), Window);
    assert Emptied(s) == DropWindow(u);
  }
}
