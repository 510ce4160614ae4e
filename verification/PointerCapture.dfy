/**
 Pointer capture on X11 and Wayland.  A capture collects resources one by one and any step may fail, be
 overtaken by a newer request or be ended by the system; the embedder is told about every capture once.
 */
module PointerCapture {
  import opened Options

  datatype Resource = Window | Raw | Source | Grab | Lock | Relative | Timer | Cursor

  /** `cursor`: our blank cursor is shown; `timer`: the five-second limit is running. */
  datatype Held = Held(window: bool, raw: bool, source: bool, grab: bool, lock: bool, relative: bool,
                       timer: bool, cursor: bool)

  const NOTHING := Held(false, false, false, false, false, false, false, false)

  predicate Uses(h: Held, r: Resource) {
    match r
    case Window => h.window
    case Raw => h.raw
    case Source => h.source
    case Grab => h.grab
    case Lock => h.lock
    case Relative => h.relative
    case Timer => h.timer
    case Cursor => h.cursor
  }

  function Put(h: Held, r: Resource, on: bool): Held {
    match r
    case Window => h.(window := on)
    case Raw => h.(raw := on)
    case Source => h.(source := on)
    case Grab => h.(grab := on)
    case Lock => h.(lock := on)
    case Relative => h.(relative := on)
    case Timer => h.(timer := on)
    case Cursor => h.(cursor := on)
  }

  lemma PutChangesOne(h: Held, r: Resource, on: bool)
    ensures forall q :: Uses(Put(h, r, on), q) <==> if q == r then on else Uses(h, q)
  {
  }

  datatype Effect =
    | Requested(generation: int)
    | LockedNote(generation: int)
    | MotionNote(generation: int, dx: real, dy: real)
    | UnlockedNote(generation: int, reason: string)
    | Taken(resource: Resource)
    | Freed(resource: Resource)
    | Hint(x: real, y: real)
    | Warp(x: real, y: real)

  datatype State = State(wayland: bool, requested: bool, active: bool, generation: int, held: Held, log: seq<Effect>)

  function Initial(wayland: bool): State {
    State(wayland, false, false, 0, NOTHING, [])
  }

  function Note(s: State, e: Effect): State {
    s.(log := s.log + [e])
  }

  function Take(s: State, r: Resource): State {
    Note(s.(held := Put(s.held, r, true)), Taken(r))
  }

  function Drop(s: State, r: Resource): State {
    if Uses(s.held, r) then Note(s.(held := Put(s.held, r, false)), Freed(r)) else s
  }

  // ---- ending a capture ------------------------------------------------------------------------

  function DropWayland(s: State): State {
    Drop(Drop(Drop(s, Timer), Lock), Relative)
  }

  function DropX11(s: State): State {
    Drop(Drop(if s.held.window then Drop(s, Grab) else s, Source), Raw)
  }

  function DropWindow(s: State): State {
    if s.held.window then Drop(Drop(s, Cursor), Window) else s
  }

  function Emptied(s: State): State {
    DropWindow(DropX11(DropWayland(s.(requested := false, active := false))))
  }

  function Released(s: State, reason: string): State {
    var t := Emptied(s);
    if s.requested then Note(t, UnlockedNote(s.generation, reason)) else t
  }

  // ---- starting one ----------------------------------------------------------------------------

  function Hidden(s: State): State {
    if s.held.cursor then s else Take(s, Cursor)
  }

  function Confirmed(s: State): State {
    if !s.requested || s.active then s
    else Note(Drop(Hidden(s.(active := true)), Timer), LockedNote(s.generation))
  }

  /** How each thing a request depends on turns out. */
  datatype Attempt = Attempt(supported: bool, focused: bool, realized: bool,
                             opens: bool, queries: bool, grabs: bool, pointer: bool)

  function LockedX11(s: State, a: Attempt): (State, bool) {
    if !a.opens then (Released(s, "failed"), false)
    else
      var t := Take(s, Raw);
      if !a.queries then (Released(t, "failed"), false)
      else if !a.grabs then (Released(Hidden(t), "failed"), false)
      else (Confirmed(Take(Take(Hidden(t), Grab), Source)), true)
  }

  function LockedWayland(s: State, a: Attempt): (State, bool) {
    if !a.pointer then (Released(s, "failed"), false)
    else (Take(Take(Take(s, Relative), Lock), Timer), true)
  }

  function Begun(s: State, id: int): State {
    Note(Take(s, Window).(generation := id, requested := true), Requested(id))
  }

  function Attempted(s: State, a: Attempt): (State, bool) {
    if s.wayland then LockedWayland(s, a) else LockedX11(s, a)
  }

  /** The result says whether the request succeeded. */
  function Locked(s: State, id: int, a: Attempt): (State, bool) {
    var t := Released(s, "replaced");
    if !a.supported || !a.focused || !a.realized then (t, false) else Attempted(Begun(t, id), a)
  }

  // ---- putting the pointer back ----------------------------------------------------------------

  function Min(a: real, b: real): real { if a < b then a else b }

  function Clamp01(x: real): real { if x < 0.0 then 0.0 else if x > 1.0 then 1.0 else x }

  /** A view coordinate in [0, 1] on an axis of `size` pixels that starts at `offset`. */
  function Place(offset: int, size: int, x: real): real {
    offset as real + Min(Clamp01(x) * size as real, (size - 1) as real)
  }

  lemma PlaceInside(offset: int, size: int, x: real)
    requires size >= 1
    ensures offset as real <= Place(offset, size, x) <= (offset + size - 1) as real
    ensures x <= 0.0 ==> Place(offset, size, x) == offset as real
    ensures x >= 1.0 ==> Place(offset, size, x) == (offset + size - 1) as real
  {
    assert Clamp01(x) * size as real >= 0.0;
  }

  lemma PlaceMonotone(offset: int, size: int, x: real, y: real)
    requires size >= 1 && x <= y
    ensures Place(offset, size, x) <= Place(offset, size, y)
  {
    var a, b, n := Clamp01(x), Clamp01(y), size as real;
    assert b * n == a * n + (b - a) * n;
  }

  /** `x`, `y`: finite coordinates; `offset`: where the view lies in the native window, if it can be told. */
  datatype Placement = Placement(alive: bool, x: Option<real>, y: Option<real>, offset: Option<(int, int)>,
                                 width: int, height: int)

  predicate Placeable(s: State, p: Placement) {
    s.active && s.held.window && p.alive && p.x.Some? && p.y.Some? && p.offset.Some?
  }

  function Reseeded(s: State, p: Placement): State {
    if !Placeable(s, p) then Released(s, "released")
    else
      var px := Place(p.offset.value.0, p.width, p.x.value);
      var py := Place(p.offset.value.1, p.height, p.y.value);
      if s.wayland then Released(if s.held.lock then Note(s, Hint(px, py)) else s, "released")
      else Released(Note(Drop(s.(active := false), Grab), Warp(px, py)), "released")
  }

  // ---- motion ----------------------------------------------------------------------------------

  datatype RawEvent = OtherEvent | RawMotion(relative: bool, dx: Option<real>, dy: Option<real>)

  predicate Counts(s: State, e: RawEvent) {
    && s.active && e.RawMotion? && e.relative && e.dx.Some? && e.dy.Some?
    && (e.dx.value != 0.0 || e.dy.value != 0.0)
  }

  function Moved(s: State, dx: real, dy: real): State {
    if s.active then Note(s, MotionNote(s.generation, dx, dy)) else s
  }

  function RawRead(s: State, es: seq<RawEvent>): State
    decreases |es|
  {
    if es == [] then s
    else RawRead(if Counts(s, es[0]) then Moved(s, es[0].dx.value, es[0].dy.value) else s, es[1..])
  }

  // ---- runs ------------------------------------------------------------------------------------

  datatype Event =
    | LockCall(id: int, attempt: Attempt)
    | Unlock(reason: string)
    | UnlockGeneration(id: int)
    | Reseed(id: int, placement: Placement)
    | Confirm
    | TimedOut
    | HungUp
    | ReadRaw(events: seq<RawEvent>)
    | RelativeMotion(dx: real, dy: real)

  predicate Possible(s: State, e: Event) {
    match e
    case TimedOut => s.held.timer
    case HungUp => s.held.source
    case ReadRaw(_) => s.held.source
    case _ => true
  }

  /** `Unlock` also stands for every system event that ends a capture: focus lost, unmapped, disposed. */
  function Next(s: State, e: Event): State {
    match e
    case LockCall(id, attempt) => Locked(s, id, attempt).0
    case Unlock(reason) => Released(s, reason)
    case UnlockGeneration(id) => if s.generation == id then Released(s, "released") else s
    case Reseed(id, placement) => if s.generation == id then Reseeded(s, placement) else s
    case Confirm => Confirmed(s)
    case TimedOut => Released(Drop(s, Timer), "timeout")
    case HungUp => Released(Drop(s, Source), "connection-lost")
    case ReadRaw(events) => RawRead(s, events)
    case RelativeMotion(dx, dy) => Moved(s, dx, dy)
  }

  predicate Runs(s: State, es: seq<Event>)
    decreases |es|
  {
    es == [] || (Possible(s, es[0]) && Runs(Next(s, es[0]), es[1..]))
  }

  function After(s: State, es: seq<Event>): State
    requires Runs(s, es)
    decreases |es|
  {
    if es == [] then s else After(Next(s, es[0]), es[1..])
  }

  // ---- what a log must look like ---------------------------------------------------------------

  predicate IsNote(e: Effect) {
    e.Requested? || e.LockedNote? || e.MotionNote? || e.UnlockedNote?
  }

  /** The latest notification. */
  function Last(log: seq<Effect>): Option<Effect>
    decreases |log|
  {
    if log == [] then None
    else if IsNote(log[|log| - 1]) then Some(log[|log| - 1]) else Last(log[..|log| - 1])
  }

  /** A capture of this generation has been requested and not ended. */
  predicate OpenFor(last: Option<Effect>, generation: int) {
    last.Some? && !last.value.UnlockedNote? && IsNote(last.value) && last.value.generation == generation
  }

  predicate LockedFor(last: Option<Effect>, generation: int) {
    OpenFor(last, generation) && !last.value.Requested?
  }

  /** Requested, then perhaps locked with motions, then unlocked: nothing else, and one generation throughout. */
  predicate Follows(last: Option<Effect>, e: Effect) {
    match e
    case Requested(_) => last.None? || last.value.UnlockedNote?
    case LockedNote(g) => last == Some(Requested(g))
    case MotionNote(g, _, _) => LockedFor(last, g)
    case UnlockedNote(g, _) => OpenFor(last, g)
    case _ => true
  }

  predicate InUse(log: seq<Effect>, r: Resource)
    decreases |log|
  {
    if log == [] then false
    else
      var e := log[|log| - 1];
      if e == Taken(r) then true else if e == Freed(r) then false else InUse(log[..|log| - 1], r)
  }

  /** A resource is taken only when free and freed only when taken; the pointer is placed at the right moment. */
  predicate Proper(log: seq<Effect>, e: Effect) {
    match e
    case Taken(r) => !InUse(log, r)
    case Freed(r) => InUse(log, r)
    case Hint(_, _) => InUse(log, Lock)
    case Warp(_, _) => !InUse(log, Grab) && InUse(log, Cursor)
    case _ => true
  }

  ghost predicate WellFormed(log: seq<Effect>) {
    forall j :: 0 <= j < |log| ==> Follows(Last(log[..j]), log[j]) && Proper(log[..j], log[j])
  }

  // ---- invariants ------------------------------------------------------------------------------

  /** What is held between calls is determined by how far the capture is. */
  function HeldIn(s: State): Held {
    if !s.requested then NOTHING
    else if !s.active then Held(true, false, false, false, true, true, true, false)
    else if s.wayland then Held(true, false, false, false, true, true, false, true)
    else Held(true, true, true, true, false, false, false, true)
  }

  ghost predicate LogOk(s: State) {
    && WellFormed(s.log)
    && (forall r :: Uses(s.held, r) <==> InUse(s.log, r))
    && (if s.requested then OpenFor(Last(s.log), s.generation)
        else Last(s.log).None? || Last(s.log).value.UnlockedNote?)
    && (s.active ==> s.requested && LockedFor(Last(s.log), s.generation))
  }

  ghost predicate Inv(s: State) {
    && LogOk(s)
    && s.held == HeldIn(s)
    && (s.requested && !s.active ==> s.wayland && Last(s.log) == Some(Requested(s.generation)))
    && (s.active ==> s.requested)
  }

  lemma LogGrows(log: seq<Effect>, e: Effect)
    ensures Last(log + [e]) == if IsNote(e) then Some(e) else Last(log)
    ensures forall r :: InUse(log + [e], r) <==>
      if e == Taken(r) then true else if e == Freed(r) then false else InUse(log, r)
    ensures WellFormed(log) && Follows(Last(log), e) && Proper(log, e) ==> WellFormed(log + [e])
  {
    var l := log + [e];
    assert l[..|log|] == log;
    forall j | 0 <= j < |log| ensures l[..j] == log[..j] {
    }
  }

  lemma TakeKeeps(s: State, r: Resource)
    requires LogOk(s) && !Uses(s.held, r)
    ensures LogOk(Take(s, r))
  {
    PutChangesOne(s.held, r, true);
    LogGrows(s.log, Taken(r));
  }

  lemma DropKeeps(s: State, r: Resource)
    requires LogOk(s)
    ensures LogOk(Drop(s, r)) && Drop(s, r).held == Put(s.held, r, false)
    ensures Drop(s, r) == s.(held := Drop(s, r).held, log := Drop(s, r).log)
    ensures Last(Drop(s, r).log) == Last(s.log)
  {
    PutChangesOne(s.held, r, false);
    if Uses(s.held, r) { LogGrows(s.log, Freed(r)); }
  }

  /** The note that ends a capture may only come once everything is free. */
  predicate Droppable(s: State) {
    (s.held.grab || s.held.cursor) ==> s.held.window
  }

  ghost predicate Ending(s: State, t: State) {
    WellFormed(t.log) && (forall r :: Uses(t.held, r) <==> InUse(t.log, r)) && Last(t.log) == Last(s.log) &&
    t == s.(held := t.held, log := t.log)
  }

  lemma EndingDrop(s: State, t: State, r: Resource)
    requires Ending(s, t)
    ensures Ending(s, Drop(t, r)) && Drop(t, r).held == Put(t.held, r, false)
  {
    PutChangesOne(t.held, r, false);
    if Uses(t.held, r) { LogGrows(t.log, Freed(r)); }
  }

  lemma EndingWayland(s: State, t: State)
    requires Ending(s, t)
    ensures Ending(s, DropWayland(t))
    ensures DropWayland(t).held == t.held.(timer := false, lock := false, relative := false)
  {
    EndingDrop(s, t, Timer);
    var u := Drop(t, Timer);
    EndingDrop(s, u, Lock);
    var v := Drop(u, Lock);
    EndingDrop(s, v, Relative);
    assert DropWayland(t) == Drop(v, Relative);
  }

  lemma EndingX11(s: State, t: State)
    requires Ending(s, t) && Droppable(t)
    ensures Ending(s, DropX11(t)) && DropX11(t).held == t.held.(grab := false, source := false, raw := false)
  {
    if t.held.window { EndingDrop(s, t, Grab); }
    var u := if t.held.window then Drop(t, Grab) else t;
    EndingDrop(s, u, Source);
    EndingDrop(s, Drop(u, Source), Raw);
  }

  lemma EndingWindow(s: State, t: State)
    requires Ending(s, t) && Droppable(t)
    ensures Ending(s, DropWindow(t)) && DropWindow(t).held == t.held.(cursor := false, window := false)
  {
    if t.held.window {
      EndingDrop(s, t, Cursor);
      EndingDrop(s, Drop(t, Cursor), Window);
    }
  }

  lemma EmptiedHoldsNothing(s: State)
    requires LogOk(s) && Droppable(s)
    ensures Ending(s.(requested := false, active := false), Emptied(s)) && Emptied(s).held == NOTHING
    ensures s.held == NOTHING ==> Emptied(s).log == s.log
  {
    var s0 := s.(requested := false, active := false);
    EndingWayland(s0, s0);
    EndingX11(s0, DropWayland(s0));
    EndingWindow(s0, DropX11(DropWayland(s0)));
  }

  /** Releasing frees everything, exactly once, and then tells the embedder if there was a request. */
  lemma ReleasedKeeps(s: State, reason: string)
    requires LogOk(s) && Droppable(s)
    ensures Inv(Released(s, reason)) && !Released(s, reason).requested && Released(s, reason).wayland == s.wayland
    ensures s.held == NOTHING && !s.requested ==> Released(s, reason).log == s.log
  {
    EmptiedHoldsNothing(s);
    var t := Emptied(s);
    if s.requested { LogGrows(t.log, UnlockedNote(s.generation, reason)); }
  }

  lemma ConfirmedKeeps(s: State)
    requires LogOk(s) && s.requested && !s.active && Last(s.log) == Some(Requested(s.generation))
    ensures LogOk(Confirmed(s)) && Confirmed(s).active
    ensures Confirmed(s).held == s.held.(cursor := true, timer := false)
  {
    HiddenKeeps(s);
    var u := Hidden(s);
    DropKeeps(u, Timer);
    LockedNoteKeeps(Drop(u, Timer));
    assert Drop(Hidden(s.(active := true)), Timer) == Drop(u, Timer).(active := true);
  }

  lemma HiddenKeeps(s: State)
    requires LogOk(s)
    ensures LogOk(Hidden(s)) && Hidden(s).held == s.held.(cursor := true) && Last(Hidden(s).log) == Last(s.log)
    ensures Hidden(s) == s.(held := Hidden(s).held, log := Hidden(s).log)
  {
    if !s.held.cursor { GrowKeeps(s, Cursor); }
  }

  lemma LockedNoteKeeps(s: State)
    requires LogOk(s) && s.requested && Last(s.log) == Some(Requested(s.generation))
    ensures LogOk(Note(s.(active := true), LockedNote(s.generation)))
  {
    LogGrows(s.log, LockedNote(s.generation));
  }

  lemma BegunKeeps(s: State, id: int)
    requires Inv(s) && !s.requested
    ensures LogOk(Begun(s, id)) && Begun(s, id).held == NOTHING.(window := true)
    ensures Last(Begun(s, id).log) == Some(Requested(id))
  {
    TakeKeeps(s, Window);
    LogGrows(s.log, Taken(Window));
    LogGrows(Take(s, Window).log, Requested(id));
  }

  /** One more resource for a capture under way. */
  lemma GrowKeeps(s: State, r: Resource)
    requires LogOk(s) && !Uses(s.held, r)
    ensures LogOk(Take(s, r)) && Last(Take(s, r).log) == Last(s.log)
  {
    PutChangesOne(s.held, r, true);
    LogGrows(s.log, Taken(r));
  }

  lemma GrabKeeps(s: State)
    requires LogOk(s) && s.requested && !s.active && !s.wayland && Last(s.log) == Some(Requested(s.generation))
    requires s.held == NOTHING.(window := true, raw := true, cursor := true)
    ensures Inv(Confirmed(Take(Take(s, Grab), Source))) && Confirmed(Take(Take(s, Grab), Source)).active
  {
    GrowKeeps(s, Grab);
    GrowKeeps(Take(s, Grab), Source);
    ConfirmedKeeps(Take(Take(s, Grab), Source));
  }

  lemma LockedX11Keeps(s: State, a: Attempt)
    requires LogOk(s) && s.requested && !s.active && !s.wayland && s.held == NOTHING.(window := true)
    requires Last(s.log) == Some(Requested(s.generation))
    ensures Inv(LockedX11(s, a).0)
    ensures LockedX11(s, a).1 == (a.opens && a.queries && a.grabs)
    ensures LockedX11(s, a).1 == LockedX11(s, a).0.requested == LockedX11(s, a).0.active
  {
    if !a.opens { ReleasedKeeps(s, "failed"); }
    else {
      var t := Take(s, Raw);
      GrowKeeps(s, Raw);
      if !a.queries { ReleasedKeeps(t, "failed"); }
      else {
        GrowKeeps(t, Cursor);
        if !a.grabs { ReleasedKeeps(Hidden(t), "failed"); } else { GrabKeeps(Hidden(t)); }
      }
    }
  }

  lemma LockedWaylandKeeps(s: State, a: Attempt)
    requires LogOk(s) && s.requested && !s.active && s.wayland && s.held == NOTHING.(window := true)
    requires Last(s.log) == Some(Requested(s.generation))
    ensures Inv(LockedWayland(s, a).0)
    ensures LockedWayland(s, a).1 == LockedWayland(s, a).0.requested == a.pointer && !LockedWayland(s, a).0.active
  {
    if !a.pointer { ReleasedKeeps(s, "failed"); }
    else {
      GrowKeeps(s, Relative);
      GrowKeeps(Take(s, Relative), Lock);
      GrowKeeps(Take(Take(s, Relative), Lock), Timer);
    }
  }

  lemma AttemptKeeps(t: State, id: int, a: Attempt)
    requires Inv(t) && !t.requested
    ensures var (u, ok) := Attempted(Begun(t, id), a);
      Inv(u) && ok == u.requested && (u.active <==> ok && !t.wayland)
  {
    BegunKeeps(t, id);
    if t.wayland { LockedWaylandKeeps(Begun(t, id), a); } else { LockedX11Keeps(Begun(t, id), a); }
  }

  /** A request answers success exactly when a capture is under way afterwards; on X11 it is then complete. */
  lemma LockAnswers(s: State, id: int, a: Attempt)
    requires Inv(s)
    ensures var (t, ok) := Locked(s, id, a);
      Inv(t) && ok == t.requested && (t.active <==> ok && !s.wayland)
  {
    ReleasedKeeps(s, "replaced");
    var t := Released(s, "replaced");
    if a.supported && a.focused && a.realized { AttemptKeeps(t, id, a); }
  }

  /** Placing the pointer, at a moment when that is proper. */
  lemma NoteKeeps(s: State, e: Effect)
    requires LogOk(s) && (e.Hint? || e.Warp?) && Proper(s.log, e)
    ensures LogOk(Note(s, e))
  {
    LogGrows(s.log, e);
  }

  lemma HintKeeps(s: State, x: real, y: real)
    requires Inv(s) && s.active && s.wayland
    ensures Inv(Released(Note(s, Hint(x, y)), "released")) && !Released(Note(s, Hint(x, y)), "released").requested
  {
    NoteKeeps(s, Hint(x, y));
    ReleasedKeeps(Note(s, Hint(x, y)), "released");
  }

  lemma WarpReady(s: State, x: real, y: real)
    requires Inv(s) && s.active && !s.wayland
    ensures var t := Note(Drop(s.(active := false), Grab), Warp(x, y)); LogOk(t) && Droppable(t)
  {
    var t := Drop(s.(active := false), Grab);
    DropKeeps(s.(active := false), Grab);
    NoteKeeps(t, Warp(x, y));
  }

  lemma WarpKeeps(s: State, x: real, y: real)
    requires Inv(s) && s.active && !s.wayland
    ensures var t := Released(Note(Drop(s.(active := false), Grab), Warp(x, y)), "released"); Inv(t) && !t.requested
  {
    WarpReady(s, x, y);
    ReleasedKeeps(Note(Drop(s.(active := false), Grab), Warp(x, y)), "released");
  }

  lemma ReseededKeeps(s: State, p: Placement)
    requires Inv(s)
    ensures Inv(Reseeded(s, p)) && !Reseeded(s, p).requested
    ensures !s.requested ==> Reseeded(s, p).log == s.log
  {
    if !Placeable(s, p) { ReleasedKeeps(s, "released"); }
    else {
      var px := Place(p.offset.value.0, p.width, p.x.value);
      var py := Place(p.offset.value.1, p.height, p.y.value);
      if s.wayland { HintKeeps(s, px, py); } else { WarpKeeps(s, px, py); }
    }
  }

  lemma MovedKeeps(s: State, dx: real, dy: real)
    requires Inv(s)
    ensures Inv(Moved(s, dx, dy))
  {
    if s.active { LogGrows(s.log, MotionNote(s.generation, dx, dy)); }
  }

  lemma {:induction false} RawReadKeeps(s: State, es: seq<RawEvent>)
    requires Inv(s)
    ensures Inv(RawRead(s, es))
    decreases |es|
  {
    if es != [] {
      if Counts(s, es[0]) { MovedKeeps(s, es[0].dx.value, es[0].dy.value); }
      RawReadKeeps(if Counts(s, es[0]) then Moved(s, es[0].dx.value, es[0].dy.value) else s, es[1..]);
    }
  }

  lemma ConfirmKeeps(s: State)
    requires Inv(s)
    ensures Inv(Confirmed(s))
  {
    if s.requested && !s.active { ConfirmedKeeps(s); }
  }

  lemma NextKeeps(s: State, e: Event)
    requires Inv(s) && Possible(s, e)
    ensures Inv(Next(s, e))
  {
    match e
    case LockCall(id, attempt) => LockAnswers(s, id, attempt);
    case Unlock(reason) => ReleasedKeeps(s, reason);
    case UnlockGeneration(id) => ReleasedKeeps(s, "released");
    case Reseed(id, placement) => ReseededKeeps(s, placement);
    case Confirm => ConfirmKeeps(s);
    case TimedOut => DropKeeps(s, Timer); ReleasedKeeps(Drop(s, Timer), "timeout");
    case HungUp => DropKeeps(s, Source); ReleasedKeeps(Drop(s, Source), "connection-lost");
    case ReadRaw(events) => RawReadKeeps(s, events);
    case RelativeMotion(dx, dy) => MovedKeeps(s, dx, dy);
  }

  lemma {:induction false} RunKeeps(s: State, es: seq<Event>)
    requires Inv(s) && Runs(s, es)
    ensures Inv(After(s, es))
    decreases |es|
  {
    if es != [] {
      NextKeeps(s, es[0]);
      RunKeeps(Next(s, es[0]), es[1..]);
    }
  }

  // ---- main results ----------------------------------------------------------------------------

  lemma StartsWell(wayland: bool)
    ensures Inv(Initial(wayland))
  {
  }

  /**
   In every run the notifications are captures one after the other, the last one open exactly while a
   capture is requested; and every resource is taken and freed alternately, all free when none is requested.
   */
  lemma RunsAreCaptures(wayland: bool, es: seq<Event>)
    requires Runs(Initial(wayland), es)
    ensures var s := After(Initial(wayland), es);
      && WellFormed(s.log)
      && (s.requested <==> Last(s.log).Some? && !Last(s.log).value.UnlockedNote?)
      && (s.active <==> s.requested && !Last(s.log).value.Requested?)
      && (forall r :: InUse(s.log, r) ==> s.requested)
  {
    StartsWell(wayland);
    RunKeeps(Initial(wayland), es);
  }

  lemma {:induction false} UsesBalance(log: seq<Effect>, r: Resource)
    requires WellFormed(log)
    ensures multiset(log)[Taken(r)] == multiset(log)[Freed(r)] + if InUse(log, r) then 1 else 0
    decreases |log|
  {
    if log != [] {
      var n := |log| - 1;
      var l := log[..n];
      assert log == l + [log[n]];
      forall j | 0 <= j < n ensures l[..j] == log[..j] && l[j] == log[j] {
      }
      UsesBalance(l, r);
    }
  }

  /** Without a capture everything ever acquired has been released exactly as often. */
  lemma NothingLeaks(wayland: bool, es: seq<Event>, r: Resource)
    requires Runs(Initial(wayland), es) && !After(Initial(wayland), es).requested
    ensures var log := After(Initial(wayland), es).log; multiset(log)[Taken(r)] == multiset(log)[Freed(r)]
  {
    RunsAreCaptures(wayland, es);
    UsesBalance(After(Initial(wayland), es).log, r);
  }

  function Locks(log: seq<Effect>, lo: nat, hi: nat): nat
    requires lo <= hi <= |log|
    decreases hi
  {
    if lo == hi then 0 else Locks(log, lo, hi - 1) + if log[hi - 1].LockedNote? then 1 else 0
  }

  function Unlocks(log: seq<Effect>, lo: nat, hi: nat): nat
    requires lo <= hi <= |log|
    decreases hi
  {
    if lo == hi then 0 else Unlocks(log, lo, hi - 1) + if log[hi - 1].UnlockedNote? then 1 else 0
  }

  predicate NoRequest(log: seq<Effect>, lo: nat, hi: nat) {
    lo <= hi <= |log| && forall m :: lo <= m < hi ==> !log[m].Requested?
  }

  /** What has been notified from the request at `i` up to `j`, read off the latest notification. */
  ghost predicate Shape(log: seq<Effect>, i: nat, j: nat) {
    && i < j <= |log| && log[i].Requested?
    && var last := Last(log[..j]);
    && last.Some? && IsNote(last.value) && last.value.generation == log[i].generation
    && Locks(log, i + 1, j) <= 1
    && Unlocks(log, i + 1, j) == (if last.value.UnlockedNote? then 1 else 0)
    && (last.value.Requested? ==> Locks(log, i + 1, j) == 0)
    && (last.value.LockedNote? || last.value.MotionNote? ==> Locks(log, i + 1, j) == 1)
  }

  lemma PrefixNotes(log: seq<Effect>, n: nat)
    requires WellFormed(log) && n < |log|
    ensures Last(log[..n + 1]) == if IsNote(log[n]) then Some(log[n]) else Last(log[..n])
    ensures Follows(Last(log[..n]), log[n])
  {
    var l := log[..n + 1];
    assert l[n] == log[n] && l[..n] == log[..n];
  }

  lemma {:induction false} SessionShape(log: seq<Effect>, i: nat, j: nat)
    requires WellFormed(log) && i < j <= |log| && log[i].Requested? && NoRequest(log, i + 1, j)
    ensures Shape(log, i, j)
    decreases j
  {
    PrefixNotes(log, j - 1);
    if j == i + 1 {
      ShapeStart(log, i);
    } else {
      SessionShape(log, i, j - 1);
      ShapeStep(log, i, j - 1);
    }
  }

  lemma ShapeStart(log: seq<Effect>, i: nat)
    requires i < |log| && log[i].Requested? && Last(log[..i + 1]) == Some(log[i])
    ensures Shape(log, i, i + 1)
  {
  }

  lemma ShapeStep(log: seq<Effect>, i: nat, j: nat)
    requires j < |log| && Shape(log, i, j) && Follows(Last(log[..j]), log[j]) && !log[j].Requested?
    requires Last(log[..j + 1]) == if IsNote(log[j]) then Some(log[j]) else Last(log[..j])
    ensures Shape(log, i, j + 1)
  {
  }

  /**
   Each request that has ended was told so exactly once, after at most one "locked"; its motions come
   strictly between the two, under its own generation.
   */
  lemma EachRequestEndsOnce(wayland: bool, es: seq<Event>, i: nat, j: nat)
    requires Runs(Initial(wayland), es)
    requires var log := After(Initial(wayland), es).log;
      && i < j <= |log| && log[i].Requested? && NoRequest(log, i + 1, j)
      && (j == |log| ==> !After(Initial(wayland), es).requested) && (j < |log| ==> log[j].Requested?)
    ensures var log := After(Initial(wayland), es).log;
      && Unlocks(log, i + 1, j) == 1 && Locks(log, i + 1, j) <= 1
      && (forall m :: i < m < j && log[m].MotionNote? ==>
            log[m].generation == log[i].generation && Locks(log, i + 1, m) == 1 && Unlocks(log, i + 1, m) == 0)
  {
    RunsAreCaptures(wayland, es);
    var log := After(Initial(wayland), es).log;
    SessionShape(log, i, j);
    if j < |log| { assert Follows(Last(log[..j]), log[j]); } else { assert log[..j] == log; }
    forall m | i < m < j && log[m].MotionNote?
      ensures log[m].generation == log[i].generation && Locks(log, i + 1, m) == 1 && Unlocks(log, i + 1, m) == 0 {
      SessionShape(log, i, m);
      assert Follows(Last(log[..m]), log[m]);
    }
  }

  /** An unlock or a reseed does or says something exactly when it names the capture under way. */
  lemma StaleUnlockIsSilent(s: State, id: int, p: Placement)
    requires Inv(s)
    ensures Next(s, UnlockGeneration(id)).log == s.log <==> !(s.requested && s.generation == id)
    ensures Next(s, Reseed(id, p)).log == s.log <==> !(s.requested && s.generation == id)
  {
    NamedOnly(s, id, p);
    ReleaseSpeaks(s);
    ReseedSpeaks(s, p);
  }

  lemma NamedOnly(s: State, id: int, p: Placement)
    ensures Next(s, UnlockGeneration(id)) == if s.generation == id then Released(s, "released") else s
    ensures Next(s, Reseed(id, p)) == if s.generation == id then Reseeded(s, p) else s
  {
  }

  lemma ReleaseSpeaks(s: State)
    requires Inv(s)
    ensures Released(s, "released").log == s.log <==> !s.requested
  {
    ReleasedKeeps(s, "released");
    EndedLogsDiffer(s, Released(s, "released"));
  }

  lemma ReseedSpeaks(s: State, p: Placement)
    requires Inv(s)
    ensures Reseeded(s, p).log == s.log <==> !s.requested
  {
    ReseededKeeps(s, p);
    EndedLogsDiffer(s, Reseeded(s, p));
  }

  lemma EndedLogsDiffer(s: State, t: State)
    requires LogOk(s) && LogOk(t) && !t.requested
    ensures s.requested ==> t.log != s.log
  {
  }

  // ---- the capture object ----------------------------------------------------------------------

  class Capture {
    const wayland: bool
    var requested: bool
    var active: bool
    var generation: int
    var window: bool
    var rawDisplay: bool
    var rawSource: bool
    var grabbed: bool
    var locked: bool
    var relative: bool
    var timeout: bool
    var cursorHidden: bool
    ghost var log: seq<Effect>

    ghost function View(): State
      reads this
    {
      State(wayland, requested, active, generation,
            Held(window, rawDisplay, rawSource, grabbed, locked, relative, timeout, cursorHidden), log)
    }

    constructor (onWayland: bool)
      ensures View() == Initial(onWayland)
    {
      wayland, requested, active, generation := onWayland, false, false, 0;
      window, rawDisplay, rawSource, grabbed := false, false, false, false;
      locked, relative, timeout, cursorHidden, log := false, false, false, false, [];
    }

    ghost method Record(e: Effect)
      modifies this`log
      ensures log == old(log) + [e]
    {
      log := log + [e];
    }

    method Hide()
      modifies this`cursorHidden, this`log
      ensures View() == Hidden(old(View()))
    {
      if !cursorHidden {
        cursorHidden := true;
        Record(Taken(Cursor));
      }
    }

    method StopTimer()
      modifies this`timeout, this`log
      ensures View() == Drop(old(View()), Timer)
    {
      if timeout {
        timeout := false;
        Record(Freed(Timer));
      }
    }

    method OnConfirmed()
      modifies this
      ensures View() == Confirmed(old(View()))
    {
      if !requested || active {
        return;
      }
      active := true;
      Hide();
      StopTimer();
      Record(LockedNote(generation));
    }

    method ReleaseWayland()
      modifies this`timeout, this`locked, this`relative, this`log
      ensures View() == DropWayland(old(View()))
    {
      StopTimer();
      if locked {
        locked := false;
        Record(Freed(Lock));
      }
      if relative {
        relative := false;
        Record(Freed(Relative));
      }
    }

    method ReleaseX11()
      modifies this`grabbed, this`rawSource, this`rawDisplay, this`log
      ensures View() == DropX11(old(View()))
    {
      if window {
        Ungrab();
      }
      CloseRawDisplay();
    }

    method Ungrab()
      modifies this`grabbed, this`log
      ensures View() == Drop(old(View()), Grab)
    {
      if grabbed {
        grabbed := false;
        Record(Freed(Grab));
      }
    }

    method StopWatching()
      modifies this`rawSource, this`log
      ensures View() == Drop(old(View()), Source)
    {
      if rawSource {
        rawSource := false;
        Record(Freed(Source));
      }
    }

    method CloseRawDisplay()
      modifies this`rawSource, this`rawDisplay, this`log
      ensures View() == Drop(Drop(old(View()), Source), Raw)
    {
      StopWatching();
      if rawDisplay {
        rawDisplay := false;
        Record(Freed(Raw));
      }
    }

    method ReleaseWindow()
      modifies this`window, this`cursorHidden, this`log
      ensures View() == DropWindow(old(View()))
    {
      if window {
        if cursorHidden {
          cursorHidden := false;
          Record(Freed(Cursor));
        }
        window := false;
        Record(Freed(Window));
      }
    }

    method Empty()
      modifies this`requested, this`active, this`timeout, this`locked, this`relative, this`grabbed,
        this`rawSource, this`rawDisplay, this`window, this`cursorHidden, this`log
      ensures View() == Emptied(old(View()))
    {
      requested := false;
      active := false;
      assert View() == old(View()).(requested := false, active := false);
      ReleaseWayland();
      ReleaseX11();
      ReleaseWindow();
    }

    method Release(reason: string)
      modifies this
      ensures View() == Released(old(View()), reason)
    {
      var notify := requested;
      Empty();
      if notify {
        Record(UnlockedNote(generation, reason));
      }
    }

    method LockPointer(id: int, a: Attempt) returns (ok: bool)
      modifies this
      ensures (View(), ok) == Locked(old(View()), id, a)
    {
      Release("replaced");
      if !a.supported || !a.focused || !a.realized {
        return false;
      }
      Begin(id);
      if wayland {
        ok := LockOnWayland(a);
      } else {
        ok := LockOnX11(a);
      }
    }

    method Begin(id: int)
      modifies this`window, this`generation, this`requested, this`log
      ensures View() == Begun(old(View()), id)
    {
      window := true;
      Record(Taken(Window));
      generation := id;
      requested := true;
      Record(Requested(id));
    }

    method OpenRawDisplay()
      modifies this`rawDisplay, this`log
      ensures View() == Take(old(View()), Raw)
    {
      rawDisplay := true;
      Record(Taken(Raw));
    }

    method Grabbed()
      modifies this`grabbed, this`rawSource, this`log
      ensures View() == Take(Take(old(View()), Grab), Source)
    {
      grabbed := true;
      Record(Taken(Grab));
      rawSource := true;
      Record(Taken(Source));
    }

    method LockOnX11(a: Attempt) returns (ok: bool)
      modifies this
      ensures (View(), ok) == LockedX11(old(View()), a)
    {
      if !a.opens {
        Release("failed");
        return false;
      }
      OpenRawDisplay();
      if !a.queries {
        Release("failed");
        return false;
      }
      Hide();
      if !a.grabs {
        Release("failed");
        return false;
      }
      Grabbed();
      OnConfirmed();
      return true;
    }

    method LockOnWayland(a: Attempt) returns (ok: bool)
      modifies this
      ensures (View(), ok) == LockedWayland(old(View()), a)
    {
      if !a.pointer {
        Release("failed");
        return false;
      }
      relative := true;
      Record(Taken(Relative));
      locked := true;
      Record(Taken(Lock));
      timeout := true;
      Record(Taken(Timer));
      return true;
    }

    method UnlockGeneration(id: int)
      modifies this
      ensures View() == Next(old(View()), Event.UnlockGeneration(id))
    {
      if generation == id {
        Release("released");
      }
    }

    method ReseedAndRelease(p: Placement)
      modifies this
      ensures View() == Reseeded(old(View()), p)
    {
      if !active || !window || !p.alive || p.x.None? || p.y.None? || p.offset.None? {
        Release("released");
        return;
      }
      ghost var px := Place(p.offset.value.0, p.width, p.x.value);
      ghost var py := Place(p.offset.value.1, p.height, p.y.value);
      if wayland {
        if locked {
          Record(Hint(px, py));
        }
      } else {
        active := false;
        Ungrab();
        Record(Warp(px, py));
      }
      Release("released");
    }

    method OnTimeout()
      requires timeout
      modifies this
      ensures View() == Next(old(View()), TimedOut)
    {
      StopTimer();
      Release("timeout");
    }

    method OnHangUp()
      requires rawSource
      modifies this
      ensures View() == Next(old(View()), HungUp)
    {
      StopWatching();
      Release("connection-lost");
    }

    method OnRelativeMotion(dx: real, dy: real)
      modifies this`log
      ensures View() == Moved(old(View()), dx, dy)
    {
      if active {
        Record(MotionNote(generation, dx, dy));
      }
    }

    method OnRawInput(events: seq<RawEvent>)
      modifies this`log
      ensures View() == RawRead(old(View()), events)
    {
      var k := 0;
      while k < |events|
        invariant k <= |events|
        invariant RawRead(View(), events[k..]) == RawRead(old(View()), events)
      {
        var e := events[k];
        if active && e.RawMotion? && e.relative && e.dx.Some? && e.dy.Some? {
          if e.dx.value != 0.0 || e.dy.value != 0.0 {
            OnRelativeMotion(e.dx.value, e.dy.value);
          }
        }
        assert events[k..][1..] == events[k + 1..];
        k := k + 1;
      }
    }
  }
}
