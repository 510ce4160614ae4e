/**
 After Fn was recognised alone, macOS sends one more pair of system events for the Globe key.  The gate
 swallows that pair, once, for a short time.
 */
module GlobeGate {
  import opened Options

  const WINDOW := 0.15

  datatype State = State(deadline: Option<real>, downConsumed: bool)

  const INITIAL := State(None, false)

  datatype System = System(kind: int, subtype: int, data: int)

  /** `Cancel` is any event offered as the start of another action; `starts` says that it is one. */
  datatype Event =
    | Reset
    | Completed(now: real)
    | Cancel(starts: bool)
    | Offer(system: System, now: real)

  predicate IsGlobe(e: System) {
    e.kind == 14 && e.data == 4
  }

  function Offered(s: State, e: System, now: real): (State, bool) {
    if s.deadline.None? || now > s.deadline.value then (INITIAL, false)
    else if !IsGlobe(e) then (s, false)
    else if e.subtype == 6 && !s.downConsumed then (s.(downConsumed := true), true)
    else if e.subtype == 9 && s.downConsumed then (INITIAL, true)
    else (s, false)
  }

  function Next(s: State, e: Event): State {
    match e
    case Reset => INITIAL
    case Completed(now) => State(Some(now + WINDOW), false)
    case Cancel(starts) => if starts then INITIAL else s
    case Offer(system, now) => Offered(s, system, now).0
  }

  function After(es: seq<Event>): State
    decreases |es|
  {
    if es == [] then INITIAL else Next(After(es[..|es| - 1]), es[|es| - 1])
  }

  /** The event offered at `j` was swallowed. */
  predicate Swallowed(es: seq<Event>, j: nat)
    requires j < |es|
  {
    es[j].Offer? && Offered(After(es[..j]), es[j].system, es[j].now).1
  }

  predicate Interrupts(e: Event) {
    e.Reset? || e.Completed? || (e.Cancel? && e.starts)
  }

  /** Fn was completed at `c`, and nothing interrupted the wait for its pair before `n`. */
  predicate Waiting(es: seq<Event>, c: nat, n: nat) {
    c < n <= |es| && es[c].Completed? && forall k :: c < k < n ==> !Interrupts(es[k])
  }

  /** The first of the pair was swallowed at `i`, and nothing else since `c`. */
  predicate OnlyFirst(es: seq<Event>, c: nat, i: nat, n: nat) {
    && c < i < n <= |es| && Swallowed(es, i) && es[i].system.subtype == 6
    && forall k :: c < k < n && k != i ==> !Swallowed(es, k)
  }

  predicate NoneYet(es: seq<Event>, c: nat, n: nat) {
    n <= |es| && forall k :: c < k < n ==> !Swallowed(es, k)
  }

  ghost predicate Remembered(es: seq<Event>, n: nat, s: State)
    requires n <= |es|
  {
    if s.deadline.None? then !s.downConsumed
    else exists c: nat ::
      && Waiting(es, c, n) && s.deadline.value == es[c].now + WINDOW
      && (if s.downConsumed then exists i :: OnlyFirst(es, c, i, n) else NoneYet(es, c, n))
  }

  lemma Step(es: seq<Event>, n: nat)
    requires n < |es| && Remembered(es, n, After(es[..n]))
    ensures Remembered(es, n + 1, Next(After(es[..n]), es[n]))
  {
    var s := After(es[..n]);
    var t := Next(s, es[n]);
    if es[n].Completed? {
      assert Waiting(es, n, n + 1) && NoneYet(es, n, n + 1);
    } else if t.deadline.Some? {
      var c: nat :| Waiting(es, c, n) && s.deadline.value == es[c].now + WINDOW &&
        (if s.downConsumed then exists i :: OnlyFirst(es, c, i, n) else NoneYet(es, c, n));
      assert Waiting(es, c, n + 1);
      if s.downConsumed {
        var i :| OnlyFirst(es, c, i, n);
        assert OnlyFirst(es, c, i, n + 1);
      } else if t.downConsumed {
        assert OnlyFirst(es, c, n, n + 1);
      } else {
        assert NoneYet(es, c, n + 1);
      }
    }
  }

  lemma {:induction false} Tracked(es: seq<Event>, n: nat)
    requires n <= |es|
    ensures Remembered(es, n, After(es[..n]))
  {
    if n > 0 {
      Tracked(es, n - 1);
      Step(es, n - 1);
      assert es[..n][..n - 1] == es[..n - 1];
    }
  }

  /** The offer at `j` is the next of the pair that belongs to the completion at `c`. */
  ghost predicate PairOf(es: seq<Event>, c: nat, j: nat)
    requires j < |es|
  {
    && Waiting(es, c, j) && es[j].Offer? && es[j].now <= es[c].now + WINDOW
    && (if es[j].system.subtype == 6 then NoneYet(es, c, j)
        else es[j].system.subtype == 9 && exists i :: OnlyFirst(es, c, i, j))
  }

  /**
   Each completed Fn lets at most one pair through: an event is swallowed only within the window after a
   completion, either as the first of the two with nothing swallowed since, or as the second right after it.
   */
  lemma OnePairPerFn(es: seq<Event>, j: nat)
    requires j < |es| && Swallowed(es, j)
    ensures es[j].system.kind == 14 && es[j].system.data == 4
    ensures exists c: nat :: PairOf(es, c, j)
  {
    Tracked(es, j);
    var s := After(es[..j]);
    var c: nat :| Waiting(es, c, j) && s.deadline.value == es[c].now + WINDOW &&
      (if s.downConsumed then exists i :: OnlyFirst(es, c, i, j) else NoneYet(es, c, j));
    assert PairOf(es, c, j);
  }

  /** After the second of the pair nothing more is swallowed until Fn is completed again. */
  lemma PairEndsTheWait(es: seq<Event>, j: nat, k: nat)
    requires j < k < |es| && Swallowed(es, j) && es[j].system.subtype == 9 && Swallowed(es, k)
    ensures exists c :: j < c < k && es[c].Completed?
  {
    Quiet(es, j, k);
  }

  lemma {:induction false} Quiet(es: seq<Event>, j: nat, n: nat)
    requires j < n <= |es| && Swallowed(es, j) && es[j].system.subtype == 9
    ensures After(es[..n]) == INITIAL || exists c :: j < c < n && es[c].Completed?
  {
    assert es[..n][..n - 1] == es[..n - 1];
    if n > j + 1 { Quiet(es, j, n - 1); }
  }

  /** A pair that comes in time, uninterrupted, is swallowed whole. */
  lemma PairIsSwallowed(s: State, now: real, first: System, second: System, t1: real, t2: real)
    requires first == System(14, 6, 4) && second == System(14, 9, 4)
    requires t1 <= now + WINDOW && t2 <= now + WINDOW
    ensures var a := Next(s, Completed(now));
      var (b, took1) := Offered(a, first, t1);
      var (c, took2) := Offered(b, second, t2);
      took1 && took2 && c == INITIAL
  {
  }

  /** Nothing was offered too late since the completion at `c`. */
  predicate InTime(es: seq<Event>, c: nat, n: nat) {
    c < n <= |es| && es[c].Completed? && forall k :: c < k < n && es[k].Offer? ==> es[k].now <= es[c].now + WINDOW
  }

  /** What the gate remembers while it waits, as the history tells it. */
  lemma {:induction false} StillWaits(es: seq<Event>, c: nat, n: nat)
    requires Waiting(es, c, n) && InTime(es, c, n)
    ensures NoneYet(es, c, n) ==> After(es[..n]) == State(Some(es[c].now + WINDOW), false)
    ensures forall i: nat :: OnlyFirst(es, c, i, n) ==> After(es[..n]) == State(Some(es[c].now + WINDOW), true)
    decreases n
  {
    assert es[..n][..n - 1] == es[..n - 1];
    assert After(es[..n]) == Next(After(es[..n - 1]), es[n - 1]);
    if n > c + 1 {
      StillWaits(es, c, n - 1);
      assert !Interrupts(es[n - 1]) && (es[n - 1].Offer? ==> es[n - 1].now <= es[c].now + WINDOW);
      if NoneYet(es, c, n) {
        assert NoneYet(es, c, n - 1) && !Swallowed(es, n - 1);
      }
      forall i: nat | OnlyFirst(es, c, i, n) ensures After(es[..n]) == State(Some(es[c].now + WINDOW), true) {
        if i < n - 1 {
          assert OnlyFirst(es, c, i, n - 1) && !Swallowed(es, n - 1);
        } else {
          assert NoneYet(es, c, n - 1) && Swallowed(es, n - 1);
        }
      }
    }
  }

  /**
   The other direction: whatever else is offered or begun in between, as long as nothing interrupts the wait and
   nothing comes too late, the first event of the pair is swallowed, and then the second.
   */
  lemma PairIsTaken(es: seq<Event>, c: nat, j: nat)
    requires j < |es| && InTime(es, c, j + 1) && PairOf(es, c, j) && es[j].system.kind == 14 && es[j].system.data == 4
    ensures Swallowed(es, j)
  {
    StillWaits(es, c, j);
  }

  // ---- the gate object -------------------------------------------------------------------------

  datatype Action = LeftMouseDown | RightMouseDown | FlagsChanged | KeyDown | OtherAction

  /** `modified`: any of Fn, Control, Command, Option or Shift is held. */
  predicate StartsAction(a: Action, modified: bool) {
    a.LeftMouseDown? || a.RightMouseDown? || ((a.FlagsChanged? || a.KeyDown?) && modified)
  }

  class Gate {
    var deadline: Option<real>
    var downConsumed: bool

    ghost function View(): State
      reads this
    {
      State(deadline, downConsumed)
    }

    constructor ()
      ensures View() == INITIAL
    {
      deadline, downConsumed := None, false;
    }

    method Clear()
      modifies this
      ensures View() == INITIAL
    {
      deadline, downConsumed := None, false;
    }

    method CompletedFn(now: real)
      modifies this
      ensures View() == Next(old(View()), Completed(now))
    {
      deadline := Some(now + WINDOW);
      downConsumed := false;
    }

    method CancelForNewAction(a: Action, modified: bool) returns (cancelled: bool)
      modifies this
      ensures View() == Next(old(View()), Cancel(StartsAction(a, modified)))
      ensures cancelled <==> StartsAction(a, modified) && old(deadline).Some?
    {
      var cancel := a.LeftMouseDown? || a.RightMouseDown? || ((a.FlagsChanged? || a.KeyDown?) && modified);
      var wasPending := deadline.Some?;
      if cancel {
        Clear();
      }
      return cancel && wasPending;
    }

    method Consume(e: System, now: real) returns (taken: bool)
      modifies this
      ensures (View(), taken) == Offered(old(View()), e, now)
    {
      if deadline.None? || now > deadline.value {
        Clear();
        return false;
      }
      if e.kind != 14 || e.data != 4 {
        return false;
      }
      if e.subtype == 6 && !downConsumed {
        downConsumed := true;
        return true;
      }
      if e.subtype == 9 && downConsumed {
        Clear();
        return true;
      }
      return false;
    }
  }
}
