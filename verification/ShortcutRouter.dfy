/**
 Which local key events go to the remote host.  A press that was captured stays captured to its end,
 whatever arming and disarming happens in between, and a press that was passed stays local.
 */
module ShortcutRouter {

  const TAB := 48
  const ARROWS: set<int> := {123, 124, 125, 126}

  datatype Flags = Flags(command: bool, control: bool, shift: bool, option: bool, fn: bool, numericPad: bool)

  datatype Key = Key(code: int, down: bool, flags: Flags, repeating: bool)

  datatype Decision = Pass | Consume | Send

  predicate Matches(code: int, flags: Flags) {
    if code == TAB then !flags.fn && flags.command && !flags.control && !flags.option
    else code in ARROWS && flags.control && !flags.command && !flags.shift && !flags.option
  }

  function HostFlags(code: int, flags: Flags): Flags {
    var arrowChord := code in ARROWS && flags.control && !flags.command && !flags.shift && !flags.option;
    flags.(fn := arrowChord, numericPad := false)
  }

  /** The flags sent to the host still name the same shortcut, and are a fixed point. */
  lemma HostFlagsKeepShortcut(code: int, flags: Flags)
    ensures Matches(code, flags) ==> Matches(code, HostFlags(code, flags))
    ensures HostFlags(code, HostFlags(code, flags)) == HostFlags(code, flags)
    ensures HostFlags(code, flags).fn <==> code in ARROWS && Matches(code, flags)
    ensures !HostFlags(code, flags).numericPad
    ensures HostFlags(code, flags).(fn := flags.fn, numericPad := flags.numericPad) == flags
  {
  }

  // ---- the router as a value -------------------------------------------------------------------

  /** `pressed`: captured in this session and still down; `tails`: captured earlier, release still to come. */
  datatype State = State(armed: bool, pressed: set<int>, tails: set<int>)

  const INITIAL := State(false, {}, {})

  predicate HasPendingKeys(s: State) {
    s.pressed != {} || s.tails != {}
  }

  function Stopped(s: State): State {
    State(false, {}, s.tails + s.pressed)
  }

  function Reconcile(s: State, held: set<int>): State {
    s.(tails := s.tails * held)
  }

  function HandledUntailed(s: State, k: Key): (State, Decision) {
    if !k.down then (if k.code in s.pressed then (s.(pressed := s.pressed - {k.code}), Send) else (s, Pass))
    else if k.code in s.pressed then (s, Consume)
    else if !s.armed || k.repeating || !Matches(k.code, k.flags) then (s, Pass)
    else (s.(pressed := s.pressed + {k.code}), Send)
  }

  function Handled(s: State, k: Key): (State, Decision) {
    if k.code in s.tails then
      var t := s.(tails := s.tails - {k.code});
      if k.down && !k.repeating then HandledUntailed(t, k)
      else (if k.down then s else t, Consume)
    else HandledUntailed(s, k)
  }

  datatype Event =
    | Press(key: Key)
    | Arm
    | StopAll
    | Reset
    | Released(held: set<int>)

  function Next(s: State, e: Event): State {
    match e
    case Press(key) => Handled(s, key).0
    case Arm => s.(armed := true)
    case StopAll => Stopped(s)
    case Reset => INITIAL
    case Released(held) => Reconcile(s, held)
  }

  function After(es: seq<Event>): State
    decreases |es|
  {
    if es == [] then INITIAL else Next(After(es[..|es| - 1]), es[|es| - 1])
  }

  /** What was decided about the key event at `j`. */
  function DecisionAt(es: seq<Event>, j: nat): Decision
    requires j < |es| && es[j].Press?
  {
    Handled(After(es[..j]), es[j].key).1
  }

  predicate Inv(s: State) {
    s.pressed !! s.tails && (!s.armed ==> s.pressed == {})
  }

  lemma NextKeeps(s: State, e: Event)
    requires Inv(s)
    ensures Inv(Next(s, e))
  {
  }

  /** In every run the two sets are disjoint and a disarmed router has nothing pressed. */
  lemma {:induction false} RunKeeps(es: seq<Event>)
    ensures Inv(After(es))
    decreases |es|
  {
    if es != [] {
      RunKeeps(es[..|es| - 1]);
      NextKeeps(After(es[..|es| - 1]), es[|es| - 1]);
    }
  }

  // ---- all or nothing --------------------------------------------------------------------------

  predicate Starts(e: Event, code: int) {
    e.Press? && e.key.code == code && e.key.down && !e.key.repeating
  }

  predicate Concerns(e: Event, code: int) {
    e.Press? && e.key.code == code
  }

  /** May happen in the middle of a press of `code`: anything but a new press of it or its release. */
  predicate Within(e: Event, code: int) {
    Concerns(e, code) ==> e.key.down && e.key.repeating
  }

  /** The events from `p` up to but not including `j` are one press of `code`, not yet released. */
  predicate OnePress(es: seq<Event>, p: nat, j: nat, code: int) {
    p < j <= |es| && Starts(es[p], code) && forall k :: p < k < j ==> Within(es[k], code)
  }

  predicate StoppedSince(es: seq<Event>, p: nat, j: nat)
    requires j <= |es|
  {
    exists k :: p < k < j && es[k].StopAll?
  }

  /** A press is let go by a reset, or when it is found released although the session it began in has stopped. */
  predicate LetGoAt(es: seq<Event>, p: nat, k: nat, code: int)
    requires k < |es|
  {
    es[k].Reset? || (es[k].Released? && code !in es[k].held && StoppedSince(es, p, k))
  }

  predicate LetGo(es: seq<Event>, p: nat, j: nat, code: int)
    requires j <= |es|
  {
    exists k :: p < k < j && LetGoAt(es, p, k, code)
  }

  /** Where the key of a press stands: captured and pressed, captured and a tail, or neither. */
  predicate Stands(s: State, code: int, captured: bool, stopped: bool) {
    && (code in s.pressed <==> captured && !stopped)
    && (code in s.tails <==> captured && stopped)
  }

  predicate Captured(s: State, code: int) {
    code in s.pressed || code in s.tails
  }

  lemma StartDecides(s: State, k: Key)
    requires Inv(s) && k.down && !k.repeating
    ensures Stands(Handled(s, k).0, k.code, Handled(s, k).1 != Pass, false)
  {
  }

  lemma WithinStands(s: State, e: Event, code: int, captured: bool, stopped: bool)
    requires Stands(s, code, captured, stopped) && Within(e, code)
    ensures Stands(Next(s, e), code,
                   captured && !(e.Reset? || (e.Released? && code !in e.held && stopped)), stopped || e.StopAll?)
  {
  }

  lemma {:induction false} PressStands(es: seq<Event>, p: nat, j: nat, code: int)
    requires OnePress(es, p, j, code)
    ensures Stands(After(es[..j]), code, DecisionAt(es, p) != Pass && !LetGo(es, p, j, code), StoppedSince(es, p, j))
    decreases j
  {
    RunKeeps(es[..j - 1]);
    assert es[..j][..j - 1] == es[..j - 1];
    if j == p + 1 {
      StartDecides(After(es[..p]), es[p].key);
    } else {
      PressStands(es, p, j - 1, code);
      WithinStands(After(es[..j - 1]), es[j - 1], code, DecisionAt(es, p) != Pass && !LetGo(es, p, j - 1, code),
                   StoppedSince(es, p, j - 1));
      assert StoppedSince(es, p, j) <==> StoppedSince(es, p, j - 1) || es[j - 1].StopAll?;
      assert LetGo(es, p, j, code) <==> LetGo(es, p, j - 1, code) || LetGoAt(es, p, j - 1, code);
    }
  }

  /**
   Every later event of a press, its repeats and its release, is passed exactly when its start was, unless the
   press was let go in between: with any arming, stopping and other keys, and even if earlier releases were lost.
   */
  lemma AllOrNothing(es: seq<Event>, p: nat, j: nat)
    requires p < j < |es| && es[p].Press? && OnePress(es, p, j, es[p].key.code)
    requires Concerns(es[j], es[p].key.code) && !Starts(es[j], es[p].key.code)
    ensures DecisionAt(es, j) == Pass <==> DecisionAt(es, p) == Pass || LetGo(es, p, j, es[p].key.code)
  {
    PressStands(es, p, j, es[p].key.code);
  }

  /** Its release, or a new press instead of it, settles a press: nothing of it is owed any more. */
  lemma ReleaseSettles(es: seq<Event>, j: nat)
    requires j < |es| && es[j].Press? && !es[j].key.down
    ensures !Captured(After(es[..j + 1]), es[j].key.code)
    ensures After(es[..j + 1]).pressed == After(es[..j]).pressed - {es[j].key.code}
    ensures After(es[..j + 1]).tails == After(es[..j]).tails - {es[j].key.code}
  {
    RunKeeps(es[..j]);
    assert es[..j + 1][..j] == es[..j];
  }

  /** Arming arms, and nothing but stopping and resetting disarms. */
  lemma ArmedUntilStopped(es: seq<Event>, e: Event)
    ensures After(es + [e]).armed <==> e.Arm? || (After(es).armed && !EndsSession(e))
  {
    assert (es + [e])[..|es|] == es;
  }

  // ---- what the host sees ----------------------------------------------------------------------

  predicate Sent(es: seq<Event>, j: nat, code: int)
    requires j < |es|
  {
    Concerns(es[j], code) && DecisionAt(es, j) == Send
  }

  predicate EndsSession(e: Event) {
    e.StopAll? || e.Reset?
  }

  /** `code` is down on the host side: sent down in the session so far and not sent up since. */
  predicate HeldByHost(es: seq<Event>, code: int)
    decreases |es|
  {
    if es == [] then false
    else
      var n := |es| - 1;
      if EndsSession(es[n]) then false
      else if Sent(es, n, code) then es[n].key.down
      else HeldByHost(es[..n], code)
  }

  lemma SendTurns(s: State, e: Event, code: int)
    requires Inv(s)
    ensures (EndsSession(e) ==> code !in Next(s, e).pressed)
    ensures Concerns(e, code) && Handled(s, e.key).1 == Send ==>
      (code in Next(s, e).pressed <==> e.key.down) && (code in s.pressed <==> !e.key.down)
    ensures !EndsSession(e) && !(Concerns(e, code) && Handled(s, e.key).1 == Send) ==>
      (code in Next(s, e).pressed <==> code in s.pressed)
  {
  }

  lemma {:induction false} PressedIsHeld(es: seq<Event>, code: int)
    ensures code in After(es).pressed <==> HeldByHost(es, code)
    decreases |es|
  {
    if es != [] {
      var n := |es| - 1;
      RunKeeps(es[..n]);
      PressedIsHeld(es[..n], code);
      SendTurns(After(es[..n]), es[n], code);
    }
  }

  /** Every send changes the state of its key on the host: never two downs or two ups in a session. */
  lemma SendsToggle(es: seq<Event>, j: nat)
    requires j < |es| && es[j].Press? && DecisionAt(es, j) == Send
    ensures es[j].key.down <==> !HeldByHost(es[..j], es[j].key.code)
  {
    var code := es[j].key.code;
    RunKeeps(es[..j]);
    PressedIsHeld(es[..j], code);
    SendTurns(After(es[..j]), es[j], code);
  }

  predicate Quiet(es: seq<Event>, lo: nat, hi: nat, code: int) {
    lo <= hi <= |es| && forall k :: lo <= k < hi ==> !EndsSession(es[k]) && !Sent(es, k, code)
  }

  lemma {:induction false} QuietHolds(es: seq<Event>, lo: nat, hi: nat, code: int)
    requires Quiet(es, lo, hi, code)
    ensures HeldByHost(es[..hi], code) <==> HeldByHost(es[..lo], code)
    decreases hi
  {
    if lo < hi {
      assert es[..hi][..hi - 1] == es[..hi - 1];
      QuietHolds(es, lo, hi - 1, code);
      if es[hi - 1].Press? { assert DecisionAt(es[..hi], hi - 1) == DecisionAt(es, hi - 1); }
    }
  }

  /** Two consecutive sends of a key in one session are a down and an up. */
  lemma SendsAlternate(es: seq<Event>, i: nat, j: nat, code: int)
    requires i < j < |es| && Sent(es, i, code) && Sent(es, j, code) && Quiet(es, i + 1, j, code)
    ensures es[i].key.down != es[j].key.down
  {
    SendsToggle(es, j);
    QuietHolds(es, i + 1, j, code);
    assert es[..i + 1][..i] == es[..i];
    assert DecisionAt(es[..i + 1], i) == DecisionAt(es, i);
  }

  /** Only an armed router sends, and a captured press starts with a supported shortcut. */
  lemma SendNeedsShortcut(es: seq<Event>, j: nat)
    requires j < |es| && es[j].Press? && DecisionAt(es, j) == Send
    ensures After(es[..j]).armed
    ensures es[j].key.down ==> Matches(es[j].key.code, es[j].key.flags) && !es[j].key.repeating
  {
    RunKeeps(es[..j]);
  }

  /** An armed router sends every supported shortcut whose key is not already down on the host. */
  lemma ShortcutIsSent(es: seq<Event>, j: nat)
    requires j < |es| && es[j].Press? && es[j].key.down && !es[j].key.repeating
    requires After(es[..j]).armed && Matches(es[j].key.code, es[j].key.flags)
    ensures DecisionAt(es, j) == if HeldByHost(es[..j], es[j].key.code) then Consume else Send
  {
    RunKeeps(es[..j]);
    PressedIsHeld(es[..j], es[j].key.code);
  }

  // ---- the router object -----------------------------------------------------------------------

  class Router {
    var armed: bool
    var pressed: set<int>
    var tails: set<int>

    ghost function View(): State
      reads this
    {
      State(armed, pressed, tails)
    }

    constructor ()
      ensures View() == INITIAL
    {
      armed, pressed, tails := false, {}, {};
    }

    predicate Pending()
      reads this
    {
      pressed != {} || tails != {}
    }

    method Stop()
      modifies this
      ensures View() == Stopped(old(View()))
    {
      armed := false;
      tails := tails + pressed;
      pressed := {};
    }

    method Reset()
      modifies this
      ensures View() == INITIAL
    {
      armed := false;
      pressed := {};
      tails := {};
    }

    method ReconcileReleasedKeys(held: set<int>)
      modifies this`tails
      ensures View() == Reconcile(old(View()), held)
    {
      tails := set code | code in tails && code in held;
    }

    method Handle(k: Key) returns (d: Decision)
      modifies this
      ensures (View(), d) == Handled(old(View()), k)
    {
      if k.code in tails {
        if k.down && !k.repeating {
          tails := tails - {k.code};
        } else {
          if !k.down {
            tails := tails - {k.code};
          }
          return Consume;
        }
      }
      if !k.down {
        if k.code in pressed {
          pressed := pressed - {k.code};
          return Send;
        }
        return Pass;
      }
      if k.code in pressed {
        return Consume;
      }
      if !armed || k.repeating || !Matches(k.code, k.flags) {
        return Pass;
      }
      pressed := pressed + {k.code};
      return Send;
    }
  }
}
