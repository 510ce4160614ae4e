/**
 Recognising two input-source actions: Fn pressed and released alone, and Control+Space.  The recogniser
 keeps three booleans; what it answers is stated here over the whole history of events.
 */
module ChordRouter {
  import opened Options

  const FN_KEY := 63
  const SPACE_KEY := 49

  datatype Kind = FlagsChanged | KeyDown | KeyUp | MouseButton | SystemDefined

  datatype Flags = Flags(control: bool, option: bool, command: bool, shift: bool, fn: bool)

  datatype Input = Input(kind: Kind, code: int, flags: Flags, captureFn: bool, captureControlSpace: bool)

  datatype Event = Handle(input: Input) | Reset

  datatype Intent = Fn | ControlSpace

  datatype Decision = Decision(consume: bool, intent: Option<Intent>)

  const PASS := Decision(false, None)

  datatype State = State(fnDown: bool, fnCombined: bool, spaceConsumed: bool)

  const INITIAL := State(false, false, false)

  predicate OnlyFn(f: Flags) {
    !f.control && !f.option && !f.command && !f.shift
  }

  predicate OnlyControl(f: Flags) {
    f.control && !f.option && !f.command && !f.shift && !f.fn
  }

  predicate IsFn(i: Input) {
    i.captureFn && i.kind.FlagsChanged? && i.code == FN_KEY
  }

  function HandledFn(s: State, i: Input): (State, Decision) {
    if i.flags.fn then
      var t := if s.fnDown then s else s.(fnDown := true, fnCombined := !OnlyFn(i.flags));
      (t, Decision(!t.fnCombined, None))
    else
      var tap := s.fnDown && !s.fnCombined;
      (s.(fnDown := false, fnCombined := false), Decision(tap, if tap then Some(Fn) else None))
  }

  function HandledSpace(s: State, i: Input): (State, Decision) {
    if s.spaceConsumed then
      (if i.kind.KeyUp? then s.(spaceConsumed := false) else s, Decision(true, None))
    else if i.captureControlSpace && i.kind.KeyDown? && OnlyControl(i.flags) then
      (s.(spaceConsumed := true), Decision(true, Some(ControlSpace)))
    else (s, PASS)
  }

  function Handled(s: State, i: Input): (State, Decision) {
    if i.kind.SystemDefined? then (s, PASS)
    else if IsFn(i) then HandledFn(s, i)
    else
      var t := if s.fnDown && !i.kind.KeyUp? then s.(fnCombined := true) else s;
      if i.code == SPACE_KEY then HandledSpace(t, i) else (t, PASS)
  }

  function Next(s: State, e: Event): State {
    if e.Reset? then INITIAL else Handled(s, e.input).0
  }

  function After(es: seq<Event>): State
    decreases |es|
  {
    if es == [] then INITIAL else Next(After(es[..|es| - 1]), es[|es| - 1])
  }

  function DecisionAt(es: seq<Event>, j: nat): Decision
    requires j < |es|
  {
    if es[j].Reset? then PASS else Handled(After(es[..j]), es[j].input).1
  }

  lemma AfterOneMore(es: seq<Event>, n: nat)
    requires n < |es|
    ensures After(es[..n + 1]) == Next(After(es[..n]), es[n])
  {
    assert es[..n + 1][..n] == es[..n];
  }

  // ---- Fn alone --------------------------------------------------------------------------------

  datatype Modifier = ControlKey | OptionKey | CommandKey | ShiftKey | FnKey

  /** The modifiers that are down. */
  function Modifiers(f: Flags): set<Modifier> {
    (if f.control then {ControlKey} else {}) + (if f.option then {OptionKey} else {})
    + (if f.command then {CommandKey} else {}) + (if f.shift then {ShiftKey} else {}) + (if f.fn then {FnKey} else {})
  }

  lemma FlagsAreModifiers(f: Flags)
    ensures f.fn ==> (OnlyFn(f) <==> Modifiers(f) == {FnKey})
    ensures OnlyControl(f) <==> Modifiers(f) == {ControlKey}
  {
    var m := Modifiers(f);
    assert (ControlKey in m <==> f.control) && (OptionKey in m <==> f.option) && (CommandKey in m <==> f.command);
    assert (ShiftKey in m <==> f.shift) && (FnKey in m <==> f.fn);
    if f.fn && OnlyFn(f) { assert m == {FnKey}; }
    if OnlyControl(f) { assert m == {ControlKey}; }
  }

  /** A change of the Fn key, while it is captured. */
  predicate FnChanges(e: Event) {
    e.Handle? && e.input.captureFn && e.input.kind.FlagsChanged? && e.input.code == FN_KEY
  }

  predicate FnPress(e: Event) {
    FnChanges(e) && FnKey in Modifiers(e.input.flags)
  }

  predicate FnRelease(e: Event) {
    FnChanges(e) && FnKey !in Modifiers(e.input.flags)
  }

  predicate FnEnds(e: Event) {
    e.Reset? || FnRelease(e)
  }

  /** Any other key or mouse event, but not the release of another key and no system event. */
  predicate Disturbs(e: Event) {
    e.Handle? && !FnChanges(e) && !e.input.kind.KeyUp? && !e.input.kind.SystemDefined?
  }

  ghost predicate EndsBetween(es: seq<Event>, lo: int, hi: nat)
    requires hi <= |es|
  {
    exists m :: lo < m < hi && 0 <= m && FnEnds(es[m])
  }

  /** The press that a release at `n` would match: not ended yet, and no earlier press is still open. */
  ghost predicate OpenPress(es: seq<Event>, p: nat, n: nat)
    requires n <= |es|
  {
    && p < n && FnPress(es[p]) && !EndsBetween(es, p, n)
    && forall k :: 0 <= k < p && FnPress(es[k]) ==> EndsBetween(es, k, p)
  }

  ghost predicate Alone(es: seq<Event>, p: nat, n: nat)
    requires p < n <= |es| && FnPress(es[p])
  {
    Modifiers(es[p].input.flags) == {FnKey} && forall k :: p < k < n ==> !Disturbs(es[k])
  }

  /** What the two Fn booleans remember of the history. */
  ghost predicate FnRemembered(es: seq<Event>, n: nat, s: State)
    requires n <= |es|
  {
    if s.fnDown then exists p :: OpenPress(es, p, n) && (s.fnCombined <==> !Alone(es, p, n))
    else !s.fnCombined && forall p :: 0 <= p < n && FnPress(es[p]) ==> EndsBetween(es, p, n)
  }

  lemma EndsGrow(es: seq<Event>, lo: int, n: nat)
    requires n < |es| && lo < n
    ensures EndsBetween(es, lo, n + 1) <==> EndsBetween(es, lo, n) || (FnEnds(es[n]) && n > lo)
  {
  }

  lemma FnStep(es: seq<Event>, n: nat, s: State)
    requires n < |es| && FnRemembered(es, n, s)
    ensures FnRemembered(es, n + 1, Next(s, es[n]))
  {
    var t := Next(s, es[n]);
    if es[n].Handle? { FlagsAreModifiers(es[n].input.flags); }
    forall p | 0 <= p < n ensures EndsBetween(es, p, n + 1) <==> EndsBetween(es, p, n) || FnEnds(es[n]) {
      EndsGrow(es, p, n);
    }
    if s.fnDown && t.fnDown {
      var p :| OpenPress(es, p, n) && (s.fnCombined <==> !Alone(es, p, n));
      assert OpenPress(es, p, n + 1) && (t.fnCombined <==> !Alone(es, p, n + 1));
    } else if t.fnDown {
      assert OpenPress(es, n, n + 1) && (t.fnCombined <==> !Alone(es, n, n + 1));
    } else if s.fnDown {
      assert FnEnds(es[n]);
      var p :| OpenPress(es, p, n);
    }
  }

  lemma {:induction false} FnTracked(es: seq<Event>, n: nat)
    requires n <= |es|
    ensures FnRemembered(es, n, After(es[..n]))
  {
    if n > 0 {
      FnTracked(es, n - 1);
      FnStep(es, n - 1, After(es[..n - 1]));
      AfterOneMore(es, n - 1);
    }
  }

  lemma OpenPressIsUnique(es: seq<Event>, p: nat, q: nat, n: nat)
    requires n <= |es| && OpenPress(es, p, n) && OpenPress(es, q, n)
    ensures p == q
  {
    EndsWiden(es, p, q, n);
    EndsWiden(es, q, p, n);
  }

  lemma EndsWiden(es: seq<Event>, lo: int, a: nat, n: nat)
    requires a <= n <= |es|
    ensures EndsBetween(es, lo, a) ==> EndsBetween(es, lo, n)
  {
  }

  /**
   "Fn" is produced at a release exactly when the matching press came without another modifier and nothing
   disturbed it in between; and it is produced nowhere else.
   */
  lemma FnIntent(es: seq<Event>, j: nat)
    requires j < |es|
    ensures DecisionAt(es, j).intent == Some(Fn) <==>
      FnRelease(es[j]) && exists p :: OpenPress(es, p, j) && Alone(es, p, j)
  {
    FnTracked(es, j);
    if es[j].Handle? { FlagsAreModifiers(es[j].input.flags); }
    var s := After(es[..j]);
    if FnRelease(es[j]) && s.fnDown {
      var p :| OpenPress(es, p, j) && (s.fnCombined <==> !Alone(es, p, j));
      if q :| OpenPress(es, q, j) && Alone(es, q, j) { OpenPressIsUnique(es, p, q, j); }
    }
  }

  /** The press at `j`, or the one still open before it, has been alone so far. */
  ghost predicate AloneSoFar(es: seq<Event>, j: nat)
    requires j < |es| && es[j].Handle?
  {
    if exists p :: OpenPress(es, p, j) then exists p :: OpenPress(es, p, j) && Alone(es, p, j)
    else Modifiers(es[j].input.flags) == {FnKey}
  }

  /** Of the Fn key, exactly a press that is alone so far and the release that gives the intent are consumed. */
  lemma FnIsConsumed(es: seq<Event>, j: nat)
    requires j < |es| && FnChanges(es[j])
    ensures FnPress(es[j]) ==> DecisionAt(es, j).intent.None? && (DecisionAt(es, j).consume <==> AloneSoFar(es, j))
    ensures FnRelease(es[j]) ==> (DecisionAt(es, j).consume <==> DecisionAt(es, j).intent == Some(Fn))
  {
    FnTracked(es, j);
    FlagsAreModifiers(es[j].input.flags);
    var s := After(es[..j]);
    if s.fnDown {
      var p :| OpenPress(es, p, j) && (s.fnCombined <==> !Alone(es, p, j));
      if q :| OpenPress(es, q, j) && Alone(es, q, j) { OpenPressIsUnique(es, p, q, j); }
    }
  }

  /** Every other event but Space is passed on. */
  lemma OthersPass(es: seq<Event>, j: nat)
    requires j < |es| && !FnChanges(es[j]) && !IsSpace(es[j])
    ensures DecisionAt(es, j) == PASS
  {
  }

  // ---- Control+Space ---------------------------------------------------------------------------

  predicate IsSpace(e: Event) {
    e.Handle? && e.input.code == SPACE_KEY && !e.input.kind.SystemDefined?
  }

  predicate IsChord(e: Event) {
    IsSpace(e) && e.input.captureControlSpace && e.input.kind.KeyDown? && Modifiers(e.input.flags) == {ControlKey}
  }

  predicate SpaceEnds(e: Event) {
    e.Reset? || (IsSpace(e) && e.input.kind.KeyUp?)
  }

  predicate NoSpaceEnd(es: seq<Event>, lo: nat, hi: nat) {
    lo <= hi <= |es| && forall m :: lo <= m < hi ==> !SpaceEnds(es[m])
  }

  ghost predicate SpaceRemembered(es: seq<Event>, n: nat, s: State)
    requires n <= |es|
  {
    s.spaceConsumed <==> exists p :: 0 <= p < n && IsChord(es[p]) && NoSpaceEnd(es, p + 1, n)
  }

  lemma {:induction false} SpaceTracked(es: seq<Event>, n: nat)
    requires n <= |es|
    ensures SpaceRemembered(es, n, After(es[..n]))
  {
    if n > 0 {
      SpaceTracked(es, n - 1);
      SpaceStep(es, n - 1, After(es[..n - 1]));
      AfterOneMore(es, n - 1);
    }
  }

  lemma SpaceStep(es: seq<Event>, n: nat, s: State)
    requires n < |es| && SpaceRemembered(es, n, s)
    ensures SpaceRemembered(es, n + 1, Next(s, es[n]))
  {
    var t := Next(s, es[n]);
    if es[n].Handle? { FlagsAreModifiers(es[n].input.flags); }
    if t.spaceConsumed {
      if s.spaceConsumed {
        var p :| 0 <= p < n && IsChord(es[p]) && NoSpaceEnd(es, p + 1, n);
        assert NoSpaceEnd(es, p + 1, n + 1);
      } else {
        assert IsChord(es[n]) && NoSpaceEnd(es, n + 1, n + 1);
      }
    } else {
      forall p | 0 <= p < n + 1 && IsChord(es[p]) ensures !NoSpaceEnd(es, p + 1, n + 1) {
        assert p < n && NoSpaceEnd(es, p + 1, n + 1) ==> NoSpaceEnd(es, p + 1, n);
      }
    }
  }

  /** A chord begun before `j` and not released yet. */
  ghost predicate ChordHeld(es: seq<Event>, j: nat)
    requires j <= |es|
  {
    exists p :: 0 <= p < j && IsChord(es[p]) && NoSpaceEnd(es, p + 1, j)
  }

  /**
   A Space event is consumed exactly when it belongs to a captured chord, from its press to its release, and
   the intent comes with the press alone.
   */
  lemma ControlSpaceIntent(es: seq<Event>, j: nat)
    requires j < |es|
    ensures DecisionAt(es, j).intent == Some(ControlSpace) <==> IsChord(es[j]) && !ChordHeld(es, j)
    ensures IsSpace(es[j]) ==> (DecisionAt(es, j).consume <==> IsChord(es[j]) || ChordHeld(es, j))
  {
    SpaceTracked(es, j);
    if es[j].Handle? { FlagsAreModifiers(es[j].input.flags); }
  }

  /** Between two intents the key was released. */
  lemma OneIntentPerPress(es: seq<Event>, i: nat, j: nat)
    requires i < j < |es|
    requires DecisionAt(es, i).intent == Some(ControlSpace) && DecisionAt(es, j).intent == Some(ControlSpace)
    ensures exists m :: i < m < j && SpaceEnds(es[m])
  {
    ControlSpaceIntent(es, i);
    ControlSpaceIntent(es, j);
    HeldFrom(es, i, j);
  }

  lemma HeldFrom(es: seq<Event>, i: nat, j: nat)
    requires i < j <= |es| && IsChord(es[i])
    ensures NoSpaceEnd(es, i + 1, j) ==> ChordHeld(es, j)
  {
  }

  // ---- the router object -----------------------------------------------------------------------

  class Router {
    var fnDown: bool
    var fnCombined: bool
    var spaceConsumed: bool

    ghost function View(): State
      reads this
    {
      State(fnDown, fnCombined, spaceConsumed)
    }

    constructor ()
      ensures View() == INITIAL
    {
      fnDown, fnCombined, spaceConsumed := false, false, false;
    }

    method Clear()
      modifies this
      ensures View() == INITIAL
    {
      fnDown, fnCombined, spaceConsumed := false, false, false;
    }

    method Route(i: Input) returns (d: Decision)
      modifies this
      ensures (View(), d) == Handled(old(View()), i)
    {
      if i.kind.SystemDefined? {
        return PASS;
      }
      if i.captureFn && i.kind.FlagsChanged? && i.code == FN_KEY {
        if i.flags.fn {
          if !fnDown {
            fnDown := true;
            fnCombined := !OnlyFn(i.flags);
          }
          return Decision(!fnCombined, None);
        }
        var tap := fnDown && !fnCombined;
        fnDown := false;
        fnCombined := false;
        return Decision(tap, if tap then Some(Fn) else None);
      }
      if fnDown && !i.kind.KeyUp? {
        fnCombined := true;
      }
      if i.code == SPACE_KEY {
        if spaceConsumed {
          if i.kind.KeyUp? {
            spaceConsumed := false;
          }
          return Decision(true, None);
        }
        if i.captureControlSpace && i.kind.KeyDown? && OnlyControl(i.flags) {
          spaceConsumed := true;
          return Decision(true, Some(ControlSpace));
        }
      }
      return PASS;
    }
  }
}
