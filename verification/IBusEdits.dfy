/**
 The IBus transaction from the outside: exactly when an edit is put out, what moves the focus, and that a
 transaction whose calls are all answered well goes through to its end.
 */
module IBusEdits {
  import opened Options
  import opened IBusText
  import opened IBusAnswers

  // ---- what may be typed -----------------------------------------------------------------------

  /** At most 4096 bytes that the library accepts, none of them a control character. */
  predicate Typeable(text: seq<nat>, utf8: bool) {
    |text| < 4097 && utf8 && !exists c :: c in text && (c < 32 || c == 127)
  }

  lemma TypeableIsValid(text: seq<nat>, utf8: bool)
    ensures ValidText(text, utf8) <==> Typeable(text, utf8)
  {
    if Typeable(text, utf8) {
      forall k | 0 <= k < |text| ensures text[k] >= 0x20 && text[k] != 0x7f {
        assert text[k] in text;
      }
    }
  }

  /** The token was issued at the focus revision that still holds. */
  ghost predicate IssuedNow(s: State, token: nat) {
    exists j :: 0 <= j < |s.log| && s.log[j] == Issued(token, s.revision)
  }

  /**
   In every reachable state a `finish` puts out an edit exactly for the outstanding token, with text that may be
   typed and at most 4096 backspaces, while the bus is there, our engine has the focus and the focus has not moved
   since the token was issued; and then it is that token, that many backspaces and that text.
   */
  lemma FinishEmitsExactly(es: seq<Event>, token: nat, backspaces: int, text: seq<nat>, utf8: bool)
    requires Runs(INITIAL, es)
    ensures var s, e := After(INITIAL, es), Finish(token, backspaces, text, utf8);
      && (PutsOut(s, e) <==>
            && token != 0 && token == s.token && Typeable(text, utf8) && 0 <= backspaces < 4097
            && s.connected && s.engine.Some? && s.focused && IssuedNow(s, token))
      && (PutsOut(s, e) ==> Next(s, e).log[|s.log|] == Emitted(token, s.revision, backspaces, text))
      && (token != 0 && token == s.token ==> Next(s, e).token == 0 && !Next(s, e).expiry)
  {
    RunKeeps(INITIAL, es);
    var s, e := After(INITIAL, es), Finish(token, backspaces, text, utf8);
    TypeableIsValid(text, utf8);
    if token != 0 && token == s.token {
      IssuedOnce(s);
      FinishRuns(s, backspaces, text, utf8);
    }
  }

  lemma IssuedOnce(s: State)
    requires Inv(s) && s.token != 0
    ensures IssuedNow(s, s.token) <==> s.prepared == s.revision
  {
    var j :| 0 <= j < |s.log| && s.log[j] == Issued(s.token, s.prepared);
    if IssuedNow(s, s.token) {
      var k :| 0 <= k < |s.log| && s.log[k] == Issued(s.token, s.revision);
      assert j == k;
    }
  }

  /** The call for the outstanding token. */
  lemma FinishRuns(s: State, backspaces: int, text: seq<nat>, utf8: bool)
    requires Inv(s) && s.token != 0
    ensures var e := Finish(s.token, backspaces, text, utf8);
      && (PutsOut(s, e) <==> Acceptable(backspaces, text, utf8) && StillFocused(s))
      && (PutsOut(s, e) ==> Next(s, e).log[|s.log|] == Emitted(s.token, s.revision, backspaces, text))
      && Next(s, e).token == 0 && !Next(s, e).expiry
  {
    var e := Finish(s.token, backspaces, text, utf8);
    var applied := Acceptable(backspaces, text, utf8) && StillFocused(s);
    var u := NewCall(s).(token := 0, expiry := false);
    var v := if applied then Log(u, Emitted(s.token, s.revision, backspaces, text)) else u;
    var c := RestoreAsk(FinishDone(s.calls, applied));
    assert Next(s, e) == Call(v, c);
    CallTells(v, c);
    FinishPutsOut(s, e, v, c, applied);
    RestoreKeepsToken(v, c.ending);
    if applied { assert Next(s, e).log[|s.log|] == v.log[|s.log|]; }
  }

  /** A restoration never issues a token. */
  lemma RestoreKeepsToken(v: State, ending: Ending)
    ensures Call(v, RestoreAsk(ending)).token == v.token && Call(v, RestoreAsk(ending)).expiry == v.expiry
  {
    if !v.connected {
      var w := Resume(v, RestoreAsk(ending), Failed);
      EndKeepsToken(v.(busy := false, ready := false), ending, false);
      SetKeepsToken(Log(v, SetEngine(v.previous)), ending);
    }
  }

  lemma EndKeepsToken(s: State, ending: Ending, restored: bool)
    ensures End(s, ending, restored).token == s.token && End(s, ending, restored).expiry == s.expiry
  {
  }

  lemma SetKeepsToken(s: State, ending: Ending)
    ensures Call(s, RestoreSet(ending)).token == s.token && Call(s, RestoreSet(ending)).expiry == s.expiry
  {
    if !s.connected { EndKeepsToken(s.(busy := false, ready := false), ending, false); }
  }

  // ---- what an edit types ----------------------------------------------------------------------

  /** The focused program: what stands before its cursor, and whether it sees backspace held down. */
  datatype Program = Program(document: seq<nat>, held: bool)

  /** A new press of backspace deletes one character; committed text goes in at the cursor. */
  function Typed(p: Program, k: Key): Program {
    match k
    case BackspaceDown =>
      if p.held || p.document == [] then p.(held := true)
      else Program(p.document[..|p.document| - 1], true)
    case BackspaceUp => p.(held := false)
    case CommitText(text) => p.(document := p.document + text)
  }

  function TypedAll(p: Program, ks: seq<Key>): Program
    decreases |ks|
  {
    if ks == [] then p else Typed(TypedAll(p, ks[..|ks| - 1]), ks[|ks| - 1])
  }

  function Shortened(document: seq<nat>, n: nat): seq<nat> {
    if n <= |document| then document[..|document| - n] else []
  }

  lemma {:induction false} BackspacesDelete(document: seq<nat>, backspaces: nat)
    ensures TypedAll(Program(document, false), Batch(backspaces, [])) == Program(Shortened(document, backspaces), false)
  {
    var ks := Batch(backspaces, []);
    if backspaces > 0 {
      BackspacesDelete(document, backspaces - 1);
      var n := 2 * backspaces;
      assert ks[..n - 1][..n - 2] == Batch(backspaces - 1, []);
      assert ks[n - 2] == BackspaceDown && ks[n - 1] == BackspaceUp;
      assert TypedAll(Program(document, false), ks[..n - 1]) ==
        Typed(TypedAll(Program(document, false), Batch(backspaces - 1, [])), BackspaceDown);
    }
  }

  /** An edit deletes that many characters before the cursor, puts its text there, and leaves no key held. */
  lemma BatchEdits(document: seq<nat>, backspaces: nat, text: seq<nat>)
    ensures TypedAll(Program(document, false), Batch(backspaces, text))
         == Program(Shortened(document, backspaces) + text, false)
    ensures CommitText([]) !in Batch(backspaces, text)
  {
    BackspacesDelete(document, backspaces);
    var ks := Batch(backspaces, text);
    if text == [] {
      assert Shortened(document, backspaces) + text == Shortened(document, backspaces);
    } else {
      assert ks[..|ks| - 1] == Batch(backspaces, []);
    }
  }

  // ---- what moves the focus --------------------------------------------------------------------

  /** The signal is about the engine object that is ours now. */
  predicate Concerns(s: State, e: Event) {
    (e.FocusIn? || e.FocusLost? || e.Destroy?) && s.engine == Some(e.e)
  }

  /** Asking for the backend opens a new connection. */
  predicate Reconnects(s: State, e: Event) {
    e.Available? && !s.initializing && !(s.ready && s.connected) && !s.busy
  }

  function EngineAfter(s: State, e: Event): Option<nat> {
    if e.CreateEngine? then Some(s.engines)
    else if (e.Destroy? && Concerns(s, e)) || Reconnects(s, e) then None else s.engine
  }

  predicate FocusedAfter(s: State, e: Event) {
    if e.FocusIn? && Concerns(s, e) then true
    else s.focused && !Concerns(s, e) && !e.CreateEngine? && !Reconnects(s, e)
  }

  predicate ConnectedAfter(s: State, e: Event) {
    if Reconnects(s, e) then e.connects else e.ConnectionBack? || (s.connected && !e.ConnectionLost?)
  }

  predicate FocusOk(s: State, e: Event, t: State) {
    && t.revision == s.revision + (if Concerns(s, e) && !e.Destroy? then 1 else 0)
    && t.engine == EngineAfter(s, e) && (t.focused <==> FocusedAfter(s, e))
    && t.engines == s.engines + (if e.CreateEngine? then 1 else 0)
    && (t.connected <==> ConnectedAfter(s, e)) && (e.Disconnected? ==> !t.ready)
  }

  /** Only signals about the current engine move the focus revision, and each does by one. */
  lemma FocusIsFollowed(s: State, e: Event)
    requires Inv(s) && Possible(s, e)
    ensures FocusOk(s, e, Next(s, e))
  {
    if e.Available? { AvailableFollowed(s, e); }
    else if e.FocusIn? { FocusInFollowed(s, e); }
    else if IsSignal(e) { SignalFocus(s, e); }
    else {
      QuietFocus(s, e);
      QuietFollowed(s, e, Next(s, e));
    }
  }

  lemma AvailableFollowed(s: State, e: Event)
    requires Inv(s) && Possible(s, e) && e.Available?
    ensures FocusOk(s, e, Next(s, e))
  {
    AvailableFocus(s, e.ours, e.connects);
  }

  lemma FocusInFollowed(s: State, e: Event)
    requires Inv(s) && e.FocusIn?
    ensures FocusOk(s, e, Next(s, e))
  {
    FocusInFocus(s, e.e);
  }

  lemma QuietFollowed(s: State, e: Event, t: State)
    requires SameFocus(s, t) && !e.Available? && !e.FocusIn? && !IsSignal(e)
    ensures FocusOk(s, e, t)
  {
  }

  lemma SignalFocus(s: State, e: Event)
    requires IsSignal(e)
    ensures FocusOk(s, e, Next(s, e))
  {
  }

  lemma QuietFocus(s: State, e: Event)
    requires Inv(s) && Possible(s, e) && !e.Available? && !e.FocusIn? && !IsSignal(e)
    ensures SameFocus(s, Next(s, e))
  {
    match e
    case Deliver(k, reply) => DeliverFocus(s, k, reply);
    case Prepare => PrepareFocus(s);
    case Finish(token, backspaces, text, utf8) => FinishFocus(s, token, backspaces, text, utf8);
    case Expire => ExpireFocus(s);
    case Registered(ok) => RegisteredFocus(s, ok);
  }

  lemma DeliverFocus(s: State, k: nat, reply: Reply)
    requires Inv(s) && k < |s.chains|
    ensures SameFocus(s, Next(s, Deliver(k, reply)))
  {
    DeliverIs(s, k, reply);
    ReplyArrives(s);
    ResumeTells(s.(chains := []), s.chains[0], reply);
  }

  lemma PrepareFocus(s: State)
    requires Inv(s)
    ensures SameFocus(s, AfterPrepare(s))
  {
    if s.ready && !s.busy && s.connected { CallTells(NewCall(s).(busy := true), AwaitContext(s.calls)); }
  }

  lemma ExpireFocus(s: State)
    requires Inv(s) && s.expiry
    ensures SameFocus(s, AfterExpire(s))
  {
    CallTells(s.(expiry := false, token := 0), RestoreAsk(Silent));
  }

  lemma RegisteredFocus(s: State, ok: bool)
    requires s.registrations > 0
    ensures SameFocus(s, Next(s, Registered(ok)))
  {
    AllTold(s.(registrations := s.registrations - 1, ready := ok, initializing := false, waiters := []), s.waiters,
            if ok then 1 else 0);
  }

  lemma FinishFocus(s: State, token: nat, backspaces: int, text: seq<nat>, utf8: bool)
    requires Inv(s)
    ensures SameFocus(s, AfterFinish(s, token, backspaces, text, utf8))
  {
    if token != 0 && token == s.token {
      var applied := Acceptable(backspaces, text, utf8) && StillFocused(s);
      var u := NewCall(s).(token := 0, expiry := false);
      var v := if applied then Log(u, Emitted(token, s.revision, backspaces, text)) else u;
      CallTells(v, RestoreAsk(FinishDone(s.calls, applied)));
    }
  }

  lemma FocusInFocus(s: State, i: nat)
    requires Inv(s)
    ensures var t := AfterFocusIn(s, i);
      if s.engine != Some(i) then t == s else SameFocus(s.(focused := true, revision := s.revision + 1), t)
  {
    if s.engine == Some(i) && !s.busy && s.previous != "" {
      CallTells(s.(focused := true, revision := s.revision + 1, busy := true), RestoreAsk(Silent));
    }
  }

  lemma AvailableFocus(s: State, ours: string, connects: bool)
    requires Inv(s) && Possible(s, Available(ours, connects))
    ensures var t := AfterAvailable(s, ours, connects);
      && t.revision == s.revision && t.engines == s.engines
      && (if Reconnects(s, Available(ours, connects)) then t.engine.None? && !t.focused && t.connected == connects
          else t.engine == s.engine && t.focused == s.focused && t.connected == s.connected)
  {
    if Reconnects(s, Available(ours, connects)) && !connects {
      var u := NewCall(s).(initializing := false, ready := false, engine := None, focused := false, connected := false,
                           waiters := []);
      AllTold(u, s.waiters + [s.calls], 0);
      assert AfterAvailable(s, ours, connects) == CompleteAll(u, s.waiters + [s.calls], 0);
    }
  }

  /** A signal about an engine object that is not ours any more changes nothing at all. */
  lemma OthersEnginesAreIgnored(s: State, e: Event)
    requires (e.FocusIn? || e.FocusLost? || e.Destroy?) && !Concerns(s, e)
    ensures Next(s, e) == s
  {
  }

  /** An activation that comes after its transaction has ended starts to give the user's engine back. */
  lemma LateActivationIsUndone(s: State, i: nat)
    requires Inv(s) && s.engine == Some(i) && s.connected
    ensures var t := Next(s, FocusIn(i));
      && (!s.busy && s.previous != "" ==> t.busy && t.chains == [RestoreAsk(Silent)] && t.log == s.log)
      && (s.busy || s.previous == "" ==> t == s.(focused := true, revision := s.revision + 1))
  {
  }

  // ---- a restoration that goes wrong -----------------------------------------------------------

  /** The backend stays ready through a restoration exactly if the daemon names an engine and takes ours away. */
  lemma FailedRestorationIsNotReady(s: State, ending: Ending, r: Reply)
    requires s.connected && s.name != ""
    ensures var t := Resume(s, RestoreAsk(ending), r);
      if r == EngineName(s.name) then t.chains == s.chains + [RestoreSet(ending)] && t.ready == s.ready
      else !t.busy && (t.ready <==> s.ready && r.EngineName? && r.engine != "")
    ensures var t := Resume(s, RestoreSet(ending), r); !t.busy && (t.ready <==> s.ready && !r.Failed?)
  {
  }

  // ---- a transaction that goes through ---------------------------------------------------------

  /** Idle, with everything in place. */
  ghost predicate Idle(s: State) {
    Inv(s) && s.ready && s.connected && !s.busy
  }

  /** Nothing fails: what callers and the daemon do while a transaction goes through. */
  predicate Smooth(es: seq<Event>) {
    forall k :: 0 <= k < |es| ==>
      es[k].Prepare? || es[k].Finish? || es[k].CreateEngine? || es[k].FocusIn?
      || (es[k].Deliver? && !es[k].reply.Failed?)
  }

  /** What such a run leaves in the log. */
  function SmoothLog(s: State, engine: string, backspaces: nat, text: seq<nat>): seq<Effect> {
    var token, revision := s.nextToken + 1, s.revision + 1;
    [SetEngine(s.name), Issued(token, revision), Completed(s.calls, token),
     Emitted(token, revision, backspaces, text), SetEngine(engine), Completed(s.calls + 1, 1)]
  }

  /** The answer to the one call outstanding. */
  lemma AnswerIs(s: State, c: Cont, r: Reply)
    requires s.chains == [c]
    ensures Possible(s, Deliver(0, r)) && Next(s, Deliver(0, r)) == Resume(s.(chains := []), c, r)
  {
    assert Without(s.chains, 0) == [];
  }

  function Opened(s: State, path: string): State {
    s.(calls := s.calls + 1, busy := true, context := path, chains := [AwaitEngine(s.calls)])
  }

  /** The caller asks, and the daemon names an input context that is not its own. */
  lemma ContextFound(s: State, path: string) returns (es: seq<Event>)
    requires s.ready && s.connected && !s.busy && s.chains == [] && path != FAKE_CONTEXT
    ensures |es| == 2 && Smooth(es) && Runs(s, es) && After(s, es) == Opened(s, path)
  {
    es := [Prepare, Deliver(0, ContextPath(path))];
    var s1 := Next(s, Prepare);
    assert s1 == s.(calls := s.calls + 1, busy := true, chains := [AwaitContext(s.calls)]);
    AnswerIs(s1, AwaitContext(s.calls), ContextPath(path));
    TwoRuns(s, Prepare, Deliver(0, ContextPath(path)));
  }

  lemma SmoothOpening(s: State, path: string) returns (es: seq<Event>)
    requires Idle(s) && path != FAKE_CONTEXT
    ensures |es| == 2 && Smooth(es) && Runs(s, es) && After(s, es) == Opened(s, path)
  {
    assert s.chains == [];
    es := ContextFound(s, path);
  }

  function Selected(s: State, engine: string, done: nat): State {
    s.(previous := engine, log := s.log + [SetEngine(s.name)], chains := [AwaitContextAgain(done)])
  }

  lemma SmoothSelecting(s: State, engine: string, done: nat) returns (es: seq<Event>)
    requires s.connected && s.chains == [AwaitEngine(done)] && engine != "" && engine != s.name
    ensures |es| == 2 && Smooth(es) && Runs(s, es) && After(s, es) == Selected(s, engine, done)
  {
    es := [Deliver(0, EngineName(engine)), Deliver(0, Acknowledged)];
    AnswerIs(s, AwaitEngine(done), EngineName(engine));
    var s1 := Next(s, Deliver(0, EngineName(engine)));
    assert s1 == s.(previous := engine, log := s.log + [SetEngine(s.name)], chains := [AwaitSelect(done)]);
    AnswerIs(s1, AwaitSelect(done), Acknowledged);
    TwoRuns(s, Deliver(0, EngineName(engine)), Deliver(0, Acknowledged));
  }

  /** The daemon creates our engine and focuses it. */
  lemma SmoothFocus(s: State)
    requires s.busy
    ensures Next(Next(s, CreateEngine), FocusIn(s.engines)) ==
      s.(engine := Some(s.engines), engines := s.engines + 1, focused := true, revision := s.revision + 1)
  {
  }

  function Handed(s: State, done: nat): State {
    s.(engine := Some(s.engines), engines := s.engines + 1, focused := true, revision := s.revision + 1, chains := [],
       nextToken := s.nextToken + 1, token := s.nextToken + 1, prepared := s.revision + 1, expiry := true,
       log := s.log + [Issued(s.nextToken + 1, s.revision + 1)] + [Completed(done, s.nextToken + 1)])
  }

  /** From there to the token. */
  lemma SmoothIssue(s: State, path: string, done: nat) returns (es: seq<Event>)
    requires s.busy && s.connected && s.context == path && s.chains == [AwaitContextAgain(done)]
    ensures |es| == 3 && Smooth(es) && Runs(s, es) && After(s, es) == Handed(s, done)
  {
    es := [CreateEngine, FocusIn(s.engines), Deliver(0, ContextPath(path))];
    SmoothFocus(s);
    var t := Next(Next(s, CreateEngine), FocusIn(s.engines));
    AnswerIs(t, AwaitContextAgain(done), ContextPath(path));
    ResumeIssues(t.(chains := []), done, ContextPath(path));
    ThreeRuns(s, CreateEngine, FocusIn(s.engines), Deliver(0, ContextPath(path)));
  }

  function Done(s: State, backspaces: nat, text: seq<nat>): State {
    s.(calls := s.calls + 1, token := 0, expiry := false, busy := false,
       log := s.log + [Emitted(s.token, s.revision, backspaces, text)] + [SetEngine(s.previous)]
              + [Completed(s.calls, 1)])
  }

  /** The edit and the restoration. */
  lemma SmoothFinish(s: State, backspaces: nat, text: seq<nat>) returns (es: seq<Event>)
    requires Typeable(text, true) && backspaces <= 4096 && s.token != 0 && s.connected && s.chains == []
    requires s.engine.Some? && s.focused && s.prepared == s.revision && s.name != ""
    ensures |es| == 3 && Smooth(es) && Runs(s, es) && After(s, es) == Done(s, backspaces, text)
  {
    es := [Finish(s.token, backspaces, text, true), Deliver(0, EngineName(s.name)), Deliver(0, Acknowledged)];
    TypeableIsValid(text, true);
    var e1, e2, e3 := Finish(s.token, backspaces, text, true), Deliver(0, EngineName(s.name)), Deliver(0, Acknowledged);
    var ending := FinishDone(s.calls, true);
    var s1 := Next(s, e1);
    assert s1 == s.(calls := s.calls + 1, token := 0, expiry := false, chains := [RestoreAsk(ending)],
                    log := s.log + [Emitted(s.token, s.revision, backspaces, text)]);
    AnswerIs(s1, RestoreAsk(ending), EngineName(s.name));
    var s2 := Next(s1, e2);
    assert s2 == s1.(chains := [RestoreSet(ending)], log := s1.log + [SetEngine(s.previous)]);
    AnswerIs(s2, RestoreSet(ending), Acknowledged);
    ThreeRuns(s, e1, e2, e3);
  }

  lemma TwoRuns(s: State, a: Event, b: Event)
    requires Possible(s, a) && Possible(Next(s, a), b)
    ensures Runs(s, [a, b]) && After(s, [a, b]) == Next(Next(s, a), b)
  {
    assert [a, b][1..] == [b] && [b][1..] == [];
    assert Runs(Next(Next(s, a), b), []) && After(Next(Next(s, a), b), []) == Next(Next(s, a), b);
    assert Runs(Next(s, a), [b]) && After(Next(s, a), [b]) == Next(Next(s, a), b);
  }

  lemma ThreeRuns(s: State, a: Event, b: Event, c: Event)
    requires Possible(s, a) && Possible(Next(s, a), b) && Possible(Next(Next(s, a), b), c)
    ensures Runs(s, [a, b, c]) && After(s, [a, b, c]) == Next(Next(Next(s, a), b), c)
  {
    assert [a, b, c][1..] == [b, c];
    TwoRuns(Next(s, a), b, c);
  }

  lemma {:induction false} RunsOn(s: State, a: seq<Event>, b: seq<Event>)
    requires Runs(s, a) && Runs(After(s, a), b)
    ensures Runs(s, a + b) && After(s, a + b) == After(After(s, a), b)
    decreases |a|
  {
    if a == [] {
      assert a + b == b;
    } else {
      RunsOn(Next(s, a[0]), a[1..], b);
      assert (a + b)[0] == a[0] && (a + b)[1..] == a[1..] + b;
    }
  }

  lemma FourJoin(s: State, a: seq<Event>, b: seq<Event>, c: seq<Event>, d: seq<Event>,
                 t: State, u: State, v: State, w: State)
    requires Runs(s, a) && After(s, a) == t && Runs(t, b) && After(t, b) == u
    requires Runs(u, c) && After(u, c) == v && Runs(v, d) && After(v, d) == w
    requires Smooth(a) && Smooth(b) && Smooth(c) && Smooth(d)
    ensures Runs(s, a + b + c + d) && After(s, a + b + c + d) == w && Smooth(a + b + c + d)
  {
    RunsOn(s, a, b);
    RunsOn(s, a + b, c);
    RunsOn(s, a + b + c, d);
  }

  /** The state at the end of such a run. */
  function SmoothState(s: State, path: string, engine: string, backspaces: nat, text: seq<nat>): State {
    Done(Handed(Selected(Opened(s, path), engine, s.calls), s.calls), backspaces, text)
  }

  lemma SmoothRuns(s: State, path: string, engine: string, backspaces: nat, text: seq<nat>) returns (es: seq<Event>)
    requires Idle(s) && path != FAKE_CONTEXT && engine != "" && engine != s.name
    requires Typeable(text, true) && backspaces <= 4096
    ensures |es| == 10 && Smooth(es) && Runs(s, es) && After(s, es) == SmoothState(s, path, engine, backspaces, text)
  {
    var a := SmoothOpening(s, path);
    var u := Opened(s, path);
    var b := SmoothSelecting(u, engine, s.calls);
    var v := Selected(u, engine, s.calls);
    var c := SmoothIssue(v, path, s.calls);
    var w := Handed(v, s.calls);
    var d := SmoothFinish(w, backspaces, text);
    FourJoin(s, a, b, c, d, u, v, w, Done(w, backspaces, text));
    es := a + b + c + d;
  }

  /**
   From every idle state with the bus at hand there is a transaction of ten events in which nothing fails: it selects
   our engine, hands out a new token, puts the edit out, selects the engine found before, tells both callers of their
   success, and leaves the backend idle and ready.
   */
  lemma SmoothTransaction(s: State, path: string, engine: string, backspaces: nat, text: seq<nat>)
    returns (es: seq<Event>)
    requires Idle(s) && path != FAKE_CONTEXT && engine != "" && engine != s.name
    requires Typeable(text, true) && backspaces <= 4096
    ensures |es| == 10 && Smooth(es) && Runs(s, es)
    ensures var t := After(s, es);
      Idle(t) && t.log == s.log + SmoothLog(s, engine, backspaces, text) && t.token == 0
  {
    es := SmoothRuns(s, path, engine, backspaces, text);
    RunKeeps(s, es);
    SmoothEnd(s, Selected(Opened(s, path), engine, s.calls), engine, backspaces, text);
  }

  lemma SmoothEnd(s: State, u: State, engine: string, backspaces: nat, text: seq<nat>)
    requires u.log == s.log + [SetEngine(s.name)] && u.calls == s.calls + 1 && u.previous == engine
    requires u.nextToken == s.nextToken && u.revision == s.revision
    ensures var t := Done(Handed(u, s.calls), backspaces, text);
      t.log == s.log + SmoothLog(s, engine, backspaces, text) && t.ready == u.ready && t.connected == u.connected
  {
  }
}
