/**
 The IBus committed-text transaction: a chain of asynchronous D-Bus calls that selects our engine,
 hands out a token, emits one edit and restores the user's engine, while focus signals, timeouts and
 daemon restarts arrive in any order.  A continuation closure is a value of `Cont`.
 */
module IBusText {
  import opened Options

  /** Input context 1 is the daemon's own fake context, which nobody reads. */
  const FAKE_CONTEXT := "/org/freedesktop/IBus/InputContext_1"

  datatype Reply = Failed | ContextPath(path: string) | EngineName(engine: string) | Acknowledged

  /** What a restoration does when it ends. */
  datatype Ending = Silent | FailPrepare(id: nat) | FinishDone(id: nat, applied: bool)

  datatype Cont =
    | AwaitContext(done: nat)
    | AwaitEngine(done: nat)
    | AwaitSelect(done: nat)
    | AwaitContextAgain(done: nat)
    | RestoreAsk(ending: Ending)
    | RestoreSet(ending: Ending)

  datatype Effect =
    | SetEngine(engine: string)
    | Issued(token: nat, revision: nat)
    | Emitted(token: nat, revision: nat, backspaces: nat, text: seq<nat>)
    | Completed(id: nat, value: nat)

  /**
   The fields of the backend; `chains` and `registrations` are the outstanding D-Bus calls and `calls`
   numbers the completions handed in by callers.
   */
  datatype State = State(
    connected: bool, ready: bool, initializing: bool, busy: bool,
    engine: Option<nat>, engines: nat, focused: bool,
    name: string, previous: string, context: string,
    nextToken: nat, token: nat, expiry: bool, revision: nat, prepared: nat,
    waiters: seq<nat>, chains: seq<Cont>, registrations: nat,
    calls: nat, log: seq<Effect>)

  datatype Event =
    | Available(ours: string, connects: bool)
    | Prepare
    | Finish(token: nat, backspaces: int, text: seq<nat>, utf8: bool)
    | Expire
    | Deliver(k: nat, reply: Reply)
    | Registered(ok: bool)
    | Disconnected
    | ConnectionLost
    | ConnectionBack
    | CreateEngine
    | FocusIn(e: nat)
    | FocusLost(e: nat)
    | Destroy(e: nat)

  const INITIAL: State :=
    State(false, false, false, false, None, 0, false, "", "", "", 0, 0, false, 0, 0, [], [], 0, 0, [])

  function Log(s: State, e: Effect): State {
    s.(log := s.log + [e])
  }

  function Complete(s: State, id: nat, value: nat): State {
    Log(s, Completed(id, value))
  }

  function End(s: State, ending: Ending, restored: bool): State {
    match ending
    case Silent => s
    case FailPrepare(id) => Complete(s, id, 0)
    case FinishDone(id, applied) => Complete(s, id, if applied && restored then 1 else 0)
  }

  // ---- the chain -------------------------------------------------------------------------------

  /** How far a control point is from the end of the transaction. */
  function Rank(c: Cont): nat {
    match c
    case AwaitContext(_) => 7
    case AwaitEngine(_) => 6
    case AwaitSelect(_) => 5
    case AwaitContextAgain(_) => 4
    case RestoreAsk(_) => 2
    case RestoreSet(_) => 1
  }

  const HOLDING: nat := 3

  function Path(r: Reply): Option<string> {
    if r.ContextPath? then Some(r.path) else None
  }

  function Name(r: Reply): string {
    if r.EngineName? then r.engine else ""
  }

  /** A call on a closed connection fails at once. */
  function Call(s: State, c: Cont): State
    decreases Rank(c), 1
  {
    if !s.connected then Resume(s, c, Failed) else s.(chains := s.chains + [c])
  }

  function Resume(s: State, c: Cont, r: Reply): State
    decreases Rank(c), 0
  {
    match c
    case AwaitContext(done) =>
      if Path(r).None? || Path(r) == Some(FAKE_CONTEXT) then Complete(s.(busy := false), done, 0)
      else Call(s.(context := Path(r).value), AwaitEngine(done))
    case AwaitEngine(done) =>
      if Name(r) == "" || Name(r) == s.name then Complete(s.(busy := false), done, 0)
      else Call(Log(s.(previous := Name(r)), SetEngine(s.name)), AwaitSelect(done))
    case AwaitSelect(done) =>
      if r.Failed? then Call(s, RestoreAsk(FailPrepare(done))) else Call(s, AwaitContextAgain(done))
    case AwaitContextAgain(done) =>
      if Path(r) != Some(s.context) || s.engine.None? || !s.focused then Call(s, RestoreAsk(FailPrepare(done)))
      else
        var t := s.(nextToken := s.nextToken + 1, token := s.nextToken + 1, prepared := s.revision, expiry := true);
        Complete(Log(t, Issued(t.token, t.revision)), done, t.token)
    case RestoreAsk(ending) =>
      if Name(r) != s.name then End(s.(busy := false, ready := s.ready && Name(r) != ""), ending, Name(r) != "")
      else Call(Log(s, SetEngine(s.previous)), RestoreSet(ending))
    case RestoreSet(ending) =>
      End(s.(busy := false, ready := s.ready && !r.Failed?), ending, !r.Failed?)
  }

  // ---- the entry points ------------------------------------------------------------------------

  function NewCall(s: State): State {
    s.(calls := s.calls + 1)
  }

  function CompleteAll(s: State, ids: seq<nat>, value: nat): State
    decreases |ids|
  {
    if ids == [] then s else CompleteAll(Complete(s, ids[0], value), ids[1..], value)
  }

  function Initialized(s: State, ok: bool): State {
    CompleteAll(s.(ready := ok, initializing := false, waiters := []), s.waiters, if ok then 1 else 0)
  }

  function Reconnected(s: State, ours: string, connects: bool): State {
    var t := s.(initializing := true, ready := false, engine := None, focused := false, connected := connects);
    if !connects then Initialized(t, false) else t.(name := ours, registrations := t.registrations + 1)
  }

  function AfterAvailable(s: State, ours: string, connects: bool): State {
    var t := NewCall(s);
    if !s.initializing && s.ready && s.connected then Complete(t, s.calls, 1)
    else if s.busy then Complete(t, s.calls, 0)
    else
      var u := t.(waiters := t.waiters + [s.calls]);
      if s.initializing then u else Reconnected(u, ours, connects)
  }

  function AfterPrepare(s: State): State {
    var t := NewCall(s);
    if !s.ready || s.busy || !s.connected then Complete(t, s.calls, 0)
    else Call(t.(busy := true), AwaitContext(s.calls))
  }

  predicate ValidText(text: seq<nat>, utf8: bool) {
    |text| <= 4096 && utf8 && forall k :: 0 <= k < |text| ==> text[k] >= 0x20 && text[k] != 0x7f
  }

  predicate Acceptable(backspaces: int, text: seq<nat>, utf8: bool) {
    ValidText(text, utf8) && 0 <= backspaces <= 4096
  }

  predicate StillFocused(s: State) {
    s.engine.Some? && s.focused && s.prepared == s.revision && s.connected
  }

  function AfterFinish(s: State, token: nat, backspaces: int, text: seq<nat>, utf8: bool): State {
    var t := NewCall(s);
    if token == 0 || token != s.token then Complete(t, s.calls, 0)
    else
      var applied := Acceptable(backspaces, text, utf8) && StillFocused(s);
      var u := t.(token := 0, expiry := false);
      var v := if applied then Log(u, Emitted(token, s.revision, backspaces, text)) else u;
      Call(v, RestoreAsk(FinishDone(s.calls, applied)))
  }

  function AfterExpire(s: State): State {
    Call(s.(expiry := false, token := 0), RestoreAsk(Silent))
  }

  function Without(cs: seq<Cont>, k: nat): seq<Cont>
    requires k < |cs|
  {
    cs[..k] + cs[k + 1..]
  }

  /** A late activation is undone as well. */
  function AfterFocusIn(s: State, e: nat): State {
    if s.engine != Some(e) then s
    else
      var t := s.(focused := true, revision := s.revision + 1);
      if !s.busy && s.previous != "" then Call(t.(busy := true), RestoreAsk(Silent)) else t
  }

  predicate Possible(s: State, e: Event) {
    match e
    case Available(ours, _) => ours != "" && (s.name == "" || s.name == ours)
    case Expire => s.expiry
    case Deliver(k, _) => k < |s.chains|
    case Registered(_) => s.registrations > 0
    case _ => true
  }

  function Next(s: State, e: Event): State
    requires Possible(s, e)
  {
    match e
    case Available(ours, connects) => AfterAvailable(s, ours, connects)
    case Prepare => AfterPrepare(s)
    case Finish(token, backspaces, text, utf8) => AfterFinish(s, token, backspaces, text, utf8)
    case Expire => AfterExpire(s)
    case Deliver(k, reply) => Resume(s.(chains := Without(s.chains, k)), s.chains[k], reply)
    case Registered(ok) => Initialized(s.(registrations := s.registrations - 1), ok)
    case Disconnected => s.(ready := false)
    case ConnectionLost => s.(connected := false)
    case ConnectionBack => s.(connected := true)
    case CreateEngine => s.(engine := Some(s.engines), engines := s.engines + 1, focused := false)
    case FocusIn(e) => AfterFocusIn(s, e)
    case FocusLost(e) => if s.engine != Some(e) then s else s.(focused := false, revision := s.revision + 1)
    case Destroy(e) => if s.engine != Some(e) then s else s.(engine := None, focused := false)
  }

  predicate Runs(s: State, es: seq<Event>)
    decreases |es|
  {
    es == [] || (Possible(s, es[0]) && Runs(Next(s, es[0]), es[1..]))
  }

  function After(s: State, es: seq<Event>): State
    requires Runs(s, es)
    decreases |es|
  {
    if es == [] then s else After(Next(s, es[0]), es[1..])
  }

  // ---- what holds in every reachable state -----------------------------------------------------

  function CompletedId(e: Effect): multiset<nat> {
    if e.Completed? then multiset{e.id} else multiset{}
  }

  /** The completions that have fired. */
  function Fired(log: seq<Effect>): multiset<nat> {
    if log == [] then multiset{} else Fired(log[..|log| - 1]) + CompletedId(log[|log| - 1])
  }

  function Ids(n: nat): multiset<nat> {
    if n == 0 then multiset{} else Ids(n - 1) + multiset{n - 1}
  }

  function EndingIds(e: Ending): multiset<nat> {
    if e.Silent? then multiset{} else multiset{e.id}
  }

  /** The completions a pending call still has to fire. */
  function Owed(c: Cont): multiset<nat> {
    match c
    case AwaitContext(done) => multiset{done}
    case AwaitEngine(done) => multiset{done}
    case AwaitSelect(done) => multiset{done}
    case AwaitContextAgain(done) => multiset{done}
    case RestoreAsk(ending) => EndingIds(ending)
    case RestoreSet(ending) => EndingIds(ending)
  }

  /** Each token is issued once and emits at most once, at the focus revision it was issued at. */
  ghost predicate LogOk(log: seq<Effect>, last: nat) {
    && (forall i :: 0 <= i < |log| && log[i].Issued? ==> 0 < log[i].token <= last)
    && (forall i :: 0 <= i < |log| && log[i].Emitted? ==>
          exists j :: 0 <= j < i && log[j] == Issued(log[i].token, log[i].revision))
    && (forall i, j :: 0 <= i < j < |log| && log[i].Issued? && log[j].Issued? ==> log[i].token != log[j].token)
    && (forall i, j :: 0 <= i < j < |log| && log[i].Emitted? && log[j].Emitted? ==> log[i].token != log[j].token)
  }

  /** The token has been issued at revision `revision` and not been used. */
  ghost predicate Fresh(log: seq<Effect>, token: nat, revision: nat) {
    && (exists j :: 0 <= j < |log| && log[j] == Issued(token, revision))
    && (forall i :: 0 <= i < |log| && log[i].Emitted? ==> log[i].token != token)
  }

  /** Each completion handed in is queued, owed by the chain, or has fired. */
  ghost predicate Balanced(waiters: seq<nat>, owed: multiset<nat>, log: seq<Effect>, calls: nat) {
    multiset(waiters) + owed + Fired(log) == Ids(calls)
  }

  predicate SetUp(s: State) {
    && (s.name == "" ==> !s.ready && s.registrations == 0 && s.previous == "")
    && (s.previous != "" ==> s.previous != s.name)
    && s.registrations == (if s.initializing then 1 else 0)
    && (s.waiters != [] ==> s.initializing)
  }

  /** Everything that does not depend on which control point is pending; `owed` is what the chain must still fire. */
  ghost predicate Core(s: State, owed: multiset<nat>) {
    SetUp(s) && Balanced(s.waiters, owed, s.log, s.calls) && LogOk(s.log, s.nextToken)
  }

  /** One chain, at one of its control points, exactly while busy. */
  ghost predicate Control(s: State) {
    && (s.expiry <==> s.token != 0)
    && |s.chains| + (if s.token != 0 then 1 else 0) == (if s.busy then 1 else 0)
    && (s.token != 0 ==> s.token == s.nextToken && Fresh(s.log, s.token, s.prepared))
    && (s.busy ==> s.name != "")
    && (s.busy && CurrentRank(s) <= 5 ==> s.previous != "")
  }

  function CurrentRank(s: State): nat {
    if s.chains != [] then Rank(s.chains[0]) else if s.token != 0 then HOLDING else 0
  }

  function OwedBy(s: State): multiset<nat> {
    if s.chains != [] then Owed(s.chains[0]) else multiset{}
  }

  ghost predicate Inv(s: State) {
    Core(s, OwedBy(s)) && Control(s)
  }

  /** Inside a callback: busy, no call pending, no token, and `c` about to run or to be asked. */
  ghost predicate Between(s: State, c: Cont) {
    && Core(s, Owed(c))
    && s.busy && s.chains == [] && s.token == 0 && !s.expiry && s.name != ""
    && (Rank(c) <= 5 ==> s.previous != "")
  }

  lemma LogOne(log: seq<Effect>, e: Effect)
    ensures Fired(log + [e]) == Fired(log) + CompletedId(e)
  {
    assert (log + [e])[..|log|] == log;
  }

  lemma LogQuiet(log: seq<Effect>, last: nat, e: Effect)
    requires LogOk(log, last) && !e.Issued? && !e.Emitted?
    ensures LogOk(log + [e], last)
  {
    var l := log + [e];
    forall i | 0 <= i < |l| && l[i].Emitted?
      ensures exists j :: 0 <= j < i && l[j] == Issued(l[i].token, l[i].revision) {
      var j :| 0 <= j < i && log[j] == Issued(log[i].token, log[i].revision);
      assert l[j] == log[j];
    }
  }

  lemma FreshQuiet(log: seq<Effect>, token: nat, revision: nat, e: Effect)
    requires Fresh(log, token, revision) && !e.Emitted?
    ensures Fresh(log + [e], token, revision)
  {
    var j :| 0 <= j < |log| && log[j] == Issued(token, revision);
    assert (log + [e])[j] == Issued(token, revision);
  }

  lemma LogIssue(log: seq<Effect>, last: nat, revision: nat)
    requires LogOk(log, last)
    ensures LogOk(log + [Issued(last + 1, revision)], last + 1)
    ensures Fresh(log + [Issued(last + 1, revision)], last + 1, revision)
  {
    var e := Issued(last + 1, revision);
    var l := log + [e];
    assert l[|log|] == e;
    forall i | 0 <= i < |l| && l[i].Emitted?
      ensures l[i].token != last + 1 && exists j :: 0 <= j < i && l[j] == Issued(l[i].token, l[i].revision) {
      var j :| 0 <= j < i && log[j] == Issued(log[i].token, log[i].revision);
      assert l[j] == log[j];
    }
  }

  lemma LogEmit(log: seq<Effect>, last: nat, e: Effect)
    requires LogOk(log, last) && e.Emitted? && Fresh(log, e.token, e.revision)
    ensures LogOk(log + [e], last)
  {
    var l := log + [e];
    forall i | 0 <= i < |l| && l[i].Emitted?
      ensures exists j :: 0 <= j < i && l[j] == Issued(l[i].token, l[i].revision) {
      var j :| 0 <= j < |log| && j < i && log[j] == Issued(l[i].token, l[i].revision);
      assert l[j] == log[j];
    }
  }

  lemma CompleteKeeps(s: State, id: nat, value: nat)
    requires Core(s, multiset{id}) && !s.busy && s.chains == [] && s.token == 0 && !s.expiry
    ensures Inv(Complete(s, id, value))
  {
    assert multiset{} + multiset{id} == multiset{id};
    CompleteCore(s, multiset{}, id, value);
    IdleControl(Complete(s, id, value));
  }

  lemma IdleControl(s: State)
    requires !s.busy && s.chains == [] && s.token == 0 && !s.expiry
    ensures Control(s) && OwedBy(s) == multiset{}
  {
  }

  /** The end of a chain fires what it owes. */
  lemma EndKeeps(s: State, ending: Ending, restored: bool)
    requires Core(s, EndingIds(ending)) && !s.busy && s.chains == [] && s.token == 0 && !s.expiry
    ensures Inv(End(s, ending, restored))
  {
    match ending
    case Silent =>
    case FailPrepare(id) => CompleteKeeps(s, id, 0);
    case FinishDone(id, applied) => CompleteKeeps(s, id, if applied && restored then 1 else 0);
  }

  lemma SetEngineKeeps(s: State, c: Cont, engine: string)
    requires Between(s, c)
    ensures Between(Log(s, SetEngine(engine)), c)
  {
    LogOne(s.log, SetEngine(engine));
    LogQuiet(s.log, s.nextToken, SetEngine(engine));
  }

  /** The log after a token was handed out. */
  lemma IssueLog(log: seq<Effect>, last: nat, revision: nat, done: nat)
    requires LogOk(log, last)
    ensures var l := log + [Issued(last + 1, revision)] + [Completed(done, last + 1)];
      && LogOk(l, last + 1) && Fresh(l, last + 1, revision) && Fired(l) == Fired(log) + multiset{done}
  {
    var e, c := Issued(last + 1, revision), Completed(done, last + 1);
    LogIssue(log, last, revision);
    LogOne(log, e);
    LogOne(log + [e], c);
    LogQuiet(log + [e], last + 1, c);
    FreshQuiet(log + [e], last + 1, revision, c);
  }

  function TokenIssued(s: State, log: seq<Effect>): State {
    s.(nextToken := s.nextToken + 1, token := s.nextToken + 1, prepared := s.revision, expiry := true, log := log)
  }

  lemma IssueCore(s: State, done: nat, log: seq<Effect>)
    requires Core(s, multiset{done})
    requires LogOk(log, s.nextToken + 1) && Fired(log) == Fired(s.log) + multiset{done}
    ensures Core(TokenIssued(s, log), multiset{})
  {
  }

  lemma IssueControl(s: State, log: seq<Effect>)
    requires s.busy && s.chains == [] && s.name != "" && s.previous != ""
    requires Fresh(log, s.nextToken + 1, s.revision)
    ensures Control(TokenIssued(s, log)) && OwedBy(TokenIssued(s, log)) == multiset{}
  {
  }

  lemma ResumeIssues(s: State, done: nat, r: Reply)
    requires Path(r) == Some(s.context) && s.engine.Some? && s.focused
    ensures var log := s.log + [Issued(s.nextToken + 1, s.revision)] + [Completed(done, s.nextToken + 1)];
      Resume(s, AwaitContextAgain(done), r) == TokenIssued(s, log)
  {
  }

  lemma IssuedKeeps(s: State, done: nat, log: seq<Effect>)
    requires Core(s, multiset{done}) && s.busy && s.chains == [] && s.name != "" && s.previous != ""
    requires LogOk(log, s.nextToken + 1) && Fired(log) == Fired(s.log) + multiset{done}
    requires Fresh(log, s.nextToken + 1, s.revision)
    ensures Inv(TokenIssued(s, log))
  {
    IssueCore(s, done, log);
    IssueControl(s, log);
  }

  lemma IssueKeeps(s: State, done: nat)
    requires Core(s, multiset{done}) && s.busy && s.chains == [] && s.name != "" && s.previous != ""
    ensures Inv(TokenIssued(s, s.log + [Issued(s.nextToken + 1, s.revision)] + [Completed(done, s.nextToken + 1)]))
  {
    IssueLog(s.log, s.nextToken, s.revision, done);
    IssuedKeeps(s, done, s.log + [Issued(s.nextToken + 1, s.revision)] + [Completed(done, s.nextToken + 1)]);
  }

  /** Giving up before anything was selected. */
  lemma AbandonKeeps(s: State, c: Cont, done: nat)
    requires Between(s, c) && Owed(c) == multiset{done}
    ensures Inv(Complete(s.(busy := false), done, 0))
  {
    CompleteKeeps(s.(busy := false), done, 0);
  }

  lemma SelectBegins(s: State, t: State, done: nat)
    requires Between(s, AwaitEngine(done)) && t == s.(previous := t.previous)
    requires t.previous != "" && t.previous != s.name
    ensures Between(Log(t, SetEngine(t.name)), AwaitSelect(done))
  {
    SetEngineKeeps(t, AwaitSelect(done), t.name);
  }

  lemma {:induction false} CallKeeps(s: State, c: Cont)
    requires Between(s, c)
    ensures Inv(Call(s, c))
    decreases Rank(c), 1
  {
    if !s.connected { ResumeKeeps(s, c, Failed); }
  }

  lemma {:induction false} ResumeKeeps(s: State, c: Cont, r: Reply)
    requires Between(s, c)
    ensures Inv(Resume(s, c, r))
    decreases Rank(c), 0
  {
    match c
    case AwaitContext(done) => ContextKeeps(s, done, r);
    case AwaitEngine(done) => EngineKeeps(s, done, r);
    case AwaitSelect(done) => SelectKeeps(s, done, r);
    case AwaitContextAgain(done) => AgainKeeps(s, done, r);
    case RestoreAsk(ending) => AskKeeps(s, ending, r);
    case RestoreSet(ending) => RestoredKeeps(s, ending, s.ready && !r.Failed?, !r.Failed?);
  }

  lemma RestoredKeeps(s: State, ending: Ending, ready: bool, restored: bool)
    requires Core(s, EndingIds(ending)) && s.chains == [] && s.token == 0 && !s.expiry
    requires ready ==> s.ready
    ensures Inv(End(s.(busy := false, ready := ready), ending, restored))
  {
    EndKeeps(s.(busy := false, ready := ready), ending, restored);
  }

  lemma {:induction false} AgainKeeps(s: State, done: nat, r: Reply)
    requires Between(s, AwaitContextAgain(done))
    ensures Inv(Resume(s, AwaitContextAgain(done), r))
    decreases 3, 3
  {
    if Path(r) != Some(s.context) || s.engine.None? || !s.focused { SelectKeeps(s, done, Failed); }
    else {
      ResumeIssues(s, done, r);
      IssueKeeps(s, done);
    }
  }

  lemma {:induction false} ContextKeeps(s: State, done: nat, r: Reply)
    requires Between(s, AwaitContext(done))
    ensures Inv(Resume(s, AwaitContext(done), r))
    decreases 6, 2
  {
    if Path(r).None? || Path(r) == Some(FAKE_CONTEXT) { AbandonKeeps(s, AwaitContext(done), done); }
    else { CallKeeps(s.(context := Path(r).value), AwaitEngine(done)); }
  }

  lemma {:induction false} EngineKeeps(s: State, done: nat, r: Reply)
    requires Between(s, AwaitEngine(done))
    ensures Inv(Resume(s, AwaitEngine(done), r))
    decreases 5, 2
  {
    if Name(r) == "" || Name(r) == s.name { AbandonKeeps(s, AwaitEngine(done), done); }
    else {
      var t := s.(previous := Name(r));
      SelectBegins(s, t, done);
      CallKeeps(Log(t, SetEngine(t.name)), AwaitSelect(done));
    }
  }

  lemma {:induction false} SelectKeeps(s: State, done: nat, r: Reply)
    requires Between(s, AwaitSelect(done)) || (r.Failed? && Between(s, AwaitContextAgain(done)))
    ensures Inv(Resume(s, AwaitSelect(done), r))
    decreases if r.Failed? then 3 else 4, 2
  {
    if r.Failed? { CallKeeps(s, RestoreAsk(FailPrepare(done))); } else { CallKeeps(s, AwaitContextAgain(done)); }
  }

  lemma {:induction false} AskKeeps(s: State, ending: Ending, r: Reply)
    requires Between(s, RestoreAsk(ending))
    ensures Inv(Resume(s, RestoreAsk(ending), r))
    decreases 1, 2
  {
    if Name(r) != s.name {
      RestoredKeeps(s, ending, s.ready && Name(r) != "", Name(r) != "");
    } else {
      SetEngineKeeps(s, RestoreSet(ending), s.previous);
      CallKeeps(Log(s, SetEngine(s.previous)), RestoreSet(ending));
    }
  }

  // ---- every event keeps it --------------------------------------------------------------------

  lemma CompleteCore(s: State, owed: multiset<nat>, id: nat, value: nat)
    requires Core(s, owed + multiset{id})
    ensures Core(Complete(s, id, value), owed)
  {
    LogOne(s.log, Completed(id, value));
    LogQuiet(s.log, s.nextToken, Completed(id, value));
  }

  lemma CompleteControl(s: State, id: nat, value: nat)
    requires Control(s)
    ensures Control(Complete(s, id, value))
  {
    if s.token != 0 { FreshQuiet(s.log, s.token, s.prepared, Completed(id, value)); }
  }

  lemma Shuffle(w: multiset<nat>, owed: multiset<nat>, fired: multiset<nat>, all: multiset<nat>, one: multiset<nat>)
    requires w + owed + fired == all
    ensures w + (owed + one) + fired == all + one && (w + one) + owed + fired == all + one
  {
  }

  /** A new caller's completion is owed until it is fired or queued. */
  lemma Numbered(s: State, owed: multiset<nat>)
    requires Core(s, owed)
    ensures Core(NewCall(s), owed + multiset{s.calls})
  {
    Shuffle(multiset(s.waiters), owed, Fired(s.log), Ids(s.calls), multiset{s.calls});
  }

  lemma NumberedControl(s: State)
    requires Control(s)
    ensures Control(NewCall(s)) && OwedBy(NewCall(s)) == OwedBy(s)
  {
  }

  /** A call answered on the spot. */
  lemma AnswerKeeps(s: State, value: nat)
    requires Inv(s)
    ensures Inv(Complete(NewCall(s), s.calls, value))
  {
    Numbered(s, OwedBy(s));
    NumberedControl(s);
    CompleteCore(NewCall(s), OwedBy(s), s.calls, value);
    CompleteControl(NewCall(s), s.calls, value);
  }

  lemma FirstApart(owed: multiset<nat>, ids: seq<nat>)
    requires ids != []
    ensures owed + multiset(ids) == (owed + multiset(ids[1..])) + multiset{ids[0]}
  {
    assert ids == [ids[0]] + ids[1..];
  }

  lemma {:induction false} CompleteAllKeeps(s: State, owed: multiset<nat>, ids: seq<nat>, value: nat)
    requires Core(s, owed + multiset(ids)) && Control(s)
    ensures var t := CompleteAll(s, ids, value);
      Core(t, owed) && Control(t) && t.chains == s.chains
    decreases |ids|
  {
    if ids != [] {
      FirstApart(owed, ids);
      CompleteCore(s, owed + multiset(ids[1..]), ids[0], value);
      CompleteControl(s, ids[0], value);
      CompleteAllKeeps(Complete(s, ids[0], value), owed, ids[1..], value);
    }
  }

  lemma RegisteredKeeps(s: State, ok: bool)
    requires Inv(s) && s.registrations > 0
    ensures Inv(Next(s, Registered(ok)))
  {
    var t := s.(registrations := 0, ready := ok, initializing := false, waiters := []);
    EmptiedCore(s, OwedBy(s), ok);
    ControlElsewhere(s, t);
    assert Next(s, Registered(ok)) == CompleteAll(t, s.waiters, if ok then 1 else 0);
    AllAnswered(t, s.waiters, if ok then 1 else 0);
  }

  /** When the waiters have been taken out and answered, nothing is amiss. */
  lemma AllAnswered(t: State, ids: seq<nat>, value: nat)
    requires Core(t, OwedBy(t) + multiset(ids)) && Control(t)
    ensures Inv(CompleteAll(t, ids, value))
  {
    CompleteAllKeeps(t, OwedBy(t), ids, value);
  }

  lemma EmptiedCore(s: State, owed: multiset<nat>, ok: bool)
    requires Core(s, owed) && s.registrations > 0
    ensures Core(s.(registrations := 0, ready := ok, initializing := false, waiters := []), owed + multiset(s.waiters))
  {
  }

  /** One more waiter: its completion is accounted for. */
  lemma WaiterCounted(s: State, owed: multiset<nat>)
    requires multiset(s.waiters) + owed + Fired(s.log) == Ids(s.calls)
    ensures multiset(s.waiters + [s.calls]) + owed + Fired(s.log) == Ids(s.calls + 1)
  {
    Shuffle(multiset(s.waiters), owed, Fired(s.log), Ids(s.calls), multiset{s.calls});
    assert multiset(s.waiters + [s.calls]) == multiset(s.waiters) + multiset{s.calls};
  }

  function Waiting(s: State): State {
    NewCall(s).(waiters := s.waiters + [s.calls])
  }

  /** A change that the chain, its token and the log do not notice. */
  lemma ControlElsewhere(s: State, t: State)
    requires Control(s) && t.chains == s.chains && t.token == s.token && t.expiry == s.expiry && t.busy == s.busy
    requires t.log == s.log && t.nextToken == s.nextToken && t.prepared == s.prepared && t.previous == s.previous
    requires s.name != "" ==> t.name == s.name
    ensures Control(t) && OwedBy(t) == OwedBy(s)
  {
  }

  lemma WaitsOnCore(s: State, owed: multiset<nat>)
    requires Core(s, owed) && s.initializing
    ensures Core(Waiting(s), owed)
  {
    WaiterCounted(s, owed);
  }

  lemma WaitsOn(s: State)
    requires Inv(s) && s.initializing
    ensures Inv(Waiting(s))
  {
    WaitsOnCore(s, OwedBy(s));
    ControlElsewhere(s, Waiting(s));
  }

  lemma WaitsAnewCore(s: State, owed: multiset<nat>, ours: string)
    requires Core(s, owed) && ours != "" && (s.name == "" || s.name == ours) && !s.initializing
    ensures Core(Reconnected(Waiting(s), ours, true), owed)
  {
    WaiterCounted(s, owed);
  }

  lemma WaitsAnew(s: State, ours: string)
    requires Inv(s) && ours != "" && (s.name == "" || s.name == ours) && !s.initializing && !s.busy
    ensures Inv(Reconnected(Waiting(s), ours, true))
  {
    WaitsAnewCore(s, OwedBy(s), ours);
    ControlElsewhere(s, Reconnected(Waiting(s), ours, true));
  }

  lemma AvailableKeeps(s: State, ours: string, connects: bool)
    requires Inv(s) && Possible(s, Available(ours, connects))
    ensures Inv(AfterAvailable(s, ours, connects))
  {
    if !s.initializing && s.ready && s.connected { AnswerKeeps(s, 1); }
    else if s.busy { AnswerKeeps(s, 0); }
    else {
      if s.initializing { WaitsOn(s); } else if connects { WaitsAnew(s, ours); } else { RefusedKeeps(s); }
    }
  }

  /** No daemon: every waiter is answered at once. */
  lemma RefusedKeeps(s: State)
    requires Inv(s) && !s.busy && !s.initializing
    ensures Inv(Reconnected(Waiting(s), "", false))
  {
    var t := Refused(s);
    RefusedCore(s, OwedBy(s));
    ControlElsewhere(s, t);
    AllAnswered(t, s.waiters + [s.calls], 0);
  }

  function Refused(s: State): State {
    NewCall(s).(waiters := [], ready := false, engine := None, focused := false, connected := false)
  }

  lemma RefusedCore(s: State, owed: multiset<nat>)
    requires Core(s, owed) && !s.initializing
    ensures Core(Refused(s), owed + multiset(s.waiters + [s.calls]))
  {
    WaiterCounted(s, owed);
    assert SetUp(Refused(s));
  }

  lemma PrepareKeeps(s: State)
    requires Inv(s)
    ensures Inv(AfterPrepare(s))
  {
    if !s.ready || s.busy || !s.connected { AnswerKeeps(s, 0); }
    else {
      PrepareBegins(s);
      CallKeeps(NewCall(s).(busy := true), AwaitContext(s.calls));
    }
  }

  lemma PrepareBegins(s: State)
    requires Inv(s) && s.ready && !s.busy
    ensures Between(NewCall(s).(busy := true), AwaitContext(s.calls))
  {
    Numbered(s, multiset{});
    assert multiset{} + multiset{s.calls} == multiset{s.calls};
  }

  /** What `finish` is about to restore from. */
  lemma EmitKeeps(s: State, applied: bool, backspaces: nat, text: seq<nat>)
    requires Inv(s) && s.token != 0 && (applied ==> s.prepared == s.revision)
    ensures var u := NewCall(s).(token := 0, expiry := false);
      Between(if applied then Log(u, Emitted(s.token, s.revision, backspaces, text)) else u,
              RestoreAsk(FinishDone(s.calls, applied)))
  {
    TokenUsed(s);
    var u := NewCall(s).(token := 0, expiry := false);
    if applied {
      var e := Emitted(s.token, s.revision, backspaces, text);
      EmittedLog(s, e);
      EmittedCore(u, multiset{s.calls}, e);
      RestoreBegins(Log(u, e), s.calls, applied);
    } else {
      RestoreBegins(u, s.calls, applied);
    }
  }

  lemma EmittedLog(s: State, e: Effect)
    requires Inv(s) && s.token != 0 && e.Emitted? && e.token == s.token && e.revision == s.prepared
    ensures LogOk(s.log + [e], s.nextToken) && Fired(s.log + [e]) == Fired(s.log) + multiset{}
  {
    LogEmit(s.log, s.nextToken, e);
    LogOne(s.log, e);
  }

  lemma RestoreBegins(u: State, done: nat, applied: bool)
    requires Core(u, multiset{done}) && u.busy && u.chains == [] && u.token == 0 && !u.expiry
    requires u.name != "" && u.previous != ""
    ensures Between(u, RestoreAsk(FinishDone(done, applied)))
  {
  }

  lemma TokenUsed(s: State)
    requires Inv(s) && s.token != 0
    ensures var u := NewCall(s).(token := 0, expiry := false);
      Core(u, multiset{s.calls}) && u.busy && u.chains == [] && u.name != "" && u.previous != ""
  {
    Numbered(s, multiset{});
    assert multiset{} + multiset{s.calls} == multiset{s.calls};
  }

  lemma EmittedCore(s: State, owed: multiset<nat>, e: Effect)
    requires Core(s, owed) && LogOk(s.log + [e], s.nextToken) && Fired(s.log + [e]) == Fired(s.log) + multiset{}
    ensures Core(Log(s, e), owed)
  {
  }

  lemma FinishKeeps(s: State, token: nat, backspaces: int, text: seq<nat>, utf8: bool)
    requires Inv(s)
    ensures Inv(AfterFinish(s, token, backspaces, text, utf8))
  {
    if token == 0 || token != s.token { AnswerKeeps(s, 0); }
    else {
      var applied := Acceptable(backspaces, text, utf8) && StillFocused(s);
      EmitKeeps(s, applied, if applied then backspaces else 0, text);
      var u := NewCall(s).(token := 0, expiry := false);
      CallKeeps(if applied then Log(u, Emitted(token, s.revision, backspaces, text)) else u,
                RestoreAsk(FinishDone(s.calls, applied)));
    }
  }

  lemma LateRestoreBegins(s: State)
    requires Inv(s) && !s.busy && s.previous != ""
    ensures Between(s.(focused := true, revision := s.revision + 1, busy := true), RestoreAsk(Silent))
  {
  }

  lemma FocusInKeeps(s: State, e: nat)
    requires Inv(s)
    ensures Inv(AfterFocusIn(s, e))
  {
    if s.engine == Some(e) && !s.busy && s.previous != "" {
      LateRestoreBegins(s);
      CallKeeps(s.(focused := true, revision := s.revision + 1, busy := true), RestoreAsk(Silent));
    }
  }

  lemma ReplyArrives(s: State)
    requires Inv(s) && s.chains != []
    ensures |s.chains| == 1 && Between(s.(chains := []), s.chains[0])
  {
  }

  lemma DeliverIs(s: State, k: nat, reply: Reply)
    requires Inv(s) && k < |s.chains|
    ensures Next(s, Deliver(k, reply)) == Resume(s.(chains := []), s.chains[0], reply)
    ensures Between(s.(chains := []), s.chains[0])
  {
    ReplyArrives(s);
    assert Without(s.chains, k) == [];
  }

  lemma DeliverKeeps(s: State, k: nat, reply: Reply)
    requires Inv(s) && k < |s.chains|
    ensures Inv(Next(s, Deliver(k, reply)))
  {
    DeliverIs(s, k, reply);
    ResumeKeeps(s.(chains := []), s.chains[0], reply);
  }

  /** A signal changes nothing that the transaction's accounts depend on. */
  predicate IsSignal(e: Event) {
    e.Disconnected? || e.ConnectionLost? || e.ConnectionBack? || e.CreateEngine? || e.FocusLost? || e.Destroy?
  }

  /** The two states differ at most in what a signal may change. */
  predicate Apart(s: State, t: State) {
    && (t.ready ==> s.ready) && t.name == s.name && t.initializing == s.initializing && t.waiters == s.waiters
    && t.registrations == s.registrations && t.calls == s.calls && t.log == s.log && t.nextToken == s.nextToken
    && t.previous == s.previous && t.chains == s.chains && t.token == s.token && t.expiry == s.expiry
    && t.busy == s.busy && t.prepared == s.prepared
  }

  lemma SignalIs(s: State, e: Event)
    requires IsSignal(e)
    ensures Apart(s, Next(s, e))
  {
  }

  lemma CoreElsewhere(s: State, t: State, owed: multiset<nat>)
    requires Core(s, owed) && Apart(s, t)
    ensures Core(t, owed)
  {
  }

  lemma ApartKeeps(s: State, t: State)
    requires Inv(s) && Apart(s, t)
    ensures Inv(t)
  {
    CoreElsewhere(s, t, OwedBy(s));
    ControlElsewhere(s, t);
  }

  lemma SignalKeeps(s: State, e: Event)
    requires Inv(s) && IsSignal(e)
    ensures Inv(Next(s, e))
  {
    SignalIs(s, e);
    ApartKeeps(s, Next(s, e));
  }

  lemma ExpireKeeps(s: State)
    requires Inv(s) && s.expiry
    ensures Inv(AfterExpire(s))
  {
    ExpiryBegins(s);
    CallKeeps(s.(expiry := false, token := 0), RestoreAsk(Silent));
  }

  lemma ExpiryBegins(s: State)
    requires Inv(s) && s.expiry
    ensures Between(s.(expiry := false, token := 0), RestoreAsk(Silent))
  {
  }

  lemma NextKeeps(s: State, e: Event)
    requires Inv(s) && Possible(s, e)
    ensures Inv(Next(s, e))
  {
    match e
    case Available(ours, connects) => AvailableKeeps(s, ours, connects);
    case Prepare => PrepareKeeps(s);
    case Finish(token, backspaces, text, utf8) => FinishKeeps(s, token, backspaces, text, utf8);
    case Expire => ExpireKeeps(s);
    case Deliver(k, reply) => DeliverKeeps(s, k, reply);
    case Registered(ok) => RegisteredKeeps(s, ok);
    case FocusIn(i) => FocusInKeeps(s, i);
    case _ => SignalKeeps(s, e);
  }

  lemma {:induction false} RunKeeps(s: State, es: seq<Event>)
    requires Inv(s) && Runs(s, es)
    ensures Inv(After(s, es))
    decreases |es|
  {
    if es != [] {
      NextKeeps(s, es[0]);
      RunKeeps(Next(s, es[0]), es[1..]);
    }
  }

  // ---- main results ----------------------------------------------------------------------------

  /**
   In every run: busy exactly while one chain is at one control point, a token is held exactly while
   its expiry is armed, and each caller's completion has fired once, is queued, or is owed by the chain.
   */
  lemma OneTransaction(es: seq<Event>)
    requires Runs(INITIAL, es)
    ensures var s := After(INITIAL, es);
      && (s.busy <==> CurrentRank(s) > 0)
      && |s.chains| <= 1 && (s.chains != [] ==> s.token == 0)
      && (s.token != 0 <==> s.expiry) && (s.token != 0 ==> s.busy)
      && multiset(s.waiters) + OwedBy(s) + Fired(s.log) == Ids(s.calls)
  {
    assert LogOk([], 0);
    RunKeeps(INITIAL, es);
  }

  lemma {:induction false} IdsOnce(n: nat, id: nat)
    ensures Ids(n)[id] == if id < n then 1 else 0
  {
    if n > 0 { IdsOnce(n - 1, id); }
  }

  /** When nothing is pending, every completion ever handed in has fired exactly once. */
  lemma CompletionsFireOnce(es: seq<Event>, id: nat)
    requires Runs(INITIAL, es)
    ensures var s := After(INITIAL, es);
      && Fired(s.log)[id] <= 1
      && (!s.busy && !s.initializing ==> Fired(s.log)[id] == if id < s.calls then 1 else 0)
  {
    assert LogOk([], 0);
    RunKeeps(INITIAL, es);
    var s := After(INITIAL, es);
    IdsOnce(s.calls, id);
    assert (multiset(s.waiters) + OwedBy(s) + Fired(s.log))[id] == Ids(s.calls)[id];
  }

  /** No token emits twice, and only at the focus revision at which it was handed out. */
  lemma OneBatchPerToken(es: seq<Event>, i: nat, j: nat)
    requires Runs(INITIAL, es)
    requires i < j < |After(INITIAL, es).log|
    requires After(INITIAL, es).log[i].Issued? && After(INITIAL, es).log[j].Emitted?
    requires After(INITIAL, es).log[i].token == After(INITIAL, es).log[j].token
    ensures After(INITIAL, es).log[i].revision == After(INITIAL, es).log[j].revision
    ensures forall k :: 0 <= k < |After(INITIAL, es).log| && After(INITIAL, es).log[k].Emitted? && k != j ==>
              After(INITIAL, es).log[k].token != After(INITIAL, es).log[j].token
  {
    assert LogOk([], 0);
    RunKeeps(INITIAL, es);
    var log := After(INITIAL, es).log;
    var m :| 0 <= m < j && log[m] == Issued(log[j].token, log[j].revision);
    assert m == i;
  }

  // ---- the user's engine comes back ------------------------------------------------------------

  /** The entries a step adds to the log that select an engine other than ours. */
  ghost predicate SelectsOnly(before: seq<Effect>, after: seq<Effect>, name: string, allowed: bool, previous: string) {
    && before <= after
    && forall k :: |before| <= k < |after| && after[k].SetEngine? && after[k].engine != name
         ==> allowed && after[k].engine == previous
  }

  predicate OwnEngineReported(s: State, c: Cont, r: Reply) {
    c.RestoreAsk? && Name(r) == s.name
  }

  lemma SelectsBehind(log: seq<Effect>, e: Effect, after: seq<Effect>, name: string, allowed: bool, previous: string)
    requires SelectsOnly(log + [e], after, name, false, "")
    requires e.SetEngine? && e.engine != name ==> allowed && e.engine == previous
    ensures SelectsOnly(log, after, name, allowed, previous)
  {
    assert after[|log|] == (log + [e])[|log|];
  }

  lemma {:induction false} CallSelects(s: State, c: Cont)
    requires s.name != ""
    ensures SelectsOnly(s.log, Call(s, c).log, s.name, false, "")
    decreases Rank(c), 1
  {
    if !s.connected { ResumeSelects(s, c, Failed); }
  }

  lemma {:induction false} ResumeSelects(s: State, c: Cont, r: Reply)
    requires s.name != ""
    ensures SelectsOnly(s.log, Resume(s, c, r).log, s.name, OwnEngineReported(s, c, r), s.previous)
    decreases Rank(c), 0
  {
    match c
    case AwaitContext(done) => ContextSelects(s, done, r);
    case AwaitEngine(done) => EngineSelects(s, done, r);
    case AwaitSelect(done) =>
      if r.Failed? { CallSelects(s, RestoreAsk(FailPrepare(done))); } else { CallSelects(s, AwaitContextAgain(done)); }
    case AwaitContextAgain(done) => AgainSelects(s, done, r);
    case RestoreAsk(ending) => AskSelects(s, ending, r);
    case RestoreSet(_) =>
  }

  lemma {:induction false} ContextSelects(s: State, done: nat, r: Reply)
    requires s.name != ""
    ensures SelectsOnly(s.log, Resume(s, AwaitContext(done), r).log, s.name, false, s.previous)
    decreases 6, 2
  {
    if !(Path(r).None? || Path(r) == Some(FAKE_CONTEXT)) {
      CallSelects(s.(context := Path(r).value), AwaitEngine(done));
    }
  }

  lemma {:induction false} AgainSelects(s: State, done: nat, r: Reply)
    requires s.name != ""
    ensures SelectsOnly(s.log, Resume(s, AwaitContextAgain(done), r).log, s.name, false, s.previous)
    decreases 3, 2
  {
    if Path(r) != Some(s.context) || s.engine.None? || !s.focused { CallSelects(s, RestoreAsk(FailPrepare(done))); }
  }

  lemma {:induction false} EngineSelects(s: State, done: nat, r: Reply)
    requires s.name != ""
    ensures SelectsOnly(s.log, Resume(s, AwaitEngine(done), r).log, s.name, false, s.previous)
    decreases 5, 2
  {
    if !(Name(r) == "" || Name(r) == s.name) {
      var t := Log(s.(previous := Name(r)), SetEngine(s.name));
      CallSelects(t, AwaitSelect(done));
      SelectsBehind(s.log, SetEngine(s.name), Call(t, AwaitSelect(done)).log, s.name, false, s.previous);
    }
  }

  lemma {:induction false} AskSelects(s: State, ending: Ending, r: Reply)
    requires s.name != ""
    ensures SelectsOnly(s.log, Resume(s, RestoreAsk(ending), r).log, s.name, Name(r) == s.name, s.previous)
    decreases 1, 2
  {
    if Name(r) == s.name {
      var t := Log(s, SetEngine(s.previous));
      CallSelects(t, RestoreSet(ending));
      SelectsBehind(s.log, SetEngine(s.previous), Call(t, RestoreSet(ending)).log, s.name, true, s.previous);
    }
  }

  /**
   The user's engine is selected only in answer to a report that ours is the current one; it is then
   the engine found when the transaction began, neither empty nor ours.
   */
  lemma RestoresOnlyOurs(s: State, k: nat, r: Reply)
    requires Inv(s) && k < |s.chains|
    ensures SelectsOnly(s.log, Next(s, Deliver(k, r)).log, s.name, OwnEngineReported(s, s.chains[0], r), s.previous)
    ensures s.name != "" && (OwnEngineReported(s, s.chains[0], r) ==> s.previous != "" && s.previous != s.name)
  {
    DeliverIs(s, k, r);
    ResumeSelects(s.(chains := []), s.chains[0], r);
  }

  lemma FinishSelects(s: State, token: nat, backspaces: int, text: seq<nat>, utf8: bool)
    requires Inv(s)
    ensures SelectsOnly(s.log, AfterFinish(s, token, backspaces, text, utf8).log, s.name, false, "")
  {
    if token != 0 && token == s.token {
      var applied := Acceptable(backspaces, text, utf8) && StillFocused(s);
      var u := NewCall(s).(token := 0, expiry := false);
      var c := RestoreAsk(FinishDone(s.calls, applied));
      if applied { EmitSelects(u, Emitted(token, s.revision, backspaces, text), c); } else { CallSelects(u, c); }
    }
  }

  lemma EmitSelects(u: State, e: Effect, c: Cont)
    requires u.name != "" && e.Emitted?
    ensures SelectsOnly(u.log, Call(Log(u, e), c).log, u.name, false, "")
  {
    CallSelects(Log(u, e), c);
    SelectsBehind(u.log, e, Call(Log(u, e), c).log, u.name, false, "");
  }

  lemma {:induction false} CompleteAllSelects(s: State, ids: seq<nat>, value: nat)
    ensures SelectsOnly(s.log, CompleteAll(s, ids, value).log, s.name, false, "")
    decreases |ids|
  {
    if ids != [] {
      var e := Completed(ids[0], value);
      CompleteAllSelects(Complete(s, ids[0], value), ids[1..], value);
      SelectsBehind(s.log, e, CompleteAll(s, ids, value).log, s.name, false, "");
    }
  }

  lemma PrepareSelects(s: State)
    requires Inv(s)
    ensures SelectsOnly(s.log, AfterPrepare(s).log, s.name, false, "")
  {
    if s.ready && !s.busy && s.connected { CallSelects(NewCall(s).(busy := true), AwaitContext(s.calls)); }
  }

  lemma RegisteredSelects(s: State, ok: bool)
    requires s.registrations > 0
    ensures SelectsOnly(s.log, Next(s, Registered(ok)).log, s.name, false, "")
  {
    CompleteAllSelects(s.(registrations := s.registrations - 1, ready := ok, initializing := false, waiters := []),
                       s.waiters, if ok then 1 else 0);
  }

  lemma FocusInSelects(s: State, e: nat)
    requires Inv(s)
    ensures SelectsOnly(s.log, AfterFocusIn(s, e).log, s.name, false, "")
  {
    if s.engine == Some(e) && !s.busy && s.previous != "" {
      LateRestoreBegins(s);
      CallSelects(s.(focused := true, revision := s.revision + 1, busy := true), RestoreAsk(Silent));
    }
  }

  lemma ExpireSelects(s: State)
    requires Inv(s) && s.expiry
    ensures SelectsOnly(s.log, AfterExpire(s).log, s.name, false, "")
  {
    CallSelects(s.(expiry := false, token := 0), RestoreAsk(Silent));
  }

  /** No other event selects an engine that is not ours. */
  lemma OtherEventsSelectNothing(s: State, e: Event)
    requires Inv(s) && Possible(s, e) && !e.Deliver?
    ensures SelectsOnly(s.log, Next(s, e).log, s.name, false, "")
  {
    match e
    case Available(ours, connects) => AvailableSelects(s, ours, connects);
    case Registered(ok) => RegisteredSelects(s, ok);
    case Prepare => PrepareSelects(s);
    case Finish(token, backspaces, text, utf8) => FinishSelects(s, token, backspaces, text, utf8);
    case Expire => ExpireSelects(s);
    case FocusIn(i) => FocusInSelects(s, i);
    case _ => SignalIs(s, e);
  }

  lemma AvailableSelects(s: State, ours: string, connects: bool)
    ensures SelectsOnly(s.log, AfterAvailable(s, ours, connects).log, s.name, false, "")
  {
    var u := NewCall(s).(waiters := s.waiters + [s.calls]);
    CompleteAllSelects(u.(initializing := false, ready := false, engine := None, focused := false, connected := false,
                          waiters := []), u.waiters, 0);
  }

  // ---- progress --------------------------------------------------------------------------------

  lemma {:induction false} CallRank(s: State, c: Cont)
    requires s.chains == [] && s.token == 0
    ensures CurrentRank(Call(s, c)) <= Rank(c)
    ensures Rank(c) <= 5 ==> Call(s, c).previous == s.previous
    decreases Rank(c), 1
  {
    if !s.connected { ResumeRank(s, c, Failed); }
  }

  lemma {:induction false} ResumeRank(s: State, c: Cont, r: Reply)
    requires s.chains == [] && s.token == 0
    ensures CurrentRank(Resume(s, c, r)) < Rank(c)
    ensures Rank(c) <= 5 ==> Resume(s, c, r).previous == s.previous
    decreases Rank(c), 0
  {
    match c
    case AwaitContext(done) => ContextRank(s, done, r);
    case AwaitEngine(done) => EngineRank(s, done, r);
    case AwaitSelect(done) =>
      if r.Failed? { CallRank(s, RestoreAsk(FailPrepare(done))); } else { CallRank(s, AwaitContextAgain(done)); }
    case AwaitContextAgain(done) => AgainRank(s, done, r);
    case RestoreAsk(ending) => AskRank(s, ending, r);
    case RestoreSet(ending) => EndRank(s.(busy := false, ready := s.ready && !r.Failed?), ending, !r.Failed?);
  }

  lemma EndRank(s: State, ending: Ending, restored: bool)
    ensures var t := End(s, ending, restored);
      t.chains == s.chains && t.token == s.token && t.previous == s.previous
  {
  }

  lemma {:induction false} ContextRank(s: State, done: nat, r: Reply)
    requires s.chains == [] && s.token == 0
    ensures CurrentRank(Resume(s, AwaitContext(done), r)) < 7
    decreases 6, 2
  {
    if !(Path(r).None? || Path(r) == Some(FAKE_CONTEXT)) { CallRank(s.(context := Path(r).value), AwaitEngine(done)); }
  }

  lemma {:induction false} AgainRank(s: State, done: nat, r: Reply)
    requires s.chains == [] && s.token == 0
    ensures var t := Resume(s, AwaitContextAgain(done), r); CurrentRank(t) < 4 && t.previous == s.previous
    decreases 3, 2
  {
    if Path(r) != Some(s.context) || s.engine.None? || !s.focused { CallRank(s, RestoreAsk(FailPrepare(done))); }
  }

  lemma {:induction false} EngineRank(s: State, done: nat, r: Reply)
    requires s.chains == [] && s.token == 0
    ensures CurrentRank(Resume(s, AwaitEngine(done), r)) < 6
    decreases 5, 2
  {
    if !(Name(r) == "" || Name(r) == s.name) {
      CallRank(Log(s.(previous := Name(r)), SetEngine(s.name)), AwaitSelect(done));
    }
  }

  lemma {:induction false} AskRank(s: State, ending: Ending, r: Reply)
    requires s.chains == [] && s.token == 0
    ensures CurrentRank(Resume(s, RestoreAsk(ending), r)) < 2 && Resume(s, RestoreAsk(ending), r).previous == s.previous
    decreases 1, 2
  {
    if Name(r) == s.name { CallRank(Log(s, SetEngine(s.previous)), RestoreSet(ending)); }
  }

  /** The events that move a transaction on: a reply (or its timeout), the expiry, or the caller's finish. */
  predicate Resolves(s: State, e: Event) {
    e.Deliver? || e.Expire? || (e.Finish? && e.token != 0 && e.token == s.token)
  }

  lemma ResolvingProgress(s: State, e: Event)
    requires Inv(s) && s.busy && Possible(s, e) && Resolves(s, e)
    ensures CurrentRank(Next(s, e)) < CurrentRank(s)
    ensures CurrentRank(s) <= 5 ==> Next(s, e).previous == s.previous
  {
    match e
    case Deliver(k, r) =>
      DeliverIs(s, k, r);
      ResumeRank(s.(chains := []), s.chains[0], r);
    case Expire => CallRank(s.(expiry := false, token := 0), RestoreAsk(Silent));
    case Finish(token, backspaces, text, utf8) =>
      var applied := Acceptable(backspaces, text, utf8) && StillFocused(s);
      var u := NewCall(s).(token := 0, expiry := false);
      CallRank(if applied then Log(u, Emitted(token, s.revision, backspaces, text)) else u,
               RestoreAsk(FinishDone(s.calls, applied)));
  }

  lemma {:induction false} CompleteAllRank(s: State, ids: seq<nat>, value: nat)
    ensures var t := CompleteAll(s, ids, value);
      CurrentRank(t) == CurrentRank(s) && t.previous == s.previous && t.busy == s.busy
    decreases |ids|
  {
    if ids != [] { CompleteAllRank(Complete(s, ids[0], value), ids[1..], value); }
  }

  lemma OtherProgress(s: State, e: Event)
    requires s.busy && Possible(s, e) && !Resolves(s, e)
    ensures CurrentRank(Next(s, e)) == CurrentRank(s) && Next(s, e).previous == s.previous && Next(s, e).busy
  {
    match e
    case Registered(ok) =>
      CompleteAllRank(s.(registrations := s.registrations - 1, ready := ok, initializing := false, waiters := []),
                      s.waiters, if ok then 1 else 0);
    case Available(ours, connects) => BusyAvailable(s, ours, connects);
    case Prepare => BusyPrepare(s);
    case Finish(token, backspaces, text, utf8) => StaleFinish(s, token, backspaces, text, utf8);
    case FocusIn(i) => BusyFocusIn(s, i);
    case _ => SignalIs(s, e);
  }

  /** The transaction is where it was. */
  predicate Unmoved(s: State, t: State) {
    t.chains == s.chains && t.token == s.token && t.previous == s.previous && t.busy == s.busy
  }

  lemma BusyAvailable(s: State, ours: string, connects: bool)
    requires s.busy
    ensures Unmoved(s, AfterAvailable(s, ours, connects))
  {
  }

  lemma BusyPrepare(s: State)
    requires s.busy
    ensures Unmoved(s, AfterPrepare(s))
  {
  }

  lemma StaleFinish(s: State, token: nat, backspaces: int, text: seq<nat>, utf8: bool)
    requires token == 0 || token != s.token
    ensures Unmoved(s, AfterFinish(s, token, backspaces, text, utf8))
  {
  }

  lemma BusyFocusIn(s: State, e: nat)
    requires s.busy
    ensures Unmoved(s, AfterFocusIn(s, e))
  {
  }

  function Resolving(s: State, es: seq<Event>): nat
    requires Runs(s, es)
    decreases |es|
  {
    if es == [] then 0 else (if Resolves(s, es[0]) then 1 else 0) + Resolving(Next(s, es[0]), es[1..])
  }

  predicate BusyThroughout(s: State, es: seq<Event>)
    requires Runs(s, es)
    decreases |es|
  {
    s.busy && (es == [] || BusyThroughout(Next(s, es[0]), es[1..]))
  }

  /**
   Busy always clears: however other events interleave, a transaction survives at most six more replies
   and expiries, and one that can still restore keeps the engine it will restore.
   */
  lemma {:induction false} BusyClears(s: State, es: seq<Event>)
    requires Inv(s) && Runs(s, es) && BusyThroughout(s, es)
    ensures Resolving(s, es) < CurrentRank(s) <= 7
    ensures CurrentRank(s) <= 5 ==> After(s, es).previous == s.previous
    decreases |es|
  {
    if es != [] {
      var t := Next(s, es[0]);
      NextKeeps(s, es[0]);
      if Resolves(s, es[0]) { ResolvingProgress(s, es[0]); } else { OtherProgress(s, es[0]); }
      BusyClears(t, es[1..]);
    }
  }

  // ---- the batch -------------------------------------------------------------------------------

  datatype Key = BackspaceDown | BackspaceUp | CommitText(text: seq<nat>)

  /** What one token sends to the focused program. */
  function Batch(backspaces: nat, text: seq<nat>): seq<Key> {
    seq(2 * backspaces, k => if k % 2 == 0 then BackspaceDown else BackspaceUp)
    + if text == [] then [] else [CommitText(text)]
  }

  // ---- the backend object ----------------------------------------------------------------------

  class Backend {
    var connected: bool
    var ready: bool
    var initializing: bool
    var busy: bool
    var engine: Option<nat>
    var engines: nat
    var focused: bool
    var name: string
    var previous: string
    var context: string
    var nextToken: nat
    var token: nat
    var expiry: bool
    var revision: nat
    var prepared: nat
    var waiters: seq<nat>
    var chains: seq<Cont>
    var registrations: nat
    var calls: nat
    ghost var log: seq<Effect>

    ghost function View(): State
      reads this
    {
      State(connected, ready, initializing, busy, engine, engines, focused, name, previous, context,
            nextToken, token, expiry, revision, prepared, waiters, chains, registrations, calls, log)
    }

    constructor ()
      ensures View() == INITIAL
    {
      connected, ready, initializing, busy, engine, engines, focused := false, false, false, false, None, 0, false;
      name, previous, context, nextToken, token, expiry := "", "", "", 0, 0, false;
      revision, prepared, waiters, chains, registrations, calls, log := 0, 0, [], [], 0, 0, [];
    }

    ghost method Record(e: Effect)
      modifies this`log
      ensures log == old(log) + [e]
    {
      log := log + [e];
    }

    method NumberCall() returns (id: nat)
      modifies this`calls
      ensures id == old(calls) && calls == id + 1
    {
      id := calls;
      calls := calls + 1;
    }

    /** A D-Bus call whose reply goes to `c`. */
    method Ask(c: Cont)
      modifies this
      ensures View() == Call(old(View()), c)
      decreases Rank(c), 2
    {
      if !connected {
        OnReply(c, Failed);
      } else {
        chains := chains + [c];
      }
    }

    /** The body of the continuation `c`. */
    method OnReply(c: Cont, r: Reply)
      modifies this
      ensures View() == Resume(old(View()), c, r)
      decreases Rank(c), 1
    {
      match c {
        case AwaitContext(done) => OnContext(done, r);
        case AwaitEngine(done) => OnEngine(done, r);
        case AwaitSelect(done) => OnSelected(done, r);
        case AwaitContextAgain(done) => OnContextAgain(done, r);
        case RestoreAsk(ending) => OnCurrentEngine(ending, r);
        case RestoreSet(ending) => OnRestored(ending, r);
      }
    }

    method OnContext(done: nat, r: Reply)
      modifies this
      ensures View() == Resume(old(View()), AwaitContext(done), r)
      decreases 7, 0
    {
      if Path(r).None? || Path(r) == Some(FAKE_CONTEXT) {
        busy := false;
        Record(Completed(done, 0));
      } else {
        context := Path(r).value;
        Ask(AwaitEngine(done));
      }
    }

    method OnEngine(done: nat, r: Reply)
      modifies this
      ensures View() == Resume(old(View()), AwaitEngine(done), r)
      decreases 6, 0
    {
      var reported := Name(r);
      if reported == "" || reported == name {
        busy := false;
        Record(Completed(done, 0));
      } else {
        previous := reported;
        Record(SetEngine(name));
        Ask(AwaitSelect(done));
      }
    }

    method OnSelected(done: nat, r: Reply)
      modifies this
      ensures View() == Resume(old(View()), AwaitSelect(done), r)
      decreases 5, 0
    {
      if r.Failed? { Ask(RestoreAsk(FailPrepare(done))); } else { Ask(AwaitContextAgain(done)); }
    }

    method OnContextAgain(done: nat, r: Reply)
      modifies this
      ensures View() == Resume(old(View()), AwaitContextAgain(done), r)
      decreases 4, 0
    {
      if Path(r) != Some(context) || engine.None? || !focused {
        Ask(RestoreAsk(FailPrepare(done)));
      } else {
        IssueToken();
        Record(Issued(token, revision));
        Record(Completed(done, token));
      }
    }

    method IssueToken()
      modifies this`nextToken, this`token, this`prepared, this`expiry
      ensures var t := old(View());
        View() == t.(nextToken := t.nextToken + 1, token := t.nextToken + 1, prepared := t.revision, expiry := true)
    {
      nextToken := nextToken + 1;
      token := nextToken;
      prepared := revision;
      expiry := true;
    }

    method OnCurrentEngine(ending: Ending, r: Reply)
      modifies this
      ensures View() == Resume(old(View()), RestoreAsk(ending), r)
      decreases 2, 0
    {
      var reported := Name(r);
      if reported != name {
        busy := false;
        if reported == "" { ready := false; }
        Conclude(ending, reported != "");
      } else {
        Record(SetEngine(previous));
        Ask(RestoreSet(ending));
      }
    }

    method OnRestored(ending: Ending, r: Reply)
      modifies this
      ensures View() == Resume(old(View()), RestoreSet(ending), r)
      decreases 1, 0
    {
      busy := false;
      if r.Failed? { ready := false; }
      Conclude(ending, !r.Failed?);
    }

    method Conclude(ending: Ending, restored: bool)
      modifies this`log
      ensures View() == End(old(View()), ending, restored)
    {
      match ending {
        case Silent =>
        case FailPrepare(id) => Record(Completed(id, 0));
        case FinishDone(id, applied) => Record(Completed(id, if applied && restored then 1 else 0));
      }
    }

    method OnInitialized(ok: bool)
      modifies this
      ensures View() == Initialized(old(View()), ok)
    {
      ready := ok;
      initializing := false;
      var ids := waiters;
      waiters := [];
      ghost var s := View();
      var k := 0;
      while k < |ids|
        invariant k <= |ids|
        invariant View() == s.(log := log)
        invariant CompleteAll(View(), ids[k..], if ok then 1 else 0) == CompleteAll(s, ids, if ok then 1 else 0)
      {
        Record(Completed(ids[k], if ok then 1 else 0));
        assert ids[k..][1..] == ids[k + 1..];
        k := k + 1;
      }
    }

    method Available(ours: string, connects: bool)
      modifies this
      ensures View() == AfterAvailable(old(View()), ours, connects)
    {
      var id := NumberCall();
      if !initializing && ready && connected {
        Record(Completed(id, 1));
        return;
      }
      if busy {
        Record(Completed(id, 0));
        return;
      }
      waiters := waiters + [id];
      if initializing {
        return;
      }
      Connect(ours, connects);
    }

    /** Drops the old connection and registers our component on a new one. */
    method Connect(ours: string, connects: bool)
      modifies this
      ensures View() == Reconnected(old(View()), ours, connects)
    {
      Drop(connects);
      if !connects {
        OnInitialized(false);
      } else {
        name := ours;
        registrations := registrations + 1;
      }
    }

    method Drop(connects: bool)
      modifies this`initializing, this`ready, this`engine, this`focused, this`connected
      ensures View() == old(View()).(initializing := true, ready := false, engine := None, focused := false,
                                     connected := connects)
    {
      initializing := true;
      ready := false;
      DropEngine(connects);
    }

    method DropEngine(connects: bool)
      modifies this`engine, this`focused, this`connected
      ensures View() == old(View()).(engine := None, focused := false, connected := connects)
    {
      connected := connects;
      engine := None;
      focused := false;
    }

    method Prepare()
      modifies this
      ensures View() == AfterPrepare(old(View()))
    {
      var id := NumberCall();
      if !ready || busy || !connected {
        Record(Completed(id, 0));
        return;
      }
      busy := true;
      Ask(AwaitContext(id));
    }

    /** Backspaces first, then the text, on one connection. */
    method Emit(backspaces: nat, text: seq<nat>) returns (keys: seq<Key>)
      ensures keys == Batch(backspaces, text)
    {
      keys := [];
      var i := 0;
      while i < backspaces
        invariant i <= backspaces
        invariant keys == Batch(i, [])
      {
        keys := keys + [BackspaceDown, BackspaceUp];
        i := i + 1;
      }
      if text != [] {
        keys := keys + [CommitText(text)];
      }
    }

    method CheckText(text: seq<nat>, utf8: bool) returns (ok: bool)
      ensures ok == ValidText(text, utf8)
    {
      if |text| > 4096 || !utf8 {
        return false;
      }
      var k := 0;
      while k < |text|
        invariant k <= |text|
        invariant forall j :: 0 <= j < k ==> text[j] >= 0x20 && text[j] != 0x7f
      {
        if text[k] < 0x20 || text[k] == 0x7f {
          return false;
        }
        k := k + 1;
      }
      return true;
    }

    method Finish(offered: nat, backspaces: int, text: seq<nat>, utf8: bool) returns (keys: seq<Key>)
      modifies this
      ensures View() == AfterFinish(old(View()), offered, backspaces, text, utf8)
      ensures keys ==
        if offered != 0 && offered == old(token) && Acceptable(backspaces, text, utf8) && old(StillFocused(View()))
        then Batch(backspaces, text)
        else []
    {
      keys := [];
      var id := NumberCall();
      if offered == 0 || offered != token {
        Record(Completed(id, 0));
        return;
      }
      keys := Settle(id, offered, backspaces, text, utf8);
    }

    method Settle(id: nat, offered: nat, backspaces: int, text: seq<nat>, utf8: bool) returns (keys: seq<Key>)
      modifies this
      ensures var u := old(View()).(token := 0, expiry := false);
        var applied := Acceptable(backspaces, text, utf8) && StillFocused(u);
        && View() == Call(if applied then Log(u, Emitted(offered, u.revision, backspaces, text)) else u,
                          RestoreAsk(FinishDone(id, applied)))
        && keys == if applied then Batch(backspaces, text) else []
    {
      DropToken();
      var applied;
      applied, keys := Apply(offered, backspaces, text, utf8);
      Ask(RestoreAsk(FinishDone(id, applied)));
    }

    method DropToken()
      modifies this`token, this`expiry
      ensures View() == old(View()).(token := 0, expiry := false)
    {
      token := 0;
      expiry := false;
    }

    /** Emits the edit if it is well formed and nothing moved the focus since the token was handed out. */
    method Apply(offered: nat, backspaces: int, text: seq<nat>, utf8: bool) returns (applied: bool, keys: seq<Key>)
      modifies this`log
      ensures applied == (Acceptable(backspaces, text, utf8) && StillFocused(View()))
      ensures keys == if applied then Batch(backspaces, text) else []
      ensures log == if applied then old(log) + [Emitted(offered, revision, backspaces, text)] else old(log)
    {
      keys := [];
      var textOk := CheckText(text, utf8);
      var valid := textOk && 0 <= backspaces <= 4096;
      var active := engine.Some? && focused && prepared == revision && connected;
      applied := valid && active;
      if applied {
        keys := Emit(backspaces, text);
        Record(Emitted(offered, revision, backspaces, text));
      }
    }

    method OnExpiry()
      requires expiry
      modifies this
      ensures View() == AfterExpire(old(View()))
    {
      expiry := false;
      token := 0;
      Ask(RestoreAsk(Silent));
    }

    method OnFocusIn(e: nat)
      modifies this
      ensures View() == AfterFocusIn(old(View()), e)
    {
      if engine != Some(e) {
        return;
      }
      MarkFocused();
      if !busy && previous != "" {
        RestoreLate();
      }
    }

    method RestoreLate()
      modifies this
      ensures View() == Call(old(View()).(busy := true), RestoreAsk(Silent))
    {
      busy := true;
      Ask(RestoreAsk(Silent));
    }

    method MarkFocused()
      modifies this`focused, this`revision
      ensures View() == old(View()).(focused := true, revision := old(revision) + 1)
    {
      focused := true;
      revision := revision + 1;
    }

    /** Focus-out and disable. */
    method OnFocusLost(e: nat)
      modifies this`focused, this`revision
      ensures View() == Next(old(View()), FocusLost(e))
    {
      if engine != Some(e) {
        return;
      }
      focused := false;
      revision := revision + 1;
    }

    method OnCreateEngine()
      modifies this`engine, this`engines, this`focused
      ensures View() == Next(old(View()), CreateEngine)
    {
      engine := Some(engines);
      engines := engines + 1;
      focused := false;
    }

    method OnDestroy(e: nat)
      modifies this`engine, this`focused
      ensures View() == Next(old(View()), Destroy(e))
    {
      if engine == Some(e) {
        engine := None;
        focused := false;
      }
    }

    method OnDisconnected()
      modifies this`ready
      ensures View() == Next(old(View()), Disconnected)
    {
      ready := false;
    }

    /** The main loop hands a reply to the call it answers. */
    method Dispatch(k: nat, r: Reply)
      requires k < |chains|
      modifies this
      ensures View() == Next(old(View()), Deliver(k, r))
    {
      var c := chains[k];
      chains := Without(chains, k);
      OnReply(c, r);
    }
  }
}
