/**
 What the callers of the IBus transaction are told.  A completion is fired once (IBusText); here is what it
 carries, in every run: a token, whether the edit was put out and the user's engine came back, or whether the
 backend is there.
 */
module IBusAnswers {
  import opened Options
  import opened IBusText

  /** What each numbered caller asked for, and which of them had their edit put out. */
  datatype History = History(calls: map<nat, Event>, emitted: set<nat>)

  const BEGINNING := History(map[], {})

  predicate Asks(e: Event) {
    e.Available? || e.Prepare? || e.Finish?
  }

  /** The first thing this call does is to put out an edit. */
  predicate PutsOut(s: State, e: Event)
    requires Possible(s, e)
  {
    e.Finish? && |Next(s, e).log| > |s.log| && Next(s, e).log[|s.log|].Emitted?
  }

  function Noted(h: History, s: State, e: Event): History
    requires Possible(s, e)
  {
    History(if Asks(e) then h.calls[s.calls := e] else h.calls,
            if PutsOut(s, e) then h.emitted + {s.calls} else h.emitted)
  }

  function Told(h: History, s: State, es: seq<Event>): History
    requires Runs(s, es)
    decreases |es|
  {
    if es == [] then h else Told(Noted(h, s, es[0]), Next(s, es[0]), es[1..])
  }

  /** The restoration of this caller's transaction ends here, and ends well. */
  predicate EndsWell(s: State, e: Event, id: nat)
    requires Possible(s, e)
  {
    e.Deliver? && match s.chains[e.k]
    case RestoreAsk(FinishDone(i, _)) => i == id && Name(e.reply) != "" && Name(e.reply) != s.name
    case RestoreSet(FinishDone(i, _)) => i == id && !e.reply.Failed?
    case _ => false
  }

  /** The token issued just before the completion at `i`, or 0 if there is none. */
  function TokenBefore(before: seq<Effect>, after: seq<Effect>, i: nat): nat
    requires i < |after|
  {
    if i > |before| && after[i - 1].Issued? then after[i - 1].token else 0
  }

  /** The completion at `i` in the log tells its caller what happened. */
  predicate TellsTruth(h: History, s: State, e: Event, i: nat)
    requires Possible(s, e) && i < |Next(s, e).log| && Next(s, e).log[i].Completed?
  {
    var done := Next(s, e).log[i];
    && done.id in h.calls
    && match h.calls[done.id]
       case Prepare => done.value == TokenBefore(s.log, Next(s, e).log, i)
       case Finish(_, _, _, _) => done.value == if done.id in h.emitted && EndsWell(s, e, done.id) then 1 else 0
       case Available(_, _) =>
         done.value == if (e.Available? && s.ready && s.connected) || (e.Registered? && e.ok) then 1 else 0
       case _ => false
  }

  ghost predicate Truthful(h: History, s: State, e: Event)
    requires Possible(s, e)
  {
    forall i :: |s.log| <= i < |Next(s, e).log| && Next(s, e).log[i].Completed? ==> TellsTruth(h, s, e, i)
  }

  // ---- what one chain tells --------------------------------------------------------------------

  /** The chain serves a preparation, or an edit, or nobody. */
  function Client(c: Cont): Option<nat> {
    match c
    case AwaitContext(done) => Some(done)
    case AwaitEngine(done) => Some(done)
    case AwaitSelect(done) => Some(done)
    case AwaitContextAgain(done) => Some(done)
    case RestoreAsk(ending) => if ending.Silent? then None else Some(ending.id)
    case RestoreSet(ending) => if ending.Silent? then None else Some(ending.id)
  }

  function Edit(c: Cont): Option<bool> {
    match c
    case RestoreAsk(FinishDone(_, applied)) => Some(applied)
    case RestoreSet(FinishDone(_, applied)) => Some(applied)
    case _ => None
  }

  /** The answer to a chain that serves an edit is a good end of its restoration. */
  predicate Well(c: Cont, name: string, r: Reply) {
    match c
    case RestoreAsk(_) => Name(r) != "" && Name(r) != name
    case RestoreSet(_) => !r.Failed?
    case _ => false
  }

  predicate CompletionOf(c: Cont, well: bool, before: seq<Effect>, after: seq<Effect>, i: nat)
    requires i < |after| && after[i].Completed?
  {
    && Client(c) == Some(after[i].id)
    && after[i].value ==
       (if Edit(c).None? then TokenBefore(before, after, i) else if Edit(c).value && well then 1 else 0)
  }

  ghost predicate ChainTells(c: Cont, well: bool, before: seq<Effect>, after: seq<Effect>) {
    && before <= after
    && forall i :: |before| <= i < |after| && after[i].Completed? ==> CompletionOf(c, well, before, after, i)
  }

  /** The chain goes on with `c'` in place of `c`. */
  predicate Succeeds(c: Cont, c': Cont) {
    Client(c') == Client(c) && Edit(c') == Edit(c)
  }

  /** What the chain itself never changes. */
  predicate SameFocus(s: State, t: State) {
    && t.engine == s.engine && t.engines == s.engines && t.focused == s.focused && t.revision == s.revision
    && t.connected == s.connected && t.name == s.name
  }

  predicate GoesOn(c: Cont, s: State, t: State) {
    && t.calls == s.calls && t.waiters == s.waiters && t.initializing == s.initializing && (t.ready ==> s.ready)
    && (t.chains == [] || (|t.chains| == 1 && Succeeds(c, t.chains[0])))
    && SameFocus(s, t)
  }

  lemma TellsBehind(c: Cont, d: Cont, well: bool, log: seq<Effect>, e: Effect, after: seq<Effect>)
    requires ChainTells(d, false, log + [e], after) && e.SetEngine? && Succeeds(c, d)
    requires well ==> Edit(c).None?
    ensures ChainTells(c, well, log, after)
  {
    assert after[|log|] == (log + [e])[|log|];
    forall i | |log| <= i < |after| && after[i].Completed? ensures CompletionOf(c, well, log, after, i) {
      assert i > |log| && CompletionOf(d, false, log + [e], after, i);
    }
  }

  lemma TellsTheSame(c: Cont, d: Cont, well: bool, before: seq<Effect>, after: seq<Effect>)
    requires ChainTells(d, false, before, after) && Succeeds(c, d)
    requires well ==> Edit(c).None?
    ensures ChainTells(c, well, before, after)
  {
    forall i | |before| <= i < |after| && after[i].Completed? ensures CompletionOf(c, well, before, after, i) {
      assert CompletionOf(d, false, before, after, i);
    }
  }

  lemma TellsNow(c: Cont, well: bool, before: seq<Effect>, id: nat, value: nat)
    requires Client(c) == Some(id)
    requires value == if Edit(c).None? then 0 else if Edit(c).value && well then 1 else 0
    ensures ChainTells(c, well, before, before + [Completed(id, value)])
  {
  }

  lemma {:induction false} CallTells(s: State, c: Cont)
    requires s.chains == []
    ensures ChainTells(c, false, s.log, Call(s, c).log) && GoesOn(c, s, Call(s, c))
    decreases Rank(c), 1
  {
    if !s.connected {
      ResumeTells(s, c, Failed);
    }
  }

  lemma {:induction false} ResumeTells(s: State, c: Cont, r: Reply)
    requires s.chains == []
    ensures ChainTells(c, Well(c, s.name, r), s.log, Resume(s, c, r).log) && GoesOn(c, s, Resume(s, c, r))
    decreases Rank(c), 0
  {
    match c
    case AwaitContext(done) => ContextTells(s, done, r);
    case AwaitEngine(done) => EngineTells(s, done, r);
    case AwaitSelect(done) => SelectTells(s, done, r);
    case AwaitContextAgain(done) => AgainTells(s, done, r);
    case RestoreAsk(ending) => AskTells(s, ending, r);
    case RestoreSet(ending) =>
      EndTells(s.(busy := false, ready := s.ready && !r.Failed?), c, ending, !r.Failed?);
  }

  lemma EndTells(s: State, c: Cont, ending: Ending, restored: bool)
    requires c == RestoreAsk(ending) || c == RestoreSet(ending)
    ensures ChainTells(c, restored, s.log, End(s, ending, restored).log)
    ensures End(s, ending, restored) == s.(log := End(s, ending, restored).log)
  {
    match ending
    case Silent =>
    case FailPrepare(id) => TellsNow(c, restored, s.log, id, 0);
    case FinishDone(id, applied) => TellsNow(c, restored, s.log, id, if applied && restored then 1 else 0);
  }

  lemma {:induction false} ContextTells(s: State, done: nat, r: Reply)
    requires s.chains == []
    ensures ChainTells(AwaitContext(done), false, s.log, Resume(s, AwaitContext(done), r).log)
    ensures GoesOn(AwaitContext(done), s, Resume(s, AwaitContext(done), r))
    decreases 6, 2
  {
    if Path(r).None? || Path(r) == Some(FAKE_CONTEXT) {
      TellsNow(AwaitContext(done), false, s.log, done, 0);
    } else {
      var t := s.(context := Path(r).value);
      CallTells(t, AwaitEngine(done));
      TellsTheSame(AwaitContext(done), AwaitEngine(done), false, t.log, Call(t, AwaitEngine(done)).log);
    }
  }

  lemma {:induction false} EngineTells(s: State, done: nat, r: Reply)
    requires s.chains == []
    ensures ChainTells(AwaitEngine(done), false, s.log, Resume(s, AwaitEngine(done), r).log)
    ensures GoesOn(AwaitEngine(done), s, Resume(s, AwaitEngine(done), r))
    decreases 5, 2
  {
    if Name(r) == "" || Name(r) == s.name {
      TellsNow(AwaitEngine(done), false, s.log, done, 0);
    } else {
      var e := SetEngine(s.name);
      var t := Log(s.(previous := Name(r)), e);
      CallTells(t, AwaitSelect(done));
      TellsBehind(AwaitEngine(done), AwaitSelect(done), false, s.log, e, Call(t, AwaitSelect(done)).log);
    }
  }

  lemma {:induction false} SelectTells(s: State, done: nat, r: Reply)
    requires s.chains == []
    ensures ChainTells(AwaitSelect(done), false, s.log, Resume(s, AwaitSelect(done), r).log)
    ensures GoesOn(AwaitSelect(done), s, Resume(s, AwaitSelect(done), r))
    decreases 4, 2
  {
    var d := if r.Failed? then RestoreAsk(FailPrepare(done)) else AwaitContextAgain(done);
    CallTells(s, d);
    TellsTheSame(AwaitSelect(done), d, false, s.log, Call(s, d).log);
  }

  lemma {:induction false} AgainTells(s: State, done: nat, r: Reply)
    requires s.chains == []
    ensures ChainTells(AwaitContextAgain(done), false, s.log, Resume(s, AwaitContextAgain(done), r).log)
    ensures GoesOn(AwaitContextAgain(done), s, Resume(s, AwaitContextAgain(done), r))
    decreases 3, 2
  {
    if Path(r) != Some(s.context) || s.engine.None? || !s.focused {
      var d := RestoreAsk(FailPrepare(done));
      CallTells(s, d);
      TellsTheSame(AwaitContextAgain(done), d, false, s.log, Call(s, d).log);
    } else {
      var t := Resume(s, AwaitContextAgain(done), r);
      var issued, told := Issued(s.nextToken + 1, s.revision), Completed(done, s.nextToken + 1);
      assert t.log == s.log + [issued] + [told];
      assert t.log[|s.log|] == issued;
    }
  }

  lemma {:induction false} AskTells(s: State, ending: Ending, r: Reply)
    requires s.chains == []
    ensures ChainTells(RestoreAsk(ending), Well(RestoreAsk(ending), s.name, r), s.log,
                       Resume(s, RestoreAsk(ending), r).log)
    ensures GoesOn(RestoreAsk(ending), s, Resume(s, RestoreAsk(ending), r))
    decreases 1, 2
  {
    if Name(r) != s.name {
      EndTells(s.(busy := false, ready := s.ready && Name(r) != ""), RestoreAsk(ending), ending, Name(r) != "");
    } else {
      var e := SetEngine(s.previous);
      var t := Log(s, e);
      CallTells(t, RestoreSet(ending));
      TellsBehind(RestoreAsk(ending), RestoreSet(ending), false, s.log, e, Call(t, RestoreSet(ending)).log);
    }
  }

  // ---- who waits for what ----------------------------------------------------------------------

  predicate ServedBy(h: History, c: Cont) {
    Client(c).Some? ==>
      && Client(c).value in h.calls
      && (if Edit(c).Some? then
            h.calls[Client(c).value].Finish? && (Edit(c).value <==> Client(c).value in h.emitted)
          else h.calls[Client(c).value].Prepare?)
  }

  ghost predicate Recorded(h: History, s: State) {
    && (forall id :: id in h.calls ==> id < s.calls)
    && h.emitted <= h.calls.Keys
    && (forall k :: 0 <= k < |s.waiters| ==> s.waiters[k] in h.calls && h.calls[s.waiters[k]].Available?)
    && (s.chains != [] ==> ServedBy(h, s.chains[0]))
    && (s.initializing ==> !s.ready)
  }

  /** What a step must show: its completions are truthful, and the records stay right. */
  ghost predicate StepOk(h: History, s: State, e: Event)
    requires Possible(s, e)
  {
    Truthful(Noted(h, s, e), s, e) && Recorded(Noted(h, s, e), Next(s, e))
  }

  lemma RecordedAsk(h: History, s: State, e: Event)
    requires Recorded(h, s) && Asks(e) && Possible(s, e)
    ensures var h' := Noted(h, s, e);
      && (forall id :: id in h'.calls ==> id < s.calls + 1) && h'.emitted <= h'.calls.Keys
      && (forall k :: 0 <= k < |s.waiters| ==> s.waiters[k] in h'.calls && h'.calls[s.waiters[k]].Available?)
      && (s.chains != [] ==> ServedBy(h', s.chains[0]))
      && h'.calls[s.calls] == e && (s.calls in h'.emitted <==> PutsOut(s, e))
  {
  }

  lemma {:induction false} AllTold(s: State, ids: seq<nat>, value: nat)
    ensures var t := CompleteAll(s, ids, value);
      && t == s.(log := t.log) && |t.log| == |s.log| + |ids| && s.log <= t.log
      && (forall k :: 0 <= k < |ids| ==> t.log[|s.log| + k] == Completed(ids[k], value))
    decreases |ids|
  {
    if ids != [] {
      var u, t := Complete(s, ids[0], value), CompleteAll(s, ids, value);
      AllTold(u, ids[1..], value);
      assert t.log[|s.log|] == u.log[|s.log|] == Completed(ids[0], value);
      forall k | 0 <= k < |ids| ensures t.log[|s.log| + k] == Completed(ids[k], value) {
        if k > 0 { assert t.log[|u.log| + (k - 1)] == Completed(ids[1..][k - 1], value); }
      }
    }
  }

  /** Everybody in `ids` asked for the backend, and `value` is how that turned out. */
  lemma AllToldTruth(h: History, s: State, e: Event, u: State, ids: seq<nat>, value: nat)
    requires Possible(s, e) && Next(s, e) == CompleteAll(u, ids, value) && u.log == s.log
    requires forall k :: 0 <= k < |ids| ==> ids[k] in h.calls && h.calls[ids[k]].Available?
    requires value == if (e.Available? && s.ready && s.connected) || (e.Registered? && e.ok) then 1 else 0
    ensures Truthful(h, s, e) && Next(s, e) == u.(log := Next(s, e).log)
  {
    AllTold(u, ids, value);
    forall i | |s.log| <= i < |Next(s, e).log| && Next(s, e).log[i].Completed? ensures TellsTruth(h, s, e, i) {
      assert Next(s, e).log[|s.log| + (i - |s.log|)] == Completed(ids[i - |s.log|], value);
    }
  }

  lemma RegisteredOk(h: History, s: State, ok: bool)
    requires Recorded(h, s) && s.registrations > 0
    ensures StepOk(h, s, Registered(ok))
  {
    var e := Registered(ok);
    var u := s.(registrations := s.registrations - 1, ready := ok, initializing := false, waiters := []);
    assert Next(s, e) == CompleteAll(u, s.waiters, if ok then 1 else 0);
    AllToldTruth(h, s, e, u, s.waiters, if ok then 1 else 0);
    RecordedEmptied(h, s, Next(s, e));
  }

  lemma RecordedEmptied(h: History, s: State, t: State)
    requires Recorded(h, s) && t.calls == s.calls && t.waiters == [] && t.chains == s.chains && !t.initializing
    ensures Recorded(h, t)
  {
  }

  lemma AvailableOk(h: History, s: State, ours: string, connects: bool)
    requires Recorded(h, s) && Possible(s, Available(ours, connects))
    ensures StepOk(h, s, Available(ours, connects))
  {
    var e, t := Available(ours, connects), NewCall(s);
    if !s.initializing && s.ready && s.connected {
      assert Next(s, e) == Complete(t, s.calls, 1);
      AnsweredOk(h, s, e, 1);
    } else if s.busy {
      assert Next(s, e) == Complete(t, s.calls, 0);
      AnsweredOk(h, s, e, 0);
    } else if !s.initializing && !connects {
      RefusalOk(h, s, ours);
    } else {
      WaitsOk(h, s, e);
    }
  }

  /** A caller told on the spot. */
  lemma AnsweredOk(h: History, s: State, e: Event, value: nat)
    requires Recorded(h, s) && e.Available? && Possible(s, e) && Next(s, e) == Complete(NewCall(s), s.calls, value)
    requires value == if s.ready && s.connected then 1 else 0
    ensures StepOk(h, s, e)
  {
    RecordedAsk(h, s, e);
  }

  lemma WaitsOk(h: History, s: State, e: Event)
    requires Recorded(h, s) && e.Available? && Possible(s, e) && Next(s, e).log == s.log
    requires Next(s, e).waiters == s.waiters + [s.calls] && Next(s, e).calls == s.calls + 1
    requires Next(s, e).chains == s.chains && (Next(s, e).ready ==> s.ready && !Next(s, e).initializing)
    ensures StepOk(h, s, e)
  {
    RecordedAsk(h, s, e);
  }

  /** The bus does not answer: everybody who waits is told so, the caller included. */
  lemma RefusalOk(h: History, s: State, ours: string)
    requires Recorded(h, s) && Possible(s, Available(ours, false))
    requires !s.initializing && !(s.ready && s.connected) && !s.busy
    ensures StepOk(h, s, Available(ours, false))
  {
    var e := Available(ours, false);
    RecordedAsk(h, s, e);
    var ids := s.waiters + [s.calls];
    var u := NewCall(s).(initializing := false, ready := false, engine := None, focused := false, connected := false,
                         waiters := []);
    assert Next(s, e) == CompleteAll(u, ids, 0);
    AllToldTruth(Noted(h, s, e), s, e, u, ids, 0);
  }

  /** A call answered on the spot with 0. */
  lemma RefusedOk(h: History, s: State, e: Event)
    requires Recorded(h, s) && (e.Prepare? || e.Finish?) && Next(s, e) == Complete(NewCall(s), s.calls, 0)
    ensures StepOk(h, s, e)
  {
    RecordedAsk(h, s, e);
  }

  lemma PrepareOk(h: History, s: State)
    requires Inv(s) && Recorded(h, s)
    ensures StepOk(h, s, Prepare)
  {
    if !s.ready || s.busy || !s.connected {
      RefusedOk(h, s, Prepare);
    } else {
      var t, c := NewCall(s).(busy := true), AwaitContext(s.calls);
      RecordedAsk(h, s, Prepare);
      CallTells(t, c);
      assert Next(s, Prepare) == Call(t, c);
      ChainOk(h, s, Prepare, c, false, t);
    }
  }

  /** A step that runs one chain: what the chain tells is the truth. */
  lemma ChainOk(h: History, s: State, e: Event, c: Cont, well: bool, u: State)
    requires Possible(s, e) && var t := Next(s, e);
      && ChainTells(c, well, u.log, t.log) && GoesOn(c, u, t) && !e.Available? && !e.Registered?
      && s.log <= u.log && (forall k :: |s.log| <= k < |u.log| ==> u.log[k].Emitted?)
      && u.waiters == s.waiters && u.calls == (if Asks(e) then s.calls + 1 else s.calls)
      && u.initializing == s.initializing && (u.ready ==> s.ready)
    requires Recorded(h, s) && ServedBy(Noted(h, s, e), c)
    requires Client(c).Some? && Edit(c).Some? ==> (well <==> EndsWell(s, e, Client(c).value))
    ensures StepOk(h, s, e)
  {
    ChainRecorded(h, s, e, c, u);
    var h', t := Noted(h, s, e), Next(s, e);
    forall i | |s.log| <= i < |u.log| ensures t.log[i].Emitted? {
      assert t.log[i] == u.log[i];
    }
    forall i | |s.log| <= i < |t.log| && t.log[i].Completed? ensures TellsTruth(h', s, e, i) {
      assert CompletionOf(c, well, u.log, t.log, i);
      TokensBefore(s.log, u.log, t.log, i);
    }
  }

  lemma ChainRecorded(h: History, s: State, e: Event, c: Cont, u: State)
    requires Possible(s, e) && GoesOn(c, u, Next(s, e))
    requires u.waiters == s.waiters && u.calls == (if Asks(e) then s.calls + 1 else s.calls)
    requires u.initializing == s.initializing && (u.ready ==> s.ready)
    requires Recorded(h, s) && ServedBy(Noted(h, s, e), c)
    ensures Recorded(Noted(h, s, e), Next(s, e))
  {
    if Asks(e) { RecordedAsk(h, s, e); }
  }

  lemma TokensBefore(before: seq<Effect>, middle: seq<Effect>, after: seq<Effect>, i: nat)
    requires before <= middle <= after && |middle| <= i < |after|
    requires forall k :: |before| <= k < |middle| ==> middle[k].Emitted?
    ensures TokenBefore(before, after, i) == TokenBefore(middle, after, i)
  {
    if |before| < i == |middle| { assert after[i - 1] == middle[i - 1]; }
  }

  lemma DeliverOk(h: History, s: State, k: nat, r: Reply)
    requires Inv(s) && Recorded(h, s) && k < |s.chains|
    ensures StepOk(h, s, Deliver(k, r))
  {
    var c, u := s.chains[0], s.(chains := []);
    DeliverIs(s, k, r);
    ReplyArrives(s);
    ResumeTells(u, c, r);
    ChainOk(h, s, Deliver(k, r), c, Well(c, s.name, r), u);
  }

  lemma FinishOk(h: History, s: State, token: nat, backspaces: int, text: seq<nat>, utf8: bool)
    requires Inv(s) && Recorded(h, s)
    ensures StepOk(h, s, Finish(token, backspaces, text, utf8))
  {
    var e := Finish(token, backspaces, text, utf8);
    if token == 0 || token != s.token {
      RefusedOk(h, s, e);
    } else {
      RecordedAsk(h, s, e);
      var applied := Acceptable(backspaces, text, utf8) && StillFocused(s);
      var u := NewCall(s).(token := 0, expiry := false);
      var v := if applied then Log(u, Emitted(token, s.revision, backspaces, text)) else u;
      var c := RestoreAsk(FinishDone(s.calls, applied));
      CallTells(v, c);
      FinishPutsOut(s, e, v, c, applied);
      ChainOk(h, s, e, c, false, v);
    }
  }

  lemma FinishPutsOut(s: State, e: Event, v: State, c: Cont, applied: bool)
    requires e.Finish? && Next(s, e) == Call(v, c) && v.chains == []
    requires ChainTells(c, false, v.log, Call(v, c).log)
    requires v.name != ""
    requires if applied then |v.log| == |s.log| + 1 && v.log[|s.log|].Emitted? else v.log == s.log && c.RestoreAsk?
    ensures PutsOut(s, e) <==> applied
  {
    var t := Next(s, e);
    if applied {
      assert t.log[|s.log|] == v.log[|s.log|];
    } else if !v.connected {
      assert t.log == Resume(v, c, Failed).log;
      AskEmitsNothing(v, c.ending);
    }
  }

  lemma AskEmitsNothing(v: State, ending: Ending)
    requires v.name != ""
    ensures var t := Resume(v, RestoreAsk(ending), Failed);
      |t.log| > |v.log| ==> !t.log[|v.log|].Emitted?
  {
  }

  lemma ExpireOk(h: History, s: State)
    requires Inv(s) && Recorded(h, s) && s.expiry
    ensures StepOk(h, s, Expire)
  {
    var u, c := s.(expiry := false, token := 0), RestoreAsk(Silent);
    CallTells(u, c);
    ChainOk(h, s, Expire, c, false, u);
  }

  lemma FocusInOk(h: History, s: State, i: nat)
    requires Inv(s) && Recorded(h, s)
    ensures StepOk(h, s, FocusIn(i))
  {
    if s.engine == Some(i) && !s.busy && s.previous != "" {
      var u, c := s.(focused := true, revision := s.revision + 1, busy := true), RestoreAsk(Silent);
      CallTells(u, c);
        ChainOk(h, s, FocusIn(i), c, false, u);
    }
  }

  lemma NextOk(h: History, s: State, e: Event)
    requires Inv(s) && Recorded(h, s) && Possible(s, e)
    ensures StepOk(h, s, e)
  {
    match e
    case Available(ours, connects) => AvailableOk(h, s, ours, connects);
    case Prepare => PrepareOk(h, s);
    case Finish(token, backspaces, text, utf8) => FinishOk(h, s, token, backspaces, text, utf8);
    case Expire => ExpireOk(h, s);
    case Deliver(k, reply) => DeliverOk(h, s, k, reply);
    case Registered(ok) => RegisteredOk(h, s, ok);
    case FocusIn(i) => FocusInOk(h, s, i);
    case _ => SignalIs(s, e);
  }

  // ---- main result -----------------------------------------------------------------------------

  lemma {:induction false} RunIsRecorded(h: History, s: State, es: seq<Event>)
    requires Inv(s) && Recorded(h, s) && Runs(s, es)
    ensures Inv(After(s, es)) && Recorded(Told(h, s, es), After(s, es))
    decreases |es|
  {
    if es != [] {
      NextKeeps(s, es[0]);
      NextOk(h, s, es[0]);
      RunIsRecorded(Noted(h, s, es[0]), Next(s, es[0]), es[1..]);
    }
  }

  /**
   After every run, each completion that the next event fires tells its caller the truth: a preparation the token
   just issued or 0; an edit 1 exactly if that call put it out and the restoration has now ended well; a caller
   who asks for the backend 1 exactly if it is there, or has just been registered.
   */
  lemma AnswersAreTruthful(es: seq<Event>, e: Event)
    requires Runs(INITIAL, es) && Possible(After(INITIAL, es), e)
    ensures Truthful(Noted(Told(BEGINNING, INITIAL, es), After(INITIAL, es), e), After(INITIAL, es), e)
  {
    RunIsRecorded(BEGINNING, INITIAL, es);
    NextOk(Told(BEGINNING, INITIAL, es), After(INITIAL, es), e);
  }
}
