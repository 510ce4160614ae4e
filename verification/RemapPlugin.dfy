/**
 The plugin object itself: the methods that arm, stop and recover the Caps Lock remap, in the order
 in which they touch the system.  Each is shown to be a run of the protocol in RemapSystem, so every
 result proved there for runs holds of these methods, also when the process dies half-way.
 */
module RemapPlugin {
  import opened Options
  import opened KeyMapping
  import opened RemapTransactions
  import opened RemapSystem

  // ---- runs of one transaction -----------------------------------------------------------------

  /** The accesses `cs` lead from one point of a transaction to another, none of them past its end. */
  ghost predicate Path<P>(f: Transaction<P>, over: P -> bool, w: World, p: P, cs: seq<Choice>, w': World, p': P)
    decreases |cs|
  {
    if cs == [] then w == w' && p == p'
    else !over(p) && var (u, q) := f(w, p, cs[0]); Path(f, over, u, q, cs[1..], w', p')
  }

  /** What a transaction settles to is one of its runs. */
  lemma {:induction false} SettledPath<P>(f: Transaction<P>, over: P -> bool, a: nat -> Choice, k: nat,
      w: World, p: P, n: nat) returns (cs: seq<Choice>)
    ensures var (w', p', _) := Settle(f, over, a, k, w, p, n); Path(f, over, w, p, cs, w', p')
    decreases n
  {
    if over(p) || n == 0 {
      cs := [];
    } else {
      var (u, q) := f(w, p, a(k));
      var rest := SettledPath(f, over, a, k + 1, u, q, n - 1);
      cs := [a(k)] + rest;
      assert cs[1..] == rest;
    }
  }

  /** A transaction begun at the `k`th answer has come to `p'` in world `w'`, and the `k'`th answer is next. */
  ghost predicate Goes<P>(f: Transaction<P>, over: P -> bool, a: nat -> Choice, k: nat, w: World, p: P,
      k': nat, w': World, p': P)
  {
    && k <= k' <= k + ACCESSES
    && Settle(f, over, a, k, w, p, ACCESSES) == Settle(f, over, a, k', w', p', ACCESSES - (k' - k))
  }

  lemma GoesOn<P>(f: Transaction<P>, over: P -> bool, a: nat -> Choice, k: nat, w: World, p: P,
      k': nat, w': World, p': P, u: World, q: P)
    requires Goes(f, over, a, k, w, p, k', w', p') && k' < k + ACCESSES && !over(p') && f(w', p', a(k')) == (u, q)
    ensures Goes(f, over, a, k, w, p, k' + 1, u, q)
  {
  }

  /** The answer given to a step that asks the system nothing. */
  const SILENT := Choice(false, false, [], false, Kept)

  /** Recovery first, and then the remap if that succeeded. */
  function CapsArming(a: nat -> Choice, k: nat, w: World): (World, EnablePc, nat) {
    var (w', r, k') := RecoveryOf(a, k, w);
    if r == RecoverEnded(true) then ArmingOf(a, k', w') else (w', EnableRefused, k')
  }

  // ---- runs of the whole system ----------------------------------------------------------------

  ghost predicate Reaches(s: State, t: State) {
    exists ls :: Runs(s, ls) && After(s, ls) == t
  }

  lemma Chain(s: State, t: State, u: State)
    requires Reaches(s, t) && Reaches(t, u)
    ensures Reaches(s, u)
  {
    var a :| Runs(s, a) && After(s, a) == t;
    var b :| Runs(t, b) && After(t, b) == u;
    RunsOn(s, a, b);
  }

  lemma ReachesOn(s: State, t: State, l: Label)
    requires Reaches(s, t) && Enabled(t, l)
    ensures Reaches(s, Next(t, l))
  {
    assert Runs(Next(t, l), []);
    assert Runs(t, [l]) && After(t, [l]) == Next(t, l);
    Chain(s, t, Next(t, l));
  }

  lemma ReachesSelf(s: State)
    ensures Reaches(s, s)
  {
    assert Runs(s, []) && After(s, []) == s;
  }

  /** Everything reachable from a good state is good. */
  lemma ReachesKeeps(s: State, t: State)
    requires Inv(s) && Reaches(s, t)
    ensures Inv(t)
  {
    var ls :| Runs(s, ls) && After(s, ls) == t;
    RunKeeps(s, ls);
  }

  /** A step inside a transaction followed by the rest of it. */
  lemma Prepend(s: State, i: Id, c: Choice, t: State, w: World, n: Instance)
    requires i in s.live && StepOf(s, i, c) == t && i in t.live
    requires t == Become(s.(world := t.world), i, t.live[i])
    requires Reaches(t, Become(t.(world := w), i, n))
    ensures Reaches(s, Become(s.(world := w), i, n))
  {
    ReachesSelf(s);
    ReachesOn(s, s, Step(i, c));
    assert t.live[i := n] == s.live[i := n];
    Chain(s, t, Become(s.(world := w), i, n));
  }

  lemma RecoverStepIs(s: State, i: Id, c: Choice)
    requires i in s.live && s.live[i].pc.Recovering? && !s.live[i].pc.r.RecoverEnded?
    ensures var n := s.live[i]; var (w, r) := Recover(s.world, n.pc.r, c);
      StepOf(s, i, c) == Become(s.(world := w), i, n.(pc := Recovering(n.pc.why, r)))
  {
  }

  lemma EnableStepIs(s: State, i: Id, c: Choice)
    requires i in s.live && s.live[i].pc.Enabling? && !EnableOver(s.live[i].pc.e)
    ensures var n := s.live[i]; var (w, e) := Enable(s.world, n.pc.e, c);
      StepOf(s, i, c) == Become(s.(world := w), i, n.(pc := Enabling(e)))
  {
  }

  function Restored(n: Instance, q: RestorePc): Instance
    requires n.pc.Restoring?
  {
    n.(pc := Restoring(n.pc.how, q), owns := n.owns && q != RestoreEnded(true))
  }

  lemma RestoreStepIs(s: State, i: Id, c: Choice)
    requires i in s.live && s.live[i].pc.Restoring? && !s.live[i].pc.q.RestoreEnded?
    ensures var n := s.live[i]; var (w, q) := Restore(s.world, n.pc.q, c);
      StepOf(s, i, c) == Become(s.(world := w), i, Restored(n, q))
  {
  }

  /** A run of a transaction is a run of the system. */
  lemma {:induction false} RecoverPathRuns(s: State, i: Id, cs: seq<Choice>, w: World, r: RecoverPc)
    requires i in s.live && s.live[i].pc.Recovering?
    requires Path(Recover, RecoverOver, s.world, s.live[i].pc.r, cs, w, r)
    ensures Reaches(s, Become(s.(world := w), i, s.live[i].(pc := Recovering(s.live[i].pc.why, r))))
    decreases |cs|
  {
    if cs == [] {
      ReachesSelf(s);
      assert s.live[i := s.live[i]] == s.live;
    } else {
      RecoverStepIs(s, i, cs[0]);
      var t := StepOf(s, i, cs[0]);
      RecoverPathRuns(t, i, cs[1..], w, r);
      Prepend(s, i, cs[0], t, w, s.live[i].(pc := Recovering(s.live[i].pc.why, r)));
    }
  }

  lemma {:induction false} EnablePathRuns(s: State, i: Id, cs: seq<Choice>, w: World, e: EnablePc)
    requires i in s.live && s.live[i].pc.Enabling?
    requires Path(Enable, EnableOver, s.world, s.live[i].pc.e, cs, w, e)
    ensures Reaches(s, Become(s.(world := w), i, s.live[i].(pc := Enabling(e))))
    decreases |cs|
  {
    if cs == [] {
      ReachesSelf(s);
      assert s.live[i := s.live[i]] == s.live;
    } else {
      EnableStepIs(s, i, cs[0]);
      var t := StepOf(s, i, cs[0]);
      EnablePathRuns(t, i, cs[1..], w, e);
      Prepend(s, i, cs[0], t, w, s.live[i].(pc := Enabling(e)));
    }
  }

  lemma {:induction false} RestorePathRuns(s: State, i: Id, cs: seq<Choice>, w: World, q: RestorePc)
    requires i in s.live && s.live[i].pc.Restoring? && s.live[i].pc.q != RestoreEnded(true)
    requires Path(Restore, RestoreOver, s.world, s.live[i].pc.q, cs, w, q)
    ensures Reaches(s, Become(s.(world := w), i, Restored(s.live[i], q)))
    decreases |cs|
  {
    ReachesSelf(s);
    if cs == [] {
      assert s.live[i := s.live[i]] == s.live;
    } else {
      RestoreStepIs(s, i, cs[0]);
      var t := StepOf(s, i, cs[0]);
      if t.live[i].pc.q == RestoreEnded(true) {
        ReachesOn(s, s, Step(i, cs[0]));
      } else {
        RestorePathRuns(t, i, cs[1..], w, q);
        Prepend(s, i, cs[0], t, w, Restored(s.live[i], q));
      }
    }
  }

  /** A recovery that ends with success has the user's mapping in force, whatever happened before it. */
  lemma {:induction false} RecoveredPath(w: World, user: Mapping, r: RecoverPc, cs: seq<Choice>,
      w': World, r': RecoverPc)
    requires WorldOk(w, user) && RecoverOk(w, r) && Path(Recover, RecoverOver, w, r, cs, w', r')
    requires !r.RecoverEnded? && r' == RecoverEnded(true)
    ensures Same(w'.mapping, user)
    decreases |cs|
  {
    var (u, p) := Recover(w, r, cs[0]);
    RecoverKeeps(w, user, r, cs[0]);
    if p.RecoverEnded? {
      RecoverSuccess(w, user, r, cs[0]);
    } else {
      RecoveredPath(u, user, p, cs[1..], w', r');
    }
  }

  lemma {:induction false} RestoredPath(w: World, user: Mapping, q: RestorePc, cs: seq<Choice>,
      w': World, q': RestorePc)
    requires WorldOk(w, user) && RestoreOk(w, q) && Path(Restore, RestoreOver, w, q, cs, w', q')
    requires !q.RestoreEnded? && q' == RestoreEnded(true)
    ensures Same(w'.mapping, user)
    decreases |cs|
  {
    var (u, p) := Restore(w, q, cs[0]);
    RestoreKeeps(w, user, q, cs[0]);
    if p.RestoreEnded? {
      RestoreSuccess(w, user, q, cs[0]);
    } else {
      RestoredPath(u, user, p, cs[1..], w', q');
    }
  }

  /** What arming is for: Caps Lock sends F20. */
  predicate CapsSendsF20(m: Mapping) {
    Meaning(CAPS_TO_F20) in Remaps(m)
  }

  lemma ExpectedSendsF20(m: Mapping, orig: Mapping)
    requires Same(m, Remapped(orig)) && Unconcerned(orig)
    ensures CapsSendsF20(m) && OnlyCapsSendsF20(m)
  {
    var r := Remaps(Remapped(orig));
    assert r[|orig|] == Meaning(CAPS_TO_F20);
    assert Meaning(CAPS_TO_F20) in multiset(Remaps(m));
    forall k | 0 <= k < |orig| ensures r[k].destination != Some(F20) {
      assert Remaps(orig)[k] in Remaps(orig);
    }
    forall x | x in Remaps(m) ensures x in r {
      assert x in multiset(Remaps(m));
    }
  }

  lemma ReusedSendsF20(m: Mapping)
    requires RemappedByUser(m)
    ensures CapsSendsF20(m) && OnlyCapsSendsF20(m)
  {
    var k :| 0 <= k < |m| && Remaps(m)[k] == Remap(Some(CAPS_LOCK), Some(F20)) && UnconcernedBut(m, k);
    assert Meaning(CAPS_TO_F20) == Remaps(m)[k];
  }

  lemma RefusedStep(s: State, i: Id, c: Choice)
    requires i in s.live && s.live[i].pc == Enabling(EnableRefused)
    ensures StepOf(s, i, c) == Become(Release(s, i), i, s.live[i].(pc := Monitoring))
  {
  }

  lemma RestoredStep(s: State, i: Id, c: Choice)
    requires i in s.live && s.live[i].pc.Restoring? && s.live[i].pc.q == RestoreEnded(true) && !s.live[i].pc.how.Dying?
    ensures StepOf(s, i, c) ==
      Become(Release(s, i), i, s.live[i].(stopRequested := false, retry := false, pc := Idle))
  {
  }

  lemma UnrestoredStep(s: State, i: Id, c: Choice)
    requires i in s.live && s.live[i].pc.Restoring? && s.live[i].pc.q == RestoreEnded(false) && !s.live[i].pc.how.Dying?
    ensures var n := s.live[i];
      StepOf(s, i, c) == Become(s, i, n.(retry := n.retry || !n.pc.how.WithoutRetry?, pc := Idle))
  {
  }

  // ---- arming after a recovery -----------------------------------------------------------------

  lemma {:induction false} RecoveryStaysOk(a: nat -> Choice, k: nat, w: World, user: Mapping, r: RecoverPc, n: nat)
    requires WorldOk(w, user) && RecoverOk(w, r)
    ensures WorldOk(Settle(Recover, RecoverOver, a, k, w, r, n).0, user)
    decreases n
  {
    if n > 0 && !RecoverOver(r) {
      RecoverKeeps(w, user, r, a(k));
      var (u, q) := Recover(w, r, a(k));
      RecoveryStaysOk(a, k + 1, u, user, q, n - 1);
    }
  }

  /**
   Arming never takes a remap left behind by a crash for the user's own, nor the other way round: it ends owning
   the remap exactly over a journal of the user's mapping, and reuses only a remap that is the user's.
   */
  lemma LeftoverIsNotReused(a: nat -> Choice, k: nat, w: World, user: Mapping)
    requires WorldOk(w, user)
    ensures var (w', e, _) := CapsArming(a, k, w);
      && EnableOver(e)
      && (e == EnableEnded(true) ==>
            && w'.journal.Record? && Same(w'.journal.orig, user) && w'.journal.exp == Remapped(w'.journal.orig)
            && Same(w'.mapping, w'.journal.exp))
      && (e == EnableEnded(false) ==> Same(w'.mapping, user) && RemappedByUser(w'.mapping))
  {
    var (u, r, j) := RecoveryOf(a, k, w);
    RecoveryStaysOk(a, k, w, user, RecoverLook, ACCESSES);
    if r == RecoverEnded(true) {
      var cs := SettledPath(Recover, RecoverOver, a, k, w, RecoverLook, ACCESSES);
      RecoveredPath(w, user, RecoverLook, cs, u, r);
      ArmedExactly(a, j, u);
    }
  }

  /** With no journal left behind, arming takes the remap exactly when nothing is in its way. */
  lemma CapsArmsExactly(a: nat -> Choice, k: nat, w: World)
    requires w.journal.NoJournal?
    ensures CapsArming(a, k, w).1 == EnableEnded(true) <==>
      && a(k + 1).readable && Unconcerned(w.mapping)
      && Persisted(a(k + 2)) && Rewritten(a, k + 3, Remapped(w.mapping))
    ensures CapsArming(a, k, w).1 == EnableEnded(false) <==> a(k + 1).readable && RemappedByUser(w.mapping)
  {
    assert RecoveryOf(a, k, w) == (w, RecoverEnded(true), k + 1);
    ArmedExactly(a, k + 1, w);
  }

  // ---- the operating system --------------------------------------------------------------------

  /**
   The user's mapping, the preferences on disk and the lock file.  `answers` is how the system will answer each
   access to them, in turn; `clock` is the number of accesses so far.
   */
  class Os {
    const answers: nat -> Choice
    var clock: nat
    var mapping: Mapping
    var journal: Journal
    var flock: Option<Holder>
    var owner: map<Process, Id>
    ghost var user: Mapping
    ghost var others: map<Id, Instance>

    constructor (mapping: Mapping, journal: Journal, answers: nat -> Choice)
      ensures this.answers == answers && clock == 0 && W() == World(mapping, journal)
      ensures flock.None? && owner == map[] && user == mapping && others == map[]
    {
      this.answers, clock := answers, 0;
      this.mapping, this.journal, flock, owner := mapping, journal, None, map[];
      user, others := mapping, map[];
    }

    function W(): World
      reads this
    {
      World(mapping, journal)
    }

    function Now(): Choice
      reads this
    {
      answers(clock)
    }

    /** The journal alone decides; the access that would have read the mapping is not made. */
    method Pass()
      modifies this`clock
      ensures clock == old(clock) + 1
    {
      clock := clock + 1;
    }

    method ReadMapping() returns (r: Option<Mapping>)
      modifies this`clock
      ensures clock == old(clock) + 1
      ensures r == if old(Now()).readable then Some(mapping) else None
    {
      r := if Now().readable then Some(mapping) else None;
      clock := clock + 1;
    }

    method WriteMapping(m: Mapping) returns (ok: bool)
      modifies this`mapping, this`clock
      ensures clock == old(clock) + 1
      ensures W() == Write(old(W()), m, old(Now())) && ok == old(Now()).reports
    {
      mapping := Write(W(), m, Now()).mapping;
      ok := Now().reports;
      clock := clock + 1;
    }

    method PersistJournal(record: Journal) returns (ok: bool)
      modifies this`journal, this`clock
      ensures clock == old(clock) + 1
      ensures W() == Persist(old(W()), record, old(Now())) && ok == Persisted(old(Now()))
    {
      journal := Persist(W(), record, Now()).journal;
      ok := Persisted(Now());
      clock := clock + 1;
    }

    method ClearJournal()
      modifies this`journal, this`clock
      ensures clock == old(clock) + 1
      ensures W() == Clear(old(W()), old(Now()))
    {
      journal := Clear(W(), Now()).journal;
      clock := clock + 1;
    }

    method TryLock(h: Holder) returns (ok: bool)
      modifies this`flock, this`clock
      ensures clock == old(clock) + 1
      ensures ok == (old(flock).None? && old(Now()).reports)
      ensures flock == if ok then Some(h) else old(flock)
    {
      ok := flock.None? && Now().reports;
      if ok { flock := Some(h); }
      clock := clock + 1;
    }
  }

  // ---- the plugin ------------------------------------------------------------------------------

  class Plugin {
    const id: Id
    const process: Process
    const os: Os
    var owns: bool
    var stopRequested: bool
    var monitor: bool
    var retry: bool

    constructor (id: Id, process: Process, os: Os)
      ensures this.id == id && this.process == process && this.os == os
      ensures !owns && !stopRequested && !monitor && !retry
    {
      this.id, this.process, this.os := id, process, os;
      owns, stopRequested, monitor, retry := false, false, false, false;
    }

    /** How far a transaction begun at the `k`th answer, in world `w`, has come. */
    ghost predicate Recovers(k: nat, w: World, r: RecoverPc)
      reads os
    {
      Goes(Recover, RecoverOver, os.answers, k, w, RecoverLook, os.clock, os.W(), r)
    }

    ghost predicate Enables(k: nat, w: World, e: EnablePc)
      reads os
    {
      Goes(Enable, EnableOver, os.answers, k, w, EnableRead, os.clock, os.W(), e)
    }

    ghost predicate Restores(k: nat, w: World, q: RestorePc)
      reads os
    {
      Goes(Restore, RestoreOver, os.answers, k, w, RestoreLook, os.clock, os.W(), q)
    }

    /** Proof step: the access just made was the transaction's next one. */
    lemma RecoverOn(k: nat, w: World, before: World, r: RecoverPc, r': RecoverPc)
      requires os.clock > 0 && os.clock - 1 < k + ACCESSES && !r.RecoverEnded?
      requires Goes(Recover, RecoverOver, os.answers, k, w, RecoverLook, os.clock - 1, before, r)
      requires Recover(before, r, os.answers(os.clock - 1)) == (os.W(), r')
      ensures Recovers(k, w, r')
    {
      GoesOn(Recover, RecoverOver, os.answers, k, w, RecoverLook, os.clock - 1, before, r, os.W(), r');
    }

    lemma EnableOn(k: nat, w: World, before: World, e: EnablePc, e': EnablePc)
      requires os.clock > 0 && os.clock - 1 < k + ACCESSES && !EnableOver(e)
      requires Goes(Enable, EnableOver, os.answers, k, w, EnableRead, os.clock - 1, before, e)
      requires Enable(before, e, os.answers(os.clock - 1)) == (os.W(), e')
      ensures Enables(k, w, e')
    {
      GoesOn(Enable, EnableOver, os.answers, k, w, EnableRead, os.clock - 1, before, e, os.W(), e');
    }

    lemma RestoreOn(k: nat, w: World, before: World, q: RestorePc, q': RestorePc)
      requires os.clock > 0 && os.clock - 1 < k + ACCESSES && !q.RestoreEnded?
      requires Goes(Restore, RestoreOver, os.answers, k, w, RestoreLook, os.clock - 1, before, q)
      requires Restore(before, q, os.answers(os.clock - 1)) == (os.W(), q')
      ensures Restores(k, w, q')
    {
      GoesOn(Restore, RestoreOver, os.answers, k, w, RestoreLook, os.clock - 1, before, q, os.W(), q');
    }

    /** Clears the journal and reports success. */
    method Discard(ghost k: nat, ghost w: World) returns (ok: bool)
      requires Recovers(k, w, RecoverClear) && os.clock <= k + 3
      modifies os`journal, os`clock
      ensures ok && Recovers(k, w, RecoverEnded(true))
    {
      ghost var before := os.W();
      os.ClearJournal();
      RecoverOn(k, w, before, RecoverClear, RecoverEnded(true));
      return true;
    }

    /** The caller holds the temporary or the owner's lease. */
    method RecoverWhileLeaseHeld() returns (ok: bool)
      modifies os`mapping, os`journal, os`clock
      ensures (os.W(), RecoverEnded(ok), os.clock) == RecoveryOf(os.answers, old(os.clock), old(os.W()))
    {
      ghost var k, w := os.clock, os.W();
      var journal := os.journal;
      if journal.NoJournal? {
        os.Pass();
        RecoverOn(k, w, w, RecoverLook, RecoverEnded(true));
        return true;
      }
      var current := os.ReadMapping();
      ghost var next := Recover(w, RecoverLook, os.answers(k)).1;
      RecoverOn(k, w, w, RecoverLook, next);
      if current.None? {
        return false;
      }
      if journal.Unreadable? {
        if current.value != [] {
          return false;
        }
        ok := Discard(k, w);
        return;
      }
      EqualIsSame(current.value, journal.orig);
      EqualIsSame(current.value, journal.exp);
      if MappingsEqual(current, journal.orig) {
        ok := Discard(k, w);
      } else if !MappingsEqual(current, journal.exp) {
        ok := true;
      } else {
        ok := RewriteOriginal(k, w, journal.orig);
      }
    }

    method RewriteOriginal(ghost k: nat, ghost w: World, orig: Mapping) returns (ok: bool)
      requires Recovers(k, w, RecoverWrite(orig)) && os.clock <= k + 1
      modifies os`mapping, os`journal, os`clock
      ensures Recovers(k, w, RecoverEnded(ok))
    {
      ghost var before := os.W();
      ok := os.WriteMapping(orig);
      RecoverOn(k, w, before, RecoverWrite(orig), if ok then RecoverConfirm(orig) else RecoverEnded(false));
      if ok {
        ok := ConfirmOriginal(k, w, orig);
      }
    }

    method ConfirmOriginal(ghost k: nat, ghost w: World, orig: Mapping) returns (ok: bool)
      requires Recovers(k, w, RecoverConfirm(orig)) && os.clock <= k + 2
      modifies os`journal, os`clock
      ensures Recovers(k, w, RecoverEnded(ok))
    {
      ghost var before := os.W();
      ok := MappingIs(orig);
      RecoverOn(k, w, before, RecoverConfirm(orig), if ok then RecoverClear else RecoverEnded(false));
      if ok {
        ok := Discard(k, w);
      }
    }

    /** Reads the mapping to see whether it is `m`. */
    method MappingIs(m: Mapping) returns (seen: bool)
      modifies os`clock
      ensures os.clock == old(os.clock) + 1
      ensures seen == (old(os.Now()).readable && Same(os.mapping, m))
    {
      var current := os.ReadMapping();
      if current.Some? { EqualIsSame(current.value, m); }
      seen := MappingsEqual(current, m);
    }

    method ReadBack(expected: Mapping) returns (equal: bool, subset: bool)
      modifies os`clock
      ensures os.clock == old(os.clock) + 1
      ensures equal == (old(os.Now()).readable && Same(os.mapping, expected))
      ensures subset == (old(os.Now()).readable && Within(os.mapping, expected))
    {
      var readback := os.ReadMapping();
      if readback.Some? {
        EqualIsSame(readback.value, expected);
        SubsetIsWithin(readback.value, expected);
      }
      equal, subset := MappingsEqual(readback, expected), IsSubset(readback, expected);
    }

    // ---- applying the remap ----

    static function Outcome(owned: bool, reused: bool): EnablePc {
      if owned || reused then EnableEnded(owned) else EnableRefused
    }

    /** From the read of the user's mapping to the confirmed remap, or back out of it. */
    method ApplyRemap() returns (owned: bool, reused: bool)
      modifies os`mapping, os`journal, os`clock
      ensures (os.W(), Outcome(owned, reused), os.clock) == ArmingOf(os.answers, old(os.clock), old(os.W()))
      ensures owned ==> Unconcerned(old(os.mapping)) && Same(os.mapping, Remapped(old(os.mapping)))
      ensures reused <==> old(os.Now()).readable && RemappedByUser(old(os.mapping))
      ensures !Unconcerned(old(os.mapping)) ==> os.W() == old(os.W())
      ensures owned || reused ==> CapsSendsF20(os.mapping) && OnlyCapsSendsF20(os.mapping)
    {
      ghost var k, w := os.clock, os.W();
      owned, reused := false, false;
      ArmingDecides(w, os.Now());
      var current := os.ReadMapping();
      ghost var e := Enable(w, EnableRead, os.answers(k)).1;
      EnableOn(k, w, w, EnableRead, e);
      if current.None? {
        return;
      }
      var original := current.value;
      if UnrelatedF20(original) {
        return;
      }
      var caps := CapsEntries(original);
      if |caps| > 1 {
        return;
      }
      if |caps| == 1 {
        reused := IsF20(caps[0]);
        if reused { ReusedSendsF20(original); }
        return;
      }
      owned := Commit(k, w, original);
    }

    /** Journal first, mapping second. */
    method Commit(ghost k: nat, ghost w: World, original: Mapping) returns (owned: bool)
      requires Enables(k, w, EnablePersist(original)) && os.clock <= k + 1 && Unconcerned(original)
      modifies os`mapping, os`journal, os`clock
      ensures Enables(k, w, Outcome(owned, false))
      ensures owned ==> Same(os.mapping, Remapped(original)) && CapsSendsF20(os.mapping) && OnlyCapsSendsF20(os.mapping)
    {
      ghost var before := os.W();
      var persisted := os.PersistJournal(Record(original, Remapped(original)));
      owned := false;
      EnableOn(k, w, before, EnablePersist(original), if persisted then EnableApply(original) else EnableRefused);
      if persisted {
        owned := Install(k, w, original);
      }
    }

    method Install(ghost k: nat, ghost w: World, original: Mapping) returns (owned: bool)
      requires Enables(k, w, EnableApply(original)) && os.clock <= k + 2 && Unconcerned(original)
      modifies os`mapping, os`journal, os`clock
      ensures Enables(k, w, Outcome(owned, false))
      ensures owned ==> Same(os.mapping, Remapped(original)) && CapsSendsF20(os.mapping) && OnlyCapsSendsF20(os.mapping)
    {
      ghost var before := os.W();
      var applied := os.WriteMapping(Remapped(original));
      EnableOn(k, w, before, EnableApply(original), EnableReadback(original, applied));
      owned := Confirm(k, w, original, applied);
      if owned { ExpectedSendsF20(os.mapping, original); }
    }

    method Confirm(ghost k: nat, ghost w: World, original: Mapping, applied: bool) returns (owned: bool)
      requires Enables(k, w, EnableReadback(original, applied)) && os.clock <= k + 3
      modifies os`mapping, os`journal, os`clock
      ensures Enables(k, w, Outcome(owned, false))
      ensures owned ==> Same(os.mapping, Remapped(original))
    {
      var equal, subset := Compare(k, w, original, applied);
      if applied && equal {
        return true;
      }
      owned := false;
      if applied && subset {
        RollBack(k, w, original);
      }
      GiveUp(k, w, original);
    }

    /** The read-back, compared with the expected mapping in both ways. */
    method Compare(ghost k: nat, ghost w: World, original: Mapping, ghost applied: bool)
      returns (equal: bool, subset: bool)
      requires Enables(k, w, EnableReadback(original, applied)) && os.clock <= k + 3
      modifies os`clock
      ensures os.clock == old(os.clock) + 1
      ensures applied && equal ==> Enables(k, w, EnableEnded(true)) && Same(os.mapping, Remapped(original))
      ensures applied && !equal && subset ==> Enables(k, w, EnableRollback(original))
      ensures !applied || (!equal && !subset) ==> Enables(k, w, EnableFinal(original))
    {
      ghost var before := os.W();
      equal, subset := ReadBack(Remapped(original));
      EnableOn(k, w, before, EnableReadback(original, applied),
               if applied && equal then EnableEnded(true)
               else if applied && subset then EnableRollback(original) else EnableFinal(original));
    }

    method RollBack(ghost k: nat, ghost w: World, original: Mapping)
      requires Enables(k, w, EnableRollback(original)) && os.clock <= k + 4
      modifies os`mapping, os`clock
      ensures Enables(k, w, EnableFinal(original)) && os.clock <= k + 5
    {
      ghost var before := os.W();
      var rolledBack := os.WriteMapping(original);
      EnableOn(k, w, before, EnableRollback(original), EnableFinal(original));
    }

    method GiveUp(ghost k: nat, ghost w: World, original: Mapping)
      requires Enables(k, w, EnableFinal(original)) && os.clock <= k + 5
      modifies os`journal, os`clock
      ensures Enables(k, w, EnableRefused)
    {
      ghost var before := os.W();
      var seen := MappingIs(original);
      EnableOn(k, w, before, EnableFinal(original), if seen then EnableClear(original) else EnableRefused);
      if seen {
        os.ClearJournal();
        EnableOn(k, w, before, EnableClear(original), EnableRefused);
      }
    }

    // ---- restoring ----

    method DiscardRestored(ghost k: nat, ghost w: World)
      requires Restores(k, w, RestoreClear) && os.clock <= k + 3
      modifies os`journal, os`clock
      ensures Restores(k, w, RestoreEnded(true))
    {
      ghost var before := os.W();
      os.ClearJournal();
      RestoreOn(k, w, before, RestoreClear, RestoreEnded(true));
    }

    /** Called only while the remap is ours. */
    method RestoreRemap() returns (ok: bool)
      requires owns
      modifies this`owns, os`mapping, os`journal, os`clock
      ensures (os.W(), RestoreEnded(ok), os.clock) == RestorationOf(os.answers, old(os.clock), old(os.W()))
      ensures owns == !ok
    {
      ghost var k, w := os.clock, os.W();
      var journal := os.journal;
      if !journal.Record? {
        os.Pass();
        RestoreOn(k, w, w, RestoreLook, RestoreEnded(false));
        return false;
      }
      var current := os.ReadMapping();
      ghost var next := Restore(w, RestoreLook, os.answers(k)).1;
      RestoreOn(k, w, w, RestoreLook, next);
      if current.None? {
        return false;
      }
      EqualIsSame(current.value, journal.orig);
      EqualIsSame(current.value, journal.exp);
      if MappingsEqual(current, journal.orig) {
        DiscardRestored(k, w);
        ok := true;
      } else if !MappingsEqual(current, journal.exp) {
        ok := true;
      } else {
        ok := RewriteForRestore(k, w, journal.orig);
      }
      owns := !ok;
    }

    method RewriteForRestore(ghost k: nat, ghost w: World, orig: Mapping) returns (ok: bool)
      requires Restores(k, w, RestoreWrite(orig)) && os.clock <= k + 1
      modifies os`mapping, os`journal, os`clock
      ensures Restores(k, w, RestoreEnded(ok))
    {
      ghost var before := os.W();
      ok := os.WriteMapping(orig);
      RestoreOn(k, w, before, RestoreWrite(orig), if ok then RestoreConfirm(orig) else RestoreEnded(false));
      if ok {
        ok := ConfirmRestored(k, w, orig);
      }
    }

    method ConfirmRestored(ghost k: nat, ghost w: World, orig: Mapping) returns (ok: bool)
      requires Restores(k, w, RestoreConfirm(orig)) && os.clock <= k + 2
      modifies os`journal, os`clock
      ensures Restores(k, w, RestoreEnded(ok))
    {
      ghost var before := os.W();
      ok := MappingIs(orig);
      RestoreOn(k, w, before, RestoreConfirm(orig), if ok then RestoreClear else RestoreEnded(false));
      if ok {
        DiscardRestored(k, w);
      }
    }

    // ---- the lease and the life of one capture ----

    function Self(pc: Pc): Instance
      reads this
    {
      Instance(process, pc, owns, stopRequested, monitor, retry)
    }

    /** This plugin, at a given point, as one instance of the system. */
    ghost function View(pc: Pc): State
      reads this, os
    {
      State(os.W(), os.user, os.flock, os.owner, os.others[id := Self(pc)])
    }

    ghost predicate Valid()
      reads this, os
    {
      id !in os.others && Inv(View(Idle))
    }

    lemma ValidFacts()
      requires Valid()
      ensures WorldOk(os.W(), os.user) && (owns ==> os.journal.Record? && (monitor || stopRequested))
      ensures os.flock == Some(Holder(process, id)) <==> Held()
    {
      assert InstanceOk(View(Idle), id);
    }

    lemma ViewAgain(n: Instance, pc: Pc)
      requires n == Self(pc)
      ensures forall p :: Become(View(p), id, n) == View(pc)
    {
      forall p ensures Become(View(p), id, n) == View(pc) {
        assert os.others[id := Self(p)][id := n] == os.others[id := n];
      }
    }

    /** The system after a step of this plugin, once its fields and the lease say the same. */
    lemma ViewFrom(s: State, n: Instance, pc: Pc)
      requires s.world == os.W() && s.user == os.user && s.flock == os.flock && s.owner == os.owner
      requires id in s.live && s.live == os.others[id := s.live[id]] && n == Self(pc)
      ensures Become(s, id, n) == View(pc)
    {
      assert os.others[id := s.live[id]][id := n] == os.others[id := n];
    }

    /** The lease is there for the taking, and the number of the answer that comes after taking it. */
    predicate CanLock()
      reads this, os
    {
      Held() || (process !in os.owner && os.flock.None? && os.Now().reports)
    }

    function LockedAt(): nat
      reads this, os
    {
      os.clock + if process in os.owner then 0 else 1
    }

    method AcquireLease() returns (ok: bool)
      requires Valid()
      modifies os`flock, os`owner, os`clock
      ensures ok <==> Held()
      ensures ok == old(CanLock()) && os.clock == old(LockedAt())
      ensures ok ==> View(Recovering(ToEnable, RecoverLook)) == Armed(old(View(Idle)), id)
      ensures ok ==> old(Held()) || (process !in old(os.owner) && old(os.flock).None?)
      ensures !ok ==> os.flock == old(os.flock) && os.owner == old(os.owner)
    {
      ViewAgain(Self(Recovering(ToEnable, RecoverLook)), Recovering(ToEnable, RecoverLook));
      if process in os.owner {
        assert os.owner[process] == id ==> os.owner == os.owner[process := id];
        return os.owner[process] == id;
      }
      ok := os.TryLock(Holder(process, id));
      if ok {
        os.owner := os.owner[process := id];
      }
    }

    predicate Held()
      reads this, os
    {
      process in os.owner && os.owner[process] == id
    }

    method ReleaseLease()
      modifies os`flock, os`owner
      ensures os.flock == (if old(Held()) then None else old(os.flock))
      ensures os.owner == (if old(Held()) then old(os.owner) - {process} else old(os.owner))
    {
      if process in os.owner && os.owner[process] == id {
        os.flock := None;
        os.owner := os.owner - {process};
      }
    }

    lemma RecoveryFinished(start: State, s: State, k: nat, why: Purpose, ok: bool)
      requires Reaches(start, s) && id in s.live && s.live[id] == Self(Recovering(why, RecoverLook))
      requires RecoveryOf(os.answers, k, s.world) == (os.W(), RecoverEnded(ok), os.clock)
      requires View(Recovering(why, RecoverLook)) == s.(world := os.W())
      ensures Reaches(start, View(Recovering(why, RecoverEnded(ok))))
      ensures WorldOk(s.world, os.user) && ok ==> Same(os.mapping, os.user)
    {
      var cs := SettledPath(Recover, RecoverOver, os.answers, k, s.world, RecoverLook, ACCESSES);
      RecoverPathRuns(s, id, cs, os.W(), RecoverEnded(ok));
      ViewAgain(Self(Recovering(why, RecoverEnded(ok))), Recovering(why, RecoverEnded(ok)));
      Chain(start, s, View(Recovering(why, RecoverEnded(ok))));
      if WorldOk(s.world, os.user) && ok {
        RecoveredPath(s.world, os.user, RecoverLook, cs, os.W(), RecoverEnded(ok));
      }
    }

    method RecoverUnderLock(ghost start: State) returns (ok: bool)
      requires Reaches(start, View(Recovering(AtStartup, RecoverLook)))
      requires WorldOk(os.W(), os.user)
      modifies os`mapping, os`journal, os`flock, os`clock
      ensures Reaches(start, View(Idle))
      ensures (os.W(), RecoverEnded(ok), os.clock) == RecoveryOf(os.answers, old(os.clock), old(os.W()))
      ensures ok ==> Same(os.mapping, os.user)
    {
      ghost var s, k := View(Recovering(AtStartup, RecoverLook)), os.clock;
      ok := RecoverWhileLeaseHeld();
      RecoveryFinished(start, s, k, AtStartup, ok);
      Unlock(start, ok);
    }

    method Unlock(ghost start: State, ghost ok: bool)
      requires Reaches(start, View(Recovering(AtStartup, RecoverEnded(ok))))
      modifies os`flock
      ensures Reaches(start, View(Idle))
    {
      ghost var s := View(Recovering(AtStartup, RecoverEnded(ok)));
      os.flock := None;
      ReachesOn(start, s, Step(id, SILENT));
      ViewAgain(Self(Idle), Idle);
    }

    method TakeTemporaryLease(ghost start: State) returns (ok: bool)
      requires start == View(Idle)
      modifies os`flock, os`clock
      ensures ok ==> Reaches(start, View(Recovering(AtStartup, RecoverLook)))
      ensures ok <==> !old(Held()) && old(CanLock())
      ensures os.clock == old(LockedAt())
      ensures !ok ==> os.flock == old(os.flock)
    {
      if process in os.owner {
        return false;
      }
      ok := os.TryLock(Holder(process, id));
      if ok {
        ReachesSelf(start);
        ReachesOn(start, start, Recovery(id));
        ViewAgain(Self(Recovering(AtStartup, RecoverLook)), Recovering(AtStartup, RecoverLook));
      }
    }

    /** A recovery under a temporary lease, at start-up and from the safety watch. */
    method RecoverIfNeeded() returns (ran: bool, ok: bool)
      requires Valid()
      modifies os`mapping, os`journal, os`flock, os`clock
      ensures Valid() && Reaches(old(View(Idle)), View(Idle))
      ensures ran <==> !old(Held()) && old(CanLock())
      ensures ran ==>
        (os.W(), RecoverEnded(ok), os.clock) == RecoveryOf(os.answers, old(LockedAt()), old(os.W()))
      ensures ran && ok ==> Same(os.mapping, os.user)
      ensures !ran ==> View(Idle) == old(View(Idle)) && !ok
    {
      ghost var start := View(Idle);
      ran := TakeTemporaryLease(start);
      ok := false;
      if ran {
        ok := RecoverUnderLock(start);
      } else {
        ReachesSelf(start);
      }
      ReachesKeeps(start, View(Idle));
    }

    method ArmUnderLease(ghost start: State) returns (applied: bool)
      requires Reaches(start, View(Recovering(ToEnable, RecoverLook))) && Held()
      modifies this`owns, os`mapping, os`journal, os`flock, os`owner, os`clock
      ensures Reaches(start, View(Monitoring))
      ensures (applied <==> Held()) && (applied ==> CapsSendsF20(os.mapping) && OnlyCapsSendsF20(os.mapping))
      ensures CapsArming(os.answers, old(os.clock), old(os.W())).0 == os.W()
      ensures applied <==> CapsArming(os.answers, old(os.clock), old(os.W())).1.EnableEnded?
      ensures owns == (old(owns) || CapsArming(os.answers, old(os.clock), old(os.W())).1 == EnableEnded(true))
    {
      ghost var s, k := View(Recovering(ToEnable, RecoverLook)), os.clock;
      var ok := RecoverWhileLeaseHeld();
      RecoveryFinished(start, s, k, ToEnable, ok);
      s := View(Recovering(ToEnable, RecoverEnded(ok)));
      ReachesOn(start, s, Step(id, SILENT));
      ghost var e := if ok then EnableRead else EnableRefused;
      ViewAgain(Self(Enabling(e)), Enabling(e));
      if !ok {
        Refuse(start);
        return false;
      }
      applied := ApplyUnderLease(start);
    }

    method Refuse(ghost start: State)
      requires Reaches(start, View(Enabling(EnableRefused)))
      modifies os`flock, os`owner
      ensures Reaches(start, View(Monitoring)) && !Held()
    {
      ghost var s := View(Enabling(EnableRefused));
      ghost var released := Release(s, id);
      ReachesOn(start, s, Step(id, SILENT));
      RefusedStep(s, id, SILENT);
      ReleaseLease();
      ViewFrom(released, Self(Monitoring), Monitoring);
    }

    method ApplyUnderLease(ghost start: State) returns (applied: bool)
      requires Reaches(start, View(Enabling(EnableRead))) && Held()
      modifies this`owns, os`mapping, os`journal, os`flock, os`owner, os`clock
      ensures Reaches(start, View(Monitoring))
      ensures (applied <==> Held()) && (applied ==> CapsSendsF20(os.mapping) && OnlyCapsSendsF20(os.mapping))
      ensures ArmingOf(os.answers, old(os.clock), old(os.W())).0 == os.W()
      ensures applied <==> ArmingOf(os.answers, old(os.clock), old(os.W())).1.EnableEnded?
      ensures owns == (old(owns) || ArmingOf(os.answers, old(os.clock), old(os.W())).1 == EnableEnded(true))
    {
      ghost var s, k := View(Enabling(EnableRead)), os.clock;
      var owned, reused := ApplyRemap();
      ApplicationFinished(start, s, k, Outcome(owned, reused));
      applied := owned || reused;
      if applied {
        Own(start, owned);
      } else {
        Refuse(start);
      }
    }

    lemma ApplicationFinished(start: State, s: State, k: nat, e: EnablePc)
      requires Reaches(start, s) && id in s.live && s.live[id] == Self(Enabling(EnableRead))
      requires ArmingOf(os.answers, k, s.world) == (os.W(), e, os.clock)
      requires View(Enabling(EnableRead)) == s.(world := os.W())
      ensures Reaches(start, View(Enabling(e)))
    {
      var cs := SettledPath(Enable, EnableOver, os.answers, k, s.world, EnableRead, ACCESSES);
      EnablePathRuns(s, id, cs, os.W(), e);
      ViewAgain(Self(Enabling(e)), Enabling(e));
      Chain(start, s, View(Enabling(e)));
    }

    method Own(ghost start: State, owned: bool)
      requires Reaches(start, View(Enabling(EnableEnded(owned))))
      modifies this`owns
      ensures Reaches(start, View(Monitoring)) && owns == (old(owns) || owned)
    {
      ReachesOn(start, View(Enabling(EnableEnded(owned))), Step(id, SILENT));
      ghost var s := View(Enabling(EnableEnded(owned)));
      owns := owns || owned;
      ViewFrom(s, Self(Monitoring), Monitoring);
    }

    /** The Caps Lock part of arming goes through, and what it leaves behind either way. */
    ghost predicate CapsArms()
      reads this, os
    {
      CanLock() && CapsArming(os.answers, LockedAt(), os.W()).1.EnableEnded?
    }

    ghost function ArmedWorld(): World
      reads this, os
    {
      if CanLock() then CapsArming(os.answers, LockedAt(), os.W()).0 else os.W()
    }

    /** The Caps Lock part of arming; what follows is the event monitor. */
    method EnableRemap(captureCapsLock: bool) returns (applied: bool)
      requires Valid() && !stopRequested && !monitor
      modifies this`owns, os`mapping, os`journal, os`flock, os`owner, os`clock
      ensures Reaches(old(View(Idle)), View(Monitoring))
      ensures Inv(View(Monitoring))
      ensures !captureCapsLock ==> applied
      ensures captureCapsLock ==> (applied <==> Held()) && (applied <==> old(CapsArms()))
      ensures captureCapsLock && applied ==> CapsSendsF20(os.mapping) && OnlyCapsSendsF20(os.mapping)
      ensures os.W() == if captureCapsLock then old(ArmedWorld()) else old(os.W())
    {
      ghost var start := View(Idle);
      ReachesSelf(start);
      applied := !captureCapsLock;
      var locked := false;
      if captureCapsLock {
        locked := AcquireLease();
      }
      if locked {
        ReachesOn(start, start, RemapSystem.Start(id, true, true));
        applied := ArmUnderLease(start);
      } else {
        ReachesOn(start, start, RemapSystem.Start(id, captureCapsLock, false));
        ViewAgain(Self(Monitoring), Monitoring);
      }
      ReachesKeeps(start, View(Monitoring));
    }

    // ---- stopping ----

    lemma RestorationFinished(start: State, s: State, k: nat, how: Ending, ok: bool)
      requires Reaches(start, s) && id in s.live && s.live[id] == Self(Restoring(how, RestoreLook)).(owns := true)
      requires RestorationOf(os.answers, k, s.world) == (os.W(), RestoreEnded(ok), os.clock) && owns == !ok
      requires s.(world := os.W()) == View(Idle).(live := os.others[id := s.live[id]])
      ensures Reaches(start, View(Restoring(how, RestoreEnded(ok))))
    {
      var cs := SettledPath(Restore, RestoreOver, os.answers, k, s.world, RestoreLook, ACCESSES);
      RestorePathRuns(s, id, cs, os.W(), RestoreEnded(ok));
      var n, pc := Restored(s.live[id], RestoreEnded(ok)), Restoring(how, RestoreEnded(ok));
      assert n == Self(pc);
      ViewFrom(s.(world := os.W()), n, pc);
      Chain(start, s, View(pc));
    }

    lemma RestorationSucceeded(w: World, k: nat, user: Mapping)
      requires WorldOk(w, user) && w.journal.Record?
      requires RestorationOf(os.answers, k, w) == (os.W(), RestoreEnded(true), os.clock)
      ensures Same(os.mapping, user)
    {
      var cs := SettledPath(Restore, RestoreOver, os.answers, k, w, RestoreLook, ACCESSES);
      RestoredPath(w, user, RestoreLook, cs, os.W(), RestoreEnded(true));
    }

    /** What a stop makes of the mapping and the journal, and whether the remap is given up. */
    ghost function Stopped(): (World, bool)
      reads this, os
    {
      var (w, q, _) := RestorationOf(os.answers, os.clock, os.W());
      if owns then (w, q == RestoreEnded(true)) else (os.W(), true)
    }

    /** Restores if the remap is ours. */
    method RestoreIfOwned(ghost start: State, ghost how: Ending) returns (restored: bool)
      requires Reaches(start, View(Restoring(how, if owns then RestoreLook else RestoreEnded(true))))
      requires WorldOk(os.W(), os.user) && (owns ==> os.journal.Record?)
      modifies this`owns, os`mapping, os`journal, os`clock
      ensures Reaches(start, View(Restoring(how, RestoreEnded(restored))))
      ensures owns == !restored
      ensures (os.W(), restored) == old(Stopped())
      ensures old(owns) && restored ==> Same(os.mapping, os.user)
    {
      if !owns {
        return true;
      }
      ghost var s, k := View(Restoring(how, RestoreLook)), os.clock;
      restored := RestoreRemap();
      RestorationFinished(start, s, k, how, restored);
      if restored { RestorationSucceeded(s.world, k, os.user); }
    }

    /** What follows the restoration: the lease is given back, or a retry is left to the timer. */
    method Conclude(ghost start: State, restored: bool, scheduleRetry: bool, ghost how: Ending)
      requires Reaches(start, View(Restoring(how, RestoreEnded(restored))))
      requires !how.Dying? && (scheduleRetry <==> !how.WithoutRetry?)
      modifies this`stopRequested, this`retry, os`flock, os`owner
      ensures Reaches(start, View(Idle))
      ensures restored ==> !Held() && !stopRequested && !retry
      ensures !restored ==> stopRequested == old(stopRequested) && retry == (old(retry) || scheduleRetry)
      ensures !restored ==> os.flock == old(os.flock) && os.owner == old(os.owner)
    {
      ghost var s := View(Restoring(how, RestoreEnded(restored)));
      ReachesOn(start, s, Step(id, SILENT));
      if restored {
        FinishStop(start, s);
      } else {
        UnrestoredStep(s, id, SILENT);
        if scheduleRetry {
          retry := true;
        }
        ViewFrom(s, Self(Idle), Idle);
      }
    }

    method FinishStop(ghost start: State, ghost s: State)
      requires id in s.live && s == View(s.live[id].pc) && s.live[id].pc.Restoring? && !s.live[id].pc.how.Dying?
      requires s.live[id].pc.q == RestoreEnded(true) && Reaches(start, StepOf(s, id, SILENT))
      modifies this`stopRequested, this`retry, os`flock, os`owner
      ensures Reaches(start, View(Idle)) && !Held() && !stopRequested && !retry
    {
      ghost var released := Release(s, id);
      RestoredStep(s, id, SILENT);
      stopRequested := false;
      retry := false;
      ReleaseLease();
      ViewFrom(released, Self(Idle), Idle);
    }

    /** Capture ends; what is left is the restoration. */
    method BeginStop(ghost start: State, scheduleRetry: bool, ghost how: Ending)
      requires start == View(Idle) && how == if scheduleRetry then WithRetry else WithoutRetry
      modifies this`stopRequested, this`monitor, this`retry
      ensures Reaches(start, View(Restoring(how, if owns then RestoreLook else RestoreEnded(true))))
      ensures stopRequested && !monitor && retry == (old(retry) && scheduleRetry)
    {
      ReachesSelf(start);
      if !scheduleRetry {
        retry := false; // application termination cancels a pending retry before it stops
      }
      ReachesOn(start, start, if scheduleRetry then RemapSystem.Stop(id) else Terminate(id));
      stopRequested := true;
      monitor := false;
      ghost var pc := Restoring(how, if owns then RestoreLook else RestoreEnded(true));
      ViewFrom(start, Self(pc), pc);
    }

    /** Ends capture, restores if the remap is ours, and draws the conclusion. */
    method Halt(ghost start: State, scheduleRetry: bool) returns (restored: bool)
      requires start == View(Idle) && WorldOk(os.W(), os.user) && (owns ==> os.journal.Record?)
      modifies this`owns, this`stopRequested, this`monitor, this`retry
      modifies os`mapping, os`journal, os`flock, os`owner, os`clock
      ensures Reaches(start, View(Idle))
      ensures !monitor && owns == !restored && (os.W(), restored) == old(Stopped())
      ensures restored ==> !Held() && !stopRequested && !retry
      ensures old(owns) && restored ==> Same(os.mapping, os.user)
      ensures !restored ==> stopRequested && (retry <==> scheduleRetry)
    {
      ghost var how := if scheduleRetry then WithRetry else WithoutRetry;
      BeginStop(start, scheduleRetry, how);
      restored := RestoreIfOwned(start, how);
      Conclude(start, restored, scheduleRetry, how);
    }

    /** Stops capture at once and restores the mapping, now or on a later retry. */
    method Stop(scheduleRetry: bool) returns (restored: bool)
      requires Valid()
      modifies this`owns, this`stopRequested, this`monitor, this`retry
      modifies os`mapping, os`journal, os`flock, os`owner, os`clock
      ensures Valid() && Reaches(old(View(Idle)), View(Idle))
      ensures !monitor && owns == !restored && (os.W(), restored) == old(Stopped())
      ensures restored ==> !Held() && !stopRequested && !retry
      ensures old(owns) && restored ==> Same(os.mapping, os.user)
      ensures !restored ==> stopRequested && (retry <==> scheduleRetry)
    {
      ghost var start := View(Idle);
      ValidFacts();
      restored := Halt(start, scheduleRetry);
      ReachesKeeps(start, View(Idle));
    }

    method BeginRetry(ghost start: State)
      requires start == View(Idle) && retry
      modifies this`retry
      ensures !retry
      ensures Reaches(start, View(if !stopRequested then Idle
                                  else Restoring(Retrying, if owns then RestoreLook else RestoreEnded(true))))
    {
      ReachesSelf(start);
      ReachesOn(start, start, RemapSystem.RetryFires(id));
      retry := false;
      ghost var pc := if !stopRequested then Idle
                      else Restoring(Retrying, if owns then RestoreLook else RestoreEnded(true));
      ViewAgain(Self(pc), pc);
    }

    /** The timer of a failed stop. */
    method RetryFires()
      requires Valid() && retry
      modifies this`owns, this`stopRequested, this`retry, os`mapping, os`journal, os`flock, os`owner, os`clock
      ensures Valid() && Reaches(old(View(Idle)), View(Idle))
      ensures retry ==> owns && stopRequested
      ensures old(stopRequested) ==> (os.W(), !owns) == old(Stopped()) && retry == owns == stopRequested
      ensures !old(stopRequested) ==>
        View(Idle) == old(View(Idle).(live := os.others[id := Self(Idle).(retry := false)]))
      ensures old(owns && stopRequested) && !owns ==> Same(os.mapping, os.user)
    {
      ghost var start := View(Idle);
      ValidFacts();
      BeginRetry(start);
      if stopRequested {
        var restored := RestoreIfOwned(start, Retrying);
        Conclude(start, restored, true, Retrying);
      }
      ReachesKeeps(start, View(Idle));
    }

    /** The system once this plugin is gone. */
    ghost function Gone(): State
      reads this, os
    {
      State(os.W(), os.user, os.flock, os.owner, os.others)
    }

    /** The weak reference to the lease owner reads as nil from here on. */
    method BeginClose(ghost start: State)
      requires start == View(Idle)
      modifies this`stopRequested, this`monitor, this`retry, os`owner
      ensures Reaches(start, View(Restoring(Dying, if owns then RestoreLook else RestoreEnded(true))))
      ensures !Held()
    {
      ReachesSelf(start);
      ReachesOn(start, start, RemapSystem.Deinit(id));
      ghost var forsaken := Forsaken(start, id);
      if process in os.owner && os.owner[process] == id {
        os.owner := os.owner - {process};
      }
      retry := false;
      stopRequested := true;
      monitor := false;
      ghost var pc := Restoring(Dying, if owns then RestoreLook else RestoreEnded(true));
      assert Self(pc) == Stopping(start.live[id].(retry := false), Dying);
      ViewFrom(forsaken, Self(pc), pc);
    }

    /** Giving up the lease finds another owner than this object, so the descriptor stays open. */
    method EndClose(ghost start: State, ghost restored: bool)
      requires id !in os.others && Reaches(start, View(Restoring(Dying, RestoreEnded(restored)))) && !Held()
      modifies os`flock, os`owner
      ensures Reaches(start, Gone()) && !Held() && os.flock == old(os.flock)
    {
      ghost var pc := Restoring(Dying, RestoreEnded(restored));
      ReachesOn(start, View(pc), Step(id, SILENT));
      assert os.others[id := Self(pc)] - {id} == os.others;
      ReleaseLease();
    }

    /** Deinitialisation: one attempt to restore; the file lock stays taken exactly if this object held the lease. */
    method Close()
      requires Valid()
      modifies this, os`mapping, os`journal, os`flock, os`owner, os`clock
      ensures Reaches(old(View(Idle)), Gone()) && Inv(Gone()) && !Held()
      ensures os.flock == old(os.flock)
      ensures os.flock == Some(Holder(process, id)) <==> old(Held())
      ensures os.W() == old(Stopped()).0
    {
      ghost var start := View(Idle);
      ValidFacts();
      BeginClose(start);
      var restored := RestoreIfOwned(start, Dying);
      EndClose(start, restored);
      ReachesKeeps(start, Gone());
    }

    /** `viewPresent`: the view of a capture already running; `tapInstalls`, `monitorInstalls`: what is granted. */
    method Start(captureCapsLock: bool, captureOther: bool, viewPresent: bool, windowReady: bool,
                 tapInstalls: bool, monitorInstalls: bool)
      returns (armed: bool)
      requires Valid()
      modifies this`owns, this`stopRequested, this`monitor, this`retry
      modifies os`mapping, os`journal, os`flock, os`owner, os`clock
      ensures Valid() && Reaches(old(View(Idle)), View(Idle))
      ensures old(stopRequested) || old(monitor) ==>
        View(Idle) == old(View(Idle)) && (armed <==> !old(stopRequested) && viewPresent)
      ensures !old(stopRequested) && !old(monitor) ==>
        (armed <==>
          windowReady && monitorInstalls && ((captureCapsLock && old(CapsArms())) || (captureOther && tapInstalls)))
      ensures !old(stopRequested) && !old(monitor) && armed ==>
        && monitor && !stopRequested && os.W() == (if captureCapsLock then old(ArmedWorld()) else old(os.W()))
        && (captureCapsLock ==> (Held() <==> old(CapsArms())))
        && (captureCapsLock && Held() ==> CapsSendsF20(os.mapping) && OnlyCapsSendsF20(os.mapping))
      ensures !old(stopRequested) && !old(monitor) && !armed ==>
        !monitor && (stopRequested <==> owns) && (owns ==> retry)
    {
      ghost var start := View(Idle);
      ReachesSelf(start);
      ValidFacts();
      if stopRequested || monitor {
        return !stopRequested && viewPresent;
      }
      if !windowReady || (!captureCapsLock && !captureOther) {
        return false;
      }
      var applied := EnableRemap(captureCapsLock);
      armed := monitorInstalls && ((captureCapsLock && applied) || (captureOther && tapInstalls));
      if armed {
        Monitor(start);
      } else {
        Abandon(start);
      }
      ReachesKeeps(start, View(Idle));
    }

    method Monitor(ghost start: State)
      requires Reaches(start, View(Monitoring))
      modifies this`monitor
      ensures Reaches(start, View(Idle)) && monitor
    {
      ReachesOn(start, View(Monitoring), Step(id, SILENT.(reports := true)));
      monitor := true;
      ViewAgain(Self(Idle), Idle);
    }

    /** Nothing left to capture, or no monitor: the ordinary stop. */
    method Abandon(ghost start: State)
      requires Reaches(start, View(Monitoring)) && Inv(View(Monitoring))
      modifies this`owns, this`stopRequested, this`monitor, this`retry
      modifies os`mapping, os`journal, os`flock, os`owner, os`clock
      ensures Reaches(start, View(Idle)) && !monitor
      ensures (os.W(), !owns) == old(Stopped()) && (stopRequested <==> owns) && (owns ==> retry)
    {
      BeginAbandon(start);
      var restored := RestoreIfOwned(start, WithRetry);
      Conclude(start, restored, true, WithRetry);
    }

    method BeginAbandon(ghost start: State)
      requires Reaches(start, View(Monitoring)) && Inv(View(Monitoring))
      modifies this`stopRequested, this`monitor
      ensures stopRequested && !monitor
      ensures Reaches(start, View(Restoring(WithRetry, if owns then RestoreLook else RestoreEnded(true))))
      ensures WorldOk(os.W(), os.user) && (owns ==> os.journal.Record?)
    {
      assert InstanceOk(View(Monitoring), id);
      ReachesOn(start, View(Monitoring), Step(id, SILENT));
      stopRequested := true;
      monitor := false;
      ghost var pc := Restoring(WithRetry, if owns then RestoreLook else RestoreEnded(true));
      ViewAgain(Self(pc), pc);
    }
  }
}
