/**
 The whole system around the Caps Lock transactions: any number of plugin instances in any number of
 processes, the lease that serialises them, user edits and crashes.
 */
module RemapSystem {
  import opened Options
  import opened KeyMapping
  import opened RemapTransactions

  type Id = nat
  type Process = nat

  datatype Purpose = AtStartup | ToEnable
  datatype Ending = WithRetry | WithoutRetry | Dying | Retrying

  datatype Pc =
    | Idle
    | Recovering(why: Purpose, r: RecoverPc)
    | Enabling(e: EnablePc)
    | Monitoring
    | Restoring(how: Ending, q: RestorePc)

  datatype Instance = Instance(process: Process, pc: Pc, owns: bool, stopRequested: bool, monitor: bool, retry: bool)

  /** Who took the file lock: a descriptor opened by an instance of a process. */
  datatype Holder = Holder(process: Process, instance: Id)

  /**
   `user` is the mapping the user would have had without the plugin; `owner` is the per-process lease owner, a
   weak reference; `flock` is taken until its descriptor is closed or its process ends.
   */
  datatype State = State(world: World, user: Mapping,
                         flock: Option<Holder>, owner: map<Process, Id>, live: map<Id, Instance>)

  datatype Label =
    | Step(i: Id, c: Choice)
    | Start(i: Id, capsConfigured: bool, lockable: bool)
    | Recovery(i: Id) | Stop(i: Id) | Terminate(i: Id) | RetryFires(i: Id) | Deinit(i: Id)
    | Spawn(i: Id, p: Process) | Crash(p: Process) | Edit(m: Mapping)

  // ---- the lease -------------------------------------------------------------------------------

  predicate Holds(s: State, i: Id)
    requires i in s.live
  {
    s.live[i].process in s.owner && s.owner[s.live[i].process] == i
  }

  /** The file lock was taken through a descriptor of this instance. */
  predicate Locks(s: State, i: Id)
    requires i in s.live
  {
    s.flock == Some(Holder(s.live[i].process, i))
  }

  /** A weak reference to an object under deinitialisation reads as nil; its descriptor stays open. */
  function Forsaken(s: State, i: Id): State
    requires i in s.live
  {
    if Holds(s, i) then s.(owner := s.owner - {s.live[i].process}) else s
  }

  function Become(s: State, i: Id, n: Instance): State {
    s.(live := s.live[i := n])
  }

  function Release(s: State, i: Id): State
    requires i in s.live
  {
    if Holds(s, i) then s.(flock := None, owner := s.owner - {s.live[i].process}) else s
  }

  // ---- one step of one instance ----------------------------------------------------------------

  /** The head of every stop: capture ends at once, the mapping is restored if it is ours. */
  function Stopping(n: Instance, how: Ending): Instance {
    n.(stopRequested := true, monitor := false,
       pc := Restoring(how, if n.owns then RestoreLook else RestoreEnded(true)))
  }

  function StepOf(s: State, i: Id, c: Choice): State
    requires i in s.live
  {
    var n := s.live[i];
    match n.pc
    case Idle => s
    case Recovering(why, RecoverEnded(ok)) =>
      if why.AtStartup? then Become(s.(flock := None), i, n.(pc := Idle))
      else Become(s, i, n.(pc := Enabling(if ok then EnableRead else EnableRefused)))
    case Recovering(why, r) =>
      var (w, r') := Recover(s.world, r, c);
      Become(s.(world := w), i, n.(pc := Recovering(why, r')))
    case Enabling(EnableRefused) => Become(Release(s, i), i, n.(pc := Monitoring))
    case Enabling(EnableEnded(owned)) => Become(s, i, n.(pc := Monitoring, owns := n.owns || owned))
    case Enabling(e) =>
      var (w, e') := Enable(s.world, e, c);
      Become(s.(world := w), i, n.(pc := Enabling(e')))
    case Monitoring => Become(s, i, if c.reports then n.(monitor := true, pc := Idle) else Stopping(n, WithRetry))
    case Restoring(how, RestoreEnded(ok)) =>
      if how.Dying? then s.(live := s.live - {i})
      else if ok then Become(Release(s, i), i, n.(stopRequested := false, retry := false, pc := Idle))
      else Become(s, i, n.(retry := n.retry || !how.WithoutRetry?, pc := Idle))
    case Restoring(how, q) =>
      var (w, q') := Restore(s.world, q, c);
      Become(s.(world := w), i, n.(pc := Restoring(how, q'), owns := n.owns && q' != RestoreEnded(true)))
  }

  // ---- user edits and crashes ------------------------------------------------------------------

  /** Between a check of the mapping and the write (or journal change) that relies on it. */
  predicate Committing(pc: Pc) {
    match pc
    case Recovering(_, r) => r.RecoverWrite? || r.RecoverClear?
    case Enabling(e) => e.EnablePersist? || e.EnableApply? || e.EnableRollback? || e.EnableClear?
    case Restoring(_, q) => q.RestoreWrite? || q.RestoreClear?
    case _ => false
  }

  predicate EditHarmless(pc: Pc, m: Mapping) {
    && !Committing(pc)
    && (pc.Enabling? && pc.e.EnableReadback? && pc.e.applied ==> RollbackSafe(m, pc.e.orig))
  }

  predicate EditAllowed(s: State, m: Mapping) {
    forall i :: i in s.live ==> EditHarmless(s.live[i].pc, m)
  }

  function Edited(s: State, m: Mapping): State {
    s.(world := s.world.(mapping := m), user := UserAfter(s.world.journal, m))
  }

  /** A dead process loses its instances, its lease owner and its file descriptors, lost ones included. */
  function Crashed(s: State, p: Process): State {
    var freed := s.flock.Some? && s.flock.value.process == p;
    s.(live := map i | i in s.live && s.live[i].process != p :: s.live[i],
       owner := s.owner - {p},
       flock := if freed then None else s.flock)
  }

  // ---- the whole system ------------------------------------------------------------------------

  predicate IdleAt(s: State, i: Id) {
    i in s.live && s.live[i].pc.Idle?
  }

  function Armed(s: State, i: Id): State
    requires i in s.live
  {
    var n := s.live[i];
    Become(s.(flock := Some(Holder(n.process, i)), owner := s.owner[n.process := i]), i,
           n.(pc := Recovering(ToEnable, RecoverLook)))
  }

  function Started(s: State, i: Id, capsConfigured: bool, lockable: bool): State
    requires IdleAt(s, i)
  {
    var n := s.live[i];
    if capsConfigured && (Holds(s, i) || (lockable && n.process !in s.owner && s.flock.None?)) then Armed(s, i)
    else Become(s, i, n.(pc := Monitoring))
  }

  predicate Enabled(s: State, l: Label) {
    match l
    case Step(i, _) => i in s.live
    case Start(i, _, _) => IdleAt(s, i) && !s.live[i].stopRequested && !s.live[i].monitor
    case Recovery(i) => IdleAt(s, i) && s.live[i].process !in s.owner && s.flock.None?
    case Stop(i) => IdleAt(s, i)
    case Terminate(i) => IdleAt(s, i)
    case RetryFires(i) => IdleAt(s, i) && s.live[i].retry
    case Deinit(i) => IdleAt(s, i)
    case Spawn(i, p) => i !in s.live && !(s.flock.Some? && s.flock.value.instance == i)
    case Crash(p) => true
    case Edit(m) => EditAllowed(s, m)
  }

  function Next(s: State, l: Label): State
    requires Enabled(s, l)
  {
    match l
    case Step(i, c) => StepOf(s, i, c)
    case Start(i, caps, lockable) => Started(s, i, caps, lockable)
    case Recovery(i) =>
      var n := s.live[i];
      Become(s.(flock := Some(Holder(n.process, i))), i, n.(pc := Recovering(AtStartup, RecoverLook)))
    case Stop(i) => Become(s, i, Stopping(s.live[i], WithRetry))
    case Terminate(i) => Become(s, i, Stopping(s.live[i].(retry := false), WithoutRetry))
    case RetryFires(i) =>
      var n := s.live[i].(retry := false);
      Become(s, i, if n.stopRequested then Stopping(n, Retrying).(monitor := n.monitor) else n)
    case Deinit(i) => Become(Forsaken(s, i), i, Stopping(s.live[i].(retry := false), Dying))
    case Spawn(i, p) => Become(s, i, Instance(p, Idle, false, false, false, false))
    case Crash(p) => Crashed(s, p)
    case Edit(m) => Edited(s, m)
  }

  predicate Init(s: State) {
    && !s.world.journal.Record? && Same(s.world.mapping, s.user)
    && s.flock.None? && s.owner == map[] && s.live == map[]
  }

  /** Every label of the run is possible when its turn comes. */
  predicate Runs(s: State, ls: seq<Label>)
    decreases |ls|
  {
    ls == [] || (Enabled(s, ls[0]) && Runs(Next(s, ls[0]), ls[1..]))
  }

  function After(s: State, ls: seq<Label>): State
    requires Runs(s, ls)
    decreases |ls|
  {
    if ls == [] then s else After(Next(s, ls[0]), ls[1..])
  }

  lemma {:induction false} RunsOn(s: State, a: seq<Label>, b: seq<Label>)
    requires Runs(s, a) && Runs(After(s, a), b)
    ensures Runs(s, a + b) && After(s, a + b) == After(After(s, a), b)
    decreases |a|
  {
    if a == [] {
      assert a + b == b;
    } else {
      RunsOn(Next(s, a[0]), a[1..], b);
      assert (a + b)[0] == a[0] && (a + b)[1..] == a[1..] + b;
    }
  }

  // ---- the invariant ---------------------------------------------------------------------------

  predicate UnderTemporaryLease(pc: Pc) {
    pc.Recovering? && pc.why.AtStartup?
  }

  predicate Arming(pc: Pc) {
    (pc.Recovering? && pc.why.ToEnable?) || pc.Enabling?
  }

  predicate Disowned(pc: Pc) {
    Arming(pc) || UnderTemporaryLease(pc) || (pc.Restoring? && pc.q == RestoreEnded(true))
  }

  predicate NeedsLease(n: Instance) {
    n.owns || Arming(n.pc)
  }

  predicate LocalOk(w: World, n: Instance) {
    && (n.owns ==> w.journal.Record? && (n.monitor || n.stopRequested || n.pc.Monitoring?))
    && (Disowned(n.pc) ==> !n.owns)
    && (n.pc.Restoring? && n.pc.q != RestoreEnded(true) ==> n.owns)
    && match n.pc
       case Idle => true
       case Recovering(_, r) => RecoverOk(w, r)
       case Enabling(e) => EnableOk(w, e)
       case Monitoring => true
       case Restoring(_, q) => RestoreOk(w, q)
  }

  predicate Leaving(pc: Pc) {
    pc.Restoring? && pc.how.Dying?
  }

  predicate InstanceOk(s: State, i: Id)
    requires i in s.live
  {
    && LocalOk(s.world, s.live[i])
    && (UnderTemporaryLease(s.live[i].pc) ==> Locks(s, i) && s.live[i].process !in s.owner)
    && (NeedsLease(s.live[i]) ==> Locks(s, i) && (Holds(s, i) || Leaving(s.live[i].pc)))
    && (Leaving(s.live[i].pc) ==> !Holds(s, i))
  }

  /** The lock is free, held by a live instance, or left behind by one that is gone. */
  predicate LeaseOk(s: State) {
    && (forall p :: p in s.owner ==>
          s.owner[p] in s.live && s.live[s.owner[p]].process == p && s.flock == Some(Holder(p, s.owner[p])))
    && (s.flock.Some? && s.flock.value.instance in s.live ==>
          var i := s.flock.value.instance;
          Locks(s, i) && (Holds(s, i) || UnderTemporaryLease(s.live[i].pc) || Leaving(s.live[i].pc)))
  }

  predicate Inv(s: State) {
    WorldOk(s.world, s.user) && LeaseOk(s) && forall i :: i in s.live ==> InstanceOk(s, i)
  }

  // ---- every step keeps it ---------------------------------------------------------------------

  /** Whoever is mid-transaction holds the file lock, so nobody else's facts can be disturbed. */
  lemma OthersUndisturbed(s: State, i: Id, w: World, k: Id)
    requires Inv(s) && i in s.live && k in s.live && k != i
    requires NeedsLease(s.live[i]) || UnderTemporaryLease(s.live[i].pc)
    ensures LocalOk(w, s.live[k]) && !NeedsLease(s.live[k]) && !UnderTemporaryLease(s.live[k].pc)
  {
    assert InstanceOk(s, i) && InstanceOk(s, k);
  }

  /** A step inside a transaction: the shared world changes, the lease does not. */
  lemma TransactionKeeps(s: State, i: Id, w: World, n: Instance)
    requires Inv(s) && i in s.live
    requires NeedsLease(s.live[i]) || UnderTemporaryLease(s.live[i].pc)
    requires WorldOk(w, s.user) && LocalOk(w, n) && n.process == s.live[i].process
    requires NeedsLease(n) ==> NeedsLease(s.live[i])
    requires UnderTemporaryLease(n.pc) <==> UnderTemporaryLease(s.live[i].pc)
    requires Leaving(n.pc) <==> Leaving(s.live[i].pc)
    ensures Inv(Become(s.(world := w), i, n))
  {
    var s' := Become(s.(world := w), i, n);
    assert InstanceOk(s, i);
    forall k | k in s'.live ensures InstanceOk(s', k) {
      if k != i { OthersUndisturbed(s, i, w, k); }
    }
  }

  /** A step that leaves the shared world alone and gives up any lease it does not need. */
  lemma ReleaseKeeps(s: State, i: Id, n: Instance)
    requires Inv(s) && i in s.live
    requires !UnderTemporaryLease(s.live[i].pc) && !Leaving(s.live[i].pc)
    requires LocalOk(s.world, n) && n.process == s.live[i].process && !NeedsLease(n)
    requires !UnderTemporaryLease(n.pc) && !Leaving(n.pc)
    ensures Inv(Become(Release(s, i), i, n))
  {
    forall k | k in s.live && k != i ensures InstanceOk(Become(Release(s, i), i, n), k) {
      assert InstanceOk(s, k);
    }
  }

  /** The end of a deinitialisation: the instance is gone, and its lock is not given back. */
  lemma GoneKeeps(s: State, i: Id)
    requires Inv(s) && i in s.live && Leaving(s.live[i].pc)
    ensures Inv(s.(live := s.live - {i}))
  {
    assert InstanceOk(s, i);
    forall k | k in s.live && k != i ensures InstanceOk(s.(live := s.live - {i}), k) {
      assert InstanceOk(s, k);
    }
  }

  lemma DeinitKeeps(s: State, i: Id)
    requires Inv(s) && IdleAt(s, i)
    ensures Inv(Next(s, Deinit(i)))
  {
    var t := Next(s, Deinit(i));
    assert InstanceOk(s, i);
    forall k | k in t.live ensures InstanceOk(t, k) {
      assert InstanceOk(s, k);
    }
  }

  lemma PrivateKeeps(s: State, i: Id, n: Instance)
    requires Inv(s) && i in s.live
    requires LocalOk(s.world, n) && n.process == s.live[i].process
    requires NeedsLease(n) ==> Holds(s, i)
    requires UnderTemporaryLease(n.pc) <==> UnderTemporaryLease(s.live[i].pc)
    requires !Leaving(n.pc) && !Leaving(s.live[i].pc)
    ensures Inv(Become(s, i, n))
  {
    assert InstanceOk(s, i);
    forall k | k in s.live && k != i ensures InstanceOk(Become(s, i, n), k) {
      assert InstanceOk(s, k);
    }
  }

  lemma TemporaryLeaseEnds(s: State, i: Id)
    requires Inv(s) && i in s.live && UnderTemporaryLease(s.live[i].pc)
    ensures Inv(Become(s.(flock := None), i, s.live[i].(pc := Idle)))
  {
    assert InstanceOk(s, i);
    forall k | k in s.live && k != i ensures InstanceOk(Become(s.(flock := None), i, s.live[i].(pc := Idle)), k) {
      assert InstanceOk(s, k);
    }
  }

  lemma RecoveringKeeps(s: State, i: Id, c: Choice)
    requires Inv(s) && i in s.live && s.live[i].pc.Recovering?
    ensures Inv(StepOf(s, i, c))
  {
    var n := s.live[i];
    var r, why := n.pc.r, n.pc.why;
    assert InstanceOk(s, i);
    if !r.RecoverEnded? {
      RecoverKeeps(s.world, s.user, r, c);
      var (w, r') := Recover(s.world, r, c);
      TransactionKeeps(s, i, w, n.(pc := Recovering(why, r')));
    } else if why.AtStartup? {
      TemporaryLeaseEnds(s, i);
    } else {
      PrivateKeeps(s, i, n.(pc := Enabling(if r.ok then EnableRead else EnableRefused)));
    }
  }

  lemma EnablingKeeps(s: State, i: Id, c: Choice)
    requires Inv(s) && i in s.live && s.live[i].pc.Enabling?
    ensures Inv(StepOf(s, i, c))
  {
    var n := s.live[i];
    var e := n.pc.e;
    assert InstanceOk(s, i);
    if e.EnableRefused? { ReleaseKeeps(s, i, n.(pc := Monitoring)); }
    else if e.EnableEnded? { PrivateKeeps(s, i, n.(pc := Monitoring, owns := n.owns || e.owned)); }
    else {
      if e.EnableRead? { ReadKeeps(s.world, c); }
      else if e.EnablePersist? { PersistKeeps(s.world, s.user, e.orig, c); }
      else { ApplyKeeps(s.world, s.user, e, c); }
      var (w, e') := Enable(s.world, e, c);
      TransactionKeeps(s, i, w, n.(pc := Enabling(e')));
    }
  }

  lemma RestoringKeeps(s: State, i: Id, c: Choice)
    requires Inv(s) && i in s.live && s.live[i].pc.Restoring?
    ensures Inv(StepOf(s, i, c))
  {
    var n := s.live[i];
    var q, how := n.pc.q, n.pc.how;
    assert InstanceOk(s, i);
    if !q.RestoreEnded? {
      RestoreKeeps(s.world, s.user, q, c);
      var (w, q') := Restore(s.world, q, c);
      TransactionKeeps(s, i, w, n.(pc := Restoring(how, q'), owns := n.owns && q' != RestoreEnded(true)));
    } else if how.Dying? {
      GoneKeeps(s, i);
    } else if q.ok {
      ReleaseKeeps(s, i, n.(stopRequested := false, retry := false, pc := Idle));
    } else {
      PrivateKeeps(s, i, n.(retry := n.retry || !how.WithoutRetry?, pc := Idle));
    }
  }

  lemma StepKeeps(s: State, i: Id, c: Choice)
    requires Inv(s) && i in s.live
    ensures Inv(StepOf(s, i, c))
  {
    var n := s.live[i];
    assert InstanceOk(s, i);
    match n.pc
    case Idle =>
    case Recovering(_, _) => RecoveringKeeps(s, i, c);
    case Enabling(_) => EnablingKeeps(s, i, c);
    case Monitoring =>
      PrivateKeeps(s, i, if c.reports then n.(monitor := true, pc := Idle) else Stopping(n, WithRetry));
    case Restoring(_, _) => RestoringKeeps(s, i, c);
  }

  lemma EditKeeps(s: State, m: Mapping)
    requires Inv(s) && EditAllowed(s, m)
    ensures Inv(Edited(s, m))
  {
    var s' := Edited(s, m);
    if s.world.journal.Record? { AppendDiffers(s.world.journal.orig); }
    forall k | k in s'.live ensures InstanceOk(s', k) {
      assert InstanceOk(s, k) && EditHarmless(s.live[k].pc, m);
    }
  }

  lemma CrashKeeps(s: State, p: Process)
    requires Inv(s)
    ensures Inv(Crashed(s, p))
  {
    forall k | k in Crashed(s, p).live ensures InstanceOk(Crashed(s, p), k) {
      assert InstanceOk(s, k);
    }
  }

  lemma LeaseTakenKeeps(s: State, l: Label)
    requires Inv(s) && Enabled(s, l) && (l.Recovery? || l.Spawn?)
    ensures Inv(Next(s, l))
  {
    forall k | k in Next(s, l).live ensures InstanceOk(Next(s, l), k) {
      assert k in s.live ==> InstanceOk(s, k);
    }
  }

  lemma ArmKeeps(s: State, i: Id)
    requires Inv(s) && IdleAt(s, i) && !s.live[i].owns
    requires Holds(s, i) || (s.live[i].process !in s.owner && s.flock.None?)
    ensures Inv(Armed(s, i))
  {
    var s' := Armed(s, i);
    assert InstanceOk(s, i);
    forall k | k in s.live && k != i ensures InstanceOk(s', k) {
      assert InstanceOk(s, k);
    }
  }

  lemma StartKeeps(s: State, i: Id, caps: bool, lockable: bool)
    requires Inv(s) && Enabled(s, Start(i, caps, lockable))
    ensures Inv(Started(s, i, caps, lockable))
  {
    assert InstanceOk(s, i);
    if Started(s, i, caps, lockable) == Armed(s, i) { ArmKeeps(s, i); }
    else { PrivateKeeps(s, i, s.live[i].(pc := Monitoring)); }
  }

  lemma NextKeeps(s: State, l: Label)
    requires Inv(s) && Enabled(s, l)
    ensures Inv(Next(s, l))
  {
    match l
    case Step(i, c) => StepKeeps(s, i, c);
    case Start(i, caps, lockable) => StartKeeps(s, i, caps, lockable);
    case Recovery(i) => LeaseTakenKeeps(s, l);
    case Spawn(i, p) => LeaseTakenKeeps(s, l);
    case Crash(p) => CrashKeeps(s, p);
    case Edit(m) => EditKeeps(s, m);
    case Stop(i) => assert InstanceOk(s, i); PrivateKeeps(s, i, Stopping(s.live[i], WithRetry));
    case Terminate(i) =>
      assert InstanceOk(s, i);
      PrivateKeeps(s, i, Stopping(s.live[i].(retry := false), WithoutRetry));
    case Deinit(i) => DeinitKeeps(s, i);
    case RetryFires(i) =>
      assert InstanceOk(s, i);
      var n := s.live[i].(retry := false);
      PrivateKeeps(s, i, if n.stopRequested then Stopping(n, Retrying).(monitor := n.monitor) else n);
  }

  // ---- main results ----------------------------------------------------------------------------

  lemma {:induction false} RunKeeps(s: State, ls: seq<Label>)
    requires Inv(s) && Runs(s, ls)
    ensures Inv(After(s, ls))
    decreases |ls|
  {
    if ls != [] {
      NextKeeps(s, ls[0]);
      RunKeeps(Next(s, ls[0]), ls[1..]);
    }
  }

  /**
   Crash safety over whole runs: whatever instances start, stop, fail or die, and whatever the user
   edits meanwhile, the journal and the mapping together still determine the user's own mapping.
   */
  lemma CrashSafe(s: State, ls: seq<Label>)
    requires Init(s) && Runs(s, ls)
    ensures Agree(After(s, ls).world, After(s, ls).user)
    ensures Inv(After(s, ls))
  {
    RunKeeps(s, ls);
  }

  /** Mutual exclusion, across processes and across the instances of one process. */
  lemma OneOwner(s: State, ls: seq<Label>, i: Id, j: Id)
    requires Init(s) && Runs(s, ls)
    requires i in After(s, ls).live && j in After(s, ls).live
    ensures Holds(After(s, ls), i) && Holds(After(s, ls), j) ==> i == j
    ensures Locks(After(s, ls), i) && Locks(After(s, ls), j) ==> i == j
    ensures After(s, ls).live[i].owns ==> Locks(After(s, ls), i) && After(s, ls).world.journal.Record?
    ensures After(s, ls).live[i].owns && !Leaving(After(s, ls).live[i].pc) ==> Holds(After(s, ls), i)
  {
    RunKeeps(s, ls);
    assert InstanceOk(After(s, ls), i);
  }

  /** What an instance is about to write to the mapping. */
  function Attempted(pc: Pc): Option<Mapping> {
    match pc
    case Recovering(_, RecoverWrite(orig)) => Some(orig)
    case Enabling(EnableApply(orig)) => Some(Remapped(orig))
    case Enabling(EnableRollback(orig)) => Some(orig)
    case Restoring(_, RestoreWrite(orig)) => Some(orig)
    case _ => None
  }

  /**
   Every write the plugin attempts, whether or not it lands, is made by the one holder of the file lock, with
   exactly the original or the expected value of the journal then on disk; a recovery or a restoration only
   ever writes the original, over the expected value.
   */
  lemma WriteDiscipline(s0: State, ls: seq<Label>, i: Id)
    requires Init(s0) && Runs(s0, ls)
    requires i in After(s0, ls).live && Attempted(After(s0, ls).live[i].pc).Some?
    ensures var s := After(s0, ls);
      var m, pc := Attempted(s.live[i].pc).value, s.live[i].pc;
      && Locks(s, i) && s.world.journal.Record?
      && (m == s.world.journal.orig || (pc.Enabling? && m == s.world.journal.exp))
      && (!pc.Enabling? ==> Same(s.world.mapping, s.world.journal.exp))
  {
    RunKeeps(s0, ls);
    AttemptIsDisciplined(After(s0, ls), i);
  }

  lemma AttemptIsDisciplined(s: State, i: Id)
    requires Inv(s) && i in s.live && Attempted(s.live[i].pc).Some?
    ensures var m, pc := Attempted(s.live[i].pc).value, s.live[i].pc;
      && Locks(s, i) && s.world.journal.Record?
      && (m == s.world.journal.orig || (pc.Enabling? && m == s.world.journal.exp))
      && (!pc.Enabling? ==> Same(s.world.mapping, s.world.journal.exp))
  {
    assert InstanceOk(s, i);
  }

  /** Nothing but such an attempt and the user changes the mapping, and an attempt that lands stores what it wrote. */
  lemma OnlyAttemptsWrite(s: State, l: Label)
    requires Enabled(s, l) && !l.Edit? && Next(s, l).world.mapping != s.world.mapping
    ensures l.Step? && Attempted(s.live[l.i].pc).Some?
    ensures Same(Next(s, l).world.mapping, Attempted(s.live[l.i].pc).value)
    ensures Next(s, l).world.journal == s.world.journal
  {
    assert l.Step?;
  }

  /** In every reachable state, a recovery or a restoration that reports success has restored the user's mapping. */
  lemma SuccessMeansRestored(s: State, i: Id, c: Choice)
    requires Inv(s) && i in s.live
    ensures var n, t := s.live[i], StepOf(s, i, c);
      && (n.pc.Recovering? && !n.pc.r.RecoverEnded? && t.live[i].pc.r == RecoverEnded(true)
          ==> Same(t.world.mapping, t.user))
      && (n.pc.Restoring? && !n.pc.q.RestoreEnded? && t.live[i].pc.q == RestoreEnded(true)
          ==> Same(t.world.mapping, t.user))
  {
    assert InstanceOk(s, i);
    var n := s.live[i];
    if n.pc.Recovering? && !n.pc.r.RecoverEnded? { RecoverSuccess(s.world, s.user, n.pc.r, c); }
    if n.pc.Restoring? && !n.pc.q.RestoreEnded? { RestoreSuccess(s.world, s.user, n.pc.q, c); }
  }

  // ---- recovery completes ----------------------------------------------------------------------

  function Steps(i: Id, c: Choice, n: nat): seq<Label> {
    if n == 0 then [] else [Step(i, c)] + Steps(i, c, n - 1)
  }

  lemma StepsSplit(i: Id, c: Choice, n: nat)
    requires n > 0
    ensures Steps(i, c, n)[0] == Step(i, c) && Steps(i, c, n)[1..] == Steps(i, c, n - 1)
  {
  }

  lemma RunsStep(s: State, i: Id, c: Choice, n: nat)
    requires i in s.live && Runs(StepOf(s, i, c), Steps(i, c, n))
    ensures Runs(s, Steps(i, c, n + 1))
    ensures After(s, Steps(i, c, n + 1)) == After(StepOf(s, i, c), Steps(i, c, n))
  {
    StepsSplit(i, c, n + 1);
  }

  lemma {:induction false} IdleStays(s: State, i: Id, c: Choice, n: nat)
    requires IdleAt(s, i)
    ensures Runs(s, Steps(i, c, n)) && After(s, Steps(i, c, n)) == s
  {
    if n > 0 { IdleStays(s, i, c, n - 1); }
  }

  lemma RecoveringStep(s: State, i: Id, c: Choice)
    requires i in s.live && UnderTemporaryLease(s.live[i].pc) && !s.live[i].pc.r.RecoverEnded?
    ensures var (w, r) := Recover(s.world, s.live[i].pc.r, c);
      StepOf(s, i, c) == Become(s.(world := w), i, s.live[i].(pc := Recovering(AtStartup, r)))
  {
  }

  lemma RecoveryEnds(s: State, i: Id, c: Choice, n: nat)
    requires i in s.live && UnderTemporaryLease(s.live[i].pc) && s.live[i].pc.r.RecoverEnded?
    ensures Runs(s, Steps(i, c, n + 1))
    ensures After(s, Steps(i, c, n + 1)) == Become(s.(flock := None), i, s.live[i].(pc := Idle))
  {
    IdleStays(StepOf(s, i, c), i, c, n);
    RunsStep(s, i, c, n);
  }

  lemma {:induction false} RecoveryRuns(s: State, i: Id, c: Choice, n: nat)
    requires i in s.live && UnderTemporaryLease(s.live[i].pc)
    requires Recoveries(s.world, s.live[i].pc.r, c, n).1.RecoverEnded?
    ensures Runs(s, Steps(i, c, n + 1))
    ensures After(s, Steps(i, c, n + 1)) ==
      Become(s.(world := Recoveries(s.world, s.live[i].pc.r, c, n).0, flock := None), i, s.live[i].(pc := Idle))
    decreases n
  {
    if s.live[i].pc.r.RecoverEnded? {
      RecoverEndedStays(s.world, s.live[i].pc.r.ok, c, n);
      RecoveryEnds(s, i, c, n);
    } else {
      var t := StepOf(s, i, c);
      RecoveringStep(s, i, c);
      RecoveryRuns(t, i, c, n - 1);
      RunsStep(s, i, c, n);
      assert t.live[i := s.live[i].(pc := Idle)] == s.live[i := s.live[i].(pc := Idle)];
    }
  }

  /**
   From every reachable state with a free lease, a recovery that the system lets through restores the
   user's mapping and gives the lease back.
   */
  lemma RecoveryCompletes(s: State, i: Id)
    requires Inv(s) && Enabled(s, Recovery(i))
    ensures var s' := Next(s, Recovery(i));
      var ls := Steps(i, Cooperative(s.world.journal), 5);
      && Runs(s', ls)
      && Same(After(s', ls).world.mapping, s.user)
      && After(s', ls).user == s.user && After(s', ls).flock.None?
      && (s.world.journal.Record? && Same(s.world.mapping, s.world.journal.exp)
          ==> After(s', ls).world.journal.NoJournal?)
  {
    RecoveryRestores(s.world, s.user);
    RecoveryRuns(Next(s, Recovery(i)), i, Cooperative(s.world.journal), 4);
  }

  lemma RunsOne(s: State, a: Label)
    requires Enabled(s, a)
    ensures Runs(s, [a]) && After(s, [a]) == Next(s, a)
  {
    assert [a][1..] == [];
    assert Runs(Next(s, a), []) && After(Next(s, a), []) == Next(s, a);
  }

  lemma RunsTwo(s: State, a: Label, b: Label)
    requires Enabled(s, a) && Enabled(Next(s, a), b)
    ensures Runs(s, [a, b]) && After(s, [a, b]) == Next(Next(s, a), b)
  {
    assert [a, b][1..] == [b];
    RunsOne(Next(s, a), b);
  }

  /** After the process that held the lease dies, a new process can always recover. */
  lemma CrashThenRecover(s: State, dead: Process, i: Id, reborn: Process)
    requires Inv(s) && i !in s.live && reborn !in s.owner
    requires s.flock.Some? ==> s.flock.value.process == dead && s.flock.value.instance != i
    ensures var ls := [Crash(dead), Spawn(i, reborn)];
      Runs(s, ls) && Enabled(After(s, ls), Recovery(i)) && Inv(After(s, ls)) && After(s, ls).user == s.user
  {
    var t := Crashed(s, dead);
    var u := Next(t, Spawn(i, reborn));
    CrashKeeps(s, dead);
    LeaseTakenKeeps(t, Spawn(i, reborn));
    RunsTwo(s, Crash(dead), Spawn(i, reborn));
  }

  // ---- the lock a deinitialised instance leaves behind -----------------------------------------

  /** The lock was taken by an instance that is gone, or that the weak reference does not show any more. */
  predicate LeftBehind(s: State, h: Holder) {
    s.flock == Some(h) && (h.instance in s.live ==> Leaving(s.live[h.instance].pc))
  }

  predicate NoCrash(ls: seq<Label>, p: Process) {
    forall k :: 0 <= k < |ls| ==> ls[k] != Crash(p)
  }

  lemma LeftStaysOne(s: State, l: Label, h: Holder)
    requires Inv(s) && Enabled(s, l) && LeftBehind(s, h) && l != Crash(h.process)
    ensures LeftBehind(Next(s, l), h)
  {
    if l.Step? { assert InstanceOk(s, l.i); }
  }

  lemma {:induction false} LeftStays(s: State, ls: seq<Label>, h: Holder)
    requires Inv(s) && Runs(s, ls) && LeftBehind(s, h) && NoCrash(ls, h.process)
    ensures LeftBehind(After(s, ls), h) && Inv(After(s, ls))
    decreases |ls|
  {
    if ls != [] {
      LeftStaysOne(s, ls[0], h);
      NextKeeps(s, ls[0]);
      LeftStays(Next(s, ls[0]), ls[1..], h);
    }
  }

  /** Nobody recovers, arms or owns the remap. */
  predicate LockedOut(s: State) {
    && (forall i :: i in s.live ==> !Enabled(s, Recovery(i)))
    && (forall i :: i in s.live && !Leaving(s.live[i].pc) ==>
          !NeedsLease(s.live[i]) && !UnderTemporaryLease(s.live[i].pc))
  }

  lemma LeftLocksOut(s: State, h: Holder)
    requires Inv(s) && LeftBehind(s, h)
    ensures LockedOut(s)
  {
    forall i | i in s.live && !Leaving(s.live[i].pc)
      ensures !NeedsLease(s.live[i]) && !UnderTemporaryLease(s.live[i].pc) {
      assert InstanceOk(s, i);
    }
  }

  /** An instance that is leaving without the lock, or gone, does not get it. */
  lemma {:induction false} NeverLocks(s: State, ls: seq<Label>, p: Process, i: Id)
    requires Inv(s) && Runs(s, ls) && s.flock != Some(Holder(p, i))
    requires i in s.live ==> Leaving(s.live[i].pc)
    requires forall k :: 0 <= k < |ls| ==> !(ls[k].Spawn? && ls[k].i == i)
    ensures After(s, ls).flock != Some(Holder(p, i))
    decreases |ls|
  {
    if ls != [] {
      NeverLocksOne(s, ls[0], p, i);
      NextKeeps(s, ls[0]);
      NeverLocks(Next(s, ls[0]), ls[1..], p, i);
    }
  }

  lemma NeverLocksOne(s: State, l: Label, p: Process, i: Id)
    requires Inv(s) && Enabled(s, l) && s.flock != Some(Holder(p, i)) && !(l.Spawn? && l.i == i)
    requires i in s.live ==> Leaving(s.live[i].pc)
    ensures Next(s, l).flock != Some(Holder(p, i))
    ensures i in Next(s, l).live ==> Leaving(Next(s, l).live[i].pc)
  {
    match l
    case Step(j, c) => NeverLocksStep(s, j, c, p, i);
    case Start(j, caps, lockable) =>
      assert Started(s, j, caps, lockable).flock in {s.flock, Some(Holder(s.live[j].process, j))};
    case _ =>
  }

  lemma NeverLocksStep(s: State, j: Id, c: Choice, p: Process, i: Id)
    requires j in s.live && s.flock != Some(Holder(p, i)) && (i in s.live ==> Leaving(s.live[i].pc))
    ensures StepOf(s, j, c).flock in {s.flock, None}
    ensures i in StepOf(s, j, c).live ==> Leaving(StepOf(s, j, c).live[i].pc)
  {
    if j == i && !s.live[i].pc.q.RestoreEnded? { LeavingStep(s, i, c); }
  }

  /**
   A deinitialised instance leaves the file lock taken exactly when it held the lease, whatever else happens;
   until its process ends nobody can then recover or arm, in that process or in any other.
   */
  lemma DeinitLeavesLock(s: State, i: Id, ls: seq<Label>)
    requires Inv(s) && IdleAt(s, i) && Runs(Next(s, Deinit(i)), ls) && NoCrash(ls, s.live[i].process)
    requires forall k :: 0 <= k < |ls| ==> !(ls[k].Spawn? && ls[k].i == i)
    ensures var t, h := After(Next(s, Deinit(i)), ls), Holder(s.live[i].process, i);
      && (t.flock == Some(h) <==> Holds(s, i))
      && (Holds(s, i) ==> LockedOut(t))
  {
    DeinitKeeps(s, i);
    DeinitLock(s, i);
    LockAfterDeinit(Next(s, Deinit(i)), i, ls, s.live[i].process);
  }

  lemma LockAfterDeinit(t: State, i: Id, ls: seq<Label>, p: Process)
    requires Inv(t) && Runs(t, ls) && NoCrash(ls, p) && i in t.live && Leaving(t.live[i].pc)
    requires forall k :: 0 <= k < |ls| ==> !(ls[k].Spawn? && ls[k].i == i)
    ensures After(t, ls).flock == Some(Holder(p, i)) <==> t.flock == Some(Holder(p, i))
    ensures t.flock == Some(Holder(p, i)) ==> LockedOut(After(t, ls))
  {
    if t.flock == Some(Holder(p, i)) { HeldLockStays(t, ls, Holder(p, i)); } else { NeverLocks(t, ls, p, i); }
  }

  lemma DeinitLock(s: State, i: Id)
    requires Inv(s) && IdleAt(s, i)
    ensures var t, h := Next(s, Deinit(i)), Holder(s.live[i].process, i);
      && i in t.live && Leaving(t.live[i].pc) && t.flock == s.flock
      && (s.flock == Some(h) <==> Holds(s, i))
  {
    assert InstanceOk(s, i);
  }

  lemma HeldLockStays(t: State, ls: seq<Label>, h: Holder)
    requires Inv(t) && Runs(t, ls) && LeftBehind(t, h) && NoCrash(ls, h.process)
    ensures After(t, ls).flock == Some(h) && LockedOut(After(t, ls))
  {
    LeftStays(t, ls, h);
    LeftLocksOut(After(t, ls), h);
  }

  /** The restoration ends after exactly `n` more accesses. */
  predicate EndsIn(w: World, q: RestorePc, c: Choice, n: nat)
    decreases n
  {
    if q.RestoreEnded? then n == 0
    else n > 0 && var (w', q') := Restore(w, q, c); EndsIn(w', q', c, n - 1)
  }

  function RestoredWorld(w: World, q: RestorePc, c: Choice, n: nat): World
    decreases n
  {
    if n == 0 then w else var (w', q') := Restore(w, q, c); RestoredWorld(w', q', c, n - 1)
  }

  lemma LeavingStep(s: State, i: Id, c: Choice)
    requires i in s.live && Leaving(s.live[i].pc) && !s.live[i].pc.q.RestoreEnded?
    ensures var n := s.live[i]; var (w, q) := Restore(s.world, n.pc.q, c);
      var m := n.(pc := Restoring(Dying, q), owns := n.owns && q != RestoreEnded(true));
      StepOf(s, i, c) == Become(s.(world := w), i, m)
  {
  }

  lemma {:induction false} LeavingRuns(s: State, i: Id, c: Choice, n: nat)
    requires i in s.live && Leaving(s.live[i].pc) && EndsIn(s.world, s.live[i].pc.q, c, n)
    ensures Runs(s, Steps(i, c, n + 1))
    ensures After(s, Steps(i, c, n + 1)) ==
      s.(world := RestoredWorld(s.world, s.live[i].pc.q, c, n), live := s.live - {i})
    decreases n
  {
    if n > 0 {
      LeavingStep(s, i, c);
      LeavingRuns(StepOf(s, i, c), i, c, n - 1);
      assert StepOf(s, i, c).live - {i} == s.live - {i};
    }
    RunsStep(s, i, c, n);
  }

  lemma InterruptedRestoresInFour(w: World, c: Choice)
    requires w.journal.Record? && Same(w.mapping, w.journal.exp) && w.journal.exp == Remapped(w.journal.orig)
    requires c == Cooperative(w.journal)
    ensures EndsIn(w, RestoreLook, c, 4) && RestoredWorld(w, RestoreLook, c, 4) == World(w.journal.orig, NoJournal)
  {
    var orig := w.journal.orig;
    AppendDiffers(orig);
    var restored := w.(mapping := orig);
    assert Restore(w, RestoreLook, c) == (w, RestoreWrite(orig));
    assert Restore(w, RestoreWrite(orig), c) == (restored, RestoreConfirm(orig));
    assert Restore(restored, RestoreConfirm(orig), c) == (restored, RestoreClear);
    assert EndsIn(restored, RestoreClear, c, 1);
    assert RestoredWorld(restored, RestoreClear, c, 1) == World(orig, NoJournal);
    assert EndsIn(restored, RestoreConfirm(orig), c, 2);
    assert EndsIn(w, RestoreWrite(orig), c, 3) && RestoredWorld(w, RestoreWrite(orig), c, 3) == World(orig, NoJournal);
  }

  /**
   An armed instance is deinitialised and nothing goes wrong: the user's mapping is back and the journal is
   clear, but the file lock stays taken.
   */
  lemma ArmedDeinitLeavesLock(s: State, i: Id)
    requires Inv(s) && IdleAt(s, i) && s.live[i].owns && Same(s.world.mapping, s.world.journal.exp)
    ensures var ls := [Deinit(i)] + Steps(i, Cooperative(s.world.journal), 5);
      && Runs(s, ls)
      && var t := After(s, ls);
      && i !in t.live && Same(t.world.mapping, t.user) && t.world.journal.NoJournal?
      && t.flock == Some(Holder(s.live[i].process, i))
  {
    assert InstanceOk(s, i);
    var c, t := Cooperative(s.world.journal), Next(s, Deinit(i));
    InterruptedRestoresInFour(s.world, c);
    LeavingRuns(t, i, c, 4);
    var ls := Steps(i, c, 5);
    assert ([Deinit(i)] + ls)[1..] == ls;
  }

  /** Every state of an arming that meets no obstacle; the user has no mapping of their own. */
  function ArmingLabels(): seq<Label> {
    [Spawn(0, 0), Start(0, true, true)] + Steps(0, Choice(true, true, [CAPS_TO_F20], true, Committed), 8)
  }

  /** The armed instance of the lemma above exists: it is reached from an empty system. */
  lemma ArmedIsReachable(s: State)
    requires Init(s) && s.world == World([], NoJournal)
    ensures Runs(s, ArmingLabels())
    ensures var t := After(s, ArmingLabels());
      && IdleAt(t, 0) && t.live[0].owns && t.live[0].monitor && Holds(t, 0)
      && t.world.journal.Record? && Same(t.world.mapping, t.world.journal.exp)
  {
    var c := Choice(true, true, [CAPS_TO_F20], true, Committed);
    var t0 := Next(Next(s, Spawn(0, 0)), Start(0, true, true));
    ArmingSteps(t0);
    RunsTwo(s, Spawn(0, 0), Start(0, true, true));
    RunsOn(s, [Spawn(0, 0), Start(0, true, true)], Steps(0, c, 8));
  }

  lemma ArmingSteps(t0: State)
    requires t0.world == World([], NoJournal)
    requires t0.live == map[0 := Instance(0, Recovering(ToEnable, RecoverLook), false, false, false, false)]
    ensures var c := Choice(true, true, [CAPS_TO_F20], true, Committed);
      && Runs(t0, Steps(0, c, 8))
      && After(t0, Steps(0, c, 8)) == t0.(world := World([CAPS_TO_F20], Record([], [CAPS_TO_F20])),
           live := map[0 := Instance(0, Idle, true, false, true, false)])
  {
    var c := Choice(true, true, [CAPS_TO_F20], true, Committed);
    assert Remapped([]) == [CAPS_TO_F20];
    var t1 := StepOf(t0, 0, c);
    var t2 := StepOf(t1, 0, c);
    var t3 := StepOf(t2, 0, c);
    assert t3 == t0.(live := map[0 := Instance(0, Enabling(EnablePersist([])), false, false, false, false)]);
    CommittingSteps(t3);
    RunsStep(t2, 0, c, 5);
    RunsStep(t1, 0, c, 6);
    RunsStep(t0, 0, c, 7);
  }

  lemma CommittingSteps(t3: State)
    requires t3.world == World([], NoJournal)
    requires t3.live == map[0 := Instance(0, Enabling(EnablePersist([])), false, false, false, false)]
    ensures var c := Choice(true, true, [CAPS_TO_F20], true, Committed);
      && Runs(t3, Steps(0, c, 5))
      && After(t3, Steps(0, c, 5)) == t3.(world := World([CAPS_TO_F20], Record([], [CAPS_TO_F20])),
           live := map[0 := Instance(0, Idle, true, false, true, false)])
  {
    var c := Choice(true, true, [CAPS_TO_F20], true, Committed);
    assert Remapped([]) == [CAPS_TO_F20];
    var t4 := StepOf(t3, 0, c);
    assert t4.live[0].pc == Enabling(EnableApply([]));
    var t5 := StepOf(t4, 0, c);
    assert t5.world == World([CAPS_TO_F20], Record([], [CAPS_TO_F20]));
    assert t5.live == map[0 := Instance(0, Enabling(EnableReadback([], true)), false, false, false, false)];
    ConfirmingSteps(t5);
    RunsStep(t4, 0, c, 3);
    RunsStep(t3, 0, c, 4);
  }

  lemma ConfirmingSteps(t5: State)
    requires t5.world == World([CAPS_TO_F20], Record([], [CAPS_TO_F20]))
    requires t5.live == map[0 := Instance(0, Enabling(EnableReadback([], true)), false, false, false, false)]
    ensures var c := Choice(true, true, [CAPS_TO_F20], true, Committed);
      && Runs(t5, Steps(0, c, 3))
      && After(t5, Steps(0, c, 3)) == t5.(live := map[0 := Instance(0, Idle, true, false, true, false)])
  {
    var c := Choice(true, true, [CAPS_TO_F20], true, Committed);
    assert Remapped([]) == [CAPS_TO_F20];
    var t6 := StepOf(t5, 0, c);
    assert t6.live[0].pc == Enabling(EnableEnded(true));
    var t7 := StepOf(t6, 0, c);
    var t8 := StepOf(t7, 0, c);
    assert Steps(0, c, 0) == [] && After(t8, []) == t8;
    RunsStep(t7, 0, c, 0);
    RunsStep(t6, 0, c, 1);
    RunsStep(t5, 0, c, 2);
  }

  /** User edits are allowed at every moment except between a check and its write, and in the read-back window. */
  lemma ReadbackWindow(s: State, i: Id, m: Mapping)
    requires Inv(s) && i in s.live && s.live[i].pc.Enabling? && s.live[i].pc.e.EnableReadback? && s.live[i].pc.e.applied
    ensures EditAllowed(s, m) <==> RollbackSafe(m, s.live[i].pc.e.orig)
    ensures Edited(s, m).user == UserAfter(Record(s.live[i].pc.e.orig, Remapped(s.live[i].pc.e.orig)), m)
  {
    assert InstanceOk(s, i);
    forall k | k in s.live && k != i ensures EditHarmless(s.live[k].pc, m) {
      OthersUndisturbed(s, i, s.world, k);
    }
    assert EditHarmless(s.live[i].pc, m) <==> RollbackSafe(m, s.live[i].pc.e.orig);
  }
}
