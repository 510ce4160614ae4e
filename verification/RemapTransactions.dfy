/**
 The three transactions of the Caps Lock remap (recover, enable, restore) on the user's key mapping
 and the durable journal.  One step is one access to that shared state, so a crash or another
 process can fall between any two accesses.

 Reads are truthful or fail.  A mapping write lands whole, in any entry order, or not at all,
 whatever it reports.  A failed journal commit leaves the old journal, the new one, or none, and
 clearing the journal may not reach the disk.
 */
module RemapTransactions {
  import opened Options
  import opened KeyMapping

  datatype Journal = NoJournal | Unreadable | Record(orig: Mapping, exp: Mapping)

  /** What every instance can read: the system's key mapping and the journal on disk. */
  datatype World = World(mapping: Mapping, journal: Journal)

  // ---- the three transactions ------------------------------------------------------------------

  /** Points of a recovery; the arguments are the source's local variables. */
  datatype RecoverPc =
    | RecoverLook
    | RecoverWrite(orig: Mapping)
    | RecoverConfirm(orig: Mapping)
    | RecoverClear
    | RecoverEnded(ok: bool)

  datatype EnablePc =
    | EnableRead
    | EnablePersist(orig: Mapping)
    | EnableApply(orig: Mapping)
    | EnableReadback(orig: Mapping, applied: bool)
    | EnableRollback(orig: Mapping)
    | EnableFinal(orig: Mapping)
    | EnableClear(orig: Mapping)
    | EnableRefused
    | EnableEnded(owned: bool)

  datatype RestorePc =
    | RestoreLook
    | RestoreWrite(orig: Mapping)
    | RestoreConfirm(orig: Mapping)
    | RestoreClear
    | RestoreEnded(ok: bool)

  datatype CommitResult = Kept | Committed | Removed

  /** What the system does at one step: is the mapping readable, does a write land and as what, what is reported. */
  datatype Choice = Choice(readable: bool, lands: bool, stored: Mapping, reports: bool, commit: CommitResult)

  /** A write that lands stores the wanted entries, possibly reordered. */
  function Write(w: World, wanted: Mapping, c: Choice): (w': World)
    ensures w'.journal == w.journal
    ensures w' == w || Same(w'.mapping, wanted)
  {
    if c.lands && Same(c.stored, wanted) then w.(mapping := c.stored) else w
  }

  function Clear(w: World, c: Choice): World {
    if c.commit.Kept? then w else w.(journal := NoJournal)
  }

  function Persist(w: World, record: Journal, c: Choice): World {
    match c.commit
    case Kept => w
    case Committed => w.(journal := record)
    case Removed => w.(journal := NoJournal)
  }

  function Recover(w: World, r: RecoverPc, c: Choice): (World, RecoverPc) {
    match r
    case RecoverLook =>
      (w, match w.journal
          case NoJournal => RecoverEnded(true)
          case Unreadable => if c.readable && w.mapping == [] then RecoverClear else RecoverEnded(false)
          case Record(orig, exp) =>
            if !c.readable then RecoverEnded(false)
            else if Same(w.mapping, orig) then RecoverClear
            else if !Same(w.mapping, exp) then RecoverEnded(true)
            else RecoverWrite(orig))
    case RecoverWrite(orig) => (Write(w, orig, c), if c.reports then RecoverConfirm(orig) else RecoverEnded(false))
    case RecoverConfirm(orig) =>
      (w, if c.readable && Same(w.mapping, orig) then RecoverClear else RecoverEnded(false))
    case RecoverClear => (Clear(w, c), RecoverEnded(true))
    case RecoverEnded(_) => (w, r)
  }

  predicate IsF20(e: Entry) {
    Lookup(e, DESTINATION_KEY) == Some(F20)
  }

  /** Some other key already sends F20, which the armed monitor would swallow. */
  predicate UnrelatedF20(m: Mapping) {
    exists e :: e in m && IsF20(e) && !IsCaps(e)
  }

  function CapsEntries(m: Mapping): (r: seq<Entry>)
    ensures r == [] ==> NoCaps(m)
  {
    if m == [] then []
    else
      assert forall e :: e in m ==> e == m[0] || e in m[1..];
      (if IsCaps(m[0]) then [m[0]] else []) + CapsEntries(m[1..])
  }

  /** Where a successful read of the user's mapping leads. */
  function AfterRead(m: Mapping): (pc: EnablePc)
    ensures pc == EnableRefused || pc == EnableEnded(false) || pc == EnablePersist(m)
    ensures pc.EnablePersist? ==> NoCaps(m)
  {
    var caps := CapsEntries(m);
    if UnrelatedF20(m) || |caps| > 1 then EnableRefused
    else if |caps| == 1 then if IsF20(caps[0]) then EnableEnded(false) else EnableRefused
    else EnablePersist(m)
  }

  function Enable(w: World, e: EnablePc, c: Choice): (World, EnablePc) {
    match e
    case EnableRead => (w, if c.readable then AfterRead(w.mapping) else EnableRefused)
    case EnablePersist(orig) =>
      (Persist(w, Record(orig, Remapped(orig)), c),
       if c.reports && c.commit.Committed? then EnableApply(orig) else EnableRefused)
    case EnableApply(orig) => (Write(w, Remapped(orig), c), EnableReadback(orig, c.reports))
    case EnableReadback(orig, applied) =>
      (w, if !applied || !c.readable then EnableFinal(orig)
          else if Same(w.mapping, Remapped(orig)) then EnableEnded(true)
          else if Within(w.mapping, Remapped(orig)) then EnableRollback(orig)
          else EnableFinal(orig))
    case EnableRollback(orig) => (Write(w, orig, c), EnableFinal(orig))
    case EnableFinal(orig) => (w, if c.readable && Same(w.mapping, orig) then EnableClear(orig) else EnableRefused)
    case EnableClear(_) => (Clear(w, c), EnableRefused)
    case EnableRefused => (w, e)
    case EnableEnded(_) => (w, e)
  }

  function Restore(w: World, q: RestorePc, c: Choice): (World, RestorePc) {
    match q
    case RestoreLook =>
      (w, if !w.journal.Record? || !c.readable then RestoreEnded(false)
          else if Same(w.mapping, w.journal.orig) then RestoreClear
          else if !Same(w.mapping, w.journal.exp) then RestoreEnded(true)
          else RestoreWrite(w.journal.orig))
    case RestoreWrite(orig) => (Write(w, orig, c), if c.reports then RestoreConfirm(orig) else RestoreEnded(false))
    case RestoreConfirm(orig) =>
      (w, if c.readable && Same(w.mapping, orig) then RestoreClear else RestoreEnded(false))
    case RestoreClear => (Clear(w, c), RestoreEnded(true))
    case RestoreEnded(_) => (w, q)
  }

  // ---- crash safety of each transaction --------------------------------------------------------

  /** The user's mapping can be recovered from the shared world alone. */
  predicate Agree(w: World, user: Mapping) {
    if w.journal.Record? && Same(w.mapping, w.journal.exp) then Same(w.journal.orig, user)
    else Same(w.mapping, user)
  }

  predicate WorldOk(w: World, user: Mapping) {
    Agree(w, user) && (w.journal.Record? ==> w.journal.exp == Remapped(w.journal.orig))
  }

  predicate Journaled(w: World, orig: Mapping) {
    w.journal == Record(orig, Remapped(orig))
  }

  /** A mapping that the roll-back after a failed read-back would not destroy. */
  predicate RollbackSafe(m: Mapping, orig: Mapping) {
    Within(m, Remapped(orig)) ==> Same(m, orig) || Same(m, Remapped(orig))
  }

  predicate RecoverOk(w: World, r: RecoverPc) {
    match r
    case RecoverLook => true
    case RecoverWrite(orig) => Journaled(w, orig) && Same(w.mapping, Remapped(orig))
    case RecoverConfirm(orig) => Journaled(w, orig)
    case RecoverClear => w.journal.Unreadable? || (w.journal.Record? && Same(w.mapping, w.journal.orig))
    case RecoverEnded(_) => true
  }

  predicate EnableOk(w: World, e: EnablePc) {
    match e
    case EnableRead => true
    case EnablePersist(orig) => w.mapping == orig && NoCaps(orig)
    case EnableApply(orig) => Journaled(w, orig) && w.mapping == orig
    case EnableReadback(orig, applied) => Journaled(w, orig) && (applied ==> RollbackSafe(w.mapping, orig))
    case EnableRollback(orig) => Journaled(w, orig) && (Same(w.mapping, orig) || Same(w.mapping, Remapped(orig)))
    case EnableFinal(orig) => Journaled(w, orig)
    case EnableClear(orig) => Journaled(w, orig) && Same(w.mapping, orig)
    case EnableRefused => true
    case EnableEnded(owned) => owned ==> w.journal.Record?
  }

  /** `RestoreEnded(true)` is the only point of a restoration at which the remap is not ours any more. */
  predicate RestoreOk(w: World, q: RestorePc) {
    match q
    case RestoreLook => w.journal.Record?
    case RestoreWrite(orig) => Journaled(w, orig) && Same(w.mapping, Remapped(orig))
    case RestoreConfirm(orig) => Journaled(w, orig)
    case RestoreClear => w.journal.Record? && Same(w.mapping, w.journal.orig)
    case RestoreEnded(ok) => !ok ==> w.journal.Record?
  }

  lemma RecoverKeeps(w: World, user: Mapping, r: RecoverPc, c: Choice)
    requires WorldOk(w, user) && RecoverOk(w, r)
    ensures var (w', r') := Recover(w, r, c); WorldOk(w', user) && RecoverOk(w', r')
  {
    if w.journal.Record? { AppendDiffers(w.journal.orig); }
  }

  /** A mapping without a Caps Lock entry is the user's own, so it may become the journal's original. */
  lemma UncapturedIsUsers(w: World, user: Mapping)
    requires WorldOk(w, user) && NoCaps(w.mapping)
    ensures Same(w.mapping, user)
  {
    if w.journal.Record? { NoCapsDiffers(w.mapping, w.journal.orig); }
  }

  lemma PersistKeeps(w: World, user: Mapping, orig: Mapping, c: Choice)
    requires WorldOk(w, user) && EnableOk(w, EnablePersist(orig))
    ensures var (w', e') := Enable(w, EnablePersist(orig), c); WorldOk(w', user) && EnableOk(w', e')
  {
    UncapturedIsUsers(w, user);
    AppendDiffers(orig);
  }

  lemma ReadKeeps(w: World, c: Choice)
    ensures var (w', e') := Enable(w, EnableRead, c); w' == w && EnableOk(w', e')
  {
  }

  lemma ApplyKeeps(w: World, user: Mapping, e: EnablePc, c: Choice)
    requires WorldOk(w, user) && EnableOk(w, e) && !e.EnableRead? && !e.EnablePersist?
    ensures var (w', e') := Enable(w, e, c); WorldOk(w', user) && EnableOk(w', e')
  {
    if w.journal.Record? { AppendDiffers(w.journal.orig); }
  }

  lemma RestoreKeeps(w: World, user: Mapping, q: RestorePc, c: Choice)
    requires WorldOk(w, user) && RestoreOk(w, q)
    ensures var (w', q') := Restore(w, q, c); WorldOk(w', user) && RestoreOk(w', q')
  {
    if w.journal.Record? { AppendDiffers(w.journal.orig); }
  }

  // ---- a recovery that nothing obstructs -------------------------------------------------------

  function Recoveries(w: World, r: RecoverPc, c: Choice, n: nat): (World, RecoverPc)
    decreases n
  {
    if n == 0 then (w, r) else var (w', r') := Recover(w, r, c); Recoveries(w', r', c, n - 1)
  }

  /** Readable, writes land and report so. */
  function Cooperative(j: Journal): Choice {
    Choice(true, true, if j.Record? then j.orig else [], true, Removed)
  }

  /** Look, write, read back, clear. */
  lemma InterruptedRestores(w: World, user: Mapping)
    requires WorldOk(w, user) && w.journal.Record? && Same(w.mapping, w.journal.exp)
    ensures Recoveries(w, RecoverLook, Cooperative(w.journal), 4)
         == (World(w.journal.orig, NoJournal), RecoverEnded(true))
  {
    var c, orig := Cooperative(w.journal), w.journal.orig;
    AppendDiffers(orig);
    var restored := w.(mapping := orig);
    assert Recover(w, RecoverLook, c) == (w, RecoverWrite(orig));
    assert Recover(w, RecoverWrite(orig), c) == (restored, RecoverConfirm(orig));
    assert Recover(restored, RecoverConfirm(orig), c) == (restored, RecoverClear);
    assert Recoveries(restored, RecoverClear, c, 1) == (World(orig, NoJournal), RecoverEnded(true));
    assert Recoveries(restored, RecoverConfirm(orig), c, 2) == Recoveries(restored, RecoverClear, c, 1);
    assert Recoveries(w, RecoverWrite(orig), c, 3) == Recoveries(restored, RecoverConfirm(orig), c, 2);
  }

  lemma {:induction false} RecoverEndedStays(w: World, ok: bool, c: Choice, n: nat)
    ensures Recoveries(w, RecoverEnded(ok), c, n) == (w, RecoverEnded(ok))
  {
    if n > 0 { RecoverEndedStays(w, ok, c, n - 1); }
  }

  lemma UninterruptedStays(w: World, user: Mapping)
    requires WorldOk(w, user) && !(w.journal.Record? && Same(w.mapping, w.journal.exp))
    ensures var (w', r') := Recoveries(w, RecoverLook, Cooperative(w.journal), 4);
      r'.RecoverEnded? && w'.mapping == w.mapping
  {
    var c := Cooperative(w.journal);
    var (w1, r1) := Recover(w, RecoverLook, c);
    if r1.RecoverClear? {
      RecoverEndedStays(Clear(w, c), true, c, 2);
    } else {
      RecoverEndedStays(w, r1.ok, c, 3);
    }
  }

  /** Four accesses suffice to put the user's own mapping in force, whatever was interrupted. */
  lemma RecoveryRestores(w: World, user: Mapping)
    requires WorldOk(w, user)
    ensures var (w', r') := Recoveries(w, RecoverLook, Cooperative(w.journal), 4);
      && r'.RecoverEnded? && Same(w'.mapping, user)
      && (w.journal.Record? && Same(w.mapping, w.journal.exp) ==> w'.journal.NoJournal?)
  {
    if w.journal.Record? && Same(w.mapping, w.journal.exp) { InterruptedRestores(w, user); }
    else { UninterruptedStays(w, user); }
  }

  // ---- success is truthful ---------------------------------------------------------------------

  /** A recovery that reports success has the user's own mapping in force. */
  lemma RecoverSuccess(w: World, user: Mapping, r: RecoverPc, c: Choice)
    requires WorldOk(w, user) && RecoverOk(w, r) && !r.RecoverEnded?
    ensures var (w', r') := Recover(w, r, c); r' == RecoverEnded(true) ==> Same(w'.mapping, user)
  {
    if w.journal.Record? { AppendDiffers(w.journal.orig); }
  }

  lemma RestoreSuccess(w: World, user: Mapping, q: RestorePc, c: Choice)
    requires WorldOk(w, user) && RestoreOk(w, q) && !q.RestoreEnded?
    ensures var (w', q') := Restore(w, q, c); q' == RestoreEnded(true) ==> Same(w'.mapping, user)
  {
    if w.journal.Record? { AppendDiffers(w.journal.orig); }
  }

  // ---- when arming goes ahead ------------------------------------------------------------------

  /** Nothing in the mapping concerns Caps Lock or F20. */
  predicate Unconcerned(m: Mapping) {
    forall r :: r in Remaps(m) ==> r.source != Some(CAPS_LOCK) && r.destination != Some(F20)
  }

  /** The user maps Caps Lock to F20, once, and F20 comes from nothing else. */
  predicate RemappedByUser(m: Mapping) {
    exists k :: 0 <= k < |m| && Remaps(m)[k] == Remap(Some(CAPS_LOCK), Some(F20)) && UnconcernedBut(m, k)
  }

  predicate UnconcernedBut(m: Mapping, k: nat) {
    forall j :: 0 <= j < |m| && j != k ==>
      Remaps(m)[j].source != Some(CAPS_LOCK) && Remaps(m)[j].destination != Some(F20)
  }

  /** Every remap to F20 is one of Caps Lock, so the armed monitor swallows no other key. */
  predicate OnlyCapsSendsF20(m: Mapping) {
    forall r :: r in Remaps(m) && r.destination == Some(F20) ==> r.source == Some(CAPS_LOCK)
  }

  predicate CapsOnlyAt(m: Mapping, k: nat) {
    k < |m| && IsCaps(m[k]) && forall j :: 0 <= j < |m| && j != k ==> !IsCaps(m[j])
  }

  lemma {:induction false} NoCapsEntries(m: Mapping)
    requires NoCaps(m)
    ensures CapsEntries(m) == []
  {
    if m != [] {
      assert forall e :: e in m[1..] ==> e in m;
      NoCapsEntries(m[1..]);
    }
  }

  lemma {:induction false} OneCapsEntry(m: Mapping, k: nat)
    requires CapsOnlyAt(m, k)
    ensures CapsEntries(m) == [m[k]]
  {
    if k == 0 {
      NoCapsEntries(m[1..]);
    } else {
      OneCapsEntry(m[1..], k - 1);
    }
  }

  lemma {:induction false} WhereCapsEntryIs(m: Mapping) returns (k: nat)
    requires |CapsEntries(m)| == 1
    ensures CapsOnlyAt(m, k)
  {
    if IsCaps(m[0]) {
      assert NoCaps(m[1..]);
      k := 0;
    } else {
      k := WhereCapsEntryIs(m[1..]);
      k := k + 1;
    }
  }

  /**
   A mapping that was read reaches the journal exactly when nothing in it concerns Caps Lock or F20, is used as
   it is exactly when the user has made the very remap, and stops the arming otherwise.
   */
  lemma ArmingDecides(w: World, c: Choice)
    ensures var (w', e) := Enable(w, EnableRead, c);
      && w' == w
      && (e == EnablePersist(w.mapping) <==> c.readable && Unconcerned(w.mapping))
      && (e == EnableEnded(false) <==> c.readable && RemappedByUser(w.mapping))
      && (e == EnableRefused <==> !(c.readable && (Unconcerned(w.mapping) || RemappedByUser(w.mapping))))
  {
    if c.readable { ReadingDecides(w.mapping); }
  }

  lemma ReadingDecides(m: Mapping)
    ensures AfterRead(m) == EnablePersist(m) <==> Unconcerned(m)
    ensures AfterRead(m) == EnableEnded(false) <==> RemappedByUser(m)
  {
    if NoCaps(m) {
      NoCapsEntries(m);
      NoCapsReads(m);
    } else if |CapsEntries(m)| == 1 {
      var k := WhereCapsEntryIs(m);
      OneCapsEntry(m, k);
      OneCapsReads(m, k);
    } else {
      ManyCapsRead(m);
    }
  }

  lemma NoCapsReads(m: Mapping)
    requires NoCaps(m)
    ensures Unconcerned(m) <==> !UnrelatedF20(m)
    ensures !RemappedByUser(m)
  {
    forall k | 0 <= k < |m| ensures Remaps(m)[k].source != Some(CAPS_LOCK) {
      assert m[k] in m;
    }
    if Unconcerned(m) {
      forall e | e in m ensures !IsF20(e) {
        assert Meaning(e) in Remaps(m);
      }
    } else {
      var r :| r in Remaps(m) && (r.source == Some(CAPS_LOCK) || r.destination == Some(F20));
      var k :| 0 <= k < |m| && Remaps(m)[k] == r;
      assert m[k] in m;
    }
  }

  lemma OneCapsReads(m: Mapping, k: nat)
    requires CapsOnlyAt(m, k)
    ensures !Unconcerned(m)
    ensures RemappedByUser(m) <==> IsF20(m[k]) && !UnrelatedF20(m)
  {
    assert Remaps(m)[k] in Remaps(m);
    if RemappedByUser(m) {
      var i :| 0 <= i < |m| && Remaps(m)[i] == Remap(Some(CAPS_LOCK), Some(F20)) && UnconcernedBut(m, i);
      assert IsCaps(m[i]);
      forall j | 0 <= j < |m| && j != k ensures !IsF20(m[j]) {
        assert Remaps(m)[j].destination != Some(F20);
      }
    } else if IsF20(m[k]) && !UnrelatedF20(m) {
      forall j | 0 <= j < |m| && j != k ensures !IsF20(m[j]) {
        assert m[j] in m;
      }
      assert UnconcernedBut(m, k);
    }
  }

  lemma ManyCapsRead(m: Mapping)
    requires !NoCaps(m) && |CapsEntries(m)| != 1
    ensures AfterRead(m).EnableRefused? && !Unconcerned(m) && !RemappedByUser(m)
  {
    var e :| e in m && IsCaps(e);
    assert Meaning(e) in Remaps(m);
    if RemappedByUser(m) {
      var i :| 0 <= i < |m| && Remaps(m)[i] == Remap(Some(CAPS_LOCK), Some(F20)) && UnconcernedBut(m, i);
      forall j | 0 <= j < |m| && j != i ensures !IsCaps(m[j]) {
        assert Remaps(m)[j].source != Some(CAPS_LOCK);
      }
      OneCapsEntry(m, i);
    }
  }

  // ---- a transaction along the system's answers ------------------------------------------------

  type Transaction<!P> = (World, P, Choice) -> (World, P)

  predicate RecoverOver(r: RecoverPc) { r.RecoverEnded? }
  predicate EnableOver(e: EnablePc) { e.EnableRefused? || e.EnableEnded? }
  predicate RestoreOver(q: RestorePc) { q.RestoreEnded? }

  /** No transaction takes more accesses. */
  const ACCESSES := 7

  /** At most `n` accesses, answered in turn from the `k`th answer on: the world, the point and the next answer. */
  function Settle<P>(f: Transaction<P>, over: P -> bool, a: nat -> Choice, k: nat, w: World, p: P, n: nat)
    : (World, P, nat)
    decreases n
  {
    if over(p) || n == 0 then (w, p, k)
    else var (u, q) := f(w, p, a(k)); Settle(f, over, a, k + 1, u, q, n - 1)
  }

  function RecoveryOf(a: nat -> Choice, k: nat, w: World): (World, RecoverPc, nat) {
    Settle(Recover, RecoverOver, a, k, w, RecoverLook, ACCESSES)
  }

  function ArmingOf(a: nat -> Choice, k: nat, w: World): (World, EnablePc, nat) {
    Settle(Enable, EnableOver, a, k, w, EnableRead, ACCESSES)
  }

  function RestorationOf(a: nat -> Choice, k: nat, w: World): (World, RestorePc, nat) {
    Settle(Restore, RestoreOver, a, k, w, RestoreLook, ACCESSES)
  }

  /** A write that is carried out, said to be, and seen afterwards. */
  predicate Rewritten(a: nat -> Choice, k: nat, m: Mapping) {
    a(k).lands && Same(a(k).stored, m) && a(k).reports && a(k + 1).readable
  }

  predicate Persisted(c: Choice) {
    c.reports && c.commit.Committed?
  }

  /** Arming ends in one of its three ways, and with the remap in place exactly when nothing is in its way. */
  lemma ArmedExactly(a: nat -> Choice, k: nat, w: World)
    ensures var (w', e, _) := ArmingOf(a, k, w);
      && EnableOver(e)
      && (e == EnableEnded(true) <==>
            && a(k).readable && Unconcerned(w.mapping)
            && Persisted(a(k + 1)) && Rewritten(a, k + 2, Remapped(w.mapping)))
      && (e == EnableEnded(true) ==> w' == World(a(k + 2).stored, Record(w.mapping, Remapped(w.mapping))))
      && (e == EnableEnded(false) <==> a(k).readable && RemappedByUser(w.mapping))
      && (e == EnableEnded(false) ==> w' == w)
  {
    ArmingDecides(w, a(k));
    var (u, e) := Enable(w, EnableRead, a(k));
    if e.EnablePersist? {
      PersistedExactly(a, k + 1, w);
    }
  }

  lemma PersistedExactly(a: nat -> Choice, k: nat, w: World)
    ensures var (w', e, _) := Settle(Enable, EnableOver, a, k, w, EnablePersist(w.mapping), 6);
      && EnableOver(e) && e != EnableEnded(false)
      && (e == EnableEnded(true) <==> Persisted(a(k)) && Rewritten(a, k + 1, Remapped(w.mapping)))
      && (e == EnableEnded(true) ==> w' == World(a(k + 1).stored, Record(w.mapping, Remapped(w.mapping))))
  {
    if Persisted(a(k)) {
      AppliedExactly(a, k + 1, w.mapping);
    }
  }

  lemma AppliedExactly(a: nat -> Choice, k: nat, orig: Mapping)
    ensures var record := Record(orig, Remapped(orig));
      var (w', e, _) := Settle(Enable, EnableOver, a, k, World(orig, record), EnableApply(orig), 5);
      && EnableOver(e) && e != EnableEnded(false)
      && (e == EnableEnded(true) <==> Rewritten(a, k, Remapped(orig)))
      && (e == EnableEnded(true) ==> w' == World(a(k).stored, record))
  {
    AppendDiffers(orig);
    var w := World(orig, Record(orig, Remapped(orig)));
    var u := Write(w, Remapped(orig), a(k));
    ReadbackSettles(a, k + 1, u, orig, a(k).reports);
  }

  lemma ReadbackSettles(a: nat -> Choice, k: nat, w: World, orig: Mapping, applied: bool)
    ensures var (w', e, _) := Settle(Enable, EnableOver, a, k, w, EnableReadback(orig, applied), 4);
      && EnableOver(e) && e != EnableEnded(false)
      && (e == EnableEnded(true) <==> applied && a(k).readable && Same(w.mapping, Remapped(orig)))
      && (e == EnableEnded(true) ==> w' == w)
  {
    var (u, e) := Enable(w, EnableReadback(orig, applied), a(k));
    if e.EnableRollback? {
      GivenUpExactly(a, k + 2, Write(w, orig, a(k + 1)), orig, 2);
    } else if e.EnableFinal? {
      GivenUpExactly(a, k + 1, w, orig, 3);
    }
  }

  /** Giving up clears the journal exactly when the original mapping is seen to be in force. */
  lemma GivenUpExactly(a: nat -> Choice, k: nat, w: World, orig: Mapping, n: nat)
    requires n >= 2
    ensures var (w', e, _) := Settle(Enable, EnableOver, a, k, w, EnableFinal(orig), n);
      && e == EnableRefused && w'.mapping == w.mapping
      && w'.journal ==
         (if a(k).readable && Same(w.mapping, orig) && !a(k + 1).commit.Kept? then NoJournal else w.journal)
  {
    if a(k).readable && Same(w.mapping, orig) {
      var u := Clear(w, a(k + 1));
      assert Settle(Enable, EnableOver, a, k + 1, w, EnableClear(orig), n - 1)
          == Settle(Enable, EnableOver, a, k + 2, u, EnableRefused, n - 2) == (u, EnableRefused, k + 2);
    }
  }

  /** What a recovery or a restoration finds in the mapping. */
  predicate InForce(w: World, a: nat -> Choice, k: nat) {
    w.journal.Record? && a(k).readable && Same(w.mapping, w.journal.orig)
  }

  predicate Abandoned(w: World, a: nat -> Choice, k: nat) {
    w.journal.Record? && a(k).readable && !Same(w.mapping, w.journal.orig) && !Same(w.mapping, w.journal.exp)
  }

  predicate Reverted(w: World, a: nat -> Choice, k: nat) {
    && w.journal.Record? && a(k).readable && Same(w.mapping, w.journal.exp)
    && Rewritten(a, k + 1, w.journal.orig)
  }

  /**
   A restoration succeeds exactly when the original is in force, when it is the user's business by now, or when it
   can be written back; the journal is then cleared in the first and the last case.
   */
  lemma RestoredExactly(a: nat -> Choice, k: nat, w: World)
    requires w.journal.Record? ==> w.journal.exp == Remapped(w.journal.orig)
    ensures var (w', q, _) := RestorationOf(a, k, w);
      && (q == RestoreEnded(true) <==> InForce(w, a, k) || Abandoned(w, a, k) || Reverted(w, a, k))
      && (Abandoned(w, a, k) ==> w' == w)
      && (InForce(w, a, k) ==> w' == Clear(w, a(k + 1)))
      && (Reverted(w, a, k) ==> w' == Clear(World(a(k + 1).stored, w.journal), a(k + 3)))
      && RestoreOver(q)
  {
    if w.journal.Record? {
      AppendDiffers(w.journal.orig);
      RestoreLookSettles(a, k, w);
      var q := Restore(w, RestoreLook, a(k)).1;
      if q.RestoreWrite? {
        RestoreWriteExactly(a, k + 1, w, q.orig);
      } else if q.RestoreClear? {
        RestoreClearExactly(a, k + 1, w, 6);
      }
    }
  }

  lemma RestoreLookSettles(a: nat -> Choice, k: nat, w: World)
    ensures RestorationOf(a, k, w) == Settle(Restore, RestoreOver, a, k + 1, w, Restore(w, RestoreLook, a(k)).1, 6)
  {
  }

  lemma RestoreClearExactly(a: nat -> Choice, k: nat, w: World, n: nat)
    requires n >= 1
    ensures Settle(Restore, RestoreOver, a, k, w, RestoreClear, n) == (Clear(w, a(k)), RestoreEnded(true), k + 1)
  {
  }

  lemma RestoreWriteExactly(a: nat -> Choice, k: nat, w: World, orig: Mapping)
    requires !Same(w.mapping, orig)
    ensures var (w', q, _) := Settle(Restore, RestoreOver, a, k, w, RestoreWrite(orig), 6);
      && (q == RestoreEnded(true) <==> Rewritten(a, k, orig)) && RestoreOver(q)
      && (Rewritten(a, k, orig) ==> w' == Clear(World(a(k).stored, w.journal), a(k + 2)))
  {
    if a(k).reports {
      var u := Write(w, orig, a(k));
      var (v, q) := Restore(u, RestoreConfirm(orig), a(k + 1));
      assert Settle(Restore, RestoreOver, a, k, w, RestoreWrite(orig), 6)
          == Settle(Restore, RestoreOver, a, k + 1, u, RestoreConfirm(orig), 5)
          == Settle(Restore, RestoreOver, a, k + 2, u, q, 4);
      if q.RestoreClear? { RestoreClearExactly(a, k + 2, u, 4); }
    }
  }

  /** A recovery succeeds exactly when a restoration would, or when there is nothing to recover from or to undo. */
  lemma RecoveredExactly(a: nat -> Choice, k: nat, w: World)
    requires w.journal.Record? ==> w.journal.exp == Remapped(w.journal.orig)
    ensures var (w', r, _) := RecoveryOf(a, k, w);
      && (r == RecoverEnded(true) <==>
            || w.journal.NoJournal? || (w.journal.Unreadable? && a(k).readable && w.mapping == [])
            || InForce(w, a, k) || Abandoned(w, a, k) || Reverted(w, a, k))
      && (w.journal.NoJournal? || Abandoned(w, a, k) ==> w' == w)
      && (InForce(w, a, k) || (w.journal.Unreadable? && a(k).readable && w.mapping == []) ==> w' == Clear(w, a(k + 1)))
      && (Reverted(w, a, k) ==> w' == Clear(World(a(k + 1).stored, w.journal), a(k + 3)))
      && RecoverOver(r)
  {
    if w.journal.Record? { AppendDiffers(w.journal.orig); }
    var (u, r) := Recover(w, RecoverLook, a(k));
    if r.RecoverWrite? {
      RecoverWriteExactly(a, k + 1, w, r.orig);
    } else if r.RecoverClear? {
      RecoverClearExactly(a, k + 1, w, 6);
    }
  }

  lemma RecoverClearExactly(a: nat -> Choice, k: nat, w: World, n: nat)
    requires n >= 1
    ensures Settle(Recover, RecoverOver, a, k, w, RecoverClear, n) == (Clear(w, a(k)), RecoverEnded(true), k + 1)
  {
  }

  lemma RecoverWriteExactly(a: nat -> Choice, k: nat, w: World, orig: Mapping)
    requires !Same(w.mapping, orig)
    ensures var (w', r, _) := Settle(Recover, RecoverOver, a, k, w, RecoverWrite(orig), 6);
      && (r == RecoverEnded(true) <==> Rewritten(a, k, orig)) && RecoverOver(r)
      && (Rewritten(a, k, orig) ==> w' == Clear(World(a(k).stored, w.journal), a(k + 2)))
  {
    if a(k).reports {
      var u := Write(w, orig, a(k));
      var (v, r) := Recover(u, RecoverConfirm(orig), a(k + 1));
      assert Settle(Recover, RecoverOver, a, k, w, RecoverWrite(orig), 6)
          == Settle(Recover, RecoverOver, a, k + 1, u, RecoverConfirm(orig), 5)
          == Settle(Recover, RecoverOver, a, k + 2, u, r, 4);
      if r.RecoverClear? { RecoverClearExactly(a, k + 2, u, 4); }
    }
  }

  // ---- the one window in which a user edit can be lost -----------------------------------------

  /** The mapping the user would have had without the plugin, after an edit to `m`. */
  function UserAfter(j: Journal, m: Mapping): Mapping {
    if j.Record? && Same(m, j.exp) then j.orig else m
  }

  /**
   Between the write of the expected mapping and its read-back the source may roll an edit back.  An
   edit there is lost exactly when it leaves only entries of the expected mapping without being the
   original or the expected mapping itself.
   */
  lemma EditBeforeReadback(orig: Mapping, m: Mapping)
    ensures var j := Record(orig, Remapped(orig));
      var (w1, e1) := Enable(World(m, j), EnableReadback(orig, true), Cooperative(j));
      var (w2, e2) := Enable(w1, e1, Cooperative(j));
      Agree(w2, UserAfter(j, m)) <==> RollbackSafe(m, orig)
  {
    AppendDiffers(orig);
    var j := Record(orig, Remapped(orig));
    var w, c := World(m, j), Cooperative(j);
    if RollbackSafe(m, orig) {
      assert Agree(Enable(w, EnableReadback(orig, true), c).0, UserAfter(j, m));
    } else {
      assert Enable(w, EnableReadback(orig, true), c) == (w, EnableRollback(orig));
      assert Enable(w, EnableRollback(orig), c) == (World(orig, j), EnableFinal(orig));
    }
  }

  /**
   Such an edit: right after the remap was installed the user deletes an unrelated entry.  The mapping they then
   want is empty, but the read-back rolls the entry back in, finds its original and clears the journal.
   */
  lemma LostEdit(other: Entry)
    requires !IsCaps(other)
    ensures var j := Record([other], Remapped([other]));
      var c := Cooperative(j);
      var (w1, e1) := Enable(World([], j), EnableReadback([other], true), c);
      var (w2, e2) := Enable(w1, e1, c);
      var (w3, e3) := Enable(w2, e2, c);
      var (w4, e4) := Enable(w3, e3, c);
      && UserAfter(j, []) == [] && !RollbackSafe([], [other])
      && e4 == EnableRefused && w4 == World([other], NoJournal) && !Same(w4.mapping, [])
  {
    assert |multiset(Remaps([other]))| == 1;
    assert |multiset(Remaps(Remapped([other])))| == 2;
    assert |multiset(Remaps([]))| == 0;
    var j := Record([other], Remapped([other]));
    var c := Cooperative(j);
    assert Enable(World([], j), EnableReadback([other], true), c) == (World([], j), EnableRollback([other]));
    assert Enable(World([], j), EnableRollback([other]), c) == (World([other], j), EnableFinal([other]));
    assert Enable(World([other], j), EnableFinal([other]), c) == (World([other], j), EnableClear([other]));
  }
}
