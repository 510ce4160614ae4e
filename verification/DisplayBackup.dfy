/**
 Switching to one exclusive display and back.  Both what is shown and what the system remembers are saved
 before the switch and put back by the first restoration that succeeds.
 */
module DisplayBackup {
  import opened Options

  datatype Path = Path(source: nat, target: nat, flags: nat, sourceMode: nat, targetMode: nat)

  datatype Mode = SourceMode(width: nat, height: nat, x: int, y: int) | OtherMode(info: nat)

  datatype Config = Config(paths: seq<Path>, modes: seq<Mode>)

  /** What the desktop shows, and the layout it falls back to. */
  datatype World = World(active: Config, database: Config)

  const ACTIVE_FLAG := 1
  const ATTEMPTS := 5
  const EMPTY := Config([], [])

  // ---- the exclusive layout --------------------------------------------------------------------

  predicate IsActive(p: Path) {
    p.flags % 2 == 1
  }

  function OnlyPath(paths: seq<Path>, target: nat): seq<Path> {
    seq(|paths|, k requires 0 <= k < |paths| => paths[k].(flags := if k == target then ACTIVE_FLAG else 0))
  }

  function AtOrigin(modes: seq<Mode>, index: nat): seq<Mode> {
    seq(|modes|, k requires 0 <= k < |modes| =>
      if k == index && modes[k].SourceMode? then modes[k].(x := 0, y := 0) else modes[k])
  }

  function Exclusive(c: Config, target: nat): Config
    requires target < |c.paths|
  {
    Config(OnlyPath(c.paths, target), AtOrigin(c.modes, c.paths[target].sourceMode))
  }

  /**
   Exactly path `target` is on, its source mode lies at the origin, and nothing else is different: no other mode,
   and of the paths only whether they are on.
   */
  predicate IsExclusive(c: Config, e: Config, target: nat) {
    && target < |c.paths| == |e.paths| && |e.modes| == |c.modes|
    && (forall k :: 0 <= k < |e.paths| ==> e.paths[k].flags == if k == target then ACTIVE_FLAG else 0)
    && (forall k :: 0 <= k < |e.paths| ==> e.paths[k].(flags := c.paths[k].flags) == c.paths[k])
    && (forall k :: 0 <= k < |e.modes| && k != c.paths[target].sourceMode ==> e.modes[k] == c.modes[k])
    && (c.paths[target].sourceMode < |c.modes| ==>
          AtOriginOnly(c.modes[c.paths[target].sourceMode], e.modes[c.paths[target].sourceMode]))
  }

  predicate AtOriginOnly(before: Mode, after: Mode) {
    if before.SourceMode? then after == SourceMode(before.width, before.height, 0, 0) else after == before
  }

  predicate OnlyOn(c: Config, target: nat) {
    target < |c.paths| && forall k :: 0 <= k < |c.paths| ==> (IsActive(c.paths[k]) <==> k == target)
  }

  lemma ExclusiveIsExclusive(c: Config, target: nat)
    requires target < |c.paths|
    ensures IsExclusive(c, Exclusive(c, target), target) && OnlyOn(Exclusive(c, target), target)
  {
    var e := Exclusive(c, target);
    forall k | 0 <= k < |e.paths| ensures IsActive(e.paths[k]) <==> k == target {
      assert e.paths[k].flags == if k == target then ACTIVE_FLAG else 0;
    }
  }

  /** The loops over the two arrays, in place. */
  method MakeExclusive(paths: array<Path>, modes: array<Mode>, target: nat)
    requires target < paths.Length
    modifies paths, modes
    ensures paths[..] == old(OnlyPath(paths[..], target))
    ensures modes[..] == old(AtOrigin(modes[..], paths[target].sourceMode))
  {
    var i := 0;
    while i < paths.Length
      invariant i <= paths.Length && modes[..] == old(modes[..])
      invariant forall k :: 0 <= k < i ==> paths[k] == old(OnlyPath(paths[..], target))[k]
      invariant forall k :: i <= k < paths.Length ==> paths[k] == old(paths[k])
    {
      if i == target {
        paths[i] := paths[i].(flags := ACTIVE_FLAG);
      } else {
        paths[i] := paths[i].(flags := 0);
      }
      i := i + 1;
    }
    i := 0;
    while i < modes.Length
      invariant i <= modes.Length && paths[..] == old(OnlyPath(paths[..], target))
      invariant forall k :: 0 <= k < i ==> modes[k] == old(AtOrigin(modes[..], paths[target].sourceMode))[k]
      invariant forall k :: i <= k < modes.Length ==> modes[k] == old(modes[k])
    {
      if modes[i].SourceMode? {
        var isTargetMode := UsesMode(paths, target, i);
        if isTargetMode {
          modes[i] := modes[i].(x := 0, y := 0);
        }
      }
      i := i + 1;
    }
  }

  /** Whether the target path refers to mode `mode`. */
  method UsesMode(paths: array<Path>, target: nat, mode: nat) returns (found: bool)
    requires target < paths.Length
    ensures found <==> paths[target].sourceMode == mode
  {
    var j := 0;
    while j < paths.Length
      invariant j <= paths.Length
      invariant j > target ==> paths[target].sourceMode != mode
    {
      if j == target && paths[j].sourceMode == mode {
        return true;
      }
      j := j + 1;
    }
    return false;
  }

  // ---- which path is meant ---------------------------------------------------------------------

  datatype Display = Display(uid: int, name: string)

  function ActiveBefore(paths: seq<Path>, n: nat): nat
    requires n <= |paths|
  {
    if n == 0 then 0 else ActiveBefore(paths, n - 1) + if IsActive(paths[n - 1]) then 1 else 0
  }

  predicate Named(paths: seq<Path>, names: seq<Option<string>>, name: string, k: nat)
    requires k < |paths| == |names|
  {
    IsActive(paths[k]) && names[k] == Some(name)
  }

  predicate IsNth(paths: seq<Path>, index: nat, k: nat)
    requires k < |paths|
  {
    IsActive(paths[k]) && ActiveBefore(paths, k) == index
  }

  /** The first active path with the display's name; without one, the active path with the display's number. */
  ghost predicate IsTarget(paths: seq<Path>, names: seq<Option<string>>, name: string, index: nat, found: Option<nat>)
    requires |paths| == |names|
  {
    if exists k :: 0 <= k < |paths| && Named(paths, names, name, k) then
      && found.Some? && found.value < |paths| && Named(paths, names, name, found.value)
      && forall k :: 0 <= k < found.value ==> !Named(paths, names, name, k)
    else if found.Some? then
      found.value < |paths| && IsNth(paths, index, found.value)
    else
      ActiveBefore(paths, |paths|) <= index
  }

  function FirstNamed(paths: seq<Path>, names: seq<Option<string>>, name: string, k: nat): Option<nat>
    requires |paths| == |names| && k <= |paths|
    decreases |paths| - k
  {
    if k == |paths| then None
    else if Named(paths, names, name, k) then Some(k) else FirstNamed(paths, names, name, k + 1)
  }

  function NthActive(paths: seq<Path>, index: nat, k: nat): Option<nat>
    requires k <= |paths|
    decreases |paths| - k
  {
    if k == |paths| then None
    else if IsNth(paths, index, k) then Some(k) else NthActive(paths, index, k + 1)
  }

  function FindTarget(paths: seq<Path>, names: seq<Option<string>>, name: string, index: nat): Option<nat>
    requires |paths| == |names|
  {
    var named := FirstNamed(paths, names, name, 0);
    if named.Some? then named else NthActive(paths, index, 0)
  }

  lemma {:induction false} FirstNamedIs(paths: seq<Path>, names: seq<Option<string>>, name: string, k: nat)
    requires |paths| == |names| && k <= |paths|
    ensures var f := FirstNamed(paths, names, name, k);
      if f.Some? then
        k <= f.value < |paths| && Named(paths, names, name, f.value) &&
        forall j :: k <= j < f.value ==> !Named(paths, names, name, j)
      else forall j :: k <= j < |paths| ==> !Named(paths, names, name, j)
    decreases |paths| - k
  {
    if k < |paths| && !Named(paths, names, name, k) { FirstNamedIs(paths, names, name, k + 1); }
  }

  lemma {:induction false} NthActiveIs(paths: seq<Path>, index: nat, k: nat)
    requires k <= |paths| && ActiveBefore(paths, k) <= index
    ensures var f := NthActive(paths, index, k);
      if f.Some? then f.value < |paths| && IsNth(paths, index, f.value)
      else ActiveBefore(paths, |paths|) <= index
    decreases |paths| - k
  {
    if k < |paths| && !IsNth(paths, index, k) { NthActiveIs(paths, index, k + 1); }
  }

  lemma TargetIsRight(paths: seq<Path>, names: seq<Option<string>>, name: string, index: nat)
    requires |paths| == |names|
    ensures IsTarget(paths, names, name, index, FindTarget(paths, names, name, index))
  {
    FirstNamedIs(paths, names, name, 0);
    NthActiveIs(paths, index, 0);
  }

  lemma {:induction false} ActiveGrows(paths: seq<Path>, j: nat, k: nat)
    requires j <= k <= |paths|
    ensures ActiveBefore(paths, j) <= ActiveBefore(paths, k)
    decreases k
  {
    if j < k { ActiveGrows(paths, j, k - 1); }
  }

  /** The answer is the only one that fits. */
  lemma TargetIsUnique(paths: seq<Path>, names: seq<Option<string>>, name: string, index: nat,
                       a: Option<nat>, b: Option<nat>)
    requires |paths| == |names|
    requires IsTarget(paths, names, name, index, a) && IsTarget(paths, names, name, index, b)
    ensures a == b
  {
    if exists k :: 0 <= k < |paths| && Named(paths, names, name, k) {
    } else if a.Some? && b.Some? {
      if a.value < b.value { ActiveGrows(paths, a.value + 1, b.value); }
      if b.value < a.value { ActiveGrows(paths, b.value + 1, a.value); }
    } else if a.Some? {
      ActiveGrows(paths, a.value + 1, |paths|);
    } else if b.Some? {
      ActiveGrows(paths, b.value + 1, |paths|);
    }
  }

  method FindPath(paths: array<Path>, names: seq<Option<string>>, name: string, index: nat) returns (found: Option<nat>)
    requires paths.Length == |names|
    ensures IsTarget(paths[..], names, name, index, found)
  {
    ghost var ps := paths[..];
    var i := 0;
    while i < paths.Length
      invariant i <= paths.Length
      invariant forall k :: 0 <= k < i ==> !Named(ps, names, name, k)
    {
      if paths[i].flags % 2 == 1 && names[i] == Some(name) {
        assert Named(ps, names, name, i);
        return Some(i);
      }
      i := i + 1;
    }
    var activePathCount := 0;
    i := 0;
    while i < paths.Length
      invariant i <= paths.Length
      invariant activePathCount == ActiveBefore(ps, i) <= index
    {
      if paths[i].flags % 2 == 1 {
        if activePathCount == index {
          return Some(i);
        }
        activePathCount := activePathCount + 1;
      }
      i := i + 1;
    }
    return None;
  }

  // ---- the backup as a value -------------------------------------------------------------------

  datatype State = State(world: World, pending: bool, persistent: Config, original: Config)

  /** One attempt to read a configuration: the buffers may have become too small in between. */
  datatype Read = TooSmall | ReadFailed | Got

  /** At most `attempts` attempts; only buffers that became too small are tried again. */
  function Queried(readings: seq<Read>, current: Config, attempts: nat): Option<Config>
    decreases attempts
  {
    if attempts == 0 || readings == [] then None
    else match readings[0]
      case TooSmall => Queried(readings[1..], current, attempts - 1)
      case ReadFailed => None
      case Got => if current.paths == [] || current.modes == [] then None else Some(current)
  }

  function Saved(s: State, databaseReads: seq<Read>, activeReads: seq<Read>): (State, bool) {
    var persistent := Queried(databaseReads, s.world.database, ATTEMPTS);
    var original := Queried(activeReads, s.world.active, ATTEMPTS);
    if persistent.None? || original.None? then (s, false)
    else (s.(persistent := persistent.value, original := original.value, pending := true), true)
  }

  /**
   `names`: the device name of each path, if it can be read; `applied`: whether the system applies the layout it is
   asked for; `adjusts`: what it then makes of it; `left`: what it leaves otherwise.
   */
  datatype Switch = Switch(
    databaseReads: seq<Read>, activeReads: seq<Read>, read: Read,
    displays: seq<Option<Display>>, names: seq<Option<string>>, applied: bool, adjusts: Config -> Config, left: World)

  /** An applied layout is shown; with the save flag it is also what the system falls back to. */
  function Shown(w: World, c: Config, persist: bool): World {
    World(c, if persist then c else w.database)
  }

  function DisplayIndex(displays: seq<Option<Display>>, uid: int): Option<nat>
    decreases |displays|
  {
    if displays == [] then None
    else if displays[0].Some? && displays[0].value.uid == uid then Some(0)
    else
      var rest := DisplayIndex(displays[1..], uid);
      if rest.Some? then Some(rest.value + 1) else None
  }

  lemma {:induction false} DisplayIndexIs(displays: seq<Option<Display>>, uid: int)
    ensures var f := DisplayIndex(displays, uid);
      if f.Some? then
        f.value < |displays| && displays[f.value].Some? && displays[f.value].value.uid == uid &&
        forall j :: 0 <= j < f.value ==> !(displays[j].Some? && displays[j].value.uid == uid)
      else forall j :: 0 <= j < |displays| ==> !(displays[j].Some? && displays[j].value.uid == uid)
    decreases |displays|
  {
    if displays != [] { DisplayIndexIs(displays[1..], uid); }
  }

  /** The layout a switch asks for. */
  function Target(s: State, uid: int, w: Switch): Option<Config>
    requires |w.names| == |s.world.active.paths|
  {
    DisplayIndexIs(w.displays, uid);
    var index := DisplayIndex(w.displays, uid);
    if !w.read.Got? || index.None? then None
    else
      TargetIsRight(s.world.active.paths, w.names, w.displays[index.value].value.name, index.value);
      var path := FindTarget(s.world.active.paths, w.names, w.displays[index.value].value.name, index.value);
      if path.None? then None else Some(Exclusive(s.world.active, path.value))
  }

  function Switched(s: State, uid: int, w: Switch): (State, bool)
    requires |w.names| == |s.world.active.paths|
  {
    if s.pending then (s, false)
    else
      var (t, saved) := Saved(s, w.databaseReads, w.activeReads);
      var asked := Target(t, uid, w);
      if !saved || asked.None? then (t, false)
      else if !w.applied then (t.(world := w.left), false)
      else (t.(world := Shown(t.world, w.adjusts(asked.value), true)), true)
  }

  /** How the system answers; a refusal may leave anything behind. */
  datatype Code = Success | AccessDenied | OtherError

  datatype Answer = Answer(code: Code, service: Option<bool>, left: World)

  predicate Applied(a: Answer) {
    a.code.Success? || (a.code.AccessDenied? && a.service == Some(true))
  }

  function Restored(s: State, first: Answer, second: Answer): (State, bool) {
    if !s.pending then (s, true)
    else if !Applied(first) then (s.(world := first.left), false)
    else if !Applied(second) then (s.(world := second.left), false)
    else
      var stored := Shown(s.world, s.persistent, true);
      (s.(world := Shown(stored, s.original, false), pending := false, persistent := EMPTY, original := EMPTY), true)
  }

  // ---- runs ------------------------------------------------------------------------------------

  /** `Changed` is anything the user, a game or the system does to the displays in between. */
  datatype Event =
    | SwitchTo(uid: int, switch: Switch)
    | Restore(first: Answer, second: Answer)
    | FullscreenExit
    | Changed(world: World)

  predicate Possible(s: State, e: Event) {
    e.SwitchTo? ==> |e.switch.names| == |s.world.active.paths|
  }

  function Next(s: State, e: Event): State
    requires Possible(s, e)
  {
    match e
    case SwitchTo(uid, switch) => Switched(s, uid, switch).0
    case Restore(first, second) => Restored(s, first, second).0
    case FullscreenExit => s.(world := s.world.(active := s.world.database))
    case Changed(world) => s.(world := world)
  }

  predicate Runs(s: State, es: seq<Event>)
    decreases |es|
  {
    es == [] || (Possible(s, es[0]) && Runs(Next(s, es[0]), es[1..]))
  }

  function After(s: State, es: seq<Event>): State
    requires Runs(s, es)
    decreases |es|
  {
    if es == [] then s else After(Next(s, es[0]), es[1..])
  }

  /** The whole run is spent with a switch pending. */
  predicate PendingThroughout(s: State, es: seq<Event>)
    requires Runs(s, es)
    decreases |es|
  {
    s.pending && (es == [] || PendingThroughout(Next(s, es[0]), es[1..]))
  }

  lemma {:induction false} BackupsStay(s: State, es: seq<Event>)
    requires Runs(s, es) && PendingThroughout(s, es)
    ensures var t := After(s, es); t.pending && t.persistent == s.persistent && t.original == s.original
    decreases |es|
  {
    if es != [] { BackupsStay(Next(s, es[0]), es[1..]); }
  }

  /** Attempt `k` is the first that does not find its buffers too small, and it succeeds. */
  predicate SucceedsAt(readings: seq<Read>, attempts: nat, k: nat) {
    k < |readings| && k < attempts && readings[k].Got? && forall j :: 0 <= j < k ==> readings[j].TooSmall?
  }

  /** A query answers exactly when an attempt in time succeeds on a layout that is not empty, with that layout. */
  lemma {:induction false} QueriedIs(readings: seq<Read>, current: Config, attempts: nat)
    ensures var q := Queried(readings, current, attempts);
      && (q.Some? ==> q.value == current)
      && (q.Some? <==>
            && current.paths != [] && current.modes != []
            && exists k :: 0 <= k < |readings| && SucceedsAt(readings, attempts, k))
    decreases attempts
  {
    if attempts > 0 && readings != [] {
      var rest, left: nat := readings[1..], attempts - 1;
      QueriedIs(rest, current, left);
      if readings[0].TooSmall? {
        if k :| 0 <= k < |rest| && SucceedsAt(rest, left, k) {
          assert forall j :: 0 < j < k + 1 ==> readings[j] == rest[j - 1];
          assert SucceedsAt(readings, attempts, k + 1);
        }
        if k :| 0 <= k < |readings| && SucceedsAt(readings, attempts, k) {
          assert forall j :: 0 <= j < k - 1 ==> rest[j] == readings[j + 1];
          assert SucceedsAt(rest, left, k - 1);
        }
      } else if readings[0].Got? {
        assert SucceedsAt(readings, attempts, 0);
      }
    }
  }

  /** A switch leaves something pending exactly when both layouts could be saved, and then they are the current ones. */
  lemma SwitchSaves(s: State, uid: int, w: Switch)
    requires !s.pending && |w.names| == |s.world.active.paths|
    ensures var (t, ok) := Switched(s, uid, w);
      && (t.pending <==>
            && Queried(w.databaseReads, s.world.database, ATTEMPTS).Some?
            && Queried(w.activeReads, s.world.active, ATTEMPTS).Some?)
      && (t.pending ==> t.persistent == s.world.database && t.original == s.world.active)
      && (ok ==> t.pending) && (!t.pending ==> t == s)
  {
    QueriedIs(w.databaseReads, s.world.database, ATTEMPTS);
    QueriedIs(w.activeReads, s.world.active, ATTEMPTS);
  }

  /** The system takes the layout, at once or, where access is denied, from the service. */
  predicate Accepts(a: Answer) {
    match a.code
    case Success => true
    case AccessDenied => a.service.Some? && a.service.value
    case OtherError => false
  }

  /**
   The round trip: whatever happens after a switch was saved, failed restorations and rejected switches included,
   the next restoration succeeds exactly when the system accepts both layouts.  Then both are as they were before
   the switch; otherwise the switch is still pending and can be restored to the same layouts later.
   */
  lemma RoundTrip(s: State, uid: int, w: Switch, es: seq<Event>, first: Answer, second: Answer)
    requires !s.pending && |w.names| == |s.world.active.paths|
    requires var t := Switched(s, uid, w).0;
      t.pending && Runs(t, es) && PendingThroughout(t, es)
    ensures var (u, ok) := Restored(After(Switched(s, uid, w).0, es), first, second);
      && (ok <==> Accepts(first) && Accepts(second))
      && (if ok then u == State(s.world, false, EMPTY, EMPTY)
          else u.pending && World(u.original, u.persistent) == s.world
               && u.world == if Accepts(first) then second.left else first.left)
  {
    SwitchSaves(s, uid, w);
    BackupsStay(Switched(s, uid, w).0, es);
  }

  /** With nothing pending there is nothing to do, so a second restoration is harmless. */
  lemma NothingToRestore(s: State, first: Answer, second: Answer)
    requires !s.pending
    ensures Restored(s, first, second) == (s, true)
  {
  }

  /** Nothing but games leaving full screen and further switches. */
  predicate OnlyExitsAndSwitches(es: seq<Event>) {
    forall k :: 0 <= k < |es| ==> es[k].FullscreenExit? || es[k].SwitchTo?
  }

  lemma {:induction false} StoredLayoutStays(t: State, es: seq<Event>)
    requires t.pending && t.world.active == t.world.database && Runs(t, es) && OnlyExitsAndSwitches(es)
    ensures After(t, es) == t
    decreases |es|
  {
    if es != [] {
      assert es[0].FullscreenExit? || es[0].SwitchTo?;
      assert Next(t, es[0]) == t;
      StoredLayoutStays(t, es[1..]);
    }
  }

  /** The first display listed with this identifier. */
  predicate FirstListed(displays: seq<Option<Display>>, uid: int, index: nat) {
    && index < |displays| && displays[index].Some? && displays[index].value.uid == uid
    && forall j :: 0 <= j < index ==> !(displays[j].Some? && displays[j].value.uid == uid)
  }

  /** Path `k` is the one of the display asked for. */
  ghost predicate IsMeant(s: State, uid: int, w: Switch, index: nat, k: nat)
    requires |w.names| == |s.world.active.paths|
  {
    && FirstListed(w.displays, uid, index)
    && IsTarget(s.world.active.paths, w.names, w.displays[index].value.name, index, Some(k))
  }

  /**
   A layout is asked for exactly when the configuration could be read and the display asked for has a path; then
   exactly that path is on in it, with its mode at the origin and all else as it was.
   */
  lemma AsksForTheDisplay(s: State, uid: int, w: Switch)
    requires |w.names| == |s.world.active.paths|
    ensures Target(s, uid, w).Some? <==> w.read.Got? && exists index: nat, k: nat :: IsMeant(s, uid, w, index, k)
    ensures forall index: nat, k: nat :: IsMeant(s, uid, w, index, k) && Target(s, uid, w).Some? ==>
      IsExclusive(s.world.active, Target(s, uid, w).value, k) && OnlyOn(Target(s, uid, w).value, k)
  {
    DisplayIndexIs(w.displays, uid);
    var first := DisplayIndex(w.displays, uid);
    forall index: nat, k: nat | IsMeant(s, uid, w, index, k)
      ensures first == Some(index) && (w.read.Got? ==> Target(s, uid, w) == Some(Exclusive(s.world.active, k)))
      ensures IsExclusive(s.world.active, Exclusive(s.world.active, k), k) && OnlyOn(Exclusive(s.world.active, k), k)
    {
      assert first == Some(index);
      MeantIsFound(s.world.active.paths, w.names, w.displays[index].value.name, index, k);
      ExclusiveIsExclusive(s.world.active, k);
    }
    if Target(s, uid, w).Some? {
      var name := w.displays[first.value].value.name;
      TargetIsRight(s.world.active.paths, w.names, name, first.value);
      assert IsMeant(s, uid, w, first.value, FindTarget(s.world.active.paths, w.names, name, first.value).value);
    }
  }

  lemma MeantIsFound(paths: seq<Path>, names: seq<Option<string>>, name: string, index: nat, k: nat)
    requires |paths| == |names| && IsTarget(paths, names, name, index, Some(k))
    ensures FindTarget(paths, names, name, index) == Some(k)
  {
    TargetIsRight(paths, names, name, index);
    TargetIsUnique(paths, names, name, index, Some(k), FindTarget(paths, names, name, index));
  }

  /** A switch succeeds exactly when both layouts could be saved, the display has a path and the system agrees. */
  lemma SwitchDecides(s: State, uid: int, w: Switch)
    requires |w.names| == |s.world.active.paths|
    ensures var (t, ok) := Switched(s, uid, w);
      && (ok <==>
            && !s.pending && w.read.Got? && w.applied && (exists index: nat, k: nat :: IsMeant(s, uid, w, index, k))
            && Queried(w.databaseReads, s.world.database, ATTEMPTS).Some?
            && Queried(w.activeReads, s.world.active, ATTEMPTS).Some?)
      && (ok ==> Target(s, uid, w).Some? && t.world == World(w.adjusts(Target(s, uid, w).value),
                                                              w.adjusts(Target(s, uid, w).value)))
      && (s.pending ==> t == s)
      && (!ok ==> t.world == s.world || (t.world == w.left && !w.applied && t.pending))
      && (!w.applied && Target(s, uid, w).Some? && t.pending && !s.pending ==> t.world == w.left)
  {
    AsksForTheDisplay(s, uid, w);
    if !s.pending { SavedAsksTheSame(s, uid, w); }
  }

  lemma SavedAsksTheSame(s: State, uid: int, w: Switch)
    requires |w.names| == |s.world.active.paths|
    ensures Target(Saved(s, w.databaseReads, w.activeReads).0, uid, w) == Target(s, uid, w)
  {
  }

  /**
   Because the switch is applied with the save flag, the layout it shows survives games leaving full screen, any
   number of times, and further switches; where the system took the layout as asked, exactly the path of the display
   asked for is on.
   */
  lemma ExclusiveSurvivesFullscreen(s: State, uid: int, w: Switch, index: nat, k: nat, es: seq<Event>)
    requires !s.pending && |w.names| == |s.world.active.paths| && Switched(s, uid, w).1
    requires IsMeant(s, uid, w, index, k)
    requires Runs(Switched(s, uid, w).0, es) && OnlyExitsAndSwitches(es)
    ensures After(Switched(s, uid, w).0, es) == Switched(s, uid, w).0
    ensures Target(s, uid, w).Some?
    ensures var asked, now := Target(s, uid, w).value, After(Switched(s, uid, w).0, es).world;
      && now.active == now.database == w.adjusts(asked)
      && (w.adjusts(asked) == asked ==> OnlyOn(now.active, k) && IsExclusive(s.world.active, now.active, k))
  {
    SwitchSaves(s, uid, w);
    SwitchDecides(s, uid, w);
    AsksForTheDisplay(s, uid, w);
    StoredLayoutStays(Switched(s, uid, w).0, es);
  }

  // ---- the controller --------------------------------------------------------------------------

  /** The system's side. */
  class Desktop {
    var active: Config
    var database: Config

    ghost function View(): World
      reads this
    {
      World(active, database)
    }

    constructor (world: World)
      ensures View() == world
    {
      active, database := world.active, world.database;
    }

    method Become(world: World)
      modifies this
      ensures View() == world
    {
      active, database := world.active, world.database;
    }

    /** Shows a layout; `persist` also stores it. */
    method Show(c: Config, persist: bool)
      modifies this
      ensures View() == Shown(old(View()), c, persist)
    {
      active := c;
      if persist {
        database := c;
      }
    }

    /** Asked for a layout it has reported itself, directly or, if access is denied, through the service. */
    method Apply(c: Config, persist: bool, a: Answer) returns (ok: bool)
      modifies this
      ensures ok == Applied(a)
      ensures View() == if !ok then a.left else Shown(old(View()), c, persist)
    {
      ok := a.code.Success?;
      if a.code.AccessDenied? {
        ok := a.service == Some(true);
      }
      if !ok {
        Become(a.left);
        return;
      }
      Show(c, persist);
    }
  }

  class VirtualDisplayControl {
    const desktop: Desktop
    var pending: bool
    var persistent: Config
    var original: Config

    ghost function View(): State
      reads this, desktop
    {
      State(desktop.View(), pending, persistent, original)
    }

    constructor (system: Desktop)
      ensures desktop == system && View() == State(system.View(), false, EMPTY, EMPTY)
    {
      desktop, pending, persistent, original := system, false, EMPTY, EMPTY;
    }

    method Query(readings: seq<Read>, current: Config) returns (c: Option<Config>)
      ensures c == Queried(readings, current, ATTEMPTS)
    {
      var attempt := 0;
      while attempt < ATTEMPTS && attempt < |readings|
        invariant attempt <= ATTEMPTS && attempt <= |readings|
        invariant Queried(readings[attempt..], current, ATTEMPTS - attempt) == Queried(readings, current, ATTEMPTS)
      {
        if readings[attempt].TooSmall? {
          assert readings[attempt..][1..] == readings[attempt + 1..];
          attempt := attempt + 1;
          continue;
        }
        if readings[attempt].ReadFailed? || current.paths == [] || current.modes == [] {
          return None;
        }
        return Some(current);
      }
      return None;
    }

    method SaveDisplayConfiguration(databaseReads: seq<Read>, activeReads: seq<Read>) returns (ok: bool)
      modifies this
      ensures (View(), ok) == Saved(old(View()), databaseReads, activeReads)
    {
      var stored := Query(databaseReads, desktop.database);
      var shown := Query(activeReads, desktop.active);
      if stored.None? || shown.None? {
        return false;
      }
      persistent := stored.value;
      original := shown.value;
      pending := true;
      return true;
    }

    method FindDisplay(displays: seq<Option<Display>>, uid: int) returns (index: Option<nat>)
      ensures index == DisplayIndex(displays, uid)
    {
      DisplayIndexIs(displays, uid);
      var i := 0;
      while i < |displays|
        invariant i <= |displays|
        invariant forall j :: 0 <= j < i ==> !(displays[j].Some? && displays[j].value.uid == uid)
      {
        if displays[i].Some? && displays[i].value.uid == uid {
          return Some(i);
        }
        i := i + 1;
      }
      return None;
    }

    /** The layout to ask for, edited in place in fresh copies of the active one. */
    method Prepare(uid: int, w: Switch) returns (asked: Option<Config>)
      requires |w.names| == |desktop.active.paths|
      ensures asked == Target(View(), uid, w)
    {
      if !w.read.Got? {
        return None;
      }
      var index := FindDisplay(w.displays, uid);
      if index.None? {
        return None;
      }
      DisplayIndexIs(w.displays, uid);
      var current := desktop.active;
      var paths := new Path[|current.paths|](i requires 0 <= i < |current.paths| => current.paths[i]);
      var modes := new Mode[|current.modes|](i requires 0 <= i < |current.modes| => current.modes[i]);
      assert paths[..] == current.paths && modes[..] == current.modes;
      var name := w.displays[index.value].value.name;
      var path := FindPath(paths, w.names, name, index.value);
      TargetIsRight(current.paths, w.names, name, index.value);
      ghost var found := FindTarget(current.paths, w.names, name, index.value);
      TargetIsUnique(current.paths, w.names, name, index.value, path, found);
      if path.None? {
        return None;
      }
      MakeExclusive(paths, modes, path.value);
      return Some(Config(paths[..], modes[..]));
    }

    method SetPrimaryDisplayOnly(uid: int, w: Switch) returns (ok: bool)
      requires |w.names| == |desktop.active.paths|
      modifies this, desktop
      ensures (View(), ok) == Switched(old(View()), uid, w)
    {
      if pending {
        return false;
      }
      var saved := SaveDisplayConfiguration(w.databaseReads, w.activeReads);
      if !saved {
        return false;
      }
      var asked := Prepare(uid, w);
      if asked.None? {
        return false;
      }
      if !w.applied {
        desktop.Become(w.left);
        return false;
      }
      desktop.Show(w.adjusts(asked.value), true);
      return true;
    }

    method RestoreDisplayConfiguration(first: Answer, second: Answer) returns (ok: bool)
      modifies this, desktop
      ensures (View(), ok) == Restored(old(View()), first, second)
    {
      if !pending {
        return true;
      }
      ok := desktop.Apply(persistent, true, first);
      if !ok {
        return;
      }
      ok := desktop.Apply(original, false, second);
      if !ok {
        return;
      }
      pending := false;
      persistent := EMPTY;
      original := EMPTY;
    }
  }
}
