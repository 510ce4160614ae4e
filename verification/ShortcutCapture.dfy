/**
 Capturing system shortcuts for a remote host.  A global key tap is a dangerous thing to keep, so it
 lives on a lease that the consumer renews by answering challenges: every call may find the lease
 expired, the gate closed or the tap gone, and then lets the keys go.
 */
module ShortcutCapture {
  import opened Options
  import R = ShortcutRouter

  const LEASE := 2.0
  const TAIL := 2.0

  /** The host's key codes of the keys that can be captured. */
  const HOST_KEYS: map<int, int> := map[48 := 0x09, 123 := 0x25, 124 := 0x27, 125 := 0x28, 126 := 0x26]
  const NO_KEY := -1

  function HostKey(code: int): int {
    if code in HOST_KEYS then HOST_KEYS[code] else NO_KEY
  }

  datatype Modifiers = Modifiers(command: bool, control: bool, shift: bool, option: bool)

  function ModifiersOf(f: R.Flags): Modifiers {
    Modifiers(f.command, f.control, f.shift, f.option)
  }

  datatype Effect =
    | Armed(owner: string)
    | Accepted(owner: string, challenge: nat)
    | Heartbeat(owner: string, challenge: nat)
    | Disarmed(owner: string)
    | SentKey(owner: string, key: int, down: bool, modifiers: Modifiers)
    | SentFlags(owner: string, modifiers: Modifiers)

  datatype Entry = Entry(at: real, what: Effect)

  datatype State = State(
    router: R.State, owner: Option<string>, lastAck: real, challenge: nat, pending: Option<nat>,
    deadline: Option<real>, registered: bool, timer: bool, log: seq<Entry>)

  const INITIAL := State(R.INITIAL, None, 0.0, 0, None, None, false, false, [])

  /** What one look at the system says; `tapOn` counts only while the tap is registered. */
  datatype Gate = Gate(tapOn: bool, focused: bool, secure: bool, trusted: bool)

  /** What arming finds out: the gate twice, the keys still down, and how registering the tap ends. */
  datatype Arming = Arming(first: Gate, second: Gate, held: set<int>, keysReleased: bool,
                           registers: bool, tapOnAfter: bool)

  datatype TapEvent = TapDisabled | Unrelated | FlagsChanged(flags: R.Flags) | KeyEvent(key: R.Key)

  datatype Action =
    | Set(next: string, enabled: bool, arming: Arming)
    | Acknowledge(sender: string, answer: nat)
    | CheckHealth(gate: Gate)
    | Tap(event: TapEvent, gate: Gate)
    | FocusNotice(gate: Gate)

  datatype Event = Event(now: real, action: Action)

  // ---- the calls -------------------------------------------------------------------------------

  function Log(s: State, now: real, e: Effect): State {
    s.(log := s.log + [Entry(now, e)])
  }

  function Closed(s: State): State {
    s.(registered := false, timer := false, pending := None, deadline := None)
  }

  function Stopped(s: State, now: real, discard: bool): State {
    var t := Silenced(s, now, discard);
    if s.router.armed && s.owner.Some? then Log(t, now, Disarmed(s.owner.value)) else t
  }

  /** Disarmed; the tap closes, or gets a deadline if releases are owed. */
  function Silenced(s: State, now: real, discard: bool): State {
    var t := s.(router := if discard then R.INITIAL else R.Stopped(s.router), pending := None);
    if !R.HasPendingKeys(t.router) then Closed(t)
    else if t.deadline.None? then t.(deadline := Some(now + TAIL)) else t
  }

  function Expired(s: State, now: real): State {
    if s.router.armed && now - s.lastAck >= LEASE then Stopped(s, now, true) else s
  }

  predicate Permits(g: Gate) {
    g.trusted && !g.secure
  }

  predicate TapActive(s: State, on: bool) {
    s.registered && on
  }

  function TailChecked(s: State, now: real): State {
    if s.deadline.Some? && now >= s.deadline.value then Stopped(s, now, true) else s
  }

  function HealthChecked(s: State, now: real, g: Gate): State {
    Surveyed(TailChecked(Expired(s, now), now), now, g)
  }

  /** Closes a tap that no longer works; otherwise asks the consumer whether it is still there. */
  function Surveyed(t: State, now: real, g: Gate): State {
    if !t.router.armed && !R.HasPendingKeys(t.router) then t
    else if !Permits(g) || !TapActive(t, g.tapOn) then Stopped(t, now, true)
    else Asked(t, now)
  }

  /** One challenge at a time. */
  function Asked(t: State, now: real): State {
    if !t.router.armed || t.pending.Some? || t.owner.None? then t
    else
      Log(t.(challenge := t.challenge + 1, pending := Some(t.challenge + 1)), now,
          Heartbeat(t.owner.value, t.challenge + 1))
  }

  function Acknowledged(s: State, now: real, sender: string, answer: nat): State {
    var t := Expired(s, now);
    if t.router.armed && t.owner == Some(sender) && t.pending == Some(answer)
    then Log(t.(pending := None, lastAck := now), now, Accepted(sender, answer))
    else t
  }

  predicate Ready(s: State, a: Arming) {
    a.second.focused && Permits(a.second) && !R.HasPendingKeys(s.router) && a.keysReleased
  }

  function LeaseBegun(s: State, now: real, next: string): State {
    Log(s.(router := s.router.(armed := true), deadline := None, lastAck := now, pending := None, timer := true),
        now, Armed(next))
  }

  /** Past the gate: make sure the tap works, then arm. */
  function Opened(s: State, now: real, next: string, a: Arming): (State, bool) {
    var t := s.(owner := Some(next));
    if TapActive(t, a.second.tapOn) then (LeaseBegun(t, now, next), true)
    else
      var u := t.(registered := a.registers);
      if TapActive(u, a.tapOnAfter) then (LeaseBegun(u, now, next), true) else (Stopped(u, now, true), false)
  }

  predicate AlreadyArmed(s: State, next: string, g: Gate) {
    s.owner == Some(next) && s.router.armed && TapActive(s, g.tapOn) && g.focused && Permits(g)
  }

  function Enabled(s: State, now: real, next: string, a: Arming): (State, bool) {
    if AlreadyArmed(s, next, a.first) then (s, true)
    else
      var t := if s.owner != Some(next) then Stopped(s, now, false) else s;
      var u := t.(router := R.Reconcile(t.router, a.held));
      if !Ready(u, a) then (Stopped(u, now, true), false) else Opened(u, now, next, a)
  }

  function SetTo(s: State, now: real, next: string, enabled: bool, a: Arming): (State, bool) {
    var t := Expired(s, now);
    if enabled then Enabled(t, now, next, a)
    else (if t.owner == Some(next) then Stopped(t, now, false) else t, false)
  }

  /** The tap closes as soon as the last captured key has come up. */
  function Drained(s: State): State {
    if !s.router.armed && !R.HasPendingKeys(s.router) && s.deadline.Some? then Closed(s) else s
  }

  function Routed(s: State, now: real, k: R.Key): (State, bool) {
    var (r, d) := R.Handled(s.router, k);
    var t := s.(router := r);
    if d.Pass? then (t, false)
    else if d.Consume? || s.owner.None? then (t, true)
    else (Log(t, now, SentKey(s.owner.value, HostKey(k.code), k.down, ModifiersOf(k.flags))), true)
  }

  function Admitted(s: State, now: real, e: TapEvent): (State, bool) {
    match e
    case TapDisabled => (s, false)
    case Unrelated => (s, false)
    case FlagsChanged(flags) =>
      var sends := s.router.armed && s.owner.Some?;
      (Drained(if sends then Log(s, now, SentFlags(s.owner.value, ModifiersOf(flags))) else s), false)
    case KeyEvent(k) =>
      var (t, captured) := Routed(s, now, k);
      (Drained(t), captured)
  }

  /** The result says whether the event was taken away from the local system. */
  function Tapped(s: State, now: real, e: TapEvent, g: Gate): (State, bool) {
    var t := Expired(s, now);
    if e.TapDisabled? then (Stopped(t, now, true), false)
    else if e.Unrelated? then (t, false)
    else if (t.router.armed || R.HasPendingKeys(t.router)) && !Permits(g) then (Stopped(t, now, true), false)
    else Admitted(if t.router.armed && !g.focused then Stopped(t, now, false) else t, now, e)
  }

  function FocusNoticed(s: State, now: real, g: Gate): State {
    if !g.focused && s.router.armed then Stopped(s, now, false) else s
  }

  function Next(s: State, e: Event): State {
    match e.action
    case Set(next, enabled, arming) => SetTo(s, e.now, next, enabled, arming).0
    case Acknowledge(sender, answer) => Acknowledged(s, e.now, sender, answer)
    case CheckHealth(g) => HealthChecked(s, e.now, g)
    case Tap(event, g) => Tapped(s, e.now, event, g).0
    case FocusNotice(g) => FocusNoticed(s, e.now, g)
  }

  function After(es: seq<Event>): State
    decreases |es|
  {
    if es == [] then INITIAL else Next(After(es[..|es| - 1]), es[|es| - 1])
  }

  // ---- the lease as the log tells it -----------------------------------------------------------

  predicate Renews(e: Effect) {
    e.Armed? || e.Accepted?
  }

  /** When the current lease was last renewed, if there is one. */
  function Lease(log: seq<Entry>): Option<real>
    decreases |log|
  {
    if log == [] then None
    else
      var e := log[|log| - 1];
      if Renews(e.what) then Some(e.at) else if e.what.Disarmed? then None else Lease(log[..|log| - 1])
  }

  predicate Sends(e: Effect) {
    e.SentKey? || e.SentFlags?
  }

  /** Whatever is sent, is sent less than two seconds after the lease was renewed. */
  ghost predicate Leased(log: seq<Entry>) {
    forall j :: 0 <= j < |log| && Sends(log[j].what) ==>
      Lease(log[..j]).Some? && log[j].at - Lease(log[..j]).value < LEASE
  }

  /** The challenge was put to this owner at `i`, and the session has not turned since. */
  predicate AskedAt(log: seq<Entry>, i: nat, j: nat, owner: string, challenge: nat) {
    && i < j <= |log| && log[i].what == Heartbeat(owner, challenge)
    && forall k :: i < k < j ==> !log[k].what.Armed? && !log[k].what.Disarmed?
  }

  ghost predicate ChallengesOk(log: seq<Entry>, last: nat) {
    && (forall j :: 0 <= j < |log| && log[j].what.Heartbeat? ==> log[j].what.challenge <= last)
    && (forall j :: 0 <= j < |log| && log[j].what.Accepted? ==>
          exists i :: AskedAt(log, i, j, log[j].what.owner, log[j].what.challenge))
    && (forall i, j :: 0 <= i < j < |log| && log[i].what.Heartbeat? && log[j].what.Heartbeat? ==>
          log[i].what.challenge < log[j].what.challenge)
    && (forall i, j :: 0 <= i < j < |log| && log[i].what.Accepted? && log[j].what.Accepted? ==>
          log[i].what.challenge < log[j].what.challenge)
  }

  /** The challenge is out, to this owner, and not yet accepted. */
  ghost predicate Outstanding(log: seq<Entry>, owner: string, challenge: nat) {
    && (exists i :: AskedAt(log, i, |log|, owner, challenge))
    && (forall j :: 0 <= j < |log| && log[j].what.Accepted? ==> log[j].what.challenge < challenge)
  }

  /** When the capture was last disarmed. */
  function DisarmedAt(log: seq<Entry>): Option<real>
    decreases |log|
  {
    if log == [] then None
    else
      var e := log[|log| - 1];
      if e.what.Disarmed? then Some(e.at) else DisarmedAt(log[..|log| - 1])
  }

  // ---- invariants ------------------------------------------------------------------------------

  /** The tap's state follows the router's. */
  predicate TapOk(s: State) {
    && R.Inv(s.router)
    && (s.registered <==> s.router.armed || R.HasPendingKeys(s.router))
    && (s.timer <==> s.registered)
    && (s.deadline.Some? <==> !s.router.armed && R.HasPendingKeys(s.router))
    && (s.router.armed ==> s.owner.Some?)
    && (s.pending.Some? ==> s.router.armed)
  }

  ghost predicate LogOk(s: State) {
    && Lease(s.log) == (if s.router.armed then Some(s.lastAck) else None)
    && Leased(s.log)
    && ChallengesOk(s.log, s.challenge)
    && (s.pending.Some? ==> s.owner.Some? && Outstanding(s.log, s.owner.value, s.pending.value))
    && (s.deadline.Some? ==> DisarmedAt(s.log) == Some(s.deadline.value - TAIL))
  }

  ghost predicate Inv(s: State) {
    TapOk(s) && LogOk(s)
  }

  /** In the middle of arming the tap and its bookkeeping may disagree; nothing is lost by that. */
  predicate Halfway(s: State) {
    R.Inv(s.router) && (s.router.armed ==> s.owner.Some?) && (s.pending.Some? ==> s.router.armed)
  }

  lemma LogGrows(log: seq<Entry>, e: Entry)
    ensures Lease(log + [e]) ==
      if Renews(e.what) then Some(e.at) else if e.what.Disarmed? then None else Lease(log)
    ensures Leased(log) && (Sends(e.what) ==> Lease(log).Some? && e.at - Lease(log).value < LEASE)
      ==> Leased(log + [e])
  {
    var l := log + [e];
    assert l[..|log|] == log;
    forall j | 0 <= j < |log| ensures l[..j] == log[..j] {
    }
  }

  lemma DisarmGrows(log: seq<Entry>, e: Entry)
    ensures DisarmedAt(log + [e]) == if e.what.Disarmed? then Some(e.at) else DisarmedAt(log)
  {
    assert (log + [e])[..|log|] == log;
  }

  lemma AskedGrows(log: seq<Entry>, e: Entry)
    requires forall j :: 0 <= j < |log| && log[j].what.Accepted? ==>
               exists i :: AskedAt(log, i, j, log[j].what.owner, log[j].what.challenge)
    ensures forall j :: 0 <= j < |log| && log[j].what.Accepted? ==>
              exists i :: AskedAt(log + [e], i, j, log[j].what.owner, log[j].what.challenge)
  {
    forall j | 0 <= j < |log| && log[j].what.Accepted?
      ensures exists i :: AskedAt(log + [e], i, j, log[j].what.owner, log[j].what.challenge) {
      var i :| AskedAt(log, i, j, log[j].what.owner, log[j].what.challenge);
      assert AskedAt(log + [e], i, j, log[j].what.owner, log[j].what.challenge);
    }
  }

  /** Anything but a heartbeat or an acceptance leaves the challenges alone. */
  lemma ChallengesQuiet(log: seq<Entry>, last: nat, e: Entry)
    requires ChallengesOk(log, last) && !e.what.Heartbeat? && !e.what.Accepted?
    ensures ChallengesOk(log + [e], last)
  {
    AskedGrows(log, e);
  }

  lemma OutstandingQuiet(log: seq<Entry>, owner: string, challenge: nat, e: Entry)
    requires Outstanding(log, owner, challenge) && !e.what.Accepted? && !e.what.Armed? && !e.what.Disarmed?
    ensures Outstanding(log + [e], owner, challenge)
  {
    var i :| AskedAt(log, i, |log|, owner, challenge);
    assert AskedAt(log + [e], i, |log + [e]|, owner, challenge);
  }

  lemma ChallengesIssue(log: seq<Entry>, last: nat, at: real, owner: string)
    requires ChallengesOk(log, last)
    ensures var l := log + [Entry(at, Heartbeat(owner, last + 1))];
      ChallengesOk(l, last + 1) && Outstanding(l, owner, last + 1)
  {
    var e := Entry(at, Heartbeat(owner, last + 1));
    var l := log + [e];
    AskedGrows(log, e);
    assert AskedAt(l, |log|, |l|, owner, last + 1);
    forall j | 0 <= j < |l| && l[j].what.Accepted? ensures l[j].what.challenge <= last {
      var i :| AskedAt(log, i, j, log[j].what.owner, log[j].what.challenge);
    }
  }

  lemma ChallengesAccept(log: seq<Entry>, last: nat, at: real, owner: string, challenge: nat)
    requires ChallengesOk(log, last) && Outstanding(log, owner, challenge)
    ensures ChallengesOk(log + [Entry(at, Accepted(owner, challenge))], last)
  {
    var e := Entry(at, Accepted(owner, challenge));
    AskedGrows(log, e);
    var i :| AskedAt(log, i, |log|, owner, challenge);
    assert AskedAt(log + [e], i, |log|, owner, challenge);
  }

  /** Stopping always ends in a consistent state, whatever it starts from. */
  lemma StoppedKeeps(s: State, now: real, discard: bool)
    requires LogOk(s) && Halfway(s)
    requires discard || TapOk(s)
    ensures Inv(Stopped(s, now, discard)) && !Stopped(s, now, discard).router.armed
  {
    SilencedTap(s, now, discard);
    if s.router.armed { DisarmedLog(s, Silenced(s, now, discard), now); }
  }

  lemma SilencedTap(s: State, now: real, discard: bool)
    requires Halfway(s) && (discard || TapOk(s))
    ensures var t := Silenced(s, now, discard);
      && TapOk(t) && !t.router.armed && t.pending.None?
      && t == s.(router := t.router, pending := None, deadline := t.deadline, registered := t.registered,
                 timer := t.timer)
      && (s.router.armed && t.deadline.Some? ==> t.deadline == Some(now + TAIL))
      && (!s.router.armed && t.deadline.Some? ==> t.deadline == s.deadline)
  {
  }

  lemma DisarmedLog(s: State, t: State, now: real)
    requires LogOk(s) && s.router.armed && s.owner.Some? && !t.router.armed && t.pending.None?
    requires t.log == s.log && t.challenge == s.challenge && (t.deadline.Some? ==> t.deadline == Some(now + TAIL))
    ensures LogOk(Log(t, now, Disarmed(s.owner.value)))
  {
    var e := Entry(now, Disarmed(s.owner.value));
    LogGrows(s.log, e);
    DisarmGrows(s.log, e);
    ChallengesQuiet(s.log, s.challenge, e);
  }

  lemma ExpiredKeeps(s: State, now: real)
    requires Inv(s)
    ensures Inv(Expired(s, now))
    ensures Expired(s, now).router.armed ==> now - Expired(s, now).lastAck < LEASE
  {
    if s.router.armed && now - s.lastAck >= LEASE { StoppedKeeps(s, now, true); }
  }

  lemma TailCheckedKeeps(s: State, now: real)
    requires Inv(s)
    ensures Inv(TailChecked(s, now))
  {
    if s.deadline.Some? && now >= s.deadline.value { StoppedKeeps(s, now, true); }
  }

  lemma HealthKeeps(s: State, now: real, g: Gate)
    requires Inv(s)
    ensures Inv(HealthChecked(s, now, g))
  {
    ExpiredKeeps(s, now);
    TailCheckedKeeps(Expired(s, now), now);
    SurveyedKeeps(TailChecked(Expired(s, now), now), now, g);
  }

  /** An expired lease, a closed gate or a dead tap all end the same way. */
  lemma DiscardKeeps(t: State, now: real)
    requires Inv(t)
    ensures Inv(Stopped(t, now, true)) && !Stopped(t, now, true).registered
  {
    StoppedKeeps(t, now, true);
  }

  lemma SurveyedKeeps(t: State, now: real, g: Gate)
    requires Inv(t)
    ensures Inv(Surveyed(t, now, g))
  {
    if !t.router.armed && !R.HasPendingKeys(t.router) {
      assert Surveyed(t, now, g) == t;
    } else if !Permits(g) || !TapActive(t, g.tapOn) {
      DiscardKeeps(t, now);
      assert Surveyed(t, now, g) == Stopped(t, now, true);
    } else {
      AskedKeeps(t, now);
      assert Surveyed(t, now, g) == Asked(t, now);
    }
  }

  lemma AskedKeeps(t: State, now: real)
    requires Inv(t)
    ensures Inv(Asked(t, now)) && Asked(t, now).registered == t.registered
  {
    if !t.router.armed || t.pending.Some? { AskedQuiet(t, now); }
    else {
      AskedAloud(t, now);
      ChallengeKeeps(t, now);
    }
  }

  lemma AskedQuiet(t: State, now: real)
    requires !t.router.armed || t.pending.Some?
    ensures Asked(t, now) == t
  {
  }

  lemma AskedAloud(t: State, now: real)
    requires TapOk(t) && t.router.armed && t.pending.None?
    ensures Asked(t, now) == Log(t.(challenge := t.challenge + 1, pending := Some(t.challenge + 1)), now,
                                 Heartbeat(t.owner.value, t.challenge + 1))
    ensures Asked(t, now).registered == t.registered
  {
  }

  lemma ChallengeKeeps(t: State, now: real)
    requires Inv(t) && t.router.armed
    ensures Inv(Log(t.(challenge := t.challenge + 1, pending := Some(t.challenge + 1)), now,
                    Heartbeat(t.owner.value, t.challenge + 1)))
  {
    LogGrows(t.log, Entry(now, Heartbeat(t.owner.value, t.challenge + 1)));
    DisarmGrows(t.log, Entry(now, Heartbeat(t.owner.value, t.challenge + 1)));
    ChallengesIssue(t.log, t.challenge, now, t.owner.value);
  }

  lemma AcknowledgeKeeps(s: State, now: real, sender: string, answer: nat)
    requires Inv(s)
    ensures Inv(Acknowledged(s, now, sender, answer))
  {
    ExpiredKeeps(s, now);
    var t := Expired(s, now);
    if t.router.armed && t.owner == Some(sender) && t.pending == Some(answer) {
      LogGrows(t.log, Entry(now, Accepted(sender, answer)));
      DisarmGrows(t.log, Entry(now, Accepted(sender, answer)));
      ChallengesAccept(t.log, t.challenge, now, sender, answer);
    }
  }

  lemma ArmedKeeps(s: State, now: real, next: string)
    requires LogOk(s) && Halfway(s) && s.registered && s.owner == Some(next) && !R.HasPendingKeys(s.router)
    ensures Inv(LeaseBegun(s, now, next))
  {
    LogGrows(s.log, Entry(now, Armed(next)));
    ChallengesQuiet(s.log, s.challenge, Entry(now, Armed(next)));
  }

  lemma OpenedKeeps(s: State, now: real, next: string, a: Arming)
    requires LogOk(s) && Halfway(s) && !R.HasPendingKeys(s.router) && (s.router.armed ==> s.owner == Some(next))
    ensures Inv(Opened(s, now, next, a).0)
  {
    var t := s.(owner := Some(next));
    assert LogOk(t) && Halfway(t);
    if TapActive(t, a.second.tapOn) { ArmedKeeps(t, now, next); }
    else {
      var u := t.(registered := a.registers);
      if TapActive(u, a.tapOnAfter) { ArmedKeeps(u, now, next); } else { StoppedKeeps(u, now, true); }
    }
  }

  lemma EnabledKeeps(s: State, now: real, next: string, a: Arming)
    requires Inv(s)
    ensures Inv(Enabled(s, now, next, a).0)
  {
    if !AlreadyArmed(s, next, a.first) {
      if s.owner != Some(next) { StoppedKeeps(s, now, false); }
      var t := if s.owner != Some(next) then Stopped(s, now, false) else s;
      ReconcileKeeps(t, a.held);
      var u := t.(router := R.Reconcile(t.router, a.held));
      if !Ready(u, a) { StoppedKeeps(u, now, true); } else { OpenedKeeps(u, now, next, a); }
    }
  }

  lemma ReconcileKeeps(t: State, held: set<int>)
    requires Inv(t)
    ensures var u := t.(router := R.Reconcile(t.router, held)); LogOk(u) && Halfway(u)
  {
  }

  lemma SetKeeps(s: State, now: real, next: string, enabled: bool, a: Arming)
    requires Inv(s)
    ensures Inv(SetTo(s, now, next, enabled, a).0)
  {
    ExpiredKeeps(s, now);
    var t := Expired(s, now);
    if enabled { EnabledKeeps(t, now, next, a); } else if t.owner == Some(next) { StoppedKeeps(t, now, false); }
  }

  lemma SendKeeps(s: State, now: real, e: Effect)
    requires LogOk(s) && s.router.armed && Sends(e) && now - s.lastAck < LEASE
    ensures LogOk(Log(s, now, e))
  {
    SendLeased(s.log, s.lastAck, Entry(now, e));
    DisarmGrows(s.log, Entry(now, e));
    ChallengesQuiet(s.log, s.challenge, Entry(now, e));
    if s.pending.Some? { OutstandingQuiet(s.log, s.owner.value, s.pending.value, Entry(now, e)); }
  }

  lemma SendLeased(log: seq<Entry>, lastAck: real, e: Entry)
    requires Leased(log) && Lease(log) == Some(lastAck) && Sends(e.what) && e.at - lastAck < LEASE
    ensures Leased(log + [e]) && Lease(log + [e]) == Some(lastAck)
  {
    LogGrows(log, e);
  }

  lemma RoutedKeeps(s: State, now: real, k: R.Key)
    requires Inv(s) && (s.router.armed ==> now - s.lastAck < LEASE)
    ensures Inv(Drained(Routed(s, now, k).0))
  {
    R.NextKeeps(s.router, R.Press(k));
    var (r, d) := R.Handled(s.router, k);
    var t := s.(router := r);
    assert LogOk(t) && r.armed == s.router.armed;
    if d.Send? {
      assert s.router.armed;
      SendKeeps(t, now, SentKey(s.owner.value, HostKey(k.code), k.down, ModifiersOf(k.flags)));
    }
  }

  lemma TappedKeeps(s: State, now: real, e: TapEvent, g: Gate)
    requires Inv(s)
    ensures Inv(Tapped(s, now, e, g).0)
  {
    ExpiredKeeps(s, now);
    var t := Expired(s, now);
    if e.TapDisabled? || ((t.router.armed || R.HasPendingKeys(t.router)) && !Permits(g)) { StoppedKeeps(t, now, true); }
    else {
      if t.router.armed && !g.focused { StoppedKeeps(t, now, false); }
      var u := if t.router.armed && !g.focused then Stopped(t, now, false) else t;
      if e.FlagsChanged? && u.router.armed { SendKeeps(u, now, SentFlags(u.owner.value, ModifiersOf(e.flags))); }
      if e.KeyEvent? { RoutedKeeps(u, now, e.key); }
    }
  }

  lemma NextKeeps(s: State, e: Event)
    requires Inv(s)
    ensures Inv(Next(s, e))
  {
    match e.action
    case Set(next, enabled, arming) => SetKeeps(s, e.now, next, enabled, arming);
    case Acknowledge(sender, answer) => AcknowledgeKeeps(s, e.now, sender, answer);
    case CheckHealth(g) => HealthKeeps(s, e.now, g);
    case Tap(event, g) => TappedKeeps(s, e.now, event, g);
    case FocusNotice(g) => if !g.focused && s.router.armed { StoppedKeeps(s, e.now, false); }
  }

  lemma {:induction false} RunKeeps(es: seq<Event>)
    ensures Inv(After(es))
    decreases |es|
  {
    if es != [] {
      RunKeeps(es[..|es| - 1]);
      NextKeeps(After(es[..|es| - 1]), es[|es| - 1]);
    }
  }

  // ---- main results ----------------------------------------------------------------------------

  predicate Bounded(s: State) {
    && (s.registered <==> s.router.armed || s.router.tails != {})
    && (s.router.pressed != {} ==> s.router.armed)
    && ((s.registered && !s.router.armed) <==> s.deadline.Some?)
    && (s.deadline.Some? ==> DisarmedAt(s.log) == Some(s.deadline.value - TAIL))
    && (s.timer <==> s.registered)
  }

  lemma InvBounds(s: State)
    requires Inv(s)
    ensures Bounded(s)
  {
  }

  /**
   After every call the tap is registered exactly while the capture is armed or still owes releases; in
   the second case it has a deadline, two seconds after the disarming and never moved by later stops.
   */
  lemma TapIsBounded(es: seq<Event>)
    ensures Bounded(After(es))
  {
    RunKeeps(es);
    InvBounds(After(es));
  }

  lemma SurveyDecides(t: State, now: real, g: Gate)
    requires TapOk(t)
    ensures Surveyed(t, now, g).registered <==> t.registered && Permits(g) && g.tapOn
  {
  }

  lemma ExpiryDecides(s: State, now: real)
    requires TapOk(s)
    ensures var t := Expired(s, now);
      && TapOk(t) && (t.registered ==> t == s)
      && (t.registered <==> s.registered && (s.router.armed ==> now - s.lastAck < LEASE))
  {
    SilencedTap(s, now, true);
  }

  lemma TailDecides(s: State, now: real)
    requires TapOk(s)
    ensures var t := TailChecked(s, now);
      && TapOk(t) && (t.registered ==> t == s)
      && (t.registered <==> s.registered && (s.deadline.Some? ==> now < s.deadline.value))
  {
    SilencedTap(s, now, true);
  }

  /** A health check keeps the tap exactly while the lease, the tail time and the permissions last. */
  lemma HealthCheckDecides(s: State, now: real, g: Gate)
    requires Inv(s)
    ensures HealthChecked(s, now, g).registered <==>
      && s.registered && Permits(g) && g.tapOn
      && (s.router.armed ==> now - s.lastAck < LEASE)
      && (s.deadline.Some? ==> now < s.deadline.value)
  {
    var t := Expired(s, now);
    ExpiryDecides(s, now);
    TailDecides(t, now);
    SurveyDecides(TailChecked(t, now), now, g);
  }

  /** Everything sent to the host was sent under a lease renewed less than two seconds before. */
  lemma SentUnderLease(es: seq<Event>, j: nat)
    requires j < |After(es).log| && Sends(After(es).log[j].what)
    ensures Lease(After(es).log[..j]).Some?
    ensures After(es).log[j].at - Lease(After(es).log[..j]).value < LEASE
  {
    RunKeeps(es);
  }

  /**
   A key event is taken from the local system only while the system permits it: by an armed capture only under
   such a lease, and by a disarmed one only as a repeat or the release of a key captured before.
   */
  lemma CapturedUnderLease(es: seq<Event>, now: real, k: R.Key, g: Gate)
    requires Tapped(After(es), now, KeyEvent(k), g).1
    ensures var s := After(es);
      && Permits(g)
      && (if s.router.armed then
            && Lease(s.log).Some? && now - Lease(s.log).value < LEASE
            && (g.focused || R.Captured(s.router, k.code))
          else k.code in s.router.tails && !(k.down && !k.repeating))
  {
    RunKeeps(es);
    CaptureIsLeased(After(es), now, k, g);
  }

  lemma CaptureIsLeased(s: State, now: real, k: R.Key, g: Gate)
    requires Inv(s) && Tapped(s, now, KeyEvent(k), g).1
    ensures Permits(g)
    ensures s.router.armed ==> now - s.lastAck < LEASE && (g.focused || R.Captured(s.router, k.code))
    ensures !s.router.armed ==> k.code in s.router.tails && !(k.down && !k.repeating)
  {
    ExpiredKeeps(s, now);
  }

  /** No challenge is ever accepted twice, and only from the owner it was put to, in the same session. */
  lemma ChallengeAcceptedOnce(es: seq<Event>, j: nat)
    requires j < |After(es).log| && After(es).log[j].what.Accepted?
    ensures var log := After(es).log;
      && (exists i :: AskedAt(log, i, j, log[j].what.owner, log[j].what.challenge))
      && (forall k :: 0 <= k < |log| && k != j && log[k].what.Accepted? ==>
            log[k].what.challenge != log[j].what.challenge)
  {
    RunKeeps(es);
  }

  lemma EnabledAnswers(s: State, now: real, next: string, a: Arming)
    requires TapOk(s)
    ensures var (t, ok) := Enabled(s, now, next, a);
      (ok <==> t.router.armed) && (ok ==> t.owner == Some(next) && t.registered)
  {
  }

  /** Enabling answers true exactly when it leaves the capture armed, and then for the owner that asked. */
  lemma SetAnswers(s: State, now: real, next: string, enabled: bool, a: Arming)
    requires Inv(s)
    ensures var (t, ok) := SetTo(s, now, next, enabled, a);
      && (ok <==> enabled && t.router.armed)
      && (ok ==> t.owner == Some(next) && t.registered)
      && (!enabled && s.owner == Some(next) ==> !t.router.armed)
      && (!enabled && s.owner != Some(next) ==> t == Expired(s, now))
  {
    ExpiredKeeps(s, now);
    if enabled { EnabledAnswers(Expired(s, now), now, next, a); }
  }

  // ---- the capture object ----------------------------------------------------------------------

  class Capture {
    const router: R.Router
    var owner: Option<string>
    var lastAck: real
    var challenge: nat
    var pending: Option<nat>
    var deadline: Option<real>
    var registered: bool
    var timer: bool
    ghost var log: seq<Entry>

    ghost function View(): State
      reads this, router
    {
      State(router.View(), owner, lastAck, challenge, pending, deadline, registered, timer, log)
    }

    constructor ()
      ensures View() == INITIAL && fresh(router)
    {
      router := new R.Router();
      owner, lastAck, challenge, pending, deadline := None, 0.0, 0, None, None;
      registered, timer, log := false, false, [];
    }

    ghost method Record(now: real, e: Effect)
      modifies this`log
      ensures log == old(log) + [Entry(now, e)]
    {
      log := log + [Entry(now, e)];
    }

    method CloseTap()
      modifies this`registered, this`timer, this`pending, this`deadline
      ensures View() == Closed(old(View()))
    {
      registered := false;
      timer := false;
      pending := None;
      deadline := None;
    }

    method Stop(now: real, discard: bool)
      modifies this, router
      ensures View() == Stopped(old(View()), now, discard)
    {
      var wasArmed := router.armed;
      router.Stop();
      pending := None;
      if discard {
        router.Reset();
      }
      if !router.Pending() {
        CloseTap();
      } else if deadline.None? {
        deadline := Some(now + TAIL);
      }
      if wasArmed && owner.Some? {
        Record(now, Disarmed(owner.value));
      }
    }

    method ExpireIfNeeded(now: real)
      modifies this, router
      ensures View() == Expired(old(View()), now)
    {
      if router.armed && now - lastAck >= LEASE {
        Stop(now, true);
      }
    }

    method OnHealthTimer(now: real, g: Gate)
      modifies this, router
      ensures View() == HealthChecked(old(View()), now, g)
    {
      ExpireIfNeeded(now);
      if deadline.Some? && now >= deadline.value {
        Stop(now, true);
      }
      if !router.armed && !router.Pending() {
        return;
      }
      if !Permits(g) || !(registered && g.tapOn) {
        Stop(now, true);
        return;
      }
      if !router.armed || pending.Some? || owner.None? {
        return;
      }
      challenge := challenge + 1;
      pending := Some(challenge);
      Record(now, Heartbeat(owner.value, challenge));
    }

    method OnAcknowledge(now: real, sender: string, answer: nat)
      modifies this, router
      ensures View() == Acknowledged(old(View()), now, sender, answer)
    {
      ExpireIfNeeded(now);
      if !router.armed || owner != Some(sender) || pending != Some(answer) {
        return;
      }
      pending := None;
      lastAck := now;
      Record(now, Accepted(sender, answer));
    }

    method StartHealthCheck(now: real, next: string)
      modifies this, router
      ensures View() == LeaseBegun(old(View()), now, next)
    {
      router.armed := true;
      deadline := None;
      lastAck := now;
      pending := None;
      timer := true;
      Record(now, Armed(next));
    }

    method SetEnabled(now: real, next: string, enabled: bool, a: Arming) returns (ok: bool)
      modifies this, router
      ensures (View(), ok) == SetTo(old(View()), now, next, enabled, a)
    {
      ExpireIfNeeded(now);
      if !enabled {
        if owner == Some(next) {
          Stop(now, false);
        }
        return false;
      }
      if owner == Some(next) && router.armed && registered && a.first.tapOn && a.first.focused && Permits(a.first) {
        return true;
      }
      if owner != Some(next) {
        Stop(now, false);
      }
      router.ReconcileReleasedKeys(a.held);
      if !a.second.focused || !Permits(a.second) || router.Pending() || !a.keysReleased {
        Stop(now, true);
        return false;
      }
      ok := Open(now, next, a);
    }

    method Open(now: real, next: string, a: Arming) returns (ok: bool)
      modifies this, router
      ensures (View(), ok) == Opened(old(View()), now, next, a)
    {
      owner := Some(next);
      if !(registered && a.second.tapOn) {
        registered := a.registers;
        if !registered || !a.tapOnAfter {
          Stop(now, true);
          return false;
        }
      }
      StartHealthCheck(now, next);
      return true;
    }

    method OnTap(now: real, e: TapEvent, g: Gate) returns (captured: bool)
      modifies this, router
      ensures (View(), captured) == Tapped(old(View()), now, e, g)
    {
      ExpireIfNeeded(now);
      if e.TapDisabled? {
        Stop(now, true);
        return false;
      }
      if e.Unrelated? {
        return false;
      }
      if (router.armed || router.Pending()) && !Permits(g) {
        Stop(now, true);
        return false;
      }
      if router.armed && !g.focused {
        Stop(now, false);
      }
      captured := Admit(now, e);
    }

    method Admit(now: real, e: TapEvent) returns (captured: bool)
      modifies this, router
      ensures (View(), captured) == Admitted(old(View()), now, e)
    {
      captured := false;
      if e.FlagsChanged? {
        if router.armed && owner.Some? {
          Record(now, SentFlags(owner.value, ModifiersOf(e.flags)));
        }
      } else if e.KeyEvent? {
        var decision := router.Handle(e.key);
        captured := !decision.Pass?;
        if decision.Send? && owner.Some? {
          Record(now, SentKey(owner.value, HostKey(e.key.code), e.key.down, ModifiersOf(e.key.flags)));
        }
      }
      if (e.FlagsChanged? || e.KeyEvent?) && !router.armed && !router.Pending() && deadline.Some? {
        CloseTap();
      }
    }

    method OnFocusNotice(now: real, g: Gate)
      modifies this, router
      ensures View() == FocusNoticed(old(View()), now, g)
    {
      if !g.focused && router.armed {
        Stop(now, false);
      }
    }
  }
}
