/**
 What the remote host is told by the shortcut capture, in every run: which key events are sent, with what, and
 in what order.  Everything is read off the log of what was emitted, without looking at the router's state.
 */
module ShortcutSends {
  import opened Options
  import opened ShortcutCapture
  import R = ShortcutRouter

  /** Whose session is open: armed and not disarmed since. */
  function Session(log: seq<Entry>): Option<string>
    decreases |log|
  {
    if log == [] then None
    else
      var e := log[|log| - 1].what;
      if e.Armed? then Some(e.owner) else if e.Disarmed? then None else Session(log[..|log| - 1])
  }

  /** The host has the key down: it was sent down in this session and not up since. */
  predicate HostHas(log: seq<Entry>, key: int)
    decreases |log|
  {
    if log == [] then false
    else
      var e := log[|log| - 1].what;
      if e.Armed? || e.Disarmed? then false
      else if e.SentKey? && e.key == key then e.down
      else HostHas(log[..|log| - 1], key)
  }

  /** What was sent about keys, in order. */
  function KeysSent(log: seq<Entry>): seq<Entry>
    decreases |log|
  {
    if log == [] then []
    else
      var n := |log| - 1;
      KeysSent(log[..n]) + if log[n].what.SentKey? then [log[n]] else []
  }

  /** The chords a session takes: Command+Tab with or without Shift, and Control with an arrow. */
  predicate Chord(k: R.Key) {
    var held := ModifiersOf(k.flags);
    || (k.code == 48 && !k.flags.fn
        && held in {Modifiers(true, false, false, false), Modifiers(true, false, true, false)})
    || (k.code in {123, 124, 125, 126} && held == Modifiers(false, true, false, false))
  }

  lemma MatchesIsChord(k: R.Key)
    ensures R.Matches(k.code, k.flags) <==> Chord(k)
  {
  }

  /** The process is trusted, and no password field has the keyboard. */
  predicate Permitted(g: Gate) {
    g.trusted && !g.secure
  }

  /** A session under its lease, with permission and the focus. */
  predicate Live(log: seq<Entry>, now: real, g: Gate) {
    && Session(log).Some? && Lease(log).Some? && now - Lease(log).value < LEASE
    && Permitted(g) && g.focused
  }

  /** The key event goes to the host: a new chord, or the release of a key it has. */
  predicate Hosted(log: seq<Entry>, k: R.Key) {
    k.code in HOST_KEYS &&
    if k.down then !k.repeating && Chord(k) && !HostHas(log, HOST_KEYS[k.code]) else HostHas(log, HOST_KEYS[k.code])
  }

  /** The router and the log agree on what the host has. */
  ghost predicate SendOk(s: State) {
    Agrees(s.router, s.owner, s.log)
  }

  ghost predicate Agrees(r: R.State, owner: Option<string>, log: seq<Entry>) {
    && (r.armed ==> r.tails == {})
    && (forall c :: c in r.pressed ==> c in HOST_KEYS)
    && (forall c :: c in HOST_KEYS ==> (c in r.pressed <==> HostHas(log, HOST_KEYS[c])))
    && Session(log) == (if r.armed then owner else None)
    && Toggling(log)
  }

  predicate Toggles(before: seq<Entry>, e: Effect) {
    e.SentKey? ==>
      && Session(before) == Some(e.owner) && e.key in HOST_KEYS.Values
      && (e.down <==> !HostHas(before, e.key))
  }

  /** Every key that was sent changed on the host, in its owner's session, and is one the host knows. */
  ghost predicate Toggling(log: seq<Entry>) {
    forall j :: 0 <= j < |log| ==> Toggles(log[..j], log[j].what)
  }

  lemma LogAdds(log: seq<Entry>, e: Entry)
    ensures Session(log + [e]) ==
      if e.what.Armed? then Some(e.what.owner) else if e.what.Disarmed? then None else Session(log)
    ensures forall key :: HostHas(log + [e], key) <==>
      if e.what.Armed? || e.what.Disarmed? then false
      else if e.what.SentKey? && e.what.key == key then e.what.down else HostHas(log, key)
    ensures KeysSent(log + [e]) == KeysSent(log) + if e.what.SentKey? then [e] else []
    ensures Toggling(log) && Toggles(log, e.what) ==> Toggling(log + [e])
  {
    assert (log + [e])[..|log|] == log;
    forall j | 0 <= j < |log| ensures (log + [e])[..j] == log[..j] {
    }
  }

  lemma HostKeysDiffer(c: int, d: int)
    requires c in HOST_KEYS && d in HOST_KEYS && HOST_KEYS[c] == HOST_KEYS[d]
    ensures c == d
  {
  }

  // ---- every call keeps it, and only a key event of the tap sends a key ------------------------

  /** The call sends no key. */
  ghost predicate Silent(s: State, t: State) {
    SendOk(t) && KeysSent(t.log) == KeysSent(s.log)
  }

  /** A notice that is neither about keys nor about the session. */
  lemma NoticeSilent(r: R.State, owner: Option<string>, log: seq<Entry>, e: Entry)
    requires Agrees(r, owner, log) && !e.what.SentKey? && !e.what.Armed? && !e.what.Disarmed?
    ensures Agrees(r, owner, log + [e]) && KeysSent(log + [e]) == KeysSent(log)
  {
    LogAdds(log, e);
  }

  lemma DisarmSilent(r: R.State, owner: Option<string>, log: seq<Entry>, e: Entry)
    requires Toggling(log) && e.what.Disarmed? && !r.armed && r.pressed == {}
    ensures Agrees(r, owner, log + [e]) && KeysSent(log + [e]) == KeysSent(log)
  {
    LogAdds(log, e);
  }

  lemma StoppedIs(s: State, now: real, discard: bool)
    requires Halfway(s)
    ensures var t := Stopped(s, now, discard);
      && !t.router.armed && t.router.pressed == {} && t.owner == s.owner
      && t.log == if s.router.armed then s.log + [Entry(now, Disarmed(s.owner.value))] else s.log
  {
  }

  lemma StoppedTap(s: State, now: real, discard: bool)
    requires TapOk(s)
    ensures TapOk(Stopped(s, now, discard))
  {
    SilencedTap(s, now, discard);
  }

  lemma StoppedSilent(s: State, now: real, discard: bool)
    requires SendOk(s) && Halfway(s)
    ensures Silent(s, Stopped(s, now, discard)) && !Stopped(s, now, discard).router.armed
  {
    var t := Stopped(s, now, discard);
    StoppedIs(s, now, discard);
    if s.router.armed { DisarmSilent(t.router, t.owner, s.log, Entry(now, Disarmed(s.owner.value))); }
  }

  lemma ExpiredSilent(s: State, now: real)
    requires SendOk(s) && Inv(s)
    ensures Silent(s, Expired(s, now)) && Inv(Expired(s, now))
  {
    ExpiredKeeps(s, now);
    if s.router.armed && now - s.lastAck >= LEASE { StoppedSilent(s, now, true); }
  }

  lemma HealthSilent(s: State, now: real, g: Gate)
    requires SendOk(s) && Inv(s)
    ensures Silent(s, HealthChecked(s, now, g))
  {
    var t := Expired(s, now);
    var u := TailChecked(t, now);
    ExpiredSilent(s, now);
    TailCheckedKeeps(t, now);
    if t.deadline.Some? && now >= t.deadline.value { StoppedSilent(t, now, true); }
    SurveyedSilent(u, now, g);
  }

  lemma SurveyedSilent(t: State, now: real, g: Gate)
    requires SendOk(t) && TapOk(t)
    ensures Silent(t, Surveyed(t, now, g))
  {
    if !t.router.armed && !R.HasPendingKeys(t.router) {
      assert Surveyed(t, now, g) == t;
    } else if !Permitted(g) || !TapActive(t, g.tapOn) {
      StoppedSilent(t, now, true);
      assert Surveyed(t, now, g) == Stopped(t, now, true);
    } else {
      AskedSilent(t, now);
      assert Surveyed(t, now, g) == Asked(t, now);
    }
  }

  lemma AskedIs(t: State, now: real)
    ensures var u := Asked(t, now);
      && u.router == t.router && u.owner == t.owner
      && (if t.router.armed && t.pending.None? && t.owner.Some?
          then u.log == t.log + [Entry(now, Heartbeat(t.owner.value, t.challenge + 1))] else u.log == t.log)
  {
  }

  lemma AskedSilent(t: State, now: real)
    requires SendOk(t)
    ensures Silent(t, Asked(t, now))
  {
    AskedIs(t, now);
    if t.router.armed && t.pending.None? && t.owner.Some? { HeartbeatSilent(t, Asked(t, now), now); }
  }

  lemma HeartbeatSilent(t: State, u: State, now: real)
    requires SendOk(t) && t.owner.Some? && u.router == t.router && u.owner == t.owner
    requires u.log == t.log + [Entry(now, Heartbeat(t.owner.value, t.challenge + 1))]
    ensures Silent(t, u)
  {
    NoticeSilent(t.router, t.owner, t.log, Entry(now, Heartbeat(t.owner.value, t.challenge + 1)));
  }

  lemma AcknowledgedSilent(s: State, now: real, sender: string, answer: nat)
    requires SendOk(s) && Inv(s)
    ensures Silent(s, Acknowledged(s, now, sender, answer))
  {
    var t := Expired(s, now);
    ExpiredSilent(s, now);
    NoticeSilent(t.router, t.owner, t.log, Entry(now, Accepted(sender, answer)));
  }

  lemma LeaseBegunSilent(s: State, now: real, next: string)
    requires SendOk(s) && !R.HasPendingKeys(s.router) && s.owner == Some(next)
    ensures Silent(s, LeaseBegun(s, now, next))
  {
    LogAdds(s.log, Entry(now, Armed(next)));
  }

  lemma OpenedSilent(s: State, now: real, next: string, a: Arming)
    requires SendOk(s) && Halfway(s) && !R.HasPendingKeys(s.router) && (s.router.armed ==> s.owner == Some(next))
    ensures Silent(s, Opened(s, now, next, a).0)
  {
    var t := s.(owner := Some(next));
    assert SendOk(t);
    if TapActive(t, a.second.tapOn) {
      LeaseBegunSilent(t, now, next);
    } else {
      var u := t.(registered := a.registers);
      if TapActive(u, a.tapOnAfter) { LeaseBegunSilent(u, now, next); } else { StoppedSilent(u, now, true); }
    }
  }

  lemma EnabledSilent(s: State, now: real, next: string, a: Arming)
    requires SendOk(s) && Inv(s)
    ensures Silent(s, Enabled(s, now, next, a).0)
  {
    if !AlreadyArmed(s, next, a.first) {
      if s.owner != Some(next) {
        StoppedSilent(s, now, false);
        StoppedKeeps(s, now, false);
      }
      var t := if s.owner != Some(next) then Stopped(s, now, false) else s;
      var u := t.(router := R.Reconcile(t.router, a.held));
      if !Ready(u, a) { StoppedSilent(u, now, true); } else { OpenedSilent(u, now, next, a); }
    }
  }

  lemma SetSilent(s: State, now: real, next: string, enabled: bool, a: Arming)
    requires SendOk(s) && Inv(s)
    ensures Silent(s, SetTo(s, now, next, enabled, a).0)
  {
    var t := Expired(s, now);
    ExpiredSilent(s, now);
    if enabled { EnabledSilent(t, now, next, a); } else if t.owner == Some(next) { StoppedSilent(t, now, false); }
  }

  /** What one key event adds to what was sent. */
  function Sending(log: seq<Entry>, now: real, k: R.Key, live: bool): seq<Entry> {
    if live && Session(log).Some? && Hosted(log, k)
    then [Entry(now, SentKey(Session(log).value, HostKey(k.code), k.down, ModifiersOf(k.flags)))]
    else []
  }

  /** The router decides to send exactly what the log says the host should get. */
  lemma RouterSends(s: State, k: R.Key)
    requires SendOk(s) && TapOk(s)
    ensures var (r, d) := R.Handled(s.router, k);
      && (d.Send? <==> s.router.armed && Hosted(s.log, k))
      && (d.Send? ==> r.pressed == if k.down then s.router.pressed + {k.code} else s.router.pressed - {k.code})
      && (!d.Send? ==> r.pressed == s.router.pressed)
      && r.armed == s.router.armed && (r.armed ==> r.tails == {})
  {
    MatchesIsChord(k);
  }

  lemma SendAgrees(r: R.State, r': R.State, owner: Option<string>, log: seq<Entry>, k: R.Key, e: Entry)
    requires Agrees(r, owner, log) && r.armed && r'.armed && owner.Some? && r'.tails == {}
    requires k.code in HOST_KEYS && (k.down <==> k.code !in r.pressed)
    requires r'.pressed == if k.down then r.pressed + {k.code} else r.pressed - {k.code}
    requires e.what.SentKey? && e.what.owner == owner.value && e.what.key == HOST_KEYS[k.code] && e.what.down == k.down
    ensures Agrees(r', owner, log + [e]) && KeysSent(log + [e]) == KeysSent(log) + [e]
  {
    assert k.code in HOST_KEYS.Keys && HOST_KEYS[k.code] in HOST_KEYS.Values;
    assert Toggles(log, e.what);
    LogAdds(log, e);
    forall c | c in HOST_KEYS ensures c in r'.pressed <==> HostHas(log + [e], HOST_KEYS[c]) {
      if HOST_KEYS[c] == HOST_KEYS[k.code] { HostKeysDiffer(c, k.code); }
    }
  }

  lemma DrainedSends(s: State)
    ensures Drained(s).log == s.log && Drained(s).router == s.router && Drained(s).owner == s.owner
  {
  }

  lemma RoutedSends(s: State, now: real, k: R.Key)
    requires SendOk(s) && TapOk(s)
    ensures var t := Drained(Routed(s, now, k).0);
      SendOk(t) && KeysSent(t.log) == KeysSent(s.log) + Sending(s.log, now, k, s.router.armed)
  {
    var (r, d) := R.Handled(s.router, k);
    RouterSends(s, k);
    DrainedSends(Routed(s, now, k).0);
    if d.Send? {
      SendAgrees(s.router, r, s.owner, s.log, k,
                 Entry(now, SentKey(s.owner.value, HostKey(k.code), k.down, ModifiersOf(k.flags))));
    }
  }

  lemma TappedSends(s: State, now: real, k: R.Key, g: Gate)
    requires SendOk(s) && Inv(s)
    ensures var t := Tapped(s, now, KeyEvent(k), g).0;
      SendOk(t) && KeysSent(t.log) == KeysSent(s.log) + Sending(s.log, now, k, Live(s.log, now, g))
  {
    var t := Expired(s, now);
    ExpiredSilent(s, now);
    GateSends(t, now, k, g);
    LiveAfterExpiry(s, now, g);
  }

  /** The lease is seen to before the gate is. */
  lemma LiveAfterExpiry(s: State, now: real, g: Gate)
    requires SendOk(s) && Inv(s)
    ensures var t := Expired(s, now);
      if t.router.armed then t == s && (Live(s.log, now, g) <==> Permitted(g) && g.focused) else !Live(s.log, now, g)
  {
  }

  /** Past the expiry check: the gate, the focus, and then the router. */
  lemma GateSends(t: State, now: real, k: R.Key, g: Gate)
    requires SendOk(t) && TapOk(t)
    ensures var e := KeyEvent(k);
      var u := if (t.router.armed || R.HasPendingKeys(t.router)) && !Permitted(g) then Stopped(t, now, true)
               else Admitted(if t.router.armed && !g.focused then Stopped(t, now, false) else t, now, e).0;
      SendOk(u) && KeysSent(u.log) == KeysSent(t.log) +
        Sending(t.log, now, k, t.router.armed && Permitted(g) && g.focused)
  {
    if (t.router.armed || R.HasPendingKeys(t.router)) && !Permitted(g) {
      StoppedSilent(t, now, true);
    } else if t.router.armed && !g.focused {
      UnfocusedSends(t, now, k);
    } else {
      AdmittedSends(t, now, k);
    }
  }

  lemma AdmittedSends(s: State, now: real, k: R.Key)
    requires SendOk(s) && TapOk(s)
    ensures var t := Admitted(s, now, KeyEvent(k)).0;
      SendOk(t) && KeysSent(t.log) == KeysSent(s.log) + Sending(s.log, now, k, s.router.armed)
  {
    RoutedSends(s, now, k);
  }

  lemma UnfocusedSends(t: State, now: real, k: R.Key)
    requires SendOk(t) && TapOk(t) && t.router.armed
    ensures Silent(t, Admitted(Stopped(t, now, false), now, KeyEvent(k)).0)
  {
    StoppedSilent(t, now, false);
    StoppedTap(t, now, false);
    AdmittedSends(Stopped(t, now, false), now, k);
  }

  lemma TappedSilent(s: State, now: real, e: TapEvent, g: Gate)
    requires SendOk(s) && Inv(s) && !e.KeyEvent?
    ensures Silent(s, Tapped(s, now, e, g).0)
  {
    var t := Expired(s, now);
    ExpiredSilent(s, now);
    if e.TapDisabled? || (e.FlagsChanged? && (t.router.armed || R.HasPendingKeys(t.router)) && !Permitted(g)) {
      StoppedSilent(t, now, true);
    } else if e.FlagsChanged? {
      if t.router.armed && !g.focused { StoppedSilent(t, now, false); }
      else if t.router.armed {
        NoticeSilent(t.router, t.owner, t.log, Entry(now, SentFlags(t.owner.value, ModifiersOf(e.flags))));
      }
    }
  }

  lemma NextSends(s: State, e: Event)
    requires SendOk(s) && Inv(s)
    ensures SendOk(Next(s, e))
    ensures KeysSent(Next(s, e).log) == KeysSent(s.log) +
      if e.action.Tap? && e.action.event.KeyEvent?
      then Sending(s.log, e.now, e.action.event.key, Live(s.log, e.now, e.action.gate)) else []
  {
    match e.action
    case Set(next, enabled, arming) => SetSilent(s, e.now, next, enabled, arming);
    case Acknowledge(sender, answer) => AcknowledgedSilent(s, e.now, sender, answer);
    case CheckHealth(g) => HealthSilent(s, e.now, g);
    case Tap(event, g) =>
      if event.KeyEvent? { TappedSends(s, e.now, event.key, g); } else { TappedSilent(s, e.now, event, g); }
    case FocusNotice(g) => if !g.focused && s.router.armed { StoppedSilent(s, e.now, false); }
  }

  lemma {:induction false} RunSends(es: seq<Event>)
    ensures Inv(After(es)) && SendOk(After(es))
    decreases |es|
  {
    if es != [] {
      RunSends(es[..|es| - 1]);
      NextKeeps(After(es[..|es| - 1]), es[|es| - 1]);
      NextSends(After(es[..|es| - 1]), es[|es| - 1]);
    }
  }

  // ---- main results ----------------------------------------------------------------------------

  /** What the host must get for this call. */
  function Due(log: seq<Entry>, e: Event): seq<Entry> {
    if e.action.Tap? && e.action.event.KeyEvent? then
      var k := e.action.event.key;
      if Live(log, e.now, e.action.gate) && Hosted(log, k)
      then [Entry(e.now, SentKey(Session(log).value, HOST_KEYS[k.code], k.down, ModifiersOf(k.flags)))]
      else []
    else []
  }

  /**
   After every run, the next call sends a key exactly if it is a key event of the tap, in a session under its lease,
   with permission and the focus, that begins a chord the host does not have or ends one that it has; what is then
   sent names the session's owner, the host's key, the direction and the modifiers.
   */
  lemma SendsExactly(es: seq<Event>, e: Event)
    ensures KeysSent(After(es + [e]).log) == KeysSent(After(es).log) + Due(After(es).log, e)
  {
    RunSends(es);
    NextSends(After(es), e);
    assert (es + [e])[..|es|] == es;
  }

  /** Neither a change of session nor a send of this key. */
  predicate Quiet(log: seq<Entry>, lo: nat, hi: nat, key: int) {
    && lo <= hi <= |log|
    && forall k :: lo <= k < hi ==>
         !log[k].what.Armed? && !log[k].what.Disarmed? && !(log[k].what.SentKey? && log[k].what.key == key)
  }

  lemma {:induction false} QuietHolds(log: seq<Entry>, lo: nat, hi: nat, key: int)
    requires Quiet(log, lo, hi, key)
    ensures HostHas(log[..hi], key) <==> HostHas(log[..lo], key)
    decreases hi
  {
    if lo < hi {
      assert log[..hi][..hi - 1] == log[..hi - 1];
      QuietHolds(log, lo, hi - 1, key);
    }
  }

  lemma HostHasAfter(log: seq<Entry>, i: nat, key: int)
    requires i < |log|
    ensures log[i].what.Armed? ==> !HostHas(log[..i + 1], key)
    ensures log[i].what.SentKey? && log[i].what.key == key ==> (HostHas(log[..i + 1], key) <==> log[i].what.down)
  {
    assert log[..i + 1][..i] == log[..i] && log[..i + 1][i] == log[i];
  }

  lemma AlternateIn(log: seq<Entry>, i: nat, j: nat, key: int)
    requires i < j < |log| && log[j].what.SentKey? && log[j].what.key == key && Quiet(log, i + 1, j, key)
    requires Toggles(log[..j], log[j].what)
    ensures log[i].what.Armed? ==> log[j].what.down
    ensures log[i].what.SentKey? && log[i].what.key == key ==> log[i].what.down != log[j].what.down
  {
    QuietHolds(log, i + 1, j, key);
    HostHasAfter(log, i, key);
  }

  /** In every session the sends of a key are a down, an up, a down, and so on. */
  lemma SendsAlternate(es: seq<Event>, i: nat, j: nat)
    requires i < j < |After(es).log| && After(es).log[j].what.SentKey?
    requires Quiet(After(es).log, i + 1, j, After(es).log[j].what.key)
    ensures var log, key := After(es).log, After(es).log[j].what.key;
      && (log[i].what.Armed? ==> log[j].what.down)
      && (log[i].what.SentKey? && log[i].what.key == key ==> log[i].what.down != log[j].what.down)
  {
    RunSends(es);
    AlternateIn(After(es).log, i, j, After(es).log[j].what.key);
  }

  /** Whatever is sent names a key of the host, so the look-up of its code cannot fail, and the owner of the session. */
  lemma SentKeysAreKnown(es: seq<Event>, j: nat)
    requires j < |After(es).log| && After(es).log[j].what.SentKey?
    ensures After(es).log[j].what.key in HOST_KEYS.Values
    ensures Session(After(es).log[..j]) == Some(After(es).log[j].what.owner)
  {
    RunSends(es);
    assert Toggles(After(es).log[..j], After(es).log[j].what);
  }

  predicate Disarms(before: seq<Entry>, after: seq<Entry>) {
    before < after && |after| == |before| + 1 && after[|before|].what.Disarmed?
  }

  /** A change of modifiers goes to the host exactly in such a session, and is never taken from the local system. */
  lemma FlagsAreSent(es: seq<Event>, now: real, flags: R.Flags, g: Gate)
    ensures var log, t := After(es).log, Tapped(After(es), now, FlagsChanged(flags), g);
      && !t.1
      && (Live(log, now, g) ==> t.0.log == log + [Entry(now, SentFlags(Session(log).value, ModifiersOf(flags)))])
      && (!Live(log, now, g) ==> t.0.log == log || Disarms(log, t.0.log))
  {
    RunSends(es);
    LiveAfterExpiry(After(es), now, g);
    StoppedIs(After(es), now, true);
    FlagsTapped(Expired(After(es), now), now, flags, g);
  }

  lemma FlagsTapped(t: State, now: real, flags: R.Flags, g: Gate)
    requires TapOk(t)
    ensures var u := if (t.router.armed || R.HasPendingKeys(t.router)) && !Permitted(g) then Stopped(t, now, true)
                     else Admitted(if t.router.armed && !g.focused then Stopped(t, now, false) else t, now,
                                   FlagsChanged(flags)).0;
      && (t.router.armed && Permitted(g) && g.focused ==>
            u.log == t.log + [Entry(now, SentFlags(t.owner.value, ModifiersOf(flags)))])
      && (t.router.armed && !(Permitted(g) && g.focused) ==> u.log == t.log + [Entry(now, Disarmed(t.owner.value))])
      && (!t.router.armed ==> u.log == t.log)
  {
    StoppedIs(t, now, true);
    StoppedIs(t, now, false);
    DrainedSends(Stopped(t, now, false));
  }

  /** A new or continued press of a chord, or its release, is taken exactly in such a session or as an owed release. */
  predicate Taken(s: State, now: real, k: R.Key, g: Gate) {
    if Live(s.log, now, g) then Hosted(s.log, k) || (k.down && k.code in HOST_KEYS && HostHas(s.log, HOST_KEYS[k.code]))
    else Permitted(g) && Owed(s, now, k.code) && !(k.down && !k.repeating)
  }

  /** The release of this key is owed: by an earlier session, or by one that has just lost the focus. */
  predicate Owed(s: State, now: real, code: int) {
    || code in s.router.tails
    || (code in HOST_KEYS && HostHas(s.log, HOST_KEYS[code]) && Lease(s.log).Some? && now - Lease(s.log).value < LEASE)
  }

  lemma TakenExactly(es: seq<Event>, now: real, k: R.Key, g: Gate)
    ensures Tapped(After(es), now, KeyEvent(k), g).1 <==> Taken(After(es), now, k, g)
  {
    RunSends(es);
    MatchesIsChord(k);
  }

  /** The session is open and its lease has not run out. */
  predicate Leasing(s: State, now: real) {
    Session(s.log).Some? && Lease(s.log).Some? && now - Lease(s.log).value < LEASE
  }

  /** The releases owed are those of the keys the host has. */
  ghost predicate OwesTheHost(before: State, after: State) {
    && !after.router.armed && after.router.pressed == {}
    && forall c :: c in after.router.tails <==> c in HOST_KEYS && HostHas(before.log, HOST_KEYS[c])
  }

  /** A session that ends in the ordinary way still takes the releases of the keys it sent down. */
  lemma OrdinaryStopOwesReleases(es: seq<Event>, now: real, g: Gate, a: Arming)
    requires Leasing(After(es), now)
    ensures !g.focused ==> OwesTheHost(After(es), FocusNoticed(After(es), now, g))
    ensures g.focused ==> FocusNoticed(After(es), now, g) == After(es)
    ensures OwesTheHost(After(es), SetTo(After(es), now, Session(After(es).log).value, false, a).0)
  {
    RunSends(es);
    var s := After(es);
    assert Expired(s, now) == s;
    StoppedOwes(s, now);
  }

  lemma StoppedOwes(s: State, now: real)
    requires SendOk(s) && s.router.armed
    ensures OwesTheHost(s, Stopped(s, now, false))
  {
    var t := Stopped(s, now, false);
    assert t.router == R.Stopped(s.router);
    forall c ensures c in t.router.tails <==> c in HOST_KEYS && HostHas(s.log, HOST_KEYS[c]) {
      assert c in t.router.tails <==> c in s.router.pressed;
    }
  }

  /** A session cut short, by an expired lease, a tap that was disabled or a lost permission, owes nothing. */
  lemma HardStopOwesNothing(es: seq<Event>, now: real, e: TapEvent, g: Gate)
    requires e.TapDisabled? || (!e.Unrelated? && !Permitted(g))
    ensures var t := Tapped(After(es), now, e, g); t.0.router == R.INITIAL && !t.0.registered && !t.1
  {
    RunSends(es);
    ExpiredKeeps(After(es), now);
    NothingLeft(Expired(After(es), now), now, e, g);
  }

  lemma NothingLeft(t: State, now: real, e: TapEvent, g: Gate)
    requires TapOk(t) && (e.TapDisabled? || (!e.Unrelated? && !Permitted(g)))
    ensures var u := if e.TapDisabled? then (Stopped(t, now, true), false)
                     else if t.router.armed || R.HasPendingKeys(t.router) then (Stopped(t, now, true), false)
                     else Admitted(t, now, e);
      u.0.router == R.INITIAL && !u.0.registered && !u.1
  {
  }

  // ---- a health check asks, and a capture that is ready arms -----------------------------------

  /** What the log says about the session and its lease. */
  lemma RunFacts(es: seq<Event>)
    ensures var s := After(es);
      && TapOk(s) && Session(s.log) == (if s.router.armed then s.owner else None)
      && Lease(s.log) == (if s.router.armed then Some(s.lastAck) else None)
  {
    RunSends(es);
  }

  /** A check leaves the capture armed exactly under these conditions, and then has asked unless it had already. */
  predicate AsksWhileArmed(s: State, now: real, g: Gate) {
    var t := HealthChecked(s, now, g);
    && (t.router.armed <==> Session(s.log).Some? && Lease(s.log).Some? && now - Lease(s.log).value < LEASE
                            && Permitted(g) && g.tapOn)
    && (t.router.armed && s.pending.None? ==>
          && t.pending == Some(s.challenge + 1)
          && t.log == s.log + [Entry(now, Heartbeat(Session(s.log).value, s.challenge + 1))])
    && (t.router.armed && s.pending.Some? ==> t == s)
  }

  /** A health check that keeps an armed capture asks, once, with a challenge never used before. */
  lemma HealthCheckAsks(es: seq<Event>, now: real, g: Gate)
    ensures AsksWhileArmed(After(es), now, g)
    ensures forall j :: 0 <= j < |After(es).log| && After(es).log[j].what.Heartbeat? ==>
      After(es).log[j].what.challenge < After(es).challenge + 1
  {
    RunFacts(es);
    AskedChecked(After(es), now, g);
    RunSends(es);
  }

  lemma AskedChecked(s: State, now: real, g: Gate)
    requires TapOk(s) && Session(s.log) == (if s.router.armed then s.owner else None)
    requires Lease(s.log) == (if s.router.armed then Some(s.lastAck) else None)
    ensures AsksWhileArmed(s, now, g)
  {
    ArmedChecked(s, now, g);
  }

  lemma ArmedChecked(s: State, now: real, g: Gate)
    requires TapOk(s)
    ensures var t := HealthChecked(s, now, g);
      && (t.router.armed <==> s.router.armed && now - s.lastAck < LEASE && Permitted(g) && g.tapOn)
      && (t.router.armed && s.pending.None? ==>
            && t.pending == Some(s.challenge + 1)
            && t.log == s.log + [Entry(now, Heartbeat(s.owner.value, s.challenge + 1))])
      && (t.router.armed && s.pending.Some? ==> t == s)
  {
    var t := Expired(s, now);
    ExpiryDecides(s, now);
    if s.router.armed && now - s.lastAck < LEASE {
      assert TailChecked(t, now) == s;
    } else {
      StoppedIs(s, now, true);
      if t.deadline.Some? { StoppedIs(t, now, true); }
      SurveyDisarmed(TailChecked(t, now), now, g);
    }
  }

  lemma SurveyDisarmed(t: State, now: real, g: Gate)
    requires TapOk(t) && !t.router.armed
    ensures !Surveyed(t, now, g).router.armed
  {
    StoppedIs(t, now, true);
  }

  /** An answer renews the lease exactly if it is that of the outstanding challenge, from the owner, in time. */
  lemma AcknowledgeRenews(es: seq<Event>, now: real, sender: string, answer: nat)
    ensures var s, t := After(es), Acknowledged(After(es), now, sender, answer);
      var leased := Session(s.log) == Some(sender) && Lease(s.log).Some? && now - Lease(s.log).value < LEASE;
      && (leased && s.pending == Some(answer) ==>
            && t.log == s.log + [Entry(now, Accepted(sender, answer))] && Lease(t.log) == Some(now) && t.pending.None?
            && Session(t.log) == Some(sender))
      && (leased && s.pending != Some(answer) ==> t == s)
  {
    RunFacts(es);
    var s := After(es);
    var e := Entry(now, Accepted(sender, answer));
    LogGrows(s.log, e);
    LogAdds(s.log, e);
  }

  /** The tap works after the call has made sure of it. */
  predicate TapWorks(s: State, next: string, a: Arming) {
    || (s.registered && a.second.tapOn && (s.owner == Some(next) || R.HasPendingKeys(s.router)))
    || (a.registers && a.tapOnAfter)
  }

  /** No key is still to be released once those that are up have been let go. */
  predicate NothingOwed(s: State, next: string, held: set<int>) {
    if s.owner == Some(next) then s.router.pressed == {} && s.router.tails * held == {}
    else (s.router.tails + s.router.pressed) * held == {}
  }

  /** Enabling succeeds exactly when the capture is armed and working, or when the gate is open and the tap works. */
  lemma ReadyArms(es: seq<Event>, now: real, next: string, a: Arming)
    ensures var s := Expired(After(es), now);
      SetTo(After(es), now, next, true, a).1 <==>
        || (s.owner == Some(next) && Session(s.log).Some? && s.registered && a.first.tapOn && a.first.focused
            && Permitted(a.first))
        || (a.second.focused && Permitted(a.second) && a.keysReleased && NothingOwed(s, next, a.held)
            && TapWorks(s, next, a))
  {
    RunSends(es);
    var s := Expired(After(es), now);
    ExpiredSilent(After(es), now);
    if !AlreadyArmed(s, next, a.first) { GateArms(s, now, next, a); }
  }

  lemma GateArms(s: State, now: real, next: string, a: Arming)
    requires TapOk(s) && !AlreadyArmed(s, next, a.first)
    ensures Enabled(s, now, next, a).1 <==>
      a.second.focused && Permitted(a.second) && a.keysReleased && NothingOwed(s, next, a.held) && TapWorks(s, next, a)
  {
    if s.owner != Some(next) { ChangedOwner(s, now, a.held); }
  }

  /** Another owner's keys are let go of, and what is still held of them is owed. */
  lemma ChangedOwner(s: State, now: real, held: set<int>)
    requires TapOk(s)
    ensures var t := Stopped(s, now, false);
      && t.router.pressed == {} && t.router.tails == s.router.tails + s.router.pressed
      && (t.registered <==> s.registered && R.HasPendingKeys(s.router))
  {
  }
}
