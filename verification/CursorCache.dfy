/**
 Cursor updates to many subscribers.  Each subscriber is sent an image once and a hash afterwards; it shows
 the same cursor as if it were sent the image every time.
 */
module CursorCache {
  import opened Options

  /** A cursor's pixels and hot spot, as far as anybody compares them. */
  datatype Picture = Picture(width: nat, height: nat, content: nat)

  /** What an image message carries. */
  datatype Frame = Frame(picture: Picture, systemId: nat, ratio: real)

  type Hasher = Frame -> nat

  datatype Message = Default(systemId: nat) | Image(hash: nat, frame: Frame) | Cached(hash: nat)

  /** One subscriber; `sent` is what it was sent since its hook started. */
  datatype Sub = Sub(hookAll: bool, ratio: real, cache: set<nat>, sent: seq<Message>)

  datatype State = State(subs: map<int, Sub>, last: nat)

  const INITIAL := State(map[], 0)

  /**
   The current cursor: its handle, its system identifier or 0, and its picture.  `drawn` is false when the
   picture could not be made; it is then blank.
   */
  datatype Cursor = Cursor(handle: nat, systemId: nat, picture: Picture, drawn: bool)

  datatype Event =
    | Start(id: int, hookAll: bool, ratio: real, cursor: Option<Cursor>)
    | End(id: int)
    | Sync(cursor: Option<Cursor>)

  function Clamped(ratio: real): real {
    if ratio < 0.25 then 0.25 else if ratio > 8.0 then 8.0 else ratio
  }

  /** `caching` is false for the reference server, which sends the image every time. */
  function Sent(h: Hasher, caching: bool, s: Sub, f: Frame): Sub {
    if caching && h(f) in s.cache then s.(sent := s.sent + [Cached(h(f))])
    else s.(cache := s.cache + {h(f)}, sent := s.sent + [Image(h(f), f)])
  }

  function Updated(h: Hasher, caching: bool, s: Sub, c: Cursor): Sub {
    if c.systemId != 0 && !s.hookAll then s.(sent := s.sent + [Default(c.systemId)])
    else Sent(h, caching, s, Frame(c.picture, c.systemId, s.ratio))
  }

  /** A new subscriber is told the current cursor at once, with the ratio it asked for. */
  function Seeded(h: Hasher, hookAll: bool, ratio: real, cursor: Option<Cursor>): Sub {
    var s := Sub(hookAll, Clamped(ratio), {}, []);
    if cursor.None? then s
    else
      var c := cursor.value;
      if !hookAll && c.systemId != 0 then s.(sent := [Default(c.systemId)])
      else if c.drawn && c.picture.width > 0 && c.picture.height > 0 then
        var f := Frame(c.picture, c.systemId, ratio);
        s.(cache := {h(f)}, sent := [Image(h(f), f)])
      else s
  }

  function Synced(h: Hasher, caching: bool, s: State, cursor: Option<Cursor>): State {
    if s.subs == map[] || cursor.None? || cursor.value.handle == s.last then s
    else State(map id | id in s.subs :: Updated(h, caching, s.subs[id], cursor.value), cursor.value.handle)
  }

  function Next(h: Hasher, caching: bool, s: State, e: Event): State {
    match e
    case Start(id, hookAll, ratio, cursor) => s.(subs := s.subs[id := Seeded(h, hookAll, ratio, cursor)])
    case End(id) => s.(subs := s.subs - {id})
    case Sync(cursor) => Synced(h, caching, s, cursor)
  }

  function After(h: Hasher, caching: bool, es: seq<Event>): State
    decreases |es|
  {
    if es == [] then INITIAL else Next(h, caching, After(h, caching, es[..|es| - 1]), es[|es| - 1])
  }

  // ---- the subscriber --------------------------------------------------------------------------

  datatype Shown = Nothing | System(id: nat) | Drawing(frame: Frame) | Unknown(hash: nat)

  datatype Client = Client(store: map<nat, Frame>, shown: Shown)

  function Receive(c: Client, m: Message): Client {
    match m
    case Default(id) => c.(shown := System(id))
    case Image(hash, frame) => Client(c.store[hash := frame], Drawing(frame))
    case Cached(hash) => c.(shown := if hash in c.store then Drawing(c.store[hash]) else Unknown(hash))
  }

  function Play(c: Client, ms: seq<Message>): Client
    decreases |ms|
  {
    if ms == [] then c else Receive(Play(c, ms[..|ms| - 1]), ms[|ms| - 1])
  }

  /** Images with the same hash are the same image. */
  ghost predicate NoCollision(ms: seq<Message>) {
    forall i, j :: 0 <= i < |ms| && 0 <= j < |ms| && ms[i].Image? && ms[j].Image? && ms[i].hash == ms[j].hash
      ==> ms[i] == ms[j]
  }

  // ---- beginning and ending --------------------------------------------------------------------

  /** What a new subscriber shows, told the current cursor if there is one that can be shown. */
  function FirstShown(client: Client, hookAll: bool, ratio: real, cursor: Option<Cursor>): Shown {
    if cursor.None? then client.shown
    else if cursor.value.systemId != 0 && !hookAll then System(cursor.value.systemId)
    else if cursor.value.drawn && cursor.value.picture.width != 0 && cursor.value.picture.height != 0
    then Drawing(Frame(cursor.value.picture, cursor.value.systemId, ratio))
    else client.shown
  }

  /** A new subscriber shows the current cursor at once, whatever it showed before; nobody else notices. */
  lemma StartShows(h: Hasher, es: seq<Event>, id: int, hookAll: bool, ratio: real, cursor: Option<Cursor>,
      client: Client)
    ensures var s := After(h, true, es);
      var t := After(h, true, es + [Start(id, hookAll, ratio, cursor)]);
      && t.subs.Keys == s.subs.Keys + {id} && t.last == s.last
      && (forall k :: k in s.subs && k != id ==> t.subs[k] == s.subs[k])
      && t.subs[id].hookAll == hookAll
      && Play(client, t.subs[id].sent).shown == FirstShown(client, hookAll, ratio, cursor)
  {
    var e := Start(id, hookAll, ratio, cursor);
    assert (es + [e])[..|es|] == es;
    var sub := Seeded(h, hookAll, ratio, cursor);
    if sub.sent != [] { assert sub.sent[..0] == []; }
  }

  /** The ratio used from then on is the one asked for, kept between a quarter and eight. */
  lemma RatioIsKeptInRange(h: Hasher, hookAll: bool, ratio: real, cursor: Option<Cursor>)
    ensures var used := Seeded(h, hookAll, ratio, cursor).ratio;
      && 0.25 <= used <= 8.0
      && (0.25 <= ratio <= 8.0 ==> used == ratio) && (ratio < 0.25 ==> used == 0.25) && (ratio > 8.0 ==> used == 8.0)
  {
  }

  /** A subscriber that ends is forgotten, and nobody else notices. */
  lemma EndForgets(h: Hasher, es: seq<Event>, id: int)
    ensures var s, t := After(h, true, es), After(h, true, es + [End(id)]);
      && t.subs.Keys == s.subs.Keys - {id} && t.last == s.last
      && forall k :: k in t.subs ==> t.subs[k] == s.subs[k]
  {
    assert (es + [End(id)])[..|es|] == es;
  }

  /** With nobody hooked, or without a cursor, a sync is not even remembered. */
  lemma UnseenSync(h: Hasher, es: seq<Event>, cursor: Option<Cursor>)
    requires After(h, true, es).subs == map[] || cursor.None?
    ensures After(h, true, es + [Sync(cursor)]) == After(h, true, es)
  {
    assert (es + [Sync(cursor)])[..|es|] == es;
  }

  // ---- invariants ------------------------------------------------------------------------------

  ghost predicate SentImage(ms: seq<Message>, n: nat, hash: nat)
    requires n <= |ms|
  {
    exists i :: 0 <= i < n && ms[i].Image? && ms[i].hash == hash
  }

  /** The server's cache holds exactly the images the subscriber was sent; every hash refers to one of them. */
  ghost predicate Resolved(s: Sub) {
    && (forall hash :: hash in s.cache <==> SentImage(s.sent, |s.sent|, hash))
    && (forall j :: 0 <= j < |s.sent| && s.sent[j].Cached? ==> SentImage(s.sent, j, s.sent[j].hash))
  }

  /** Message by message the reference server says the same, but with the image instead of its hash. */
  ghost predicate Spelled(ms: seq<Message>, full: seq<Message>) {
    && |ms| == |full|
    && forall j :: 0 <= j < |ms| ==>
         if ms[j].Cached? then full[j].Image? && full[j].hash == ms[j].hash else full[j] == ms[j]
  }

  ghost predicate Matches(s: Sub, r: Sub) {
    s.hookAll == r.hookAll && s.ratio == r.ratio && Resolved(s) && Spelled(s.sent, r.sent)
  }

  ghost predicate Inv(s: State, r: State) {
    && s.last == r.last && s.subs.Keys == r.subs.Keys
    && forall id :: id in s.subs ==> Matches(s.subs[id], r.subs[id])
  }

  lemma SentImageGrows(ms: seq<Message>, m: Message, n: nat, hash: nat)
    requires n <= |ms|
    ensures SentImage(ms + [m], n, hash) <==> SentImage(ms, n, hash)
    ensures SentImage(ms + [m], |ms| + 1, hash) <==> SentImage(ms, |ms|, hash) || (m.Image? && m.hash == hash)
  {
    var l := ms + [m];
    assert forall i :: 0 <= i < |ms| ==> l[i] == ms[i];
    assert l[|ms|] == m;
  }

  /** One more message that is not a dangling hash. */
  lemma ResolvedGrows(s: Sub, m: Message, cache: set<nat>)
    requires Resolved(s) && (m.Cached? ==> m.hash in s.cache)
    requires cache == s.cache + (if m.Image? then {m.hash} else {})
    ensures Resolved(s.(cache := cache, sent := s.sent + [m]))
  {
    var t := s.(cache := cache, sent := s.sent + [m]);
    forall hash ensures hash in t.cache <==> SentImage(t.sent, |t.sent|, hash) {
      SentImageGrows(s.sent, m, |s.sent|, hash);
    }
    forall j | 0 <= j < |t.sent| && t.sent[j].Cached? ensures SentImage(t.sent, j, t.sent[j].hash) {
      SentImageGrows(s.sent, m, j, t.sent[j].hash);
    }
  }

  lemma UpdatedKeeps(h: Hasher, s: Sub, r: Sub, c: Cursor)
    requires Matches(s, r)
    ensures Matches(Updated(h, true, s, c), Updated(h, false, r, c))
  {
    var f := Frame(c.picture, c.systemId, s.ratio);
    var m := if c.systemId != 0 && !s.hookAll then Default(c.systemId)
             else if h(f) in s.cache then Cached(h(f)) else Image(h(f), f);
    ResolvedGrows(s, m, Updated(h, true, s, c).cache);
  }

  lemma SeededKeeps(h: Hasher, hookAll: bool, ratio: real, cursor: Option<Cursor>)
    ensures var s := Seeded(h, hookAll, ratio, cursor); Matches(s, s)
  {
    var s := Sub(hookAll, Clamped(ratio), {}, []);
    assert Resolved(s);
    var t := Seeded(h, hookAll, ratio, cursor);
    if t.sent != [] {
      assert s.sent + t.sent == t.sent && |t.sent| == 1;
      ResolvedGrows(s, t.sent[0], t.cache);
    }
  }

  lemma NextKeeps(h: Hasher, s: State, r: State, e: Event)
    requires Inv(s, r)
    ensures Inv(Next(h, true, s, e), Next(h, false, r, e))
  {
    match e
    case Start(id, hookAll, ratio, cursor) => SeededKeeps(h, hookAll, ratio, cursor);
    case End(_) =>
    case Sync(cursor) =>
      if cursor.Some? {
        forall id | id in s.subs
          ensures Matches(Updated(h, true, s.subs[id], cursor.value), Updated(h, false, r.subs[id], cursor.value)) {
          UpdatedKeeps(h, s.subs[id], r.subs[id], cursor.value);
        }
        SyncedKeeps(h, s, r, cursor.value);
      }
  }

  lemma SyncedKeeps(h: Hasher, s: State, r: State, c: Cursor)
    requires Inv(s, r)
    requires forall id :: id in s.subs ==> Matches(Updated(h, true, s.subs[id], c), Updated(h, false, r.subs[id], c))
    ensures Inv(Synced(h, true, s, Some(c)), Synced(h, false, r, Some(c)))
  {
    assert s.subs == map[] <==> s.subs.Keys == {};
    assert r.subs == map[] <==> r.subs.Keys == {};
  }

  lemma {:induction false} RunKeeps(h: Hasher, es: seq<Event>)
    ensures Inv(After(h, true, es), After(h, false, es))
    decreases |es|
  {
    if es != [] {
      RunKeeps(h, es[..|es| - 1]);
      NextKeeps(h, After(h, true, es[..|es| - 1]), After(h, false, es[..|es| - 1]), es[|es| - 1]);
    }
  }

  // ---- main results ----------------------------------------------------------------------------

  /** Every hash a subscriber is sent was sent to it with its image since its hook started. */
  lemma CachedResolves(h: Hasher, es: seq<Event>, id: int, j: nat)
    requires id in After(h, true, es).subs && j < |After(h, true, es).subs[id].sent|
    requires After(h, true, es).subs[id].sent[j].Cached?
    ensures var ms := After(h, true, es).subs[id].sent; SentImage(ms, j, ms[j].hash)
  {
    RunKeeps(h, es);
  }

  /** What a store holds after some messages: every image among them, whatever it held before. */
  lemma {:induction false} StoreKeeps(c: Client, ms: seq<Message>, i: nat)
    requires NoCollision(ms) && i < |ms| && ms[i].Image?
    ensures ms[i].hash in Play(c, ms).store && Play(c, ms).store[ms[i].hash] == ms[i].frame
    decreases |ms|
  {
    var n := |ms| - 1;
    var front := ms[..n];
    assert forall k :: 0 <= k < n ==> front[k] == ms[k];
    if i < n { StoreKeeps(c, front, i); }
  }

  lemma {:induction false} ShowsTheSame(ms: seq<Message>, full: seq<Message>, c: Client, d: Client)
    requires Spelled(ms, full) && NoCollision(full)
    requires forall j :: 0 <= j < |ms| && ms[j].Cached? ==> SentImage(ms, j, ms[j].hash)
    ensures ms != [] ==> Play(c, ms).shown == Play(d, full).shown
  {
    if ms != [] {
      var n := |ms| - 1;
      if ms[n].Cached? {
        var i :| 0 <= i < n && ms[i].Image? && ms[i].hash == ms[n].hash;
        var front := ms[..n];
        assert NoCollision(front) by {
          assert forall k :: 0 <= k < n && front[k].Image? ==> front[k] == full[k];
        }
        StoreKeeps(c, front, i);
        assert full[i] == full[n];
      }
    }
  }

  /**
   Without a collision among the images, a subscriber shows after every message what it would show if it were
   sent the image every time, with any images left in its store from before.
   */
  lemma CacheRefinesAlwaysSend(h: Hasher, es: seq<Event>, id: int, n: nat, c: Client, d: Client)
    requires id in After(h, true, es).subs
    ensures id in After(h, false, es).subs
    requires 0 < n <= |After(h, true, es).subs[id].sent|
    requires id in After(h, false, es).subs ==> NoCollision(After(h, false, es).subs[id].sent)
    ensures |After(h, false, es).subs[id].sent| == |After(h, true, es).subs[id].sent|
    ensures Play(c, After(h, true, es).subs[id].sent[..n]).shown
         == Play(d, After(h, false, es).subs[id].sent[..n]).shown
  {
    RunKeeps(h, es);
    var s, r := After(h, true, es).subs[id], After(h, false, es).subs[id];
    assert Matches(s, r);
    PrefixShowsTheSame(s, r, n, c, d);
  }

  lemma PrefixShowsTheSame(s: Sub, r: Sub, n: nat, c: Client, d: Client)
    requires Matches(s, r) && NoCollision(r.sent) && 0 < n <= |s.sent|
    ensures Play(c, s.sent[..n]).shown == Play(d, r.sent[..n]).shown
  {
    var ms, full := s.sent[..n], r.sent[..n];
    assert Spelled(ms, full) && NoCollision(full);
    forall j | 0 <= j < n && ms[j].Cached? ensures SentImage(ms, j, ms[j].hash) {
      var i :| 0 <= i < j && s.sent[i].Image? && s.sent[i].hash == s.sent[j].hash;
      assert ms[i] == s.sent[i];
    }
    ShowsTheSame(ms, full, c, d);
  }

  /** What a subscriber ought to show for a cursor. */
  function Wanted(s: Sub, c: Cursor): Shown {
    if c.systemId != 0 && !s.hookAll then System(c.systemId) else Drawing(Frame(c.picture, c.systemId, s.ratio))
  }

  /** What a change of cursor does to one subscriber of the reference server. */
  lemma ReferenceSync(h: Hasher, s: State, c: Cursor, id: int, client: Client)
    requires id in s.subs
    ensures var t := Synced(h, false, s, Some(c));
      && id in t.subs && |t.subs[id].sent| == |s.subs[id].sent| + (if c.handle != s.last then 1 else 0)
      && (c.handle != s.last ==> Play(client, t.subs[id].sent).shown == Wanted(s.subs[id], c))
      && (c.handle == s.last ==> t == s)
  {
    var t := Synced(h, false, s, Some(c));
    if c.handle != s.last {
      var m := t.subs[id].sent[|s.subs[id].sent|];
      assert t.subs[id].sent == s.subs[id].sent + [m];
      assert t.subs[id].sent[..|s.subs[id].sent|] == s.subs[id].sent;
    }
  }

  lemma SyncAfterRun(h: Hasher, caching: bool, es: seq<Event>, c: Cursor)
    ensures After(h, caching, es + [Sync(Some(c))]) == Synced(h, caching, After(h, caching, es), Some(c))
  {
    assert (es + [Sync(Some(c))])[..|es|] == es;
  }

  /** The subscribers after a change of cursor are those before it. */
  lemma SyncKeepsSubs(h: Hasher, caching: bool, es: seq<Event>, c: Cursor)
    ensures After(h, caching, es + [Sync(Some(c))]).subs.Keys == After(h, caching, es).subs.Keys
  {
    SyncAfterRun(h, caching, es, c);
  }

  /**
   After any run, a change of cursor is sent to every subscriber exactly when its handle is not the one seen last.
   Without a hash collision a subscriber then shows the current cursor if and only if it was sent it, or showed it
   already.
   */
  lemma SyncReaches(h: Hasher, es: seq<Event>, c: Cursor, id: int, client: Client)
    requires id in After(h, true, es).subs && id in After(h, false, es + [Sync(Some(c))]).subs
    requires NoCollision(After(h, false, es + [Sync(Some(c))]).subs[id].sent)
    ensures id in After(h, true, es + [Sync(Some(c))]).subs
    ensures var s, t := After(h, true, es), After(h, true, es + [Sync(Some(c))]);
      && (t.subs[id].sent != s.subs[id].sent <==> c.handle != s.last)
      && (Play(client, t.subs[id].sent).shown == Wanted(s.subs[id], c) <==>
            c.handle != s.last || Play(client, s.subs[id].sent).shown == Wanted(s.subs[id], c))
  {
    SyncKeepsSubs(h, true, es, c);
    var s, r := After(h, true, es), After(h, false, es);
    var t, q := After(h, true, es + [Sync(Some(c))]), After(h, false, es + [Sync(Some(c))]);
    SyncAfterRun(h, true, es, c);
    SyncAfterRun(h, false, es, c);
    RunKeeps(h, es);
    RunKeeps(h, es + [Sync(Some(c))]);
    ReferenceSync(h, r, c, id, client);
    SyncIsSeen(s.subs[id], r.subs[id], t.subs[id], q.subs[id], c, s.last, client);
  }

  lemma SyncIsSeen(s: Sub, r: Sub, t: Sub, q: Sub, c: Cursor, last: nat, client: Client)
    requires Matches(s, r) && Matches(t, q) && NoCollision(q.sent)
    requires |q.sent| == |r.sent| + (if c.handle != last then 1 else 0)
    requires c.handle != last ==> Play(client, q.sent).shown == Wanted(r, c)
    requires c.handle == last ==> t == s
    ensures t.sent != s.sent <==> c.handle != last
    ensures Play(client, t.sent).shown == Wanted(s, c) <==>
              c.handle != last || Play(client, s.sent).shown == Wanted(s, c)
  {
    if c.handle != last {
      PrefixShowsTheSame(t, q, |t.sent|, client, client);
      assert t.sent[..|t.sent|] == t.sent && q.sent[..|q.sent|] == q.sent;
    }
  }

  /**
   The handle seen last outlives the hooks: when the cursor changes while nobody is hooked and then back, a
   new subscriber keeps showing the cursor it started with.
   */
  lemma StaleAfterRestart(h: Hasher, id: int, a: Cursor, b: Cursor, client: Client)
    requires a.handle != 0 && a.handle != b.handle && a.systemId == 0 && b.systemId == 0
    requires b.drawn && b.picture.width > 0 && b.picture.height > 0 && a.picture != b.picture
    ensures var es := [Start(id, true, 1.0, None), Sync(Some(a)), End(id),
                       Start(id, true, 1.0, Some(b)), Sync(Some(a))];
      var s := After(h, true, es);
      && id in s.subs && Play(client, s.subs[id].sent).shown == Drawing(Frame(b.picture, 0, 1.0))
      && Play(client, s.subs[id].sent).shown != Wanted(s.subs[id], a)
  {
    var e1, e2, e3, e4 := Start(id, true, 1.0, None), Sync(Some(a)), End(id), Start(id, true, 1.0, Some(b));
    AfterOneMore(h, [], e1);
    AfterOneMore(h, [e1], e2);
    AfterOneMore(h, [e1, e2], e3);
    AfterOneMore(h, [e1, e2, e3], e4);
    AfterOneMore(h, [e1, e2, e3, e4], e2);
    assert id in After(h, true, [] + [e1]).subs;
    assert After(h, true, [e1] + [e2]).last == a.handle;
    assert After(h, true, [e1, e2] + [e3]).last == a.handle && [e1, e2] + [e3] == [e1, e2, e3];
    assert [e1] + [e2] == [e1, e2] && [] + [e1] == [e1] && [e1, e2, e3] + [e4] == [e1, e2, e3, e4];
    var f := Frame(b.picture, 0, 1.0);
    var s := After(h, true, [e1, e2, e3] + [e4]);
    assert s.last == a.handle && s.subs[id] == Sub(true, 1.0, {h(f)}, [Image(h(f), f)]);
    assert [e1, e2, e3, e4] + [e2] == [e1, e2, e3, e4, e2];
    PlayOne(client, Image(h(f), f));
  }

  lemma PlayOne(c: Client, m: Message)
    ensures Play(c, [m]) == Receive(c, m)
  {
    assert [m][..0] == [];
  }

  lemma AfterOneMore(h: Hasher, es: seq<Event>, e: Event)
    ensures After(h, true, es + [e]) == Next(h, true, After(h, true, es), e)
  {
    assert (es + [e])[..|es|] == es;
  }

  // ---- the monitor -----------------------------------------------------------------------------

  /** Each member once. */
  ghost predicate Enumerates(order: seq<int>, ids: set<int>) {
    && (forall i :: 0 <= i < |order| ==> order[i] in ids)
    && (forall i, j :: 0 <= i < j < |order| ==> order[i] != order[j])
    && (forall id :: id in ids ==> id in order)
  }

  class CursorMonitor {
    const hasher: Hasher
    var callbacks: set<int>
    var hookAllCursorImage: map<int, bool>
    var ratios: map<int, real>
    var cachedCursors: map<int, set<nat>>
    var lastHandle: nat
    ghost var sent: map<int, seq<Message>>

    /** The tables all speak of the same subscribers. */
    ghost predicate Valid()
      reads this
    {
      callbacks == hookAllCursorImage.Keys == ratios.Keys == cachedCursors.Keys == sent.Keys
    }

    ghost function SubOf(id: int): Sub
      requires Valid() && id in callbacks
      reads this
    {
      Sub(hookAllCursorImage[id], ratios[id], cachedCursors[id], sent[id])
    }

    ghost function View(): State
      requires Valid()
      reads this
    {
      State(map id | id in callbacks :: SubOf(id), lastHandle)
    }

    constructor (h: Hasher)
      ensures Valid() && View() == INITIAL && hasher == h
    {
      hasher, lastHandle := h, 0;
      callbacks, hookAllCursorImage, ratios, cachedCursors, sent := {}, map[], map[], map[], map[];
    }

    /** The callback of `id` is called. */
    ghost method Tell(id: int, m: Message)
      requires Valid() && id in callbacks
      modifies this`sent
      ensures Valid() && sent == old(sent)[id := old(sent)[id] + [m]]
    {
      sent := sent[id := sent[id] + [m]];
    }

    method SendFrame(id: int, f: Frame)
      requires Valid() && id in callbacks
      modifies this`cachedCursors, this`sent
      ensures Valid() && SubOf(id) == Sent(hasher, true, old(SubOf(id)), f)
      ensures forall other :: other in callbacks && other != id ==> SubOf(other) == old(SubOf(other))
    {
      var hash := hasher(f);
      if hash in cachedCursors[id] {
        Tell(id, Cached(hash));
      } else {
        cachedCursors := cachedCursors[id := cachedCursors[id] + {hash}];
        Tell(id, Image(hash, f));
      }
    }

    method Update(id: int, c: Cursor)
      requires Valid() && id in callbacks
      modifies this`cachedCursors, this`sent
      ensures Valid() && SubOf(id) == Updated(hasher, true, old(SubOf(id)), c)
      ensures forall other :: other in callbacks && other != id ==> SubOf(other) == old(SubOf(other))
    {
      if c.systemId != 0 && !hookAllCursorImage[id] {
        Tell(id, Default(c.systemId));
      } else {
        SendFrame(id, Frame(c.picture, c.systemId, ratios[id]));
      }
    }

    /** `order` is the order in which the table of callbacks is walked. */
    method SyncCursorImage(cursor: Option<Cursor>, order: seq<int>)
      requires Valid() && Enumerates(order, callbacks)
      modifies this
      ensures Valid() && View() == Synced(hasher, true, old(View()), cursor)
    {
      assert callbacks == {} <==> View().subs == map[] by { assert View().subs.Keys == callbacks; }
      if callbacks == {} || cursor.None? {
        return;
      }
      if cursor.value.handle == lastHandle {
        return;
      }
      lastHandle := cursor.value.handle;
      UpdateAll(cursor.value, order);
    }

    method UpdateAll(c: Cursor, order: seq<int>)
      requires Valid() && Enumerates(order, callbacks)
      modifies this`cachedCursors, this`sent
      ensures Valid()
      ensures forall id :: id in callbacks ==> SubOf(id) == Updated(hasher, true, old(SubOf(id)), c)
    {
      var k := 0;
      while k < |order|
        invariant k <= |order| && Valid()
        invariant forall i :: 0 <= i < k ==> SubOf(order[i]) == Updated(hasher, true, old(SubOf(order[i])), c)
        invariant forall i :: k <= i < |order| ==> SubOf(order[i]) == old(SubOf(order[i]))
      {
        Update(order[k], c);
        k := k + 1;
      }
    }

    method StartHook(id: int, hookAll: bool, ratio: real, cursor: Option<Cursor>)
      requires Valid()
      modifies this
      ensures Valid() && View() == Next(hasher, true, old(View()), Start(id, hookAll, ratio, cursor))
    {
      Register(id, hookAll, Clamped(ratio));
      Seed(id, ratio, cursor);
    }

    method Seed(id: int, ratio: real, cursor: Option<Cursor>)
      requires Valid() && id in callbacks && SubOf(id) == Sub(hookAllCursorImage[id], Clamped(ratio), {}, [])
      modifies this`cachedCursors, this`sent
      ensures Valid() && SubOf(id) == Seeded(hasher, old(hookAllCursorImage[id]), ratio, cursor)
      ensures forall other :: other in callbacks && other != id ==> SubOf(other) == old(SubOf(other))
    {
      if cursor.Some? {
        var c := cursor.value;
        if !hookAllCursorImage[id] && c.systemId != 0 {
          Tell(id, Default(c.systemId));
          assert [] + [Default(c.systemId)] == [Default(c.systemId)];
        } else if c.drawn && c.picture.width > 0 && c.picture.height > 0 {
          SendFrame(id, Frame(c.picture, c.systemId, ratio));
        }
      }
    }

    method Register(id: int, hookAll: bool, ratio: real)
      requires Valid()
      modifies this
      ensures Valid() && callbacks == old(callbacks) + {id} && lastHandle == old(lastHandle)
      ensures SubOf(id) == Sub(hookAll, ratio, {}, [])
      ensures forall other :: other in callbacks && other != id ==> SubOf(other) == old(SubOf(other))
    {
      callbacks := callbacks + {id};
      hookAllCursorImage := hookAllCursorImage[id := hookAll];
      ratios := ratios[id := ratio];
      cachedCursors := cachedCursors[id := {}];
      sent := sent[id := []];
    }

    method EndHook(id: int)
      requires Valid()
      modifies this
      ensures Valid() && View() == Next(hasher, true, old(View()), End(id))
    {
      callbacks := callbacks - {id};
      hookAllCursorImage := hookAllCursorImage - {id};
      ratios := ratios - {id};
      cachedCursors := cachedCursors - {id};
      sent := sent - {id};
    }
  }
}
