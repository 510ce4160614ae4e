/**
 The virtual keyboard on Linux.  Any write to the device may fail; what is believed to be pressed must stay
 what the kernel was last told, and a lost report must be made good.
 */
module Keyboard {

  const EINVAL := -22
  const ENOMEM := -12

  datatype Write = Key(code: int, down: bool, ok: bool) | Syn(ok: bool)

  datatype State = State(device: bool, pressed: set<int>, syncPending: bool, log: seq<Write>)

  const INITIAL := State(false, {}, false, [])

  /** Creating the device: out of memory, or the result of asking the kernel. */
  datatype Creation = NoMemory | Created(result: int)

  type Table = map<int, int>

  function Keycode(table: Table, vk: int): int {
    if vk < 0 || vk > 0xff || vk !in table then 0 else table[vk]
  }

  // ---- the calls -------------------------------------------------------------------------------

  function Log(s: State, w: Write): State {
    s.(log := s.log + [w])
  }

  function Synchronized(s: State, result: int): State {
    Log(s.(syncPending := result < 0), Syn(result >= 0))
  }

  function Initialized(s: State, c: Creation): (State, int) {
    if s.device then (s, 0)
    else if c.NoMemory? then (s, ENOMEM)
    else (s.(device := c.result >= 0), c.result)
  }

  function Set(pressed: set<int>, code: int, down: bool): set<int> {
    if down then pressed + {code} else pressed - {code}
  }

  /** One key write; it counts only if it succeeds. */
  function Written(s: State, code: int, down: bool, result: int): State {
    var t := Log(s, Key(code, down, result >= 0));
    if result < 0 then t else t.(pressed := Set(s.pressed, code, down))
  }

  function SentCode(s: State, code: int, down: bool, key: int, syn: int): (State, int) {
    if down == (code in s.pressed) then (if s.syncPending then (Synchronized(s, syn), syn) else (s, 0))
    else
      var t := Written(s, code, down, key);
      if key < 0 then (t, key) else (Synchronized(t, syn), syn)
  }

  function Sent(table: Table, s: State, vk: int, down: bool, c: Creation, key: int, syn: int): (State, int) {
    var code := Keycode(table, vk);
    if code == 0 then (s, EINVAL)
    else
      var (t, init) := Initialized(s, c);
      if init < 0 then (t, init) else SentCode(t, code, down, key, syn)
  }

  /** A key without a code is refused, and nothing is created or written. */
  lemma UnknownKeyIsRefused(table: Table, s: State, vk: int, down: bool, c: Creation, key: int, syn: int)
    requires !(0 <= vk <= 255 && vk in table && table[vk] != 0)
    ensures Sent(table, s, vk, down, c, key, syn) == (s, EINVAL)
  {
  }

  /** The device is created at most once, and only its creation can stand in the way of a known key. */
  lemma DeviceIsCreatedOnce(s: State, c: Creation)
    ensures s.device ==> Initialized(s, c) == (s, 0)
    ensures !s.device ==>
      var (t, result) := Initialized(s, c);
      && t == s.(device := t.device) && (t.device <==> c.Created? && c.result >= 0)
      && result == (if c.NoMemory? then ENOMEM else c.result)
  {
  }

  /**
   A known key reaches the kernel whenever its state changes, with its own code and direction, and then a report
   follows unless the write failed; without a change only a report that is missing is made good.
   */
  lemma KnownKeyIsWritten(table: Table, s: State, vk: int, down: bool, c: Creation, key: int, syn: int)
    requires 0 <= vk <= 255 && vk in table && table[vk] != 0
    requires s.device || (c.Created? && c.result >= 0)
    ensures var (t, result) := Sent(table, s, vk, down, c, key, syn);
      var code := table[vk];
      && t.device
      && t.log == s.log + (if down == (code in s.pressed) then if s.syncPending then [Syn(syn >= 0)] else []
                           else if key < 0 then [Key(code, down, false)]
                           else [Key(code, down, true), Syn(syn >= 0)])
      && t.pressed == (if down == (code in s.pressed) || key < 0 then s.pressed
                       else if down then s.pressed + {code} else s.pressed - {code})
      && result == (if down != (code in s.pressed) && key < 0 then key
                    else if down == (code in s.pressed) && !s.syncPending then 0 else syn)
  {
  }

  /** Releases for the keys `order[..n]`, with the result of each write. */
  function Releases(s: State, order: seq<int>, results: seq<int>, n: nat): (State, int)
    requires n <= |order| == |results|
    decreases n
  {
    if n == 0 then (s, 0)
    else
      var (t, error) := Releases(s, order, results, n - 1);
      (Written(t, order[n - 1], false, results[n - 1]), if results[n - 1] < 0 then results[n - 1] else error)
  }

  function Cleared(s: State, order: seq<int>, results: seq<int>, syn: int): (State, int)
    requires |order| == |results|
  {
    var (t, error) := Releases(s, order, results, |order|);
    if !t.device then (t, error) else (Synchronized(t, syn), if syn < 0 then syn else error)
  }

  datatype Event =
    | Send(vk: int, down: bool, creation: Creation, key: int, syn: int)
    | Clear(order: seq<int>, results: seq<int>, last: int)

  /** Each pressed key once. */
  ghost predicate Enumerates(order: seq<int>, codes: set<int>) {
    && |order| == |codes|
    && (forall i :: 0 <= i < |order| ==> order[i] in codes)
    && (forall i, j :: 0 <= i < j < |order| ==> order[i] != order[j])
    && (forall code :: code in codes ==> code in order)
  }

  ghost predicate Possible(s: State, e: Event) {
    e.Clear? ==> |e.order| == |e.results| && Enumerates(e.order, s.pressed)
  }

  ghost function Result(table: Table, s: State, e: Event): (State, int)
    requires Possible(s, e)
  {
    match e
    case Send(vk, down, creation, key, syn) => Sent(table, s, vk, down, creation, key, syn)
    case Clear(order, results, last) => Cleared(s, order, results, last)
  }

  ghost predicate Runs(table: Table, s: State, es: seq<Event>)
    decreases |es|
  {
    es == [] || (Possible(s, es[0]) && Runs(table, Result(table, s, es[0]).0, es[1..]))
  }

  ghost function After(table: Table, s: State, es: seq<Event>): State
    requires Runs(table, s, es)
    decreases |es|
  {
    if es == [] then s else After(table, Result(table, s, es[0]).0, es[1..])
  }

  // ---- what the kernel was told ----------------------------------------------------------------

  predicate Tells(w: Write, code: int) {
    w.Key? && w.ok && w.code == code
  }

  /** The last successful write for the key was a press. */
  predicate Down(log: seq<Write>, code: int)
    decreases |log|
  {
    if log == [] then false
    else if Tells(log[|log| - 1], code) then log[|log| - 1].down else Down(log[..|log| - 1], code)
  }

  /** Every successful write changes its key: per key 1, 0, 1, 0, ... */
  ghost predicate Alternates(log: seq<Write>) {
    forall j :: 0 <= j < |log| && log[j].Key? && log[j].ok ==> log[j].down == !Down(log[..j], log[j].code)
  }

  /** Every successful key write has been followed by a successful report. */
  predicate Reported(log: seq<Write>)
    decreases |log|
  {
    if log == [] then true
    else
      var w := log[|log| - 1];
      if w.ok then w.Syn? else Reported(log[..|log| - 1])
  }

  lemma {:induction false} ReportedMeans(log: seq<Write>, j: nat)
    requires Reported(log) && j < |log| && log[j].Key? && log[j].ok
    ensures exists k :: j < k < |log| && log[k] == Syn(true)
    decreases |log|
  {
    var n := |log| - 1;
    if !log[n].ok {
      ReportedMeans(log[..n], j);
      var k :| j < k < n && log[..n][k] == Syn(true);
      assert log[k] == Syn(true);
    }
  }

  ghost predicate Inv(s: State) {
    && (forall code :: code in s.pressed <==> Down(s.log, code))
    && Alternates(s.log)
    && (!s.syncPending ==> Reported(s.log))
    && (!s.device ==> s.log == [] && !s.syncPending)
  }

  lemma LogGrows(log: seq<Write>, w: Write)
    ensures forall code :: Down(log + [w], code) <==> if Tells(w, code) then w.down else Down(log, code)
    ensures Alternates(log) && (w.Key? && w.ok ==> w.down == !Down(log, w.code)) ==> Alternates(log + [w])
    ensures Reported(log + [w]) <==> if w.ok then w.Syn? else Reported(log)
  {
    var l := log + [w];
    assert l[..|log|] == log;
    forall j | 0 <= j < |log| ensures l[..j] == log[..j] {
    }
  }

  /** Everything but the report. */
  ghost predicate Keys(s: State) {
    && (forall code :: code in s.pressed <==> Down(s.log, code))
    && Alternates(s.log)
    && (!s.device ==> s.log == [] && !s.syncPending)
  }

  lemma WrittenKeeps(s: State, code: int, down: bool, result: int)
    requires Keys(s) && s.device && (down <==> code !in s.pressed)
    ensures Keys(Written(s, code, down, result))
    ensures result < 0 ==> (Reported(Written(s, code, down, result).log) <==> Reported(s.log))
  {
    LogGrows(s.log, Key(code, down, result >= 0));
  }

  lemma SynchronizedKeeps(s: State, result: int)
    requires Keys(s) && s.device
    ensures Inv(Synchronized(s, result))
  {
    LogGrows(s.log, Syn(result >= 0));
  }

  lemma SentCodeKeeps(s: State, code: int, down: bool, key: int, syn: int)
    requires Inv(s) && s.device
    ensures Inv(SentCode(s, code, down, key, syn).0)
    ensures SentCode(s, code, down, key, syn).1 == 0 ==>
      var t := SentCode(s, code, down, key, syn).0; !t.syncPending && (code in t.pressed <==> down)
  {
    if down == (code in s.pressed) {
      if s.syncPending { SynchronizedKeeps(s, syn); }
    } else {
      WrittenKeeps(s, code, down, key);
      if key >= 0 { SynchronizedKeeps(Written(s, code, down, key), syn); }
    }
  }

  lemma SentKeeps(table: Table, s: State, vk: int, down: bool, c: Creation, key: int, syn: int)
    requires Inv(s)
    ensures var (t, r) := Sent(table, s, vk, down, c, key, syn);
      && Inv(t)
      && (r == 0 ==> !t.syncPending && t.device && Keycode(table, vk) != 0)
      && (r == 0 ==> (Keycode(table, vk) in t.pressed <==> down))
  {
    var (t, init) := Initialized(s, c);
    assert Inv(t);
    if Keycode(table, vk) != 0 && init >= 0 { SentCodeKeeps(t, Keycode(table, vk), down, key, syn); }
  }

  /** The keys left down are those not released yet and those whose release failed. */
  ghost predicate Left(s: State, order: seq<int>, results: seq<int>, n: nat, pressed: set<int>)
    requires n <= |order| == |results|
  {
    && (forall code :: code in pressed ==> code in s.pressed)
    && (forall i :: 0 <= i < |order| ==> (order[i] in pressed <==> i >= n || results[i] < 0))
  }

  lemma LeftShrinks(s: State, order: seq<int>, results: seq<int>, n: nat, pressed: set<int>)
    requires 0 < n <= |order| == |results| && Enumerates(order, s.pressed) && Left(s, order, results, n - 1, pressed)
    ensures order[n - 1] in pressed
    ensures Left(s, order, results, n, if results[n - 1] < 0 then pressed else pressed - {order[n - 1]})
  {
  }

  lemma {:induction false} ReleasesKeep(s: State, order: seq<int>, results: seq<int>, n: nat)
    requires Inv(s) && n <= |order| == |results| && Enumerates(order, s.pressed) && s.device
    ensures var (t, error) := Releases(s, order, results, n);
      && Keys(t) && t.device && Left(s, order, results, n, t.pressed)
      && error <= 0 && (error == 0 <==> forall i :: 0 <= i < n ==> results[i] >= 0)
    decreases n
  {
    if n > 0 {
      ReleasesKeep(s, order, results, n - 1);
      var t := Releases(s, order, results, n - 1).0;
      LeftShrinks(s, order, results, n, t.pressed);
      WrittenKeeps(t, order[n - 1], false, results[n - 1]);
    }
  }

  /** A call that clears everything says so; the keys it could not release stay pressed. */
  lemma ClearedKeeps(s: State, order: seq<int>, results: seq<int>, syn: int)
    requires Inv(s) && |order| == |results| && Enumerates(order, s.pressed)
    ensures var (t, r) := Cleared(s, order, results, syn);
      && Inv(t) && Left(s, order, results, |order|, t.pressed)
      && (r == 0 <==> !s.device || (syn >= 0 && forall i :: 0 <= i < |order| ==> results[i] >= 0))
      && (r == 0 ==> t.pressed == {} && !t.syncPending)
  {
    if s.device {
      ReleasesKeep(s, order, results, |order|);
      SynchronizedKeeps(Releases(s, order, results, |order|).0, syn);
    } else {
      NothingPressed(s, order);
    }
    NothingLeft(s, order, results, Cleared(s, order, results, syn).0.pressed);
  }

  lemma NothingLeft(s: State, order: seq<int>, results: seq<int>, pressed: set<int>)
    requires |order| == |results| && Enumerates(order, s.pressed) && Left(s, order, results, |order|, pressed)
    ensures (forall i :: 0 <= i < |order| ==> results[i] >= 0) ==> pressed == {}
  {
    if forall i :: 0 <= i < |order| ==> results[i] >= 0 {
      assert forall code :: code !in pressed;
    }
  }

  lemma NothingPressed(s: State, order: seq<int>)
    requires Inv(s) && !s.device && Enumerates(order, s.pressed)
    ensures s.pressed == {} && order == []
  {
    assert forall code :: code !in s.pressed;
  }

  lemma ResultKeeps(table: Table, s: State, e: Event)
    requires Inv(s) && Possible(s, e)
    ensures Inv(Result(table, s, e).0)
  {
    match e
    case Send(vk, down, creation, key, syn) => SentKeeps(table, s, vk, down, creation, key, syn);
    case Clear(order, results, last) => ClearedKeeps(s, order, results, last);
  }

  lemma {:induction false} RunKeeps(table: Table, s: State, es: seq<Event>)
    requires Inv(s) && Runs(table, s, es)
    ensures Inv(After(table, s, es))
    decreases |es|
  {
    if es != [] {
      ResultKeeps(table, s, es[0]);
      RunKeeps(table, Result(table, s, es[0]).0, es[1..]);
    }
  }

  // ---- main results ----------------------------------------------------------------------------

  /**
   Whatever fails, the successful writes of each key alternate press and release, beginning with a press, and
   the keys believed pressed are exactly those last told to the kernel as pressed.
   */
  lemma PressedIsWhatWasWritten(table: Table, es: seq<Event>, code: int)
    requires Runs(table, INITIAL, es)
    ensures var s := After(table, INITIAL, es);
      Alternates(s.log) && (code in s.pressed <==> Down(s.log, code))
  {
    RunKeeps(table, INITIAL, es);
  }

  /** Whenever a call answers 0, every key write so far has been followed by a report that got through. */
  lemma ZeroMeansReported(table: Table, es: seq<Event>, e: Event, j: nat)
    requires Runs(table, INITIAL, es) && Possible(After(table, INITIAL, es), e)
    requires var (t, r) := Result(table, After(table, INITIAL, es), e);
      r == 0 && j < |t.log| && t.log[j].Key? && t.log[j].ok
    ensures var t := Result(table, After(table, INITIAL, es), e).0;
      exists k :: j < k < |t.log| && t.log[k] == Syn(true)
  {
    var s := After(table, INITIAL, es);
    RunKeeps(table, INITIAL, es);
    ResultKeeps(table, s, e);
    match e {
      case Send(vk, down, creation, key, syn) => SentKeeps(table, s, vk, down, creation, key, syn);
      case Clear(order, results, last) => ClearedKeeps(s, order, results, last);
    }
    ReportedMeans(Result(table, s, e).0.log, j);
  }

  /** A send that answered 0 can be sent again: nothing more is written, and the answer is 0 again. */
  lemma SendIsIdempotent(table: Table, s: State, vk: int, down: bool, first: Event, again: Event)
    requires Inv(s) && first.Send? && again.Send? && first.vk == again.vk == vk && first.down == again.down == down
    requires Result(table, s, first).1 == 0
    ensures var t := Result(table, s, first).0; Result(table, t, again) == (t, 0)
  {
    SentKeeps(table, s, vk, down, first.creation, first.key, first.syn);
  }

  /** A clear that answered 0 can be repeated: no key is written, but with a device there is one more report. */
  lemma ClearAgainOnlyReports(table: Table, s: State, first: Event, again: Event)
    requires Inv(s) && first.Clear? && again.Clear? && Possible(s, first) && Result(table, s, first).1 == 0
    requires Possible(Result(table, s, first).0, again)
    ensures var t := Result(table, s, first).0;
      var (u, r) := Result(table, t, again);
      && u.log == t.log + (if t.device then [Syn(again.last >= 0)] else [])
      && u.pressed == t.pressed == {}
  {
    ClearedKeeps(s, first.order, first.results, first.last);
    var t := Result(table, s, first).0;
    assert again.order == [];
  }

  // ---- the keyboard object ---------------------------------------------------------------------

  class LinuxKeyboard {
    const table: Table
    var syncPending: bool
    var device: bool
    var pressed: set<int>
    ghost var log: seq<Write>

    ghost function View(): State
      reads this
    {
      State(device, pressed, syncPending, log)
    }

    constructor (mappings: Table)
      ensures table == mappings && View() == INITIAL
    {
      table, syncPending, device, pressed, log := mappings, false, false, {}, [];
    }

    method Initialize(c: Creation) returns (result: int)
      modifies this`device
      ensures (View(), result) == Initialized(old(View()), c)
    {
      if device {
        return 0;
      }
      if c.NoMemory? {
        return ENOMEM;
      }
      device := c.result >= 0;
      return c.result;
    }

    method Synchronize(result: int) returns (r: int)
      modifies this`syncPending, this`log
      ensures View() == Synchronized(old(View()), result) && r == result
    {
      log := log + [Syn(result >= 0)];
      syncPending := result < 0;
      return result;
    }

    method Send(vk: int, down: bool, c: Creation, key: int, syn: int) returns (r: int)
      modifies this
      ensures (View(), r) == Sent(table, old(View()), vk, down, c, key, syn)
    {
      var code := Keycode(table, vk);
      if code == 0 {
        return EINVAL;
      }
      var init := Initialize(c);
      if init < 0 {
        return init;
      }
      if down == (code in pressed) {
        if syncPending {
          r := Synchronize(syn);
          return;
        }
        return 0;
      }
      log := log + [Key(code, down, key >= 0)];
      if key < 0 {
        return key;
      }
      if down {
        pressed := pressed + {code};
      } else {
        pressed := pressed - {code};
      }
      r := Synchronize(syn);
    }

    /** `order` is the order in which the pressed keys are walked. */
    method Clear(order: seq<int>, results: seq<int>, syn: int) returns (error: int)
      requires |order| == |results| && Enumerates(order, pressed)
      modifies this
      ensures (View(), error) == Cleared(old(View()), order, results, syn)
    {
      error := 0;
      var k := 0;
      while k < |order|
        invariant k <= |order|
        invariant (View(), error) == Releases(old(View()), order, results, k)
      {
        log := log + [Key(order[k], false, results[k] >= 0)];
        if results[k] < 0 {
          error := results[k];
        } else {
          pressed := pressed - {order[k]};
        }
        k := k + 1;
      }
      if device {
        var result := Synchronize(syn);
        if result < 0 {
          error := result;
        }
      }
    }
  }
}
