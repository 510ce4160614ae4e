/**
 The desktop-service input queue: producers and one background sender share a mutex, and the sender
 drops it to connect and to write.  One event is one stretch of code run under the mutex.
 */
module InputQueue {
  type Packet = seq<bv8>

  /** Where the sender is whenever the mutex is free, or about to be taken by it. */
  datatype Sender =
    | Stopped
    | Top
    | Waiting
    | Connecting
    | Writing(packet: Packet)

  /** What one pipe was given to carry, and what reached the service through it. */
  datatype Connection = Connection(accepted: seq<Packet>, delivered: seq<Packet>)

  datatype State = State(
    available: bool, stop: bool, reset: bool, connected: bool, queue: seq<Packet>,
    thread: bool, joining: bool, sender: Sender, pipe: bool,
    current: Connection, past: seq<Connection>)

  /** How starting a sender ends: without an event object, with a thread that cannot be created, or running. */
  datatype Start = NoEvent | NoThread | Started

  datatype Event =
    | SetAvailable(available: bool, start: Start)
    | Send(packet: Packet)
    | CloseBegin
    | CloseEnd
    | Wake
    | Iterate
    | ConnectReturns(ok: bool)
    | WriteReturns(ok: bool, arrived: bool)

  const INITIAL: State :=
    State(false, false, false, false, [], false, false, Stopped, false, Connection([], []), [])

  /** Which events can happen; the platform thread waits in Close until the sender has ended. */
  predicate Possible(s: State, e: Event) {
    match e
    case SetAvailable(_, _) => !s.joining
    case Send(_) => true
    case CloseBegin => !s.joining
    case CloseEnd => s.joining && s.sender.Stopped?
    case Wake => s.sender.Waiting?
    case Iterate => s.sender.Top?
    case ConnectReturns(_) => s.sender.Connecting?
    case WriteReturns(_, _) => s.sender.Writing?
  }

  function ClosePipe(s: State): State {
    if s.pipe then s.(pipe := false, past := s.past + [s.current], current := Connection([], [])) else s
  }

  /** No connection: whatever was queued is dropped. */
  function Disconnect(s: State): State {
    s.(connected := false, queue := [])
  }

  /** The stop flag is cleared before the thread is created, and stays so if that fails. */
  function StartThread(s: State, start: Start): State {
    if s.thread || start.NoEvent? then s
    else if start.NoThread? then s.(stop := false)
    else s.(stop := false, thread := true, sender := Top)
  }

  function AfterSetAvailable(s: State, available: bool, start: Start): State {
    var t := s.(available := available);
    if available then StartThread(t, start) else Disconnect(t).(reset := true)
  }

  function AfterSend(s: State, p: Packet): State {
    if !s.connected then s
    else s.(queue := s.queue + [p], current := s.current.(accepted := s.current.accepted + [p]))
  }

  function AfterCloseBegin(s: State): State {
    Disconnect(s).(stop := true, available := false, joining := s.thread, thread := false)
  }

  function AfterIterate(s: State): State {
    if s.stop then ClosePipe(Disconnect(s)).(sender := Stopped)
    else if !s.available || s.reset then ClosePipe(Disconnect(s)).(reset := false, sender := Waiting)
    else if !s.pipe then s.(sender := Connecting)
    else if s.queue == [] then s.(sender := Waiting)
    else s.(sender := Writing(s.queue[0]), queue := s.queue[1..])
  }

  function AfterConnect(s: State, ok: bool): State {
    var t := s.(pipe := ok, sender := Top);
    if s.stop || !s.available || s.reset then t
    else t.(connected := ok, sender := if ok then Top else Waiting)
  }

  /** A failed write may or may not have reached the service. */
  function AfterWrite(s: State, ok: bool, arrived: bool): State
    requires s.sender.Writing?
  {
    var c := s.current;
    var t := if ok || arrived then s.(current := c.(delivered := c.delivered + [s.sender.packet])) else s;
    if ok then t.(sender := Top) else ClosePipe(Disconnect(t)).(sender := Waiting)
  }

  function Next(s: State, e: Event): State
    requires Possible(s, e)
  {
    match e
    case SetAvailable(available, start) => AfterSetAvailable(s, available, start)
    case Send(p) => AfterSend(s, p)
    case CloseBegin => AfterCloseBegin(s)
    case CloseEnd => s.(joining := false)
    case Wake => s.(sender := Top)
    case Iterate => AfterIterate(s)
    case ConnectReturns(ok) => AfterConnect(s, ok)
    case WriteReturns(ok, arrived) => AfterWrite(s, ok, arrived)
  }

  predicate Runs(s: State, es: seq<Event>)
    decreases |es|
  {
    es == [] || (Possible(s, es[0]) && Runs(Next(s, es[0]), es[1..]))
  }

  function After(s: State, es: seq<Event>): State
    requires Runs(s, es)
    decreases |es|
  {
    if es == [] then s else After(Next(s, es[0]), es[1..])
  }

  // ---- what holds in every reachable state -----------------------------------------------------

  function InFlight(s: State): seq<Packet> {
    if s.sender.Writing? then [s.sender.packet] else []
  }

  /** A lossy FIFO: nothing is replayed, reordered or invented on one connection. */
  predicate Fifo(c: Connection) {
    c.delivered <= c.accepted
  }

  /** While a connection is live every accepted packet is delivered, in flight or queued, in that order. */
  predicate Conserved(s: State) {
    s.connected ==> s.current.accepted == s.current.delivered + InFlight(s) + s.queue
  }

  predicate PipeOk(s: State) {
    && (s.sender.Writing? ==> s.pipe)
    && (s.sender.Connecting? || s.sender.Stopped? ==> !s.pipe)
    && (s.connected ==> s.pipe)
    && (!s.connected ==> s.queue == [])
    && (s.pipe && !s.connected ==> s.reset || s.stop)
    && ((s.pipe || s.sender.Connecting?) && !s.available ==> s.reset || s.stop)
    && (!s.pipe ==> s.current == Connection([], []))
    && (s.connected ==> s.available && !s.reset && !s.stop)
  }

  predicate ThreadOk(s: State) {
    && (s.thread ==> !s.stop && !s.sender.Stopped? && !s.joining)
    && (!s.thread && !s.joining ==> s.sender.Stopped?)
    && (s.joining ==> s.stop)
  }

  predicate Inv(s: State) {
    && Conserved(s) && PipeOk(s) && ThreadOk(s)
    && s.current.delivered + InFlight(s) <= s.current.accepted
    && forall k :: 0 <= k < |s.past| ==> Fifo(s.past[k])
  }

  lemma IterateKeeps(s: State)
    requires Inv(s) && s.sender.Top?
    ensures Inv(AfterIterate(s))
  {
    if s.queue != [] { assert s.queue == [s.queue[0]] + s.queue[1..]; }
  }

  lemma ConnectKeeps(s: State, ok: bool)
    requires Inv(s) && s.sender.Connecting?
    ensures Inv(AfterConnect(s, ok))
  {
  }

  lemma WriteKeeps(s: State, ok: bool, arrived: bool)
    requires Inv(s) && s.sender.Writing?
    ensures Inv(AfterWrite(s, ok, arrived))
  {
  }

  lemma NextKeeps(s: State, e: Event)
    requires Inv(s) && Possible(s, e)
    ensures Inv(Next(s, e))
  {
    match e
    case Iterate => IterateKeeps(s);
    case ConnectReturns(ok) => ConnectKeeps(s, ok);
    case WriteReturns(ok, arrived) => WriteKeeps(s, ok, arrived);
    case _ =>
  }

  lemma {:induction false} RunKeeps(s: State, es: seq<Event>)
    requires Inv(s) && Runs(s, es)
    ensures Inv(After(s, es))
    decreases |es|
  {
    if es != [] {
      NextKeeps(s, es[0]);
      RunKeeps(Next(s, es[0]), es[1..]);
    }
  }

  // ---- main results ----------------------------------------------------------------------------

  /** What one event has accepted from a producer, or brought to the service, on connection `c`. */
  function Accepts(s: State, e: Event, c: nat): seq<Packet> {
    if e.Send? && s.connected && c == |s.past| then [e.packet] else []
  }

  function Writes(s: State, e: Event, c: nat): seq<Packet>
    requires Possible(s, e)
  {
    if e.WriteReturns? && (e.ok || e.arrived) && c == |s.past| then [s.sender.packet] else []
  }

  function AcceptedOn(c: nat, s: State, es: seq<Event>): seq<Packet>
    requires Runs(s, es)
    decreases |es|
  {
    if es == [] then [] else Accepts(s, es[0], c) + AcceptedOn(c, Next(s, es[0]), es[1..])
  }

  function WrittenOn(c: nat, s: State, es: seq<Event>): seq<Packet>
    requires Runs(s, es)
    decreases |es|
  {
    if es == [] then [] else Writes(s, es[0], c) + WrittenOn(c, Next(s, es[0]), es[1..])
  }

  function LogOf(s: State, c: nat): Connection {
    if c < |s.past| then s.past[c] else if c == |s.past| then s.current else Connection([], [])
  }

  lemma LogStep(s: State, e: Event, c: nat)
    requires Inv(s) && Possible(s, e)
    ensures LogOf(Next(s, e), c).accepted == LogOf(s, c).accepted + Accepts(s, e, c)
    ensures LogOf(Next(s, e), c).delivered == LogOf(s, c).delivered + Writes(s, e, c)
  {
    match e
    case SetAvailable(_, _) =>
    case Send(_) =>
    case CloseBegin =>
    case CloseEnd =>
    case Wake =>
    case Iterate =>
    case ConnectReturns(_) =>
    case WriteReturns(_, _) =>
  }

  lemma Glue(whole: seq<Packet>, before: seq<Packet>, next: seq<Packet>, x: seq<Packet>, rest: seq<Packet>)
    requires next == before + x && whole == next + rest
    ensures whole == before + (x + rest)
  {
  }

  lemma {:induction false} LogsAreTraces(c: nat, s: State, es: seq<Event>)
    requires Inv(s) && Runs(s, es)
    ensures LogOf(After(s, es), c).accepted == LogOf(s, c).accepted + AcceptedOn(c, s, es)
    ensures LogOf(After(s, es), c).delivered == LogOf(s, c).delivered + WrittenOn(c, s, es)
    decreases |es|
  {
    if es != [] {
      var t, end := Next(s, es[0]), LogOf(After(s, es), c);
      LogStep(s, es[0], c);
      NextKeeps(s, es[0]);
      LogsAreTraces(c, t, es[1..]);
      Glue(end.accepted, LogOf(s, c).accepted, LogOf(t, c).accepted, Accepts(s, es[0], c), AcceptedOn(c, t, es[1..]));
      Glue(end.delivered, LogOf(s, c).delivered, LogOf(t, c).delivered, Writes(s, es[0], c), WrittenOn(c, t, es[1..]));
    }
  }

  lemma LogsFromStart(c: nat, es: seq<Event>)
    requires Runs(INITIAL, es)
    ensures Inv(After(INITIAL, es))
    ensures LogOf(After(INITIAL, es), c) == Connection(AcceptedOn(c, INITIAL, es), WrittenOn(c, INITIAL, es))
  {
    RunKeeps(INITIAL, es);
    LogsAreTraces(c, INITIAL, es);
    assert LogOf(INITIAL, c) == Connection([], []);
    assert [] + AcceptedOn(c, INITIAL, es) == AcceptedOn(c, INITIAL, es);
    assert [] + WrittenOn(c, INITIAL, es) == WrittenOn(c, INITIAL, es);
  }

  /**
   No replay, no reorder, nothing from another connection: in every run, what reached the service over
   a connection is a prefix of what was accepted on that same connection.
   */
  lemma NoReplay(es: seq<Event>, c: nat)
    requires Runs(INITIAL, es)
    ensures WrittenOn(c, INITIAL, es) <= AcceptedOn(c, INITIAL, es)
  {
    LogsFromStart(c, es);
    var s := After(INITIAL, es);
    assert c < |s.past| ==> Fifo(s.past[c]);
    assert s.current.delivered <= s.current.delivered + InFlight(s) <= s.current.accepted;
  }

  /** While a connection is live nothing accepted on it is lost: delivered, then at most one in flight, then queued. */
  lemma NothingLostWhileLive(es: seq<Event>)
    requires Runs(INITIAL, es) && After(INITIAL, es).connected
    ensures var s := After(INITIAL, es);
      AcceptedOn(|s.past|, INITIAL, es) == WrittenOn(|s.past|, INITIAL, es) + InFlight(s) + s.queue
  {
    LogsFromStart(|After(INITIAL, es).past|, es);
  }

  /** A disconnected client queues nothing, and an open pipe it does not use is about to be closed. */
  lemma DisconnectedIsDrained(es: seq<Event>)
    requires Runs(INITIAL, es) && !After(INITIAL, es).connected
    ensures After(INITIAL, es).queue == []
    ensures After(INITIAL, es).pipe ==> After(INITIAL, es).reset || After(INITIAL, es).stop
  {
    RunKeeps(INITIAL, es);
  }

  /** With a reset or a stop pending, the sender's next turn closes the pipe before it writes anything more. */
  lemma PendingResetCloses(s: State)
    requires Inv(s) && s.sender.Top? && s.pipe && !s.connected
    ensures !AfterIterate(s).pipe && !AfterIterate(s).sender.Writing? && AfterIterate(s).past == s.past + [s.current]
  {
  }

  // ---- progress --------------------------------------------------------------------------------

  /** What the sender does next, when its calls succeed or fail as told. */
  function Turn(s: State, ok: bool, arrived: bool): Event {
    match s.sender
    case Stopped => CloseEnd
    case Top => Iterate
    case Waiting => Wake
    case Connecting => ConnectReturns(ok)
    case Writing(_) => WriteReturns(ok, arrived)
  }

  /** The service is there, and so is a sender that has not been told to stop. */
  predicate Serving(s: State) {
    Inv(s) && s.available && s.thread
  }

  predicate Drained(s: State) {
    s.connected && s.queue == [] && !s.sender.Writing? && !s.reset
  }

  /** How many turns the sender needs at most while nothing fails. */
  function Distance(s: State): nat {
    if s.reset then (if s.sender.Top? then 4 else 5)
    else if !s.connected then (if s.sender.Connecting? then 1 else if s.sender.Top? then 2 else 3)
    else if s.queue == [] && !s.sender.Writing? then 0
    else 2 * |s.queue| + if s.sender.Top? then 0 else 1
  }

  lemma TurnHelps(s: State, arrived: bool)
    requires Serving(s) && !Drained(s)
    ensures var e := Turn(s, true, arrived);
      Possible(s, e) && Serving(Next(s, e)) && Distance(Next(s, e)) < Distance(s)
  {
    NextKeeps(s, Turn(s, true, arrived));
  }

  /** The sender's turns until everything is written, while nothing fails. */
  function Drain(s: State, arrived: bool): (es: seq<Event>)
    requires Serving(s)
    ensures Runs(s, es) && |es| <= Distance(s) && Serving(After(s, es)) && Drained(After(s, es))
    decreases Distance(s)
  {
    if Drained(s) then []
    else
      TurnHelps(s, arrived);
      var rest := Drain(Next(s, Turn(s, true, arrived)), arrived);
      assert ([Turn(s, true, arrived)] + rest)[1..] == rest;
      [Turn(s, true, arrived)] + rest
  }

  /** The sender at work, with no failure. */
  predicate Works(e: Event) {
    e.Wake? || e.Iterate? || (e.ConnectReturns? && e.ok) || (e.WriteReturns? && e.ok)
  }

  lemma {:induction false} DrainWorks(s: State, arrived: bool, k: nat)
    requires Serving(s) && k < |Drain(s, arrived)|
    ensures Works(Drain(s, arrived)[k])
    decreases k
  {
    TurnHelps(s, arrived);
    if k > 0 { DrainWorks(Next(s, Turn(s, true, arrived)), arrived, k - 1); }
  }

  lemma {:induction false} RunsOn(s: State, a: seq<Event>, b: seq<Event>)
    requires Runs(s, a) && Runs(After(s, a), b)
    ensures Runs(s, a + b) && After(s, a + b) == After(After(s, a), b)
    decreases |a|
  {
    if a == [] {
      assert a + b == b;
    } else {
      RunsOn(Next(s, a[0]), a[1..], b);
      assert (a + b)[0] == a[0] && (a + b)[1..] == a[1..] + b;
    }
  }

  /**
   Whatever happened before, resets and failures included: a sender whose service is available gets a connection
   and empties the queue in a number of turns bounded by what is queued, and then everything accepted on that
   connection has been written on it.
   */
  lemma EverythingIsWritten(es: seq<Event>, arrived: bool)
    requires Runs(INITIAL, es) && After(INITIAL, es).available && After(INITIAL, es).thread
    ensures Serving(After(INITIAL, es))
    ensures var s := After(INITIAL, es);
      var turns := Drain(s, arrived);
      && |turns| <= 2 * |s.queue| + 5 && (forall k :: 0 <= k < |turns| ==> Works(turns[k]))
      && Runs(INITIAL, es + turns)
      && var t := After(INITIAL, es + turns);
      && t.connected && t.queue == []
      && AcceptedOn(|t.past|, INITIAL, es + turns) == WrittenOn(|t.past|, INITIAL, es + turns)
  {
    RunKeeps(INITIAL, es);
    var s := After(INITIAL, es);
    var turns := Drain(s, arrived);
    forall k | 0 <= k < |turns| ensures Works(turns[k]) {
      DrainWorks(s, arrived, k);
    }
    RunsOn(INITIAL, es, turns);
    NothingLostWhileLive(es + turns);
  }

  /** The next packet of a drained connection is written within two more turns, on that connection. */
  lemma NextPacketIsWritten(s: State, p: Packet, arrived: bool)
    requires Serving(s) && Drained(s) && s.sender.Top?
    ensures var t := Next(Next(s, Send(p)), Iterate);
      && t.sender == Writing(p) && t.queue == []
      && Drained(Next(t, WriteReturns(true, arrived)))
      && Next(t, WriteReturns(true, arrived)).current.delivered == s.current.delivered + [p]
  {
  }

  /** A client is connected only to a service that is there, with neither a reset nor a stop pending. */
  lemma ConnectedIsServed(es: seq<Event>)
    requires Runs(INITIAL, es) && After(INITIAL, es).connected
    ensures var s := After(INITIAL, es); s.available && !s.reset && !s.stop && s.pipe
  {
    RunKeeps(INITIAL, es);
  }

  /** After a write that failed nothing more is tried on that pipe: it is closed, and what was queued is dropped. */
  lemma FailedWriteCloses(s: State, arrived: bool)
    requires Inv(s) && s.sender.Writing?
    ensures var t := Next(s, WriteReturns(false, arrived));
      && !t.pipe && !t.connected && t.queue == [] && t.sender.Waiting?
      && |t.past| == |s.past| + 1 && t.past[|s.past|].accepted == s.current.accepted
      && t.past[|s.past|].delivered == s.current.delivered + if arrived then [s.sender.packet] else []
  {
  }

  /** A sender with nothing to do, or whose connection attempt failed, waits to be woken. */
  lemma IdleSenderWaits(s: State)
    requires Inv(s) && !s.stop
    ensures s.sender.Top? ==>
      (AfterIterate(s).sender.Waiting? <==> !s.available || s.reset || (s.connected && s.queue == []))
    ensures s.sender.Connecting? && s.available && !s.reset ==>
      Next(s, ConnectReturns(false)).sender.Waiting? && !Next(s, ConnectReturns(false)).pipe
  {
  }

  /** Announcing the service takes a sender into service at once, unless the system refuses to start one. */
  lemma AnnouncedIsServing(es: seq<Event>, start: Start)
    requires Runs(INITIAL, es) && !After(INITIAL, es).joining
    ensures var s := After(INITIAL, es); var t := Next(s, SetAvailable(true, start));
      && t.available && (Serving(t) <==> s.thread || start.Started?) && (t.thread <==> s.thread || start.Started?)
      && (!t.thread ==> t.sender.Stopped? && t.queue == [] && (t.stop <==> s.stop && start.NoEvent?))
      && t.connected == s.connected && t.queue == s.queue && t.current == s.current
  {
    RunKeeps(INITIAL, es);
    NextKeeps(After(INITIAL, es), SetAvailable(true, start));
  }

  /** When the service goes away nothing is accepted any more, and a reset of the connection is due. */
  lemma WithdrawnIsReset(es: seq<Event>, start: Start, p: Packet)
    requires Runs(INITIAL, es) && !After(INITIAL, es).joining
    ensures var s := After(INITIAL, es); var t := Next(s, SetAvailable(false, start));
      && !t.available && t.reset && t.queue == [] && Next(t, Send(p)) == t && t.thread == s.thread
  {
  }

  /** The turns of a sender told to stop, whatever its last calls answer. */
  function Ending(s: State, answers: nat -> bool, n: nat): State
    requires Inv(s)
    decreases n
  {
    if n == 0 || s.sender.Stopped? then s
    else
      NextKeeps(s, Turn(s, answers(n), false));
      Ending(Next(s, Turn(s, answers(n), false)), answers, n - 1)
  }

  function TurnsToStop(s: State): nat {
    match s.sender
    case Stopped => 0
    case Top => 1
    case Waiting => 2
    case Connecting => 2
    case Writing(_) => 3
  }

  lemma StopTurn(s: State, ok: bool)
    requires Inv(s) && s.stop && !s.sender.Stopped?
    ensures var t := Next(s, Turn(s, ok, false));
      t.stop && t.joining == s.joining && TurnsToStop(t) < TurnsToStop(s)
  {
  }

  /** A close comes to its end: the sender stops within three turns, with the pipe closed. */
  lemma {:induction false} StopEnds(s: State, answers: nat -> bool, n: nat)
    requires Inv(s) && s.stop && n >= TurnsToStop(s)
    ensures TurnsToStop(s) <= 3
    ensures var t := Ending(s, answers, n);
      t.sender.Stopped? && !t.pipe && !t.connected && t.joining == s.joining && (s.joining ==> Possible(t, CloseEnd))
    decreases n
  {
    if !s.sender.Stopped? {
      StopTurn(s, answers(n));
      NextKeeps(s, Turn(s, answers(n), false));
      StopEnds(Next(s, Turn(s, answers(n), false)), answers, n - 1);
    }
  }

  /** Closing: nothing is accepted any more, the sender is told to stop and has stopped after three turns at most. */
  lemma CloseEnds(es: seq<Event>, answers: nat -> bool, p: Packet)
    requires Runs(INITIAL, es) && !After(INITIAL, es).joining
    ensures var s := After(INITIAL, es);
      var t := Next(s, CloseBegin);
      && Inv(t) && t.stop && !t.available && !t.thread && t.joining == s.thread && Next(t, Send(p)) == t
      && var u := Ending(t, answers, 3);
      && u.sender.Stopped? && !u.pipe && u.joining == s.thread
      && (s.thread ==> Possible(u, CloseEnd) && Possible(Next(u, CloseEnd), SetAvailable(true, Started)))
  {
    RunKeeps(INITIAL, es);
    NextKeeps(After(INITIAL, es), CloseBegin);
    StopEnds(Next(After(INITIAL, es), CloseBegin), answers, 3);
  }

  // ---- the client object -----------------------------------------------------------------------

  /**
   The source's fields, the locals of its sender loop (`sender`, `pipe`), and ghost records of what
   each pipe carried.  Every method is one stretch of code run under the mutex.
   */
  class DesktopServiceInputClient {
    var serviceAvailable: bool
    var stopRequested: bool
    var resetRequested: bool
    var inputConnected: bool
    var inputQueue: seq<Packet>
    var threadJoinable: bool
    var sender: Sender
    var pipe: bool
    ghost var joining: bool
    ghost var current: Connection
    ghost var past: seq<Connection>

    ghost function View(): State
      reads this
    {
      State(serviceAvailable, stopRequested, resetRequested, inputConnected, inputQueue,
            threadJoinable, joining, sender, pipe, current, past)
    }

    constructor ()
      ensures View() == INITIAL
    {
      serviceAvailable, stopRequested, resetRequested, inputConnected := false, false, false, false;
      inputQueue, threadJoinable, sender, pipe := [], false, Stopped, false;
      joining, current, past := false, Connection([], []), [];
    }

    method SetServiceAvailable(available: bool, start: Start)
      requires Possible(View(), SetAvailable(available, start))
      modifies this
      ensures View() == Next(old(View()), SetAvailable(available, start))
    {
      serviceAvailable := available;
      if !serviceAvailable {
        resetRequested := true;
        inputConnected := false;
        inputQueue := [];
      } else {
        var started := StartInputThread(start);
      }
    }

    method StartInputThread(start: Start) returns (ok: bool)
      modifies this
      ensures View() == StartThread(old(View()), start)
      ensures ok == threadJoinable
    {
      if threadJoinable {
        return true;
      }
      if start.NoEvent? {
        return false;
      }
      stopRequested := false;
      if start.NoThread? {
        return false;
      }
      threadJoinable := true;
      sender := Top;
      return true;
    }

    method Enqueue(packet: Packet) returns (accepted: bool)
      modifies this
      ensures accepted == old(inputConnected)
      ensures View() == Next(old(View()), Send(packet))
    {
      if !inputConnected {
        return false;
      }
      inputQueue := inputQueue + [packet];
      current := current.(accepted := current.accepted + [packet]);
      return true;
    }

    /** `Close` up to the join of the sender thread. */
    method BeginClose()
      requires Possible(View(), CloseBegin)
      modifies this
      ensures View() == Next(old(View()), CloseBegin)
    {
      stopRequested := true;
      serviceAvailable := false;
      inputConnected := false;
      inputQueue := [];
      joining := threadJoinable;
      threadJoinable := false;
    }

    ghost method RecordPipeClosed()
      modifies this`current, this`past
      ensures past == old(past) + [old(current)] && current == Connection([], [])
    {
      past := past + [current];
      current := Connection([], []);
    }

    /** One turn of the loop, from its top to the next unlock or wait. */
    method LoopTop()
      requires Possible(View(), Iterate)
      modifies this
      ensures View() == Next(old(View()), Iterate)
    {
      if stopRequested {
        inputConnected := false;
        inputQueue := [];
        if pipe { RecordPipeClosed(); }
        pipe := false;
        sender := Stopped;
      } else if !serviceAvailable || resetRequested {
        inputConnected := false;
        inputQueue := [];
        if pipe { RecordPipeClosed(); }
        pipe := false;
        resetRequested := false;
        sender := Waiting;
      } else if !pipe {
        sender := Connecting;
      } else if inputQueue == [] {
        sender := Waiting;
      } else {
        var packet := inputQueue[0];
        inputQueue := inputQueue[1..];
        sender := Writing(packet);
      }
    }

    /** The mutex is taken again after `TryConnect`. */
    method Connected(ok: bool)
      requires Possible(View(), ConnectReturns(ok))
      modifies this
      ensures View() == Next(old(View()), ConnectReturns(ok))
    {
      pipe := ok;
      if stopRequested || !serviceAvailable || resetRequested {
        sender := Top;
        return;
      }
      inputConnected := ok;
      sender := if !inputConnected then Waiting else Top;
    }

    /** The mutex is taken again after `WriteMessage`; `arrived` is what the sender cannot know. */
    method Written(ok: bool, ghost arrived: bool)
      requires Possible(View(), WriteReturns(ok, arrived))
      modifies this
      ensures View() == Next(old(View()), WriteReturns(ok, arrived))
    {
      if ok || arrived {
        current := current.(delivered := current.delivered + [sender.packet]);
      }
      if !ok {
        inputConnected := false;
        inputQueue := [];
        if pipe { RecordPipeClosed(); }
        pipe := false;
        sender := Waiting;
      } else {
        sender := Top;
      }
    }
  }
}
