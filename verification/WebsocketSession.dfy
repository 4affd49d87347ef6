// One websocket session: a connection that is dialled, pinged, written to,
// closed and read by a loop of its own, each from a different goroutine.

module WebsocketSession {
  import opened Wrappers

  type ConnId = nat

  datatype Phase = Disconnected | Connecting | Connected | Closed

  datatype ReadError = NotConnected | LoopError(message: string)

  const GENERATIONS := 0x1_0000_0000_0000_0000

  // The fields a session guards with its mutex. A cancel function, a done
  // channel and an event channel are named by the connection they were made
  // for; `cancelled` holds the connections whose read context was cancelled,
  // and 0 is the unset time.
  datatype Fields = Fields(
    conn: Option<ConnId>,
    phase: Phase,
    generation: nat,
    connectedAt: nat,
    lastReadAt: nat,
    lastWriteAt: nat,
    readCancel: Option<ConnId>,
    readDone: Option<ConnId>,
    readEvents: Option<ConnId>,
    readErr: Option<ReadError>,
    cancelled: set<ConnId>)

  const NEW_SESSION := Fields(None, Disconnected, 0, 0, 0, 0, None, None, None, None, {})

  datatype WriteOutcome = Written(now: nat) | TimedOut | Broken

  // One critical section. A Connect call is two of them, its dial falling in
  // between; a failed ping and the end of a read loop name the connection
  // their goroutine has held on to, which may be an old one.
  datatype Event =
    | ConnectBegins
    | DialFails
    | DialSucceeds(conn: ConnId, now: nat)
    | Send(outcome: WriteOutcome)
    | PingBreaks(conn: ConnId)
    | Close
    | Receives(conn: ConnId, now: nat)
    | ReadLoopEnds(conn: ConnId, cancelled: bool, error: string)

  function Cancelled(s: Fields): set<ConnId> {
    if s.readCancel.Some? then s.cancelled + {s.readCancel.value} else s.cancelled
  }

  function Invalidated(s: Fields): Fields {
    s.(conn := None, phase := Disconnected, readCancel := None, readEvents := None, readErr := Some(NotConnected),
       cancelled := Cancelled(s))
  }

  function Step(s: Fields, event: Event): Fields {
    match event
    case ConnectBegins => if s.conn.Some? then s else s.(phase := Connecting)
    case DialFails => s.(phase := Disconnected)
    case DialSucceeds(conn, now) =>
      Fields(Some(conn), Connected, (s.generation + 1) % GENERATIONS, now, 0, 0,
             Some(conn), Some(conn), Some(conn), None, s.cancelled)
    case Send(outcome) =>
      if s.conn.None? then s
      else (match outcome
            case Written(now) => s.(lastWriteAt := now)
            case TimedOut => s
            case Broken => Invalidated(s))
    case PingBreaks(conn) => if s.conn == Some(conn) then Invalidated(s) else s
    case Close =>
      s.(conn := None, phase := Closed, readCancel := None, readDone := None, readEvents := None, readErr := None,
         cancelled := Cancelled(s))
    case Receives(conn, now) => if s.conn == Some(conn) then s.(lastReadAt := now) else s
    case ReadLoopEnds(conn, cancelled, error) =>
      if s.conn != Some(conn) then s
      else s.(conn := None, readCancel := None, readDone := None, readEvents := None,
              readErr := if cancelled then None else Some(LoopError(error)),
              phase := if s.phase == Closed || cancelled then Closed else Disconnected)
  }

  class Session {
    var conn: Option<ConnId>
    var phase: Phase
    var generation: nat
    var connectedAt: nat
    var lastReadAt: nat
    var lastWriteAt: nat
    var readCancel: Option<ConnId>
    var readDone: Option<ConnId>
    var readEvents: Option<ConnId>
    var readErr: Option<ReadError>
    var cancelled: set<ConnId>

    constructor ()
      ensures State() == NEW_SESSION
    {
      conn, phase, generation := None, Disconnected, 0;
      connectedAt, lastReadAt, lastWriteAt := 0, 0, 0;
      readCancel, readDone, readEvents, readErr, cancelled := None, None, None, None, {};
    }

    function State(): Fields
      reads this
    {
      Fields(conn, phase, generation, connectedAt, lastReadAt, lastWriteAt,
             readCancel, readDone, readEvents, readErr, cancelled)
    }

    method BeginConnect() returns (alreadyConnected: bool)
      modifies this
      ensures State() == Step(old(State()), ConnectBegins)
      ensures alreadyConnected == old(conn).Some?
    {
      alreadyConnected := conn.Some?;
      if !alreadyConnected {
        phase := Connecting;
      }
    }

    method FinishConnect(dialled: Option<ConnId>, now: nat)
      modifies this
      ensures State() == Step(old(State()), if dialled.None? then DialFails else DialSucceeds(dialled.value, now))
    {
      if dialled.None? {
        phase := Disconnected;
        return;
      }
      conn := dialled;
      phase := Connected;
      generation := (generation + 1) % GENERATIONS;
      connectedAt, lastReadAt, lastWriteAt := now, 0, 0;
      readCancel, readDone, readEvents := dialled, dialled, dialled;
      readErr := None;
    }

    method SendEvent(outcome: WriteOutcome) returns (sent: bool)
      modifies this
      ensures State() == Step(old(State()), Send(outcome))
      ensures sent == (old(conn).Some? && outcome.Written?)
    {
      if conn.None? {
        return false;
      }
      match outcome
      case Written(now) =>
        lastWriteAt := now;
        sent := true;
      case TimedOut =>
        sent := false;
      case Broken =>
        InvalidateConnLocked();
        sent := false;
    }

    method InvalidateConn(broken: ConnId)
      modifies this
      ensures State() == Step(old(State()), PingBreaks(broken))
    {
      if conn != Some(broken) {
        return;
      }
      InvalidateConnLocked();
    }

    method InvalidateConnLocked()
      modifies this
      ensures State() == Invalidated(old(State()))
    {
      var cancel := readCancel;
      conn := None;
      phase := Disconnected;
      readCancel, readEvents, readErr := None, None, Some(NotConnected);
      if cancel.Some? {
        cancelled := cancelled + {cancel.value};
      }
    }

    method CloseSession()
      modifies this
      ensures State() == Step(old(State()), Close)
    {
      var cancel := readCancel;
      conn := None;
      phase := Closed;
      readCancel, readDone, readEvents, readErr := None, None, None, None;
      if cancel.Some? {
        cancelled := cancelled + {cancel.value};
      }
    }

    method NoteRead(from: ConnId, now: nat)
      modifies this
      ensures State() == Step(old(State()), Receives(from, now))
    {
      if conn == Some(from) {
        lastReadAt := now;
      }
    }

    method FinishReadLoop(finished: ConnId, wasCancelled: bool, error: string)
      modifies this
      ensures State() == Step(old(State()), ReadLoopEnds(finished, wasCancelled, error))
    {
      if conn != Some(finished) {
        return;
      }
      conn := None;
      readCancel, readDone, readEvents := None, None, None;
      readErr := if wasCancelled then None else Some(LoopError(error));
      if phase != Closed {
        phase := if wasCancelled then Closed else Disconnected;
      }
    }
  }

  // ---------------------------------------------------------------------
  // Runs
  // ---------------------------------------------------------------------

  // A session with what surrounds it: the connections dialled so far and the
  // Connect calls whose dial has not returned.
  datatype World = World(session: Fields, dialled: set<ConnId>, dialling: nat)

  const NEW_WORLD := World(NEW_SESSION, {}, 0)

  function EventConn(event: Event): Option<ConnId> {
    match event
    case PingBreaks(conn) => Some(conn)
    case Receives(conn, _) => Some(conn)
    case ReadLoopEnds(conn, _, _) => Some(conn)
    case _ => None
  }

  // A dial returns a connection never seen before, only a dialled connection
  // has a ping or a read loop, and a read loop sees a cancelled context only
  // once its context was cancelled.
  predicate Possible(w: World, event: Event) {
    && (event.DialFails? || event.DialSucceeds? ==> w.dialling > 0)
    && (event.DialSucceeds? ==> event.conn !in w.dialled)
    && (EventConn(event).Some? ==> EventConn(event).value in w.dialled)
    && (event.ReadLoopEnds? && event.cancelled ==> event.conn in w.session.cancelled)
  }

  function Next(w: World, event: Event): World {
    World(Step(w.session, event),
          if event.DialSucceeds? then w.dialled + {event.conn} else w.dialled,
          if event.ConnectBegins? && w.session.conn.None? then w.dialling + 1
          else if (event.DialFails? || event.DialSucceeds?) && w.dialling > 0 then w.dialling - 1
          else w.dialling)
  }

  predicate PossibleRun(w: World, events: seq<Event>)
    decreases |events|
  {
    events == [] || (Possible(w, events[0]) && PossibleRun(Next(w, events[0]), events[1..]))
  }

  function Run(w: World, events: seq<Event>): World
    decreases |events|
  {
    if events == [] then w else Run(Next(w, events[0]), events[1..])
  }

  // Connect calls do not overlap.
  predicate SerialConnects(w: World, events: seq<Event>)
    decreases |events|
  {
    w.dialling <= 1 && (events == [] || SerialConnects(Next(w, events[0]), events[1..]))
  }

  predicate HeldIffConnected(s: Fields) {
    s.conn.Some? <==> s.phase == Connected
  }

  predicate HeldIffConnectedThroughout(w: World, events: seq<Event>)
    decreases |events|
  {
    HeldIffConnected(w.session) && (events == [] || HeldIffConnectedThroughout(Next(w, events[0]), events[1..]))
  }

  predicate NoDialFailsOverAConnection(w: World, events: seq<Event>)
    decreases |events|
  {
    events == []
    || (!(events[0].DialFails? && w.session.conn.Some?) && NoDialFailsOverAConnection(Next(w, events[0]), events[1..]))
  }

  // Whatever overlaps with whatever, "a connection is held exactly when the
  // phase is connected" fails in exactly one way: a Connect call whose dial
  // fails after an overlapping one has installed its connection.
  lemma {:induction false} HeldIffConnectedExactly(w: World, events: seq<Event>)
    requires HeldIffConnected(w.session)
    ensures HeldIffConnectedThroughout(w, events) <==> NoDialFailsOverAConnection(w, events)
    decreases |events|
  {
    if events != [] {
      var next := Next(w, events[0]);
      if HeldIffConnected(next.session) {
        HeldIffConnectedExactly(next, events[1..]);
      } else {
        assert events[0].DialFails? && w.session.conn.Some?;
      }
      assert HeldIffConnected(next.session) <==> !(events[0].DialFails? && w.session.conn.Some?);
    }
  }

  // Two Connect calls that overlap can meet that case: the first dial
  // succeeds, the second fails, and the held connection is lost from sight.
  lemma OverlappingConnectsLoseAConnection()
    ensures var run := [ConnectBegins, ConnectBegins, DialSucceeds(0, 1), DialFails];
      PossibleRun(NEW_WORLD, run) && !HeldIffConnectedThroughout(NEW_WORLD, run)
  {
    var run := [ConnectBegins, ConnectBegins, DialSucceeds(0, 1), DialFails];
    var w1 := Next(NEW_WORLD, ConnectBegins);
    var w2 := Next(w1, ConnectBegins);
    var w3 := Next(w2, DialSucceeds(0, 1));
    assert run[1..] == [ConnectBegins, DialSucceeds(0, 1), DialFails];
    assert run[1..][1..] == [DialSucceeds(0, 1), DialFails];
    assert run[1..][1..][1..] == [DialFails];
    assert run[1..][1..][1..][1..] == [];
    assert !HeldIffConnected(Next(w3, DialFails).session);
  }

  // Serial Connect calls never meet that case.
  lemma {:induction false} SerialConnectsNeverFailOver(w: World, events: seq<Event>)
    requires PossibleRun(w, events) && SerialConnects(w, events)
    requires w.dialling == 1 ==> w.session.conn.None?
    ensures NoDialFailsOverAConnection(w, events)
    decreases |events|
  {
    if events != [] {
      SerialConnectsNeverFailOver(Next(w, events[0]), events[1..]);
    }
  }

  // With a connection held no serial Connect call is under way.
  lemma {:induction false} SerialDialsHoldNothing(w: World, events: seq<Event>)
    requires PossibleRun(w, events) && SerialConnects(w, events)
    requires w.dialling == 1 ==> w.session.conn.None?
    ensures Run(w, events).session.conn.Some? ==> Run(w, events).dialling == 0
    decreases |events|
  {
    if events != [] {
      SerialDialsHoldNothing(Next(w, events[0]), events[1..]);
    }
  }

  lemma HeldIffConnectedWhenSerial(events: seq<Event>)
    requires PossibleRun(NEW_WORLD, events) && SerialConnects(NEW_WORLD, events)
    ensures HeldIffConnectedThroughout(NEW_WORLD, events)
  {
    SerialConnectsNeverFailOver(NEW_WORLD, events);
    HeldIffConnectedExactly(NEW_WORLD, events);
  }

  function Connects(events: seq<Event>): nat {
    if events == [] then 0 else (if events[0].DialSucceeds? then 1 else 0) + Connects(events[1..])
  }

  // The 64-bit generation counts the successful connects.
  lemma {:induction false} GenerationCountsConnects(w: World, events: seq<Event>)
    requires w.session.generation < 0x1_0000_0000_0000_0000
    ensures Run(w, events).session.generation == (w.session.generation + Connects(events)) % 0x1_0000_0000_0000_0000
    decreases |events|
  {
    if events != [] {
      GenerationCountsConnects(Next(w, events[0]), events[1..]);
    }
  }

  // ---------------------------------------------------------------------
  // Old connections
  // ---------------------------------------------------------------------

  // The events of one connection, taken out of a run.
  function Without(events: seq<Event>, conn: ConnId): seq<Event> {
    if events == [] then []
    else if EventConn(events[0]) == Some(conn) then Without(events[1..], conn)
    else [events[0]] + Without(events[1..], conn)
  }

  // Once a connection is not the current one, nothing its read loop or its
  // pings do is ever noticed again: the run without them ends in the same
  // state.
  lemma {:induction false} OldConnectionIsPowerless(w: World, events: seq<Event>, conn: ConnId)
    requires PossibleRun(w, events)
    requires conn in w.dialled && w.session.conn != Some(conn)
    ensures Run(w, Without(events, conn)) == Run(w, events)
    ensures Run(w, events).session.conn != Some(conn)
    decreases |events|
  {
    if events != [] {
      OldConnectionIsPowerless(Next(w, events[0]), events[1..], conn);
      if EventConn(events[0]) == Some(conn) {
        assert Next(w, events[0]) == w;
      } else {
        var kept := [events[0]] + Without(events[1..], conn);
        assert kept[1..] == Without(events[1..], conn);
      }
    }
  }

  // A session's cancel function, event channel and connection belong
  // together, and the current connection's read context is not cancelled.
  predicate Inv(w: World) {
    var s := w.session;
    && s.readCancel == s.conn && s.readEvents == s.conn
    && (s.conn.Some? ==> s.readDone == s.conn && s.readErr.None? && s.phase != Closed)
    && s.cancelled <= w.dialled
    && (s.conn.Some? ==> s.conn.value in w.dialled && s.conn.value !in s.cancelled)
  }

  lemma {:induction false} RunKeepsInv(w: World, events: seq<Event>)
    requires Inv(w) && PossibleRun(w, events)
    ensures Inv(Run(w, events))
    decreases |events|
  {
    if events != [] {
      RunKeepsInv(Next(w, events[0]), events[1..]);
    }
  }

  // After any run, a read loop that ends because its context was cancelled
  // changes nothing, so a session is closed by Close alone.
  lemma OnlyCloseCloses(events: seq<Event>, event: Event)
    requires PossibleRun(NEW_WORLD, events) && Possible(Run(NEW_WORLD, events), event)
    ensures var w := Run(NEW_WORLD, events);
      && (event.ReadLoopEnds? && event.cancelled ==> Next(w, event) == w)
      && (w.session.phase != Closed && Next(w, event).session.phase == Closed ==> event == Close)
  {
    RunKeepsInv(NEW_WORLD, events);
  }

  predicate Ends(events: seq<Event>, conn: ConnId) {
    exists i :: 0 <= i < |events| && events[i].ReadLoopEnds? && events[i].conn == conn
  }

  predicate CurrentOrCancelled(w: World, conn: ConnId) {
    conn in w.dialled ==> w.session.conn == Some(conn) || conn in w.session.cancelled
  }

  lemma {:induction false} StoppedOnTheWay(w: World, events: seq<Event>, conn: ConnId)
    requires Inv(w) && PossibleRun(w, events) && SerialConnects(w, events)
    requires w.dialling == 1 ==> w.session.conn.None?
    requires CurrentOrCancelled(w, conn)
    ensures CurrentOrCancelled(Run(w, events), conn) || Ends(events, conn)
    decreases |events|
  {
    if events != [] && !(events[0].ReadLoopEnds? && events[0].conn == conn) {
      StoppedOnTheWay(Next(w, events[0]), events[1..], conn);
      if Ends(events[1..], conn) {
        var i :| 0 <= i < |events[1..]| && events[1..][i].ReadLoopEnds? && events[1..][i].conn == conn;
        assert events[i + 1] == events[1..][i];
      }
    }
  }

  // With serial Connect calls no read loop is left behind: a connection that
  // was dialled is the current one, or its read loop has been told to stop, or
  // it has ended by itself.
  lemma NoReadLoopIsLeft(events: seq<Event>, conn: ConnId)
    requires PossibleRun(NEW_WORLD, events) && SerialConnects(NEW_WORLD, events)
    requires conn in Run(NEW_WORLD, events).dialled
    ensures var s := Run(NEW_WORLD, events).session;
      || s.conn == Some(conn) || conn in s.cancelled
      || exists i :: 0 <= i < |events| && events[i].ReadLoopEnds? && events[i].conn == conn
  {
    StoppedOnTheWay(NEW_WORLD, events, conn);
  }

  // Overlapping ones can leave one behind: the second dial takes the place of
  // the first without a word to the loop that reads from it.
  lemma OverlappingConnectsLeaveAReadLoop()
    ensures var run := [ConnectBegins, ConnectBegins, DialSucceeds(0, 1), DialSucceeds(1, 2)];
      PossibleRun(NEW_WORLD, run) && Run(NEW_WORLD, run).session.conn == Some(1) && Run(NEW_WORLD, run).session.cancelled == {}
  {
    var run := [ConnectBegins, ConnectBegins, DialSucceeds(0, 1), DialSucceeds(1, 2)];
    assert run[1..] == [ConnectBegins, DialSucceeds(0, 1), DialSucceeds(1, 2)];
    assert run[1..][1..] == [DialSucceeds(0, 1), DialSucceeds(1, 2)];
    assert run[1..][1..][1..] == [DialSucceeds(1, 2)];
    assert run[1..][1..][1..][1..] == [];
  }

  // The three times: a dial sets the first and clears the others, a written
  // event over a held connection moves the last write, a message from the
  // current connection the last read, and nothing else moves any of them.
  lemma TimesByEvent(s: Fields, event: Event)
    ensures Step(s, event).connectedAt == if event.DialSucceeds? then event.now else s.connectedAt
    ensures Step(s, event).lastWriteAt ==
      if event.DialSucceeds? then 0
      else if event.Send? && event.outcome.Written? && s.conn.Some? then event.outcome.now
      else s.lastWriteAt
    ensures Step(s, event).lastReadAt ==
      if event.DialSucceeds? then 0
      else if event.Receives? && s.conn == Some(event.conn) then event.now
      else s.lastReadAt
  {
  }

  // A connection goes exactly when the session is closed, a write breaks, or
  // its own ping or read loop fails.
  lemma ConnectionGoesIff(events: seq<Event>, event: Event, conn: ConnId)
    requires PossibleRun(NEW_WORLD, events) && SerialConnects(NEW_WORLD, events) && Possible(Run(NEW_WORLD, events), event)
    requires Run(NEW_WORLD, events).session.conn == Some(conn)
    ensures Next(Run(NEW_WORLD, events), event).session.conn != Some(conn)
       <==> event == Close || event == Send(Broken) || event == PingBreaks(conn) || (event.ReadLoopEnds? && event.conn == conn)
  {
    RunKeepsInv(NEW_WORLD, events);
    SerialDialsHoldNothing(NEW_WORLD, events);
  }

  // The state, the reader's error, and what is left of a connection, field by
  // field.
  lemma FieldsByEvent(s: Fields, event: Event)
    ensures var after, current := Step(s, event), (event.PingBreaks? || event.ReadLoopEnds?) && s.conn == Some(event.conn);
      var broken := (event.PingBreaks? && current) || (event == Send(Broken) && s.conn.Some?);
      && after.phase ==
           (if event.Close? then Closed
            else if event.DialSucceeds? then Connected
            else if event.DialFails? || broken then Disconnected
            else if event.ConnectBegins? && s.conn.None? then Connecting
            else if event.ReadLoopEnds? && current then (if event.cancelled || s.phase == Closed then Closed else Disconnected)
            else s.phase)
      && after.readErr ==
           (if event.Close? || event.DialSucceeds? then None
            else if broken then Some(NotConnected)
            else if event.ReadLoopEnds? && current then (if event.cancelled then None else Some(LoopError(event.error)))
            else s.readErr)
      && after.readDone ==
           (if event.DialSucceeds? then Some(event.conn)
            else if event.Close? || (event.ReadLoopEnds? && current) then None
            else s.readDone)
      && after.cancelled == (if (event.Close? || broken) && s.readCancel.Some? then s.cancelled + {s.readCancel.value} else s.cancelled)
  {
  }

  // What a reader of a session without a connection is told: the error its
  // read loop ended with, or that nothing is connected after a broken write or
  // ping.
  lemma ReaderIsTold(events: seq<Event>, event: Event)
    requires PossibleRun(NEW_WORLD, events) && Possible(Run(NEW_WORLD, events), event)
    requires Run(NEW_WORLD, events).session.conn.Some? && Next(Run(NEW_WORLD, events), event).session.conn.None?
    ensures var before, after := Run(NEW_WORLD, events).session, Next(Run(NEW_WORLD, events), event).session;
      && after.readErr == (match event
                           case ReadLoopEnds(_, _, error) => Some(LoopError(error))
                           case Close => None
                           case _ => Some(NotConnected))
      && after.phase == (if event.Close? then Closed else Disconnected)
      && (event.Close? || event.PingBreaks? || event.ReadLoopEnds? || event == Send(Broken))
      && (!event.ReadLoopEnds? ==> before.conn.value in after.cancelled)
  {
    RunKeepsInv(NEW_WORLD, events);
  }
}
