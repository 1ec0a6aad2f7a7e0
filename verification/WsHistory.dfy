/**
 What a run did to one socket, read off the events and the manager's own fields, and the proof that
 the log kept beside the state records exactly that: every step is accounted for, the delivery loop
 reaches every open socket of the user once, and no other step counts as a delivery or a send.
 */
module WsHistory {
  import opened Wrappers
  import opened Rows
  import opened WsProtocol
  import opened WsInvariants
  import opened WsSteps

  /** Payloads delivered to the user while the socket was open, taken by its queue, and sent. */
  datatype History = History(fannedOut: seq<Payload>, taken: seq<Payload>, sent: seq<Payload>, overflowAt: Option<nat>)

  const NOTHING := History([], [], [], None)

  /** What event `e`, happening in `s`, adds to the history of the user's socket `ws`. */
  function Recorded(h: History, s: State, e: Event, user: User, ws: Socket): History {
    match e
    case DeliverCall(to, payload) =>
      if to != user || ws !in s.wsState then h else Offered(h, payload, Full(s, ws))
    case WriterSends(w) =>
      if IsSending(s, w) && s.writers[w].ws == ws then h.(sent := h.sent + [s.writers[w].status.payload]) else h
    case _ => h
  }

  /** A full queue takes nothing; the first time, that is the overflow. */
  function Offered(h: History, payload: Payload, full: bool): History {
    if full then
      h.(fannedOut := h.fannedOut + [payload],
         overflowAt := if h.overflowAt.Some? then h.overflowAt else Some(|h.fannedOut|))
    else h.(fannedOut := h.fannedOut + [payload], taken := h.taken + [payload])
  }

  function Replay(h: History, s: State, events: seq<Event>, user: User, ws: Socket): History
    decreases |events|
  {
    if events == [] then h
    else if !Enabled(s, events[0]) then Replay(h, s, events[1..], user, ws)
    else Replay(Recorded(h, s, events[0], user, ws), Step(s, events[0]), events[1..], user, ws)
  }

  function Delivered(s: State, e: Event, user: User, ws: Socket): seq<Payload> {
    if e.DeliverCall? && e.user == user && ws in s.wsState then [e.payload] else []
  }

  /** The payloads of the user's deliveries that come while the socket is open. */
  function FannedOut(s: State, events: seq<Event>, user: User, ws: Socket): seq<Payload>
    decreases |events|
  {
    if events == [] then []
    else
      var e := events[0];
      Delivered(s, e, user, ws) + FannedOut(if Enabled(s, e) then Step(s, e) else s, events[1..], user, ws)
  }

  lemma RecordedFansOut(h: History, s: State, e: Event, user: User, ws: Socket)
    ensures Recorded(h, s, e, user, ws).fannedOut == h.fannedOut + Delivered(s, e, user, ws)
    ensures !Enabled(s, e) ==> Delivered(s, e, user, ws) == []
  {
  }

  lemma {:induction false} ReplayFansOut(h: History, s: State, events: seq<Event>, user: User, ws: Socket)
    ensures Replay(h, s, events, user, ws).fannedOut == h.fannedOut + FannedOut(s, events, user, ws)
    decreases |events|
  {
    if events != [] {
      var e := events[0];
      RecordedFansOut(h, s, e, user, ws);
      if Enabled(s, e) { ReplayFansOut(Recorded(h, s, e, user, ws), Step(s, e), events[1..], user, ws); }
      else { ReplayFansOut(h, s, events[1..], user, ws); }
    }
  }

  /** The same history, as the log has it. */
  function Logged(s: State, ws: Socket): History {
    if ws in s.log then History(s.log[ws].delivered, s.log[ws].accepted, s.log[ws].sent, s.log[ws].overflowAt)
    else NOTHING
  }

  // The fan-out loop, as one socket sees it.

  /** The socket after the loop has reached it, if it has. */
  ghost predicate Reached(s: State, s': State, ws: Socket, payload: Payload, reached: bool)
    requires ws in s.log
  {
    var open := reached && ws in s.wsState;
    && ws in s'.log && s'.log[ws].user == s.log[ws].user
    && (ws in s'.wsState <==> ws in s.wsState)
    && Logged(s', ws) == (if open then Offered(Logged(s, ws), payload, Full(s, ws)) else Logged(s, ws))
    && (ws in s.wsState ==>
          s'.wsState[ws].queue == s.wsState[ws].queue + (if reached && !Full(s, ws) then [payload] else []))
  }

  lemma {:induction false} EnqueueAllAt(s: State, user: User, conns: seq<Socket>, payload: Payload, ws: Socket)
    requires KeysOk(s) && Distinct(conns) && ws in s.log
    ensures var (s', evicted) := EnqueueAll(s, user, conns, payload);
            && Reached(s, s', ws, payload, ws in conns)
            && (ws in evicted <==> ws in conns && Full(s, ws))
  {
    if conns != [] {
      var init, last := conns[..|conns| - 1], conns[|conns| - 1];
      assert conns == init + [last];
      EnqueueAllAt(s, user, init, payload, ws);
      EnqueueAt(EnqueueAll(s, user, init, payload).0, user, last, payload, ws);
    }
  }

  lemma EnqueueAt(s: State, user: User, last: Socket, payload: Payload, ws: Socket)
    requires ws in s.log
    ensures Reached(s, Enqueue(s, user, last, payload), ws, payload, ws == last)
  {
    if last in s.wsState {
      var s' := EnsureWriter(s, last, user);
      if ws == last { PutHere(s', ws, payload); } else { PutElsewhere(s', last, payload, ws); }
    }
  }

  lemma PutHere(s: State, ws: Socket, payload: Payload)
    requires ws in s.log && ws in s.wsState
    ensures Reached(s, Put(s, ws, payload), ws, payload, true)
  {
  }

  lemma PutElsewhere(s: State, last: Socket, payload: Payload, ws: Socket)
    requires ws in s.log && last in s.wsState && ws != last
    ensures var s' := Put(s, last, payload);
            && ws in s'.log && (ws in s'.wsState <==> ws in s.wsState)
            && s'.log[ws] == s.log[ws] && (ws in s.wsState ==> s'.wsState[ws] == s.wsState[ws])
  {
  }

  /** The log of one socket stays, but for what the history does not mention. */
  predicate Unrecorded(s: State, s': State, ws: Socket) {
    ws in s.log ==> ws in s'.log && s'.log[ws].user == s.log[ws].user && Logged(s', ws) == Logged(s, ws)
  }

  lemma {:induction false} ScheduleAllAt(s: State, user: User, evicted: seq<Socket>, ws: Socket)
    ensures var s' := ScheduleEvictions(s, user, evicted);
            && Unrecorded(s, s', ws) && (ws in s'.log <==> ws in s.log)
            && s'.wsState == s.wsState && s'.connections == s.connections
  {
    if evicted != [] {
      ScheduleAllAt(s, user, evicted[..|evicted| - 1], ws);
    }
  }

  /** A delivery reaches exactly the user's open sockets, once each, whatever the others' queues hold. */
  lemma DeliverAt(s: State, user: User, payload: Payload, ws: Socket)
    requires Inv(s) && ws in s.log
    ensures Reached(s, Deliver(s, user, payload), ws, payload, s.log[ws].user == user && ws in s.wsState)
  {
    var conns := Conns(s, user);
    ConnsOwned(s, user);
    assert SocketOk(View(s, ws), ws, false);
    EnqueueAllAt(s, user, conns, payload, ws);
    var (queued, evicted) := EnqueueAll(s, user, conns, payload);
    ScheduleAllAt(queued, user, evicted, ws);
  }

  lemma {:induction false} EnqueueAllUnknown(s: State, user: User, conns: seq<Socket>, payload: Payload, ws: Socket)
    requires ws !in s.log
    ensures ws !in EnqueueAll(s, user, conns, payload).0.log
  {
    if conns != [] { EnqueueAllUnknown(s, user, conns[..|conns| - 1], payload, ws); }
  }

  // The other steps.

  lemma TeardownUnrecorded(s: State, t: TaskId, current: Option<TaskId>, ws: Socket)
    requires t in s.teardowns
    ensures Unrecorded(s, TeardownBegin(s, t, current), ws) && (ws in TeardownBegin(s, t, current).log <==> ws in s.log)
  {
    PopUnrecorded(s, t, s.teardowns[t].ws, ws);
  }

  lemma PopUnrecorded(s: State, t: TaskId, popped: Socket, ws: Socket)
    ensures Unrecorded(s, Pop(s, t, popped), ws) && (ws in Pop(s, t, popped).log <==> ws in s.log)
  {
  }

  lemma DeliverHistory(s: State, to: User, payload: Payload, user: User, ws: Socket)
    requires Inv(s) && (ws in s.log ==> s.log[ws].user == user)
    ensures Logged(Deliver(s, to, payload), ws) == Recorded(Logged(s, ws), s, DeliverCall(to, payload), user, ws)
    ensures Stays(s, Deliver(s, to, payload), ws)
  {
    if ws in s.log {
      DeliverAt(s, to, payload, ws);
    } else {
      EnqueueAllUnknown(s, to, Conns(s, to), payload, ws);
      var (queued, evicted) := EnqueueAll(s, to, Conns(s, to), payload);
      ScheduleAllAt(queued, to, evicted, ws);
    }
  }

  lemma SendHistory(s: State, w: TaskId, user: User, ws: Socket)
    requires Inv(s) && IsSending(s, w)
    ensures Logged(WriterSent(s, w), ws) == Recorded(Logged(s, ws), s, WriterSends(w), user, ws)
    ensures Stays(s, WriterSent(s, w), ws)
  {
    assert WriterOk(ViewWriter(s, w), w);
  }

  /** The socket stays known, under its user. */
  predicate Stays(s: State, s': State, ws: Socket) {
    ws in s.log ==> ws in s'.log && s'.log[ws].user == s.log[ws].user
  }

  lemma AcceptHistory(s: State, accepted: Socket, ws: Socket)
    requires KeysOk(s) && accepted in s.accepting
    ensures Logged(AcceptDone(s, accepted), ws) == Logged(s, ws) && Stays(s, AcceptDone(s, accepted), ws)
  {
  }

  lemma CloseHistory(s: State, t: TaskId, ws: Socket)
    requires t in s.teardowns
    ensures Logged(CloseSocket(s, t), ws) == Logged(s, ws) && Stays(s, CloseSocket(s, t), ws)
  {
  }

  lemma TeardownHistory(s: State, e: Event, ws: Socket)
    requires Enabled(s, e) && (e.DisconnectCall? || e.EvictionRuns? || e.WriterRaises?)
    ensures Logged(Step(s, e), ws) == Logged(s, ws) && Stays(s, Step(s, e), ws)
  {
    match e
    case DisconnectCall(of, socket) =>
      if socket in s.wsState { TeardownUnrecorded(NewTeardown(s, of, socket), s.nextTask, None, ws); }
    case EvictionRuns(t) => TeardownUnrecorded(s, t, None, ws);
    case WriterRaises(w) =>
      var task := s.writers[w];
      TeardownUnrecorded(NewTeardown(SetStatus(s, w, Failing), task.user, task.ws), s.nextTask, Some(w), ws);
  }

  // The steps that do not touch the log.

  lemma ConnectHistory(s: State, e: Event)
    requires Enabled(s, e) && (e.ConnectCall? || e.AcceptRaises?)
    ensures Step(s, e).log == s.log
  {
  }

  lemma WriterHistory(s: State, e: Event)
    requires Enabled(s, e) && (e.WriterGets? || e.WriterUnwinds?)
    ensures Step(s, e).log == s.log
  {
  }

  lemma RemoveHistory(s: State, t: TaskId)
    requires t in s.teardowns
    ensures Remove(s, t).log == s.log
  {
  }

  lemma LockHistory(s: State)
    requires s.lockQueue != []
    ensures ServeLock(s).log == s.log
  {
  }

  /** Every step adds to the log what the event adds to the history, and no step loses or renames a socket. */
  lemma HistoryStep(s: State, e: Event, user: User, ws: Socket)
    requires Inv(s) && Enabled(s, e) && (ws in s.log ==> s.log[ws].user == user)
    ensures Logged(Step(s, e), ws) == Recorded(Logged(s, ws), s, e, user, ws)
    ensures Stays(s, Step(s, e), ws)
  {
    match e
    case DeliverCall(to, payload) => DeliverHistory(s, to, payload, user, ws);
    case WriterSends(w) => SendHistory(s, w, user, ws);
    case AcceptReturns(accepted) => AcceptHistory(s, accepted, ws);
    case CloseRuns(t) => CloseHistory(s, t, ws);
    case DisconnectCall(_, _) => TeardownHistory(s, e, ws);
    case EvictionRuns(_) => TeardownHistory(s, e, ws);
    case WriterRaises(_) => TeardownHistory(s, e, ws);
    case ConnectCall(_, _) => ConnectHistory(s, e);
    case AcceptRaises(_) => ConnectHistory(s, e);
    case WriterGets(_) => WriterHistory(s, e);
    case WriterUnwinds(_) => WriterHistory(s, e);
    case TeardownResumes(t) => RemoveHistory(s, t);
    case LockServed => LockHistory(s);
  }

  lemma {:induction false} UserStays(s: State, events: seq<Event>, ws: Socket)
    requires Inv(s) && ws in s.log
    ensures ws in Run(s, events).log && Run(s, events).log[ws].user == s.log[ws].user
    decreases |events|
  {
    if events != [] {
      var e := events[0];
      if Enabled(s, e) {
        HistoryStep(s, e, s.log[ws].user, ws);
        StepKeeps(s, e);
        UserStays(Step(s, e), events[1..], ws);
      } else {
        UserStays(s, events[1..], ws);
      }
    }
  }

  /** And so over whole runs. */
  lemma {:induction false} RunHistory(s: State, events: seq<Event>, user: User, ws: Socket)
    requires Inv(s) && ws in Run(s, events).log && Run(s, events).log[ws].user == user
    ensures Logged(Run(s, events), ws) == Replay(Logged(s, ws), s, events, user, ws)
    decreases |events|
  {
    if events != [] {
      var e := events[0];
      if Enabled(s, e) {
        if ws in s.log { UserStays(s, events, ws); }
        HistoryStep(s, e, user, ws);
        StepKeeps(s, e);
        RunHistory(Step(s, e), events[1..], user, ws);
      } else {
        RunHistory(s, events[1..], user, ws);
      }
    }
  }
}
