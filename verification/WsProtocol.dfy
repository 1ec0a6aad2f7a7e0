/**
 The WebSocket connection manager as a state machine.

 Every step is one await-free segment of `app/core/ws_manager.py`, so a run is an arbitrary
 interleaving of connects, disconnects, deliveries, writer tasks, detached evictions and pubsub
 commands.  `lockQueue` is the FIFO queue of `_pubsub_lock`.  `log` is history: it records, per
 socket, what happened to it, and no step reads it to decide anything.
 */
module WsProtocol {
  import opened Wrappers

  type User = int
  type Socket = nat
  type TaskId = nat
  type Payload = string

  const MAX_WS_PER_USER := 6
  const SEND_QUEUE_MAXSIZE := 100
  const SLOW_CONSUMER_CLOSE_CODE := 4408

  datatype WsState = WsState(queue: seq<Payload>, writer: Option<TaskId>)

  // Failing: the writer is unwinding through its own teardown and touches its queue no more.
  datatype WriterStatus = Waiting | Sending(payload: Payload) | Failing | Cancelled | Done
  datatype WriterTask = WriterTask(user: User, ws: Socket, status: WriterStatus)

  datatype Phase = Scheduled | StoppingWriter(writer: TaskId) | Unsubscribing | Closing | Finished
  datatype Teardown = Teardown(user: User, ws: Socket, closeCode: Option<int>, phase: Phase)

  datatype Request = Request(user: User, subscribe: bool, waiter: Option<TaskId>)

  datatype Log = Log(
    user: User,
    owner: Option<TaskId>,      // the teardown that popped the socket's state
    evictTask: Option<TaskId>,  // the latest eviction scheduled for the socket
    delivered: seq<Payload>,    // everything fanned out to the socket since it registered
    accepted: seq<Payload>,     // what its queue took
    sent: seq<Payload>,         // what its writer finished sending
    overflowAt: Option<nat>,    // position in `delivered` of the first overflow
    closes: seq<int>)           // close codes the manager sent it

  datatype State = State(
    connections: map<User, seq<Socket>>,
    wsState: map<Socket, WsState>,
    evictionTasks: set<TaskId>,
    writers: map<TaskId, WriterTask>,
    teardowns: map<TaskId, Teardown>,
    lockQueue: seq<Request>,
    subscribed: set<User>,
    accepting: map<Socket, User>,
    used: set<Socket>,
    nextTask: TaskId,
    log: map<Socket, Log>)

  const INITIAL := State(map[], map[], {}, map[], map[], [], {}, map[], {}, 0, map[])

  function Conns(s: State, user: User): seq<Socket> {
    if user in s.connections then s.connections[user] else []
  }

  // Connecting.

  function ConnectBegin(s: State, user: User, ws: Socket): State {
    if |Conns(s, user)| >= MAX_WS_PER_USER then s.(used := s.used + {ws})
    else s.(used := s.used + {ws}, accepting := s.accepting[ws := user])
  }

  function AcceptFailed(s: State, ws: Socket): State {
    s.(accepting := s.accepting - {ws})
  }

  function AcceptDone(s: State, ws: Socket): State
    requires ws in s.accepting
  {
    var user := s.accepting[ws];
    s.(accepting := s.accepting - {ws},
    connections := s.connections[user := Conns(s, user) + [ws]],
    wsState := s.wsState[ws := WsState([], None)],
    lockQueue := if user in s.connections then s.lockQueue else s.lockQueue + [Request(user, true, None)],
    log := s.log[ws := Log(user, None, None, [], [], [], None, [])])
  }

  // Tearing down.

  function Without(conns: seq<Socket>, ws: Socket): seq<Socket> {
    if conns == [] then []
    else if conns[0] == ws then conns[1..]
    else [conns[0]] + Without(conns[1..], ws)
  }

  function SetPhase(s: State, t: TaskId, phase: Phase): State
    requires t in s.teardowns
  {
    s.(teardowns := s.teardowns[t := s.teardowns[t].(phase := phase)])
  }

  function Finish(s: State, t: TaskId): State
    requires t in s.teardowns
  {
    SetPhase(s, t, Finished).(evictionTasks := s.evictionTasks - {t})
  }

  /** From `conns = self._connections.get(...)` to the next await. */
  function Remove(s: State, t: TaskId): State
    requires t in s.teardowns
  {
    var user := s.teardowns[t].user;
    var rest := Without(Conns(s, user), s.teardowns[t].ws);
    if rest == [] then
      SetPhase(s, t, Unsubscribing).(connections := s.connections - {user},
      lockQueue := s.lockQueue + [Request(user, false, Some(t))])
    else
      SetPhase(s, t, Closing).(connections := s.connections[user := rest])
  }

  predicate WriterRuns(s: State, writer: Option<TaskId>) {
    writer.Some? && writer.value in s.writers && !s.writers[writer.value].status.Done?
  }

  function Pop(s: State, t: TaskId, ws: Socket): State {
    s.(wsState := s.wsState - {ws},
    log := if ws in s.log then s.log[ws := s.log[ws].(owner := Some(t))] else s.log)
  }

  /** Cancel the writer; the teardown awaits it. */
  function StopWriter(s: State, t: TaskId, w: TaskId): State
    requires t in s.teardowns && w in s.writers
  {
    SetPhase(s, t, StoppingWriter(w)).(writers := s.writers[w := s.writers[w].(status := Cancelled)])
  }

  /** The first segment of `_teardown_connection`, run by task `current` when it is a writer. */
  function TeardownBegin(s: State, t: TaskId, current: Option<TaskId>): State
    requires t in s.teardowns
  {
    var ws := s.teardowns[t].ws;
    if ws !in s.wsState then Finish(s, t)
    else
      var writer := s.wsState[ws].writer;
      if !WriterRuns(s, writer) || writer == current then Remove(Pop(s, t, ws), t)
      else StopWriter(Pop(s, t, ws), t, writer.value)
  }

  function NewTeardown(s: State, user: User, ws: Socket): State {
    s.(teardowns := s.teardowns[s.nextTask := Teardown(user, ws, None, Scheduled)], nextTask := s.nextTask + 1)
  }

  /** A call that finds no state to pop returns at once and leaves nothing behind. */
  function Disconnect(s: State, user: User, ws: Socket): State {
    if ws !in s.wsState then s else TeardownBegin(NewTeardown(s, user, ws), s.nextTask, None)
  }

  function ServeLock(s: State): State
    requires s.lockQueue != []
  {
    var r := s.lockQueue[0];
    var served := s.(lockQueue := s.lockQueue[1..], subscribed := Apply(s.subscribed, r));
    if r.waiter.Some? && r.waiter.value in s.teardowns then SetPhase(served, r.waiter.value, Closing) else served
  }

  function CloseSocket(s: State, t: TaskId): State
    requires t in s.teardowns
  {
    var td := s.teardowns[t];
    var closed := if td.closeCode.Some? && td.ws in s.log
                  then s.(log := s.log[td.ws := s.log[td.ws].(closes := s.log[td.ws].closes + [td.closeCode.value])])
                  else s;
    Finish(closed, t)
  }

  // Delivering.

  function EnsureWriter(s: State, ws: Socket, user: User): State
    requires ws in s.wsState
  {
    if WriterRuns(s, s.wsState[ws].writer) then s
    else s.(wsState := s.wsState[ws := s.wsState[ws].(writer := Some(s.nextTask))],
      writers := s.writers[s.nextTask := WriterTask(user, ws, Waiting)],
      nextTask := s.nextTask + 1)
  }

  /** `put_nowait`: the payload is taken, or the queue is full and nothing changes. */
  function Put(s: State, ws: Socket, payload: Payload): State
    requires ws in s.wsState
  {
    var st := s.wsState[ws];
    if |st.queue| < SEND_QUEUE_MAXSIZE then
      s.(wsState := s.wsState[ws := st.(queue := st.queue + [payload])],
      log := if ws in s.log then s.log[ws := Accepted(s.log[ws], payload)] else s.log)
    else
      s.(log := if ws in s.log then s.log[ws := Overflowed(s.log[ws], payload)] else s.log)
  }

  function Accepted(l: Log, payload: Payload): Log {
    l.(delivered := l.delivered + [payload], accepted := l.accepted + [payload])
  }

  function Overflowed(l: Log, payload: Payload): Log {
    l.(delivered := l.delivered + [payload],
    overflowAt := if l.overflowAt.Some? then l.overflowAt else Some(|l.delivered|))
  }

  function Enqueue(s: State, user: User, ws: Socket, payload: Payload): State {
    if ws !in s.wsState then s else Put(EnsureWriter(s, ws, user), ws, payload)
  }

  predicate Full(s: State, ws: Socket) {
    ws in s.wsState && |s.wsState[ws].queue| >= SEND_QUEUE_MAXSIZE
  }

  /** The fan-out loop over a prefix of the user's sockets, and the sockets it marked for eviction. */
  function EnqueueAll(s: State, user: User, conns: seq<Socket>, payload: Payload): (State, seq<Socket>) {
    if conns == [] then (s, [])
    else
      var (before, evicted) := EnqueueAll(s, user, conns[..|conns| - 1], payload);
      var ws := conns[|conns| - 1];
      (Enqueue(before, user, ws, payload), if Full(before, ws) then evicted + [ws] else evicted)
  }

  function ScheduleEviction(s: State, user: User, ws: Socket): State {
    var t := s.nextTask;
    s.(teardowns := s.teardowns[t := Teardown(user, ws, Some(SLOW_CONSUMER_CLOSE_CODE), Scheduled)],
    evictionTasks := s.evictionTasks + {t},
    nextTask := t + 1,
    log := if ws in s.log then s.log[ws := s.log[ws].(evictTask := Some(t))] else s.log)
  }

  function ScheduleEvictions(s: State, user: User, evicted: seq<Socket>): State {
    if evicted == [] then s
    else ScheduleEviction(ScheduleEvictions(s, user, evicted[..|evicted| - 1]), user, evicted[|evicted| - 1])
  }

  function Deliver(s: State, user: User, payload: Payload): State {
    var (queued, evicted) := EnqueueAll(s, user, Conns(s, user), payload);
    ScheduleEvictions(queued, user, evicted)
  }

  // Writer tasks.

  function SetStatus(s: State, w: TaskId, status: WriterStatus): State
    requires w in s.writers
  {
    s.(writers := s.writers[w := s.writers[w].(status := status)])
  }

  predicate CanGet(s: State, w: TaskId) {
    && w in s.writers && s.writers[w].status.Waiting?
    && s.writers[w].ws in s.wsState && s.wsState[s.writers[w].ws].queue != []
  }

  function WriterGet(s: State, w: TaskId): State
    requires CanGet(s, w)
  {
    var ws := s.writers[w].ws;
    var queue := s.wsState[ws].queue;
    SetStatus(s, w, Sending(queue[0])).(wsState := s.wsState[ws := s.wsState[ws].(queue := queue[1..])])
  }

  predicate IsSending(s: State, w: TaskId) {
    w in s.writers && s.writers[w].status.Sending?
  }

  function WriterSent(s: State, w: TaskId): State
    requires IsSending(s, w)
  {
    var ws, payload := s.writers[w].ws, s.writers[w].status.payload;
    SetStatus(s, w, Waiting).(
    log := if ws in s.log then s.log[ws := s.log[ws].(sent := s.log[ws].sent + [payload])] else s.log)
  }

  function WriterFails(s: State, w: TaskId): State
    requires IsSending(s, w)
  {
    var task := s.writers[w];
    TeardownBegin(NewTeardown(SetStatus(s, w, Failing), task.user, task.ws), s.nextTask, Some(w))
  }

  // The pubsub subscription set.

  function Apply(subscribed: set<User>, r: Request): set<User> {
    if r.subscribe then subscribed + {r.user} else subscribed - {r.user}
  }

  /** The subscription once every queued request has been served in order. */
  function ApplyAll(subscribed: set<User>, queue: seq<Request>): set<User>
    decreases |queue|
  {
    if queue == [] then subscribed else ApplyAll(Apply(subscribed, queue[0]), queue[1..])
  }

  // Runs.

  datatype Event =
    | ConnectCall(user: User, ws: Socket)
    | AcceptReturns(ws: Socket)
    | AcceptRaises(ws: Socket)
    | DisconnectCall(user: User, ws: Socket)
    | DeliverCall(user: User, payload: Payload)
    | EvictionRuns(task: TaskId)
    | TeardownResumes(task: TaskId)
    | CloseRuns(task: TaskId)
    | LockServed
    | WriterGets(task: TaskId)
    | WriterSends(task: TaskId)
    | WriterRaises(task: TaskId)
    | WriterUnwinds(task: TaskId)

  predicate Enabled(s: State, e: Event) {
    match e
    case ConnectCall(_, ws) => ws !in s.used
    case AcceptReturns(ws) => ws in s.accepting
    case AcceptRaises(ws) => ws in s.accepting
    // an open socket is disconnected under the user it registered; of any other the call is a no-op
    case DisconnectCall(user, ws) => ws in s.wsState && ws in s.log ==> s.log[ws].user == user
    case DeliverCall(_, _) => true
    case EvictionRuns(t) => t in s.teardowns && s.teardowns[t].phase.Scheduled?
    case TeardownResumes(t) =>
      && t in s.teardowns && s.teardowns[t].phase.StoppingWriter?
      && s.teardowns[t].phase.writer in s.writers && s.writers[s.teardowns[t].phase.writer].status.Done?
    case CloseRuns(t) => t in s.teardowns && s.teardowns[t].phase.Closing?
    case LockServed => s.lockQueue != []
    case WriterGets(w) => CanGet(s, w)
    case WriterSends(w) => IsSending(s, w)
    case WriterRaises(w) => IsSending(s, w)
    case WriterUnwinds(w) => w in s.writers && s.writers[w].status.Cancelled?
  }

  function Step(s: State, e: Event): State
    requires Enabled(s, e)
  {
    match e
    case ConnectCall(user, ws) => ConnectBegin(s, user, ws)
    case AcceptReturns(ws) => AcceptDone(s, ws)
    case AcceptRaises(ws) => AcceptFailed(s, ws)
    case DisconnectCall(user, ws) => Disconnect(s, user, ws)
    case DeliverCall(user, payload) => Deliver(s, user, payload)
    case EvictionRuns(t) => TeardownBegin(s, t, None)
    case TeardownResumes(t) => Remove(s, t)
    case CloseRuns(t) => CloseSocket(s, t)
    case LockServed => ServeLock(s)
    case WriterGets(w) => WriterGet(s, w)
    case WriterSends(w) => WriterSent(s, w)
    case WriterRaises(w) => WriterFails(s, w)
    case WriterUnwinds(w) => SetStatus(s, w, Done)
  }

  /** A run from `s`; an event that the state does not allow is skipped. */
  function Run(s: State, events: seq<Event>): State
    decreases |events|
  {
    if events == [] then s
    else Run(if Enabled(s, events[0]) then Step(s, events[0]) else s, events[1..])
  }
}
