/**
 The connection manager itself: an object whose methods are the await-free segments of
 `app/core/ws_manager.py`, each proved to take the step of the protocol it stands for.
 */
module ConnectionManagers {
  import opened Wrappers
  import opened WsProtocol
  import opened WsInvariants
  import opened WsSteps

  class ConnectionManager {
    // the manager's own fields
    var connections: map<User, seq<Socket>>
    var wsState: map<Socket, WsState>
    var evictionTasks: set<TaskId>
    // the event loop and the pubsub connection around it
    var writers: map<TaskId, WriterTask>
    var teardowns: map<TaskId, Teardown>
    var lockQueue: seq<Request>
    var subscribed: set<User>
    var accepting: map<Socket, User>
    var used: set<Socket>
    var nextTask: TaskId
    ghost var log: map<Socket, Log>

    ghost function Snapshot(): State
      reads this
    {
      State(connections, wsState, evictionTasks, writers, teardowns, lockQueue, subscribed, accepting, used,
            nextTask, log)
    }

    ghost predicate Valid()
      reads this
    {
      Inv(Snapshot())
    }

    constructor ()
      ensures Valid() && Snapshot() == INITIAL
    {
      connections, wsState, evictionTasks := map[], map[], {};
      writers, teardowns, lockQueue, subscribed := map[], map[], [], {};
      accepting, used, nextTask := map[], {}, 0;
      log := map[];
    }

    /** `connect`, up to the handshake. */
    method ConnectCall(user: User, ws: Socket) returns (admitted: bool)
      requires ws !in used
      modifies this
      ensures Snapshot() == Step(old(Snapshot()), Event.ConnectCall(user, ws))
      ensures admitted <==> old(|Conns(Snapshot(), user)|) < 6
    {
      var existing := if user in connections then connections[user] else [];
      used := used + {ws};
      if |existing| >= MAX_WS_PER_USER {
        return false;
      }
      accepting := accepting[ws := user];
      return true;
    }

    /** `connect`, after the handshake. */
    method AcceptReturns(ws: Socket)
      requires ws in accepting
      modifies this
      ensures Snapshot() == Step(old(Snapshot()), Event.AcceptReturns(ws))
    {
      var user := accepting[ws];
      accepting := accepting - {ws};
      var isFirst := user !in connections;
      if isFirst {
        connections := connections[user := []];
      }
      connections := connections[user := connections[user] + [ws]];
      wsState := wsState[ws := WsState([], None)];
      log := log[ws := Log(user, None, None, [], [], [], None, [])];
      if isFirst {
        lockQueue := lockQueue + [Request(user, true, None)];
      }
      assert connections == old(connections)[user := Conns(old(Snapshot()), user) + [ws]];
    }

    method AcceptRaises(ws: Socket)
      requires ws in accepting
      modifies this`accepting
      ensures Snapshot() == Step(old(Snapshot()), Event.AcceptRaises(ws))
    {
      accepting := accepting - {ws};
    }

    /** `_teardown_connection` from its start to its first await. */
    method BeginTeardown(t: TaskId, current: Option<TaskId>)
      requires t in teardowns
      modifies this
      ensures Snapshot() == TeardownBegin(old(Snapshot()), t, current)
    {
      var ws := teardowns[t].ws;
      if ws !in wsState {
        EndTeardown(t);
        return;
      }
      var st := wsState[ws];
      wsState := wsState - {ws};
      log := if ws in log then log[ws := log[ws].(owner := Some(t))] else log;
      var stopped := StopWriter(st.writer, current, t);
      if stopped {
        RemoveConnection(t);
      }
    }

    /** `_stop_writer`: true when the teardown does not have to wait. */
    method StopWriter(writer: Option<TaskId>, current: Option<TaskId>, t: TaskId) returns (stopped: bool)
      requires t in teardowns
      modifies this`writers, this`teardowns
      ensures stopped <==> !WriterRuns(old(Snapshot()), writer) || writer == current
      ensures Snapshot() == if stopped then old(Snapshot())
                            else WsProtocol.StopWriter(old(Snapshot()), t, writer.value)
    {
      if writer.None? || writer.value !in writers || writers[writer.value].status.Done? {
        return true;
      }
      if writer == current {
        return true;
      }
      var w := writer.value;
      writers := writers[w := writers[w].(status := Cancelled)];
      teardowns := teardowns[t := teardowns[t].(phase := StoppingWriter(w))];
      return false;
    }

    /** `_teardown_connection` from the lookup of the list to the next await. */
    method RemoveConnection(t: TaskId)
      requires t in teardowns
      modifies this`connections, this`lockQueue, this`teardowns
      ensures Snapshot() == Remove(old(Snapshot()), t)
    {
      var user, ws := teardowns[t].user, teardowns[t].ws;
      var conns := if user in connections then connections[user] else [];
      conns := Without(conns, ws);
      if conns == [] {
        connections := connections - {user};
        lockQueue := lockQueue + [Request(user, false, Some(t))];
        teardowns := teardowns[t := teardowns[t].(phase := Unsubscribing)];
      } else {
        connections := connections[user := conns];
        teardowns := teardowns[t := teardowns[t].(phase := Closing)];
      }
    }

    /** The teardown returns; an eviction leaves the set that kept it alive. */
    method EndTeardown(t: TaskId)
      requires t in teardowns
      modifies this`teardowns, this`evictionTasks
      ensures Snapshot() == Finish(old(Snapshot()), t)
    {
      teardowns := teardowns[t := teardowns[t].(phase := Finished)];
      evictionTasks := evictionTasks - {t};
    }

    method SpawnTeardown(user: User, ws: Socket) returns (t: TaskId)
      modifies this`teardowns, this`nextTask
      ensures t == old(nextTask) && Snapshot() == NewTeardown(old(Snapshot()), user, ws)
    {
      t := nextTask;
      teardowns := teardowns[t := Teardown(user, ws, None, Scheduled)];
      nextTask := t + 1;
    }

    method DisconnectCall(user: User, ws: Socket)
      requires ws in wsState && ws in log ==> log[ws].user == user
      modifies this
      ensures Snapshot() == Step(old(Snapshot()), Event.DisconnectCall(user, ws))
      ensures ws !in old(wsState) ==> Snapshot() == old(Snapshot())
    {
      if ws !in wsState { return; }
      var t := SpawnTeardown(user, ws);
      BeginTeardown(t, None);
    }

    method EvictionRuns(t: TaskId)
      requires t in teardowns && teardowns[t].phase.Scheduled?
      modifies this
      ensures Snapshot() == Step(old(Snapshot()), Event.EvictionRuns(t))
    {
      BeginTeardown(t, None);
    }

    method TeardownResumes(t: TaskId)
      requires Enabled(Snapshot(), Event.TeardownResumes(t))
      modifies this
      ensures Snapshot() == Step(old(Snapshot()), Event.TeardownResumes(t))
    {
      RemoveConnection(t);
    }

    method CloseRuns(t: TaskId)
      requires t in teardowns && teardowns[t].phase.Closing?
      modifies this
      ensures Snapshot() == Step(old(Snapshot()), Event.CloseRuns(t))
    {
      var td := teardowns[t];
      if td.closeCode.Some? {
        var code := td.closeCode.value;
        log := if td.ws in log then log[td.ws := log[td.ws].(closes := log[td.ws].closes + [code])] else log;
      }
      EndTeardown(t);
    }

    /** The head of the lock queue sends its pubsub command and releases the lock. */
    method LockServed()
      requires lockQueue != []
      modifies this
      ensures Snapshot() == Step(old(Snapshot()), Event.LockServed)
    {
      var r := lockQueue[0];
      lockQueue := lockQueue[1..];
      if r.subscribe {
        subscribed := subscribed + {r.user};
      } else {
        subscribed := subscribed - {r.user};
      }
      if r.waiter.Some? && r.waiter.value in teardowns {
        teardowns := teardowns[r.waiter.value := teardowns[r.waiter.value].(phase := Closing)];
      }
    }

    /** `_deliver_local`: one await-free segment, two loops. */
    method DeliverLocal(user: User, payload: Payload)
      modifies this
      ensures Snapshot() == Step(old(Snapshot()), Event.DeliverCall(user, payload))
    {
      ghost var start := Snapshot();
      var conns := if user in connections then connections[user] else [];
      var evicted: seq<Socket> := [];
      var i := 0;
      while i < |conns|
        invariant 0 <= i <= |conns|
        invariant (Snapshot(), evicted) == EnqueueAll(start, user, conns[..i], payload)
      {
        assert conns[..i + 1][..i] == conns[..i];
        var full := EnqueueOne(user, conns[i], payload);
        if full {
          evicted := evicted + [conns[i]];
        }
        i := i + 1;
      }
      assert conns[..i] == conns;
      ghost var queued := Snapshot();
      var j := 0;
      while j < |evicted|
        invariant 0 <= j <= |evicted|
        invariant Snapshot() == ScheduleEvictions(queued, user, evicted[..j])
      {
        assert evicted[..j + 1][..j] == evicted[..j];
        SpawnEviction(user, evicted[j]);
        j := j + 1;
      }
      assert evicted[..j] == evicted;
    }

    /** One pass of the fan-out loop: start the writer if it is not running, then `put_nowait`. */
    method EnqueueOne(user: User, ws: Socket, payload: Payload) returns (full: bool)
      modifies this`wsState, this`writers, this`nextTask, this`log
      ensures full == Full(old(Snapshot()), ws)
      ensures Snapshot() == Enqueue(old(Snapshot()), user, ws, payload)
    {
      if ws !in wsState {
        return false;
      }
      var writer := wsState[ws].writer;
      if writer.None? || writer.value !in writers || writers[writer.value].status.Done? {
        wsState := wsState[ws := wsState[ws].(writer := Some(nextTask))];
        writers := writers[nextTask := WriterTask(user, ws, Waiting)];
        nextTask := nextTask + 1;
      }
      var st := wsState[ws];
      if |st.queue| < SEND_QUEUE_MAXSIZE {
        wsState := wsState[ws := st.(queue := st.queue + [payload])];
        log := if ws in log then log[ws := Accepted(log[ws], payload)] else log;
        return false;
      }
      log := if ws in log then log[ws := Overflowed(log[ws], payload)] else log;
      return true;
    }

    method SpawnEviction(user: User, ws: Socket)
      modifies this`teardowns, this`evictionTasks, this`nextTask, this`log
      ensures Snapshot() == ScheduleEviction(old(Snapshot()), user, ws)
    {
      var t := nextTask;
      teardowns := teardowns[t := Teardown(user, ws, Some(SLOW_CONSUMER_CLOSE_CODE), Scheduled)];
      evictionTasks := evictionTasks + {t};
      nextTask := t + 1;
      log := if ws in log then log[ws := log[ws].(evictTask := Some(t))] else log;
    }

    /** `_writer_loop`: `queue.get()` returns. */
    method WriterGets(w: TaskId)
      requires CanGet(Snapshot(), w)
      modifies this
      ensures Snapshot() == Step(old(Snapshot()), Event.WriterGets(w))
    {
      var ws := writers[w].ws;
      var queue := wsState[ws].queue;
      wsState := wsState[ws := wsState[ws].(queue := queue[1..])];
      writers := writers[w := writers[w].(status := Sending(queue[0]))];
    }

    /** `_writer_loop`: `send_text` returns. */
    method WriterSends(w: TaskId)
      requires IsSending(Snapshot(), w)
      modifies this
      ensures Snapshot() == Step(old(Snapshot()), Event.WriterSends(w))
    {
      var ws := writers[w].ws;
      log := if ws in log then log[ws := log[ws].(sent := log[ws].sent + [writers[w].status.payload])] else log;
      writers := writers[w := writers[w].(status := Waiting)];
    }

    /** `_writer_loop`: `send_text` raises, and the writer tears its own socket down. */
    method WriterRaises(w: TaskId)
      requires IsSending(Snapshot(), w)
      modifies this
      ensures Snapshot() == Step(old(Snapshot()), Event.WriterRaises(w))
    {
      var task := writers[w];
      writers := writers[w := task.(status := Failing)];
      var t := SpawnTeardown(task.user, task.ws);
      BeginTeardown(t, Some(w));
    }

    /** The cancellation reaches the writer. */
    method WriterUnwinds(w: TaskId)
      requires w in writers && writers[w].status.Cancelled?
      modifies this
      ensures Snapshot() == Step(old(Snapshot()), Event.WriterUnwinds(w))
    {
      writers := writers[w := writers[w].(status := Done)];
    }

    /** One turn of the event loop: whatever segment runs next, the manager stays valid. */
    method Turn(e: Event)
      requires Valid() && Enabled(Snapshot(), e)
      modifies this
      ensures Valid() && Snapshot() == Step(old(Snapshot()), e)
    {
      StepKeeps(Snapshot(), e);
      RunSegment(e);
    }

    method RunSegment(e: Event)
      requires Enabled(Snapshot(), e)
      modifies this
      ensures Snapshot() == Step(old(Snapshot()), e)
    {
      match e
      case ConnectCall(user, ws) => var _ := ConnectCall(user, ws);
      case AcceptReturns(ws) => AcceptReturns(ws);
      case AcceptRaises(ws) => AcceptRaises(ws);
      case DisconnectCall(user, ws) => DisconnectCall(user, ws);
      case DeliverCall(user, payload) => DeliverLocal(user, payload);
      case EvictionRuns(t) => EvictionRuns(t);
      case TeardownResumes(t) => TeardownResumes(t);
      case CloseRuns(t) => CloseRuns(t);
      case LockServed => LockServed();
      case WriterGets(w) => WriterGets(w);
      case WriterSends(w) => WriterSends(w);
      case WriterRaises(w) => WriterRaises(w);
      case WriterUnwinds(w) => WriterUnwinds(w);
    }
  }
}
