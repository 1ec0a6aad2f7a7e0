/** What every step of the connection manager keeps, over every interleaving. */
module WsInvariants {
  import opened Wrappers
  import opened Rows
  import opened WsProtocol

  function Get<K, V>(m: map<K, V>, k: K): Option<V> {
    if k in m then Some(m[k]) else None
  }

  function Find<V>(m: map<TaskId, V>, t: Option<TaskId>): Option<V> {
    if t.Some? then Get(m, t.value) else None
  }

  predicate Listed(s: State, user: User, ws: Socket) {
    user in s.connections && ws in s.connections[user]
  }

  // One socket, with everything the state holds about it.

  datatype SocketView = SocketView(
    log: Log, state: Option<WsState>, writer: Option<WriterTask>,
    owner: Option<Teardown>, evict: Option<Teardown>, listed: bool)

  function View(s: State, ws: Socket): SocketView
    requires ws in s.log
  {
    var l, st := s.log[ws], Get(s.wsState, ws);
    SocketView(l, st, if st.Some? then Find(s.writers, st.value.writer) else None,
               Find(s.teardowns, l.owner), Find(s.teardowns, l.evictTask), Listed(s, l.user, ws))
  }

  function InFlight(writer: Option<WriterTask>): seq<Payload> {
    if writer.Some? && writer.value.status.Sending? then [writer.value.status.payload] else []
  }

  /** The queue is bounded, its writer is alive and its own, and nothing accepted is lost or reordered. */
  predicate DeliveryOk(v: SocketView, ws: Socket)
    requires v.state.Some?
  {
    var st := v.state.value;
    && |st.queue| <= SEND_QUEUE_MAXSIZE
    && v.log.accepted == v.log.sent + InFlight(v.writer) + st.queue
    && (st.queue != [] ==> st.writer.Some?)
    && (st.writer.Some? ==>
          && v.writer.Some? && v.writer.value.ws == ws
          && (v.writer.value.status.Waiting? || v.writer.value.status.Sending?))
  }

  /** Until its first overflow a socket accepted everything; after it, an eviction is scheduled. */
  predicate OverflowOk(v: SocketView, ws: Socket, pending: bool) {
    var l := v.log;
    && (l.overflowAt.None? ==> l.accepted == l.delivered)
    && (l.overflowAt.Some? ==>
          l.overflowAt.value < |l.delivered| && l.delivered[..l.overflowAt.value] <= l.accepted)
    && (l.overflowAt.Some? && v.state.Some? && !pending ==>
          v.evict == Some(Teardown(l.user, ws, Some(SLOW_CONSUMER_CLOSE_CODE), Scheduled)))
  }

  /** Exactly one teardown owns a socket whose state was popped, and only its owner closes it. */
  predicate OwnerOk(v: SocketView, ws: Socket) {
    var l := v.log;
    && (v.state.Some? <==> l.owner.None?)
    && (v.state.Some? ==> v.listed)
    && (l.owner.Some? ==>
          && v.owner.Some? && v.owner.value.ws == ws && !v.owner.value.phase.Scheduled?
          && (v.listed <==> v.owner.value.phase.StoppingWriter?))
    && (l.evictTask.Some? ==> v.evict.Some? && v.evict.value.ws == ws)
    && l.closes == (if v.owner.Some? && v.owner.value.phase.Finished? && v.owner.value.closeCode.Some?
                    then [SLOW_CONSUMER_CLOSE_CODE] else [])
  }

  predicate SocketOk(v: SocketView, ws: Socket, pending: bool) {
    OwnerOk(v, ws) && OverflowOk(v, ws, pending) && (v.state.Some? ==> DeliveryOk(v, ws))
  }

  // One teardown, and one writer, the same way.

  datatype TeardownView = TeardownView(
    teardown: Teardown, user: Option<User>, owner: Option<TaskId>, writer: Option<WriterTask>, evicting: bool)

  function ViewTeardown(s: State, t: TaskId): TeardownView
    requires t in s.teardowns
  {
    var td := s.teardowns[t];
    var known := td.ws in s.log;
    TeardownView(td, if known then Some(s.log[td.ws].user) else None, if known then s.log[td.ws].owner else None,
                 if td.phase.StoppingWriter? then Get(s.writers, td.phase.writer) else None, t in s.evictionTasks)
  }

  predicate TeardownOk(v: TeardownView, t: TaskId) {
    var td := v.teardown;
    && v.user == Some(td.user)
    && (td.closeCode.None? || td.closeCode == Some(SLOW_CONSUMER_CLOSE_CODE))
    && (td.phase.StoppingWriter? || td.phase.Unsubscribing? || td.phase.Closing? ==> v.owner == Some(t))
    && (td.phase.StoppingWriter? ==>
          && v.writer.Some? && v.writer.value.ws == td.ws
          && (v.writer.value.status.Cancelled? || v.writer.value.status.Done?))
    && (v.evicting <==> td.closeCode.Some? && !td.phase.Finished?)
  }

  datatype WriterView = WriterView(task: WriterTask, user: Option<User>, state: Option<WsState>)

  function ViewWriter(s: State, w: TaskId): WriterView
    requires w in s.writers
  {
    var task := s.writers[w];
    WriterView(task, if task.ws in s.log then Some(s.log[task.ws].user) else None, Get(s.wsState, task.ws))
  }

  /** A writer that may still touch its socket is the one the socket's state names, so there is at most one. */
  predicate WriterOk(v: WriterView, w: TaskId) {
    && v.user == Some(v.task.user)
    && (v.task.status.Waiting? || v.task.status.Sending? ==> v.state.Some? && v.state.value.writer == Some(w))
  }

  predicate LiveWaiter(waiter: Option<TaskId>, teardowns: map<TaskId, Teardown>) {
    waiter.Some? ==> waiter.value in teardowns && teardowns[waiter.value].phase.Unsubscribing?
  }

  // The invariant, part by part.

  /** Sockets in `pending` are marked for an eviction that is not scheduled yet. */
  ghost predicate SocketsOk(s: State, pending: set<Socket>) {
    forall ws | ws in s.log :: SocketOk(View(s, ws), ws, ws in pending)
  }

  ghost predicate TeardownsOk(s: State) {
    forall t | t in s.teardowns :: TeardownOk(ViewTeardown(s, t), t)
  }

  ghost predicate WritersOk(s: State) {
    forall w | w in s.writers :: WriterOk(ViewWriter(s, w), w)
  }

  ghost predicate UserOk(conns: seq<Socket>, user: User, log: map<Socket, Log>) {
    conns != [] && Distinct(conns) && forall i :: 0 <= i < |conns| ==> conns[i] in log && log[conns[i]].user == user
  }

  ghost predicate UsersOk(s: State) {
    forall user | user in s.connections :: UserOk(s.connections[user], user, s.log)
  }

  ghost predicate LockOk(s: State) {
    && (forall i | 0 <= i < |s.lockQueue| :: LiveWaiter(s.lockQueue[i].waiter, s.teardowns))
    && (forall i, j | 0 <= i < j < |s.lockQueue| ::
          s.lockQueue[i].waiter.Some? ==> s.lockQueue[i].waiter != s.lockQueue[j].waiter)
    && (forall t | t in s.teardowns && s.teardowns[t].phase.Unsubscribing? :: Waits(s.lockQueue, t))
  }

  predicate Waits(queue: seq<Request>, t: TaskId) {
    exists i :: 0 <= i < |queue| && queue[i].waiter == Some(t)
  }

  ghost predicate SubscriptionOk(s: State) {
    ApplyAll(s.subscribed, s.lockQueue) == s.connections.Keys
  }

  ghost predicate KeysOk(s: State) {
    && (forall ws :: ws in s.wsState ==> ws in s.log)
    && (forall ws :: ws in s.log ==> ws in s.used && ws !in s.accepting)
    && (forall ws :: ws in s.accepting ==> ws in s.used)
    && (forall t :: t in s.evictionTasks ==> t in s.teardowns)
    && (forall t :: t in s.teardowns ==> t < s.nextTask)
    && (forall w :: w in s.writers ==> w < s.nextTask)
  }

  ghost predicate InvExcept(s: State, pending: set<Socket>) {
    && SocketsOk(s, pending) && TeardownsOk(s) && WritersOk(s) && UsersOk(s)
    && LockOk(s) && SubscriptionOk(s) && KeysOk(s)
  }

  ghost predicate Inv(s: State) {
    InvExcept(s, {})
  }

  // Sequences.

  lemma {:induction false} ApplyAllAppend(subscribed: set<User>, queue: seq<Request>, r: Request)
    ensures ApplyAll(subscribed, queue + [r]) == Apply(ApplyAll(subscribed, queue), r)
    decreases |queue|
  {
    if queue == [] {
      assert ApplyAll(subscribed, [r]) == ApplyAll(Apply(subscribed, r), []);
    } else {
      assert (queue + [r])[1..] == queue[1..] + [r];
      ApplyAllAppend(Apply(subscribed, queue[0]), queue[1..], r);
    }
  }

  lemma {:induction false} WithoutRemovesOne(conns: seq<Socket>, ws: Socket)
    requires Distinct(conns)
    ensures Distinct(Without(conns, ws))
    ensures forall x :: x in Without(conns, ws) <==> x in conns && x != ws
  {
    if conns != [] {
      var tail := conns[1..];
      assert conns == [conns[0]] + tail;
      WithoutRemovesOne(tail, ws);
      assert conns[0] !in tail;
      if conns[0] != ws {
        var rest := Without(tail, ws);
        assert Without(conns, ws) == [conns[0]] + rest;
        assert forall x :: x in Without(conns, ws) <==> x == conns[0] || x in rest;
      }
    }
  }

  // Locality: a step that touches one socket, one of its teardowns and its writer.

  ghost predicate Touches(s: State, s': State, ws: Socket, t: TaskId, w: TaskId) {
    && (forall x :: x != ws ==> Get(s'.log, x) == Get(s.log, x) && Get(s'.wsState, x) == Get(s.wsState, x))
    && (forall a :: a != w ==> Get(s'.writers, a) == Get(s.writers, a))
    && (forall a :: a != t ==> Get(s'.teardowns, a) == Get(s.teardowns, a))
    && (forall a :: a != t ==> (a in s'.evictionTasks <==> a in s.evictionTasks))
    && (forall user, x :: x != ws ==> (Listed(s', user, x) <==> Listed(s, user, x)))
    && (t in s.teardowns ==> s.teardowns[t].ws == ws)
    && (w in s.writers ==> s.writers[w].ws == ws)
  }

  ghost predicate OthersOk(s: State, ws: Socket, pending: set<Socket>) {
    forall x | x in s.log && x != ws :: SocketOk(View(s, x), x, x in pending)
  }

  lemma OthersStep(s: State, s': State, ws: Socket, t: TaskId, w: TaskId, pending: set<Socket>, pending': set<Socket>)
    requires OthersOk(s, ws, pending) && Touches(s, s', ws, t, w)
    requires forall x :: x != ws ==> (x in pending' <==> x in pending)
    ensures OthersOk(s', ws, pending')
  {
    forall x | x in s'.log && x != ws ensures SocketOk(View(s', x), x, x in pending') {
      assert Get(s'.log, x) == Get(s.log, x) && Get(s'.wsState, x) == Get(s.wsState, x);
      assert SocketOk(View(s, x), x, x in pending);
      assert View(s', x) == View(s, x);
    }
  }

  /** A step that touches one socket has to re-establish the invariant of that socket only. */
  lemma LocalStep(s: State, s': State, ws: Socket, t: TaskId, w: TaskId, pending: set<Socket>, pending': set<Socket>)
    requires OthersOk(s, ws, pending) && Touches(s, s', ws, t, w)
    requires ws in s'.log ==> SocketOk(View(s', ws), ws, ws in pending')
    requires forall x :: x != ws ==> (x in pending' <==> x in pending)
    ensures SocketsOk(s', pending')
  {
    OthersStep(s, s', ws, t, w, pending, pending');
  }
}
