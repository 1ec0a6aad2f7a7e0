/**
 Each step of the connection manager keeps the invariant.

 A step touches one socket.  For each there is a lemma on what it touches, one on the touched
 socket, one on the tasks, and `...Keeps`, which puts them together.
 */
module WsSteps {
  import opened Wrappers
  import opened Rows
  import opened WsProtocol
  import opened WsInvariants

  // Frames of the parts a step does not touch.

  lemma SameUsers(s: State, s': State)
    requires UsersOk(s) && s'.connections == s.connections
    requires forall ws :: ws in s.log ==> ws in s'.log && s'.log[ws].user == s.log[ws].user
    ensures UsersOk(s')
  {
    forall u | u in s'.connections ensures UserOk(s'.connections[u], u, s'.log) {
      assert UserOk(s.connections[u], u, s.log);
    }
  }

  lemma SameLock(s: State, s': State)
    requires LockOk(s) && s'.lockQueue == s.lockQueue
    requires forall t :: t in s.teardowns && s.teardowns[t].phase.Unsubscribing? <==>
               t in s'.teardowns && s'.teardowns[t].phase.Unsubscribing?
    ensures LockOk(s')
  {
    forall i | 0 <= i < |s'.lockQueue| ensures LiveWaiter(s'.lockQueue[i].waiter, s'.teardowns) {
      assert LiveWaiter(s.lockQueue[i].waiter, s.teardowns);
    }
  }

  lemma WaitsAppend(queue: seq<Request>, t: TaskId, r: Request)
    ensures Waits(queue, t) ==> Waits(queue + [r], t)
  {
    if Waits(queue, t) {
      var i :| 0 <= i < |queue| && queue[i].waiter == Some(t);
      assert (queue + [r])[i].waiter == Some(t);
    }
  }

  lemma SameTasks(s: State, s': State)
    requires TeardownsOk(s) && WritersOk(s)
    requires s'.teardowns == s.teardowns && s'.writers == s.writers && s'.evictionTasks == s.evictionTasks
    requires forall ws :: ws in s.log ==>
               ws in s'.log && s'.log[ws].user == s.log[ws].user && s'.log[ws].owner == s.log[ws].owner
    requires forall ws :: ws in s.log ==> Get(s'.wsState, ws) == Get(s.wsState, ws)
    ensures TeardownsOk(s') && WritersOk(s')
  {
    forall t | t in s'.teardowns ensures TeardownOk(ViewTeardown(s', t), t) {
      assert TeardownOk(ViewTeardown(s, t), t);
      assert ViewTeardown(s', t) == ViewTeardown(s, t);
    }
    forall w | w in s'.writers ensures WriterOk(ViewWriter(s', w), w) {
      assert WriterOk(ViewWriter(s, w), w);
      assert ViewWriter(s', w) == ViewWriter(s, w);
    }
  }

  // Connecting.

  lemma SameSockets(s: State, s': State)
    requires SocketsOk(s, {})
    requires s'.log == s.log && s'.wsState == s.wsState && s'.connections == s.connections
    requires s'.writers == s.writers && s'.teardowns == s.teardowns
    ensures SocketsOk(s', {})
  {
    forall x | x in s'.log ensures SocketOk(View(s', x), x, false) {
      assert SocketOk(View(s, x), x, false);
      assert View(s', x) == View(s, x);
    }
  }

  /** A step that changes only which sockets are waiting to be accepted. */
  lemma AcceptingStepKeeps(s: State, s': State)
    requires Inv(s)
    requires s' == s.(used := s'.used, accepting := s'.accepting)
    requires KeysOk(s')
    ensures Inv(s')
  {
    SameSockets(s, s');
    SameTasks(s, s');
    SameUsers(s, s');
    SameLock(s, s');
  }

  lemma ConnectBeginKeys(s: State, user: User, ws: Socket)
    requires KeysOk(s) && ws !in s.used
    ensures KeysOk(ConnectBegin(s, user, ws))
  {
  }

  lemma ConnectBeginKeeps(s: State, user: User, ws: Socket)
    requires Inv(s) && ws !in s.used
    ensures Inv(ConnectBegin(s, user, ws))
  {
    ConnectBeginKeys(s, user, ws);
    AcceptingStepKeeps(s, ConnectBegin(s, user, ws));
  }

  lemma AcceptFailedKeeps(s: State, ws: Socket)
    requires Inv(s)
    ensures Inv(AcceptFailed(s, ws))
  {
    AcceptingStepKeeps(s, AcceptFailed(s, ws));
  }

  lemma AcceptDoneTouches(s: State, ws: Socket)
    requires KeysOk(s) && ws in s.accepting
    ensures Touches(s, AcceptDone(s, ws), ws, s.nextTask, s.nextTask)
    ensures KeysOk(AcceptDone(s, ws))
    ensures SocketOk(View(AcceptDone(s, ws), ws), ws, false)
  {
  }

  lemma AcceptDoneUsers(s: State, ws: Socket)
    requires UsersOk(s) && KeysOk(s) && ws in s.accepting
    ensures UsersOk(AcceptDone(s, ws))
  {
    var s' := AcceptDone(s, ws);
    forall u | u in s'.connections ensures UserOk(s'.connections[u], u, s'.log) {
      if u in s.connections { assert UserOk(s.connections[u], u, s.log); }
    }
  }

  lemma AcceptDoneLock(s: State, ws: Socket)
    requires LockOk(s) && SubscriptionOk(s) && ws in s.accepting
    ensures LockOk(AcceptDone(s, ws)) && SubscriptionOk(AcceptDone(s, ws))
  {
    var s' := AcceptDone(s, ws);
    forall i | 0 <= i < |s'.lockQueue| ensures LiveWaiter(s'.lockQueue[i].waiter, s'.teardowns) {
      if i < |s.lockQueue| { assert LiveWaiter(s.lockQueue[i].waiter, s.teardowns); }
    }
    forall t | t in s'.teardowns && s'.teardowns[t].phase.Unsubscribing? ensures Waits(s'.lockQueue, t) {
      WaitsAppend(s.lockQueue, t, Request(s.accepting[ws], true, None));
    }
    ApplyAllAppend(s.subscribed, s.lockQueue, Request(s.accepting[ws], true, None));
  }

  lemma AcceptDoneTasks(s: State, ws: Socket)
    requires TeardownsOk(s) && WritersOk(s) && ws in s.accepting && ws !in s.log
    ensures TeardownsOk(AcceptDone(s, ws)) && WritersOk(AcceptDone(s, ws))
  {
    SameTasks(s, AcceptDone(s, ws));
  }

  lemma AcceptDoneKeeps(s: State, ws: Socket)
    requires Inv(s) && ws in s.accepting
    ensures Inv(AcceptDone(s, ws))
  {
    var s' := AcceptDone(s, ws);
    AcceptDoneTouches(s, ws);
    LocalStep(s, s', ws, s.nextTask, s.nextTask, {}, {});
    AcceptDoneTasks(s, ws);
    AcceptDoneUsers(s, ws);
    AcceptDoneLock(s, ws);
  }

  // Writers.

  lemma WriterGetTouches(s: State, w: TaskId)
    requires CanGet(s, w) && KeysOk(s)
    ensures Touches(s, WriterGet(s, w), s.writers[w].ws, s.nextTask, w)
    ensures KeysOk(WriterGet(s, w))
  {
  }

  lemma WriterGetSocket(s: State, w: TaskId, ws: Socket)
    requires CanGet(s, w) && s.writers[w].ws == ws && ws in s.log
    requires WriterOk(ViewWriter(s, w), w) && SocketOk(View(s, ws), ws, false)
    ensures SocketOk(View(WriterGet(s, w), ws), ws, false)
  {
  }

  lemma WriterGetTasks(s: State, w: TaskId)
    requires CanGet(s, w) && TeardownsOk(s) && WritersOk(s)
    ensures TeardownsOk(WriterGet(s, w)) && WritersOk(WriterGet(s, w))
  {
    var s' := WriterGet(s, w);
    assert WriterOk(ViewWriter(s, w), w);
    forall a | a in s'.teardowns ensures TeardownOk(ViewTeardown(s', a), a) {
      assert TeardownOk(ViewTeardown(s, a), a);
    }
    forall a | a in s'.writers ensures WriterOk(ViewWriter(s', a), a) {
      assert WriterOk(ViewWriter(s, a), a);
    }
  }

  lemma WriterGetFrame(s: State, w: TaskId)
    requires CanGet(s, w) && UsersOk(s) && LockOk(s)
    ensures UsersOk(WriterGet(s, w)) && LockOk(WriterGet(s, w))
  {
    SameUsers(s, WriterGet(s, w));
    SameLock(s, WriterGet(s, w));
  }

  lemma WriterGetKeeps(s: State, w: TaskId)
    requires Inv(s) && CanGet(s, w)
    ensures Inv(WriterGet(s, w))
  {
    var s', ws := WriterGet(s, w), s.writers[w].ws;
    assert WriterOk(ViewWriter(s, w), w);
    WriterGetTouches(s, w);
    WriterGetSocket(s, w, ws);
    LocalStep(s, s', ws, s.nextTask, w, {}, {});
    WriterGetTasks(s, w);
    WriterGetFrame(s, w);
  }

  lemma WriterSentTouches(s: State, w: TaskId)
    requires IsSending(s, w) && KeysOk(s)
    ensures Touches(s, WriterSent(s, w), s.writers[w].ws, s.nextTask, w)
    ensures KeysOk(WriterSent(s, w))
  {
  }

  lemma WriterSentSocket(s: State, w: TaskId, ws: Socket)
    requires IsSending(s, w) && s.writers[w].ws == ws && ws in s.log
    requires WriterOk(ViewWriter(s, w), w) && SocketOk(View(s, ws), ws, false)
    ensures SocketOk(View(WriterSent(s, w), ws), ws, false)
  {
  }

  lemma WriterSentTasks(s: State, w: TaskId)
    requires IsSending(s, w) && TeardownsOk(s) && WritersOk(s)
    ensures TeardownsOk(WriterSent(s, w)) && WritersOk(WriterSent(s, w))
  {
    var s' := WriterSent(s, w);
    assert WriterOk(ViewWriter(s, w), w);
    forall a | a in s'.teardowns ensures TeardownOk(ViewTeardown(s', a), a) {
      assert TeardownOk(ViewTeardown(s, a), a);
    }
    forall a | a in s'.writers ensures WriterOk(ViewWriter(s', a), a) {
      assert WriterOk(ViewWriter(s, a), a);
    }
  }

  lemma WriterSentFrame(s: State, w: TaskId)
    requires IsSending(s, w) && UsersOk(s) && LockOk(s)
    ensures UsersOk(WriterSent(s, w)) && LockOk(WriterSent(s, w))
  {
    SameUsers(s, WriterSent(s, w));
    SameLock(s, WriterSent(s, w));
  }

  lemma WriterSentKeeps(s: State, w: TaskId)
    requires Inv(s) && IsSending(s, w)
    ensures Inv(WriterSent(s, w))
  {
    var s', ws := WriterSent(s, w), s.writers[w].ws;
    assert WriterOk(ViewWriter(s, w), w);
    WriterSentTouches(s, w);
    WriterSentSocket(s, w, ws);
    LocalStep(s, s', ws, s.nextTask, w, {}, {});
    WriterSentTasks(s, w);
    WriterSentFrame(s, w);
  }

  lemma UnwindTouches(s: State, w: TaskId)
    requires KeysOk(s) && w in s.writers && s.writers[w].status.Cancelled?
    ensures Touches(s, SetStatus(s, w, Done), s.writers[w].ws, s.nextTask, w)
    ensures KeysOk(SetStatus(s, w, Done))
  {
  }

  lemma UnwindSocket(s: State, w: TaskId, ws: Socket)
    requires w in s.writers && s.writers[w].status.Cancelled? && s.writers[w].ws == ws
    requires ws in s.log && SocketOk(View(s, ws), ws, false)
    ensures SocketOk(View(SetStatus(s, w, Done), ws), ws, false)
  {
    assert View(SetStatus(s, w, Done), ws) == View(s, ws);
  }

  lemma UnwindTasks(s: State, w: TaskId)
    requires w in s.writers && s.writers[w].status.Cancelled? && TeardownsOk(s) && WritersOk(s)
    ensures TeardownsOk(SetStatus(s, w, Done)) && WritersOk(SetStatus(s, w, Done))
  {
    var s' := SetStatus(s, w, Done);
    forall a | a in s'.teardowns ensures TeardownOk(ViewTeardown(s', a), a) {
      assert TeardownOk(ViewTeardown(s, a), a);
    }
    forall a | a in s'.writers ensures WriterOk(ViewWriter(s', a), a) {
      assert WriterOk(ViewWriter(s, a), a);
    }
  }

  lemma UnwindFrame(s: State, w: TaskId)
    requires w in s.writers && UsersOk(s) && LockOk(s)
    ensures UsersOk(SetStatus(s, w, Done)) && LockOk(SetStatus(s, w, Done))
  {
    SameUsers(s, SetStatus(s, w, Done));
    SameLock(s, SetStatus(s, w, Done));
  }

  lemma UnwindKeeps(s: State, w: TaskId)
    requires Inv(s) && w in s.writers && s.writers[w].status.Cancelled?
    ensures Inv(SetStatus(s, w, Done))
  {
    var s', ws := SetStatus(s, w, Done), s.writers[w].ws;
    assert WriterOk(ViewWriter(s, w), w);
    UnwindTouches(s, w);
    UnwindSocket(s, w, ws);
    LocalStep(s, s', ws, s.nextTask, w, {}, {});
    UnwindTasks(s, w);
    UnwindFrame(s, w);
  }

  // Ending a teardown.

  lemma FinishTouches(s: State, t: TaskId)
    requires KeysOk(s) && t in s.teardowns
    ensures Touches(s, Finish(s, t), s.teardowns[t].ws, t, s.nextTask)
    ensures KeysOk(Finish(s, t))
  {
  }

  lemma FinishSocket(s: State, t: TaskId, ws: Socket)
    requires t in s.teardowns && s.teardowns[t].phase.Scheduled? && s.teardowns[t].ws == ws && ws !in s.wsState
    requires ws in s.log && SocketOk(View(s, ws), ws, false)
    ensures SocketOk(View(Finish(s, t), ws), ws, false)
  {
  }

  lemma FinishTasks(s: State, t: TaskId)
    requires t in s.teardowns && TeardownsOk(s) && WritersOk(s)
    ensures TeardownsOk(Finish(s, t)) && WritersOk(Finish(s, t))
  {
    var s' := Finish(s, t);
    forall a | a in s'.teardowns ensures TeardownOk(ViewTeardown(s', a), a) {
      assert TeardownOk(ViewTeardown(s, a), a);
    }
    forall a | a in s'.writers ensures WriterOk(ViewWriter(s', a), a) {
      assert WriterOk(ViewWriter(s, a), a);
    }
  }

  lemma FinishFrame(s: State, t: TaskId)
    requires t in s.teardowns && s.teardowns[t].phase.Scheduled? && UsersOk(s) && LockOk(s)
    ensures UsersOk(Finish(s, t)) && LockOk(Finish(s, t))
  {
    SameUsers(s, Finish(s, t));
    SameLock(s, Finish(s, t));
  }

  lemma FinishKeeps(s: State, t: TaskId)
    requires Inv(s) && t in s.teardowns && s.teardowns[t].phase.Scheduled? && s.teardowns[t].ws !in s.wsState
    ensures Inv(Finish(s, t))
  {
    var s', ws := Finish(s, t), s.teardowns[t].ws;
    assert TeardownOk(ViewTeardown(s, t), t);
    FinishTouches(s, t);
    FinishSocket(s, t, ws);
    LocalStep(s, s', ws, t, s.nextTask, {}, {});
    FinishTasks(s, t);
    FinishFrame(s, t);
  }

  lemma CloseTouches(s: State, t: TaskId)
    requires KeysOk(s) && t in s.teardowns
    ensures Touches(s, CloseSocket(s, t), s.teardowns[t].ws, t, s.nextTask)
  {
  }

  lemma CloseKeys(s: State, t: TaskId)
    requires KeysOk(s) && t in s.teardowns
    ensures KeysOk(CloseSocket(s, t))
  {
  }

  lemma CloseOnce(s: State, t: TaskId, ws: Socket)
    requires t in s.teardowns && s.teardowns[t].phase.Closing? && s.teardowns[t].ws == ws
    requires ws in s.log && TeardownOk(ViewTeardown(s, t), t) && SocketOk(View(s, ws), ws, false)
    ensures SocketOk(View(CloseSocket(s, t), ws), ws, false)
  {
  }

  lemma CloseTeardowns(s: State, t: TaskId)
    requires t in s.teardowns && TeardownsOk(s)
    ensures TeardownsOk(CloseSocket(s, t))
  {
    var s' := CloseSocket(s, t);
    forall a | a in s'.teardowns ensures TeardownOk(ViewTeardown(s', a), a) {
      assert TeardownOk(ViewTeardown(s, a), a);
    }
  }

  lemma CloseWriters(s: State, t: TaskId)
    requires t in s.teardowns && WritersOk(s)
    ensures WritersOk(CloseSocket(s, t))
  {
    var s' := CloseSocket(s, t);
    forall a | a in s'.writers ensures WriterOk(ViewWriter(s', a), a) {
      assert WriterOk(ViewWriter(s, a), a);
    }
  }

  lemma CloseFrame(s: State, t: TaskId)
    requires t in s.teardowns && s.teardowns[t].phase.Closing? && UsersOk(s) && LockOk(s)
    ensures UsersOk(CloseSocket(s, t)) && LockOk(CloseSocket(s, t))
  {
    SameUsers(s, CloseSocket(s, t));
    SameLock(s, CloseSocket(s, t));
  }

  lemma CloseKeeps(s: State, t: TaskId)
    requires Inv(s) && t in s.teardowns && s.teardowns[t].phase.Closing?
    ensures Inv(CloseSocket(s, t))
  {
    var s', ws := CloseSocket(s, t), s.teardowns[t].ws;
    assert TeardownOk(ViewTeardown(s, t), t);
    CloseTouches(s, t);
    CloseKeys(s, t);
    CloseOnce(s, t, ws);
    LocalStep(s, s', ws, t, s.nextTask, {}, {});
    CloseTeardowns(s, t);
    CloseWriters(s, t);
    CloseFrame(s, t);
  }

  // The lock.

  lemma ServeTouches(s: State, t: TaskId)
    requires KeysOk(s) && s.lockQueue != [] && s.lockQueue[0].waiter == Some(t) && t in s.teardowns
    ensures Touches(s, ServeLock(s), s.teardowns[t].ws, t, s.nextTask)
  {
  }

  lemma ServeSocket(s: State, t: TaskId, ws: Socket)
    requires s.lockQueue != [] && s.lockQueue[0].waiter == Some(t) && t in s.teardowns
    requires s.teardowns[t].phase.Unsubscribing? && s.teardowns[t].ws == ws
    requires ws in s.log && TeardownOk(ViewTeardown(s, t), t) && SocketOk(View(s, ws), ws, false)
    ensures SocketOk(View(ServeLock(s), ws), ws, false)
  {
  }

  lemma ServeTasks(s: State)
    requires s.lockQueue != [] && TeardownsOk(s) && WritersOk(s)
    requires LiveWaiter(s.lockQueue[0].waiter, s.teardowns)
    ensures TeardownsOk(ServeLock(s)) && WritersOk(ServeLock(s))
  {
    var s' := ServeLock(s);
    forall a | a in s'.teardowns ensures TeardownOk(ViewTeardown(s', a), a) {
      assert TeardownOk(ViewTeardown(s, a), a);
    }
    forall a | a in s'.writers ensures WriterOk(ViewWriter(s', a), a) {
      assert WriterOk(ViewWriter(s, a), a);
    }
  }

  lemma ServeQueue(s: State)
    requires s.lockQueue != [] && LockOk(s) && SubscriptionOk(s)
    ensures LockOk(ServeLock(s)) && SubscriptionOk(ServeLock(s))
  {
    var s' := ServeLock(s);
    forall i | 0 <= i < |s'.lockQueue| ensures LiveWaiter(s'.lockQueue[i].waiter, s'.teardowns) {
      assert LiveWaiter(s.lockQueue[i + 1].waiter, s.teardowns);
      assert s'.lockQueue[i] == s.lockQueue[i + 1];
    }
    forall t | t in s'.teardowns && s'.teardowns[t].phase.Unsubscribing? ensures Waits(s'.lockQueue, t) {
      assert Waits(s.lockQueue, t);
      var i :| 0 <= i < |s.lockQueue| && s.lockQueue[i].waiter == Some(t);
      assert s'.lockQueue[i - 1].waiter == Some(t);
    }
  }

  lemma ServeFrame(s: State)
    requires s.lockQueue != [] && UsersOk(s)
    ensures UsersOk(ServeLock(s))
  {
    SameUsers(s, ServeLock(s));
  }

  lemma ServeKeys(s: State)
    requires s.lockQueue != [] && KeysOk(s)
    ensures KeysOk(ServeLock(s))
  {
  }

  lemma ServeLockKeeps(s: State)
    requires Inv(s) && s.lockQueue != []
    ensures Inv(ServeLock(s))
  {
    var s', waiter := ServeLock(s), s.lockQueue[0].waiter;
    assert LiveWaiter(waiter, s.teardowns);
    if waiter.Some? {
      var t := waiter.value;
      assert TeardownOk(ViewTeardown(s, t), t);
      ServeTouches(s, t);
      ServeSocket(s, t, s.teardowns[t].ws);
      LocalStep(s, s', s.teardowns[t].ws, t, s.nextTask, {}, {});
    } else {
      SameSockets(s, s');
    }
    ServeTasks(s);
    ServeQueue(s);
    ServeFrame(s);
    ServeKeys(s);
  }

  // Removing the socket from its user's list.

  /** Teardown `t` has popped its socket's state and has not removed the socket from the list yet. */
  ghost predicate Owning(s: State, t: TaskId) {
    t in s.teardowns &&
    var td := s.teardowns[t];
    && (td.phase.Scheduled? || td.phase.StoppingWriter?)
    && td.ws in s.log && td.ws !in s.wsState
    && var v := View(s, td.ws);
    && v.log.user == td.user && v.log.owner == Some(t) && v.listed && v.log.closes == []
    && (v.log.evictTask.Some? ==> v.evict.Some? && v.evict.value.ws == td.ws)
    && OverflowOk(v, td.ws, false)
    && (td.closeCode.None? || td.closeCode == Some(SLOW_CONSUMER_CLOSE_CODE))
    && (t in s.evictionTasks <==> td.closeCode.Some?)
  }

  ghost predicate OtherTeardownsOk(s: State, t: TaskId) {
    forall a | a in s.teardowns && a != t :: TeardownOk(ViewTeardown(s, a), a)
  }

  lemma RemoveTouches(s: State, t: TaskId)
    requires KeysOk(s) && UsersOk(s) && Owning(s, t)
    ensures Touches(s, Remove(s, t), s.teardowns[t].ws, t, s.nextTask)
    ensures forall u :: !Listed(Remove(s, t), u, s.teardowns[t].ws)
  {
    var s', u, ws := Remove(s, t), s.teardowns[t].user, s.teardowns[t].ws;
    assert UserOk(s.connections[u], u, s.log);
    WithoutRemovesOne(s.connections[u], ws);
    forall v, x | x != ws ensures Listed(s', v, x) <==> Listed(s, v, x) {}
    forall v ensures !Listed(s', v, ws) {
      if v in s.connections { assert UserOk(s.connections[v], v, s.log); }
    }
  }

  lemma RemoveSocket(s: State, t: TaskId, ws: Socket)
    requires Owning(s, t) && ws == s.teardowns[t].ws
    requires !Listed(Remove(s, t), s.teardowns[t].user, ws)
    ensures SocketOk(View(Remove(s, t), ws), ws, false)
  {
  }

  lemma RemoveTeardowns(s: State, t: TaskId)
    requires Owning(s, t) && OtherTeardownsOk(s, t)
    ensures TeardownsOk(Remove(s, t))
  {
    var s' := Remove(s, t);
    forall a | a in s'.teardowns ensures TeardownOk(ViewTeardown(s', a), a) {
      if a != t {
        assert TeardownOk(ViewTeardown(s, a), a);
        assert ViewTeardown(s', a) == ViewTeardown(s, a);
      }
    }
  }

  lemma RemoveWriters(s: State, t: TaskId)
    requires t in s.teardowns && WritersOk(s)
    ensures WritersOk(Remove(s, t))
  {
    var s' := Remove(s, t);
    forall a | a in s'.writers ensures WriterOk(ViewWriter(s', a), a) {
      assert WriterOk(ViewWriter(s, a), a);
      assert ViewWriter(s', a) == ViewWriter(s, a);
    }
  }

  lemma RemoveUsers(s: State, t: TaskId)
    requires UsersOk(s) && Owning(s, t)
    ensures UsersOk(Remove(s, t))
  {
    var s', u, ws := Remove(s, t), s.teardowns[t].user, s.teardowns[t].ws;
    assert UserOk(s.connections[u], u, s.log);
    WithoutRemovesOne(s.connections[u], ws);
    forall v | v in s'.connections ensures UserOk(s'.connections[v], v, s'.log) {
      assert UserOk(s.connections[v], v, s.log);
      if v == u {
        forall i | 0 <= i < |s'.connections[v]| ensures s'.connections[v][i] in s.connections[v] {
          assert s'.connections[v][i] in s'.connections[v];
        }
      }
    }
  }

  lemma RemoveLock(s: State, t: TaskId)
    requires LockOk(s) && SubscriptionOk(s) && Owning(s, t)
    ensures LockOk(Remove(s, t)) && SubscriptionOk(Remove(s, t))
  {
    var s', u := Remove(s, t), s.teardowns[t].user;
    forall i | 0 <= i < |s.lockQueue|
      ensures s.lockQueue[i].waiter != Some(t) && LiveWaiter(s.lockQueue[i].waiter, s'.teardowns)
    {
      assert LiveWaiter(s.lockQueue[i].waiter, s.teardowns);
    }
    var r := Request(u, false, Some(t));
    forall a | a in s'.teardowns && s'.teardowns[a].phase.Unsubscribing? ensures Waits(s'.lockQueue, a) {
      if a == t { assert s'.lockQueue[|s.lockQueue|] == r; } else { WaitsAppend(s.lockQueue, a, r); }
    }
    ApplyAllAppend(s.subscribed, s.lockQueue, r);
  }

  lemma RemoveKeys(s: State, t: TaskId)
    requires KeysOk(s) && t in s.teardowns
    ensures KeysOk(Remove(s, t))
  {
  }

  lemma RemoveKeeps(s: State, t: TaskId)
    requires Owning(s, t) && OthersOk(s, s.teardowns[t].ws, {}) && OtherTeardownsOk(s, t) && WritersOk(s)
    requires UsersOk(s) && LockOk(s) && SubscriptionOk(s) && KeysOk(s)
    ensures Inv(Remove(s, t))
  {
    var s', ws := Remove(s, t), s.teardowns[t].ws;
    RemoveTouches(s, t);
    RemoveSocket(s, t, ws);
    LocalStep(s, s', ws, t, s.nextTask, {}, {});
    RemoveTeardowns(s, t);
    RemoveWriters(s, t);
    RemoveUsers(s, t);
    RemoveLock(s, t);
    RemoveKeys(s, t);
  }

  lemma ResumeKeeps(s: State, t: TaskId)
    requires Inv(s) && t in s.teardowns && s.teardowns[t].phase.StoppingWriter?
    ensures Inv(Remove(s, t))
  {
    var ws := s.teardowns[t].ws;
    assert TeardownOk(ViewTeardown(s, t), t);
    assert SocketOk(View(s, ws), ws, false);
    RemoveKeeps(s, t);
  }

  // Beginning a teardown.

  lemma PopTouches(s: State, t: TaskId, ws: Socket)
    requires KeysOk(s) && t in s.teardowns && s.teardowns[t].ws == ws
    ensures Touches(s, Pop(s, t, ws), ws, t, s.nextTask)
  {
  }

  lemma PopFrame(s: State, t: TaskId, ws: Socket)
    requires UsersOk(s) && LockOk(s) && KeysOk(s)
    ensures UsersOk(Pop(s, t, ws)) && LockOk(Pop(s, t, ws)) && KeysOk(Pop(s, t, ws))
  {
    SameUsers(s, Pop(s, t, ws));
    SameLock(s, Pop(s, t, ws));
  }

  lemma PopOwns(s: State, t: TaskId, ws: Socket)
    requires t in s.teardowns && s.teardowns[t].phase.Scheduled? && s.teardowns[t].ws == ws
    requires TeardownOk(ViewTeardown(s, t), t)
    requires ws in s.log && ws in s.wsState && OwnerOk(View(s, ws), ws) && OverflowOk(View(s, ws), ws, false)
    ensures Owning(Pop(s, t, ws), t)
  {
  }

  /** No other teardown had got past its first segment, because nobody owned the socket. */
  lemma PopTeardowns(s: State, t: TaskId, ws: Socket)
    requires TeardownsOk(s) && ws in s.log && s.log[ws].owner.None?
    ensures OtherTeardownsOk(Pop(s, t, ws), t)
  {
    var s' := Pop(s, t, ws);
    forall a | a in s'.teardowns && a != t ensures TeardownOk(ViewTeardown(s', a), a) {
      assert TeardownOk(ViewTeardown(s, a), a);
    }
  }

  lemma PopWriters(s: State, t: TaskId, ws: Socket)
    requires WritersOk(s) && ws in s.wsState
    requires s.wsState[ws].writer.Some? && s.wsState[ws].writer.value in s.writers ==>
               var status := s.writers[s.wsState[ws].writer.value].status; !status.Waiting? && !status.Sending?
    ensures WritersOk(Pop(s, t, ws))
  {
    var s' := Pop(s, t, ws);
    forall a | a in s'.writers ensures WriterOk(ViewWriter(s', a), a) {
      assert WriterOk(ViewWriter(s, a), a);
    }
  }

  lemma StopTouches(s: State, t: TaskId, w: TaskId, ws: Socket)
    requires KeysOk(s) && t in s.teardowns && s.teardowns[t].ws == ws
    requires w in s.writers && s.writers[w].ws == ws
    ensures Touches(s, StopWriter(Pop(s, t, ws), t, w), ws, t, w)
  {
  }

  lemma StopFrame(s: State, t: TaskId, w: TaskId)
    requires UsersOk(s) && LockOk(s) && t in s.teardowns && s.teardowns[t].phase.Scheduled? && w in s.writers
    ensures UsersOk(StopWriter(s, t, w)) && LockOk(StopWriter(s, t, w))
  {
    SameUsers(s, StopWriter(s, t, w));
    SameLock(s, StopWriter(s, t, w));
  }

  lemma StopKeys(s: State, t: TaskId, w: TaskId)
    requires KeysOk(s) && t in s.teardowns && w in s.writers
    ensures KeysOk(StopWriter(s, t, w))
  {
  }

  lemma StopSocket(s: State, t: TaskId, w: TaskId, ws: Socket)
    requires Owning(s, t) && s.teardowns[t].ws == ws && w in s.writers
    ensures SocketOk(View(StopWriter(s, t, w), ws), ws, false)
  {
  }

  lemma StopTeardowns(s: State, t: TaskId, w: TaskId)
    requires Owning(s, t) && OtherTeardownsOk(s, t) && w in s.writers && s.writers[w].ws == s.teardowns[t].ws
    ensures TeardownsOk(StopWriter(s, t, w))
  {
    var s' := StopWriter(s, t, w);
    forall a | a in s'.teardowns ensures TeardownOk(ViewTeardown(s', a), a) {
      if a != t { assert TeardownOk(ViewTeardown(s, a), a); }
    }
  }

  lemma StopWriters(s: State, t: TaskId, w: TaskId, ws: Socket)
    requires WritersOk(s) && t in s.teardowns && ws in s.wsState && s.wsState[ws].writer == Some(w) && w in s.writers
    ensures WritersOk(StopWriter(Pop(s, t, ws), t, w))
  {
    var s' := StopWriter(Pop(s, t, ws), t, w);
    forall a | a in s'.writers ensures WriterOk(ViewWriter(s', a), a) {
      assert WriterOk(ViewWriter(s, a), a);
    }
  }

  lemma TeardownBeginKeeps(s: State, t: TaskId)
    requires Inv(s) && t in s.teardowns && s.teardowns[t].phase.Scheduled?
    ensures Inv(TeardownBegin(s, t, None))
  {
    var ws := s.teardowns[t].ws;
    if ws !in s.wsState {
      FinishKeeps(s, t);
    } else {
      var writer := s.wsState[ws].writer;
      assert TeardownOk(ViewTeardown(s, t), t);
      assert SocketOk(View(s, ws), ws, false);
      PopFrame(s, t, ws);
      PopOwns(s, t, ws);
      PopTeardowns(s, t, ws);
      if WriterRuns(s, writer) {
        StopKeeps(s, t, writer.value, ws);
      } else {
        IdleRemoveKeeps(s, t, ws);
      }
    }
  }

  lemma IdleRemoveKeeps(s: State, t: TaskId, ws: Socket)
    requires SocketsOk(s, {}) && WritersOk(s) && KeysOk(s) && SubscriptionOk(s)
    requires t in s.teardowns && s.teardowns[t].ws == ws && ws in s.wsState && !WriterRuns(s, s.wsState[ws].writer)
    requires var p := Pop(s, t, ws); Owning(p, t) && OtherTeardownsOk(p, t) && UsersOk(p) && LockOk(p) && KeysOk(p)
    ensures Inv(Remove(Pop(s, t, ws), t))
  {
    PopTouches(s, t, ws);
    OthersStep(s, Pop(s, t, ws), ws, t, s.nextTask, {}, {});
    PopWriters(s, t, ws);
    RemoveKeeps(Pop(s, t, ws), t);
  }

  lemma StopKeeps(s: State, t: TaskId, w: TaskId, ws: Socket)
    requires SocketsOk(s, {}) && WritersOk(s) && KeysOk(s) && SubscriptionOk(s)
    requires t in s.teardowns && s.teardowns[t].ws == ws && s.teardowns[t].phase.Scheduled?
    requires ws in s.wsState && s.wsState[ws].writer == Some(w) && w in s.writers && s.writers[w].ws == ws
    requires var p := Pop(s, t, ws); Owning(p, t) && OtherTeardownsOk(p, t) && UsersOk(p) && LockOk(p) && KeysOk(p)
    ensures Inv(StopWriter(Pop(s, t, ws), t, w))
  {
    var p := Pop(s, t, ws);
    StopTouches(s, t, w, ws);
    StopSocket(p, t, w, ws);
    LocalStep(s, StopWriter(p, t, w), ws, t, w, {}, {});
    StopTeardowns(p, t, w);
    StopWriters(s, t, w, ws);
    StopFrame(p, t, w);
    StopKeys(p, t, w);
  }

  lemma NewTeardownTouches(s: State, user: User, ws: Socket)
    requires KeysOk(s)
    ensures Touches(s, NewTeardown(s, user, ws), ws, s.nextTask, s.nextTask)
    ensures KeysOk(NewTeardown(s, user, ws))
  {
  }

  lemma NewTeardownSocket(s: State, user: User, ws: Socket)
    requires KeysOk(s) && ws in s.log && SocketOk(View(s, ws), ws, false)
    ensures SocketOk(View(NewTeardown(s, user, ws), ws), ws, false)
  {
    assert View(NewTeardown(s, user, ws), ws) == View(s, ws);
  }

  lemma NewTeardownTasks(s: State, user: User, ws: Socket)
    requires KeysOk(s) && TeardownsOk(s) && ws in s.log && s.log[ws].user == user
    ensures TeardownsOk(NewTeardown(s, user, ws))
  {
    var s' := NewTeardown(s, user, ws);
    forall a | a in s'.teardowns ensures TeardownOk(ViewTeardown(s', a), a) {
      if a != s.nextTask {
        assert TeardownOk(ViewTeardown(s, a), a);
        assert ViewTeardown(s', a) == ViewTeardown(s, a);
      }
    }
  }

  lemma NewTeardownFrame(s: State, user: User, ws: Socket)
    requires UsersOk(s) && LockOk(s) && WritersOk(s) && KeysOk(s)
    ensures var s' := NewTeardown(s, user, ws); UsersOk(s') && LockOk(s') && WritersOk(s')
  {
    var s' := NewTeardown(s, user, ws);
    SameUsers(s, s');
    SameLock(s, s');
    forall a | a in s'.writers ensures WriterOk(ViewWriter(s', a), a) {
      assert ViewWriter(s', a) == ViewWriter(s, a);
    }
  }

  lemma DisconnectKeeps(s: State, user: User, ws: Socket)
    requires Inv(s) && (ws in s.wsState && ws in s.log ==> s.log[ws].user == user)
    ensures Inv(Disconnect(s, user, ws))
  {
    if ws in s.wsState { OpenDisconnectKeeps(s, user, ws); }
  }

  lemma OpenDisconnectKeeps(s: State, user: User, ws: Socket)
    requires Inv(s) && ws in s.log && s.log[ws].user == user
    ensures Inv(TeardownBegin(NewTeardown(s, user, ws), s.nextTask, None))
  {
    var s' := NewTeardown(s, user, ws);
    assert SocketOk(View(s, ws), ws, false);
    NewTeardownTouches(s, user, ws);
    NewTeardownSocket(s, user, ws);
    LocalStep(s, s', ws, s.nextTask, s.nextTask, {}, {});
    NewTeardownTasks(s, user, ws);
    NewTeardownFrame(s, user, ws);
    TeardownBeginKeeps(s', s.nextTask);
  }

  // A failed send: the writer tears its own socket down, in one segment.

  function FailingPop(s: State, w: TaskId): State
    requires IsSending(s, w)
  {
    Pop(NewTeardown(SetStatus(s, w, Failing), s.writers[w].user, s.writers[w].ws), s.nextTask, s.writers[w].ws)
  }

  lemma FailTouches(s: State, w: TaskId)
    requires KeysOk(s) && IsSending(s, w)
    ensures Touches(s, FailingPop(s, w), s.writers[w].ws, s.nextTask, w)
  {
  }

  lemma FailKeys(s: State, w: TaskId)
    requires KeysOk(s) && IsSending(s, w)
    ensures KeysOk(FailingPop(s, w))
  {
  }

  lemma FailFrame(s: State, w: TaskId)
    requires UsersOk(s) && LockOk(s) && KeysOk(s) && IsSending(s, w)
    ensures UsersOk(FailingPop(s, w)) && LockOk(FailingPop(s, w))
  {
    SameUsers(s, FailingPop(s, w));
    SameLock(s, FailingPop(s, w));
  }

  lemma FailOwns(s: State, w: TaskId, ws: Socket)
    requires KeysOk(s) && IsSending(s, w) && s.writers[w].ws == ws && ws in s.log && ws in s.wsState
    requires s.log[ws].user == s.writers[w].user && SocketOk(View(s, ws), ws, false)
    ensures Owning(FailingPop(s, w), s.nextTask)
  {
  }

  lemma FailTeardowns(s: State, w: TaskId, ws: Socket)
    requires TeardownsOk(s) && KeysOk(s) && IsSending(s, w) && s.writers[w].ws == ws
    requires ws in s.log && s.log[ws].owner.None?
    ensures OtherTeardownsOk(FailingPop(s, w), s.nextTask)
  {
    var s' := FailingPop(s, w);
    forall a | a in s'.teardowns && a != s.nextTask ensures TeardownOk(ViewTeardown(s', a), a) {
      assert TeardownOk(ViewTeardown(s, a), a);
    }
  }

  lemma FailWriters(s: State, w: TaskId)
    requires WritersOk(s) && IsSending(s, w)
    ensures WritersOk(FailingPop(s, w))
  {
    var s' := FailingPop(s, w);
    assert WriterOk(ViewWriter(s, w), w);
    forall a | a in s'.writers ensures WriterOk(ViewWriter(s', a), a) {
      assert WriterOk(ViewWriter(s, a), a);
    }
  }

  lemma WriterFailsKeeps(s: State, w: TaskId)
    requires Inv(s) && IsSending(s, w)
    ensures Inv(WriterFails(s, w))
  {
    var s', ws := FailingPop(s, w), s.writers[w].ws;
    assert WriterOk(ViewWriter(s, w), w);
    FailTouches(s, w);
    OthersStep(s, s', ws, s.nextTask, w, {}, {});
    FailOwns(s, w, ws);
    FailTeardowns(s, w, ws);
    FailWriters(s, w);
    FailFrame(s, w);
    FailKeys(s, w);
    RemoveKeeps(s', s.nextTask);
  }

  // Delivering, one socket at a time.

  lemma EnsureWriterTouches(s: State, ws: Socket, user: User)
    requires KeysOk(s) && ws in s.wsState
    ensures Touches(s, EnsureWriter(s, ws, user), ws, s.nextTask, s.nextTask)
    ensures KeysOk(EnsureWriter(s, ws, user))
  {
  }

  lemma EnsureWriterSocket(s: State, ws: Socket, user: User, pending: bool)
    requires KeysOk(s) && ws in s.wsState && ws in s.log && SocketOk(View(s, ws), ws, pending)
    ensures var s' := EnsureWriter(s, ws, user);
            SocketOk(View(s', ws), ws, pending) && s'.wsState[ws].writer.Some?
  {
  }

  /** A new writer is started only when none is alive, so the old one, if any, is not in use. */
  lemma EnsureWriterTasks(s: State, ws: Socket, user: User)
    requires KeysOk(s) && TeardownsOk(s) && WritersOk(s)
    requires ws in s.wsState && ws in s.log && s.log[ws].user == user
    ensures var s' := EnsureWriter(s, ws, user); TeardownsOk(s') && WritersOk(s')
  {
    var s' := EnsureWriter(s, ws, user);
    forall a | a in s'.teardowns ensures TeardownOk(ViewTeardown(s', a), a) {
      assert TeardownOk(ViewTeardown(s, a), a);
    }
    forall a | a in s'.writers ensures WriterOk(ViewWriter(s', a), a) {
      if a in s.writers { assert WriterOk(ViewWriter(s, a), a); }
    }
  }

  lemma EnsureWriterFrame(s: State, ws: Socket, user: User)
    requires UsersOk(s) && LockOk(s) && ws in s.wsState
    ensures var s' := EnsureWriter(s, ws, user); UsersOk(s') && LockOk(s')
  {
    SameUsers(s, EnsureWriter(s, ws, user));
    SameLock(s, EnsureWriter(s, ws, user));
  }

  lemma EnsureWriterKeeps(s: State, ws: Socket, user: User, pending: set<Socket>)
    requires InvExcept(s, pending) && ws in s.wsState && ws in s.log && s.log[ws].user == user
    ensures var s' := EnsureWriter(s, ws, user); InvExcept(s', pending) && s'.wsState[ws].writer.Some?
  {
    assert SocketOk(View(s, ws), ws, ws in pending);
    EnsureWriterTouches(s, ws, user);
    EnsureWriterSocket(s, ws, user, ws in pending);
    LocalStep(s, EnsureWriter(s, ws, user), ws, s.nextTask, s.nextTask, pending, pending);
    EnsureWriterTasks(s, ws, user);
    EnsureWriterFrame(s, ws, user);
  }

  lemma PutTouches(s: State, ws: Socket, payload: Payload)
    requires KeysOk(s) && ws in s.wsState
    ensures Touches(s, Put(s, ws, payload), ws, s.nextTask, s.nextTask)
  {
  }

  lemma PutKeys(s: State, ws: Socket, payload: Payload)
    requires KeysOk(s) && ws in s.wsState
    ensures KeysOk(Put(s, ws, payload))
  {
  }

  lemma PutSocket(s: State, ws: Socket, payload: Payload, pending: bool)
    requires ws in s.wsState && ws in s.log && s.wsState[ws].writer.Some? && SocketOk(View(s, ws), ws, pending)
    ensures SocketOk(View(Put(s, ws, payload), ws), ws, pending || Full(s, ws))
  {
    PutView(s, ws, payload);
    PutViewOk(View(s, ws), ws, payload, pending);
  }

  /** The socket's view after `put_nowait`. */
  function AfterPut(v: SocketView, payload: Payload): SocketView
    requires v.state.Some?
  {
    var st := v.state.value;
    if |st.queue| < SEND_QUEUE_MAXSIZE then
      v.(log := Accepted(v.log, payload), state := Some(st.(queue := st.queue + [payload])))
    else v.(log := Overflowed(v.log, payload))
  }

  lemma PutView(s: State, ws: Socket, payload: Payload)
    requires ws in s.wsState && ws in s.log
    ensures View(Put(s, ws, payload), ws) == AfterPut(View(s, ws), payload)
  {
  }

  lemma PutViewOk(v: SocketView, ws: Socket, payload: Payload, pending: bool)
    requires v.state.Some? && v.state.value.writer.Some? && SocketOk(v, ws, pending)
    ensures SocketOk(AfterPut(v, payload), ws, pending || |v.state.value.queue| >= SEND_QUEUE_MAXSIZE)
  {
  }

  lemma PutTasks(s: State, ws: Socket, payload: Payload)
    requires TeardownsOk(s) && WritersOk(s) && ws in s.wsState
    ensures var s' := Put(s, ws, payload); TeardownsOk(s') && WritersOk(s')
  {
    var s' := Put(s, ws, payload);
    forall a | a in s'.teardowns ensures TeardownOk(ViewTeardown(s', a), a) {
      assert TeardownOk(ViewTeardown(s, a), a);
    }
    forall a | a in s'.writers ensures WriterOk(ViewWriter(s', a), a) {
      assert WriterOk(ViewWriter(s, a), a);
    }
  }

  lemma PutFrame(s: State, ws: Socket, payload: Payload)
    requires UsersOk(s) && LockOk(s) && ws in s.wsState
    ensures var s' := Put(s, ws, payload); UsersOk(s') && LockOk(s')
  {
    SameUsers(s, Put(s, ws, payload));
    SameLock(s, Put(s, ws, payload));
  }

  lemma PutSockets(s: State, ws: Socket, payload: Payload, pending: set<Socket>)
    requires SocketsOk(s, pending) && KeysOk(s) && ws in s.wsState && ws in s.log && s.wsState[ws].writer.Some?
    ensures SocketsOk(Put(s, ws, payload), if Full(s, ws) then pending + {ws} else pending)
  {
    var pending' := if Full(s, ws) then pending + {ws} else pending;
    assert SocketOk(View(s, ws), ws, ws in pending);
    PutTouches(s, ws, payload);
    PutSocket(s, ws, payload, ws in pending);
    LocalStep(s, Put(s, ws, payload), ws, s.nextTask, s.nextTask, pending, pending');
  }

  lemma PutKeeps(s: State, ws: Socket, payload: Payload, pending: set<Socket>)
    requires InvExcept(s, pending) && ws in s.wsState && ws in s.log && s.wsState[ws].writer.Some?
    ensures InvExcept(Put(s, ws, payload), if Full(s, ws) then pending + {ws} else pending)
  {
    PutSockets(s, ws, payload, pending);
    PutKeys(s, ws, payload);
    PutTasks(s, ws, payload);
    PutFrame(s, ws, payload);
  }

  lemma EnqueueKeeps(s: State, user: User, ws: Socket, payload: Payload, pending: set<Socket>)
    requires InvExcept(s, pending) && (ws in s.log ==> s.log[ws].user == user)
    ensures InvExcept(Enqueue(s, user, ws, payload), if Full(s, ws) then pending + {ws} else pending)
  {
    if ws in s.wsState {
      EnsureWriterKeeps(s, ws, user, pending);
      PutKeeps(EnsureWriter(s, ws, user), ws, payload, pending);
    }
  }

  lemma ScheduleTouches(s: State, user: User, ws: Socket)
    requires KeysOk(s)
    ensures Touches(s, ScheduleEviction(s, user, ws), ws, s.nextTask, s.nextTask)
    ensures KeysOk(ScheduleEviction(s, user, ws))
  {
  }

  lemma ScheduleSocket(s: State, user: User, ws: Socket, pending: bool)
    requires KeysOk(s) && ws in s.log && s.log[ws].user == user && SocketOk(View(s, ws), ws, pending)
    ensures SocketOk(View(ScheduleEviction(s, user, ws), ws), ws, false)
  {
  }

  lemma ScheduleTasks(s: State, user: User, ws: Socket)
    requires KeysOk(s) && TeardownsOk(s) && WritersOk(s) && ws in s.log && s.log[ws].user == user
    ensures var s' := ScheduleEviction(s, user, ws); TeardownsOk(s') && WritersOk(s')
  {
    var s' := ScheduleEviction(s, user, ws);
    forall a | a in s'.teardowns ensures TeardownOk(ViewTeardown(s', a), a) {
      if a != s.nextTask { assert TeardownOk(ViewTeardown(s, a), a); }
    }
    forall a | a in s'.writers ensures WriterOk(ViewWriter(s', a), a) {
      assert WriterOk(ViewWriter(s, a), a);
    }
  }

  lemma ScheduleFrame(s: State, user: User, ws: Socket)
    requires UsersOk(s) && LockOk(s) && KeysOk(s)
    ensures var s' := ScheduleEviction(s, user, ws); UsersOk(s') && LockOk(s')
  {
    SameUsers(s, ScheduleEviction(s, user, ws));
    SameLock(s, ScheduleEviction(s, user, ws));
  }

  lemma ScheduleKeeps(s: State, user: User, ws: Socket, pending: set<Socket>)
    requires InvExcept(s, pending) && ws in s.log && s.log[ws].user == user
    ensures InvExcept(ScheduleEviction(s, user, ws), pending - {ws})
  {
    assert SocketOk(View(s, ws), ws, ws in pending);
    ScheduleTouches(s, user, ws);
    ScheduleSocket(s, user, ws, ws in pending);
    LocalStep(s, ScheduleEviction(s, user, ws), ws, s.nextTask, s.nextTask, pending, pending - {ws});
    ScheduleTasks(s, user, ws);
    ScheduleFrame(s, user, ws);
  }

  predicate SameOwners(s: State, s': State) {
    forall ws | ws in s.log :: ws in s'.log && s'.log[ws].user == s.log[ws].user
  }

  lemma EnqueueOwners(s: State, user: User, ws: Socket, payload: Payload)
    ensures SameOwners(s, Enqueue(s, user, ws, payload))
  {
  }

  ghost predicate AllOwned(s: State, user: User, xs: seq<Socket>) {
    forall ws :: ws in xs ==> ws in s.log && s.log[ws].user == user
  }

  lemma {:induction false} EnqueueAllOwners(s: State, user: User, conns: seq<Socket>, payload: Payload)
    ensures SameOwners(s, EnqueueAll(s, user, conns, payload).0)
    ensures forall ws :: ws in EnqueueAll(s, user, conns, payload).1 ==> ws in conns
  {
    if conns != [] {
      var init, ws := conns[..|conns| - 1], conns[|conns| - 1];
      EnqueueAllOwners(s, user, init, payload);
      EnqueueOwners(EnqueueAll(s, user, init, payload).0, user, ws, payload);
    }
  }

  lemma EnqueueLast(s: State, user: User, evicted: seq<Socket>, ws: Socket, payload: Payload)
    requires InvExcept(s, Elements(evicted)) && (ws in s.log ==> s.log[ws].user == user)
    ensures InvExcept(Enqueue(s, user, ws, payload), Elements(if Full(s, ws) then evicted + [ws] else evicted))
  {
    EnqueueKeeps(s, user, ws, payload, Elements(evicted));
    assert Elements(evicted + [ws]) == Elements(evicted) + {ws};
  }

  lemma {:induction false} EnqueueAllKeeps(s: State, user: User, conns: seq<Socket>, payload: Payload)
    requires InvExcept(s, Elements([])) && AllOwned(s, user, conns)
    ensures InvExcept(EnqueueAll(s, user, conns, payload).0, Elements(EnqueueAll(s, user, conns, payload).1))
  {
    if conns != [] {
      var init, ws := conns[..|conns| - 1], conns[|conns| - 1];
      EnqueueAllKeeps(s, user, init, payload);
      EnqueueAllOwners(s, user, init, payload);
      var (before, evicted) := EnqueueAll(s, user, init, payload);
      assert ws in conns && before.log[ws].user == user;
      EnqueueLast(before, user, evicted, ws, payload);
    }
  }

  lemma {:induction false} ScheduleAllOwners(s: State, user: User, evicted: seq<Socket>)
    ensures SameOwners(s, ScheduleEvictions(s, user, evicted))
  {
    if evicted != [] {
      ScheduleAllOwners(s, user, evicted[..|evicted| - 1]);
    }
  }

  lemma ScheduleLast(s: State, user: User, init: seq<Socket>, ws: Socket, pending: set<Socket>)
    requires InvExcept(s, pending - Elements(init)) && ws in s.log && s.log[ws].user == user
    ensures InvExcept(ScheduleEviction(s, user, ws), pending - Elements(init + [ws]))
  {
    ScheduleKeeps(s, user, ws, pending - Elements(init));
    assert pending - Elements(init) - {ws} == pending - Elements(init + [ws]);
  }

  lemma {:induction false} ScheduleAllKeeps(s: State, user: User, evicted: seq<Socket>, pending: set<Socket>)
    requires InvExcept(s, pending - Elements([])) && AllOwned(s, user, evicted)
    ensures InvExcept(ScheduleEvictions(s, user, evicted), pending - Elements(evicted))
  {
    if evicted != [] {
      var init, ws := evicted[..|evicted| - 1], evicted[|evicted| - 1];
      assert evicted == init + [ws] && ws in evicted;
      ScheduleAllKeeps(s, user, init, pending);
      ScheduleAllOwners(s, user, init);
      ScheduleLast(ScheduleEvictions(s, user, init), user, init, ws, pending);
    }
  }

  lemma ElementsFacts(xs: seq<Socket>)
    ensures Elements<Socket>([]) == {}
    ensures Elements(xs) - Elements([]) == Elements(xs)
    ensures Elements(xs) - Elements(xs) == {}
  {
  }

  lemma ConnsOwned(s: State, user: User)
    requires UsersOk(s)
    ensures AllOwned(s, user, Conns(s, user)) && Distinct(Conns(s, user))
  {
    if user in s.connections { assert UserOk(s.connections[user], user, s.log); }
  }

  lemma DeliverKeeps(s: State, user: User, payload: Payload)
    requires Inv(s)
    ensures Inv(Deliver(s, user, payload))
  {
    var conns := Conns(s, user);
    ConnsOwned(s, user);
    var (s', evicted) := EnqueueAll(s, user, conns, payload);
    ElementsFacts(evicted);
    EnqueueAllKeeps(s, user, conns, payload);
    EnqueueAllOwners(s, user, conns, payload);
    ScheduleAllKeeps(s', user, evicted, Elements(evicted));
  }

  // Every step, and every run.

  lemma StepKeeps(s: State, e: Event)
    requires Inv(s) && Enabled(s, e)
    ensures Inv(Step(s, e))
  {
    match e
    case ConnectCall(user, ws) => ConnectBeginKeeps(s, user, ws);
    case AcceptReturns(ws) => AcceptDoneKeeps(s, ws);
    case AcceptRaises(ws) => AcceptFailedKeeps(s, ws);
    case DisconnectCall(user, ws) => DisconnectKeeps(s, user, ws);
    case DeliverCall(user, payload) => DeliverKeeps(s, user, payload);
    case EvictionRuns(t) => TeardownBeginKeeps(s, t);
    case TeardownResumes(t) => ResumeKeeps(s, t);
    case CloseRuns(t) => CloseKeeps(s, t);
    case LockServed => ServeLockKeeps(s);
    case WriterGets(w) => WriterGetKeeps(s, w);
    case WriterSends(w) => WriterSentKeeps(s, w);
    case WriterRaises(w) => WriterFailsKeeps(s, w);
    case WriterUnwinds(w) => UnwindKeeps(s, w);
  }

  lemma {:induction false} RunKeeps(s: State, events: seq<Event>)
    requires Inv(s)
    ensures Inv(Run(s, events))
    decreases |events|
  {
    if events != [] {
      if Enabled(s, events[0]) {
        StepKeeps(s, events[0]);
        RunKeeps(Step(s, events[0]), events[1..]);
      } else {
        RunKeeps(s, events[1..]);
      }
    }
  }
}
