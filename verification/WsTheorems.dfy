/** What holds of the connection manager in every reachable state. */
module WsTheorems {
  import opened Wrappers
  import opened Rows
  import opened WsProtocol
  import opened WsInvariants
  import opened WsSteps
  import opened WsHistory

  ghost predicate Reachable(s: State) {
    exists events: seq<Event> :: s == Run(INITIAL, events)
  }

  lemma ReachableInv(s: State)
    requires Reachable(s)
    ensures Inv(s)
  {
    var events: seq<Event> :| s == Run(INITIAL, events);
    assert Inv(INITIAL);
    RunKeeps(INITIAL, events);
  }

  /**
   The channel subscriptions, once the queued requests have run in order, are exactly the users with
   a connection; with no request queued the two agree now.
   */
  lemma SubscriptionAgreement(s: State)
    requires Reachable(s)
    ensures forall user :: user in ApplyAll(s.subscribed, s.lockQueue) <==> user in s.connections
    ensures s.lockQueue == [] ==> s.subscribed == s.connections.Keys
  {
    ReachableInv(s);
  }

  ghost predicate BeingTornDown(s: State, t: TaskId, ws: Socket) {
    && t in s.teardowns && s.teardowns[t].ws == ws
    && !s.teardowns[t].phase.Scheduled? && !s.teardowns[t].phase.Finished?
  }

  /** No empty list, no socket twice, and a listed socket is either open or stopped by one teardown. */
  lemma RegistryAgreement(s: State)
    requires Reachable(s)
    ensures forall user :: user in s.connections ==> s.connections[user] != [] && Distinct(s.connections[user])
    ensures forall u, v, ws :: Listed(s, u, ws) && Listed(s, v, ws) ==> u == v
    ensures forall ws :: ws in s.wsState ==> exists user :: Listed(s, user, ws)
    ensures forall user, ws :: Listed(s, user, ws) && ws !in s.wsState ==>
              exists t: TaskId :: BeingTornDown(s, t, ws) && s.teardowns[t].phase.StoppingWriter?
  {
    ReachableInv(s);
    forall user | user in s.connections
      ensures s.connections[user] != [] && Distinct(s.connections[user]) && AllOwned(s, user, s.connections[user])
    {
      ConnsOwned(s, user);
      assert UserOk(s.connections[user], user, s.log);
    }
    forall ws | ws in s.wsState ensures exists user :: Listed(s, user, ws) {
      assert SocketOk(View(s, ws), ws, false);
      assert Listed(s, s.log[ws].user, ws);
    }
    forall user, ws | Listed(s, user, ws) && ws !in s.wsState
      ensures exists t: TaskId :: BeingTornDown(s, t, ws) && s.teardowns[t].phase.StoppingWriter?
    {
      assert SocketOk(View(s, ws), ws, false);
      assert BeingTornDown(s, s.log[ws].owner.value, ws);
    }
  }

  /** However many teardowns race for a socket, one does the cleanup and at most one close is sent. */
  lemma OneCleanup(s: State, ws: Socket)
    requires Reachable(s)
    ensures forall t1: TaskId, t2: TaskId :: BeingTornDown(s, t1, ws) && BeingTornDown(s, t2, ws) ==> t1 == t2
    ensures forall t: TaskId :: BeingTornDown(s, t, ws) ==> ws !in s.wsState
    ensures ws in s.log ==> s.log[ws].closes == [] || s.log[ws].closes == [4408]
    ensures ws in s.log && s.log[ws].closes != [] ==>
              ws !in s.wsState && (forall user :: !Listed(s, user, ws)) && forall t: TaskId :: !BeingTornDown(s, t, ws)
  {
    ReachableInv(s);
    if ws in s.log { assert SocketOk(View(s, ws), ws, false); }
    forall t: TaskId | BeingTornDown(s, t, ws) ensures ws in s.log && s.log[ws].owner == Some(t) {
      assert TeardownOk(ViewTeardown(s, t), t);
    }
    forall user | Listed(s, user, ws) ensures ws in s.log && s.log[ws].user == user {
      ConnsOwned(s, user);
    }
  }

  ghost predicate LiveWriter(s: State, w: TaskId, ws: Socket) {
    w in s.writers && s.writers[w].ws == ws && (s.writers[w].status.Waiting? || s.writers[w].status.Sending?)
  }

  /**
   For an open socket: nothing its queue took is lost, duplicated or reordered on the way out, the
   queue is bounded, and one writer at most is sending; and only open sockets have a live writer.
   */
  lemma DeliveryAgreement(s: State, ws: Socket)
    requires Reachable(s)
    ensures ws in s.wsState ==>
              && ws in s.log
              && s.log[ws].accepted ==
                   s.log[ws].sent + InFlight(Find(s.writers, s.wsState[ws].writer)) + s.wsState[ws].queue
              && |s.wsState[ws].queue| <= 100
    ensures forall w1: TaskId, w2: TaskId :: LiveWriter(s, w1, ws) && LiveWriter(s, w2, ws) ==> w1 == w2
    ensures forall w: TaskId :: LiveWriter(s, w, ws) ==> ws in s.wsState && s.wsState[ws].writer == Some(w)
  {
    ReachableInv(s);
    if ws in s.wsState { assert SocketOk(View(s, ws), ws, false); }
    forall w: TaskId | LiveWriter(s, w, ws) ensures ws in s.wsState && s.wsState[ws].writer == Some(w) {
      assert WriterOk(ViewWriter(s, w), w);
    }
  }

  /**
   Over any run: while no delivery to the user has found the socket's queue full, the queue has taken
   exactly the payloads delivered to the user since the socket registered. From the first that did,
   it has taken all before that one, and a teardown of the socket with the slow-consumer code is
   scheduled, or some teardown of it is running or done.
   */
  lemma OverflowEvicts(events: seq<Event>, ws: Socket)
    requires ws in Run(INITIAL, events).log
    ensures var s := Run(INITIAL, events);
            var h := Replay(NOTHING, INITIAL, events, s.log[ws].user, ws);
            && h.fannedOut == FannedOut(INITIAL, events, s.log[ws].user, ws)
            && (forall user :: Listed(s, user, ws) ==> user == s.log[ws].user)
            && (h.overflowAt.None? ==> h.taken == h.fannedOut)
            && (h.overflowAt.Some? ==>
                  && h.overflowAt.value < |h.fannedOut|
                  && h.fannedOut[..h.overflowAt.value] <= h.taken
                  && exists t: TaskId :: t in s.teardowns && s.teardowns[t].ws == ws &&
                       (ws !in s.wsState ==> !s.teardowns[t].phase.Scheduled?) &&
                       (ws in s.wsState ==>
                          s.teardowns[t].phase.Scheduled? &&
                          s.teardowns[t].closeCode == Some(4408)))
  {
    var s := Run(INITIAL, events);
    assert Reachable(s);
    ReachableInv(s);
    HistoryIsRun(events, ws);
    LoggedOverflow(s, ws);
    ReplayFansOut(NOTHING, INITIAL, events, s.log[ws].user, ws);
    forall user | Listed(s, user, ws) ensures user == s.log[ws].user { ConnsOwned(s, user); }
  }

  lemma LoggedOverflow(s: State, ws: Socket)
    requires Inv(s) && ws in s.log
    ensures var h := Logged(s, ws);
            && (h.overflowAt.None? ==> h.taken == h.fannedOut)
            && (h.overflowAt.Some? ==>
                  && h.overflowAt.value < |h.fannedOut|
                  && h.fannedOut[..h.overflowAt.value] <= h.taken
                  && exists t: TaskId :: t in s.teardowns && s.teardowns[t].ws == ws &&
                       (ws !in s.wsState ==> !s.teardowns[t].phase.Scheduled?) &&
                       (ws in s.wsState ==>
                          s.teardowns[t].phase.Scheduled? &&
                          s.teardowns[t].closeCode == Some(4408)))
  {
    assert SocketOk(View(s, ws), ws, false);
    if s.log[ws].overflowAt.Some? {
      var t := if ws in s.wsState then s.log[ws].evictTask.value else s.log[ws].owner.value;
      assert t in s.teardowns && s.teardowns[t].ws == ws;
    }
  }

  /** Over any run, what an open socket was sent, is being sent and still queues is what its queue took. */
  lemma SentInOrder(events: seq<Event>, ws: Socket)
    requires ws in Run(INITIAL, events).wsState
    ensures var s := Run(INITIAL, events);
            && ws in s.log
            && var h := Replay(NOTHING, INITIAL, events, s.log[ws].user, ws);
               h.taken == h.sent + InFlight(Find(s.writers, s.wsState[ws].writer)) + s.wsState[ws].queue
  {
    var s := Run(INITIAL, events);
    assert Reachable(s);
    DeliveryAgreement(s, ws);
    HistoryIsRun(events, ws);
  }

  /** The history a socket's log keeps is the history of the run, read off the events alone. */
  lemma HistoryIsRun(events: seq<Event>, ws: Socket)
    requires ws in Run(INITIAL, events).log
    ensures var s := Run(INITIAL, events); Logged(s, ws) == Replay(NOTHING, INITIAL, events, s.log[ws].user, ws)
  {
    assert Inv(INITIAL);
    RunHistory(INITIAL, events, Run(INITIAL, events).log[ws].user, ws);
  }

  // One socket's overflow and the others.

  /**
   Whether a socket takes a payload depends on its own queue alone: it does exactly when it is an
   open connection of the user with room, however many other sockets of the user overflow.
   */
  lemma DeliveryIsLocal(s: State, user: User, payload: Payload, ws: Socket)
    requires Reachable(s) && ws in s.log
    ensures var s' := Deliver(s, user, payload);
            var taken := s.log[ws].user == user && ws in s.wsState && |s.wsState[ws].queue| < 100;
            && ws in s'.log
            && s'.log[ws].accepted == s.log[ws].accepted + (if taken then [payload] else [])
            && (ws in s'.wsState <==> ws in s.wsState)
            && (ws in s.wsState ==>
                  s'.wsState[ws].queue == s.wsState[ws].queue + (if taken then [payload] else []))
  {
    ReachableInv(s);
    DeliverAt(s, user, payload, ws);
  }

  // A socket torn down under the wrong user.

  /**
   Disconnecting an open socket under a user who does not list it breaks the registry: once its writer
   is stopped the socket is closed to deliveries, still listed, and no teardown is left to take it off.
   */
  lemma ForeignDisconnectOrphans(s: State, user: User, ws: Socket) returns (events: seq<Event>)
    requires Reachable(s) && ws in s.wsState && !Listed(s, user, ws)
    ensures var s' := Run(Disconnect(s, user, ws), events); ws !in s'.wsState && Loose(s', ws)
  {
    ReachableInv(s);
    OpenIsLoose(s, ws);
    events := StopForeign(s, user, ws);
  }

  /** Listed under some user, and no teardown is about to take it off. */
  ghost predicate Loose(s: State, ws: Socket) {
    && (exists owner :: Listed(s, owner, ws))
    && forall t: TaskId :: BeingTornDown(s, t, ws) ==> !s.teardowns[t].phase.StoppingWriter?
  }

  lemma OpenIsLoose(s: State, ws: Socket)
    requires Inv(s) && ws in s.wsState
    ensures Loose(s, ws)
  {
    assert SocketOk(View(s, ws), ws, false);
    assert Listed(s, s.log[ws].user, ws);
    forall t: TaskId | BeingTornDown(s, t, ws) ensures !s.teardowns[t].phase.StoppingWriter? {
      assert TeardownOk(ViewTeardown(s, t), t);
    }
  }

  lemma StopForeign(s: State, user: User, ws: Socket) returns (events: seq<Event>)
    requires Loose(s, ws) && ws in s.wsState && !Listed(s, user, ws)
    ensures var s' := Run(Disconnect(s, user, ws), events); ws !in s'.wsState && Loose(s', ws)
  {
    var t, writer := s.nextTask, s.wsState[ws].writer;
    var s1 := Disconnect(s, user, ws);
    if WriterRuns(s, writer) {
      StoppedByForeigner(s, user, ws);
      events := [WriterUnwinds(writer.value), TeardownResumes(t)];
      RunTwo(s1, events[0], events[1]);
    } else {
      IdleForeigner(s, user, ws);
      events := [];
    }
  }

  lemma RunTwo(s: State, first: Event, second: Event)
    requires Enabled(s, first) && Enabled(Step(s, first), second)
    ensures Run(s, [first, second]) == Step(Step(s, first), second)
  {
    var s' := Step(s, first);
    assert [first, second][1..] == [second];
    assert Run(s', [second]) == Run(Step(s', second), []);
  }

  /** A teardown leaves only its own user's list. */
  lemma RemovedByForeigner(s: State, t: TaskId, ws: Socket)
    requires t in s.teardowns && s.teardowns[t].ws == ws && !Listed(s, s.teardowns[t].user, ws)
    requires exists owner :: Listed(s, owner, ws)
    requires forall a: TaskId :: a != t && BeingTornDown(s, a, ws) ==> !s.teardowns[a].phase.StoppingWriter?
    ensures Loose(Remove(s, t), ws)
  {
    var owner :| Listed(s, owner, ws);
    assert Listed(Remove(s, t), owner, ws);
  }

  lemma IdleForeigner(s: State, user: User, ws: Socket)
    requires Loose(s, ws) && ws in s.wsState && !Listed(s, user, ws) && !WriterRuns(s, s.wsState[ws].writer)
    ensures var s1 := Disconnect(s, user, ws); ws !in s1.wsState && Loose(s1, ws)
  {
    var popped := Pop(NewTeardown(s, user, ws), s.nextTask, ws);
    var owner :| Listed(s, owner, ws);
    assert Listed(popped, owner, ws);
    RemovedByForeigner(popped, s.nextTask, ws);
  }

  lemma StoppedByForeigner(s: State, user: User, ws: Socket)
    requires Loose(s, ws) && ws in s.wsState && !Listed(s, user, ws) && WriterRuns(s, s.wsState[ws].writer)
    ensures var w, t := s.wsState[ws].writer.value, s.nextTask;
            var s1 := Disconnect(s, user, ws);
            && Enabled(s1, WriterUnwinds(w)) && Enabled(Step(s1, WriterUnwinds(w)), TeardownResumes(t))
            && var s2 := Remove(SetStatus(s1, w, Done), t);
               ws !in s2.wsState && Loose(s2, ws)
  {
    var w, t := s.wsState[ws].writer.value, s.nextTask;
    var s1 := SetStatus(Disconnect(s, user, ws), w, Done);
    var owner :| Listed(s, owner, ws);
    assert Listed(s1, owner, ws);
    RemovedByForeigner(s1, t, ws);
  }
}
