/**
 What each operation does to the socket it is about: a connect registers it, a disconnect, a failed
 send and an eviction take it down for good, and a writer sends what its queue holds.
 */
module WsEffects {
  import opened Wrappers
  import opened Rows
  import opened WsProtocol
  import opened WsInvariants
  import opened WsSteps
  import opened WsHistory
  import opened WsDraining

  // Connecting.

  /** `connect` up to the handshake: a user with six connections is refused, and nothing is registered yet. */
  lemma ConnectStartsHandshake(s: State, user: User, ws: Socket)
    requires Enabled(s, ConnectCall(user, ws))
    ensures var s' := Step(s, ConnectCall(user, ws));
            && s' == s.(used := s.used + {ws}, accepting := s'.accepting)
            && s'.accepting == (if |Conns(s, user)| < 6 then s.accepting[ws := user] else s.accepting)
  {
  }

  /** A handshake that succeeds registers the socket, last in its user's list, with an empty queue and no writer. */
  lemma AcceptRegisters(s: State, ws: Socket)
    requires Inv(s) && ws in s.accepting
    ensures var user, s' := s.accepting[ws], Step(s, AcceptReturns(ws));
            && Get(s'.wsState, ws) == Some(WsState([], None)) && ws !in s'.accepting
            && Get(s'.connections, user) == Some(Conns(s, user) + [ws])
            && (forall other :: other != user ==> Get(s'.connections, other) == Get(s.connections, other))
            && (forall x :: x != ws ==> Get(s'.wsState, x) == Get(s.wsState, x))
            && s'.lockQueue == s.lockQueue + (if user in s.connections then [] else [Request(user, true, None)])
            && Logged(s', ws) == NOTHING
  {
  }

  /** One that fails leaves no trace. */
  lemma AcceptFailureLeavesNothing(s: State, ws: Socket)
    requires ws in s.accepting
    ensures var s' := Step(s, AcceptRaises(ws));
            && s' == s.(accepting := s'.accepting) && ws !in s'.accepting
            && forall x :: x != ws ==> Get(s'.accepting, x) == Get(s.accepting, x)
  {
  }

  // Tearing down.

  /** `t` has taken over a socket of `user`: closed to deliveries, and `t` alone will finish the cleanup. */
  ghost predicate TakenOver(s: State, s': State, t: TaskId, user: User, ws: Socket) {
    && ws !in s'.wsState && ws in s'.log && s'.log[ws].owner == Some(t)
    && t in s'.teardowns && s'.teardowns[t].ws == ws && s'.teardowns[t].user == user
    && (forall x :: x != ws ==> Get(s'.wsState, x) == Get(s.wsState, x))
    && (forall other :: other != user ==> Get(s'.connections, other) == Get(s.connections, other))
  }

  /** It waits for the writer it has cancelled; the socket stays listed meanwhile. */
  ghost predicate WaitsForWriter(s: State, s': State, t: TaskId, w: TaskId)
    requires t in s'.teardowns
  {
    && s'.teardowns[t].phase == StoppingWriter(w)
    && w in s'.writers && s'.writers[w].status.Cancelled?
    && s'.connections == s.connections && s'.lockQueue == s.lockQueue
  }

  /** The socket is off its user's list; the last one off also queues the unsubscribe, in the same segment. */
  ghost predicate OffTheList(s: State, s': State, t: TaskId, user: User, ws: Socket)
    requires t in s'.teardowns
  {
    var rest := Without(Conns(s, user), ws);
    && (forall other :: !Listed(s', other, ws))
    && (forall x :: x in Conns(s', user) <==> x in Conns(s, user) && x != ws)
    && (rest == [] ==> user !in s'.connections && s'.teardowns[t].phase.Unsubscribing?)
    && (rest == [] ==> s'.lockQueue == s.lockQueue + [Request(user, false, Some(t))])
    && (rest != [] ==> user in s'.connections && s'.teardowns[t].phase.Closing? && s'.lockQueue == s.lockQueue)
  }

  /** The one user who lists a registered open socket. */
  lemma OnlyItsUserLists(s: State, ws: Socket)
    requires Inv(s) && ws in s.log
    ensures forall other :: Listed(s, other, ws) ==> other == s.log[ws].user
    ensures Distinct(Conns(s, s.log[ws].user))
  {
    forall other | Listed(s, other, ws) ensures other == s.log[ws].user { ConnsOwned(s, other); }
    ConnsOwned(s, s.log[ws].user);
  }

  /** The teardown's first segment on an open socket, when its writer has to be stopped. */
  lemma BeginWaits(s: State, t: TaskId, current: Option<TaskId>)
    requires t in s.teardowns && s.teardowns[t].ws in s.wsState && s.teardowns[t].ws in s.log
    requires WriterRuns(s, s.wsState[s.teardowns[t].ws].writer) && s.wsState[s.teardowns[t].ws].writer != current
    ensures var td, s' := s.teardowns[t], TeardownBegin(s, t, current);
            TakenOver(s, s', t, td.user, td.ws) && WaitsForWriter(s, s', t, s.wsState[td.ws].writer.value)
  {
  }

  /** And when there is nothing to wait for. */
  lemma BeginRemoves(s: State, t: TaskId, current: Option<TaskId>)
    requires t in s.teardowns && s.teardowns[t].ws in s.wsState && s.teardowns[t].ws in s.log
    requires !WriterRuns(s, s.wsState[s.teardowns[t].ws].writer) || s.wsState[s.teardowns[t].ws].writer == current
    requires Distinct(Conns(s, s.teardowns[t].user))
    requires forall other :: Listed(s, other, s.teardowns[t].ws) ==> other == s.teardowns[t].user
    ensures var td, s' := s.teardowns[t], TeardownBegin(s, t, current);
            TakenOver(s, s', t, td.user, td.ws) && OffTheList(s, s', t, td.user, td.ws)
  {
    var popped := Pop(s, t, s.teardowns[t].ws);
    forall other | Listed(popped, other, s.teardowns[t].ws) ensures other == s.teardowns[t].user {
      assert Listed(s, other, s.teardowns[t].ws);
    }
    RemoveTakesOff(popped, t);
  }

  lemma RemoveTakesOff(s: State, t: TaskId)
    requires t in s.teardowns && Distinct(Conns(s, s.teardowns[t].user))
    requires forall other :: Listed(s, other, s.teardowns[t].ws) ==> other == s.teardowns[t].user
    ensures OffTheList(s, Remove(s, t), t, s.teardowns[t].user, s.teardowns[t].ws)
  {
    var s', user, ws := Remove(s, t), s.teardowns[t].user, s.teardowns[t].ws;
    WithoutRemovesOne(Conns(s, user), ws);
    forall other ensures !Listed(s', other, ws) {
      assert other != user ==> (Listed(s', other, ws) <==> Listed(s, other, ws));
      assert other == user && Listed(s', other, ws) ==> ws in Without(Conns(s, user), ws);
    }
    WithoutRemovesOne(Conns(s, s.teardowns[t].user), s.teardowns[t].ws);
  }

  /** The three predicates look at the lists, the states and the lock queue of the state before. */
  lemma SameBefore(s0: State, s: State, s': State, t: TaskId, user: User, ws: Socket, w: TaskId)
    requires s0.connections == s.connections && s0.wsState == s.wsState && s0.lockQueue == s.lockQueue
    requires t in s'.teardowns
    ensures TakenOver(s0, s', t, user, ws) == TakenOver(s, s', t, user, ws)
    ensures WaitsForWriter(s0, s', t, w) == WaitsForWriter(s, s', t, w)
    ensures OffTheList(s0, s', t, user, ws) == OffTheList(s, s', t, user, ws)
  {
  }

  lemma OpenDisconnectTakesDown(s: State, user: User, ws: Socket)
    requires ws in s.wsState && ws in s.log && Distinct(Conns(s, user))
    requires forall other :: Listed(s, other, ws) ==> other == user
    ensures var s', t, writer := Disconnect(s, user, ws), s.nextTask, s.wsState[ws].writer;
            && TakenOver(s, s', t, user, ws) && s'.teardowns[t].closeCode == None
            && (WriterRuns(s, writer) ==> WaitsForWriter(s, s', t, writer.value))
            && (!WriterRuns(s, writer) ==> OffTheList(s, s', t, user, ws))
  {
    var begun, t, writer := NewTeardown(s, user, ws), s.nextTask, s.wsState[ws].writer;
    forall other | Listed(begun, other, ws) ensures other == user { assert Listed(s, other, ws); }
    if WriterRuns(s, writer) { BeginWaits(begun, t, None); } else { BeginRemoves(begun, t, None); }
    SameBefore(begun, s, Disconnect(s, user, ws), t, user, ws, if writer.Some? then writer.value else 0);
  }

  /**
   Disconnecting an open socket takes it down: its state is popped by a new teardown, which waits for the
   running writer it cancels, and otherwise has the socket off the list before it gives up control.
   */
  lemma DisconnectTakesDown(s: State, user: User, ws: Socket)
    requires Inv(s) && ws in s.wsState && ws in s.log && s.log[ws].user == user
    ensures var s', t, writer := Step(s, DisconnectCall(user, ws)), s.nextTask, s.wsState[ws].writer;
            && TakenOver(s, s', t, user, ws) && s'.teardowns[t].closeCode == None
            && (WriterRuns(s, writer) ==> WaitsForWriter(s, s', t, writer.value))
            && (!WriterRuns(s, writer) ==> OffTheList(s, s', t, user, ws))
  {
    OnlyItsUserLists(s, ws);
    OpenDisconnectTakesDown(s, user, ws);
  }

  lemma StepFails(s: State, w: TaskId)
    requires IsSending(s, w)
    ensures Step(s, WriterRaises(w)) == WriterFails(s, w)
  {
  }

  lemma SendingFacts(s: State, w: TaskId)
    requires Inv(s) && IsSending(s, w)
    ensures var user, ws := s.writers[w].user, s.writers[w].ws;
            && ws in s.wsState && ws in s.log && s.wsState[ws].writer == Some(w)
            && Distinct(Conns(s, user)) && forall other :: Listed(s, other, ws) ==> other == user
  {
    assert WriterOk(ViewWriter(s, w), w);
    OnlyItsUserLists(s, s.writers[w].ws);
  }

  lemma FailedTakesDown(s: State, w: TaskId)
    requires IsSending(s, w) && s.writers[w].ws in s.wsState && s.writers[w].ws in s.log
    requires s.wsState[s.writers[w].ws].writer == Some(w) && Distinct(Conns(s, s.writers[w].user))
    requires forall other :: Listed(s, other, s.writers[w].ws) ==> other == s.writers[w].user
    ensures var s', t, user, ws := WriterFails(s, w), s.nextTask, s.writers[w].user, s.writers[w].ws;
            && TakenOver(s, s', t, user, ws) && s'.teardowns[t].closeCode == None
            && OffTheList(s, s', t, user, ws)
            && w in s'.writers && s'.writers[w].status.Failing?
  {
    var user, ws, t := s.writers[w].user, s.writers[w].ws, s.nextTask;
    var begun := NewTeardown(SetStatus(s, w, Failing), user, ws);
    forall other | Listed(begun, other, ws) ensures other == user { assert Listed(s, other, ws); }
    BeginRemoves(begun, t, Some(w));
    SameBefore(begun, s, WriterFails(s, w), t, user, ws, w);
  }

  /** A failed send takes the writer's own socket down and off the list, without waiting for the writer itself. */
  lemma FailedSendTakesDown(s: State, w: TaskId)
    requires Inv(s) && IsSending(s, w)
    ensures var s', t, user, ws := Step(s, WriterRaises(w)), s.nextTask, s.writers[w].user, s.writers[w].ws;
            && ws in s.wsState && ws in s.log
            && TakenOver(s, s', t, user, ws) && s'.teardowns[t].closeCode == None
            && OffTheList(s, s', t, user, ws)
            && w in s'.writers && s'.writers[w].status.Failing?
  {
    StepFails(s, w);
    SendingFacts(s, w);
    FailedTakesDown(s, w);
  }

  /** An eviction takes down a socket that is still open, with its code; of one already taken down it is a no-op. */
  lemma EvictionTakesDown(s: State, t: TaskId)
    requires Inv(s) && t in s.teardowns && s.teardowns[t].phase.Scheduled?
    ensures var s', td := Step(s, EvictionRuns(t)), s.teardowns[t];
            && (td.closeCode.Some? ==> td.closeCode == Some(4408))
            && td.ws in s.log
            && (td.ws in s.wsState ==>
                  && TakenOver(s, s', t, td.user, td.ws) && s'.teardowns[t].closeCode == td.closeCode
                  && (WriterRuns(s, s.wsState[td.ws].writer) ==>
                        WaitsForWriter(s, s', t, s.wsState[td.ws].writer.value))
                  && (!WriterRuns(s, s.wsState[td.ws].writer) ==> OffTheList(s, s', t, td.user, td.ws)))
            && (td.ws !in s.wsState ==>
                  && t in s'.teardowns && s'.teardowns[t].phase.Finished?
                  && s'.wsState == s.wsState && s'.connections == s.connections && s'.log == s.log)
  {
    var td := s.teardowns[t];
    assert TeardownOk(ViewTeardown(s, t), t);
    OnlyItsUserLists(s, td.ws);
    if td.ws in s.wsState { OpenEvictionTakesDown(s, t); }
  }

  lemma OpenEvictionTakesDown(s: State, t: TaskId)
    requires t in s.teardowns && s.teardowns[t].ws in s.wsState && s.teardowns[t].ws in s.log
    requires Distinct(Conns(s, s.teardowns[t].user))
    requires forall other :: Listed(s, other, s.teardowns[t].ws) ==> other == s.teardowns[t].user
    ensures var s', td := TeardownBegin(s, t, None), s.teardowns[t];
            && TakenOver(s, s', t, td.user, td.ws) && s'.teardowns[t].closeCode == td.closeCode
            && (WriterRuns(s, s.wsState[td.ws].writer) ==> WaitsForWriter(s, s', t, s.wsState[td.ws].writer.value))
            && (!WriterRuns(s, s.wsState[td.ws].writer) ==> OffTheList(s, s', t, td.user, td.ws))
  {
    if WriterRuns(s, s.wsState[s.teardowns[t].ws].writer) { BeginWaits(s, t, None); } else { BeginRemoves(s, t, None); }
  }

  // For good.

  /** The socket is known and its state has been popped. */
  predicate Closed(s: State, ws: Socket) {
    ws in s.log && ws !in s.wsState
  }

  /** A socket once taken down is never open again. */
  lemma ClosedStays(s: State, e: Event, ws: Socket)
    requires Inv(s) && Enabled(s, e) && Closed(s, ws)
    ensures Closed(Step(s, e), ws)
  {
    HistoryStep(s, e, s.log[ws].user, ws);
    match e
    case DeliverCall(user, payload) => DeliverAt(s, user, payload, ws);
    case DisconnectCall(_, _) => TeardownEventOpensNone(s, e, ws);
    case EvictionRuns(_) => TeardownEventOpensNone(s, e, ws);
    case WriterRaises(_) => TeardownEventOpensNone(s, e, ws);
    case AcceptReturns(accepted) => AcceptOpensOne(s, accepted, ws);
    case WriterGets(w) => GetOpensNone(s, w, ws);
    case TeardownResumes(_) => CleanupOpensNone(s, e);
    case CloseRuns(_) => CleanupOpensNone(s, e);
    case LockServed => CleanupOpensNone(s, e);
    case _ => TransportOpensNone(s, e);
  }

  lemma TeardownEventOpensNone(s: State, e: Event, ws: Socket)
    requires Enabled(s, e) && (e.DisconnectCall? || e.EvictionRuns? || e.WriterRaises?) && ws !in s.wsState
    ensures ws !in Step(s, e).wsState
  {
    match e
    case DisconnectCall(user, socket) =>
      if socket in s.wsState { TeardownOpensNone(NewTeardown(s, user, socket), s.nextTask, None, ws); }
    case EvictionRuns(t) => TeardownOpensNone(s, t, None, ws);
    case WriterRaises(w) =>
      var task := s.writers[w];
      TeardownOpensNone(NewTeardown(SetStatus(s, w, Failing), task.user, task.ws), s.nextTask, Some(w), ws);
  }

  lemma CleanupOpensNone(s: State, e: Event)
    requires Enabled(s, e) && (e.TeardownResumes? || e.CloseRuns? || e.LockServed?)
    ensures Step(s, e).wsState == s.wsState
  {
    match e
    case TeardownResumes(t) => assert Remove(s, t).wsState == s.wsState;
    case CloseRuns(t) => assert CloseSocket(s, t).wsState == s.wsState;
    case LockServed => assert ServeLock(s).wsState == s.wsState;
  }

  lemma TransportOpensNone(s: State, e: Event)
    requires Enabled(s, e) && (e.ConnectCall? || e.AcceptRaises? || e.WriterSends? || e.WriterUnwinds?)
    ensures Step(s, e).wsState == s.wsState
  {
  }

  lemma TeardownOpensNone(s: State, t: TaskId, current: Option<TaskId>, ws: Socket)
    requires t in s.teardowns && ws !in s.wsState
    ensures ws !in TeardownBegin(s, t, current).wsState
  {
  }

  lemma AcceptOpensOne(s: State, accepted: Socket, ws: Socket)
    requires KeysOk(s) && accepted in s.accepting && Closed(s, ws)
    ensures ws !in AcceptDone(s, accepted).wsState
  {
  }

  lemma GetOpensNone(s: State, w: TaskId, ws: Socket)
    requires CanGet(s, w) && ws !in s.wsState
    ensures ws !in WriterGet(s, w).wsState
  {
  }

  lemma {:induction false} ClosedOverRun(s: State, events: seq<Event>, ws: Socket)
    requires Inv(s) && Closed(s, ws)
    ensures Inv(Run(s, events)) && Closed(Run(s, events), ws)
    decreases |events|
  {
    if events != [] {
      var e := events[0];
      if Enabled(s, e) {
        ClosedStays(s, e, ws);
        StepKeeps(s, e);
        ClosedOverRun(Step(s, e), events[1..], ws);
      } else {
        ClosedOverRun(s, events[1..], ws);
      }
    }
  }

  /** So once a socket has been taken down, no later state has it open, and every quiet one has it off every list. */
  lemma TakenDownForGood(s: State, events: seq<Event>, ws: Socket)
    requires Inv(s) && Closed(s, ws)
    ensures var s' := Run(s, events);
            && ws !in s'.wsState
            && (Quiet(s') ==> forall user :: !Listed(s', user, ws))
  {
    ClosedOverRun(s, events, ws);
    if Quiet(Run(s, events)) { QuietAgreement(Run(s, events)); }
  }

  /** A disconnected socket is gone in every quiet state afterwards, and cleanup alone leads to one. */
  lemma DisconnectedIsGone(s: State, user: User, ws: Socket, events: seq<Event>)
    requires Inv(s) && ws in s.wsState && ws in s.log && s.log[ws].user == user
    ensures var s' := Run(Step(s, DisconnectCall(user, ws)), events);
            && ws !in s'.wsState
            && (Quiet(s') ==> forall other :: !Listed(s', other, ws))
  {
    DisconnectTakesDown(s, user, ws);
    StepKeeps(s, DisconnectCall(user, ws));
    TakenDownForGood(Step(s, DisconnectCall(user, ws)), events, ws);
  }

  /** And so is a socket whose send failed. */
  lemma FailedSocketIsGone(s: State, w: TaskId, events: seq<Event>)
    requires Inv(s) && IsSending(s, w)
    ensures var s', ws := Run(Step(s, WriterRaises(w)), events), s.writers[w].ws;
            && ws !in s'.wsState
            && (Quiet(s') ==> forall user :: !Listed(s', user, ws))
  {
    FailedSendTakesDown(s, w);
    StepKeeps(s, WriterRaises(w));
    TakenDownForGood(Step(s, WriterRaises(w)), events, s.writers[w].ws);
  }

  // Sending.

  /** `queue.get()` takes the head of the queue into the writer's hands and touches no other socket. */
  lemma GetTakesHead(s: State, w: TaskId)
    requires CanGet(s, w)
    ensures var s', ws := Step(s, WriterGets(w)), s.writers[w].ws;
            && ws in s'.wsState && [s'.writers[w].status.payload] + s'.wsState[ws].queue == s.wsState[ws].queue
            && IsSending(s', w) && s'.writers[w].ws == ws && s'.wsState[ws].writer == s.wsState[ws].writer
            && (forall x :: x != ws ==> Get(s'.wsState, x) == Get(s.wsState, x))
  {
  }

  /** A finished send leaves the writer waiting for the next payload, the queues as they are. */
  lemma SendFinishes(s: State, w: TaskId)
    requires IsSending(s, w)
    ensures var s' := Step(s, WriterSends(w));
            && s'.wsState == s.wsState && w in s'.writers && s'.writers[w] == s.writers[w].(status := Waiting)
  {
  }

  /** The writer of an open socket. */
  ghost predicate Writes(s: State, w: TaskId, ws: Socket) {
    ws in s.wsState && s.wsState[ws].writer == Some(w) && ws in s.log
  }

  lemma WriterSteps(s: State, w: TaskId, ws: Socket, e: Event)
    requires Inv(s) && Writes(s, w, ws) && w in s.writers && s.writers[w].ws == ws
    requires Enabled(s, e) && (e == WriterGets(w) || e == WriterSends(w))
    ensures Inv(Step(s, e)) && Writes(Step(s, e), w, ws)
    ensures Step(s, e).log[ws].accepted == s.log[ws].accepted
    ensures e.WriterGets? ==> |Step(s, e).wsState[ws].queue| < |s.wsState[ws].queue|
    ensures e.WriterSends? ==> Step(s, e).wsState[ws].queue == s.wsState[ws].queue && !IsSending(Step(s, e), w)
  {
    StepKeeps(s, e);
    HistoryStep(s, e, s.log[ws].user, ws);
    if e.WriterGets? { GetTakesHead(s, w); } else { SendFinishes(s, w); }
  }

  lemma WriterFacts(s: State, w: TaskId, ws: Socket)
    requires Inv(s) && Writes(s, w, ws)
    ensures w in s.writers && s.writers[w].ws == ws && (s.writers[w].status.Waiting? || IsSending(s, w))
    ensures s.writers[w].status.Waiting? && s.wsState[ws].queue == [] ==> s.log[ws].sent == s.log[ws].accepted
    ensures s.writers[w].status.Waiting? && s.wsState[ws].queue != [] ==> Enabled(s, WriterGets(w))
  {
    assert SocketOk(View(s, ws), ws, false);
    assert View(s, ws).writer == Get(s.writers, w);
  }

  lemma RunFirst(s: State, e: Event, rest: seq<Event>)
    requires Enabled(s, e)
    ensures Run(s, [e] + rest) == Run(Step(s, e), rest)
  {
    assert ([e] + rest)[1..] == rest;
  }

  /** Left to run, a writer sends everything its socket's queue has taken, in order. */
  lemma {:induction false} WriterDrains(s: State, w: TaskId, ws: Socket) returns (events: seq<Event>)
    requires Inv(s) && Writes(s, w, ws)
    ensures Drained(s, w, ws, events)
    decreases |s.wsState[ws].queue|, if IsSending(s, w) then 1 else 0
  {
    WriterFacts(s, w, ws);
    events := [];
    if IsSending(s, w) || s.wsState[ws].queue != [] {
      var e := if IsSending(s, w) then WriterSends(w) else WriterGets(w);
      WriterSteps(s, w, ws, e);
      var rest := WriterDrains(Step(s, e), w, ws);
      events := [e] + rest;
      DrainedFirst(s, w, ws, e, rest);
    }
  }

  lemma DrainedFirst(s: State, w: TaskId, ws: Socket, e: Event, rest: seq<Event>)
    requires Enabled(s, e) && (e == WriterGets(w) || e == WriterSends(w)) && ws in s.log && ws in Step(s, e).log
    requires Step(s, e).log[ws].accepted == s.log[ws].accepted && Drained(Step(s, e), w, ws, rest)
    ensures Drained(s, w, ws, [e] + rest)
  {
    RunFirst(s, e, rest);
  }

  /** Only the writer has run, its socket is still open, and all that was taken before has been sent. */
  ghost predicate Drained(s: State, w: TaskId, ws: Socket, events: seq<Event>)
    requires ws in s.log
  {
    var s' := Run(s, events);
    && (forall e :: e in events ==> e == WriterGets(w) || e == WriterSends(w))
    && Writes(s', w, ws) && s'.wsState[ws].queue == []
    && s'.log[ws].accepted == s.log[ws].accepted && s'.log[ws].sent == s.log[ws].accepted
  }
}
