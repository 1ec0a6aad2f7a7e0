/**
 Cleanup never gets stuck: left alone, the teardowns, the cancelled writers and the lock queue run
 out in a bounded number of steps, and then the registry, the sockets' states and the channel
 subscriptions agree.
 */
module WsDraining {
  import opened Wrappers
  import opened WsProtocol
  import opened WsInvariants
  import opened WsSteps

  predicate IsCleanup(e: Event) {
    e.EvictionRuns? || e.TeardownResumes? || e.CloseRuns? || e.LockServed? || e.WriterUnwinds?
  }

  ghost predicate Quiet(s: State) {
    && s.lockQueue == []
    && (forall t | t in s.teardowns :: s.teardowns[t].phase.Finished?)
    && (forall w | w in s.writers :: !s.writers[w].status.Cancelled?)
  }

  // The work left.

  function PhaseLoad(phase: Phase): nat {
    match phase
    case Scheduled => 6
    case StoppingWriter(_) => 4
    case Unsubscribing => 2
    case Closing => 1
    case Finished => 0
  }

  function Load(s: State, id: TaskId): nat {
    (if id in s.teardowns then PhaseLoad(s.teardowns[id].phase) else 0) +
    (if id in s.writers && s.writers[id].status.Cancelled? then 1 else 0)
  }

  function LoadBelow(s: State, n: nat): nat {
    if n == 0 then 0 else LoadBelow(s, n - 1) + Load(s, n - 1)
  }

  function Work(s: State): nat {
    LoadBelow(s, s.nextTask) + |s.lockQueue|
  }

  lemma {:induction false} LoadShift(s: State, s': State, n: nat, t: TaskId, w: TaskId)
    requires t != w
    requires forall id: TaskId | id != t && id != w :: Load(s', id) == Load(s, id)
    ensures LoadBelow(s', n) - LoadBelow(s, n) ==
            (if t < n then Load(s', t) - Load(s, t) else 0) + (if w < n then Load(s', w) - Load(s, w) else 0)
  {
    if n > 0 { LoadShift(s, s', n - 1, t, w); }
  }

  // Each cleanup step leaves less of it.

  lemma RemoveLoad(s: State, t: TaskId)
    requires t in s.teardowns && PhaseLoad(s.teardowns[t].phase) >= 4
    ensures var s' := Remove(s, t);
            && s'.nextTask == s.nextTask && (forall id: TaskId | id != t :: Load(s', id) == Load(s, id))
            && Load(s', t) + |s'.lockQueue| < Load(s, t) + |s.lockQueue|
  {
    var s' := Remove(s, t);
    assert s'.writers == s.writers;
    assert s'.teardowns[t].phase.Unsubscribing? || s'.teardowns[t].phase.Closing?;
  }

  lemma RemoveWork(s: State, t: TaskId)
    requires t in s.teardowns && PhaseLoad(s.teardowns[t].phase) >= 4 && t < s.nextTask
    ensures Work(Remove(s, t)) < Work(s)
  {
    RemoveLoad(s, t);
    LoadShift(s, Remove(s, t), s.nextTask, t, t + 1);
  }

  lemma PopWork(s: State, t: TaskId, ws: Socket)
    ensures Work(Pop(s, t, ws)) == Work(s)
  {
    LoadShift(s, Pop(s, t, ws), s.nextTask, t, t + 1);
  }

  lemma StopWork(s: State, t: TaskId, w: TaskId)
    requires t in s.teardowns && s.teardowns[t].phase.Scheduled? && w in s.writers && t < s.nextTask
    ensures Work(StopWriter(s, t, w)) < Work(s)
  {
    LoadShift(s, StopWriter(s, t, w), s.nextTask, t, if w == t then t + 1 else w);
  }

  lemma SetPhaseWork(s: State, t: TaskId, phase: Phase)
    requires t in s.teardowns && t < s.nextTask
    ensures Work(SetPhase(s, t, phase)) == Work(s) - PhaseLoad(s.teardowns[t].phase) + PhaseLoad(phase)
  {
    LoadShift(s, SetPhase(s, t, phase), s.nextTask, t, t + 1);
  }

  lemma SameLoad(s: State, s': State)
    requires s'.teardowns == s.teardowns && s'.writers == s.writers && s'.nextTask == s.nextTask
    ensures Work(s') == Work(s) - |s.lockQueue| + |s'.lockQueue|
  {
    LoadShift(s, s', s.nextTask, 0, 1);
  }

  lemma EvictionWork(s: State, t: TaskId)
    requires t in s.teardowns && s.teardowns[t].phase.Scheduled? && t < s.nextTask
    ensures Work(TeardownBegin(s, t, None)) < Work(s)
  {
    var ws := s.teardowns[t].ws;
    if ws !in s.wsState {
      SetPhaseWork(s, t, Finished);
      SameLoad(SetPhase(s, t, Finished), Finish(s, t));
    } else {
      PopWork(s, t, ws);
      if WriterRuns(s, s.wsState[ws].writer) { StopWork(Pop(s, t, ws), t, s.wsState[ws].writer.value); }
      else { RemoveWork(Pop(s, t, ws), t); }
    }
  }

  lemma CloseWork(s: State, t: TaskId)
    requires t in s.teardowns && s.teardowns[t].phase.Closing? && t < s.nextTask
    ensures Work(CloseSocket(s, t)) < Work(s)
  {
    SetPhaseWork(s, t, Finished);
    SameLoad(SetPhase(s, t, Finished), CloseSocket(s, t));
  }

  lemma ServeWork(s: State)
    requires s.lockQueue != []
    requires s.lockQueue[0].waiter.Some? ==>
               var t := s.lockQueue[0].waiter.value;
               t in s.teardowns && s.teardowns[t].phase.Unsubscribing? && t < s.nextTask
    ensures Work(ServeLock(s)) < Work(s)
  {
    var served := s.(lockQueue := s.lockQueue[1..], subscribed := Apply(s.subscribed, s.lockQueue[0]));
    SameLoad(s, served);
    if s.lockQueue[0].waiter.Some? { SetPhaseWork(served, s.lockQueue[0].waiter.value, Closing); }
  }

  lemma UnwindWork(s: State, w: TaskId)
    requires w in s.writers && s.writers[w].status.Cancelled? && w < s.nextTask
    ensures Work(SetStatus(s, w, Done)) < Work(s)
  {
    LoadShift(s, SetStatus(s, w, Done), s.nextTask, w, w + 1);
  }

  /** Every cleanup step shrinks the work, so no schedule can take more than `Work(s)` of them in a row. */
  lemma CleanupShrinksWork(s: State, e: Event)
    requires Inv(s) && Enabled(s, e) && IsCleanup(e)
    ensures Work(Step(s, e)) < Work(s)
  {
    match e
    case EvictionRuns(t) => EvictionWork(s, t);
    case TeardownResumes(t) => RemoveWork(s, t);
    case CloseRuns(t) => CloseWork(s, t);
    case LockServed => assert LiveWaiter(s.lockQueue[0].waiter, s.teardowns); ServeWork(s);
    case WriterUnwinds(w) => UnwindWork(s, w);
  }

  /** `e` is a cleanup step that some task is ready to take. */
  predicate Ready(s: State, e: Event) {
    IsCleanup(e) && Enabled(s, e)
  }

  /** No deadlock: a teardown that waits for the lock is in its queue, one that waits for a writer will see it end. */
  lemma CleanupCanRun(s: State) returns (e: Event)
    requires Inv(s) && !Quiet(s)
    ensures Ready(s, e)
  {
    e := SomeCleanup(s);
  }

  lemma SomeCleanup(s: State) returns (e: Event)
    requires LockOk(s) && !Quiet(s)
    requires forall t: TaskId | t in s.teardowns :: TeardownOk(ViewTeardown(s, t), t)
    ensures Ready(s, e)
  {
    if s.lockQueue != [] {
      e := LockServed;
    } else if w: TaskId :| w in s.writers && s.writers[w].status.Cancelled? {
      e := WriterUnwinds(w);
    } else {
      var t: TaskId :| t in s.teardowns && !s.teardowns[t].phase.Finished?;
      e := TeardownCanRun(s, t);
    }
  }

  lemma TeardownCanRun(s: State, t: TaskId) returns (e: Event)
    requires t in s.teardowns && !s.teardowns[t].phase.Finished? && TeardownOk(ViewTeardown(s, t), t)
    requires LockOk(s) && s.lockQueue == [] && forall w | w in s.writers :: !s.writers[w].status.Cancelled?
    ensures Ready(s, e)
  {
    if s.teardowns[t].phase.Scheduled? {
      e := EvictionRuns(t);
    } else if s.teardowns[t].phase.StoppingWriter? {
      e := TeardownResumes(t);
    } else {
      e := CloseRuns(t);
    }
  }

  /** From every state the invariant allows, cleanup alone reaches a quiet one. */
  lemma {:induction false} Drains(s: State) returns (events: seq<Event>)
    requires Inv(s)
    ensures forall e :: e in events ==> IsCleanup(e)
    ensures Inv(Run(s, events)) && Quiet(Run(s, events))
    decreases Work(s)
  {
    events := [];
    if !Quiet(s) {
      var e := CleanupCanRun(s);
      StepKeeps(s, e);
      CleanupShrinksWork(s, e);
      var rest := Drains(Step(s, e));
      events := [e] + rest;
      assert events[1..] == rest;
    }
  }

  /** In a quiet state nothing is half done: open sockets, listed sockets and subscriptions match. */
  lemma QuietAgreement(s: State)
    requires Inv(s) && Quiet(s)
    ensures s.subscribed == s.connections.Keys
    ensures s.evictionTasks == {}
    ensures forall ws :: ws in s.wsState <==> exists user :: Listed(s, user, ws)
    ensures forall ws :: ws in s.log && ws !in s.wsState ==>
              && s.log[ws].owner.Some? && s.log[ws].owner.value in s.teardowns
              && s.log[ws].closes == (if s.teardowns[s.log[ws].owner.value].closeCode.Some?
                                      then [4408] else [])
  {
    forall t: TaskId | t in s.teardowns ensures t !in s.evictionTasks {
      assert TeardownOk(ViewTeardown(s, t), t);
    }
    forall ws | ws in s.log
      ensures ws in s.wsState <==> Listed(s, s.log[ws].user, ws)
      ensures ws !in s.wsState ==>
                && s.log[ws].owner.Some? && s.log[ws].owner.value in s.teardowns
                && s.log[ws].closes == (if s.teardowns[s.log[ws].owner.value].closeCode.Some?
                                        then [4408] else [])
    {
      assert SocketOk(View(s, ws), ws, false);
    }
    forall user, ws | Listed(s, user, ws) ensures ws in s.log && s.log[ws].user == user {
      ConnsOwned(s, user);
    }
    forall ws | ws in s.wsState ensures exists user :: Listed(s, user, ws) {
      assert Listed(s, s.log[ws].user, ws);
    }
  }
}
