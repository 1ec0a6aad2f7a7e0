/**
 The per-user cap.  `connect` tests it before awaiting the handshake, so it bounds a user's
 connections exactly when the connects of that user do not overlap there.
 */
module WsCap {
  import opened Wrappers
  import opened WsProtocol
  import opened WsInvariants
  import opened WsSteps

  /** The user's sockets that passed the test and await the handshake. */
  function Pending(accepting: map<Socket, User>, user: User): set<Socket> {
    set ws | ws in accepting && accepting[ws] == user
  }

  /** How many connections the user will have if every pending handshake succeeds. */
  function Demand(s: State, user: User): nat {
    |Conns(s, user)| + |Pending(s.accepting, user)|
  }

  lemma PendingAdd(accepting: map<Socket, User>, user: User, ws: Socket, of: User)
    requires ws !in accepting
    ensures |Pending(accepting[ws := of], user)| == |Pending(accepting, user)| + (if of == user then 1 else 0)
  {
    assert Pending(accepting[ws := of], user) == Pending(accepting, user) + (if of == user then {ws} else {});
  }

  lemma PendingDrop(accepting: map<Socket, User>, user: User, ws: Socket)
    requires ws in accepting
    ensures |Pending(accepting - {ws}, user)| == |Pending(accepting, user)| - (if accepting[ws] == user then 1 else 0)
  {
    assert Pending(accepting - {ws}, user) == Pending(accepting, user) - (if accepting[ws] == user then {ws} else {});
  }

  lemma ConnectDemand(s: State, user: User, ws: Socket, of: User)
    requires ws !in s.accepting
    ensures Demand(ConnectBegin(s, of, ws), user) ==
            Demand(s, user) + (if of == user && |Conns(s, user)| < MAX_WS_PER_USER then 1 else 0)
  {
    PendingAdd(s.accepting, user, ws, of);
  }

  lemma AcceptDemand(s: State, user: User, ws: Socket)
    requires ws in s.accepting
    ensures Demand(AcceptDone(s, ws), user) == Demand(s, user)
    ensures Demand(AcceptFailed(s, ws), user) <= Demand(s, user)
  {
    PendingDrop(s.accepting, user, ws);
  }

  // Nothing else adds a connection.

  lemma {:induction false} WithoutShrinks(conns: seq<Socket>, ws: Socket)
    ensures |Without(conns, ws)| <= |conns|
  {
    if conns != [] && conns[0] != ws { WithoutShrinks(conns[1..], ws); }
  }

  lemma RemoveDemand(s: State, t: TaskId, user: User)
    requires t in s.teardowns
    ensures Demand(Remove(s, t), user) <= Demand(s, user)
  {
    WithoutShrinks(Conns(s, s.teardowns[t].user), s.teardowns[t].ws);
  }

  lemma TeardownDemand(s: State, t: TaskId, current: Option<TaskId>, user: User)
    requires t in s.teardowns
    ensures Demand(TeardownBegin(s, t, current), user) <= Demand(s, user)
  {
    RemoveDemand(Pop(s, t, s.teardowns[t].ws), t, user);
  }

  lemma {:induction false} EnqueueAllRegistry(s: State, user: User, conns: seq<Socket>, payload: Payload)
    ensures var s' := EnqueueAll(s, user, conns, payload).0;
            s'.connections == s.connections && s'.accepting == s.accepting
  {
    if conns != [] { EnqueueAllRegistry(s, user, conns[..|conns| - 1], payload); }
  }

  lemma {:induction false} ScheduleRegistry(s: State, user: User, evicted: seq<Socket>)
    ensures var s' := ScheduleEvictions(s, user, evicted);
            s'.connections == s.connections && s'.accepting == s.accepting
  {
    if evicted != [] { ScheduleRegistry(s, user, evicted[..|evicted| - 1]); }
  }

  lemma DeliverDemand(s: State, of: User, payload: Payload, user: User)
    ensures Demand(Deliver(s, of, payload), user) == Demand(s, user)
  {
    EnqueueAllRegistry(s, of, Conns(s, of), payload);
    var (queued, evicted) := EnqueueAll(s, of, Conns(s, of), payload);
    ScheduleRegistry(queued, of, evicted);
  }

  lemma FailDemand(s: State, w: TaskId, user: User)
    requires IsSending(s, w)
    ensures Demand(WriterFails(s, w), user) <= Demand(s, user)
  {
    var task := s.writers[w];
    TeardownDemand(NewTeardown(SetStatus(s, w, Failing), task.user, task.ws), s.nextTask, Some(w), user);
  }

  lemma StepDemand(s: State, e: Event, user: User)
    requires KeysOk(s) && Enabled(s, e)
    ensures Demand(Step(s, e), user) <= Demand(s, user) ||
            (e.ConnectCall? && e.user == user && |Conns(s, user)| < MAX_WS_PER_USER &&
             Demand(Step(s, e), user) == Demand(s, user) + 1)
  {
    match e
    case ConnectCall(of, ws) => ConnectDemand(s, user, ws, of);
    case AcceptReturns(ws) => AcceptDemand(s, user, ws);
    case AcceptRaises(ws) => AcceptDemand(s, user, ws);
    case DisconnectCall(of, ws) => TeardownDemand(NewTeardown(s, of, ws), s.nextTask, None, user);
    case DeliverCall(of, payload) => DeliverDemand(s, of, payload, user);
    case EvictionRuns(t) => TeardownDemand(s, t, None, user);
    case TeardownResumes(t) => RemoveDemand(s, t, user);
    case WriterRaises(w) => FailDemand(s, w, user);
    case _ =>
  }

  /** No connect of the user starts while another one of theirs awaits the handshake. */
  ghost predicate Serial(s: State, events: seq<Event>, user: User)
    decreases |events|
  {
    events == [] ||
    var e := events[0];
    && (Enabled(s, e) && e.ConnectCall? && e.user == user ==> Pending(s.accepting, user) == {})
    && Serial(if Enabled(s, e) then Step(s, e) else s, events[1..], user)
  }

  /** If a user's connects never overlap, the user never has more than six connections. */
  lemma {:induction false} SerialConnectsKeepCap(s: State, events: seq<Event>, user: User)
    requires Inv(s) && Demand(s, user) <= MAX_WS_PER_USER && Serial(s, events, user)
    ensures |Conns(Run(s, events), user)| <= 6
    decreases |events|
  {
    if events != [] {
      var e := events[0];
      if Enabled(s, e) {
        StepDemand(s, e, user);
        StepKeeps(s, e);
        SerialConnectsKeepCap(Step(s, e), events[1..], user);
      } else {
        SerialConnectsKeepCap(s, events[1..], user);
      }
    }
  }

  /** One connect keeps the demand within the cap exactly when it is refused or pending ones leave room. */
  lemma ConnectKeepsCapIff(s: State, user: User, ws: Socket)
    requires Inv(s) && ws !in s.used && Demand(s, user) <= 6
    ensures Demand(ConnectBegin(s, user, ws), user) <= 6 <==>
            |Conns(s, user)| >= 6 || Demand(s, user) < 6
  {
    ConnectDemand(s, user, ws, user);
  }

  /** Every connect of the user finds the list full, or room beside the handshakes pending. */
  ghost predicate Roomy(s: State, events: seq<Event>, user: User)
    decreases |events|
  {
    events == [] ||
    var e := events[0];
    && (Enabled(s, e) && e.ConnectCall? && e.user == user ==>
          |Conns(s, user)| >= 6 || Demand(s, user) < 6)
    && Roomy(if Enabled(s, e) then Step(s, e) else s, events[1..], user)
  }

  /** Connections and pending handshakes stay within the cap in every state of the run. */
  ghost predicate Within(s: State, events: seq<Event>, user: User)
    decreases |events|
  {
    Demand(s, user) <= 6 &&
    (events == [] || Within(if Enabled(s, events[0]) then Step(s, events[0]) else s, events[1..], user))
  }

  /** Over a run, the cap holds throughout exactly when every connect is refused or finds room. */
  lemma {:induction false} WithinIffRoomy(s: State, events: seq<Event>, user: User)
    requires Inv(s) && Demand(s, user) <= 6
    ensures Within(s, events, user) <==> Roomy(s, events, user)
    decreases |events|
  {
    if events != [] {
      var e := events[0];
      if Enabled(s, e) {
        StepWithinIff(s, e, user);
        StepKeeps(s, e);
        if Demand(Step(s, e), user) <= 6 { WithinIffRoomy(Step(s, e), events[1..], user); }
      } else {
        WithinIffRoomy(s, events[1..], user);
      }
    }
  }

  lemma StepWithinIff(s: State, e: Event, user: User)
    requires Inv(s) && Enabled(s, e) && Demand(s, user) <= 6
    ensures Demand(Step(s, e), user) <= 6 <==>
            (e.ConnectCall? && e.user == user ==>
               |Conns(s, user)| >= 6 || Demand(s, user) < 6)
  {
    StepDemand(s, e, user);
    if e.ConnectCall? && e.user == user { ConnectKeepsCapIff(s, user, e.ws); }
  }

  /** Demand is real: letting the pending handshakes succeed turns all of it into connections. */
  lemma {:induction false} DemandIsMet(s: State, user: User) returns (events: seq<Event>)
    ensures |Conns(Run(s, events), user)| == Demand(s, user)
    decreases |Pending(s.accepting, user)|
  {
    events := [];
    if ws :| ws in Pending(s.accepting, user) {
      AcceptDemand(s, user, ws);
      PendingDrop(s.accepting, user, ws);
      var rest := DemandIsMet(AcceptDone(s, ws), user);
      events := [AcceptReturns(ws)] + rest;
      assert events[1..] == rest;
    }
  }

  function Burst(user: User, n: nat): seq<Event> {
    if n == 0 then [] else Burst(user, n - 1) + [ConnectCall(user, n - 1)]
  }

  lemma {:induction false} RunAppend(s: State, es: seq<Event>, e: Event)
    ensures Run(s, es + [e]) == (var s' := Run(s, es); if Enabled(s', e) then Step(s', e) else s')
    decreases |es|
  {
    if es != [] {
      assert (es + [e])[1..] == es[1..] + [e];
      RunAppend(if Enabled(s, es[0]) then Step(s, es[0]) else s, es[1..], e);
    } else {
      assert ([e])[1..] == [];
    }
  }

  lemma {:induction false} BurstDemand(user: User, n: nat)
    ensures var s := Run(INITIAL, Burst(user, n));
            && Demand(s, user) == n && Conns(s, user) == []
            && forall ws :: ws in s.used || ws in s.accepting ==> ws < n
  {
    if n > 0 {
      BurstDemand(user, n - 1);
      RunAppend(INITIAL, Burst(user, n - 1), ConnectCall(user, n - 1));
      ConnectDemand(Run(INITIAL, Burst(user, n - 1)), user, n - 1, user);
    }
  }

  lemma {:induction false} RunConcat(s: State, a: seq<Event>, b: seq<Event>)
    ensures Run(s, a + b) == Run(Run(s, a), b)
    decreases |a|
  {
    if a == [] {
      assert [] + b == b;
    } else {
      assert (a + b)[1..] == a[1..] + b;
      RunConcat(if Enabled(s, a[0]) then Step(s, a[0]) else s, a[1..], b);
    }
  }

  /** Overlapping connects do break the cap: any number of them can get through together. */
  lemma OverlapsIgnoreCap(user: User, n: nat) returns (events: seq<Event>)
    ensures |Conns(Run(INITIAL, events), user)| == n
  {
    BurstDemand(user, n);
    var accepts := DemandIsMet(Run(INITIAL, Burst(user, n)), user);
    events := Burst(user, n) + accepts;
    RunConcat(INITIAL, Burst(user, n), accepts);
  }
}
