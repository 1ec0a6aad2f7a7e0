/**
 Whole runs of one background job. Every hook, and every cancellation asked for in the admin panel
 (`app/api/v1/admin/tasks.py`), first loads the row and later commits the columns it changed, so
 loads and commits of different parties interleave freely.
 */
module JobRuns {
  import opened Wrappers
  import opened JobLifecycle

  /** Where a message for the job is. The loaded stages hold the row as the hook read it. */
  datatype Stage =
    | Queued
    | PreLoaded(row: Row)
    | Executing
    | PostLoaded(row: Row)
    | ErrorLoaded(row: Row)
    | Waiting(delay: nat)

  datatype Request = Single(row: Row) | Bulk(row: Row)

  /** `waits` and `executions` are history: delays slept before re-kicks, and starts of the task body. */
  datatype State = State(row: Row, messages: seq<Stage>, requests: seq<Request>, purges: nat,
                         executions: nat, waits: seq<nat>, alerts: nat)

  datatype Event =
    | PreLoad(i: nat)
    | PreCommit(i: nat, signalled: bool, now: Time)
    | Succeed(i: nat)
    | PostCommit(i: nat, now: Time, summary: Option<Summary>)
    | Fail(i: nat)
    | ErrorCommit(i: nat, error: string, now: Time)
    | Rekick(i: nat)
    | SingleLoad
    | BulkLoad
    | RequestCommit(j: nat, now: Time)
    | Purge

  /** UPDATE writes the columns that differ from the loaded row. */
  function Commit(stored: Row, loaded: Row, changed: Row): Row {
    Row(if changed.status != loaded.status then changed.status else stored.status,
        if changed.attempts != loaded.attempts then changed.attempts else stored.attempts,
        if changed.maxAttempts != loaded.maxAttempts then changed.maxAttempts else stored.maxAttempts,
        if changed.startedAt != loaded.startedAt then changed.startedAt else stored.startedAt,
        if changed.finishedAt != loaded.finishedAt then changed.finishedAt else stored.finishedAt,
        if changed.durationMs != loaded.durationMs then changed.durationMs else stored.durationMs,
        if changed.error != loaded.error then changed.error else stored.error,
        if changed.summary != loaded.summary then changed.summary else stored.summary)
  }

  /** What an admin request makes of the row it loaded. */
  function RequestRow(request: Request, now: Time): Row {
    var row := request.row;
    match request
    case Single(_) => if Terminal(row.status) then row else row.(status := CANCELLING)
    case Bulk(_) =>
      if row.status == QUEUED
      then row.(status := CANCELLED, finishedAt := Some(now), error := Some("cancelled_by_admin_bulk"))
      else row.(status := CANCELLING, error := Some("cancel_requested_by_admin_bulk"))
  }

  /** The statuses a bulk cancellation selects. */
  predicate Active(status: Status) {
    status == QUEUED || status == RUNNING || status == CANCELLING
  }

  function RemoveAt<T>(q: seq<T>, i: nat): seq<T>
    requires i < |q|
  {
    q[..i] + q[i + 1..]
  }

  /** The event can happen. */
  predicate Enabled(s: State, e: Event) {
    match e
    case PreLoad(i) => i < |s.messages| && s.messages[i].Queued?
    case PreCommit(i, _, _) => i < |s.messages| && s.messages[i].PreLoaded?
    case Succeed(i) => i < |s.messages| && s.messages[i].Executing?
    case PostCommit(i, _, _) => i < |s.messages| && s.messages[i].PostLoaded?
    case Fail(i) => i < |s.messages| && s.messages[i].Executing?
    case ErrorCommit(i, _, _) => i < |s.messages| && s.messages[i].ErrorLoaded?
    case Rekick(i) => i < |s.messages| && s.messages[i].Waiting?
    case SingleLoad => true
    case BulkLoad => Active(s.row.status)
    case RequestCommit(j, _) => j < |s.requests|
    case Purge => s.purges > 0
  }

  /** One step; an event that cannot happen changes nothing. */
  function Step(labelMax: Option<int>, s: State, e: Event): State {
    if !Enabled(s, e) then s
    else match e
      case PreLoad(i) => s.(messages := s.messages[i := PreLoaded(s.row)])
      case PreCommit(i, signalled, now) =>
        var loaded := s.messages[i].row;
        s.(row := Commit(s.row, loaded, PreRow(loaded, signalled, now)),
           messages := s.messages[i := Executing], executions := s.executions + 1)
      case Succeed(i) => s.(messages := s.messages[i := PostLoaded(s.row)])
      case PostCommit(i, now, summary) =>
        var loaded := s.messages[i].row;
        s.(row := Commit(s.row, loaded, PostRow(loaded, now, summary)), messages := RemoveAt(s.messages, i))
      case Fail(i) => s.(messages := s.messages[i := ErrorLoaded(s.row)])
      case ErrorCommit(i, error, now) =>
        var loaded := s.messages[i].row;
        var s' := s.(row := Commit(s.row, loaded, ErrorRow(loaded, labelMax, error, now)));
        (match ErrorReaction(loaded, labelMax)
         case Nothing => s'.(messages := RemoveAt(s.messages, i))
         case Retry(delay) => s'.(messages := s.messages[i := Waiting(delay)], waits := s.waits + [delay])
         case Alert => s'.(messages := RemoveAt(s.messages, i), alerts := s.alerts + 1))
      case Rekick(i) => s.(messages := s.messages[i := Queued])
      case SingleLoad => s.(requests := s.requests + [Single(s.row)])
      case BulkLoad => s.(requests := s.requests + [Bulk(s.row)])
      case RequestCommit(j, now) =>
        var request := s.requests[j];
        s.(row := Commit(s.row, request.row, RequestRow(request, now)), requests := RemoveAt(s.requests, j),
           purges := if request.Bulk? && request.row.status == QUEUED then s.purges + 1 else s.purges)
      case Purge => s.(messages := NotQueued(s.messages), purges := s.purges - 1)
  }

  function NotQueued(messages: seq<Stage>): seq<Stage> {
    if messages == [] then []
    else if messages[0].Queued? then NotQueued(messages[1..]) else [messages[0]] + NotQueued(messages[1..])
  }

  function Run(labelMax: Option<int>, s: State, events: seq<Event>): State
    decreases |events|
  {
    if events == [] then s else Run(labelMax, Step(labelMax, s, events[0]), events[1..])
  }

  /** As `enqueue` leaves it: a queued row, never attempted, and its one message. */
  ghost predicate Initial(s: State) {
    && s.row.status == QUEUED && s.row.attempts == 0
    && s.messages == [Queued] && s.requests == [] && s.purges == 0
    && s.executions == 0 && s.waits == [] && s.alerts == 0
  }

  ghost predicate Reachable(labelMax: Option<int>, s: State) {
    exists start, events :: Initial(start) && Run(labelMax, start, events) == s
  }

  /** The most times the task body can start. */
  function Budget(row: Row, labelMax: Option<int>): nat {
    Max(1, EffectiveMax(row, labelMax))
  }

  // The invariant.

  ghost predicate Consistent(labelMax: Option<int>, s: State) {
    && |s.messages| <= 1
    && (|s.messages| == 1 ==> StageOk(labelMax, s.row, s.executions, |s.waits|, s.messages[0]))
    && (forall j :: 0 <= j < |s.requests| ==> RequestOk(s.row, s.requests[j]))
    && s.executions <= Budget(s.row, labelMax)
    && s.waits == Waits(|s.waits|)
    && s.alerts <= 1
    && (s.alerts == 1 ==> Spent(labelMax, s))
    && (s.row.status == DONE || s.row.status == FAILED_TERMINAL ==> s.messages == [])
    && (s.row.status == FAILED_TERMINAL ==> s.alerts == 1)
  }

  /** After the alert: nothing outstanding, every attempt used. */
  ghost predicate Spent(labelMax: Option<int>, s: State) {
    && s.messages == [] && (s.row.status == FAILED_TERMINAL || Cancelled(s.row.status))
    && s.row.attempts == Budget(s.row, labelMax) && s.executions == s.row.attempts
    && |s.waits| == s.row.attempts - 1
  }

  ghost predicate RequestOk(row: Row, request: Request) {
    && request.row.maxAttempts == row.maxAttempts && request.row.attempts <= row.attempts
    && (request.Bulk? ==> Active(request.row.status))
  }

  ghost predicate LoadedOk(row: Row, loaded: Row) {
    loaded.attempts == row.attempts && loaded.maxAttempts == row.maxAttempts
  }

  ghost predicate Fresh(labelMax: Option<int>, row: Row, executions: nat, waits: nat) {
    executions == row.attempts == waits < Budget(row, labelMax)
  }

  /** The body runs on a counted attempt, or once more on a cancelled row. */
  ghost predicate Started(row: Row, status: Status, executions: nat, waits: nat) {
    && executions == waits + 1 && row.attempts >= 0
    && ((executions == row.attempts && (status == RUNNING || Cancelled(status))) ||
        (executions == row.attempts + 1 && Cancelled(status)))
  }

  ghost predicate StageOk(labelMax: Option<int>, row: Row, executions: nat, waits: nat, stage: Stage) {
    match stage
    case Queued => Fresh(labelMax, row, executions, waits) && (row.status == QUEUED || Cancelled(row.status))
    case Waiting(delay) => Fresh(labelMax, row, executions, waits) && (row.status == QUEUED || Cancelled(row.status))
    case PreLoaded(loaded) =>
      && Fresh(labelMax, row, executions, waits) && LoadedOk(row, loaded)
      && (row.status == QUEUED || Cancelled(row.status)) && (loaded.status == QUEUED || Cancelled(loaded.status))
      && (Cancelled(loaded.status) ==> Cancelled(row.status))
    case Executing => Started(row, row.status, executions, waits)
    case PostLoaded(loaded) => LoadedOk(row, loaded) && StartedAs(row, loaded, executions, waits)
    case ErrorLoaded(loaded) => LoadedOk(row, loaded) && StartedAs(row, loaded, executions, waits)
  }

  /** Both the loaded row and the stored one fit an attempt under way, and cancellation is never undone in between. */
  ghost predicate StartedAs(row: Row, loaded: Row, executions: nat, waits: nat) {
    && Started(row, row.status, executions, waits)
    && Started(loaded, loaded.status, executions, waits)
    && (Cancelled(loaded.status) ==> Cancelled(row.status))
  }

  lemma {:induction false} RunKeeps(labelMax: Option<int>, s: State, events: seq<Event>)
    requires Consistent(labelMax, s)
    ensures Consistent(labelMax, Run(labelMax, s, events))
    decreases |events|
  {
    if events != [] {
      StepKeeps(labelMax, s, events[0]);
      RunKeeps(labelMax, Step(labelMax, s, events[0]), events[1..]);
    }
  }

  lemma StepKeeps(labelMax: Option<int>, s: State, e: Event)
    requires Consistent(labelMax, s)
    ensures Consistent(labelMax, Step(labelMax, s, e))
    ensures Step(labelMax, s, e).row.maxAttempts == s.row.maxAttempts
  {
    if Enabled(s, e) {
      match e
      case PreLoad(_) => LoadKeeps(labelMax, s, e);
      case Succeed(_) => LoadKeeps(labelMax, s, e);
      case Fail(_) => LoadKeeps(labelMax, s, e);
      case Rekick(_) => LoadKeeps(labelMax, s, e);
      case PreCommit(_, _, _) => PreCommitKeeps(labelMax, s, e);
      case PostCommit(_, _, _) => PostCommitKeeps(labelMax, s, e);
      case ErrorCommit(_, _, _) => ErrorCommitKeeps(labelMax, s, e);
      case SingleLoad => RequestLoadKeeps(labelMax, s, e);
      case BulkLoad => RequestLoadKeeps(labelMax, s, e);
      case RequestCommit(_, _) => RequestCommitKeeps(labelMax, s, e);
      case Purge => PurgeKeeps(labelMax, s, e);
    }
  }

  lemma LoadKeeps(labelMax: Option<int>, s: State, e: Event)
    requires Consistent(labelMax, s) && Enabled(s, e) && (e.PreLoad? || e.Succeed? || e.Fail? || e.Rekick?)
    ensures Consistent(labelMax, Step(labelMax, s, e)) && Step(labelMax, s, e).row == s.row
  {
  }

  lemma PreCommitKeeps(labelMax: Option<int>, s: State, e: Event)
    requires Consistent(labelMax, s) && Enabled(s, e) && e.PreCommit?
    ensures Consistent(labelMax, Step(labelMax, s, e)) && Step(labelMax, s, e).row.maxAttempts == s.row.maxAttempts
  {
    RequestsKeep(s, Step(labelMax, s, e));
  }

  lemma PostCommitKeeps(labelMax: Option<int>, s: State, e: Event)
    requires Consistent(labelMax, s) && Enabled(s, e) && e.PostCommit?
    ensures Consistent(labelMax, Step(labelMax, s, e)) && Step(labelMax, s, e).row.maxAttempts == s.row.maxAttempts
  {
    RequestsKeep(s, Step(labelMax, s, e));
  }

  lemma ErrorCommitKeeps(labelMax: Option<int>, s: State, e: Event)
    requires Consistent(labelMax, s) && Enabled(s, e) && e.ErrorCommit?
    ensures Consistent(labelMax, Step(labelMax, s, e)) && Step(labelMax, s, e).row.maxAttempts == s.row.maxAttempts
  {
    RequestsKeep(s, Step(labelMax, s, e));
    WaitsSnoc(|s.waits|);
    ErrorWrites(labelMax, s.row, s.messages[0].row, s.executions, |s.waits|, e.error, e.now);
  }

  /** A retry leaves a fresh attempt; an alert, a spent job. */
  lemma ErrorWrites(labelMax: Option<int>, stored: Row, loaded: Row, executions: nat, waits: nat, error: string,
                    now: Time)
    requires LoadedOk(stored, loaded) && StartedAs(stored, loaded, executions, waits)
    requires executions <= Budget(stored, labelMax)
    ensures var row := Commit(stored, loaded, ErrorRow(loaded, labelMax, error, now));
            var reaction := ErrorReaction(loaded, labelMax);
            && row.attempts == stored.attempts && row.maxAttempts == stored.maxAttempts
            && (reaction.Nothing? ==> Cancelled(row.status))
            && (reaction.Retry? ==> reaction.delay == Backoff(waits + 1) && row.status == QUEUED)
            && (reaction.Retry? ==> Fresh(labelMax, row, executions, waits + 1))
            && (reaction.Alert? ==> row.status == FAILED_TERMINAL)
            && (reaction.Alert? ==> row.attempts == executions == Budget(row, labelMax))
  {
  }

  lemma RequestsKeep(s: State, s': State)
    requires s'.requests == s.requests && s'.row.maxAttempts == s.row.maxAttempts && s.row.attempts <= s'.row.attempts
    requires forall j :: 0 <= j < |s.requests| ==> RequestOk(s.row, s.requests[j])
    ensures forall j :: 0 <= j < |s'.requests| ==> RequestOk(s'.row, s'.requests[j])
  {
  }

  lemma RequestLoadKeeps(labelMax: Option<int>, s: State, e: Event)
    requires Consistent(labelMax, s) && Enabled(s, e) && (e.SingleLoad? || e.BulkLoad?)
    ensures Consistent(labelMax, Step(labelMax, s, e)) && Step(labelMax, s, e).row == s.row
  {
  }

  lemma RequestWrites(stored: Row, request: Request, now: Time)
    requires RequestOk(stored, request)
    ensures var row := Commit(stored, request.row, RequestRow(request, now));
            && row.attempts == stored.attempts && row.maxAttempts == stored.maxAttempts
            && (row.status == stored.status || Cancelled(row.status))
  {
  }

  lemma RequestCommitKeeps(labelMax: Option<int>, s: State, e: Event)
    requires Consistent(labelMax, s) && Enabled(s, e) && e.RequestCommit?
    ensures Consistent(labelMax, Step(labelMax, s, e)) && Step(labelMax, s, e).row.maxAttempts == s.row.maxAttempts
  {
    var s' := Step(labelMax, s, e);
    RequestWrites(s.row, s.requests[e.j], e.now);
    if |s.messages| == 1 { StageSurvives(labelMax, s.row, s'.row, s.executions, |s.waits|, s.messages[0]); }
  }

  lemma StageSurvives(labelMax: Option<int>, row: Row, row': Row, executions: nat, waits: nat, stage: Stage)
    requires StageOk(labelMax, row, executions, waits, stage)
    requires row'.attempts == row.attempts && row'.maxAttempts == row.maxAttempts
    requires row'.status == row.status || Cancelled(row'.status)
    ensures StageOk(labelMax, row', executions, waits, stage)
  {
  }

  lemma PurgeKeeps(labelMax: Option<int>, s: State, e: Event)
    requires Consistent(labelMax, s) && Enabled(s, e) && e.Purge?
    ensures Consistent(labelMax, Step(labelMax, s, e)) && Step(labelMax, s, e).row == s.row
    ensures Step(labelMax, s, e).messages == [] || Step(labelMax, s, e).messages == s.messages
  {
    if |s.messages| == 1 {
      assert s.messages[1..] == [];
      assert NotQueued(s.messages) == if s.messages[0].Queued? then [] else s.messages;
    }
  }

  // What every reachable state satisfies.

  lemma ReachableConsistent(labelMax: Option<int>, s: State)
    requires Reachable(labelMax, s)
    ensures Consistent(labelMax, s)
  {
    var start, events :| Initial(start) && Run(labelMax, start, events) == s;
    assert Waits(0) == [];
    RunKeeps(labelMax, start, events);
  }

  /**
   At most one message for the job is queued, executing or waiting; the body starts at most
   max(1, effective max attempts) times, on a cancelled row too; and a finished job has no message.
   */
  lemma Bounded(labelMax: Option<int>, s: State)
    requires Reachable(labelMax, s)
    ensures |s.messages| <= 1
    ensures s.executions <= Budget(s.row, labelMax)
    ensures s.row.status == DONE || s.row.status == FAILED_TERMINAL ==> s.messages == []
  {
    ReachableConsistent(labelMax, s);
  }

  /** One alert at most, fired by exactly the step that makes the row failed_terminal. */
  lemma OneAlert(labelMax: Option<int>, s: State, e: Event)
    requires Reachable(labelMax, s)
    ensures s.alerts <= 1
    ensures Step(labelMax, s, e).alerts == s.alerts + 1 <==>
            s.row.status != FAILED_TERMINAL && Step(labelMax, s, e).row.status == FAILED_TERMINAL
    ensures s.row.status == FAILED_TERMINAL ==> s.alerts == 1
    ensures s.alerts == 1 ==> s.row.status == FAILED_TERMINAL || Cancelled(s.row.status)
  {
    ReachableConsistent(labelMax, s);
    if Enabled(s, e) && e.RequestCommit? { RequestWrites(s.row, s.requests[e.j], e.now); }
  }

  /** A job that ended in the alert used every attempt, and waited the closed form between them. */
  lemma AlertedWaits(labelMax: Option<int>, s: State)
    requires Reachable(labelMax, s) && s.alerts == 1
    ensures var m := Budget(s.row, labelMax);
            && s.row.attempts == m && s.executions == m && s.waits == Waits(m - 1)
            && (m <= 7 ==> Sum(s.waits) == Pow2(m - 1) - 1)
            && (m >= 7 ==> Sum(s.waits) == 63 + 60 * (m - 7))
  {
    ReachableConsistent(labelMax, s);
    TotalWait(Budget(s.row, labelMax));
  }

  // What a commit and a cancellation come to.

  /** A commit that nobody has come before writes the row as the party made it. */
  lemma CommitAlone(loaded: Row, changed: Row)
    ensures Commit(loaded, loaded, changed) == changed
  {
  }

  /** One that changes nothing leaves what others have stored in the meantime. */
  lemma CommitOfNothing(stored: Row, loaded: Row)
    ensures Commit(stored, loaded, loaded) == stored
  {
  }

  /** A hook that is not interrupted makes of the stored row what it makes of a row. */
  lemma UninterruptedHook(labelMax: Option<int>, s: State, i: nat, signalled: bool, now: Time,
                          summary: Option<Summary>, error: string)
    requires i < |s.messages|
    ensures s.messages[i].Queued? ==>
              Run(labelMax, s, [PreLoad(i), PreCommit(i, signalled, now)]).row == PreRow(s.row, signalled, now)
    ensures s.messages[i].Executing? ==>
              Run(labelMax, s, [Succeed(i), PostCommit(i, now, summary)]).row == PostRow(s.row, now, summary)
    ensures s.messages[i].Executing? ==>
              Run(labelMax, s, [Fail(i), ErrorCommit(i, error, now)]).row == ErrorRow(s.row, labelMax, error, now)
  {
    RunTwo(labelMax, s, PreLoad(i), PreCommit(i, signalled, now));
    RunTwo(labelMax, s, Succeed(i), PostCommit(i, now, summary));
    RunTwo(labelMax, s, Fail(i), ErrorCommit(i, error, now));
  }

  /** A hook that loaded a cancelling row stores cancelled; one that loaded cancelled lets what is stored be. */
  lemma HookConfirmsCancel(labelMax: Option<int>, s: State, e: Event)
    requires Enabled(s, e) && (e.PreCommit? || e.PostCommit? || e.ErrorCommit?)
    ensures s.messages[e.i].row.status == CANCELLING ==> Step(labelMax, s, e).row.status == CANCELLED
    ensures s.messages[e.i].row.status == CANCELLED ==> Step(labelMax, s, e).row.status == s.row.status
    ensures s.messages[e.i].row.status == CANCELLING && !e.PreCommit? ==>
              Step(labelMax, s, e).messages == RemoveAt(s.messages, e.i) && Step(labelMax, s, e).alerts == s.alerts
  {
  }

  /** An uninterrupted request: a bulk one cancels a queued row, and otherwise an active row is cancelling. */
  lemma RequestCancels(labelMax: Option<int>, s: State, now: Time)
    requires s.row.status == QUEUED || s.row.status == RUNNING || s.row.status == CANCELLING
    ensures var n := |s.requests|;
            && Run(labelMax, s, [SingleLoad, RequestCommit(n, now)]).row == s.row.(status := CANCELLING)
            && Run(labelMax, s, [BulkLoad, RequestCommit(n, now)]).row ==
                 (if s.row.status == QUEUED
                  then s.row.(status := CANCELLED, finishedAt := Some(now), error := Some("cancelled_by_admin_bulk"))
                  else s.row.(status := CANCELLING, error := Some("cancel_requested_by_admin_bulk")))
  {
    var n := |s.requests|;
    RunTwo(labelMax, s, SingleLoad, RequestCommit(n, now));
    RunTwo(labelMax, s, BulkLoad, RequestCommit(n, now));
  }

  /** The purge after a bulk cancellation takes the message if it is still queued, and only then. */
  lemma PurgeTakesQueued(labelMax: Option<int>, s: State)
    requires Reachable(labelMax, s) && s.purges > 0
    ensures Step(labelMax, s, Purge).messages == if s.messages == [Queued] then [] else s.messages
    ensures Step(labelMax, s, Purge).purges == s.purges - 1 && Step(labelMax, s, Purge).row == s.row
  {
    ReachableConsistent(labelMax, s);
    if |s.messages| == 1 {
      assert s.messages == [s.messages[0]] && s.messages[1..] == [];
      assert NotQueued(s.messages) == if s.messages[0].Queued? then [] else s.messages;
    }
  }

  /** A bulk cancellation of a job whose message is still queued ends it: cancelled, and the message gone. */
  lemma BulkCancelEnds(labelMax: Option<int>, s: State, now: Time)
    requires s.row.status == QUEUED && s.messages == [Queued]
    ensures var s' := Step(labelMax, Run(labelMax, s, [BulkLoad, RequestCommit(|s.requests|, now)]), Purge);
            s'.row.status == CANCELLED && s'.messages == [] && s'.purges == s.purges
  {
    RunTwo(labelMax, s, BulkLoad, RequestCommit(|s.requests|, now));
    assert [Queued][1..] == [];
    assert NotQueued([Queued]) == NotQueued([]);
  }

  // A job that keeps failing.

  /** One attempt that fails, from the queue to the commit of `on_error`. */
  function FailedAttempt(error: string, now: Time): seq<Event> {
    [PreLoad(0), PreCommit(0, false, now), Fail(0), ErrorCommit(0, error, now)]
  }

  lemma RunConcat(labelMax: Option<int>, s: State, a: seq<Event>, b: seq<Event>)
    ensures Run(labelMax, s, a + b) == Run(labelMax, Run(labelMax, s, a), b)
    decreases |a|
  {
    if a == [] {
      assert a + b == b;
    } else {
      assert (a + b)[1..] == a[1..] + b;
      RunConcat(labelMax, Step(labelMax, s, a[0]), a[1..], b);
    }
  }

  /** With attempts left the failed message waits to be queued again; otherwise the job has failed for good. */
  lemma FailOnce(labelMax: Option<int>, s: State, error: string, now: Time)
    requires s.messages == [Queued] && s.row.status == QUEUED
    ensures var s' := Run(labelMax, s, FailedAttempt(error, now));
            && s'.row.maxAttempts == s.row.maxAttempts && s'.row.attempts == s.row.attempts + 1
            && s'.executions == s.executions + 1
            && (s.row.attempts + 1 < EffectiveMax(s.row, labelMax) ==>
                  && s'.messages == [Waiting(Backoff(s.row.attempts + 1))]
                  && s'.row.status == QUEUED && s'.alerts == s.alerts)
            && (s.row.attempts + 1 >= EffectiveMax(s.row, labelMax) ==>
                  s'.messages == [] && s'.row.status == FAILED_TERMINAL && s'.alerts == s.alerts + 1)
  {
    var head, tail := [PreLoad(0), PreCommit(0, false, now)], [Fail(0), ErrorCommit(0, error, now)];
    assert head + tail == FailedAttempt(error, now);
    RunConcat(labelMax, s, head, tail);
    RunTwo(labelMax, s, head[0], head[1]);
    RunTwo(labelMax, Run(labelMax, s, head), tail[0], tail[1]);
  }

  /** Left to fail, a queued job is tried until its budget is spent, no less, and then ends in one alert. */
  lemma {:induction false} TriedOut(labelMax: Option<int>, s: State, error: string, now: Time)
    returns (events: seq<Event>)
    requires Consistent(labelMax, s) && s.messages == [Queued] && s.row.status == QUEUED
    ensures forall e :: e in events ==> e in FailedAttempt(error, now) || e == Rekick(0)
    ensures var s' := Run(labelMax, s, events);
            && s'.row.status == FAILED_TERMINAL && s'.messages == [] && s'.alerts == 1
            && s'.executions == Budget(s.row, labelMax)
    decreases Budget(s.row, labelMax) - s.row.attempts
  {
    events := FailedAttempt(error, now);
    var s1 := Run(labelMax, s, events);
    FailOnce(labelMax, s, error, now);
    if s1.messages != [] {
      RunKeeps(labelMax, s, events);
      StepKeeps(labelMax, s1, Rekick(0));
      var s2 := Step(labelMax, s1, Rekick(0));
      var rest := TriedOut(labelMax, s2, error, now);
      RunConcat(labelMax, s, events, [Rekick(0)] + rest);
      assert ([Rekick(0)] + rest)[1..] == rest;
      events := events + ([Rekick(0)] + rest);
    }
  }

  // When a terminal status is final.

  /** The commit belongs to a load that saw the job still active, and will write its status. */
  predicate Stale(s: State, e: Event) {
    Enabled(s, e) &&
    match e
    case PreCommit(i, signalled, _) => s.messages[i].row.status == QUEUED && !signalled
    case PostCommit(i, _, _) => s.messages[i].row.status == RUNNING
    case ErrorCommit(i, _, _) => s.messages[i].row.status == RUNNING
    case RequestCommit(j, _) =>
      var loaded := s.requests[j].row.status;
      loaded == RUNNING || (loaded == QUEUED && (s.requests[j].Single? || s.row.status != CANCELLED))
    case _ => false
  }

  /** A terminal status is overwritten exactly by a commit whose load came before the status did. */
  lemma TerminalUnlessStale(labelMax: Option<int>, s: State, e: Event)
    requires Reachable(labelMax, s)
    requires s.row.status == DONE || s.row.status == FAILED_TERMINAL || s.row.status == CANCELLED
    ensures Step(labelMax, s, e).row.status != s.row.status <==> Stale(s, e)
  {
    ReachableConsistent(labelMax, s);
    if e.RequestCommit? {
      if Enabled(s, e) { RequestOverwrites(s.row, s.requests[e.j], e.now); }
    } else {
      HookOverwrites(labelMax, s, e);
    }
  }

  lemma RequestOverwrites(stored: Row, request: Request, now: Time)
    requires RequestOk(stored, request) && Terminal(stored.status)
    ensures Commit(stored, request.row, RequestRow(request, now)).status != stored.status <==>
            request.row.status == RUNNING ||
            (request.row.status == QUEUED && (request.Single? || stored.status != CANCELLED))
  {
  }

  lemma HookOverwrites(labelMax: Option<int>, s: State, e: Event)
    requires Consistent(labelMax, s) && Terminal(s.row.status) && !e.RequestCommit?
    ensures Step(labelMax, s, e).row.status != s.row.status <==> Stale(s, e)
  {
  }

  /** No hook ever overwrites done or failed_terminal. */
  lemma HooksKeepFinished(labelMax: Option<int>, s: State, e: Event)
    requires Reachable(labelMax, s) && (s.row.status == DONE || s.row.status == FAILED_TERMINAL)
    requires !e.RequestCommit?
    ensures Step(labelMax, s, e).row == s.row
  {
    ReachableConsistent(labelMax, s);
  }

  predicate LoadThenCommit(load: Event, commit: Event) {
    match load
    case PreLoad(i) => commit.PreCommit? && commit.i == i
    case Succeed(i) => commit.PostCommit? && commit.i == i
    case Fail(i) => commit.ErrorCommit? && commit.i == i
    case _ => false
  }

  lemma RunTwo(labelMax: Option<int>, s: State, first: Event, second: Event)
    ensures Run(labelMax, s, [first, second]) == Step(labelMax, Step(labelMax, s, first), second)
  {
    var s' := Step(labelMax, s, first);
    assert [first, second][1..] == [second];
    assert Run(labelMax, s', [second]) == Run(labelMax, Step(labelMax, s', second), []);
  }

  /** A hook that is not interrupted between its load and its commit keeps every terminal status. */
  lemma UninterruptedHookKeepsTerminal(labelMax: Option<int>, s: State, load: Event, commit: Event)
    requires s.row.status == DONE || s.row.status == FAILED_TERMINAL || s.row.status == CANCELLED
    requires LoadThenCommit(load, commit) && Enabled(s, load)
    requires Reachable(labelMax, s)
    ensures Run(labelMax, s, [load, commit]).row.status == s.row.status
  {
    ReachableConsistent(labelMax, s);
    RunTwo(labelMax, s, load, commit);
  }

  /** And so does an admin request, whatever hooks and other requests are in progress. */
  lemma UninterruptedRequestKeepsTerminal(labelMax: Option<int>, s: State, now: Time)
    requires s.row.status == DONE || s.row.status == FAILED_TERMINAL || s.row.status == CANCELLED
    ensures Run(labelMax, s, [SingleLoad, RequestCommit(|s.requests|, now)]).row.status == s.row.status
    ensures !Enabled(s, BulkLoad)
  {
    var commit := RequestCommit(|s.requests|, now);
    RunTwo(labelMax, s, SingleLoad, commit);
  }

  /** A bulk cancel that lands between the load and the commit of `pre_execute` is lost. */
  lemma CancelledIsLost(labelMax: Option<int>, s: State, now: Time)
    requires Initial(s)
    ensures var loaded := Run(labelMax, s, [PreLoad(0), BulkLoad]);
            var cancelled := Step(labelMax, loaded, RequestCommit(0, now));
            && cancelled.row.status == CANCELLED
            && Step(labelMax, cancelled, PreCommit(0, false, now)).row.status == RUNNING
  {
    RunTwo(labelMax, s, PreLoad(0), BulkLoad);
  }

  /** A cancellation that saw the job active reopens it for good: cancelling, with no message left to notice. */
  lemma FinishedIsReopened(labelMax: Option<int>, s: State, now: Time, summary: Option<Summary>)
    requires Initial(s)
    ensures var started := Run(labelMax, Step(labelMax, s, SingleLoad), [PreLoad(0), PreCommit(0, false, now)]);
            var finished := Run(labelMax, started, [Succeed(0), PostCommit(0, now, summary)]);
            var reopened := Step(labelMax, finished, RequestCommit(0, now));
            && finished.row.status == DONE
            && reopened.row.status == CANCELLING && reopened.messages == []
  {
    var requested := Step(labelMax, s, SingleLoad);
    RunTwo(labelMax, requested, PreLoad(0), PreCommit(0, false, now));
    var started := Run(labelMax, requested, [PreLoad(0), PreCommit(0, false, now)]);
    assert started.row.status == RUNNING && started.messages == [Executing];
    RunTwo(labelMax, started, Succeed(0), PostCommit(0, now, summary));
  }

  // Every job comes to rest.

  predicate MovesMessage(s: State, e: Event) {
    Enabled(s, e) && !e.SingleLoad? && !e.BulkLoad? && !e.RequestCommit? && !e.Purge?
  }

  function StageRank(stage: Stage): nat {
    match stage
    case PreLoaded(_) => 1
    case Queued => 2
    case Waiting(_) => 3
    case PostLoaded(_) => 4
    case ErrorLoaded(_) => 4
    case Executing => 5
  }

  /** Attempts left, and how far the message is from using one. */
  function Measure(labelMax: Option<int>, s: State): int {
    6 * (Budget(s.row, labelMax) - s.executions) + if s.messages == [] then 0 else StageRank(s.messages[0])
  }

  lemma StepShrinks(labelMax: Option<int>, s: State, e: Event)
    requires Consistent(labelMax, s)
    ensures var s' := Step(labelMax, s, e);
            && Measure(labelMax, s') >= 0
            && Measure(labelMax, s') <= Measure(labelMax, s) - (if MovesMessage(s, e) then 1 else 0)
  {
    StepKeeps(labelMax, s, e);
    if Enabled(s, e) && e.Purge? { PurgeKeeps(labelMax, s, e); }
  }

  function Moves(labelMax: Option<int>, s: State, events: seq<Event>): nat
    decreases |events|
  {
    if events == [] then 0
    else (if MovesMessage(s, events[0]) then 1 else 0) + Moves(labelMax, Step(labelMax, s, events[0]), events[1..])
  }

  lemma {:induction false} MovesAreBounded(labelMax: Option<int>, s: State, events: seq<Event>)
    requires Consistent(labelMax, s)
    ensures Moves(labelMax, s, events) <= Measure(labelMax, s)
    decreases |events|
  {
    if events != [] {
      StepKeeps(labelMax, s, events[0]);
      StepShrinks(labelMax, s, events[0]);
      MovesAreBounded(labelMax, Step(labelMax, s, events[0]), events[1..]);
    } else {
      StepShrinks(labelMax, s, Purge);
    }
  }

  /** However often the body fails, a job makes at most this many moves before nothing is outstanding. */
  lemma JobComesToRest(labelMax: Option<int>, s: State, events: seq<Event>)
    requires Initial(s)
    ensures Moves(labelMax, s, events) <= 6 * Budget(s.row, labelMax) + 2
    ensures var s' := Run(labelMax, s, events);
            s'.messages == [] || exists e :: MovesMessage(s', e)
  {
    assert Run(labelMax, s, []) == s;
    ReachableConsistent(labelMax, s);
    MovesAreBounded(labelMax, s, events);
    var s' := Run(labelMax, s, events);
    ReachableConsistent(labelMax, s');
    if s'.messages != [] {
      assert MovesMessage(s', NextMove(s'.messages[0]));
    }
  }

  function NextMove(stage: Stage): Event {
    match stage
    case Queued => PreLoad(0)
    case PreLoaded(_) => PreCommit(0, false, 0)
    case Executing => Fail(0)
    case PostLoaded(_) => PostCommit(0, 0, None)
    case ErrorLoaded(_) => ErrorCommit(0, "", 0)
    case Waiting(_) => Rekick(0)
  }
}
