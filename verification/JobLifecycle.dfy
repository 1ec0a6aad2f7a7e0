/**
 Background jobs, `app/core/taskiq_middleware.py`: the row a job is accounted in, what each
 lifecycle hook writes to it, and the hooks themselves as they assign the row's fields.
 */
module JobLifecycle {
  import opened Wrappers

  datatype Status = QUEUED | RUNNING | CANCELLING | CANCELLED | DONE | FAILED_TERMINAL

  type Time = int  // microseconds
  type Summary = string  // the JSON stored in result_summary

  /** The columns of `background_jobs` the hooks touch. */
  datatype Row = Row(status: Status, attempts: int, maxAttempts: int, startedAt: Option<Time>,
                     finishedAt: Option<Time>, durationMs: Option<int>, error: Option<string>, summary: Option<Summary>)

  const DEFAULT_MAX_ATTEMPTS := 3
  const MAX_BACKOFF := 60

  predicate Cancelled(status: Status) { status == CANCELLED || status == CANCELLING }

  predicate Terminal(status: Status) { status == DONE || status == FAILED_TERMINAL || status == CANCELLED }

  /** Python's `error or text`. */
  function OrElse(error: Option<string>, text: string): Option<string> {
    if error.Some? && error.value != "" then error else Some(text)
  }

  /** `row.max_attempts or max_attempts`, the second being the message's label. */
  function EffectiveMax(row: Row, labelMax: Option<int>): int {
    if row.maxAttempts != 0 then row.maxAttempts else if labelMax.Some? then labelMax.value else DEFAULT_MAX_ATTEMPTS
  }

  function Max(a: int, b: int): int { if a < b then b else a }

  function Pow2(n: nat): (p: nat)
    ensures p >= 1
  {
    if n == 0 then 1 else 2 * Pow2(n - 1)
  }

  function Backoff(attempts: int): nat {
    var delay := Pow2(Max(0, attempts - 1));
    if delay < MAX_BACKOFF then delay else MAX_BACKOFF
  }

  /** `int((now - started).total_seconds() * 1000)`, which truncates towards zero. */
  function Milliseconds(elapsed: int): int {
    if elapsed >= 0 then elapsed / 1000 else -(-elapsed / 1000)
  }

  function Duration(row: Row, now: Time): Option<int> {
    if row.startedAt.Some? then Some(Milliseconds(now - row.startedAt.value)) else row.durationMs
  }

  // What the hooks make of the row they loaded.

  function CancelledRow(row: Row, now: Time, reason: string): Row {
    row.(status := CANCELLED, finishedAt := Some(now), error := OrElse(row.error, reason))
  }

  function PreRow(row: Row, signalled: bool, now: Time): Row {
    if Cancelled(row.status) || signalled then CancelledRow(row, now, "cancelled_before_start")
    else row.(status := RUNNING, startedAt := Some(now), attempts := row.attempts + 1)
  }

  function PostRow(row: Row, now: Time, summary: Option<Summary>): Row {
    if Cancelled(row.status) then CancelledRow(row, now, "cancelled_by_admin")
    else row.(status := DONE, finishedAt := Some(now), durationMs := Duration(row, now), error := None,
              summary := summary)
  }

  function ErrorRow(row: Row, labelMax: Option<int>, error: string, now: Time): Row {
    if Cancelled(row.status) then CancelledRow(row, now, "cancelled_by_admin")
    else if row.attempts < EffectiveMax(row, labelMax) then row.(status := QUEUED, error := Some(error))
    else row.(status := FAILED_TERMINAL, finishedAt := Some(now), durationMs := Duration(row, now),
              error := Some(error))
  }

  datatype Reaction = Nothing | Retry(delay: nat) | Alert

  /** What `on_error` does after its commit. */
  function ErrorReaction(row: Row, labelMax: Option<int>): Reaction {
    if Cancelled(row.status) then Nothing
    else if row.attempts < EffectiveMax(row, labelMax) then Retry(Backoff(row.attempts))
    else Alert
  }

  /** The row says cancelled, when, and why, keeping a reason it already had; nothing else has changed. */
  ghost predicate GivenUp(was: Row, row: Row, now: Time, reason: string) {
    && row.status == CANCELLED && row.finishedAt == Some(now)
    && row.error == (if was.error.Some? && was.error.value != "" then was.error else Some(reason))
    && row.attempts == was.attempts && row.maxAttempts == was.maxAttempts && row.startedAt == was.startedAt
    && row.durationMs == was.durationMs && row.summary == was.summary
  }

  /** The row has ended now; a row that was started has its time in whole milliseconds, rounded towards zero. */
  ghost predicate Finished(was: Row, row: Row, status: Status, now: Time) {
    && row.status == status && row.finishedAt == Some(now)
    && row.attempts == was.attempts && row.maxAttempts == was.maxAttempts && row.startedAt == was.startedAt
    && (was.startedAt.None? ==> row.durationMs == was.durationMs)
    && (was.startedAt.Some? ==> row.durationMs.Some? && Truncated(now - was.startedAt.value, row.durationMs.value))
  }

  ghost predicate Truncated(micros: int, millis: int) {
    && (micros >= 0 ==> 0 <= 1000 * millis <= micros < 1000 * millis + 1000)
    && (micros <= 0 ==> 1000 * millis - 1000 < micros <= 1000 * millis <= 0)
  }

  lemma MillisecondsTruncate(elapsed: int)
    ensures Truncated(elapsed, Milliseconds(elapsed))
  {
  }

  /** The ORM object of one session. */
  class BackgroundJob {
    var status: Status
    var attempts: int
    var maxAttempts: int
    var startedAt: Option<Time>
    var finishedAt: Option<Time>
    var durationMs: Option<int>
    var error: Option<string>
    var resultSummary: Option<Summary>

    ghost function View(): Row
      reads this
    {
      Row(status, attempts, maxAttempts, startedAt, finishedAt, durationMs, error, resultSummary)
    }

    constructor (row: Row)
      ensures View() == row
    {
      status, attempts, maxAttempts := row.status, row.attempts, row.maxAttempts;
      startedAt, finishedAt, durationMs := row.startedAt, row.finishedAt, row.durationMs;
      error, resultSummary := row.error, row.summary;
    }
  }

  /** The message goes on to the task body in every case, a cancelled row included. */
  method PreExecute(row: BackgroundJob?, signalled: bool, now: Time)
    modifies row
    ensures row != null ==> row.View() == PreRow(old(row.View()), signalled, now)
    ensures row != null && old(row.status) != CANCELLED && old(row.status) != CANCELLING && !signalled ==>
              row.View() ==
              old(row.View()).(status := RUNNING, startedAt := Some(now), attempts := old(row.attempts) + 1)
    ensures row != null && (old(row.status) == CANCELLED || old(row.status) == CANCELLING || signalled) ==>
              GivenUp(old(row.View()), row.View(), now, "cancelled_before_start")
  {
    if row == null { return; }
    if Cancelled(row.status) || signalled {
      row.status := CANCELLED;
      row.finishedAt := Some(now);
      row.error := OrElse(row.error, "cancelled_before_start");
      return;
    }
    row.status := RUNNING;
    row.startedAt := Some(now);
    row.attempts := row.attempts + 1;
  }

  method PostExecute(row: BackgroundJob?, isErr: bool, now: Time, summary: Option<Summary>)
    modifies row
    ensures row != null ==> row.View() == if isErr then old(row.View()) else PostRow(old(row.View()), now, summary)
    ensures row != null && !isErr && (old(row.status) == CANCELLED || old(row.status) == CANCELLING) ==>
              GivenUp(old(row.View()), row.View(), now, "cancelled_by_admin")
    ensures row != null && !isErr && old(row.status) != CANCELLED && old(row.status) != CANCELLING ==>
              && Finished(old(row.View()), row.View(), DONE, now)
              && row.error == None && row.resultSummary == summary
  {
    if row == null || isErr { return; }
    if Cancelled(row.status) {
      row.status := CANCELLED;
      row.finishedAt := Some(now);
      row.error := OrElse(row.error, "cancelled_by_admin");
      return;
    }
    row.status := DONE;
    row.finishedAt := Some(now);
    if row.startedAt.Some? {
      MillisecondsTruncate(now - row.startedAt.value);
      row.durationMs := Some(Milliseconds(now - row.startedAt.value));
    }
    row.error := None;
    row.resultSummary := summary;
  }

  method OnError(row: BackgroundJob?, labelMax: Option<int>, errorText: string, now: Time) returns (reaction: Reaction)
    modifies row
    ensures row == null ==> reaction == Nothing
    ensures row != null ==> row.View() == ErrorRow(old(row.View()), labelMax, errorText, now)
    ensures row != null ==> reaction == ErrorReaction(old(row.View()), labelMax)
    ensures row != null && (old(row.status) == CANCELLED || old(row.status) == CANCELLING) ==>
              reaction == Nothing && GivenUp(old(row.View()), row.View(), now, "cancelled_by_admin")
    ensures row != null && old(row.status) != CANCELLED && old(row.status) != CANCELLING ==>
              var was, most := old(row.View()), if old(row.maxAttempts) != 0 then old(row.maxAttempts)
                                                else if labelMax.Some? then labelMax.value else 3;
              && (was.attempts < most ==> reaction.Retry?)
              && (was.attempts < most ==> row.View() == was.(status := QUEUED, error := Some(errorText)))
              && (was.attempts >= most ==> reaction == Alert && Finished(was, row.View(), FAILED_TERMINAL, now))
              && (was.attempts >= most ==> row.error == Some(errorText) && row.resultSummary == was.summary)
  {
    if row == null { return Nothing; }
    if Cancelled(row.status) {
      row.status := CANCELLED;
      row.finishedAt := Some(now);
      row.error := OrElse(row.error, "cancelled_by_admin");
      return Nothing;
    }
    var attempts := row.attempts;
    var maxAttempts := if labelMax.Some? then labelMax.value else DEFAULT_MAX_ATTEMPTS;
    var effectiveMax := if row.maxAttempts != 0 then row.maxAttempts else maxAttempts;
    var retried := false;
    if attempts < effectiveMax {
      row.status := QUEUED;
      row.error := Some(errorText);
      reaction := Retry(Backoff(attempts));
      retried := true;
    } else {
      row.status := FAILED_TERMINAL;
      row.finishedAt := Some(now);
      if row.startedAt.Some? {
        MillisecondsTruncate(now - row.startedAt.value);
        row.durationMs := Some(Milliseconds(now - row.startedAt.value));
      }
      row.error := Some(errorText);
    }
    if !retried {
      reaction := Alert;
    }
  }

  // How long a job waits.

  function Waits(n: nat): seq<nat> {
    seq(n, k requires 0 <= k < n => Backoff(k + 1))
  }

  function Sum(q: seq<nat>): nat {
    if q == [] then 0 else Sum(q[..|q| - 1]) + q[|q| - 1]
  }

  lemma {:induction false} Pow2Grows(m: nat, n: nat)
    requires m <= n
    ensures Pow2(m) <= Pow2(n)
  {
    if m < n { Pow2Grows(m, n - 1); }
  }

  /** Each wait is between a second and a minute, and no shorter than the one before. */
  lemma BackoffGrows(attempts: int, more: int)
    requires attempts <= more
    ensures 1 <= Backoff(attempts) <= Backoff(more) <= MAX_BACKOFF
  {
    Pow2Grows(Max(0, attempts - 1), Max(0, more - 1));
  }

  lemma WaitsSnoc(n: nat)
    ensures Waits(n + 1) == Waits(n) + [Backoff(n + 1)]
    ensures Sum(Waits(n + 1)) == Sum(Waits(n)) + Backoff(n + 1)
  {
    assert Waits(n + 1)[..n] == Waits(n);
  }

  lemma PowersOfTwo()
    ensures Pow2(5) == 32 && Pow2(6) == 64
  {
    assert Pow2(3) == 8;
  }

  /** Doubling stops at the seventh attempt. */
  lemma BackoffCapped(attempts: nat)
    requires attempts >= 1
    ensures Backoff(attempts) == if attempts <= 6 then Pow2(attempts - 1) else MAX_BACKOFF
  {
    PowersOfTwo();
    if attempts <= 6 { Pow2Grows(attempts - 1, 5); } else { Pow2Grows(6, attempts - 1); }
  }

  /** A job that uses m attempts waits 2^(m-1) - 1 seconds up to seven attempts, then a minute more for each. */
  lemma {:induction false} TotalWait(m: nat)
    requires m >= 1
    ensures m <= 7 ==> Sum(Waits(m - 1)) == Pow2(m - 1) - 1
    ensures m >= 7 ==> Sum(Waits(m - 1)) == 63 + 60 * (m - 7)
  {
    if m > 1 {
      TotalWait(m - 1);
      WaitsSnoc(m - 2);
      BackoffCapped(m - 1);
      PowersOfTwo();
    }
  }
}
