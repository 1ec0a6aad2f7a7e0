/**
 A track's latest playback failure, `app/repositories/admin.py`: the loop over sorted events and the
 window query that numbers them.
 */
module LatestFailures {
  import opened Wrappers
  import opened Rows

  type TrackId = int

  datatype FailureEvent = FailureEvent(id: int, track: TrackId, createdAt: int, detail: Option<string>)

  /** `id` is the primary key. */
  ghost predicate Keyed(table: set<FailureEvent>) {
    forall e, f :: e in table && f in table && e.id == f.id ==> e == f
  }

  /** ORDER BY created_at DESC, id DESC: `e` comes before `f`. */
  predicate Newer(e: FailureEvent, f: FailureEvent) {
    e.createdAt > f.createdAt || (e.createdAt == f.createdAt && e.id > f.id)
  }

  /** ORDER BY track_id, created_at DESC, id DESC. */
  predicate Before(e: FailureEvent, f: FailureEvent) {
    e.track < f.track || (e.track == f.track && Newer(e, f))
  }

  function NewerOnTrack(table: set<FailureEvent>, e: FailureEvent): set<FailureEvent> {
    set f | f in table && f.track == e.track && Newer(f, e)
  }

  /** `row_number()` over the events of the same track. */
  function RowNumber(table: set<FailureEvent>, e: FailureEvent): nat {
    1 + |NewerOnTrack(table, e)|
  }

  /** What the query returns: the events of the requested tracks, in order. */
  ghost predicate Selected(table: set<FailureEvent>, trackIds: seq<TrackId>, rows: seq<FailureEvent>) {
    && (forall e :: e in rows <==> e in table && e.track in trackIds)
    && (forall i, j :: 0 <= i < j < |rows| ==> Before(rows[i], rows[j]))
  }

  ghost predicate IsLatest(table: set<FailureEvent>, e: FailureEvent) {
    e in table && RowNumber(table, e) == 1
  }

  /** Row number 1 is the event no other is newer than. */
  lemma FirstIsNewest(table: set<FailureEvent>, e: FailureEvent)
    requires Keyed(table) && e in table
    ensures RowNumber(table, e) == 1 <==> forall f :: f in table && f.track == e.track && f != e ==> Newer(e, f)
    ensures RowNumber(table, e) == 1 <==> forall f :: f in table && f.track == e.track ==>
              f.createdAt < e.createdAt || (f.createdAt == e.createdAt && f.id <= e.id)
  {
    if RowNumber(table, e) == 1 {
      assert NewerOnTrack(table, e) == {};
      forall f | f in table && f.track == e.track && f != e ensures Newer(e, f) {
        assert f !in NewerOnTrack(table, e);
      }
    }
    if forall f :: f in table && f.track == e.track && f != e ==> Newer(e, f) {
      forall f | f in table ensures f !in NewerOnTrack(table, e) {}
      assert NewerOnTrack(table, e) == {};
    }
  }

  /** Numbers increase along the order, so the events of a track have different ones. */
  lemma RowNumbersFollowOrder(table: set<FailureEvent>, e: FailureEvent, f: FailureEvent)
    requires e in table && f in table && e.track == f.track && Newer(e, f)
    ensures RowNumber(table, e) < RowNumber(table, f)
  {
    var a, b := NewerOnTrack(table, e), NewerOnTrack(table, f);
    assert a <= b && e in b && e !in a;
    var more := a + {e};
    assert |more| == |a| + 1;
    SubsetSize(more, b);
  }

  /** `latest_track_playback_failure_events`: of each requested track that has events, the one numbered 1. */
  method LatestTrackPlaybackFailureEvents(ghost table: set<FailureEvent>, trackIds: seq<TrackId>,
                                          rows: seq<FailureEvent>)
    returns (latest: map<TrackId, FailureEvent>)
    requires Keyed(table) && Selected(table, trackIds, rows)
    ensures forall t :: t in latest <==> t in trackIds && HasFailed(table, t)
    ensures forall t :: t in latest ==> IsLatest(table, latest[t]) && latest[t].track == t
    ensures forall t, f :: t in latest && f in table && f.track == t ==>
              f.createdAt < latest[t].createdAt || (f.createdAt == latest[t].createdAt && f.id <= latest[t].id)
  {
    latest := map[];
    for i := 0 to |rows|
      invariant forall k :: 0 <= k < i ==> rows[k].track in latest
      invariant forall t :: t in latest ==> FirstOfTrack(rows, i, t, latest[t])
    {
      var event := rows[i];
      if event.track !in latest {
        latest := latest[event.track := event];
      }
    }
    forall t | t in latest
      ensures t in trackIds && HasFailed(table, t) && IsLatest(table, latest[t]) && latest[t].track == t
    {
      FirstIsLatest(table, trackIds, rows, t, latest[t]);
    }
    forall t, f | t in latest && f in table && f.track == t
      ensures f.createdAt < latest[t].createdAt || (f.createdAt == latest[t].createdAt && f.id <= latest[t].id)
    {
      FirstIsNewest(table, latest[t]);
    }
    forall t | t in trackIds && HasFailed(table, t) ensures t in latest {
      var e :| e in table && e.track == t;
      assert e in rows;
    }
  }

  ghost predicate HasFailed(table: set<FailureEvent>, t: TrackId) {
    exists e :: e in table && e.track == t
  }

  /** `e` is the first of the rows that is about track `t`, and it is among the first `n`. */
  ghost predicate FirstOfTrack(rows: seq<FailureEvent>, n: nat, t: TrackId, e: FailureEvent) {
    exists k ::
      0 <= k < n && k < |rows| && rows[k] == e && e.track == t && forall j :: 0 <= j < k ==> rows[j].track != t
  }

  lemma FirstIsLatest(table: set<FailureEvent>, trackIds: seq<TrackId>, rows: seq<FailureEvent>, t: TrackId,
                      e: FailureEvent)
    requires Keyed(table) && Selected(table, trackIds, rows) && FirstOfTrack(rows, |rows|, t, e)
    ensures t in trackIds && HasFailed(table, t) && IsLatest(table, e) && e.track == t
  {
    var k :| 0 <= k < |rows| && rows[k] == e && e.track == t && forall j :: 0 <= j < k ==> rows[j].track != t;
    assert e in rows;
    forall f | f in table && f.track == e.track && f != e ensures Newer(e, f) {
      assert f in rows;
      var j :| 0 <= j < |rows| && rows[j] == f;
      assert k < j;
    }
    FirstIsNewest(table, e);
  }

  /** Row number 1 is unique in its track, so joining on it never repeats a track. */
  lemma LatestIsUnique(table: set<FailureEvent>, e: FailureEvent, f: FailureEvent)
    requires Keyed(table) && IsLatest(table, e) && IsLatest(table, f) && e.track == f.track
    ensures e == f
  {
    FirstIsNewest(table, e);
    FirstIsNewest(table, f);
  }

  /** `_apply_playback_error_filter`: joined to row number 1, whose detail, if not NULL, matches. */
  ghost predicate ErrorFilterSelects(table: set<FailureEvent>, matches: string -> bool, t: TrackId) {
    exists e :: IsLatest(table, e) && e.track == t && e.detail.Some? && matches(e.detail.value)
  }

  /**
   The answer for a track does not depend on which other tracks are asked for, and the filter goes by the
   very event the loop reports.
   */
  lemma LoopAndFilterAgree(table: set<FailureEvent>, matches: string -> bool, t: TrackId,
                           latest: map<TrackId, FailureEvent>, latest': map<TrackId, FailureEvent>)
    requires Keyed(table) && t in latest && t in latest'
    requires IsLatest(table, latest[t]) && latest[t].track == t
    requires IsLatest(table, latest'[t]) && latest'[t].track == t
    ensures latest[t] == latest'[t]
    ensures ErrorFilterSelects(table, matches, t) <==> latest[t].detail.Some? && matches(latest[t].detail.value)
  {
    LatestIsUnique(table, latest[t], latest'[t]);
    if e :| IsLatest(table, e) && e.track == t && e.detail.Some? && matches(e.detail.value) {
      LatestIsUnique(table, latest[t], e);
    }
  }
}
