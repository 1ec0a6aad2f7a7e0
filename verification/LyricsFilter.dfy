/**
 The lyrics filter of the admin track list and the classifier beside it, `app/repositories/admin.py`:
 SQL expressions in three-valued logic, in both dialects, against Python's reading of the same column.
 */
module LyricsFilters {
  import opened Wrappers

  type TrackId = int

  /** A stored JSON document, as far as the filter can tell documents apart. */
  datatype Document = JsonNull | Scalar | Object | Array(length: nat)

  /** `synced_lines`: SQL NULL or a document. */
  type Column = Option<Document>

  /** The value of an SQL expression; `Raises` fails the query. */
  datatype Sql<T> = Null | Val(value: T) | Raises

  datatype Dialect = PostgreSQL | SQLite

  // The operators the filter uses.

  function And(a: Sql<bool>, b: Sql<bool>): Sql<bool> {
    if a.Raises? || b.Raises? then Raises
    else if a == Val(false) || b == Val(false) then Val(false)
    else if a.Null? || b.Null? then Null
    else Val(true)
  }

  function Not(a: Sql<bool>): Sql<bool> {
    match a
    case Val(b) => Val(!b)
    case _ => a
  }

  function IsNotNull(column: Column): Sql<bool> { Val(column.Some?) }

  function GreaterThanZero(n: Sql<int>): Sql<bool> {
    match n
    case Val(k) => Val(k > 0)
    case Null => Null
    case Raises => Raises
  }

  /** CASE WHEN condition THEN value ELSE 0 END: the branch is evaluated only when the condition is true. */
  function CaseElseZero(condition: Sql<bool>, value: () -> Sql<int>): Sql<int> {
    if condition.Raises? then Raises else if condition == Val(true) then value() else Val(0)
  }

  function Coalesce(n: Sql<int>, other: int): Sql<int> {
    if n.Null? then Val(other) else n
  }

  /** `jsonb_typeof(column) = 'array'` */
  function IsArray(column: Column): Sql<bool> {
    match column
    case None => Null
    case Some(document) => Val(document.Array?)
  }

  /** `jsonb_array_length`, which fails on anything but an array. */
  function JsonbArrayLength(column: Column): Sql<int> {
    match column
    case None => Null
    case Some(Array(n)) => Val(n)
    case Some(_) => Raises
  }

  /** SQLite's `json_array_length`, which is 0 for anything but an array. */
  function JsonArrayLength(column: Column): Sql<int> {
    match column
    case None => Null
    case Some(Array(n)) => Val(n)
    case Some(_) => Val(0)
  }

  /** `_synced_lines_present` */
  function SyncedLinesPresent(dialect: Dialect, column: Column): Sql<bool> {
    match dialect
    case PostgreSQL =>
      var isArray := IsArray(column);
      And(And(IsNotNull(column), isArray), GreaterThanZero(CaseElseZero(isArray, () => JsonbArrayLength(column))))
    case SQLite =>
      GreaterThanZero(Coalesce(JsonArrayLength(column), 0))
  }

  const SYNCED := "synced"
  const UNSYNCED := "unsynced"
  const MISSING := "missing"

  /** The columns of a track's lyrics row under the outer join: all NULL when there is no row. */
  function Joined(lyrics: Option<Column>): Column {
    if lyrics.Some? then lyrics.value else None
  }

  /** The lyrics conditions of `_apply_track_list_filters`; no condition is true. */
  function LyricsCondition(dialect: Dialect, catalogMiss: bool, lyrics: Option<Column>,
                           withoutLyrics: bool, catalogMissOnly: bool, status: Option<string>): Sql<bool> {
    var first := if catalogMissOnly then Val(catalogMiss) else if withoutLyrics then Val(lyrics.None?) else Val(true);
    var present := SyncedLinesPresent(dialect, Joined(lyrics));
    var second :=
      if status == Some(SYNCED) then And(Val(lyrics.Some?), present)
      else if status == Some(UNSYNCED) then And(Val(lyrics.Some?), Not(present))
      else if status == Some(MISSING) then Val(lyrics.None?)
      else Val(true);
    And(first, second)
  }

  predicate Selects(dialect: Dialect, status: string, lyrics: Option<Column>) {
    LyricsCondition(dialect, false, lyrics, false, false, Some(status)) == Val(true)
  }

  /** The dialects agree, and neither form is ever NULL or fails the query. */
  lemma DialectsAgree(column: Column)
    ensures SyncedLinesPresent(PostgreSQL, column) == SyncedLinesPresent(SQLite, column)
    ensures SyncedLinesPresent(PostgreSQL, column).Val?
    ensures SyncedLinesPresent(PostgreSQL, column) == Val(true) <==>
            exists n: nat :: n > 0 && column == Some(Array(n))
  {
    if column.Some? && column.value.Array? { assert column == Some(Array(column.value.length)); }
  }

  /** Without the CASE the PostgreSQL form fails on exactly the documents that are no arrays. */
  lemma CaseIsNeeded(column: Column)
    ensures And(And(IsNotNull(column), IsArray(column)), GreaterThanZero(JsonbArrayLength(column))).Raises? <==>
            column.Some? && !column.value.Array?
  {
  }

  /** What the filters select: a non-empty array of lines, a lyrics row with anything else, and no lyrics row. */
  lemma StatusesMean(dialect: Dialect, lyrics: Option<Column>)
    ensures Selects(dialect, "synced", lyrics) <==> exists n: nat :: n > 0 && lyrics == Some(Some(Array(n)))
    ensures Selects(dialect, "unsynced", lyrics) <==>
            lyrics.Some? && !exists n: nat :: n > 0 && lyrics == Some(Some(Array(n)))
    ensures Selects(dialect, "missing", lyrics) <==> lyrics.None?
  {
    DialectsAgree(Joined(lyrics));
    if lyrics.Some? && Joined(lyrics).Some? && Joined(lyrics).value.Array? {
      assert lyrics == Some(Some(Array(Joined(lyrics).value.length)));
    }
  }

  /** The two switches: tracks without a lyrics row, and, before that, tracks the catalogue has missed. */
  lemma SwitchesMean(dialect: Dialect, catalogMiss: bool, lyrics: Option<Column>, without: bool)
    ensures LyricsCondition(dialect, catalogMiss, lyrics, true, false, None) == Val(lyrics.None?)
    ensures LyricsCondition(dialect, catalogMiss, lyrics, without, true, None) == Val(catalogMiss)
    ensures LyricsCondition(dialect, catalogMiss, lyrics, false, false, None) == Val(true)
  {
  }

  /** Each track is selected by exactly one of the three filters, and no condition is ever NULL. */
  lemma OneStatus(dialect: Dialect, lyrics: Option<Column>)
    ensures Selects(dialect, SYNCED, lyrics) || Selects(dialect, UNSYNCED, lyrics) || Selects(dialect, MISSING, lyrics)
    ensures !(Selects(dialect, SYNCED, lyrics) && Selects(dialect, UNSYNCED, lyrics))
    ensures !(Selects(dialect, SYNCED, lyrics) && Selects(dialect, MISSING, lyrics))
    ensures !(Selects(dialect, UNSYNCED, lyrics) && Selects(dialect, MISSING, lyrics))
  {
    DialectsAgree(Joined(lyrics));
  }

  /** Whatever the other switches, the condition is two-valued and the statuses split what it selects without one. */
  lemma StatusesPartition(dialect: Dialect, catalogMiss: bool, lyrics: Option<Column>, without: bool, missOnly: bool)
    ensures forall status :: LyricsCondition(dialect, catalogMiss, lyrics, without, missOnly, status).Val?
    ensures forall status :: status == SYNCED || status == UNSYNCED || status == MISSING ==>
              (LyricsCondition(dialect, catalogMiss, lyrics, without, missOnly, Some(status)) == Val(true) <==>
               LyricsCondition(dialect, catalogMiss, lyrics, without, missOnly, None) == Val(true) &&
               Selects(dialect, status, lyrics))
  {
    DialectsAgree(Joined(lyrics));
  }

  datatype SyncStatus = SyncStatus(hasSyncedTimecodes: bool, name: string)

  /** `track_lyrics_sync_statuses`: one entry for each requested track, naming the filter that selects it. */
  method TrackLyricsSyncStatuses(lyrics: map<TrackId, Column>, trackIds: seq<TrackId>)
    returns (statuses: map<TrackId, SyncStatus>)
    ensures forall t :: t in statuses <==> t in trackIds
    ensures forall t :: t in trackIds ==> StatusFits(lyrics, t, statuses[t])
  {
    statuses := map[];
    for i := 0 to |trackIds|
      invariant forall t :: t in statuses <==> t in trackIds[..i]
      invariant forall t :: t in trackIds[..i] ==> StatusFits(lyrics, t, statuses[t])
    {
      var t := trackIds[i];
      assert trackIds[..i + 1] == trackIds[..i] + [t];
      DialectsAgree(Joined(LyricsOf(lyrics, t)));
      if t !in lyrics {
        statuses := statuses[t := SyncStatus(false, MISSING)];
        continue;
      }
      var synced := lyrics[t];
      var hasSync := synced.Some? && synced.value.Array? && synced.value.length > 0;
      statuses := statuses[t := SyncStatus(hasSync, if hasSync then SYNCED else UNSYNCED)];
    }
    assert trackIds[..|trackIds|] == trackIds;
  }

  function LyricsOf(lyrics: map<TrackId, Column>, t: TrackId): Option<Column> {
    if t in lyrics then Some(lyrics[t]) else None
  }

  /** In either dialect the named filter selects the track, and the flag says it is "synced". */
  ghost predicate StatusFits(lyrics: map<TrackId, Column>, t: TrackId, status: SyncStatus) {
    && (forall dialect :: Selects(dialect, status.name, LyricsOf(lyrics, t)))
    && (status.name == SYNCED || status.name == UNSYNCED || status.name == MISSING)
    && (status.hasSyncedTimecodes <==> status.name == SYNCED)
  }
}
