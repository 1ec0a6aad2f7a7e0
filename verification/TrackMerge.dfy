/**
 The rewrite of `scripts/dedupe_tracks.py`: `_merge_one`, one statement at a time, and the apply
 loop of `_run`.  Many small updates are shown to equal one image of the original tables.
 */
module TrackMerges {
  import opened Wrappers
  import opened Rows
  import opened UnionFinds
  import opened MergePlans

  type RowId = int

  datatype PlainRow = PlainRow(track: Option<Id>, rest: string)
  // `other` holds the columns that, with the track, form the key; a per-track table has none
  datatype KeyedRow = KeyedRow(track: Id, other: seq<int>, rest: string)

  type PlainTable = map<RowId, PlainRow>
  type KeyedTable = map<RowId, KeyedRow>
  type Redirects = map<Id, Id>

  // The image of a table under a redirection of tracks.

  function To(sigma: Redirects, x: Id): Id {
    if x in sigma then sigma[x] else x
  }

  function ToRef(sigma: Redirects, x: Option<Id>): Option<Id> {
    if x.Some? then Some(To(sigma, x.value)) else None
  }

  /** Every row stays, with its track redirected. */
  function PlainImage(t: PlainTable, sigma: Redirects): PlainTable {
    map r | r in t :: t[r].(track := ToRef(sigma, t[r].track))
  }

  predicate SameTarget(sigma: Redirects, a: KeyedRow, b: KeyedRow) {
    To(sigma, a.track) == To(sigma, b.track) && a.other == b.other
  }

  /** Of the rows that land on one key, the one whose track has the smallest id. */
  predicate Wins(t: KeyedTable, sigma: Redirects, r: RowId)
    requires r in t
  {
    forall q | q in t && SameTarget(sigma, t[q], t[r]) :: t[r].track <= t[q].track
  }

  /** The winners stay, with their track redirected. */
  function KeyedImage(t: KeyedTable, sigma: Redirects): KeyedTable {
    map r | r in t && Wins(t, sigma, r) :: t[r].(track := To(sigma, t[r].track))
  }

  predicate SameKey(a: KeyedRow, b: KeyedRow) {
    a.track == b.track && a.other == b.other
  }

  ghost predicate UniqueKeys(t: KeyedTable) {
    forall q, r | q in t && r in t && q != r :: !SameKey(t[q], t[r])
  }

  // The statements.

  function Redirect(t: KeyedTable, canonical: Id, dup: Id): KeyedTable {
    map r | r in t :: if t[r].track == dup then t[r].(track := canonical) else t[r]
  }

  predicate Clashes(t: KeyedTable, canonical: Id, dup: Id, r: RowId)
    requires r in t
  {
    t[r].track == dup && exists q :: q in t && t[q].track == canonical && t[q].other == t[r].other
  }

  function DropClashes(t: KeyedTable, canonical: Id, dup: Id): KeyedTable {
    map r | r in t && !Clashes(t, canonical, dup, r) :: t[r]
  }

  function DropTrack(t: KeyedTable, dup: Id): KeyedTable {
    map r | r in t && t[r].track != dup :: t[r]
  }

  predicate HasRow(t: KeyedTable, track: Id) {
    exists r :: r in t && t[r].track == track
  }

  /** The next redirection: larger than its target and than every id redirected there before. */
  ghost predicate Extends(sigma: Redirects, canonical: Id, dup: Id) {
    && canonical < dup && canonical !in sigma && dup !in sigma
    && forall x :: x in sigma ==> sigma[x] != dup && sigma[x] != x && (sigma[x] == canonical ==> x < dup)
  }

  function RedirectPlain(t: PlainTable, canonical: Id, dup: Id): PlainTable {
    map r | r in t :: if t[r].track == Some(dup) then t[r].(track := Some(canonical)) else t[r]
  }

  /** Among the rows that land on a key there is a winner. */
  lemma {:induction false} WinnerIn(t: KeyedTable, rows: set<RowId>) returns (w: RowId)
    requires rows != {} && forall r :: r in rows ==> r in t
    ensures w in rows && forall r :: r in rows ==> t[w].track <= t[r].track
  {
    var r := Pick(rows);
    var rest := rows - {r};
    assert rows == {r} + rest;
    w := r;
    if rest != {} {
      var v := WinnerIn(t, rest);
      w := if t[v].track < t[r].track then v else r;
    }
  }

  lemma WinnerExists(t: KeyedTable, sigma: Redirects, r: RowId) returns (w: RowId)
    requires r in t
    ensures w in t && SameTarget(sigma, t[w], t[r]) && Wins(t, sigma, w)
  {
    var rows := set q | q in t && SameTarget(sigma, t[q], t[r]);
    assert r in rows;
    w := WinnerIn(t, rows);
  }

  /** Tracks redirected to `canonical` so far, and `canonical` itself, are smaller than the next duplicate. */
  lemma ClassBelow(sigma: Redirects, canonical: Id, dup: Id, x: Id)
    requires Extends(sigma, canonical, dup)
    ensures To(sigma, x) == canonical ==> x < dup
    ensures To(sigma, x) == dup <==> x == dup
    ensures To(sigma[dup := canonical], x) == if x == dup then canonical else To(sigma, x)
  {
  }

  lemma PlainStep(t: PlainTable, sigma: Redirects, canonical: Id, dup: Id)
    requires Extends(sigma, canonical, dup)
    ensures RedirectPlain(PlainImage(t, sigma), canonical, dup) == PlainImage(t, sigma[dup := canonical])
  {
    var stepped, image' := RedirectPlain(PlainImage(t, sigma), canonical, dup), PlainImage(t, sigma[dup := canonical]);
    forall r | r in t ensures stepped[r] == image'[r] {
      if t[r].track.Some? { ClassBelow(sigma, canonical, dup, t[r].track.value); }
    }
  }

  lemma WiderClass(t: KeyedTable, sigma: Redirects, canonical: Id, dup: Id, r: RowId)
    requires Extends(sigma, canonical, dup) && r in t && Wins(t, sigma[dup := canonical], r)
    ensures Wins(t, sigma, r)
    ensures !Clashes(KeyedImage(t, sigma), canonical, dup, r)
  {
    var sigma', image := sigma[dup := canonical], KeyedImage(t, sigma);
    ClassBelow(sigma, canonical, dup, t[r].track);
    forall q | q in t && SameTarget(sigma, t[q], t[r]) ensures t[r].track <= t[q].track {
      ClassBelow(sigma, canonical, dup, t[q].track);
      assert SameTarget(sigma', t[q], t[r]);
    }
    forall q | q in image && image[q].track == canonical && image[q].other == t[r].other
      ensures t[r].track != dup
    {
      ClassBelow(sigma, canonical, dup, t[q].track);
      assert t[r].track == dup ==> SameTarget(sigma', t[q], t[r]);
    }
  }

  lemma WinnerClashes(t: KeyedTable, sigma: Redirects, canonical: Id, dup: Id, q: RowId, r: RowId)
    requires Extends(sigma, canonical, dup) && q in t && r in t && Wins(t, sigma, r)
    requires t[r].track == dup && To(sigma, t[q].track) == canonical && t[q].other == t[r].other
    ensures Clashes(KeyedImage(t, sigma), canonical, dup, r)
  {
    var image := KeyedImage(t, sigma);
    var w := WinnerExists(t, sigma, q);
    ClassBelow(sigma, canonical, dup, dup);
    assert image[w].track == canonical && image[w].other == image[r].other;
  }

  lemma NarrowerClass(t: KeyedTable, sigma: Redirects, canonical: Id, dup: Id, r: RowId)
    requires Extends(sigma, canonical, dup) && r in t && Wins(t, sigma, r)
    requires !Clashes(KeyedImage(t, sigma), canonical, dup, r)
    ensures Wins(t, sigma[dup := canonical], r)
  {
    forall q | q in t && SameTarget(sigma[dup := canonical], t[q], t[r]) ensures t[r].track <= t[q].track {
      ClassBelow(sigma, canonical, dup, t[q].track);
      ClassBelow(sigma, canonical, dup, t[r].track);
      if t[r].track == dup && To(sigma, t[q].track) == canonical { WinnerClashes(t, sigma, canonical, dup, q, r); }
    }
  }

  lemma StaysIffWins(t: KeyedTable, sigma: Redirects, canonical: Id, dup: Id, r: RowId)
    requires Extends(sigma, canonical, dup) && r in t
    ensures Wins(t, sigma[dup := canonical], r) <==>
            Wins(t, sigma, r) && !Clashes(KeyedImage(t, sigma), canonical, dup, r)
  {
    if Wins(t, sigma[dup := canonical], r) {
      WiderClass(t, sigma, canonical, dup, r);
    } else if Wins(t, sigma, r) && !Clashes(KeyedImage(t, sigma), canonical, dup, r) {
      NarrowerClass(t, sigma, canonical, dup, r);
    }
  }

  /** One composite-table merge moves the table from one image to the next. */
  lemma CompositeStep(t: KeyedTable, sigma: Redirects, canonical: Id, dup: Id)
    requires Extends(sigma, canonical, dup)
    ensures Redirect(DropClashes(KeyedImage(t, sigma), canonical, dup), canonical, dup)
            == KeyedImage(t, sigma[dup := canonical])
  {
    var image, image' := KeyedImage(t, sigma), KeyedImage(t, sigma[dup := canonical]);
    var stepped := Redirect(DropClashes(image, canonical, dup), canonical, dup);
    forall r ensures r in stepped <==> r in image' {
      if r in t { RowStays(t, sigma, canonical, dup, r); }
    }
    forall r | r in stepped ensures stepped[r] == image'[r] {
      RowMoves(t, sigma, canonical, dup, r);
    }
    SameTable(stepped, image');
  }

  lemma SameTable<K(!new), V>(t: map<K, V>, t': map<K, V>)
    requires forall r :: r in t <==> r in t'
    requires forall r :: r in t ==> t[r] == t'[r]
    ensures t == t'
  {
  }

  lemma RowStays(t: KeyedTable, sigma: Redirects, canonical: Id, dup: Id, r: RowId)
    requires Extends(sigma, canonical, dup) && r in t
    ensures r in DropClashes(KeyedImage(t, sigma), canonical, dup) <==> r in KeyedImage(t, sigma[dup := canonical])
  {
    StaysIffWins(t, sigma, canonical, dup, r);
  }

  lemma RowMoves(t: KeyedTable, sigma: Redirects, canonical: Id, dup: Id, r: RowId)
    requires Extends(sigma, canonical, dup)
    requires r in DropClashes(KeyedImage(t, sigma), canonical, dup) && r in KeyedImage(t, sigma[dup := canonical])
    ensures Redirect(DropClashes(KeyedImage(t, sigma), canonical, dup), canonical, dup)[r]
            == KeyedImage(t, sigma[dup := canonical])[r]
  {
    ClassBelow(sigma, canonical, dup, t[r].track);
  }

  /** With no other key columns, "the canonical track has a row" is exactly "every row of the duplicate clashes". */
  lemma PerTrackIsComposite(t: KeyedTable, canonical: Id, dup: Id)
    requires forall r :: r in t ==> t[r].other == []
    requires canonical != dup
    ensures (if HasRow(t, canonical) then DropTrack(t, dup) else Redirect(t, canonical, dup))
            == Redirect(DropClashes(t, canonical, dup), canonical, dup)
  {
    if HasRow(t, canonical) {
      var q :| q in t && t[q].track == canonical;
      forall r | r in t ensures Clashes(t, canonical, dup, r) <==> t[r].track == dup {
        if t[r].track == dup { assert t[q].other == t[r].other; }
      }
    } else {
      assert DropClashes(t, canonical, dup) == t;
    }
  }

  /** In an image no two rows share a key. */
  lemma ImageKeepsKeys(t: KeyedTable, sigma: Redirects)
    requires UniqueKeys(t)
    ensures UniqueKeys(KeyedImage(t, sigma))
  {
    var image := KeyedImage(t, sigma);
    forall q, r | q in image && r in image && q != r ensures !SameKey(image[q], image[r]) {
      assert !SameKey(t[q], t[r]);
    }
  }

  lemma NothingRedirected(t: PlainTable)
    ensures PlainImage(t, map[]) == t
  {
    var image := PlainImage(t, map[]);
    forall r | r in t ensures image[r] == t[r] {}
  }

  lemma NothingDropped(t: KeyedTable)
    requires UniqueKeys(t)
    ensures KeyedImage(t, map[]) == t
  {
    forall r | r in t ensures Wins(t, map[], r) {
      forall q | q in t && SameTarget(map[], t[q], t[r]) ensures t[r].track <= t[q].track {}
    }
  }

  // The whole run.

  /** The redirection a plan stands for. */
  ghost predicate FollowsPlan(plan: Plan, sigma: Redirects) {
    forall d, c :: (d in sigma && sigma[d] == c) <==> Moves(plan, d, c)
  }

  /** Nothing is redirected to a redirected track. */
  ghost predicate Idle(sigma: Redirects) {
    forall x :: x in sigma ==> sigma[x] !in sigma
  }

  lemma PlanTargets(plan: Plan, sigma: Redirects, x: Id)
    requires WellFormed(plan) && FollowsPlan(plan, sigma)
    ensures To(sigma, x) == Target(plan, x) && Idle(sigma)
  {
    if x in sigma { assert Moves(plan, x, sigma[x]); }
    forall d | d in sigma ensures sigma[d] !in sigma {
      assert Moves(plan, d, sigma[d]);
      assert !Moves(plan, sigma[d], To(sigma, sigma[d]));
    }
  }

  /** What the plan still has to do: every processed group, and a prefix of the current one, is in `sigma`. */
  ghost predicate Progress(plan: Plan, sigma: Redirects, done: seq<Id>, current: Id, dups: seq<Id>) {
    forall d, c :: (d in sigma && sigma[d] == c) <==> (Moves(plan, d, c) && c in done) || (c == current && d in dups)
  }

  lemma ProgressExtends(plan: Plan, sigma: Redirects, done: seq<Id>, canonical: Id, dups: seq<Id>, j: nat)
    requires WellFormed(plan) && canonical in plan && canonical !in done
    requires Ascending(dups) && j < |dups| && forall d :: d in dups <==> d in plan[canonical]
    requires Progress(plan, sigma, done, canonical, dups[..j])
    ensures Extends(sigma, canonical, dups[j])
    ensures Progress(plan, sigma[dups[j] := canonical], done, canonical, dups[..j + 1])
  {
    var dup := dups[j];
    assert Moves(plan, dup, canonical);
    assert dups[..j + 1] == dups[..j] + [dup];
    forall x | x in sigma ensures Moves(plan, x, sigma[x]) && (sigma[x] == canonical ==> x < dup) {
      if sigma[x] == canonical {
        var i :| 0 <= i < j && dups[..j][i] == x;
        assert dups[i] < dups[j];
      }
    }
    assert Moves(plan, dup, To(sigma, dup)) ==> To(sigma, dup) == canonical;
  }

  class TrackDb {
    var tracks: Tracks
    var plain: seq<PlainTable>
    var composite: seq<KeyedTable>
    var perTrack: seq<KeyedTable>

    constructor (tracks: Tracks, plain: seq<PlainTable>, composite: seq<KeyedTable>, perTrack: seq<KeyedTable>)
      ensures this.tracks == tracks && this.plain == plain && this.composite == composite && this.perTrack == perTrack
    {
      this.tracks, this.plain, this.composite, this.perTrack := tracks, plain, composite, perTrack;
    }

    /** The unique constraints the schema has before the script runs. */
    ghost predicate Valid()
      reads this
    {
      && (forall i :: 0 <= i < |composite| ==> UniqueKeys(composite[i]))
      && (forall i :: 0 <= i < |perTrack| ==> UniqueKeys(perTrack[i]) && NoOtherColumns(perTrack[i]))
    }

    /** All tables are the image of the given ones under `sigma`. */
    ghost predicate Holds(tracks0: Tracks, plain0: seq<PlainTable>, composite0: seq<KeyedTable>,
                          perTrack0: seq<KeyedTable>, sigma: Redirects)
      reads this
    {
      && tracks == tracks0 - sigma.Keys
      && AllPlain(plain, plain0, sigma)
      && AllKeyed(composite, composite0, sigma)
      && AllKeyed(perTrack, perTrack0, sigma)
    }

    /** `_merge_one`. */
    method MergeOne(canonical: Id, dup: Id, ghost tracks0: Tracks, ghost plain0: seq<PlainTable>,
                    ghost composite0: seq<KeyedTable>, ghost perTrack0: seq<KeyedTable>, ghost sigma: Redirects)
      requires Holds(tracks0, plain0, composite0, perTrack0, sigma) && Extends(sigma, canonical, dup)
      requires forall i :: 0 <= i < |perTrack0| ==> NoOtherColumns(perTrack0[i])
      modifies this
      ensures Holds(tracks0, plain0, composite0, perTrack0, sigma[dup := canonical])
    {
      for i := 0 to |plain|
        invariant |plain| == |plain0| && composite == old(composite) && perTrack == old(perTrack)
        invariant tracks == old(tracks)
        invariant AllPlain(plain[..i], plain0[..i], sigma[dup := canonical])
        invariant AllPlain(plain[i..], plain0[i..], sigma)
      {
        var t := plain[i];
        assert t == plain[i..][0] && plain0[i] == plain0[i..][0];
        PlainStep(plain0[i], sigma, canonical, dup);
        t := RedirectPlain(t, canonical, dup);
        ghost var before := plain;
        plain := plain[i := t];
        assert t == PlainImage(plain0[i], sigma[dup := canonical]);
        NextPlain(before, plain, plain0, i, sigma, sigma[dup := canonical]);
      }
      MergeComposites(canonical, dup, composite0, sigma);
      MergePerTracks(canonical, dup, perTrack0, sigma);
      tracks := tracks - {dup};
      assert tracks == tracks0 - (sigma[dup := canonical]).Keys;
      assert plain[..|plain|] == plain && plain0[..|plain|] == plain0;
    }

    /** The composite tables: drop the duplicate's rows whose key the canonical has, redirect the others. */
    method MergeComposites(canonical: Id, dup: Id, ghost composite0: seq<KeyedTable>, ghost sigma: Redirects)
      requires AllKeyed(composite, composite0, sigma) && Extends(sigma, canonical, dup)
      modifies this`composite
      ensures AllKeyed(composite, composite0, sigma[dup := canonical])
    {
      for i := 0 to |composite|
        invariant |composite| == |composite0|
        invariant AllKeyed(composite[..i], composite0[..i], sigma[dup := canonical])
        invariant AllKeyed(composite[i..], composite0[i..], sigma)
      {
        var t := composite[i];
        assert t == composite[i..][0] && composite0[i] == composite0[i..][0];
        CompositeStep(composite0[i], sigma, canonical, dup);
        t := DropClashes(t, canonical, dup);
        t := Redirect(t, canonical, dup);
        ghost var before := composite;
        composite := composite[i := t];
        NextKeyed(before, composite, composite0, i, sigma, sigma[dup := canonical]);
      }
      assert composite[..|composite|] == composite && composite0[..|composite|] == composite0;
    }

    /** The tables with one row per track: keep the canonical's row, or else take the duplicate's. */
    method MergePerTracks(canonical: Id, dup: Id, ghost perTrack0: seq<KeyedTable>, ghost sigma: Redirects)
      requires AllKeyed(perTrack, perTrack0, sigma) && Extends(sigma, canonical, dup)
      requires forall i :: 0 <= i < |perTrack0| ==> NoOtherColumns(perTrack0[i])
      modifies this`perTrack
      ensures AllKeyed(perTrack, perTrack0, sigma[dup := canonical])
    {
      for i := 0 to |perTrack|
        invariant |perTrack| == |perTrack0|
        invariant AllKeyed(perTrack[..i], perTrack0[..i], sigma[dup := canonical])
        invariant AllKeyed(perTrack[i..], perTrack0[i..], sigma)
      {
        var t := perTrack[i];
        assert t == perTrack[i..][0] && perTrack0[i] == perTrack0[i..][0];
        assert NoOtherColumns(perTrack0[i]);
        PerTrackIsComposite(t, canonical, dup);
        CompositeStep(perTrack0[i], sigma, canonical, dup);
        if HasRow(t, canonical) {
          t := DropTrack(t, dup);
        } else {
          t := Redirect(t, canonical, dup);
        }
        ghost var before := perTrack;
        perTrack := perTrack[i := t];
        NextKeyed(before, perTrack, perTrack0, i, sigma, sigma[dup := canonical]);
      }
      assert perTrack[..|perTrack|] == perTrack && perTrack0[..|perTrack|] == perTrack0;
    }

    /** The apply loop: groups in ascending order, and each group's duplicates in ascending order. */
    method ApplyPlan(plan: Plan) returns (ghost sigma: Redirects)
      requires Valid() && WellFormed(plan)
      modifies this
      ensures FollowsPlan(plan, sigma)
      ensures Holds(old(tracks), old(plain), old(composite), old(perTrack), sigma)
    {
      sigma := map[];
      UntouchedHolds(tracks, plain, composite, perTrack);
      var canonicals := Sort(plan.Keys);
      for i := 0 to |canonicals|
        invariant Holds(old(tracks), old(plain), old(composite), old(perTrack), sigma)
        invariant Progress(plan, sigma, canonicals[..i], 0, [])
      {
        var canonical := canonicals[i];
        assert canonical in canonicals;
        var dups := Sort(Elements(plan[canonical]));
        GroupStarts(plan, sigma, canonicals, i, dups);
        for j := 0 to |dups|
          invariant Holds(old(tracks), old(plain), old(composite), old(perTrack), sigma)
          invariant Progress(plan, sigma, canonicals[..i], canonical, dups[..j])
        {
          ProgressExtends(plan, sigma, canonicals[..i], canonical, dups, j);
          MergeOne(canonical, dups[j], old(tracks), old(plain), old(composite), old(perTrack), sigma);
          sigma := sigma[dups[j] := canonical];
        }
        GroupEnds(plan, sigma, canonicals, i, dups);
      }
      assert canonicals[..|canonicals|] == canonicals;
    }

    lemma UntouchedHolds(tracks0: Tracks, plain0: seq<PlainTable>, composite0: seq<KeyedTable>,
                         perTrack0: seq<KeyedTable>)
      requires Valid()
      requires tracks == tracks0 && plain == plain0 && composite == composite0 && perTrack == perTrack0
      ensures Holds(tracks0, plain0, composite0, perTrack0, map[])
    {
      forall i | 0 <= i < |plain| ensures plain[i] == PlainImage(plain0[i], map[]) { NothingRedirected(plain[i]); }
      forall i | 0 <= i < |composite| ensures composite[i] == KeyedImage(composite0[i], map[]) {
        NothingDropped(composite[i]);
      }
      forall i | 0 <= i < |perTrack| ensures perTrack[i] == KeyedImage(perTrack0[i], map[]) {
        NothingDropped(perTrack[i]);
      }
    }

    /** The script: without `--apply` the transaction is rolled back. */
    method Run(apply: bool, scRows: seq<seq<Id>>, extRows: seq<seq<Id>>) returns (plan: Plan, ghost sigma: Redirects)
      requires Valid() && GroupedBy(tracks, ScKey, scRows) && GroupedBy(tracks, ExternalKey, extRows)
      modifies this
      ensures MergesComponents(old(tracks), plan) && FollowsPlan(plan, sigma)
      ensures !apply ==> tracks == old(tracks) && plain == old(plain)
      ensures !apply ==> composite == old(composite) && perTrack == old(perTrack)
      ensures apply ==> Holds(old(tracks), old(plain), old(composite), old(perTrack), sigma)
      ensures apply ==> UniqueScUrl(tracks) && UniqueExternal(tracks)
    {
      plan := BuildMergePlan(tracks, scRows, extRows);
      if plan == map[] {
        sigma := map[];
        UntouchedHolds(tracks, plain, composite, perTrack);
        SurvivorsFitIndexes(tracks, plan, sigma.Keys);
        assert tracks == tracks - sigma.Keys;
        return;
      }
      var tracks0, plain0, composite0, perTrack0 := tracks, plain, composite, perTrack;
      sigma := ApplyPlan(plan);
      PlanDuplicates(plan, sigma);
      SurvivorsFitIndexes(tracks0, plan, sigma.Keys);
      if !apply {
        tracks, plain, composite, perTrack := tracks0, plain0, composite0, perTrack0;
      }
    }
  }

  lemma PlanDuplicates(plan: Plan, sigma: Redirects)
    requires FollowsPlan(plan, sigma)
    ensures forall d :: d in sigma.Keys <==> exists c :: Moves(plan, d, c)
  {
    forall d ensures d in sigma <==> exists c :: Moves(plan, d, c) {
      if d in sigma { assert Moves(plan, d, sigma[d]); }
    }
  }

  lemma GroupStarts(plan: Plan, sigma: Redirects, canonicals: seq<Id>, i: nat, dups: seq<Id>)
    requires i < |canonicals| && Progress(plan, sigma, canonicals[..i], 0, [])
    ensures Progress(plan, sigma, canonicals[..i], canonicals[i], dups[..0])
  {
  }

  lemma GroupEnds(plan: Plan, sigma: Redirects, canonicals: seq<Id>, i: nat, dups: seq<Id>)
    requires i < |canonicals| && canonicals[i] in plan
    requires forall d :: d in dups <==> d in plan[canonicals[i]]
    requires Progress(plan, sigma, canonicals[..i], canonicals[i], dups[..|dups|])
    ensures Progress(plan, sigma, canonicals[..i + 1], 0, [])
  {
    assert dups[..|dups|] == dups;
    assert canonicals[..i + 1] == canonicals[..i] + [canonicals[i]];
  }

  // What the image means for the tables.

  /** No row of any table, and no track, mentions a duplicate any more. */
  lemma NoDuplicateMentioned(plain: PlainTable, keyed: KeyedTable, tracks: Tracks, plan: Plan, sigma: Redirects)
    requires WellFormed(plan) && FollowsPlan(plan, sigma)
    ensures forall d, c :: Moves(plan, d, c) ==> d !in tracks - sigma.Keys
    ensures forall r, d, c :: r in PlainImage(plain, sigma) && Moves(plan, d, c) ==>
              PlainImage(plain, sigma)[r].track != Some(d)
    ensures forall r, d, c :: r in KeyedImage(keyed, sigma) && Moves(plan, d, c) ==>
              KeyedImage(keyed, sigma)[r].track != d
  {
    forall d, c, x | Moves(plan, d, c) ensures To(sigma, x) != d {
      PlanTargets(plan, sigma, x);
      assert d in sigma && sigma[d] == c;
    }
  }

  /** A plain table keeps every row and every other column; only the track moves, to its target. */
  lemma PlainTableMeaning(t: PlainTable, plan: Plan, sigma: Redirects)
    requires WellFormed(plan) && FollowsPlan(plan, sigma)
    ensures PlainImage(t, sigma).Keys == t.Keys && |PlainImage(t, sigma)| == |t|
    ensures forall r | r in t ::
              && PlainImage(t, sigma)[r].rest == t[r].rest
              && (t[r].track.None? ==> PlainImage(t, sigma)[r].track.None?)
              && (t[r].track.Some? ==> PlainImage(t, sigma)[r].track == Some(Target(plan, t[r].track.value)))
  {
    var image := PlainImage(t, sigma);
    assert image.Keys == t.Keys;
    assert |image| == |image.Keys| && |t| == |t.Keys|;
    forall r | r in t && t[r].track.Some? ensures image[r].track == Some(Target(plan, t[r].track.value)) {
      PlanTargets(plan, sigma, t[r].track.value);
    }
  }

  ghost predicate OccupiesKey(t: KeyedTable, track: Id, other: seq<int>) {
    exists r :: r in t && t[r].track == track && t[r].other == other
  }

  /**
   A keyed table holds a key exactly when some original row lands on it, holds it once, and the row
   it keeps is the original one with the smallest track id, the canonical's own if there is one.
   */
  lemma KeyedTableMeaning(t: KeyedTable, plan: Plan, sigma: Redirects)
    requires WellFormed(plan) && FollowsPlan(plan, sigma) && UniqueKeys(t)
    ensures UniqueKeys(KeyedImage(t, sigma))
    ensures forall track, other :: OccupiesKey(KeyedImage(t, sigma), track, other) <==>
              exists r :: r in t && Target(plan, t[r].track) == track && t[r].other == other
    ensures forall r | r in KeyedImage(t, sigma) ::
              && r in t && KeyedImage(t, sigma)[r] == t[r].(track := Target(plan, t[r].track))
              && forall q |
                   q in t && t[q].other == t[r].other && Target(plan, t[q].track) == Target(plan, t[r].track) ::
                   t[r].track <= t[q].track
  {
    var image := KeyedImage(t, sigma);
    ImageKeepsKeys(t, sigma);
    forall r | r in t ensures To(sigma, t[r].track) == Target(plan, t[r].track) {
      PlanTargets(plan, sigma, t[r].track);
    }
    forall r | r in t ensures OccupiesKey(image, Target(plan, t[r].track), t[r].other) {
      var w := WinnerExists(t, sigma, r);
      assert w in image && image[w].track == Target(plan, t[r].track);
    }
    forall r, q | r in image && q in t && Target(plan, t[q].track) == Target(plan, t[r].track) &&
        t[q].other == t[r].other
      ensures t[r].track <= t[q].track
    {
      assert SameTarget(sigma, t[q], t[r]);
    }
  }

  /** The canonical's own row always survives as it was. */
  lemma CanonicalRowStays(t: KeyedTable, plan: Plan, sigma: Redirects, r: RowId)
    requires WellFormed(plan) && FollowsPlan(plan, sigma) && UniqueKeys(t)
    requires r in t && Target(plan, t[r].track) == t[r].track
    ensures r in KeyedImage(t, sigma) && KeyedImage(t, sigma)[r] == t[r]
  {
    PlanTargets(plan, sigma, t[r].track);
    forall q | q in t && SameTarget(sigma, t[q], t[r]) ensures t[r].track <= t[q].track {
      if t[q].track in sigma { assert Moves(plan, t[q].track, sigma[t[q].track]); }
    }
  }

  lemma GroupShares(tracks: Tracks, key: Track -> Option<Key>, row: seq<Id>)
    requires IsGroup(tracks, key, row)
    ensures exists a, b ::
              a in tracks && b in tracks && a != b && key(tracks[a]).Some? && key(tracks[a]) == key(tracks[b])
  {
    assert row[0] in row && row[1] in row;
  }

  /** Running the script again finds no group of duplicates. */
  lemma SecondRunIsIdle(tracks: Tracks, scRows: seq<seq<Id>>, extRows: seq<seq<Id>>)
    requires UniqueScUrl(tracks) && UniqueExternal(tracks)
    requires GroupedBy(tracks, ScKey, scRows) && GroupedBy(tracks, ExternalKey, extRows)
    ensures scRows == [] && extRows == []
  {
    if scRows != [] {
      GroupShares(tracks, ScKey, scRows[0]);
    } else if extRows != [] {
      GroupShares(tracks, ExternalKey, extRows[0]);
    }
  }

  ghost predicate NoOtherColumns(t: KeyedTable) {
    forall r :: r in t ==> t[r].other == []
  }

  ghost predicate AllPlain(ts: seq<PlainTable>, ts0: seq<PlainTable>, sigma: Redirects) {
    |ts| == |ts0| && forall i :: 0 <= i < |ts| ==> ts[i] == PlainImage(ts0[i], sigma)
  }

  ghost predicate AllKeyed(ts: seq<KeyedTable>, ts0: seq<KeyedTable>, sigma: Redirects) {
    |ts| == |ts0| && forall i :: 0 <= i < |ts| ==> ts[i] == KeyedImage(ts0[i], sigma)
  }

  lemma NextPlain(ts: seq<PlainTable>, ts': seq<PlainTable>, ts0: seq<PlainTable>, i: nat, sigma: Redirects,
                  sigma': Redirects)
    requires i < |ts| == |ts0| == |ts'| && ts' == ts[i := ts'[i]] && ts'[i] == PlainImage(ts0[i], sigma')
    requires AllPlain(ts[..i], ts0[..i], sigma') && AllPlain(ts[i..], ts0[i..], sigma)
    ensures AllPlain(ts'[..i + 1], ts0[..i + 1], sigma') && AllPlain(ts'[i + 1..], ts0[i + 1..], sigma)
  {
    var head, tail := ts'[..i + 1], ts'[i + 1..];
    forall k | 0 <= k < |head| ensures head[k] == PlainImage(ts0[..i + 1][k], sigma') {
      if k < i { assert ts[..i][k] == PlainImage(ts0[..i][k], sigma'); }
    }
    forall k | 0 <= k < |tail| ensures tail[k] == PlainImage(ts0[i + 1..][k], sigma) {
      assert ts[i..][k + 1] == PlainImage(ts0[i..][k + 1], sigma);
    }
  }

  lemma NextKeyed(ts: seq<KeyedTable>, ts': seq<KeyedTable>, ts0: seq<KeyedTable>, i: nat, sigma: Redirects,
                  sigma': Redirects)
    requires i < |ts| == |ts0| == |ts'| && ts' == ts[i := ts'[i]] && ts'[i] == KeyedImage(ts0[i], sigma')
    requires AllKeyed(ts[..i], ts0[..i], sigma') && AllKeyed(ts[i..], ts0[i..], sigma)
    ensures AllKeyed(ts'[..i + 1], ts0[..i + 1], sigma') && AllKeyed(ts'[i + 1..], ts0[i + 1..], sigma)
  {
    var head, tail := ts'[..i + 1], ts'[i + 1..];
    forall k | 0 <= k < |head| ensures head[k] == KeyedImage(ts0[..i + 1][k], sigma') {
      if k < i { assert ts[..i][k] == KeyedImage(ts0[..i][k], sigma'); }
    }
    forall k | 0 <= k < |tail| ensures tail[k] == KeyedImage(ts0[i + 1..][k], sigma) {
      assert ts[i..][k + 1] == KeyedImage(ts0[i..][k + 1], sigma);
    }
  }
}
