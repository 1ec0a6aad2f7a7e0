/** Which tracks `scripts/dedupe_tracks.py` merges into which: `_build_merge_plan`. */
module MergePlans {
  import opened Wrappers
  import opened Rows
  import opened UnionFinds

  datatype Track = Track(scUrl: Option<string>, importedFrom: Option<string>, externalId: Option<string>)

  type Tracks = map<Id, Track>
  type Plan = map<Id, seq<Id>>

  datatype Key = ScUrl(url: string) | External(importedFrom: string, externalId: string)

  function ScKey(t: Track): Option<Key> {
    if t.scUrl.Some? then Some(ScUrl(t.scUrl.value)) else None
  }

  function ExternalKey(t: Track): Option<Key> {
    if t.externalId.Some? && t.importedFrom.Some?
    then Some(External(t.importedFrom.value, t.externalId.value)) else None
  }

  predicate SharesKey(a: Track, b: Track) {
    (ScKey(a).Some? && ScKey(a) == ScKey(b)) || (ExternalKey(a).Some? && ExternalKey(a) == ExternalKey(b))
  }

  /** Duplicates: the same sc_url, or the same external id from the same place; NULLs are never the same. */
  lemma SharesKeyMeans(a: Track, b: Track)
    ensures SharesKey(a, b) <==>
            || (a.scUrl.Some? && a.scUrl == b.scUrl)
            || (a.externalId.Some? && a.externalId == b.externalId &&
                a.importedFrom.Some? && a.importedFrom == b.importedFrom)
  {
  }

  function DuplicateEdges(tracks: Tracks): Edges {
    set a, b | a in tracks && b in tracks && SharesKey(tracks[a], tracks[b]) :: (a, b)
  }

  // What the two grouping queries return: GROUP BY key HAVING COUNT(*) > 1, ids ascending.

  ghost predicate IsGroup(tracks: Tracks, key: Track -> Option<Key>, row: seq<Id>) {
    && |row| >= 2 && Ascending(row)
    && (forall i :: 0 <= i < |row| ==> row[i] in tracks)
    && key(tracks[row[0]]).Some?
    && forall x :: x in tracks && key(tracks[x]) == key(tracks[row[0]]) <==> x in row
  }

  ghost predicate GroupedBy(tracks: Tracks, key: Track -> Option<Key>, rows: seq<seq<Id>>) {
    && (forall i :: 0 <= i < |rows| ==> IsGroup(tracks, key, rows[i]))
    && (forall a, b | a in tracks && b in tracks && a != b ::
          key(tracks[a]).Some? && key(tracks[a]) == key(tracks[b]) ==> InOneRow(rows, a, b))
  }

  ghost predicate InOneRow(rows: seq<seq<Id>>, a: Id, b: Id) {
    exists i :: 0 <= i < |rows| && a in rows[i] && b in rows[i]
  }

  // What a plan says.

  ghost predicate Moves(plan: Plan, dup: Id, canonical: Id) {
    canonical in plan && dup in plan[canonical]
  }

  /** Where a track ends up. */
  ghost function Target(plan: Plan, x: Id): Id {
    if exists c :: Moves(plan, x, c) then
      var c :| Moves(plan, x, c); c
    else x
  }

  /** Groups are disjoint lists of larger ids, and no canonical track is itself a duplicate. */
  ghost predicate WellFormed(plan: Plan) {
    && (forall c :: c in plan ==> plan[c] != [] && Distinct(plan[c]))
    && (forall d, c :: Moves(plan, d, c) ==> c < d)
    && (forall d, c, e :: Moves(plan, d, c) && Moves(plan, d, e) ==> c == e)
    && (forall d, c, e :: Moves(plan, d, c) ==> !Moves(plan, c, e))
  }

  /** The plan sends every track to the smallest track of its connected component, and to no other. */
  ghost predicate MergesComponents(tracks: Tracks, plan: Plan) {
    var e := DuplicateEdges(tracks);
    && WellFormed(plan)
    && (forall x, y | x in tracks && y in tracks :: Related(e, x, y) <==> Target(plan, x) == Target(plan, y))
    && (forall x | x in tracks ::
          Target(plan, x) in tracks && forall y | y in tracks && Related(e, x, y) :: Target(plan, x) <= y)
    && (forall d, c :: Moves(plan, d, c) ==> d in tracks && c in tracks)
  }

  // The unions are enough, and no more than the keys justify.

  ghost predicate Joined(e: Edges, row: seq<Id>) {
    forall j :: 1 <= j < |row| ==> (row[0], row[j]) in e
  }

  lemma JoinedRelates(e: Edges, row: seq<Id>, a: Id, b: Id)
    requires row != [] && Joined(e, row) && a in row && b in row
    ensures Related(e, a, b)
  {
    assert Linked(e, row[0], a) && Linked(e, a, row[0]) && Linked(e, row[0], b);
    RelatedOne(e, a, row[0]);
    RelatedOne(e, row[0], b);
    RelatedTrans(e, a, row[0], b);
  }

  lemma EdgesRelate(tracks: Tracks, scRows: seq<seq<Id>>, extRows: seq<seq<Id>>, e: Edges, a: Id, b: Id)
    requires GroupedBy(tracks, ScKey, scRows) && GroupedBy(tracks, ExternalKey, extRows)
    requires forall i :: 0 <= i < |scRows| ==> Joined(e, scRows[i])
    requires forall i :: 0 <= i < |extRows| ==> Joined(e, extRows[i])
    requires (a, b) in DuplicateEdges(tracks) && a != b
    ensures Related(e, a, b)
  {
    if ScKey(tracks[a]).Some? && ScKey(tracks[a]) == ScKey(tracks[b]) {
      assert InOneRow(scRows, a, b);
      var i :| 0 <= i < |scRows| && a in scRows[i] && b in scRows[i];
      JoinedRelates(e, scRows[i], a, b);
    } else {
      assert InOneRow(extRows, a, b);
      var i :| 0 <= i < |extRows| && a in extRows[i] && b in extRows[i];
      JoinedRelates(e, extRows[i], a, b);
    }
  }

  /** The tag of every track: what `find` says, or itself when it never met a key it shares. */
  function Tags(tracks: Tracks, roots: map<Id, Id>): map<Id, Id> {
    map x | x in tracks :: if x in roots then roots[x] else x
  }

  lemma TagsAgree(tracks: Tracks, scRows: seq<seq<Id>>, extRows: seq<seq<Id>>,
                  p: Parents, roots: map<Id, Id>, e: Edges)
    requires Rooted(p, roots) && Classifies(roots, e)
    requires GroupedBy(tracks, ScKey, scRows) && GroupedBy(tracks, ExternalKey, extRows)
    requires forall i :: 0 <= i < |scRows| ==> Joined(e, scRows[i])
    requires forall i :: 0 <= i < |extRows| ==> Joined(e, extRows[i])
    ensures Agrees(Tags(tracks, roots), DuplicateEdges(tracks))
  {
    var tags := Tags(tracks, roots);
    forall a, b | (a, b) in DuplicateEdges(tracks) ensures a in tags && b in tags && tags[a] == tags[b] {
      if a != b {
        EdgesRelate(tracks, scRows, extRows, e, a, b);
        KnownIfRelated(roots, e, a, b);
        RootsDecideRelated(p, roots, e, a, b);
      }
    }
  }

  lemma KnownIfRelated(roots: map<Id, Id>, e: Edges, a: Id, b: Id)
    requires Classifies(roots, e) && Related(e, a, b) && a != b
    ensures a in roots && b in roots
  {
    var path :| IsPath(e, path, a, b);
    KnownOnPath(roots, e, path, a, b);
  }

  lemma {:induction false} KnownOnPath(roots: map<Id, Id>, e: Edges, path: seq<Id>, a: Id, b: Id)
    requires Agrees(roots, e) && IsPath(e, path, a, b) && a != b
    ensures a in roots && b in roots
    decreases |path|
  {
    assert Linked(e, path[0], path[1]);
    var rest := path[1..];
    forall i | 0 <= i < |rest| - 1 ensures Linked(e, rest[i], rest[i + 1]) {
      assert Linked(e, path[i + 1], path[i + 1 + 1]);
    }
    assert IsPath(e, rest, path[1], b);
    if path[1] == a {
      KnownOnPath(roots, e, rest, a, b);
    } else if path[1] != b {
      KnownOnPath(roots, e, rest, path[1], b);
    }
  }

  lemma TagsDecide(tracks: Tracks, p: Parents, roots: map<Id, Id>, e: Edges, x: Id, y: Id)
    requires Rooted(p, roots) && Classifies(roots, e) && Agrees(Tags(tracks, roots), DuplicateEdges(tracks))
    requires forall a, b | (a, b) in e :: (a, b) in DuplicateEdges(tracks)
    requires x in tracks && y in tracks
    ensures Related(DuplicateEdges(tracks), x, y) <==> Tags(tracks, roots)[x] == Tags(tracks, roots)[y]
  {
    var all, tags := DuplicateEdges(tracks), Tags(tracks, roots);
    if Related(all, x, y) {
      var path :| IsPath(all, path, x, y);
      SameTag(all, tags, path, x, y);
    }
    TagRelated(tracks, p, roots, e, x);
    TagRelated(tracks, p, roots, e, y);
    if tags[x] == tags[y] {
      RelatedSym(all, y, tags[y]);
      RelatedTrans(all, x, tags[x], y);
    }
  }

  lemma TagRelated(tracks: Tracks, p: Parents, roots: map<Id, Id>, e: Edges, x: Id)
    requires Rooted(p, roots) && Classifies(roots, e) && x in tracks
    requires forall a, b | (a, b) in e :: (a, b) in DuplicateEdges(tracks)
    ensures Related(DuplicateEdges(tracks), x, Tags(tracks, roots)[x])
    ensures Tags(tracks, roots)[x] <= x
  {
    if x in roots {
      assert Justified(roots, e, x) && NodeOk(p, roots, x);
      RelatedMono(e, DuplicateEdges(tracks), x, roots[x]);
    } else {
      RelatedOne(DuplicateEdges(tracks), x, x);
    }
  }

  /** The plan lists exactly the known ids whose root is another id, under that root. */
  ghost predicate ListsRoots(plan: Plan, roots: map<Id, Id>, seen: set<Id>) {
    && (forall c :: c in plan ==> plan[c] != [] && Distinct(plan[c]))
    && (forall d, c :: Moves(plan, d, c) <==> d in seen && d in roots && roots[d] == c && d != c)
  }

  lemma TargetIsTag(tracks: Tracks, plan: Plan, roots: map<Id, Id>, x: Id)
    requires ListsRoots(plan, roots, roots.Keys) && x in tracks
    ensures Target(plan, x) == Tags(tracks, roots)[x]
  {
    if x in roots && roots[x] != x { assert Moves(plan, x, roots[x]); }
  }

  lemma PlanWellFormed(plan: Plan, p: Parents, roots: map<Id, Id>)
    requires Rooted(p, roots) && ListsRoots(plan, roots, roots.Keys)
    ensures WellFormed(plan)
  {
    forall d, c | Moves(plan, d, c) ensures c < d && forall e :: !Moves(plan, c, e) {
      assert NodeOk(p, roots, d);
    }
  }

  lemma PlanMergesComponents(tracks: Tracks, scRows: seq<seq<Id>>, extRows: seq<seq<Id>>,
                             plan: Plan, p: Parents, roots: map<Id, Id>, e: Edges)
    requires Rooted(p, roots) && Classifies(roots, e) && ListsRoots(plan, roots, roots.Keys)
    requires GroupedBy(tracks, ScKey, scRows) && GroupedBy(tracks, ExternalKey, extRows)
    requires AllJoined(e, scRows) && AllJoined(e, extRows) && Sound(tracks, p, e)
    ensures MergesComponents(tracks, plan)
  {
    var all, tags := DuplicateEdges(tracks), Tags(tracks, roots);
    PlanWellFormed(plan, p, roots);
    TagsAgree(tracks, scRows, extRows, p, roots, e);
    forall x, y | x in tracks && y in tracks
      ensures Related(all, x, y) <==> Target(plan, x) == Target(plan, y)
      ensures Related(all, x, y) ==> Target(plan, x) <= y
    {
      TagsDecide(tracks, p, roots, e, x, y);
      TargetIsTag(tracks, plan, roots, x);
      TargetIsTag(tracks, plan, roots, y);
      TagRelated(tracks, p, roots, e, y);
    }
    forall x | x in tracks ensures Target(plan, x) in tracks {
      TargetIsTag(tracks, plan, roots, x);
      if x in roots { assert NodeOk(p, roots, x); }
    }
    forall d, c | Moves(plan, d, c) ensures d in tracks && c in tracks {
      assert NodeOk(p, roots, d);
    }
  }

  /** Only tracks are known, and only tracks that share a key have been joined. */
  ghost predicate Sound(tracks: Tracks, p: Parents, e: Edges) {
    p.Keys <= tracks.Keys && forall a, b | (a, b) in e :: (a, b) in DuplicateEdges(tracks)
  }

  ghost predicate ImpliesSharing(tracks: Tracks, key: Track -> Option<Key>) {
    forall a, b | a in tracks && b in tracks && key(tracks[a]).Some? && key(tracks[a]) == key(tracks[b]) ::
      SharesKey(tracks[a], tracks[b])
  }

  ghost predicate AllJoined(e: Edges, rows: seq<seq<Id>>) {
    forall i :: 0 <= i < |rows| ==> Joined(e, rows[i])
  }

  lemma GroupEdge(tracks: Tracks, key: Track -> Option<Key>, ids: seq<Id>, j: nat, e: Edges)
    requires IsGroup(tracks, key, ids) && ImpliesSharing(tracks, key) && j < |ids|
    requires forall a, b | (a, b) in e :: (a, b) in DuplicateEdges(tracks)
    ensures ids[0] in tracks && ids[j] in tracks
    ensures forall a, b | (a, b) in e + {(ids[0], ids[j])} :: (a, b) in DuplicateEdges(tracks)
  {
    var x, y := ids[0], ids[j];
    assert x in ids && y in ids;
  }

  lemma MoreEdges(e: Edges, e': Edges, rows: seq<seq<Id>>)
    requires AllJoined(e, rows) && e <= e'
    ensures AllJoined(e', rows)
  {
    forall i | 0 <= i < |rows| ensures Joined(e', rows[i]) { assert Joined(e, rows[i]); }
  }

  /** One row: its first id is joined with each of the others. */
  method JoinRow(uf: UnionFind, ids: seq<Id>, ghost tracks: Tracks, ghost key: Track -> Option<Key>)
    requires uf.Valid() && IsGroup(tracks, key, ids) && ImpliesSharing(tracks, key) &&
             Sound(tracks, uf.parent, uf.edges)
    modifies uf
    ensures uf.Valid() && old(uf.edges) <= uf.edges && Sound(tracks, uf.parent, uf.edges) && Joined(uf.edges, ids)
  {
    for j := 1 to |ids|
      invariant uf.Valid() && old(uf.edges) <= uf.edges && Sound(tracks, uf.parent, uf.edges)
      invariant forall k :: 1 <= k < j ==> (ids[0], ids[k]) in uf.edges
    {
      GroupEdge(tracks, key, ids, j, uf.edges);
      uf.Union(ids[0], ids[j]);
    }
  }

  /** The rows of one query, joined into the union-find. */
  method JoinRows(uf: UnionFind, rows: seq<seq<Id>>, ghost tracks: Tracks, ghost key: Track -> Option<Key>)
    requires uf.Valid() && GroupedBy(tracks, key, rows) && ImpliesSharing(tracks, key) &&
             Sound(tracks, uf.parent, uf.edges)
    modifies uf
    ensures uf.Valid() && old(uf.edges) <= uf.edges && Sound(tracks, uf.parent, uf.edges) && AllJoined(uf.edges, rows)
  {
    for i := 0 to |rows|
      invariant uf.Valid() && old(uf.edges) <= uf.edges && Sound(tracks, uf.parent, uf.edges)
      invariant AllJoined(uf.edges, rows[..i])
    {
      ghost var before := uf.edges;
      assert IsGroup(tracks, key, rows[i]);
      JoinRow(uf, rows[i], tracks, key);
      MoreEdges(before, uf.edges, rows[..i]);
      assert rows[..i + 1] == rows[..i] + [rows[i]];
    }
    assert rows[..|rows|] == rows;
  }

  /** The last loop: every id that is not its own root goes under its root. */
  method CollectPlan(uf: UnionFind) returns (plan: Plan)
    requires uf.Valid()
    modifies uf
    ensures uf.Valid() && uf.roots == old(uf.roots) && uf.edges == old(uf.edges)
    ensures ListsRoots(plan, uf.roots, uf.roots.Keys)
  {
    plan := map[];
    var members := Enumerate(uf.parent.Keys);
    ghost var roots := uf.roots;
    for i := 0 to |members|
      invariant uf.Valid() && uf.roots == roots && uf.edges == old(uf.edges)
      invariant ListsRoots(plan, roots, Elements(members[..i]))
    {
      var tid := members[i];
      var root := uf.Find(tid);
      ghost var before := plan;
      if root != tid {
        var group := if root in plan then plan[root] else [];
        plan := plan[root := group + [tid]];
        ExtendPlan(before, plan, roots, Elements(members[..i]), tid, group);
      }
      assert members[..i + 1] == members[..i] + [tid];
      assert Elements(members[..i + 1]) == Elements(members[..i]) + {tid};
    }
    assert members[..|members|] == members;
    assert Elements(members) == roots.Keys;
  }

  lemma ExtendPlan(plan: Plan, plan': Plan, roots: map<Id, Id>, seen: set<Id>, tid: Id, group: seq<Id>)
    requires ListsRoots(plan, roots, seen) && tid in roots && tid !in seen && roots[tid] != tid
    requires group == if roots[tid] in plan then plan[roots[tid]] else []
    requires plan' == plan[roots[tid] := group + [tid]]
    ensures ListsRoots(plan', roots, seen + {tid})
  {
    forall d, c ensures Moves(plan', d, c) <==> Moves(plan, d, c) || (d == tid && c == roots[tid]) {}
    assert !Moves(plan, tid, roots[tid]);
    assert tid !in group;
  }

  method BuildMergePlan(ghost tracks: Tracks, scRows: seq<seq<Id>>, extRows: seq<seq<Id>>) returns (plan: Plan)
    requires GroupedBy(tracks, ScKey, scRows) && GroupedBy(tracks, ExternalKey, extRows)
    ensures MergesComponents(tracks, plan)
  {
    var uf := new UnionFind();
    JoinRows(uf, scRows, tracks, ScKey);
    ghost var afterSc := uf.edges;
    JoinRows(uf, extRows, tracks, ExternalKey);
    MoreEdges(afterSc, uf.edges, scRows);
    plan := CollectPlan(uf);
    PlanMergesComponents(tracks, scRows, extRows, plan, uf.parent, uf.roots, uf.edges);
  }

  // The indexes created after the script has run.

  /** UNIQUE (sc_url) WHERE sc_url IS NOT NULL. */
  ghost predicate UniqueScUrl(tracks: Tracks) {
    forall a, b | a in tracks && b in tracks && a != b :: tracks[a].scUrl.Some? ==> tracks[a].scUrl != tracks[b].scUrl
  }

  /** UNIQUE (imported_from, external_id) WHERE external_id IS NOT NULL; NULLs count as different. */
  ghost predicate UniqueExternal(tracks: Tracks) {
    forall a, b | a in tracks && b in tracks && a != b ::
      tracks[a].externalId.Some? && tracks[a].importedFrom.Some? ==>
        tracks[a].externalId != tracks[b].externalId || tracks[a].importedFrom != tracks[b].importedFrom
  }

  function Survivors(tracks: Tracks, dups: set<Id>): Tracks {
    tracks - dups
  }

  /** Once the duplicates are gone both unique indexes can be created. */
  lemma SurvivorsFitIndexes(tracks: Tracks, plan: Plan, dups: set<Id>)
    requires MergesComponents(tracks, plan)
    requires forall d :: d in dups <==> exists c :: Moves(plan, d, c)
    ensures UniqueScUrl(Survivors(tracks, dups)) && UniqueExternal(Survivors(tracks, dups))
  {
    var e := DuplicateEdges(tracks);
    forall a, b | a in tracks - dups && b in tracks - dups && a != b ensures !SharesKey(tracks[a], tracks[b]) {
      assert Target(plan, a) == a && Target(plan, b) == b;
      assert !Linked(e, a, b) by {
        if Linked(e, a, b) { RelatedOne(e, a, b); }
      }
      assert (a, b) !in e;
    }
  }
}
