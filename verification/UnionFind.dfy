/** The union-find of `scripts/dedupe_tracks.py`: smaller ids are roots, `find` compresses paths. */
module UnionFinds {
  type Id = int
  type Parents = map<Id, Id>

  /** How many known ids are smaller: what a walk up the parents uses up. */
  function Below(p: Parents, x: Id): nat {
    |set y | y in p && y < x|
  }

  // What the unions relate.

  type Edges = set<(Id, Id)>

  predicate Linked(e: Edges, x: Id, y: Id) {
    x == y || (x, y) in e || (y, x) in e
  }

  /** Consecutive ids of a path are linked. */
  ghost predicate IsPath(e: Edges, path: seq<Id>, x: Id, y: Id) {
    && path != [] && path[0] == x && path[|path| - 1] == y
    && forall i | 0 <= i < |path| - 1 :: Linked(e, path[i], path[i + 1])
  }

  /** The equivalence closure of the edges. */
  ghost predicate Related(e: Edges, x: Id, y: Id) {
    exists path :: IsPath(e, path, x, y)
  }

  lemma RelatedOne(e: Edges, x: Id, y: Id)
    requires Linked(e, x, y)
    ensures Related(e, x, y)
  {
    assert IsPath(e, [x, y], x, y);
  }

  lemma RelatedTrans(e: Edges, x: Id, y: Id, z: Id)
    requires Related(e, x, y) && Related(e, y, z)
    ensures Related(e, x, z)
  {
    var p :| IsPath(e, p, x, y);
    var q :| IsPath(e, q, y, z);
    var r := p + q;
    forall i | 0 <= i < |r| - 1 ensures Linked(e, r[i], r[i + 1]) {
      if i < |p| - 1 {
        assert r[i] == p[i] && r[i + 1] == p[i + 1];
      } else if i >= |p| {
        assert r[i] == q[i - |p|] && r[i + 1] == q[i - |p| + 1];
      }
    }
    assert IsPath(e, r, x, z);
  }

  function Reversed(path: seq<Id>): seq<Id> {
    seq(|path|, i requires 0 <= i < |path| => path[|path| - 1 - i])
  }

  lemma RelatedSym(e: Edges, x: Id, y: Id)
    requires Related(e, x, y)
    ensures Related(e, y, x)
  {
    var p :| IsPath(e, p, x, y);
    var r := Reversed(p);
    forall i | 0 <= i < |r| - 1 ensures Linked(e, r[i], r[i + 1]) {
      assert Linked(e, p[|p| - 2 - i], p[|p| - 2 - i + 1]);
    }
    assert IsPath(e, r, y, x);
  }

  lemma RelatedMono(e: Edges, f: Edges, x: Id, y: Id)
    requires Related(e, x, y) && forall a, b | (a, b) in e :: Linked(f, a, b)
    ensures Related(f, x, y)
  {
    var p :| IsPath(e, p, x, y);
    forall i | 0 <= i < |p| - 1 ensures Linked(f, p[i], p[i + 1]) {
      assert Linked(e, p[i], p[i + 1]);
    }
    assert IsPath(f, p, x, y);
  }

  /** A tagging that agrees across every edge agrees across every path. */
  lemma {:induction false} SameTag(e: Edges, tag: map<Id, Id>, path: seq<Id>, x: Id, y: Id)
    requires IsPath(e, path, x, y) && x in tag
    requires Agrees(tag, e)
    ensures y in tag && tag[x] == tag[y]
    decreases |path|
  {
    if |path| > 1 {
      assert Linked(e, path[0], path[1]);
      var rest := path[1..];
      forall i | 0 <= i < |rest| - 1 ensures Linked(e, rest[i], rest[i + 1]) {
        assert Linked(e, path[i + 1], path[i + 1 + 1]);
      }
      SameTag(e, tag, rest, path[1], y);
    }
  }

  /** The tags agree across every edge. */
  ghost predicate Agrees(tag: map<Id, Id>, e: Edges) {
    forall a, b | (a, b) in e :: a in tag && b in tag && tag[a] == tag[b]
  }

  // The representation invariant.

  /**
   `roots` tells where every chain of parents ends.  Parents are known and non-root parents are
   strictly smaller, so the chains do end.
   */
  ghost predicate Rooted(p: Parents, roots: map<Id, Id>) {
    p.Keys == roots.Keys && forall x {:trigger NodeOk(p, roots, x)} | x in p :: NodeOk(p, roots, x)
  }

  predicate NodeOk(p: Parents, roots: map<Id, Id>, x: Id)
    requires x in p && p.Keys == roots.Keys
  {
    && p[x] in p && p[x] <= x && roots[p[x]] == roots[x] && (p[x] == x <==> roots[x] == x)
    && roots[x] in p && roots[x] <= x && roots[roots[x]] == roots[x]
  }

  ghost predicate Justified(roots: map<Id, Id>, e: Edges, x: Id)
    requires x in roots
  {
    Related(e, x, roots[x])
  }

  /** Two ids have the same root exactly because the edges relate them. */
  ghost predicate Classifies(roots: map<Id, Id>, e: Edges) {
    && Agrees(roots, e)
    && (forall x {:trigger Justified(roots, e, x)} | x in roots :: Justified(roots, e, x))
  }

  /** `find` tells exactly whether the unions made relate two known ids. */
  lemma RootsDecideRelated(p: Parents, roots: map<Id, Id>, e: Edges, x: Id, y: Id)
    requires Rooted(p, roots) && Classifies(roots, e) && x in p && y in p
    ensures roots[x] == roots[y] <==> Related(e, x, y)
  {
    assert Justified(roots, e, x) && Justified(roots, e, y);
    if roots[x] == roots[y] {
      RelatedSym(e, y, roots[y]);
      RelatedTrans(e, x, roots[x], y);
    }
    if Related(e, x, y) {
      var path :| IsPath(e, path, x, y);
      SameTag(e, roots, path, x, y);
    }
  }

  /** The root of a known id is the smallest id the unions relate it to. */
  lemma RootIsMinimum(p: Parents, roots: map<Id, Id>, e: Edges, x: Id)
    requires Rooted(p, roots) && Classifies(roots, e) && x in p
    ensures Related(e, x, roots[x])
    ensures forall y | Related(e, x, y) :: y in p && roots[x] <= y
  {
    assert Justified(roots, e, x);
    forall y | Related(e, x, y) ensures y in p && roots[x] <= y {
      var path :| IsPath(e, path, x, y);
      SameTag(e, roots, path, x, y);
      assert NodeOk(p, roots, y);
    }
  }

  lemma BelowShrinks(p: Parents, p': Parents, x: Id, next: Id)
    requires next in p && next < x && p'.Keys == p.Keys
    ensures Below(p', next) < Below(p, x)
  {
    var rest, whole := set y | y in p' && y < next, set y | y in p && y < x;
    assert whole == rest + (whole - rest) && next in whole - rest;
  }

  function Merged(roots: map<Id, Id>, lo: Id, hi: Id): map<Id, Id> {
    map x | x in roots :: if roots[x] == hi then lo else roots[x]
  }

  /** Path compression changes no root. */
  lemma CompressionKeepsRoots(p: Parents, roots: map<Id, Id>, c: Id)
    requires Rooted(p, roots) && c in p
    ensures Rooted(p[c := roots[c]], roots)
  {
    assert NodeOk(p, roots, c);
    assert p[c := roots[c]].Keys == p.Keys;
    forall x | x in p ensures NodeOk(p[c := roots[c]], roots, x) { assert NodeOk(p, roots, x); }
  }

  lemma NewcomerIsRoot(p: Parents, roots: map<Id, Id>, e: Edges, n: Id)
    requires Rooted(p, roots) && Classifies(roots, e) && n !in p
    ensures Rooted(p[n := n], roots[n := n]) && Classifies(roots[n := n], e)
  {
    RelatedOne(e, n, n);
    var p', roots' := p[n := n], roots[n := n];
    forall x | x in p' ensures NodeOk(p', roots', x) {
      if x != n { assert NodeOk(p, roots, x); }
    }
    forall x | x in roots' ensures Justified(roots', e, x) {
      if x != n { assert Justified(roots, e, x); }
    }
  }

  /** Pointing a root at a smaller root moves exactly its class. */
  lemma LinkMergesRoots(p: Parents, roots: map<Id, Id>, lo: Id, hi: Id)
    requires Rooted(p, roots) && lo in p && hi in p && roots[lo] == lo && roots[hi] == hi && lo < hi
    ensures Rooted(p[hi := lo], Merged(roots, lo, hi))
  {
    var p', roots' := p[hi := lo], Merged(roots, lo, hi);
    assert p'.Keys == roots'.Keys;
    forall x | x in p' ensures NodeOk(p', roots', x) { assert NodeOk(p, roots, x); }
  }

  lemma LinkedRoots(roots: map<Id, Id>, e: Edges, a: Id, b: Id)
    requires Classifies(roots, e) && a in roots && b in roots
    ensures Related(e + {(a, b)}, roots[a], roots[b]) && Related(e + {(a, b)}, roots[b], roots[a])
  {
    var e' := e + {(a, b)};
    assert Justified(roots, e, a) && Justified(roots, e, b);
    RelatedMono(e, e', a, roots[a]);
    RelatedMono(e, e', b, roots[b]);
    RelatedSym(e', a, roots[a]);
    RelatedOne(e', a, b);
    RelatedTrans(e', roots[a], a, b);
    RelatedTrans(e', roots[a], b, roots[b]);
    RelatedSym(e', roots[a], roots[b]);
  }

  lemma LinkClassifies(roots: map<Id, Id>, e: Edges, a: Id, b: Id, lo: Id, hi: Id)
    requires Classifies(roots, e) && a in roots && b in roots
    requires (roots[a] == lo && roots[b] == hi) || (roots[a] == hi && roots[b] == lo)
    ensures Classifies(Merged(roots, lo, hi), e + {(a, b)})
  {
    var e', roots' := e + {(a, b)}, Merged(roots, lo, hi);
    LinkedRoots(roots, e, a, b);
    forall x | x in roots' ensures Justified(roots', e', x) {
      assert Justified(roots, e, x);
      RelatedMono(e, e', x, roots[x]);
      if roots[x] == hi { RelatedTrans(e', x, hi, lo); }
    }
  }

  /** An edge inside a class changes nothing. */
  lemma EdgeWithinClass(p: Parents, roots: map<Id, Id>, e: Edges, a: Id, b: Id)
    requires Rooted(p, roots) && Classifies(roots, e) && a in roots && b in roots && roots[a] == roots[b]
    ensures Classifies(roots, e + {(a, b)})
  {
    LinkClassifies(roots, e, a, b, roots[a], roots[a]);
    assert Merged(roots, roots[a], roots[a]) == roots;
  }

  /** An edge between two classes, and the larger root linked under the smaller. */
  lemma EdgeBetweenClasses(p: Parents, roots: map<Id, Id>, e: Edges, a: Id, b: Id, lo: Id, hi: Id)
    requires Rooted(p, roots) && Classifies(roots, e) && a in roots && b in roots && lo < hi
    requires (roots[a] == lo && roots[b] == hi) || (roots[a] == hi && roots[b] == lo)
    ensures Rooted(p[hi := lo], Merged(roots, lo, hi)) && Classifies(Merged(roots, lo, hi), e + {(a, b)})
    ensures p[hi := lo].Keys == p.Keys
  {
    assert NodeOk(p, roots, a) && NodeOk(p, roots, b);
    LinkClassifies(roots, e, a, b, lo, hi);
    LinkMergesRoots(p, roots, lo, hi);
    assert p[hi := lo].Keys == p.Keys;
  }

  class UnionFind {
    var parent: Parents
    ghost var roots: map<Id, Id>  // what `find` answers for every known id
    ghost var edges: Edges        // the unions made so far

    ghost predicate Valid()
      reads this
    {
      Rooted(parent, roots) && Classifies(roots, edges)
    }

    constructor ()
      ensures Valid() && parent == map[] && edges == {}
    {
      parent, roots, edges := map[], map[], {};
    }

    /** An id it has not seen becomes a class of its own; otherwise no class changes. */
    method Find(x: Id) returns (root: Id)
      requires Valid()
      modifies this`parent, this`roots
      ensures Valid()
      ensures roots == if x in old(roots) then old(roots) else old(roots)[x := x]
      ensures root == roots[x]
    {
      if x !in parent {
        NewcomerIsRoot(parent, roots, edges, x);
        parent := parent[x := x];
        roots := roots[x := x];
        return x;
      }
      root := FollowParents(x);
      Compress(x, root);
    }

    /** The first loop of `find`. */
    method FollowParents(x: Id) returns (root: Id)
      requires Rooted(parent, roots) && x in parent
      ensures root == roots[x]
    {
      root := x;
      while parent[root] != root
        invariant root in parent && roots[root] == roots[x]
        decreases Below(parent, root)
      {
        assert NodeOk(parent, roots, root);
        BelowShrinks(parent, parent, root, parent[root]);
        root := parent[root];
      }
      assert NodeOk(parent, roots, root);
    }

    /** The second loop of `find`: point everything on the way at the root. */
    method Compress(x: Id, root: Id)
      requires Rooted(parent, roots) && x in parent && root == roots[x]
      modifies this`parent
      ensures Rooted(parent, roots)
    {
      var cur := x;
      while parent[cur] != root
        invariant Rooted(parent, roots) && cur in parent && roots[cur] == root
        decreases Below(parent, cur)
      {
        assert NodeOk(parent, roots, cur);
        var next := parent[cur];
        CompressionKeepsRoots(parent, roots, cur);
        BelowShrinks(parent, parent[cur := root], cur, next);
        parent := parent[cur := root];
        cur := next;
      }
    }

    method Union(a: Id, b: Id)
      requires Valid()
      modifies this
      ensures Valid()
      ensures parent.Keys == old(parent.Keys) + {a, b}
      ensures edges == old(edges) + {(a, b)}
    {
      var ra := Find(a);
      var rb := Find(b);
      ghost var made := edges;
      edges := edges + {(a, b)};
      if ra == rb {
        EdgeWithinClass(parent, roots, made, a, b);
        return;
      }
      if ra < rb {
        EdgeBetweenClasses(parent, roots, made, a, b, ra, rb);
        roots := Merged(roots, ra, rb);
        parent := parent[rb := ra];
      } else {
        EdgeBetweenClasses(parent, roots, made, a, b, rb, ra);
        roots := Merged(roots, rb, ra);
        parent := parent[ra := rb];
      }
    }
  }
}
