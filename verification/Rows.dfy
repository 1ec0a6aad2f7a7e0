/** Query results and Python lists of ids: sequences that enumerate a set, in some order or sorted. */
module Rows {
  ghost predicate Distinct<T>(q: seq<T>) {
    forall i, j :: 0 <= i < j < |q| ==> q[i] != q[j]
  }

  /** `q` lists the elements of `s`, each once. */
  ghost predicate Lists<T(!new)>(q: seq<T>, s: set<T>) {
    Distinct(q) && forall x :: x in q <==> x in s
  }

  function Elements<T>(q: seq<T>): set<T> {
    set x | x in q
  }

  ghost predicate Ascending(q: seq<int>) {
    forall i, j :: 0 <= i < j < |q| ==> q[i] < q[j]
  }

  lemma Pick<T>(s: set<T>) returns (x: T)
    requires s != {}
    ensures x in s
  {
    x :| x in s;
  }

  lemma SubsetSize<T>(a: set<T>, b: set<T>)
    requires a <= b
    ensures |a| <= |b|
  {
    assert b == a + (b - a);
  }

  /** A list of the elements of a set, in an order nobody promises. */
  method Enumerate<T(==, !new)>(s: set<T>) returns (q: seq<T>)
    ensures Lists(q, s)
  {
    q := [];
    var rest := s;
    while rest != {}
      invariant rest <= s && Lists(q, s - rest)
      decreases rest
    {
      var x :| x in rest;
      q, rest := q + [x], rest - {x};
    }
  }

  lemma {:induction false} MinimumExists(s: set<int>)
    requires s != {}
    ensures exists m :: IsMinimum(s, m)
  {
    var x := Pick(s);
    var rest := s - {x};
    assert s == {x} + rest;
    if rest == {} {
      assert IsMinimum(s, x);
    } else {
      MinimumExists(rest);
      var m :| IsMinimum(rest, m);
      assert IsMinimum(s, if x < m then x else m);
    }
  }

  ghost predicate IsMinimum(s: set<int>, m: int) {
    m in s && forall y :: y in s ==> m <= y
  }

  /** `sorted(...)`, and `ORDER BY id`. */
  method Sort(s: set<int>) returns (q: seq<int>)
    ensures Lists(q, s) && Ascending(q)
  {
    q := [];
    var rest := s;
    while rest != {}
      invariant rest <= s && Lists(q, s - rest) && Ascending(q)
      invariant forall i, y :: 0 <= i < |q| && y in rest ==> q[i] < y
      decreases rest
    {
      MinimumExists(rest);
      assert exists m :: m in rest && forall y :: y in rest ==> m <= y by {
        var m :| IsMinimum(rest, m);
      }
      var x :| x in rest && forall y :: y in rest ==> x <= y;
      q, rest := q + [x], rest - {x};
    }
  }

  // What a filter keeps.

  ghost predicate Increasing(ps: seq<nat>) {
    forall i, j :: 0 <= i < j < |ps| ==> ps[i] < ps[j]
  }

  ghost predicate PositionsIn<T>(ps: seq<nat>, q: seq<T>) {
    forall i :: 0 <= i < |ps| ==> ps[i] < |q|
  }

  /** The elements at the given positions. */
  ghost function At<T>(q: seq<T>, ps: seq<nat>): seq<T>
    requires PositionsIn(ps, q)
  {
    seq(|ps|, i requires 0 <= i < |ps| => q[ps[i]])
  }

  /** `r` is what is left of `q` when the elements that fail `keep` are taken out: a sublist at increasing positions. */
  ghost predicate Filtered<T(!new)>(q: seq<T>, keep: T -> bool, r: seq<T>) {
    exists ps: seq<nat> ::
      && Increasing(ps) && PositionsIn(ps, q) && r == At(q, ps)
      && forall i: nat :: i in ps <==> i < |q| && keep(q[i])
  }

  lemma FilteredNothing<T(!new)>(keep: T -> bool)
    ensures Filtered([], keep, [])
  {
    var ps: seq<nat> := [];
    assert At<T>([], ps) == [];
  }

  lemma FilteredSnoc<T(!new)>(q: seq<T>, keep: T -> bool, r: seq<T>, x: T)
    requires Filtered(q, keep, r)
    ensures Filtered(q + [x], keep, r + if keep(x) then [x] else [])
  {
    var ps: seq<nat> :| Increasing(ps) && PositionsIn(ps, q) && r == At(q, ps)
      && forall i: nat :: i in ps <==> i < |q| && keep(q[i]);
    var q', r' := q + [x], r + if keep(x) then [x] else [];
    var ps' := if keep(x) then ps + [|q|] else ps;
    assert At(q', ps') == r';
    forall i: nat ensures i in ps' <==> i < |q'| && keep(q'[i]) {
      if i < |q| { assert q'[i] == q[i] && (i in ps' <==> i in ps); }
    }
    assert Increasing(ps') && PositionsIn(ps', q');
  }
}
