/** Dependency graphs of executables and reachability in them. */
module Graphs {

  /** What the executor knows of an executable besides its identifier: its
      dependencies and the pair that orders it inside a component. */
  datatype Exec<V> = Exec(deps: seq<V>, seqNum: nat, replica: nat)

  type Graph<V> = map<V, Exec<V>>

  predicate Edge<V(==)>(g: Graph<V>, x: V, y: V) {
    x in g && y in g[x].deps
  }

  ghost predicate IsPath<V>(g: Graph<V>, p: seq<V>) {
    && |p| > 0
    && forall i :: 0 <= i < |p| - 1 ==> Edge(g, p[i], p[i + 1])
  }

  ghost predicate PathFromTo<V>(g: Graph<V>, p: seq<V>, x: V, y: V) {
    IsPath(g, p) && p[0] == x && p[|p| - 1] == y
  }

  /** y can be reached from x along zero or more dependency edges. */
  ghost predicate Reach<V(!new)>(g: Graph<V>, x: V, y: V) {
    exists p: seq<V> :: PathFromTo(g, p, x, y)
  }

  /** x and y depend on each other: they lie in one strongly connected component. */
  ghost predicate Mutual<V(!new)>(g: Graph<V>, x: V, y: V) {
    Reach(g, x, y) && Reach(g, y, x)
  }

  lemma ReachRefl<V(!new)>(g: Graph<V>, x: V)
    ensures Reach(g, x, x)
  {
    assert PathFromTo(g, [x], x, x);
  }

  lemma ReachEdge<V(!new)>(g: Graph<V>, x: V, y: V)
    requires Edge(g, x, y)
    ensures Reach(g, x, y)
  {
    assert PathFromTo(g, [x, y], x, y);
  }

  lemma ReachTrans<V(!new)>(g: Graph<V>, x: V, y: V, z: V)
    requires Reach(g, x, y) && Reach(g, y, z)
    ensures Reach(g, x, z)
  {
    var p :| PathFromTo(g, p, x, y);
    var q :| PathFromTo(g, q, y, z);
    var r := p + q[1..];
    forall i | 0 <= i < |r| - 1 ensures Edge(g, r[i], r[i + 1]) {
      if i < |p| - 1 {
        assert Edge(g, p[i], p[i + 1]);
      } else {
        var j := i - (|p| - 1);
        assert r[i] == q[j] && r[i + 1] == q[j + 1];
      }
    }
    assert PathFromTo(g, r, x, z);
  }

  /** Reachability cannot leave a set that no edge leaves, as long as it ends on a vertex. */
  ghost predicate ClosedIn<V(!new)>(g: Graph<V>, s: set<V>) {
    forall a, b :: a in s && Edge(g, a, b) && b in g ==> b in s
  }

  lemma {:induction false} PathStays<V(!new)>(g: Graph<V>, s: set<V>, p: seq<V>, i: nat)
    requires IsPath(g, p) && p[0] in s && p[|p| - 1] in g && i < |p|
    requires ClosedIn(g, s)
    ensures p[i] in s
  {
    if i > 0 {
      PathStays(g, s, p, i - 1);
      assert Edge(g, p[i - 1], p[i]);
      assert i < |p| - 1 ==> Edge(g, p[i], p[i + 1]);
    }
  }

  lemma ReachStays<V(!new)>(g: Graph<V>, s: set<V>, x: V, y: V)
    requires Reach(g, x, y) && x in s && y in g
    requires ClosedIn(g, s)
    ensures y in s
  {
    var p :| PathFromTo(g, p, x, y);
    PathStays(g, s, p, |p| - 1);
  }

  /** A set that contains every dependency of its vertices. */
  ghost predicate Closed<V(!new)>(g: Graph<V>, s: set<V>) {
    forall a, b :: a in s && Edge(g, a, b) ==> b in s
  }

  lemma {:induction false} PathClosed<V(!new)>(g: Graph<V>, s: set<V>, p: seq<V>, i: nat)
    requires IsPath(g, p) && p[0] in s && i < |p|
    requires Closed(g, s)
    ensures p[i] in s
  {
    if i > 0 {
      PathClosed(g, s, p, i - 1);
      assert Edge(g, p[i - 1], p[i]);
    }
  }

  lemma ReachClosed<V(!new)>(g: Graph<V>, s: set<V>, x: V, y: V)
    requires Reach(g, x, y) && x in s
    requires Closed(g, s)
    ensures y in s
  {
    var p :| PathFromTo(g, p, x, y);
    PathClosed(g, s, p, |p| - 1);
  }

  /** Two graphs that agree on a closed set have the same paths out of it. */
  lemma ReachAgree<V(!new)>(g: Graph<V>, h: Graph<V>, s: set<V>, x: V, y: V)
    requires x in s && Closed(g, s)
    requires forall a :: a in s ==> (a in g <==> a in h) && (a in g ==> g[a].deps == h[a].deps)
    ensures Reach(g, x, y) <==> Reach(h, x, y)
  {
    if Reach(g, x, y) {
      var p :| PathFromTo(g, p, x, y);
      forall i | 0 <= i < |p| ensures p[i] in s { PathClosed(g, s, p, i); }
      forall i | 0 <= i < |p| - 1 ensures Edge(h, p[i], p[i + 1]) {
        assert Edge(g, p[i], p[i + 1]);
      }
      assert PathFromTo(h, p, x, y);
    }
    if Reach(h, x, y) {
      assert Closed(h, s) by {
        forall a, b | a in s && Edge(h, a, b) ensures b in s { assert Edge(g, a, b); }
      }
      var p :| PathFromTo(h, p, x, y);
      forall i | 0 <= i < |p| ensures p[i] in s { PathClosed(h, s, p, i); }
      forall i | 0 <= i < |p| - 1 ensures Edge(g, p[i], p[i + 1]) {
        assert Edge(h, p[i], p[i + 1]);
      }
      assert PathFromTo(g, p, x, y);
    }
  }

  /** A graph that has every edge out of what x reaches has every path out of x. */
  lemma ReachMono<V(!new)>(g: Graph<V>, h: Graph<V>, x: V, y: V)
    requires Reach(g, x, y)
    requires forall a, b :: Reach(g, x, a) && Edge(g, a, b) ==> Edge(h, a, b)
    ensures Reach(h, x, y)
  {
    var p :| PathFromTo(g, p, x, y);
    forall i | 0 <= i < |p| - 1 ensures Edge(h, p[i], p[i + 1]) {
      assert PathFromTo(g, p[..i + 1], x, p[i]);
    }
    assert PathFromTo(h, p, x, y);
  }

  predicate NoDup<V(==)>(s: seq<V>) {
    forall i, j :: 0 <= i < j < |s| ==> s[i] != s[j]
  }

  lemma TailNoDup<V>(s: seq<V>)
    requires s != [] && NoDup(s)
    ensures s[0] !in s[1..] && NoDup(s[1..])
  {
  }

  /** The elements of a sequence. */
  function Elems<V(==)>(s: seq<V>): set<V> {
    set x | x in s
  }
}
