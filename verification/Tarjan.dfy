/** The state of one pass of Tarjan's strongly connected components algorithm
    (epaxos/execute.go), the invariants of that state, and the lemmas that carry
    them across each thing `visit` does. */
module Tarjan {
  import opened Graphs

  /** A vertex of the executor with its per-pass fields. References to nodes are map
      entries keyed by vertex. */
  datatype TarjanNode<V> = TarjanNode(exec: Exec<V>, depNodes: seq<V>, index: int, lowlink: int, onStack: bool)

  datatype Dfs<V> = Dfs(nodes: map<V, TarjanNode<V>>, index: nat, stack: seq<V>, comps: seq<seq<V>>)

  /** All vertices listed in a sequence of components. */
  ghost function CompElems<V>(comps: seq<seq<V>>): set<V> {
    if comps == [] then {} else CompElems(comps[..|comps| - 1]) + Elems(comps[|comps| - 1])
  }

  lemma CompElemsIn<V>(comps: seq<seq<V>>, x: V)
    ensures x in CompElems(comps) <==> exists k :: 0 <= k < |comps| && x in comps[k]
  {
    if comps != [] {
      var init := comps[..|comps| - 1];
      CompElemsIn(init, x);
      if x in CompElems(init) {
        var k :| 0 <= k < |init| && x in init[k];
        assert x in comps[k];
      }
      if k :| 0 <= k < |comps| && x in comps[k] {
        if k < |init| { assert x in init[k]; }
      }
    }
  }

  ghost predicate SccPart<V(!new)>(g: Graph<V>, comp: seq<V>) {
    && |comp| > 0
    && NoDup(comp)
    && (forall x :: x in comp ==> x in g)
    && (forall x, y :: x in comp && y in comp ==> Reach(g, x, y))
  }

  /** Strongly connected components of g in reverse topological order: every
      prefix of the list is closed under dependencies. */
  ghost predicate SccList<V(!new)>(g: Graph<V>, comps: seq<seq<V>>) {
    && (forall k :: 0 <= k <= |comps| ==> ClosedIn(g, CompElems(comps[..k])))
    && (forall k :: 0 <= k < |comps| ==> SccPart(g, comps[k]))
    && (forall j, k, x :: 0 <= j < k < |comps| && x in comps[j] ==> x !in comps[k])
  }

  lemma SccListExtend<V(!new)>(g: Graph<V>, comps: seq<seq<V>>, comp: seq<V>)
    requires SccList(g, comps) && SccPart(g, comp)
    requires forall x :: x in comp ==> x !in CompElems(comps)
    requires ClosedIn(g, CompElems(comps) + Elems(comp))
    ensures SccList(g, comps + [comp])
    ensures CompElems(comps + [comp]) == CompElems(comps) + Elems(comp)
  {
    var all := comps + [comp];
    assert all[..|comps|] == comps;
    forall k | 0 <= k <= |all| ensures ClosedIn(g, CompElems(all[..k])) {
      if k <= |comps| {
        assert all[..k] == comps[..k];
      } else {
        assert all[..k] == all;
      }
    }
    forall j, k, x | 0 <= j < k < |all| && x in all[j] ensures x !in all[k] {
      if k == |comps| { CompElemsIn(comps, x); }
    }
  }

  // ----- Invariants -----

  /** The index of v, or -1 when v is not a vertex or has not been visited. */
  function Index<V(==)>(d: Dfs<V>, v: V): int {
    if v in d.nodes then d.nodes[v].index else -1
  }

  function Low<V(==)>(d: Dfs<V>, v: V): int {
    if v in d.nodes then d.nodes[v].lowlink else -1
  }

  function DepNodes<V(==)>(d: Dfs<V>, v: V): seq<V> {
    if v in d.nodes then d.nodes[v].depNodes else []
  }

  predicate Visited<V(==)>(d: Dfs<V>, v: V) {
    Index(d, v) >= 0
  }

  ghost predicate Shape<V(!new)>(g: Graph<V>, d: Dfs<V>) {
    && d.nodes.Keys == g.Keys
    && NoDup(d.stack)
    && (forall v :: v in d.stack <==> v in d.nodes && d.nodes[v].onStack)
    && (forall v :: v in d.stack ==> Visited(d, v))
    && (forall v :: Index(d, v) < d.index)
    && (forall i, j :: 0 <= i < j < |d.stack| ==> Index(d, d.stack[i]) < Index(d, d.stack[j]))
    && (forall v, w :: w in DepNodes(d, v) <==> Edge(g, v, w) && w in g)
  }

  /** y reaches a vertex whose visit is still in progress and that is not above it on the stack. */
  ghost predicate HasGray<V(!new)>(g: Graph<V>, d: Dfs<V>, gray: set<V>, y: V) {
    exists x :: x in gray && Index(d, x) <= Index(d, y) && Reach(g, y, x)
  }

  lemma GrayOf<V(!new)>(g: Graph<V>, d: Dfs<V>, gray: set<V>, y: V) returns (x: V)
    requires HasGray(g, d, gray, y)
    ensures x in gray && Index(d, x) <= Index(d, y) && Reach(g, y, x)
  {
    x :| x in gray && Index(d, x) <= Index(d, y) && Reach(g, y, x);
  }

  /** The dependencies of a vertex whose visit is over have been visited. */
  ghost predicate BlackSeen<V(!new)>(g: Graph<V>, d: Dfs<V>, gray: set<V>) {
    forall v, w :: Visited(d, v) && v !in gray && Edge(g, v, w) && w in g ==> Visited(d, w)
  }

  ghost predicate StackOrdered<V(!new)>(g: Graph<V>, d: Dfs<V>) {
    forall x, y :: x in d.stack && y in d.stack && Index(d, x) <= Index(d, y) ==> Reach(g, x, y)
  }

  /** gray holds the vertices whose visit is in progress. */
  ghost predicate Colours<V(!new)>(g: Graph<V>, d: Dfs<V>, gray: set<V>) {
    && (forall v :: v in gray ==> v in d.stack)
    && BlackSeen(g, d, gray)
    && StackOrdered(g, d)
    && (forall y :: y in d.stack ==> HasGray(g, d, gray, y))
  }

  ghost predicate Comps<V(!new)>(g: Graph<V>, d: Dfs<V>) {
    && SccList(g, d.comps)
    && (forall v :: v in CompElems(d.comps) <==> Visited(d, v) && v !in d.stack)
  }

  ghost predicate DfsInv<V(!new)>(g: Graph<V>, d: Dfs<V>, gray: set<V>) {
    Shape(g, d) && Colours(g, d, gray) && Comps(g, d)
  }

  /** What later visits leave alone. */
  ghost predicate Frame<V(!new)>(d0: Dfs<V>, d1: Dfs<V>) {
    && d0.index <= d1.index
    && d0.stack <= d1.stack
    && d0.nodes.Keys == d1.nodes.Keys
    && (forall x :: x in d0.nodes ==> d1.nodes[x].exec == d0.nodes[x].exec)
    && (forall x :: DepNodes(d1, x) == DepNodes(d0, x))
    && (forall x :: Visited(d0, x) ==> d1.nodes[x] == d0.nodes[x])
  }

  /** n is the index of a vertex of the stack of d that v reaches. */
  ghost predicate LowWitness<V(!new)>(g: Graph<V>, d: Dfs<V>, v: V, n: int) {
    exists y :: y in d.stack && Index(d, y) == n && Reach(g, v, y)
  }

  /** n bounds the index of every vertex of the stack of d that an edge from a enters. */
  ghost predicate LowBound<V(!new)>(g: Graph<V>, d: Dfs<V>, a: V, n: int) {
    forall b :: b in d.stack && Edge(g, a, b) ==> n <= Index(d, b)
  }

  /** What visiting v from d0 promises of the final state d1. */
  ghost predicate VisitPost<V(!new)>(g: Graph<V>, d0: Dfs<V>, d1: Dfs<V>, v: V) {
    && Frame(d0, d1)
    && Visited(d1, v)
    && (if v in d1.stack then LowWitness(g, d0, v, Low(d1, v)) else Low(d1, v) >= d0.index)
    && (forall a :: a in d1.stack && a !in d0.stack ==> LowBound(g, d0, a, Low(d1, v)))
  }

  ghost predicate Entered<V(!new)>(d0: Dfs<V>, d: Dfs<V>, gray: set<V>, v: V) {
    && v !in d0.stack
    && !Visited(d0, v)
    && (forall x :: x in gray ==> x in d0.stack)
    && (forall x :: x in d0.stack ==> Visited(d0, x))
    && (forall x :: Index(d0, x) < d0.index)
    && Frame(d0, d)
    && |d.stack| > |d0.stack| && d.stack[|d0.stack|] == v
    && Index(d, v) == d0.index
  }

  ghost predicate LowSoFar<V(!new)>(g: Graph<V>, d0: Dfs<V>, d: Dfs<V>, v: V, k: nat) {
    var n := Low(d, v);
    && n <= d0.index
    && (n == d0.index || LowWitness(g, d0, v, n))
    && (forall a :: a in d.stack && a !in d0.stack && a != v ==> LowBound(g, d0, a, n))
    && k <= |DepNodes(d, v)|
    && (forall j :: 0 <= j < k ==> Visited(d, DepNodes(d, v)[j]))
    && (forall j :: 0 <= j < k && DepNodes(d, v)[j] in d0.stack ==> n <= Index(d0, DepNodes(d, v)[j]))
  }

  /** Inside visit(v), entered in state d0, after k of the dependencies of v. */
  ghost predicate InLoop<V(!new)>(g: Graph<V>, d0: Dfs<V>, d: Dfs<V>, gray: set<V>, v: V, k: nat) {
    && DfsInv(g, d, gray + {v})
    && Entered(d0, d, gray, v)
    && LowSoFar(g, d0, d, v, k)
  }

  // ----- Entering a vertex -----

  function Pushed<V(==)>(d: Dfs<V>, v: V): Dfs<V>
    requires v in d.nodes
  {
    Dfs(d.nodes[v := d.nodes[v].(index := d.index, lowlink := d.index, onStack := true)],
        d.index + 1, d.stack + [v], d.comps)
  }

  lemma PushStack<V(!new)>(g: Graph<V>, d: Dfs<V>, v: V)
    requires Shape(g, d) && v in g && !Visited(d, v)
    ensures v !in d.stack
    ensures forall x :: x in Pushed(d, v).stack <==> x in d.stack || x == v
    ensures forall x :: x != v ==> Index(Pushed(d, v), x) == Index(d, x)
    ensures Index(Pushed(d, v), v) == d.index
    ensures forall x :: DepNodes(Pushed(d, v), x) == DepNodes(d, x)
  {
  }

  lemma PushShape<V(!new)>(g: Graph<V>, d: Dfs<V>, v: V)
    requires Shape(g, d) && v in g && !Visited(d, v)
    ensures Shape(g, Pushed(d, v))
  {
    hide Edge;
    PushStack(g, d, v);
    var d' := Pushed(d, v);
    assert d'.nodes.Keys == d.nodes.Keys;
  }

  /** A vertex in progress keeps serving, as long as it keeps its index. */
  lemma GrayStays<V(!new)>(g: Graph<V>, d: Dfs<V>, d': Dfs<V>, gray: set<V>, gray': set<V>, y: V)
    requires HasGray(g, d, gray, y)
    requires Index(d', y) == Index(d, y)
    requires forall x :: x in gray && Index(d, x) <= Index(d, y) ==> x in gray' && Index(d', x) == Index(d, x)
    ensures HasGray(g, d', gray', y)
  {
    hide Reach, Index;
    var x := GrayOf(g, d, gray, y);
  }

  lemma PushGray<V(!new)>(g: Graph<V>, d: Dfs<V>, gray: set<V>, v: V)
    ensures HasGray(g, d, gray + {v}, v)
  {
    ReachRefl(g, v);
  }

  lemma PushColours<V(!new)>(g: Graph<V>, d: Dfs<V>, gray: set<V>, v: V)
    requires Shape(g, d) && Colours(g, d, gray) && v in g && !Visited(d, v)
    requires forall s :: s in d.stack ==> Reach(g, s, v)
    ensures Colours(g, Pushed(d, v), gray + {v})
  {
    hide Reach, HasGray, Edge;
    var d' := Pushed(d, v);
    PushStack(g, d, v);
    ReachRefl(g, v);
    assert BlackSeen(g, d', gray + {v}) && StackOrdered(g, d');
    hide BlackSeen, StackOrdered, Shape;
    forall y | y in d'.stack ensures HasGray(g, d', gray + {v}, y) {
      if y != v { GrayStays(g, d, d', gray, gray + {v}, y); } else { PushGray(g, d', gray, v); }
    }
  }

  lemma PushInLoop<V(!new)>(g: Graph<V>, d: Dfs<V>, gray: set<V>, v: V)
    requires DfsInv(g, d, gray) && v in g && !Visited(d, v)
    requires forall s :: s in d.stack ==> Reach(g, s, v)
    ensures InLoop(g, d, Pushed(d, v), gray, v, 0)
  {
    hide Reach, HasGray, SccList, SccPart, CompElems;
    var d' := Pushed(d, v);
    PushStack(g, d, v);
    PushShape(g, d, v);
    PushColours(g, d, gray, v);
    assert DfsInv(g, d', gray + {v});
    assert forall x :: x in gray ==> x in d.stack;
    assert forall x :: x in d.stack ==> Visited(d, x);
    assert forall x :: Index(d, x) < d.index;
    hide Shape, Colours, Comps;
    assert Entered(d, d', gray, v);
    assert LowSoFar(g, d, d', v, 0);
  }

  // ----- Following one dependency -----

  /** Every vertex in progress reaches the innermost one. */
  lemma GrayReaches<V(!new)>(g: Graph<V>, d0: Dfs<V>, d: Dfs<V>, gray: set<V>, v: V, x: V)
    requires Entered(d0, d, gray, v) && Colours(g, d, gray + {v}) && x in gray + {v}
    ensures Reach(g, x, v)
  {
    hide Reach, HasGray;
    if x == v {
      ReachRefl(g, v);
    } else {
      assert x in d0.stack;
      assert Index(d, x) <= Index(d, v);
    }
  }

  /** Every vertex on the stack reaches the dependency about to be visited. */
  lemma StackReaches<V(!new)>(g: Graph<V>, d0: Dfs<V>, d: Dfs<V>, gray: set<V>, v: V, w: V, s: V)
    requires Entered(d0, d, gray, v) && Colours(g, d, gray + {v}) && Edge(g, v, w) && s in d.stack
    ensures Reach(g, s, w)
  {
    hide Reach, Entered, HasGray;
    var x := GrayOf(g, d, gray + {v}, s);
    GrayReaches(g, d0, d, gray, v, x);
    ReachTrans(g, s, x, v);
    ReachEdge(g, v, w);
    ReachTrans(g, s, v, w);
  }

  function Lowered<V(==)>(d: Dfs<V>, v: V, n: int): Dfs<V>
    requires v in d.nodes
  {
    d.(nodes := d.nodes[v := d.nodes[v].(lowlink := if n < d.nodes[v].lowlink then n else d.nodes[v].lowlink)])
  }

  lemma LoweredSame<V(!new)>(d: Dfs<V>, v: V, n: int)
    requires v in d.nodes
    ensures forall x :: Index(Lowered(d, v, n), x) == Index(d, x)
    ensures forall x :: DepNodes(Lowered(d, v, n), x) == DepNodes(d, x)
    ensures forall x :: x in Lowered(d, v, n).nodes <==> x in d.nodes
    ensures forall x :: x in d.nodes ==> Lowered(d, v, n).nodes[x].onStack == d.nodes[x].onStack
  {
  }

  lemma LoweredColours<V(!new)>(g: Graph<V>, d: Dfs<V>, gray: set<V>, v: V, n: int)
    requires Colours(g, d, gray) && v in d.nodes
    ensures Colours(g, Lowered(d, v, n), gray)
  {
    hide Reach, Edge, HasGray;
    LoweredSame(d, v, n);
    var d' := Lowered(d, v, n);
    assert BlackSeen(g, d', gray) && StackOrdered(g, d');
    hide BlackSeen, StackOrdered;
    forall y | y in d.stack ensures HasGray(g, d', gray, y) {
      GrayStays(g, d, d', gray, gray, y);
    }
  }

  lemma LoweredShape<V(!new)>(g: Graph<V>, d: Dfs<V>, v: V, n: int)
    requires Shape(g, d) && v in d.nodes
    ensures Shape(g, Lowered(d, v, n))
  {
    hide Edge;
    LoweredSame(d, v, n);
    assert Lowered(d, v, n).nodes.Keys == d.nodes.Keys;
  }

  /** The invariants do not mention lowlinks. */
  lemma LoweredInv<V(!new)>(g: Graph<V>, d: Dfs<V>, gray: set<V>, v: V, n: int)
    requires DfsInv(g, d, gray) && v in d.nodes
    ensures DfsInv(g, Lowered(d, v, n), gray)
  {
    hide SccList, CompElems, Shape, Colours;
    LoweredSame(d, v, n);
    LoweredColours(g, d, gray, v, n);
    LoweredShape(g, d, v, n);
  }

  lemma FrameTrans<V(!new)>(d0: Dfs<V>, d: Dfs<V>, d1: Dfs<V>)
    requires Frame(d0, d) && Frame(d, d1)
    ensures Frame(d0, d1)
  {
  }

  /** A stack vertex whose index is below that of v was already on the stack when v was entered. */
  lemma BelowEntry<V(!new)>(g: Graph<V>, d0: Dfs<V>, d: Dfs<V>, gray: set<V>, v: V, y: V)
    requires Shape(g, d) && Entered(d0, d, gray, v)
    requires y in d.stack && Index(d, y) < d0.index
    ensures y in d0.stack && Index(d0, y) == Index(d, y)
  {
    var i :| 0 <= i < |d.stack| && d.stack[i] == y;
    var m := |d0.stack|;
    assert forall j :: m < j < |d.stack| ==> Index(d, d.stack[m]) < Index(d, d.stack[j]);
    assert d0.stack[i] == y;
  }

  lemma EnteredStays<V(!new)>(d0: Dfs<V>, d: Dfs<V>, d1: Dfs<V>, gray: set<V>, v: V)
    requires Entered(d0, d, gray, v) && Frame(d, d1)
    ensures Entered(d0, d1, gray, v)
  {
    FrameTrans(d0, d, d1);
    assert Visited(d, v);
    assert d1.stack[|d0.stack|] == d.stack[|d0.stack|];
  }

  lemma EnteredLowered<V(!new)>(d0: Dfs<V>, d: Dfs<V>, gray: set<V>, v: V, n: int)
    requires Entered(d0, d, gray, v) && v in d.nodes
    ensures Entered(d0, Lowered(d, v, n), gray, v)
  {
    LoweredSame(d, v, n);
    var d' := Lowered(d, v, n);
    assert d'.nodes.Keys == d.nodes.Keys;
  }

  /** The low link that comes back from a child, when it lowers that of v. */
  lemma ChildWitness<V(!new)>(g: Graph<V>, d0: Dfs<V>, d: Dfs<V>, gray: set<V>, v: V, w: V, n: int)
    requires Shape(g, d) && Entered(d0, d, gray, v) && Edge(g, v, w)
    requires LowWitness(g, d, w, n) && n < d0.index
    ensures LowWitness(g, d0, v, n)
  {
    hide Reach;
    var y :| y in d.stack && Index(d, y) == n && Reach(g, w, y);
    BelowEntry(g, d0, d, gray, v, y);
    ReachEdge(g, v, w);
    ReachTrans(g, v, w, y);
  }

  lemma ChildBound<V(!new)>(g: Graph<V>, d0: Dfs<V>, d: Dfs<V>, gray: set<V>, v: V, a: V, n: int)
    requires Entered(d0, d, gray, v) && LowBound(g, d, a, n)
    ensures LowBound(g, d0, a, n)
  {
    forall b | b in d0.stack && Edge(g, a, b) ensures n <= Index(d0, b) {
      assert b in d.stack;
    }
  }

  lemma ChildBounds<V(!new)>(g: Graph<V>, d0: Dfs<V>, d: Dfs<V>, d1: Dfs<V>, gray: set<V>, v: V, k: nat, w: V, n: int,
                      a: V)
    requires Entered(d0, d, gray, v) && LowSoFar(g, d0, d, v, k) && VisitPost(g, d, d1, w)
    requires n <= Low(d, v) && n <= Low(d1, w)
    requires a in d1.stack && a !in d0.stack && a != v
    ensures LowBound(g, d0, a, n)
  {
    hide Reach, Edge, Frame, LowWitness;
    if a in d.stack {
      assert LowBound(g, d0, a, Low(d, v));
    } else {
      ChildBound(g, d0, d, gray, v, a, Low(d1, w));
    }
  }

  lemma ChildFacts<V(!new)>(g: Graph<V>, d0: Dfs<V>, d: Dfs<V>, d1: Dfs<V>, gray: set<V>, v: V, k: nat, w: V)
    requires Shape(g, d) && Entered(d0, d, gray, v) && Frame(d, d1)
    requires k < |DepNodes(d, v)| && w == DepNodes(d, v)[k] && !Visited(d, w)
    ensures Low(d1, v) == Low(d, v) && DepNodes(d1, v) == DepNodes(d, v) && Edge(g, v, w) && w !in d0.stack
    ensures d0.index <= d.index && forall x :: Visited(d, x) ==> Visited(d1, x)
  {
    hide Reach, NoDup;
  }

  lemma ChildLow<V(!new)>(g: Graph<V>, d0: Dfs<V>, d: Dfs<V>, d1: Dfs<V>, gray: set<V>, v: V, k: nat, w: V)
    requires Shape(g, d) && Entered(d0, d, gray, v) && LowSoFar(g, d0, d, v, k)
    requires k < |DepNodes(d, v)| && w == DepNodes(d, v)[k] && !Visited(d, w)
    requires VisitPost(g, d, d1, w) && v in d1.nodes
    ensures LowSoFar(g, d0, Lowered(d1, v, Low(d1, w)), v, k + 1)
  {
    hide Reach, Edge, LowBound, LowWitness, Shape, Entered, Frame;
    var d2 := Lowered(d1, v, Low(d1, w));
    LoweredSame(d1, v, Low(d1, w));
    ChildFacts(g, d0, d, d1, gray, v, k, w);
    var n, n' := Low(d, v), Low(d2, v);
    assert forall x :: Visited(d, x) ==> Visited(d2, x);
    if n' != n {
      ChildWitness(g, d0, d, gray, v, w, n');
    }
    forall a | a in d2.stack && a !in d0.stack && a != v ensures LowBound(g, d0, a, n') {
      ChildBounds(g, d0, d, d1, gray, v, k, w, n', a);
    }
    hide Lowered, VisitPost;
  }

  lemma AfterChild<V(!new)>(g: Graph<V>, d0: Dfs<V>, d: Dfs<V>, d1: Dfs<V>, gray: set<V>, v: V, k: nat, w: V)
    requires InLoop(g, d0, d, gray, v, k)
    requires k < |DepNodes(d, v)| && w == DepNodes(d, v)[k] && !Visited(d, w)
    requires DfsInv(g, d1, gray + {v}) && VisitPost(g, d, d1, w) && v in d1.nodes
    ensures InLoop(g, d0, Lowered(d1, v, Low(d1, w)), gray, v, k + 1)
  {
    hide Reach, Edge, Shape, Colours, Comps, LowSoFar, Entered, Lowered;
    LoweredInv(g, d1, gray + {v}, v, Low(d1, w));
    EnteredStays(d0, d, d1, gray, v);
    EnteredLowered(d0, d1, gray, v, Low(d1, w));
    ChildLow(g, d0, d, d1, gray, v, k, w);
  }

  lemma SeenWitness<V(!new)>(g: Graph<V>, d0: Dfs<V>, d: Dfs<V>, gray: set<V>, v: V, k: nat, w: V)
    requires Shape(g, d) && Entered(d0, d, gray, v) && Low(d, v) <= d0.index && Index(d, w) < Low(d, v)
    requires k < |DepNodes(d, v)| && w == DepNodes(d, v)[k] && w in d.stack && v in d.nodes
    ensures LowWitness(g, d0, v, Index(d, w))
  {
    hide Reach, Edge;
    assert Edge(g, v, w);
    BelowEntry(g, d0, d, gray, v, w);
    ReachEdge(g, v, w);
  }

  lemma SeenFacts<V(!new)>(g: Graph<V>, d0: Dfs<V>, d: Dfs<V>, gray: set<V>, v: V, w: V)
    requires Shape(g, d) && Entered(d0, d, gray, v) && w in d.stack
    ensures Visited(d, w) && (w in d0.stack ==> Index(d, w) == Index(d0, w))
  {
    hide Reach, Edge, NoDup;
  }

  lemma LowerBound<V(!new)>(g: Graph<V>, d: Dfs<V>, a: V, n: int, n': int)
    requires LowBound(g, d, a, n) && n' <= n
    ensures LowBound(g, d, a, n')
  {
  }

  lemma SeenLow<V(!new)>(g: Graph<V>, d0: Dfs<V>, d: Dfs<V>, gray: set<V>, v: V, k: nat, w: V)
    requires Shape(g, d) && Entered(d0, d, gray, v) && LowSoFar(g, d0, d, v, k)
    requires k < |DepNodes(d, v)| && w == DepNodes(d, v)[k] && w in d.stack && v in d.nodes
    ensures LowSoFar(g, d0, Lowered(d, v, Index(d, w)), v, k + 1)
  {
    hide Reach, Edge, LowWitness, LowBound, Shape, Entered;
    var d2 := Lowered(d, v, Index(d, w));
    LoweredSame(d, v, Index(d, w));
    SeenFacts(g, d0, d, gray, v, w);
    var n, n' := Low(d, v), Low(d2, v);
    if n' != n { SeenWitness(g, d0, d, gray, v, k, w); }
    forall a | a in d2.stack && a !in d0.stack && a != v ensures LowBound(g, d0, a, n') {
      LowerBound(g, d0, a, n, n');
    }
    hide Lowered;
  }

  lemma AfterSeen<V(!new)>(g: Graph<V>, d0: Dfs<V>, d: Dfs<V>, gray: set<V>, v: V, k: nat, w: V)
    requires InLoop(g, d0, d, gray, v, k)
    requires k < |DepNodes(d, v)| && w == DepNodes(d, v)[k] && Visited(d, w) && v in d.nodes
    ensures w in d.stack ==> InLoop(g, d0, Lowered(d, v, Index(d, w)), gray, v, k + 1)
    ensures w !in d.stack ==> InLoop(g, d0, d, gray, v, k + 1)
  {
    hide Reach, Edge, Colours, Comps, Lowered, LowBound, LowWitness;
    if w in d.stack {
      LoweredInv(g, d, gray + {v}, v, Index(d, w));
      EnteredLowered(d0, d, gray, v, Index(d, w));
      SeenLow(g, d0, d, gray, v, k, w);
    } else {
      assert w !in d0.stack;
      assert LowSoFar(g, d0, d, v, k + 1);
    }
  }

  // ----- Leaving a vertex -----

  /** After the loop every dependency of v has been visited and no vertex left on the
      stack by this visit has an edge below the low link of v. */
  lemma LoopDone<V(!new)>(g: Graph<V>, d0: Dfs<V>, d: Dfs<V>, v: V)
    requires Shape(g, d) && LowSoFar(g, d0, d, v, |DepNodes(d, v)|)
    ensures forall w :: Edge(g, v, w) && w in g ==> Visited(d, w)
    ensures (forall b :: b in d0.stack ==> b in g) ==> LowBound(g, d0, v, Low(d, v))
  {
    hide Edge;
    forall w | Edge(g, v, w) && w in g
      ensures Visited(d, w) && (w in d0.stack ==> Low(d, v) <= Index(d0, w))
    {
      assert w in DepNodes(d, v);
      var j :| 0 <= j < |DepNodes(d, v)| && DepNodes(d, v)[j] == w;
    }
  }

  lemma GrayBelow<V(!new)>(g: Graph<V>, d0: Dfs<V>, d: Dfs<V>, gray: set<V>, v: V, n: int) returns (z: V)
    requires Entered(d0, d, gray, v) && Colours(g, d, gray + {v})
    requires LowWitness(g, d0, v, n) && n < d0.index
    ensures z in gray && Index(d, z) < Index(d, v) && Reach(g, v, z)
  {
    hide Reach, HasGray;
    var y :| y in d0.stack && Index(d0, y) == n && Reach(g, v, y);
    assert y in d.stack && Index(d, y) == n;
    z := GrayOf(g, d, gray + {v}, y);
    ReachTrans(g, v, y, z);
  }

  lemma KeepGray<V(!new)>(g: Graph<V>, d0: Dfs<V>, d: Dfs<V>, gray: set<V>, v: V, n: int, s: V)
    requires Entered(d0, d, gray, v) && Colours(g, d, gray + {v})
    requires LowWitness(g, d0, v, n) && n < d0.index && s in d.stack
    ensures HasGray(g, d, gray, s)
  {
    hide Reach, LowWitness, Entered;
    assert HasGray(g, d, gray + {v}, s);
    hide Colours;
    var x := GrayOf(g, d, gray + {v}, s);
    if x == v {
      x := GrayBelow(g, d0, d, gray, v, n);
      ReachTrans(g, s, v, x);
    }
    assert HasGray(g, d, gray, s);
  }

  lemma KeepColours<V(!new)>(g: Graph<V>, d0: Dfs<V>, d: Dfs<V>, gray: set<V>, v: V)
    requires InLoop(g, d0, d, gray, v, |DepNodes(d, v)|)
    requires Low(d, v) != Index(d, v)
    ensures Colours(g, d, gray)
  {
    hide Reach, Edge, Comps, LowBound, LowWitness, Shape, StackOrdered, HasGray;
    LoopDone(g, d0, d, v);
    forall s | s in d.stack ensures HasGray(g, d, gray, s) {
      KeepGray(g, d0, d, gray, v, Low(d, v), s);
    }
    hide LowSoFar, Entered;
    assert BlackSeen(g, d, gray);
  }

  lemma StackInGraph<V(!new)>(g: Graph<V>, d0: Dfs<V>, d: Dfs<V>, gray: set<V>, v: V)
    requires Shape(g, d) && Entered(d0, d, gray, v)
    ensures forall b :: b in d0.stack ==> b in g
  {
    forall b | b in d0.stack ensures b in g { assert b in d.stack; }
  }

  /** v stays on the stack: an ancestor of v can be reached from it. */
  lemma FinishKeep<V(!new)>(g: Graph<V>, d0: Dfs<V>, d: Dfs<V>, gray: set<V>, v: V)
    requires InLoop(g, d0, d, gray, v, |DepNodes(d, v)|)
    requires Low(d, v) != Index(d, v)
    ensures DfsInv(g, d, gray) && VisitPost(g, d0, d, v)
  {
    hide Reach, Edge, Comps, LowBound, LowWitness, Colours, Shape;
    LoopDone(g, d0, d, v);
    StackInGraph(g, d0, d, gray, v);
    KeepColours(g, d0, d, gray, v);
    assert v in d.stack;
  }

  /** d' is d with the vertices of comp taken off the stack as a component. */
  ghost predicate Popped<V(!new)>(d0: Dfs<V>, d: Dfs<V>, d': Dfs<V>, comp: seq<V>) {
    && d'.index == d.index
    && d'.stack == d0.stack
    && d'.comps == d.comps + [comp]
    && d'.nodes.Keys == d.nodes.Keys
    && (forall x :: x in d.nodes ==>
          d'.nodes[x] == if x in comp then d.nodes[x].(onStack := false) else d.nodes[x])
    && NoDup(comp)
    && (forall x :: x in comp <==> x in d.stack && x !in d0.stack)
  }

  /** No edge leads from the vertices above v down to the rest of the stack, so
      together with the finished components they are closed. */
  lemma PopClosed<V(!new)>(g: Graph<V>, d0: Dfs<V>, d: Dfs<V>, gray: set<V>, v: V, comp: seq<V>)
    requires InLoop(g, d0, d, gray, v, |DepNodes(d, v)|) && Low(d, v) == Index(d, v)
    requires forall x :: x in comp <==> x in d.stack && x !in d0.stack
    ensures ClosedIn(g, CompElems(d.comps) + Elems(comp))
  {
    hide Reach, HasGray, CompElems, SccPart;
    LoopDone(g, d0, d, v);
    StackInGraph(g, d0, d, gray, v);
    assert d.comps[..|d.comps|] == d.comps;
    assert ClosedIn(g, CompElems(d.comps));
    forall a, b | a in CompElems(d.comps) + Elems(comp) && Edge(g, a, b) && b in g
      ensures b in CompElems(d.comps) + Elems(comp)
    {
      if a in comp {
        assert LowBound(g, d0, a, Low(d, v));
        assert b !in d0.stack;
        assert Visited(d, b);
      }
    }
  }

  /** Every vertex above v on the stack reaches v. */
  lemma PopReaches<V(!new)>(g: Graph<V>, d0: Dfs<V>, d: Dfs<V>, gray: set<V>, v: V, comp: seq<V>, x: V)
    requires InLoop(g, d0, d, gray, v, |DepNodes(d, v)|)
    requires ClosedIn(g, CompElems(d.comps) + Elems(comp))
    requires forall x :: x in comp <==> x in d.stack && x !in d0.stack
    requires x in comp
    ensures Reach(g, x, v)
  {
    hide Reach, CompElems, SccList, LowSoFar, ClosedIn, Frame, HasGray;
    var z := GrayOf(g, d, gray + {v}, x);
    assert z in d.stack && z in g;
    ReachStays(g, CompElems(d.comps) + Elems(comp), x, z);
  }

  lemma AboveEntry<V(!new)>(g: Graph<V>, d0: Dfs<V>, d: Dfs<V>, gray: set<V>, v: V, y: V)
    requires DfsInv(g, d, gray + {v}) && Entered(d0, d, gray, v)
    requires y in d.stack && y !in d0.stack
    ensures Index(d, y) >= d0.index && Reach(g, v, y)
  {
    hide Reach, HasGray, Comps;
    if Index(d, y) < d0.index { BelowEntry(g, d0, d, gray, v, y); }
    assert v in d.stack;
  }

  lemma PopPart<V(!new)>(g: Graph<V>, d0: Dfs<V>, d: Dfs<V>, gray: set<V>, v: V, comp: seq<V>)
    requires InLoop(g, d0, d, gray, v, |DepNodes(d, v)|)
    requires ClosedIn(g, CompElems(d.comps) + Elems(comp))
    requires NoDup(comp)
    requires forall x :: x in comp <==> x in d.stack && x !in d0.stack
    ensures SccPart(g, comp)
  {
    hide Reach, CompElems, SccList, LowSoFar, ClosedIn, HasGray, Comps;
    assert v in comp;
    forall x, y | x in comp && y in comp ensures Reach(g, x, y) {
      PopReaches(g, d0, d, gray, v, comp, x);
      AboveEntry(g, d0, d, gray, v, y);
      ReachTrans(g, x, v, y);
    }
  }

  lemma PopComps<V(!new)>(g: Graph<V>, d0: Dfs<V>, d: Dfs<V>, d': Dfs<V>, gray: set<V>, v: V, comp: seq<V>)
    requires InLoop(g, d0, d, gray, v, |DepNodes(d, v)|) && Low(d, v) == Index(d, v)
    requires Popped(d0, d, d', comp)
    ensures Comps(g, d')
  {
    hide Reach, CompElems, SccList, SccPart, LowSoFar, ClosedIn, HasGray, Colours;
    PopClosed(g, d0, d, gray, v, comp);
    PopPart(g, d0, d, gray, v, comp);
    SccListExtend(g, d.comps, comp);
    assert forall x :: Visited(d', x) <==> Visited(d, x);
  }

  lemma PopShape<V(!new)>(g: Graph<V>, d0: Dfs<V>, d: Dfs<V>, d': Dfs<V>, gray: set<V>, v: V, comp: seq<V>)
    requires Shape(g, d) && Entered(d0, d, gray, v) && Popped(d0, d, d', comp)
    ensures Shape(g, d')
  {
    hide Edge;
    assert forall x :: Index(d', x) == Index(d, x) && DepNodes(d', x) == DepNodes(d, x);
    assert forall i :: 0 <= i < |d0.stack| ==> d.stack[i] == d0.stack[i];
  }

  lemma PopGray<V(!new)>(g: Graph<V>, d0: Dfs<V>, d: Dfs<V>, d': Dfs<V>, gray: set<V>, v: V, comp: seq<V>, y: V)
    requires Entered(d0, d, gray, v) && Colours(g, d, gray + {v}) && Popped(d0, d, d', comp)
    requires y in d0.stack
    ensures HasGray(g, d', gray, y)
  {
    hide Reach, Edge, BlackSeen, StackOrdered, HasGray;
    assert y in d.stack && Index(d, y) < Index(d, v);
    assert forall x :: Index(d', x) == Index(d, x);
    GrayStays(g, d, d', gray + {v}, gray, y);
  }

  lemma PopSeen<V(!new)>(g: Graph<V>, d0: Dfs<V>, d: Dfs<V>, d': Dfs<V>, gray: set<V>, v: V, comp: seq<V>)
    requires InLoop(g, d0, d, gray, v, |DepNodes(d, v)|) && Popped(d0, d, d', comp)
    ensures BlackSeen(g, d', gray)
  {
    hide Reach, Edge, Comps, LowBound, LowWitness, Shape, HasGray, StackOrdered, Frame;
    LoopDone(g, d0, d, v);
    hide LowSoFar;
    assert forall x :: Index(d', x) == Index(d, x);
    hide Popped;
    assert BlackSeen(g, d, gray + {v});
  }

  lemma PopColours<V(!new)>(g: Graph<V>, d0: Dfs<V>, d: Dfs<V>, d': Dfs<V>, gray: set<V>, v: V, comp: seq<V>)
    requires InLoop(g, d0, d, gray, v, |DepNodes(d, v)|) && Popped(d0, d, d', comp)
    ensures Colours(g, d', gray)
  {
    hide Reach, Comps, Shape, HasGray, BlackSeen, LowSoFar;
    PopSeen(g, d0, d, d', gray, v, comp);
    assert forall x :: Index(d', x) == Index(d, x);
    assert forall x :: x in d0.stack ==> x in d.stack;
    forall y | y in d0.stack ensures HasGray(g, d', gray, y) {
      PopGray(g, d0, d, d', gray, v, comp, y);
    }
    assert StackOrdered(g, d');
  }

  lemma PopFrame<V(!new)>(g: Graph<V>, d0: Dfs<V>, d: Dfs<V>, d': Dfs<V>, gray: set<V>, v: V, comp: seq<V>)
    requires DfsInv(g, d, gray + {v}) && Entered(d0, d, gray, v) && Popped(d0, d, d', comp)
    ensures Frame(d0, d')
  {
    hide Reach, Comps, Colours;
    forall x | Visited(d0, x) ensures d'.nodes[x] == d0.nodes[x] {
      assert Index(d, x) < d0.index;
      if x in comp { AboveEntry(g, d0, d, gray, v, x); }
    }
    assert forall x :: DepNodes(d', x) == DepNodes(d, x);
  }

  /** The vertices above v on the stack, v included, are a finished component. */
  lemma FinishPop<V(!new)>(g: Graph<V>, d0: Dfs<V>, d: Dfs<V>, d': Dfs<V>, gray: set<V>, v: V, comp: seq<V>)
    requires InLoop(g, d0, d, gray, v, |DepNodes(d, v)|) && Low(d, v) == Index(d, v)
    requires Popped(d0, d, d', comp)
    ensures DfsInv(g, d', gray) && VisitPost(g, d0, d', v)
  {
    hide Reach, Edge, Comps, LowBound, LowWitness, Colours, Shape;
    PopComps(g, d0, d, d', gray, v, comp);
    PopShape(g, d0, d, d', gray, v, comp);
    PopColours(g, d0, d, d', gray, v, comp);
    PopFrame(g, d0, d, d', gray, v, comp);
    hide Frame;
    assert v in d.nodes && d'.nodes[v].index == d.nodes[v].index && d'.nodes[v].lowlink == d.nodes[v].lowlink;
  }

  // ----- The recursion -----

  ghost function Unvisited<V>(d: Dfs<V>): set<V> {
    set x | x in d.nodes && !Visited(d, x)
  }

  /** What the loop of visit needs to know of the dependency it is about to follow. */
  lemma InLoopFacts<V(!new)>(g: Graph<V>, d0: Dfs<V>, d: Dfs<V>, gray: set<V>, v: V, k: nat)
    requires InLoop(g, d0, d, gray, v, k) && v in g && k < |DepNodes(d, v)|
    ensures v in d.nodes && DepNodes(d, v)[k] in d.nodes && DepNodes(d, v)[k] in g
    ensures Edge(g, v, DepNodes(d, v)[k])
    ensures d.nodes[DepNodes(d, v)[k]].onStack <==> DepNodes(d, v)[k] in d.stack
    ensures DfsInv(g, d, gray + {v})
    ensures Unvisited(d) < Unvisited(d0)
  {
    hide Reach, Colours, Comps, LowBound, LowWitness;
    assert DepNodes(d, v)[k] in DepNodes(d, v);
    assert v in Unvisited(d0) && v !in Unvisited(d);
  }

  lemma VertexIn<V(!new)>(g: Graph<V>, d: Dfs<V>, gray: set<V>, v: V)
    requires DfsInv(g, d, gray)
    ensures v in d.nodes <==> v in g
  {
    hide Colours, Comps;
  }

  lemma InLoopParts<V(!new)>(g: Graph<V>, d0: Dfs<V>, d: Dfs<V>, gray: set<V>, v: V, k: nat)
    requires InLoop(g, d0, d, gray, v, k)
    ensures Shape(g, d) && Entered(d0, d, gray, v)
  {
    hide Shape, Colours, Comps, LowSoFar, Entered;
  }

  lemma LoopReaches<V(!new)>(g: Graph<V>, d0: Dfs<V>, d: Dfs<V>, gray: set<V>, v: V, k: nat, s: V)
    requires InLoop(g, d0, d, gray, v, k) && v in g && k < |DepNodes(d, v)| && s in d.stack
    ensures Reach(g, s, DepNodes(d, v)[k])
  {
    hide Reach, Colours, Comps, LowSoFar, Entered;
    InLoopFacts(g, d0, d, gray, v, k);
    StackReaches(g, d0, d, gray, v, DepNodes(d, v)[k], s);
  }

  lemma FrameFacts<V(!new)>(g: Graph<V>, d: Dfs<V>, d1: Dfs<V>, v: V, w: V)
    requires VisitPost(g, d, d1, w) && v in d.nodes && w in d.nodes
    ensures v in d1.nodes && w in d1.nodes && DepNodes(d1, v) == DepNodes(d, v)
  {
    hide LowBound, LowWitness;
  }

  // ----- The pop loop -----

  /** The stack of d has been popped down to its first m vertices. */
  ghost predicate PoppedSoFar<V(!new)>(d: Dfs<V>, m: nat, comp: seq<V>, nodes: map<V, TarjanNode<V>>)
    requires m <= |d.stack|
  {
    && NoDup(comp)
    && (forall x :: x in comp <==> x in d.stack[m..])
    && nodes.Keys == d.nodes.Keys
    && (forall x :: x in d.nodes ==>
          nodes[x] == if x in comp then d.nodes[x].(onStack := false) else d.nodes[x])
  }

  lemma PopOne<V(!new)>(g: Graph<V>, d: Dfs<V>, m: nat, comp: seq<V>, nodes: map<V, TarjanNode<V>>)
    requires Shape(g, d) && 0 < m <= |d.stack| && PoppedSoFar(d, m, comp, nodes)
    ensures d.stack[m - 1] in nodes
    ensures PoppedSoFar(d, m - 1, comp + [d.stack[m - 1]],
                        nodes[d.stack[m - 1] := nodes[d.stack[m - 1]].(onStack := false)])
  {
    var w := d.stack[m - 1];
    assert w in d.stack;
    assert d.stack[m - 1..] == [w] + d.stack[m..];
    assert w !in d.stack[m..];
    assert nodes[w := nodes[w].(onStack := false)].Keys == d.nodes.Keys;
  }

  lemma EntryAt<V(!new)>(g: Graph<V>, d0: Dfs<V>, d: Dfs<V>, gray: set<V>, v: V, m: nat)
    requires Shape(g, d) && Entered(d0, d, gray, v) && |d0.stack| <= m < |d.stack|
    ensures d.stack[m] == v <==> m == |d0.stack|
  {
  }

  /** The stack is that of d0 and, above it, what was pushed since. */
  lemma StackSplits<V(!new)>(g: Graph<V>, d0: Dfs<V>, d: Dfs<V>, gray: set<V>, v: V)
    requires Shape(g, d) && Entered(d0, d, gray, v)
    ensures |d0.stack| <= |d.stack| && d.stack[..|d0.stack|] == d0.stack
    ensures d.stack == d0.stack + d.stack[|d0.stack|..]
    ensures forall x :: x in d.stack[|d0.stack|..] ==> x !in d0.stack
  {
    hide Edge, Reach;
    var m := |d0.stack|;
    assert forall j :: 0 <= j < m ==> d0.stack[j] == d.stack[j];
  }

  lemma PopAll<V(!new)>(g: Graph<V>, d0: Dfs<V>, d: Dfs<V>, gray: set<V>, v: V, comp: seq<V>,
                        nodes: map<V, TarjanNode<V>>)
    requires Shape(g, d) && Entered(d0, d, gray, v) && PoppedSoFar(d, |d0.stack|, comp, nodes)
    ensures Popped(d0, d, Dfs(nodes, d.index, d.stack[..|d0.stack|], d.comps + [comp]), comp)
  {
    hide Shape, Entered;
    StackSplits(g, d0, d, gray, v);
  }

  lemma PopNone<V(!new)>(d: Dfs<V>)
    ensures PoppedSoFar(d, |d.stack|, [], d.nodes)
  {
  }

  lemma EntryBelow<V(!new)>(d0: Dfs<V>, d: Dfs<V>, gray: set<V>, v: V)
    requires Entered(d0, d, gray, v)
    ensures |d0.stack| < |d.stack|
  {
  }

  // ----- The whole pass -----

  /** v has been reset and its dependencies among the vertices collected. */
  ghost predicate IsReset<V(!new)>(g: Graph<V>, nodes: map<V, TarjanNode<V>>, v: V) {
    && v in nodes
    && nodes[v].index == -1 && !nodes[v].onStack
    && (forall w :: w in nodes[v].depNodes <==> Edge(g, v, w) && w in g)
  }

  lemma StartInv<V(!new)>(g: Graph<V>, nodes: map<V, TarjanNode<V>>)
    requires nodes.Keys == g.Keys && forall v :: v in g ==> IsReset(g, nodes, v)
    ensures DfsInv(g, Dfs(nodes, 0, [], []), {})
  {
    var d := Dfs(nodes, 0, [], []);
    assert d.comps == [];
    assert CompElems(d.comps) == {};
    assert Colours(g, d, {});
    assert SccList(g, d.comps);
    hide SccList, Colours, CompElems;
    assert Shape(g, d) by {
      forall v, w ensures w in DepNodes(d, v) <==> Edge(g, v, w) && w in g {
        if v in g { assert IsReset(g, nodes, v); }
      }
      forall v ensures Index(d, v) < 0 { if v in g { assert IsReset(g, nodes, v); } }
      forall v | v in d.nodes ensures !d.nodes[v].onStack { assert IsReset(g, nodes, v); }
    }
  }

  /** With no visit in progress the stack is empty. */
  lemma NoGray<V(!new)>(g: Graph<V>, d: Dfs<V>)
    requires DfsInv(g, d, {})
    ensures d.stack == []
  {
    assert |d.stack| == 0 || d.stack[0] in d.stack;
    forall y | y in d.stack ensures false { var x := GrayOf(g, d, {}, y); }
  }

  lemma PassDone<V(!new)>(g: Graph<V>, d: Dfs<V>)
    requires DfsInv(g, d, {}) && forall v :: v in g ==> Visited(d, v)
    ensures SccList(g, d.comps) && CompElems(d.comps) == g.Keys
  {
    NoGray(g, d);
    hide Colours, SccList, CompElems;
  }

  lemma VisitKeeps<V(!new)>(g: Graph<V>, d0: Dfs<V>, d1: Dfs<V>, v: V)
    requires VisitPost(g, d0, d1, v)
    ensures Visited(d1, v) && forall x :: Visited(d0, x) ==> Visited(d1, x)
    ensures d1.nodes.Keys == d0.nodes.Keys
    ensures forall x :: x in d0.nodes ==> d1.nodes[x].exec == d0.nodes[x].exec
  {
    hide LowBound, LowWitness;
  }

  lemma ReachesDown<V(!new)>(g: Graph<V>, comps: seq<seq<V>>, i: nat, j: nat, x: V, y: V)
    requires SccList(g, comps) && i < |comps| && j < |comps| && x in comps[i] && y in comps[j]
    requires Reach(g, x, y)
    ensures j <= i
  {
    hide Reach, CompElems;
    var s := comps[..i + 1];
    assert s[i] == comps[i];
    CompElemsIn(s, x);
    assert SccPart(g, comps[j]);
    ReachStays(g, CompElems(s), x, y);
    CompElemsIn(s, y);
    var k :| 0 <= k < |s| && y in s[k];
    assert y in comps[k];
  }

  /** The parts of such a list are exactly the maximal mutually dependent sets. */
  lemma SccMaximal<V(!new)>(g: Graph<V>, comps: seq<seq<V>>, i: nat, j: nat, x: V, y: V)
    requires SccList(g, comps) && i < |comps| && j < |comps| && x in comps[i] && y in comps[j]
    ensures i == j <==> Mutual(g, x, y)
    ensures Reach(g, x, y) ==> j <= i
  {
    if i == j {
      assert SccPart(g, comps[i]);
    } else {
      hide Reach;
      if Reach(g, x, y) { ReachesDown(g, comps, i, j, x, y); }
      if Reach(g, y, x) { ReachesDown(g, comps, j, i, y, x); }
    }
  }
}
