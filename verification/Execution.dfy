/** The executor of epaxos/execute.go: Tarjan's algorithm over the vertices that
    have not executed yet, then execution component by component. */
module Execution {
  import opened Graphs
  import opened Tarjan
  import opened ExecutionSpec

  /** The executables held by the vertices. */
  function Execs<V>(nodes: map<V, TarjanNode<V>>): Graph<V> {
    map v | v in nodes :: nodes[v].exec
  }

  function Min(a: int, b: int): int {
    if a < b then a else b
  }

  class Executor<V(==,!new)> {
    var vertices: map<V, TarjanNode<V>>
    var index: nat
    var stack: seq<V>
    var components: seq<seq<V>>

    ghost function State(): Dfs<V>
      reads this
    {
      Dfs(vertices, index, stack, components)
    }

    /** Between runs the per-run fields are at their initial values. */
    ghost predicate Valid()
      reads this
    {
      index == 0 && stack == [] && components == []
    }

    constructor ()
      ensures Valid() && vertices == map[]
    {
      vertices, index, stack, components := map[], 0, [], [];
    }

    method AddExec(v: V, exec: Exec<V>)
      requires Valid()
      modifies this
      ensures Valid()
      ensures Execs(vertices) == Execs(old(vertices))[v := exec]
    {
      vertices := vertices[v := TarjanNode(exec, [], 0, 0, false)];
    }

    method Push(v: V)
      modifies this`stack
      ensures stack == old(stack) + [v]
    {
      stack := stack + [v];
    }

    method Pop() returns (v: V)
      requires stack != []
      modifies this`stack
      ensures old(stack) == stack + [v]
    {
      var l := |stack| - 1;
      v := stack[l];
      stack := stack[..l];
    }

    /** The depth-first search from v. gray holds the vertices whose visit is in progress. */
    method Visit(v: V, ghost g: Graph<V>, ghost gray: set<V>)
      requires DfsInv(g, State(), gray) && v in g && !Visited(State(), v)
      requires forall s :: s in stack ==> Reach(g, s, v)
      modifies this
      ensures DfsInv(g, State(), gray) && VisitPost(g, old(State()), State(), v)
      decreases Unvisited(State())
    {
      hide DfsInv, InLoop, VisitPost, Unvisited, Reach;
      ghost var d0 := State();
      VertexIn(g, d0, gray, v);
      vertices := vertices[v := vertices[v].(index := index, lowlink := index)];
      index := index + 1;
      vertices := vertices[v := vertices[v].(onStack := true)];
      Push(v);
      PushInLoop(g, d0, gray, v);
      assert State() == Pushed(d0, v);

      var depNodes := vertices[v].depNodes;
      var k := 0;
      while k < |depNodes|
        invariant k <= |depNodes| && v in vertices && depNodes == DepNodes(State(), v)
        invariant InLoop(g, d0, State(), gray, v, k)
      {
        var w := depNodes[k];
        ghost var d := State();
        InLoopFacts(g, d0, d, gray, v, k);
        if vertices[w].index < 0 {
          forall s | s in stack ensures Reach(g, s, w) { LoopReaches(g, d0, d, gray, v, k, s); }
          Visit(w, g, gray + {v});
          ghost var d1 := State();
          FrameFacts(g, d, d1, v, w);
          vertices := vertices[v := vertices[v].(lowlink := Min(vertices[v].lowlink, vertices[w].lowlink))];
          AfterChild(g, d0, d, d1, gray, v, k, w);
          assert State() == Lowered(d1, v, Low(d1, w));
        } else {
          if vertices[w].onStack {
            vertices := vertices[v := vertices[v].(lowlink := Min(vertices[v].lowlink, vertices[w].index))];
            assert State() == Lowered(d, v, Index(d, w));
          }
          AfterSeen(g, d0, d, gray, v, k, w);
        }
        k := k + 1;
      }

      ghost var d := State();
      if vertices[v].lowlink == vertices[v].index {
        InLoopParts(g, d0, d, gray, v, k);
        var component := PopComponent(v, g, d0, gray);
        components := components + [component];
        FinishPop(g, d0, d, State(), gray, v, component);
      } else {
        FinishKeep(g, d0, d, gray, v);
      }
    }

    /** Pop the stack down to and including v. */
    method PopComponent(v: V, ghost g: Graph<V>, ghost d0: Dfs<V>, ghost gray: set<V>) returns (component: seq<V>)
      requires Shape(g, State()) && Entered(d0, State(), gray, v)
      modifies this`stack, this`vertices
      ensures Popped(d0, old(State()), State().(comps := old(components) + [component]), component)
    {
      hide Shape, PoppedSoFar, Popped;
      ghost var d, m := State(), |stack|;
      PopNone(d);
      EntryBelow(d0, d, gray, v);
      hide Entered;
      component := [];
      var done := false;
      while !done
        invariant |d0.stack| <= m <= |d.stack| && stack == d.stack[..m]
        invariant done <==> m == |d0.stack|
        invariant PoppedSoFar(d, m, component, vertices)
        decreases m
      {
        var w := Pop();
        PopOne(g, d, m, component, vertices);
        vertices := vertices[w := vertices[w].(onStack := false)];
        component := component + [w];
        done := w == v;
        m := m - 1;
        EntryAt(g, d0, d, gray, v, m);
      }
      PopAll(g, d0, d, gray, v, component, vertices);
    }

    method DepNodesOf(deps: seq<V>) returns (depNodes: seq<V>)
      ensures forall w :: w in depNodes <==> w in deps && w in vertices
    {
      depNodes := [];
      for k := 0 to |deps|
        invariant forall w :: w in depNodes <==> w in deps[..k] && w in vertices
      {
        if deps[k] in vertices { depNodes := depNodes + [deps[k]]; }
      }
      assert deps[..|deps|] == deps;
    }

    method ResetNodes(ghost g: Graph<V>)
      requires Execs(vertices) == g
      modifies this`vertices
      ensures Execs(vertices) == g && forall v :: v in g ==> IsReset(g, vertices, v)
    {
      var todo := vertices.Keys;
      while todo != {}
        invariant todo <= g.Keys && Execs(vertices) == g
        invariant forall v :: v in g && v !in todo ==> IsReset(g, vertices, v)
      {
        assert vertices.Keys == Execs(vertices).Keys;
        var v :| v in todo;
        var depNodes := DepNodesOf(vertices[v].exec.deps);
        assert vertices[v].exec == g[v];
        vertices := vertices[v := vertices[v].(depNodes := depNodes, index := -1, lowlink := -1, onStack := false)];
        assert Execs(vertices) == g;
        todo := todo - {v};
      }
    }

    /** Tarjan's algorithm. Whatever order the vertices are taken in, the result
        lists the strongly connected components, dependencies first. */
    method StrongConnect() returns (comps: seq<seq<V>>)
      requires Valid()
      modifies this
      ensures Execs(vertices) == Execs(old(vertices))
      ensures SccList(Execs(vertices), comps) && CompElems(comps) == vertices.Keys
    {
      hide Reach, SccList, CompElems, DfsInv, VisitPost;
      ghost var g := Execs(vertices);
      ResetNodes(g);
      assert vertices.Keys == Execs(vertices).Keys;
      StartInv(g, vertices);
      hide IsReset;
      var todo := vertices.Keys;
      while todo != {}
        invariant todo <= g.Keys && vertices.Keys == g.Keys && Execs(vertices) == g
        invariant DfsInv(g, State(), {})
        invariant forall v :: v in g && v !in todo ==> Visited(State(), v)
      {
        var v :| v in todo;
        if vertices[v].index < 0 {
          ghost var d := State();
          NoGray(g, d);
          Visit(v, g, {});
          VisitKeeps(g, d, State(), v);
        }
        todo := todo - {v};
      }
      comps := components;
      PassDone(g, State());
    }

    /** A dependency outside the component that has not executed blocks the component. */
    method Blocked(comp: seq<V>, h: set<V>, ex: seq<V>) returns (blocked: bool)
      requires forall x :: x in comp ==> x in vertices
      ensures blocked <==> !Executable(Execs(vertices), h, ex, comp)
    {
      ghost var g := Execs(vertices);
      for i := 0 to |comp|
        invariant forall x, d :: x in comp[..i] && Edge(g, x, d) ==> d in comp || d in h || d in ex
      {
        var v := comp[i];
        assert v in comp;
        var deps := vertices[v].exec.deps;
        for k := 0 to |deps|
          invariant forall d :: d in deps[..k] ==> d in comp || d in h || d in ex
        {
          var dep := deps[k];
          if dep in vertices && dep in comp {
            continue;
          }
          if !(dep in h || dep in ex) {
            assert Edge(g, v, dep);
            return true;
          }
        }
        assert deps[..|deps|] == deps;
        assert forall x :: x in comp[..i + 1] ==> x in comp[..i] || x == v;
      }
      assert comp[..|comp|] == comp;
      return false;
    }

    /** sort.Slice by ExecutesBefore: some arrangement that no pair contradicts. */
    method SortComponent(comp: seq<V>) returns (sorted: seq<V>)
      requires NoDup(comp) && forall x :: x in comp ==> x in vertices
      ensures SortedBy(Execs(vertices), sorted) && NoDup(sorted) && forall x :: x in sorted <==> x in comp
    {
      var g := Execs(vertices);
      sorted := [];
      for i := 0 to |comp|
        invariant SortedBy(g, sorted) && NoDup(sorted)
        invariant forall x :: x in sorted <==> x in comp[..i]
      {
        assert comp[i] in comp && comp[i] !in comp[..i];
        assert forall x :: x in sorted ==> x in g;
        InsertSorted(g, comp[i], sorted);
        InsertElems(g, comp[i], sorted);
        sorted := Insert(g, comp[i], sorted);
        assert forall x :: x in comp[..i + 1] <==> x in comp[..i] || x == comp[i];
        hide SortedBy, Insert, NoDup;
      }
      assert comp[..|comp|] == comp;
    }

    /** Execute a component whole, in tie-break order, or not at all. */
    method ExecuteScc(comp: seq<V>, h: set<V>, ex: seq<V>) returns (run: seq<V>)
      requires NoDup(comp) && forall x :: x in comp ==> x in vertices
      modifies this`vertices
      ensures Executable(Execs(old(vertices)), h, ex, comp) ==>
                SortedBy(Execs(old(vertices)), run) && NoDup(run) && forall x :: x in run <==> x in comp
      ensures !Executable(Execs(old(vertices)), h, ex, comp) ==> run == []
      ensures vertices == old(vertices) - Elems(run)
    {
      hide Executable, SortedBy, NoDup;
      run := [];
      var blocked := Blocked(comp, h, ex);
      if blocked {
        return;
      }
      var sorted := SortComponent(comp);
      for i := 0 to |sorted|
        invariant run == sorted[..i]
        invariant vertices == old(vertices) - Elems(run)
      {
        vertices := vertices - {sorted[i]};
        run := run + [sorted[i]];
      }
      assert sorted[..|sorted|] == sorted;
    }

    /** One run: execute every vertex that is ready, dependencies first. */
    method Run(h: set<V>) returns (ex: seq<V>)
      requires Valid() && vertices.Keys !! h
      modifies this
      ensures Valid()
      ensures RunSpec(Execs(old(vertices)), h, ex)
      ensures Execs(vertices) == Execs(old(vertices)) - Elems(ex)
    {
      hide Reach, SccList, CompElems, ExecutedUpTo, Executable, SortedBy, RunSpec;
      ghost var g := Execs(vertices);
      var comps := StrongConnect();
      ex := [];
      ExecutedNone(g, h, comps);
      for k := 0 to |comps|
        invariant ExecutedUpTo(g, h, comps, k, ex)
        invariant Execs(vertices) == g - Elems(ex)
      {
        ghost var before := vertices;
        CompPending(g, h, comps, k, ex);
        Shrunk(g, Execs(vertices), h, ex, comps[k]);
        assert vertices.Keys == Execs(vertices).Keys;
        var run := ExecuteScc(comps[k], h, ex);
        if Executable(g, h, ex, comps[k]) {
          ExecutedNext(g, h, comps, k, ex, run);
        } else {
          ExecutedSkip(g, h, comps, k, ex);
          assert ex + run == ex;
        }
        ex := ex + run;
        assert Elems(ex) == Elems(ex[..|ex| - |run|]) + Elems(run);
      }
      ExecutedAll(g, h, comps, ex);
      index, stack, components := 0, [], [];
    }
  }
}
