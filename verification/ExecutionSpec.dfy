/** What one run of the executor must do, stated without Tarjan's algorithm:
    which vertices execute and in which order (epaxos/execute.go). */
module ExecutionSpec {
  import opened Graphs
  import opened Tarjan

  /** ExecutesBefore of epaxos/instance.go: sequence number, then replica. */
  predicate Before<V>(a: Exec<V>, b: Exec<V>) {
    if a.seqNum != b.seqNum then a.seqNum < b.seqNum else a.replica < b.replica
  }

  /** x is not blocked: everything it transitively depends on is at hand or was executed earlier. */
  ghost predicate Ready<V(!new)>(g: Graph<V>, h: set<V>, x: V) {
    forall y :: Reach(g, x, y) ==> y in g || y in h
  }

  /** y depends on x, and either x does not depend on y or the tie-break puts x first. */
  ghost predicate MustPrecede<V(!new)>(g: Graph<V>, x: V, y: V) {
    && x in g && y in g
    && Reach(g, y, x)
    && (Reach(g, x, y) ==> Before(g[x], g[y]))
  }

  ghost predicate Ordered<V(!new)>(g: Graph<V>, ex: seq<V>) {
    forall i, j :: 0 <= i < j < |ex| ==> !MustPrecede(g, ex[j], ex[i])
  }

  /** If ex[i] and ex[k] are of one component, then so is what executes between them. */
  ghost predicate Between<V(!new)>(g: Graph<V>, ex: seq<V>, i: nat, j: nat, k: nat)
    requires i < j < k < |ex|
  {
    Mutual(g, ex[i], ex[k]) ==> Mutual(g, ex[i], ex[j])
  }

  /** The members of a component execute without interruption. */
  ghost predicate Contiguous<V(!new)>(g: Graph<V>, ex: seq<V>) {
    forall i: nat, j: nat, k: nat :: i < j < k < |ex| ==> Between(g, ex, i, j, k)
  }

  /** One run over the vertices of g with execution history h executes ex. */
  ghost predicate RunSpec<V(!new)>(g: Graph<V>, h: set<V>, ex: seq<V>) {
    && NoDup(ex)
    && (forall x :: x in ex <==> x in g && Ready(g, h, x))
    && Ordered(g, ex)
    && Contiguous(g, ex)
  }

  // ----- Sorting a component -----

  function Insert<V(==)>(g: Graph<V>, x: V, s: seq<V>): seq<V>
    requires x in g && forall y :: y in s ==> y in g
  {
    if s == [] then [x]
    else if Before(g[x], g[s[0]]) then [x] + s
    else [s[0]] + Insert(g, x, s[1..])
  }

  ghost predicate SortedBy<V>(g: Graph<V>, s: seq<V>) {
    && (forall i :: 0 <= i < |s| ==> s[i] in g)
    && (forall i, j :: 0 <= i < j < |s| ==> !Before(g[s[j]], g[s[i]]))
  }

  lemma {:induction false} InsertElems<V(!new)>(g: Graph<V>, x: V, s: seq<V>)
    requires x in g && forall y :: y in s ==> y in g
    ensures forall y :: y in Insert(g, x, s) <==> y in s || y == x
  {
    if s != [] && !Before(g[x], g[s[0]]) {
      InsertElems(g, x, s[1..]);
      assert s == [s[0]] + s[1..];
    }
  }

  lemma {:induction false} InsertSorted<V(!new)>(g: Graph<V>, x: V, s: seq<V>)
    requires x in g && (forall y :: y in s ==> y in g) && SortedBy(g, s) && NoDup(s) && x !in s
    ensures SortedBy(g, Insert(g, x, s)) && NoDup(Insert(g, x, s))
  {
    InsertElems(g, x, s);
    if s != [] && !Before(g[x], g[s[0]]) {
      var t := s[1..];
      assert forall i :: 0 <= i < |t| ==> t[i] == s[i + 1];
      assert forall y :: y in t ==> y in s;
      InsertSorted(g, x, t);
      InsertElems(g, x, t);
      var u := Insert(g, x, t);
      forall j | 0 <= j < |u| ensures u[j] != s[0] && !Before(g[u[j]], g[s[0]]) {
        assert u[j] in u;
        if u[j] != x {
          var i :| 0 <= i < |t| && t[i] == u[j];
        }
      }
    }
  }

  // ----- Executing the components in order -----

  /** After the first k components, ex has been executed. */
  ghost predicate ExecutedUpTo<V(!new)>(g: Graph<V>, h: set<V>, comps: seq<seq<V>>, k: nat, ex: seq<V>)
    requires k <= |comps|
  {
    && NoDup(ex)
    && (forall x :: x in ex <==> x in CompElems(comps[..k]) && Ready(g, h, x))
    && Ordered(g, ex)
    && Contiguous(g, ex)
  }

  /** What executeSCC tests: every dependency is in the component or already executed. */
  ghost predicate Executable<V(!new)>(g: Graph<V>, h: set<V>, ex: seq<V>, comp: seq<V>) {
    forall x, d :: x in comp && Edge(g, x, d) ==> d in comp || d in h || d in ex
  }

  lemma CompOf<V(!new)>(comps: seq<seq<V>>, k: nat, x: V)
    requires k < |comps|
    ensures x in CompElems(comps[..k + 1]) <==> x in CompElems(comps[..k]) || x in comps[k]
  {
    assert comps[..k + 1][..k] == comps[..k];
  }

  lemma CompDisjoint<V(!new)>(g: Graph<V>, comps: seq<seq<V>>, k: nat, x: V)
    requires SccList(g, comps) && k < |comps| && x in comps[k]
    ensures x !in CompElems(comps[..k])
  {
    hide ClosedIn, SccPart, CompElems;
    CompElemsIn(comps[..k], x);
  }

  /** A ready vertex passes on readiness along its dependencies. */
  lemma ReadyDep<V(!new)>(g: Graph<V>, h: set<V>, x: V, y: V)
    requires Ready(g, h, x) && Reach(g, x, y)
    ensures Ready(g, h, y)
  {
    forall z | Reach(g, y, z) ensures z in g || z in h {
      hide Reach;
      ReachTrans(g, x, y, z);
    }
  }

  /** Readiness of one member makes the whole component executable. */
  lemma ReadyExecutable<V(!new)>(g: Graph<V>, h: set<V>, comps: seq<seq<V>>, k: nat, ex: seq<V>, x: V)
    requires SccList(g, comps) && k < |comps| && ExecutedUpTo(g, h, comps, k, ex)
    requires x in comps[k] && Ready(g, h, x)
    ensures Executable(g, h, ex, comps[k])
  {
    forall y, d | y in comps[k] && Edge(g, y, d) ensures d in comps[k] || d in h || d in ex {
      hide Reach, CompElems, Ordered, NoDup, Contiguous;
      assert SccPart(g, comps[k]);
      ReachEdge(g, y, d);
      ReadyDep(g, h, x, y);
      ReadyDep(g, h, y, d);
      if d in g {
        assert ClosedIn(g, CompElems(comps[..k + 1]));
        CompOf(comps, k, y);
        CompOf(comps, k, d);
      } else {
        assert d in h;
      }
    }
  }

  /** Executed vertices and the history depend on nothing outside them. */
  lemma ExecutedClosed<V(!new)>(g: Graph<V>, h: set<V>, comps: seq<seq<V>>, k: nat, ex: seq<V>, x: V, d: V)
    requires SccList(g, comps) && k <= |comps| && ExecutedUpTo(g, h, comps, k, ex)
    requires x in ex && Edge(g, x, d)
    ensures d in ex || d in h
  {
    hide Reach, CompElems, Ordered, NoDup, SccPart, Contiguous;
    ReachEdge(g, x, d);
    ReadyDep(g, h, x, d);
    if d in g {
      assert ClosedIn(g, CompElems(comps[..k]));
    } else {
      assert d in h;
    }
  }

  lemma InComp<V(!new)>(g: Graph<V>, comps: seq<seq<V>>, k: nat, y: V)
    requires SccList(g, comps) && k <= |comps| && y in CompElems(comps[..k])
    ensures y in g
  {
    hide ClosedIn, CompElems, Reach;
    CompElemsIn(comps[..k], y);
    var i :| 0 <= i < k && y in comps[..k][i];
    assert SccPart(g, comps[i]);
  }

  /** An executable component is ready: nothing it depends on is missing. */
  lemma ExecutableReady<V(!new)>(g: Graph<V>, h: set<V>, comps: seq<seq<V>>, k: nat, ex: seq<V>, x: V)
    requires SccList(g, comps) && k < |comps| && ExecutedUpTo(g, h, comps, k, ex)
    requires g.Keys !! h
    requires Executable(g, h, ex, comps[k]) && x in comps[k]
    ensures Ready(g, h, x)
  {
    hide Reach;
    var s := Elems(comps[k]) + h + Elems(ex);
    assert Closed(g, s) by {
      hide SccList, ExecutedUpTo;
      forall a, b | a in s && Edge(g, a, b) ensures b in s {
        if a in ex { ExecutedClosed(g, h, comps, k, ex, a, b); }
      }
    }
    assert forall y :: y in s ==> y in g || y in h by {
      forall y | y in ex ensures y in g {
        hide Ordered, SccPart;
        assert Ready(g, h, y);
        ReachRefl(g, y);
        CompElemsIn(comps[..k], y);
        InComp(g, comps, k, y);
      }
      assert SccPart(g, comps[k]);
    }
    forall y | Reach(g, x, y) ensures y in g || y in h { ReachClosed(g, s, x, y); }
  }

  lemma NoWayBack<V(!new)>(g: Graph<V>, comps: seq<seq<V>>, k: nat, x: V, y: V)
    requires SccList(g, comps) && k < |comps| && x in CompElems(comps[..k]) && y in comps[k]
    ensures !Reach(g, x, y)
  {
    hide Reach, CompElems;
    CompDisjoint(g, comps, k, y);
    assert SccPart(g, comps[k]);
    if Reach(g, x, y) { ReachStays(g, CompElems(comps[..k]), x, y); }
  }

  lemma SamePart<V(!new)>(g: Graph<V>, comp: seq<V>, x: V, y: V)
    requires SccPart(g, comp) && x in comp && y in comp
    ensures Mutual(g, x, y)
  {
    hide Reach;
  }

  /** A component may follow everything executed before it. */
  lemma AppendOrdered<V(!new)>(g: Graph<V>, h: set<V>, comps: seq<seq<V>>, k: nat, ex: seq<V>, sorted: seq<V>)
    requires SccList(g, comps) && k < |comps| && ExecutedUpTo(g, h, comps, k, ex)
    requires SortedBy(g, sorted) && (forall x :: x in sorted <==> x in comps[k])
    ensures Ordered(g, ex + sorted)
  {
    var r := ex + sorted;
    forall i, j | 0 <= i < j < |r| ensures !MustPrecede(g, r[j], r[i]) {
      hide Reach, CompElems, SccPart, Contiguous;
      if j < |ex| {
      } else if i < |ex| {
        assert r[j] in sorted && r[i] in ex;
        NoWayBack(g, comps, k, r[i], r[j]);
      } else {
        assert r[i] in sorted && r[j] in sorted;
        SamePart(g, comps[k], r[i], r[j]);
      }
    }
  }

  /** A component that follows is executed without interruption. */
  lemma AppendContiguous<V(!new)>(g: Graph<V>, h: set<V>, comps: seq<seq<V>>, n: nat, ex: seq<V>, sorted: seq<V>)
    requires SccList(g, comps) && n < |comps| && ExecutedUpTo(g, h, comps, n, ex)
    requires forall x :: x in sorted <==> x in comps[n]
    ensures Contiguous(g, ex + sorted)
  {
    hide Reach, CompElems, SccPart, Ordered;
    var r := ex + sorted;
    forall i: nat, j: nat, k: nat | i < j < k < |r| ensures Between(g, r, i, j, k) {
      if k < |ex| {
        assert Between(g, ex, i, j, k);
      } else if i < |ex| {
        assert r[k] in sorted && r[i] in ex;
        NoWayBack(g, comps, n, r[i], r[k]);
      } else {
        assert r[i] in sorted && r[j] in sorted;
        assert SccPart(g, comps[n]);
        SamePart(g, comps[n], r[i], r[j]);
      }
    }
  }

  lemma AppendNoDup<V(!new)>(g: Graph<V>, h: set<V>, comps: seq<seq<V>>, k: nat, ex: seq<V>, sorted: seq<V>)
    requires SccList(g, comps) && k < |comps| && ExecutedUpTo(g, h, comps, k, ex)
    requires NoDup(sorted) && (forall x :: x in sorted <==> x in comps[k])
    ensures NoDup(ex + sorted)
  {
    var r := ex + sorted;
    forall i, j | 0 <= i < j < |r| ensures r[i] != r[j] {
      hide Reach, CompElems, SccList, Contiguous;
      if i < |ex| <= j {
        assert r[j] in sorted && r[i] in ex;
        CompDisjoint(g, comps, k, r[j]);
      }
    }
  }

  /** executeSCC on the next component keeps the account: the component executes whole, */
  lemma ExecutedNext<V(!new)>(g: Graph<V>, h: set<V>, comps: seq<seq<V>>, k: nat, ex: seq<V>, sorted: seq<V>)
    requires SccList(g, comps) && k < |comps| && ExecutedUpTo(g, h, comps, k, ex) && g.Keys !! h
    requires SortedBy(g, sorted) && NoDup(sorted) && (forall x :: x in sorted <==> x in comps[k])
    requires Executable(g, h, ex, comps[k])
    ensures ExecutedUpTo(g, h, comps, k + 1, ex + sorted)
  {
    forall x ensures x in CompElems(comps[..k + 1]) <==> x in CompElems(comps[..k]) || x in comps[k] {
      CompOf(comps, k, x);
    }
    hide CompElems, SccList, Ready, Executable, Ordered, NoDup, Contiguous;
    AppendOrdered(g, h, comps, k, ex, sorted);
    AppendNoDup(g, h, comps, k, ex, sorted);
    AppendContiguous(g, h, comps, k, ex, sorted);
    forall x | x in comps[k] ensures Ready(g, h, x) { ExecutableReady(g, h, comps, k, ex, x); }
  }

  /** or none of it does. */
  lemma ExecutedSkip<V(!new)>(g: Graph<V>, h: set<V>, comps: seq<seq<V>>, k: nat, ex: seq<V>)
    requires SccList(g, comps) && k < |comps| && ExecutedUpTo(g, h, comps, k, ex)
    requires !Executable(g, h, ex, comps[k])
    ensures ExecutedUpTo(g, h, comps, k + 1, ex)
  {
    forall x ensures x in CompElems(comps[..k + 1]) <==> x in CompElems(comps[..k]) || x in comps[k] {
      CompOf(comps, k, x);
    }
    hide CompElems, SccList, Ready, Executable, Ordered, NoDup, Contiguous;
    forall x | x in comps[k] ensures !Ready(g, h, x) {
      if Ready(g, h, x) { ReadyExecutable(g, h, comps, k, ex, x); }
    }
  }

  lemma ExecutedAll<V(!new)>(g: Graph<V>, h: set<V>, comps: seq<seq<V>>, ex: seq<V>)
    requires CompElems(comps) == g.Keys && ExecutedUpTo(g, h, comps, |comps|, ex)
    ensures RunSpec(g, h, ex)
  {
    hide CompElems, Ready, Ordered, NoDup, Contiguous;
    assert comps[..|comps|] == comps;
  }

  lemma ExecutedNone<V(!new)>(g: Graph<V>, h: set<V>, comps: seq<seq<V>>)
    ensures ExecutedUpTo(g, h, comps, 0, [])
  {
    assert comps[..0] == [];
    assert CompElems(comps[..0]) == {};
  }

  /** The vertices of the next component are still waiting. */
  lemma CompPending<V(!new)>(g: Graph<V>, h: set<V>, comps: seq<seq<V>>, k: nat, ex: seq<V>)
    requires SccList(g, comps) && k < |comps| && ExecutedUpTo(g, h, comps, k, ex)
    ensures NoDup(comps[k]) && forall x :: x in comps[k] ==> x in g && x !in ex
  {
    assert SccPart(g, comps[k]) by { hide ClosedIn, CompElems, Reach; }
    hide SccList, CompElems, Reach, Ready, Ordered, Contiguous;
    forall x | x in comps[k] ensures x !in ex { CompDisjoint(g, comps, k, x); }
  }

  /** Dropping executed vertices does not change what a waiting component looks like. */
  lemma Shrunk<V(!new)>(g: Graph<V>, g': Graph<V>, h: set<V>, ex: seq<V>, comp: seq<V>)
    requires g' == g - Elems(ex) && forall x :: x in comp ==> x in g && x !in ex
    ensures Executable(g', h, ex, comp) <==> Executable(g, h, ex, comp)
    ensures forall s :: SortedBy(g', s) ==> SortedBy(g, s)
  {
    assert forall x, d :: x in comp ==> (Edge(g', x, d) <==> Edge(g, x, d));
    hide Edge;
  }
}
