/** What any interleaving of addExec and run amounts to (epaxos/execute.go). */
module Confluence {
  import opened Graphs
  import opened ExecutionSpec

  // ----- One more run -----

  /** p holds some of the vertices of g, none of them executed, and the executed ones are closed. */
  ghost predicate Pending<V(!new)>(g: Graph<V>, p: Graph<V>, done: seq<V>) {
    && (forall v :: v in p ==> v in g && g[v] == p[v] && v !in done)
    && Closed(g, Elems(done))
  }

  lemma ReadyMore<V(!new)>(p: Graph<V>, h: set<V>, h': set<V>, x: V)
    requires Ready(p, h, x) && h <= h'
    ensures Ready(p, h', x)
  {
    hide Reach;
  }

  /** A run that knows of some of the executed vertices. */
  lemma RunClosed<V(!new)>(g: Graph<V>, p: Graph<V>, done: seq<V>, h: set<V>, ex: seq<V>)
    requires Pending(g, p, done) && h <= Elems(done) && RunSpec(p, h, ex)
    ensures Closed(g, Elems(done + ex))
  {
    forall a, b | a in Elems(done + ex) && Edge(g, a, b) ensures b in Elems(done + ex) {
      hide Reach, Ordered, NoDup, Contiguous;
      if a in ex {
        assert Edge(p, a, b);
        ReachEdge(p, a, b);
        ReadyDep(p, h, a, b);
      }
    }
  }

  /** Between vertices of one run, the whole graph has no path that the pending part has not. */
  lemma ReachPending<V(!new)>(g: Graph<V>, p: Graph<V>, done: seq<V>, x: V, y: V)
    requires Pending(g, p, done) && Ready(p, Elems(done), x) && x in p && y in p
    ensures Reach(g, x, y) <==> Reach(p, x, y)
  {
    hide Reach;
    if Reach(p, x, y) {
      ReachMono(p, g, x, y);
    }
    if Reach(g, x, y) {
      var s := (set z | z in p && Reach(p, x, z)) + Elems(done);
      ReachRefl(p, x);
      forall a, b | a in s && Edge(g, a, b) ensures b in s {
        if a in p {
          assert Edge(p, a, b);
          ReachEdge(p, a, b);
          ReachTrans(p, x, a, b);
        }
      }
      ReachClosed(g, s, x, y);
    }
  }

  lemma RunOrdered<V(!new)>(g: Graph<V>, p: Graph<V>, done: seq<V>, h: set<V>, ex: seq<V>)
    requires Pending(g, p, done) && h <= Elems(done) && RunSpec(p, h, ex) && Ordered(g, done)
    ensures Ordered(g, done + ex)
  {
    var r := done + ex;
    forall i, j | 0 <= i < j < |r| ensures !MustPrecede(g, r[j], r[i]) {
      hide Reach, Ready, Contiguous;
      if j < |done| {
      } else if i < |done| {
        assert r[i] in done && r[j] in ex;
        if Reach(g, r[i], r[j]) { ReachClosed(g, Elems(done), r[i], r[j]); }
      } else {
        assert r[i] in ex && r[j] in ex;
        ReadyMore(p, h, Elems(done), r[i]);
        ReadyMore(p, h, Elems(done), r[j]);
        ReachPending(g, p, done, r[i], r[j]);
        ReachPending(g, p, done, r[j], r[i]);
        assert !MustPrecede(p, ex[j - |done|], ex[i - |done|]);
      }
    }
  }

  lemma RunNoDup<V(!new)>(g: Graph<V>, p: Graph<V>, done: seq<V>, h: set<V>, ex: seq<V>)
    requires Pending(g, p, done) && h <= Elems(done) && RunSpec(p, h, ex) && NoDup(done)
    ensures NoDup(done + ex)
  {
    hide Reach, Ready, Ordered, Closed, Contiguous;
    var r := done + ex;
    forall i, j | 0 <= i < j < |r| ensures r[i] != r[j] {
      if i < |done| <= j { assert r[i] in done && r[j] in ex; }
    }
  }

  lemma MutualPending<V(!new)>(g: Graph<V>, p: Graph<V>, done: seq<V>, x: V, y: V)
    requires Pending(g, p, done) && x in p && y in p && Ready(p, Elems(done), x) && Ready(p, Elems(done), y)
    ensures Mutual(g, x, y) <==> Mutual(p, x, y)
  {
    hide Reach, Ready;
    ReachPending(g, p, done, x, y);
    ReachPending(g, p, done, y, x);
  }

  lemma RunContiguous<V(!new)>(g: Graph<V>, p: Graph<V>, done: seq<V>, h: set<V>, ex: seq<V>)
    requires Pending(g, p, done) && h <= Elems(done) && RunSpec(p, h, ex) && Contiguous(g, done)
    ensures Contiguous(g, done + ex)
  {
    hide Reach, Ready, Ordered, NoDup;
    var r, n := done + ex, |done|;
    forall i: nat, j: nat, k: nat | i < j < k < |r| ensures Between(g, r, i, j, k) {
      if k < n {
        assert Between(g, done, i, j, k);
      } else if i < n {
        assert r[i] in done && r[k] in ex;
        if Reach(g, r[i], r[k]) { ReachClosed(g, Elems(done), r[i], r[k]); }
      } else {
        assert r[i] in ex && r[j] in ex && r[k] in ex;
        ReadyMore(p, h, Elems(done), r[i]);
        ReadyMore(p, h, Elems(done), r[j]);
        ReadyMore(p, h, Elems(done), r[k]);
        MutualPending(g, p, done, r[i], r[k]);
        MutualPending(g, p, done, r[i], r[j]);
        assert Between(p, ex, i - n, j - n, k - n);
      }
    }
  }

  /** When nothing but the pending and the executed vertices is known, the
      executed sequence is what one run over everything would execute. */
  lemma RunIsBatch<V(!new)>(g: Graph<V>, p: Graph<V>, done: seq<V>, ex: seq<V>)
    requires Pending(g, p, done) && RunSpec(p, Elems(done), ex) && NoDup(done) && Ordered(g, done)
    requires Contiguous(g, done)
    requires forall v :: v in g <==> v in p || v in done
    ensures RunSpec(g, {}, done + ex)
  {
    RunClosed(g, p, done, Elems(done), ex);
    RunOrdered(g, p, done, Elems(done), ex);
    RunNoDup(g, p, done, Elems(done), ex);
    RunContiguous(g, p, done, Elems(done), ex);
    hide Reach, Ordered, NoDup, Closed, Contiguous;
    forall x ensures x in done + ex <==> x in g && Ready(g, {}, x) {
      if x in done + ex {
        forall y | Reach(g, x, y) ensures y in g { ReachClosed(g, Elems(done + ex), x, y); }
      } else if x in g && Ready(g, {}, x) {
        forall y | Reach(p, x, y) ensures y in p || y in Elems(done) { ReachMono(p, g, x, y); }
      }
    }
  }

  // ----- Every interleaving -----

  datatype Op<V> = Add(v: V, exec: Exec<V>) | Run(ex: seq<V>)

  datatype ExecState<V> = ExecState(pending: Graph<V>, executed: seq<V>)

  ghost predicate Step<V(!new)>(s: ExecState<V>, op: Op<V>, s': ExecState<V>) {
    match op
    case Add(v, exec) =>
      && v !in s.pending && v !in s.executed
      && s' == ExecState(s.pending[v := exec], s.executed)
    case Run(ex) =>
      && RunSpec(s.pending, Elems(s.executed), ex)
      && s' == ExecState(s.pending - Elems(ex), s.executed + ex)
  }

  ghost predicate IsTrace<V(!new)>(ops: seq<Op<V>>, states: seq<ExecState<V>>) {
    && |states| == |ops| + 1
    && states[0] == ExecState(map[], [])
    && forall i :: 0 <= i < |ops| ==> Step(states[i], ops[i], states[i + 1])
  }

  /** All executables ever added. */
  ghost function Added<V>(ops: seq<Op<V>>): Graph<V> {
    if ops == [] then map[] else
      var g := Added(ops[..|ops| - 1]);
      var op := ops[|ops| - 1];
      if op.Add? then g[op.v := op.exec] else g
  }

  ghost predicate Account<V(!new)>(g: Graph<V>, s: ExecState<V>) {
    && (forall v :: v in g <==> v in s.pending || v in s.executed)
    && Pending(g, s.pending, s.executed)
    && NoDup(s.executed)
    && Ordered(g, s.executed)
    && Contiguous(g, s.executed)
  }

  /** Graphs that agree on a closed set order it alike and have the same components in it. */
  lemma AgreeInOrder<V(!new)>(g: Graph<V>, g': Graph<V>, done: seq<V>)
    requires Closed(g, Elems(done)) && Ordered(g, done) && Contiguous(g, done)
    requires forall x :: x in done ==> x in g && x in g' && g'[x] == g[x]
    ensures Closed(g', Elems(done)) && Ordered(g', done) && Contiguous(g', done)
  {
    hide Reach;
    var e := Elems(done);
    forall a, b | a in e && Edge(g', a, b) ensures b in e { assert Edge(g, a, b); }
    forall i, j | 0 <= i < |done| && 0 <= j < |done|
      ensures Reach(g, done[i], done[j]) <==> Reach(g', done[i], done[j])
    {
      assert done[i] in e;
      ReachAgree(g, g', e, done[i], done[j]);
    }
    forall i, j | 0 <= i < j < |done| ensures !MustPrecede(g', done[j], done[i]) {
      assert !MustPrecede(g, done[j], done[i]);
    }
    forall i: nat, j: nat, k: nat | i < j < k < |done| ensures Between(g', done, i, j, k) {
      assert Between(g, done, i, j, k);
    }
  }

  lemma AddKeeps<V(!new)>(g: Graph<V>, s: ExecState<V>, v: V, exec: Exec<V>)
    requires Account(g, s) && v !in g
    ensures Account(g[v := exec], ExecState(s.pending[v := exec], s.executed))
  {
    hide Ordered, NoDup, Closed, Contiguous;
    AgreeInOrder(g, g[v := exec], s.executed);
  }

  lemma RunKeeps<V(!new)>(g: Graph<V>, s: ExecState<V>, ex: seq<V>)
    requires Account(g, s) && RunSpec(s.pending, Elems(s.executed), ex)
    ensures Account(g, ExecState(s.pending - Elems(ex), s.executed + ex))
    ensures RunSpec(g, {}, s.executed + ex)
  {
    RunClosed(g, s.pending, s.executed, Elems(s.executed), ex);
    RunOrdered(g, s.pending, s.executed, Elems(s.executed), ex);
    RunNoDup(g, s.pending, s.executed, Elems(s.executed), ex);
    RunContiguous(g, s.pending, s.executed, Elems(s.executed), ex);
    RunIsBatch(g, s.pending, s.executed, ex);
    hide Ordered, Closed, NoDup, Ready, Contiguous;
  }

  lemma {:induction false} TraceAccount<V(!new)>(ops: seq<Op<V>>, states: seq<ExecState<V>>)
    requires IsTrace(ops, states)
    ensures Account(Added(ops), states[|ops|])
    ensures ops != [] && ops[|ops| - 1].Run? ==> RunSpec(Added(ops), {}, states[|ops|].executed)
  {
    if ops == [] {
      assert Added(ops) == map[];
    } else {
      hide Ordered, Closed, NoDup, Ready, RunSpec, Contiguous;
      var n := |ops| - 1;
      TraceAccount(ops[..n], states[..n + 1]);
      var g, s, op := Added(ops[..n]), states[n], ops[n];
      assert Step(s, op, states[n + 1]);
      match op {
        case Add(v, exec) => AddKeeps(g, s, v, exec);
        case Run(ex) => RunKeeps(g, s, ex);
      }
    }
  }

  /** After any interleaving of additions and runs that ends with a run, the
      executed sequence is one that a single run over all additions may
      produce; in particular the executed set is the set of vertices whose whole
      dependency closure was added, whatever the interleaving and the order in
      which maps are iterated. */
  lemma RunsConfluent<V(!new)>(ops: seq<Op<V>>, states: seq<ExecState<V>>, ops': seq<Op<V>>, states': seq<ExecState<V>>)
    requires IsTrace(ops, states) && ops != [] && ops[|ops| - 1].Run?
    requires IsTrace(ops', states') && ops' != [] && ops'[|ops'| - 1].Run?
    requires Added(ops) == Added(ops')
    ensures RunSpec(Added(ops), {}, states[|ops|].executed)
    ensures Elems(states[|ops|].executed) == Elems(states'[|ops'|].executed)
  {
    TraceAccount(ops, states);
    TraceAccount(ops', states');
    hide Account, IsTrace, Added, Ready, Ordered, Contiguous;
  }

  // ----- Order -----

  predicate Precedes<V(==)>(ex: seq<V>, x: V, y: V) {
    exists i, j :: 0 <= i < j < |ex| && ex[i] == x && ex[j] == y
  }

  lemma ForcedOrder<V(!new)>(g: Graph<V>, ex: seq<V>, x: V, y: V)
    requires Ordered(g, ex) && MustPrecede(g, x, y) && x in ex && y in ex && x != y
    ensures Precedes(ex, x, y)
  {
    hide MustPrecede;
    var i :| 0 <= i < |ex| && ex[i] == x;
    var j :| 0 <= j < |ex| && ex[j] == y;
    assert forall a, b :: 0 <= b < a < |ex| ==> !MustPrecede(g, ex[a], ex[b]);
  }

  lemma NotBoth<V(!new)>(ex: seq<V>, x: V, y: V)
    requires NoDup(ex) && Precedes(ex, x, y)
    ensures !Precedes(ex, y, x)
  {
  }

  function Swap<V>(s: seq<V>, i: nat, j: nat): seq<V>
    requires i < j < |s|
  {
    s[i := s[j]][j := s[i]]
  }

  lemma SwapElems<V(!new)>(s: seq<V>, i: nat, j: nat)
    requires i < j < |s|
    ensures forall x :: x in Swap(s, i, j) <==> x in s
    ensures NoDup(s) ==> NoDup(Swap(s, i, j))
  {
    var t := Swap(s, i, j);
    forall x ensures x in t <==> x in s {
      if x in s {
        var k :| 0 <= k < |s| && s[k] == x;
        assert t[if k == i then j else if k == j then i else k] == x;
      }
    }
  }

  /** Members of one component with the same rank stand in the same relation to every other vertex. */
  lemma TiedAlike<V(!new)>(g: Graph<V>, x: V, y: V, z: V)
    requires x in g && y in g && Mutual(g, x, y) && g[x].seqNum == g[y].seqNum && g[x].replica == g[y].replica
    ensures MustPrecede(g, x, z) <==> MustPrecede(g, y, z)
    ensures MustPrecede(g, z, x) <==> MustPrecede(g, z, y)
    ensures !MustPrecede(g, x, y)
  {
    hide Reach;
    if Reach(g, z, x) { ReachTrans(g, z, x, y); }
    if Reach(g, z, y) { ReachTrans(g, z, y, x); }
    if Reach(g, x, z) { ReachTrans(g, y, x, z); }
    if Reach(g, y, z) { ReachTrans(g, x, y, z); }
  }

  lemma SwapOrdered<V(!new)>(g: Graph<V>, ex: seq<V>, i: nat, j: nat)
    requires Ordered(g, ex) && i < j < |ex| && ex[i] in g && ex[j] in g && Mutual(g, ex[i], ex[j])
    requires g[ex[i]].seqNum == g[ex[j]].seqNum && g[ex[i]].replica == g[ex[j]].replica
    ensures Ordered(g, Swap(ex, i, j))
  {
    hide MustPrecede, Mutual;
    var t := Swap(ex, i, j);
    forall a, b | 0 <= a < b < |t| ensures !MustPrecede(g, t[b], t[a]) {
      TiedAlike(g, ex[i], ex[j], t[a]);
      TiedAlike(g, ex[i], ex[j], t[b]);
      assert !MustPrecede(g, ex[b], ex[a]);
      assert a < j ==> !MustPrecede(g, ex[j], ex[a]);
      assert i < b ==> !MustPrecede(g, ex[b], ex[i]);
      assert a < i ==> !MustPrecede(g, ex[i], ex[a]);
      assert j < b ==> !MustPrecede(g, ex[b], ex[j]);
    }
  }

  lemma MutualSwap<V(!new)>(g: Graph<V>, a: V, a': V, b: V, b': V)
    requires Mutual(g, a, a') && Mutual(g, b, b')
    ensures Mutual(g, a, b) <==> Mutual(g, a', b')
  {
    hide Reach;
    if Mutual(g, a, b) {
      ReachTrans(g, a', a, b);
      ReachTrans(g, a', b, b');
      ReachTrans(g, b', b, a);
      ReachTrans(g, b', a, a');
    }
    if Mutual(g, a', b') {
      ReachTrans(g, a, a', b');
      ReachTrans(g, a, b', b);
      ReachTrans(g, b, b', a');
      ReachTrans(g, b, a', a);
    }
  }

  /** A swap inside one component leaves every position with the component it had. */
  lemma SwapContiguous<V(!new)>(g: Graph<V>, ex: seq<V>, i: nat, j: nat)
    requires Contiguous(g, ex) && i < j < |ex| && Mutual(g, ex[i], ex[j])
    ensures Contiguous(g, Swap(ex, i, j))
  {
    var t := Swap(ex, i, j);
    forall a: nat | a < |t| ensures Mutual(g, t[a], ex[a]) && Mutual(g, ex[a], t[a]) {
      ReachRefl(g, ex[a]);
    }
    hide Mutual;
    forall a: nat, b: nat | a < |t| && b < |t| ensures Mutual(g, t[a], t[b]) <==> Mutual(g, ex[a], ex[b]) {
      MutualSwap(g, t[a], ex[a], t[b], ex[b]);
    }
    forall a: nat, b: nat, d: nat | a < b < d < |t| ensures Between(g, t, a, b, d) {
      assert Between(g, ex, a, b, d);
    }
  }

  /** Inside one component the order of two members is determined exactly when
      ExecutesBefore tells them apart: if it does, every run agrees; if it does not,
      some run has them the other way round. */
  lemma MutualOrder<V(!new)>(g: Graph<V>, h: set<V>, ex: seq<V>, i: nat, j: nat)
    requires RunSpec(g, h, ex) && i < j < |ex| && Mutual(g, ex[i], ex[j])
    ensures ex[i] in g && ex[j] in g
    ensures (forall ex' :: RunSpec(g, h, ex') ==> Precedes(ex', ex[i], ex[j])) <==> Before(g[ex[i]], g[ex[j]])
  {
    var x, y := ex[i], ex[j];
    assert x in ex && y in ex && x != y;
    hide Reach, Ready;
    assert !MustPrecede(g, y, x);
    if Before(g[x], g[y]) {
      forall ex' | RunSpec(g, h, ex') ensures Precedes(ex', x, y) { ForcedOrder(g, ex', x, y); }
    } else {
      SwapElems(ex, i, j);
      SwapOrdered(g, ex, i, j);
      SwapContiguous(g, ex, i, j);
      var t := Swap(ex, i, j);
      assert RunSpec(g, h, t) by { hide Ordered, NoDup, Contiguous, Swap; }
      hide Contiguous;
      assert t[i] == y && t[j] == x && Precedes(t, y, x);
      NotBoth(t, y, x);
    }
  }

  /** The order of two connected executed vertices is determined exactly when they are not tied inside
      one component. */
  lemma OrderDetermined<V(!new)>(g: Graph<V>, h: set<V>, ex: seq<V>, i: nat, j: nat)
    requires RunSpec(g, h, ex) && i < j < |ex| && (Reach(g, ex[i], ex[j]) || Reach(g, ex[j], ex[i]))
    ensures ex[i] in g && ex[j] in g
    ensures (forall ex' :: RunSpec(g, h, ex') ==> Precedes(ex', ex[i], ex[j])) <==>
            !(Mutual(g, ex[i], ex[j]) && g[ex[i]].seqNum == g[ex[j]].seqNum && g[ex[i]].replica == g[ex[j]].replica)
  {
    var x, y := ex[i], ex[j];
    assert x in ex && y in ex && x != y;
    hide Reach, Ready;
    assert !MustPrecede(g, y, x);
    if Mutual(g, x, y) {
      MutualOrder(g, h, ex, i, j);
    } else {
      forall ex' | RunSpec(g, h, ex') ensures Precedes(ex', x, y) { ForcedOrder(g, ex', x, y); }
    }
  }
}
