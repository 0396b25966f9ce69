/** The scan as loops: the spaces may be visited in any order, and the descent through one
    space accumulates what the recursion of Scan returns (epaxos/command.go). */
module ScanOrder {
  import opened Keys
  import opened Types
  import opened Graphs
  import opened Scan

  /** The scan of the whole space of one replica. */
  ghost function Space(log: Log, rid: ReplicaID, cmd: Command, ignored: InstanceID): ScanResult {
    ScanSpace(log, rid, cmd, ignored, Bound(Nums(log, rid)), [])
  }

  /** maxSeq and deps are the maximum and the union of the scans of the spaces in rids. */
  ghost predicate Collected(log: Log, rids: set<ReplicaID>, cmd: Command, ignored: InstanceID, maxSeq: nat,
                            deps: set<InstanceID>) {
    && (forall r :: r in rids ==>
          && Space(log, r, cmd, ignored).Found?
          && Space(log, r, cmd, ignored).deps <= deps
          && Space(log, r, cmd, ignored).maxSeq <= maxSeq)
    && (forall d :: d in deps ==>
          exists r :: r in rids && Space(log, r, cmd, ignored).Found? && d in Space(log, r, cmd, ignored).deps)
    && (maxSeq > 0 ==>
          exists r :: r in rids && Space(log, r, cmd, ignored).Found? && Space(log, r, cmd, ignored).maxSeq == maxSeq)
  }

  lemma CollectedNone(log: Log, cmd: Command, ignored: InstanceID)
    ensures Collected(log, {}, cmd, ignored, 0, {})
  {
  }

  lemma CollectedMore(log: Log, rids: set<ReplicaID>, r: ReplicaID, cmd: Command, ignored: InstanceID, maxSeq: nat,
                      deps: set<InstanceID>)
    requires Collected(log, rids, cmd, ignored, maxSeq, deps) && Space(log, r, cmd, ignored).Found?
    ensures var sp := Space(log, r, cmd, ignored);
            Collected(log, rids + {r}, cmd, ignored, Max(sp.maxSeq, maxSeq), sp.deps + deps)
  {
    hide Space;
    var sp := Space(log, r, cmd, ignored);
    var rids' := rids + {r};
    assert r in rids';
    forall d | d in sp.deps + deps
      ensures exists q :: q in rids' && Space(log, q, cmd, ignored).Found? && d in Space(log, q, cmd, ignored).deps
    {
      if d !in sp.deps {
        var q :| q in rids && Space(log, q, cmd, ignored).Found? && d in Space(log, q, cmd, ignored).deps;
        assert q in rids';
      }
    }
    if sp.maxSeq <= maxSeq && maxSeq != 0 {
      var q :| q in rids && Space(log, q, cmd, ignored).Found? && Space(log, q, cmd, ignored).maxSeq == maxSeq;
      assert q in rids';
    }
  }

  lemma CollectedUnique(log: Log, rids: set<ReplicaID>, cmd: Command, ignored: InstanceID,
                        maxSeq: nat, deps: set<InstanceID>, maxSeq': nat, deps': set<InstanceID>)
    requires Collected(log, rids, cmd, ignored, maxSeq, deps) && Collected(log, rids, cmd, ignored, maxSeq', deps')
    ensures maxSeq == maxSeq' && deps == deps'
  {
    hide Space;
  }

  lemma SpaceIs(log: Log, rid: ReplicaID, cmd: Command, ignored: InstanceID)
    ensures Space(log, rid, cmd, ignored) == ScanSpace(log, rid, cmd, ignored, Bound(Nums(log, rid)), [])
  {
  }

  /** The scan of Scan is what any order of the spaces collects. */
  lemma {:induction false} ScanAllCollects(log: Log, nodes: seq<ReplicaID>, cmd: Command, ignored: InstanceID)
    ensures var res := ScanAll(log, nodes, cmd, ignored);
            && (res.ScanPanic? <==> exists r :: r in nodes && Space(log, r, cmd, ignored).ScanPanic?)
            && (res.Found? ==> Collected(log, Elems(nodes), cmd, ignored, res.maxSeq, res.deps))
  {
    if nodes == [] {
      assert Elems(nodes) == {};
      CollectedNone(log, cmd, ignored);
    } else {
      ScanAllCollects(log, nodes[1..], cmd, ignored);
      hide Space, Collected;
      assert nodes == [nodes[0]] + nodes[1..];
      assert Elems(nodes) == Elems(nodes[1..]) + {nodes[0]};
      var first, rest := Space(log, nodes[0], cmd, ignored), ScanAll(log, nodes[1..], cmd, ignored);
      assert first == ScanSpace(log, nodes[0], cmd, ignored, Bound(Nums(log, nodes[0])), []) by {
        SpaceIs(log, nodes[0], cmd, ignored);
      }
      if first.Found? && rest.Found? {
        CollectedMore(log, Elems(nodes[1..]), nodes[0], cmd, ignored, rest.maxSeq, rest.deps);
      }
    }
  }

  /** Accumulators carried through With. */
  lemma WithWith(res: ScanResult, seqNum: nat, deps: set<InstanceID>, seqNum': nat, deps': set<InstanceID>)
    ensures With(With(res, seqNum, deps), seqNum', deps') == With(res, Max(seqNum', seqNum), deps' + deps)
  {
    if res.Found? { assert deps' + (deps + res.deps) == deps' + deps + res.deps; }
  }

  /** Starting at the largest slot in use scans the whole space. */
  lemma TopSlot(log: Log, rid: ReplicaID, cmd: Command, ignored: InstanceID, last: nat)
    requires last == (if Bound(Nums(log, rid)) == 0 then 0 else Bound(Nums(log, rid)) - 1)
    ensures ScanSpace(log, rid, cmd, ignored, last + 1, []) == Space(log, rid, cmd, ignored)
  {
    var id := InstanceID(rid, 0);
    if Bound(Nums(log, rid)) == 0 {
      assert id in log ==> id.num in Nums(log, rid);
    }
  }

  lemma MaxSym(a: nat, b: nat)
    ensures Max(a, b) == Max(b, a)
  {
  }

  lemma NoPanicAll(log: Log, nodes: seq<ReplicaID>, cmd: Command, ignored: InstanceID, maxSeq: nat,
                   deps: set<InstanceID>)
    requires Collected(log, Elems(nodes), cmd, ignored, maxSeq, deps)
    ensures ScanAll(log, nodes, cmd, ignored) == Found(maxSeq, deps)
  {
    ScanAllCollects(log, nodes, cmd, ignored);
    assert forall r :: r in nodes ==> Space(log, r, cmd, ignored).Found? by {
      hide Space;
      assert forall r :: r in nodes ==> r in Elems(nodes);
    }
    hide Space, Collected, ScanAll;
    var res := ScanAll(log, nodes, cmd, ignored);
    CollectedUnique(log, Elems(nodes), cmd, ignored, maxSeq, deps, res.maxSeq, res.deps);
  }
}
