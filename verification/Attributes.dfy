/** What the attributes of an instance mean when a replica computes them. */
module Attributes {
  import opened Keys
  import opened Types
  import opened Scan
  import opened Visits
  import opened Pruning
  import opened DepSlices
  import opened Graphs
  import opened Replicas
  import opened Local

  /** deps are exactly the interfering instances that the scan comes to and needs. They are below n and cover all
      interfering ones, and n is one more than the largest number of those that the scan comes to. */
  ghost predicate Above(c: Config, log: Log, cmd: Command, ignored: InstanceID, n: nat, deps: set<InstanceID>) {
    && n > 0 && CountedMax(log, c.nodes, cmd, ignored, n - 1)
    && (forall d :: d in deps <==> Depends(log, c.nodes, cmd, ignored, d))
    && (forall d :: d in deps ==> Known(log, cmd, d) && d != ignored && log[d].st.seqNum < n)
    && (forall x: InstanceID :: x.replica in c.nodes && x != ignored && Known(log, cmd, x) ==> Covered(log, deps, x))
  }

  lemma ScanAbove(c: Config, log: Log, cmd: Command, ignored: InstanceID)
    requires SpansOK(log) && WellFormed(cmd.span) && ScanAll(log, c.nodes, cmd, ignored).Found?
    ensures var res := ScanAll(log, c.nodes, cmd, ignored);
            Above(c, log, cmd, ignored, res.maxSeq + 1, res.deps)
  {
    hide SpansOK, WellFormed, ScanAll, Covered, Known, CountedMax, Depends;
    ScanSound(log, c.nodes, cmd, ignored);
    ScanCounts(log, c.nodes, cmd, ignored);
    var res := ScanAll(log, c.nodes, cmd, ignored);
    forall d | d in res.deps ensures d in log && Known(log, cmd, d) { KnownIn(log, cmd, d); }
    forall d ensures d in res.deps <==> Depends(log, c.nodes, cmd, ignored, d) {
      DependenciesExact(log, c.nodes, cmd, ignored, d);
    }
    forall x: InstanceID | x.replica in c.nodes && x != ignored && Known(log, cmd, x)
      ensures Covered(log, res.deps, x)
    {
      ScanCovers(log, c.nodes, cmd, ignored, x);
    }
  }

  /** A request gives its command a fresh slot, dependencies that cover every known interfering instance, and a
      sequence number one above every interfering instance that its scan comes to. */
  lemma RequestAttributes(c: Config, me: ReplicaID, rep: Replica, cmd: Command)
    requires SpansOK(rep.log) && WellFormed(cmd.span) && OnRequest(c, me, rep, cmd).Done?
    ensures var o := OnRequest(c, me, rep, cmd);
            var id := InstanceID(me, MaxInstanceNum(rep.log, me) + 1);
            && id !in rep.log && o.rep.log.Keys == rep.log.Keys + {id}
            && o.rep.log[id].st.status == PreAccepted && o.rep.log[id].st.cmd == Some(cmd)
            && Sorted(o.rep.log[id].st.deps)
            && Above(c, rep.log, cmd, InstanceID(0, 0), o.rep.log[id].st.seqNum, Elems(o.rep.log[id].st.deps))
  {
    hide ScanAll, Slice, Broadcast, MaxInstanceNum, Above, SpansOK, Sorted;
    FreshId(me, rep.log);
    ScanAbove(c, rep.log, cmd, InstanceID(0, 0));
    SliceIds(ScanAll(rep.log, c.nodes, cmd, InstanceID(0, 0)).deps);
  }

  /** A vote records the attributes of the PreAccept joined with those of the follower's own scan. */
  lemma VoteAttributes(c: Config, me: ReplicaID, rep: Replica, id: InstanceID, pa: Body)
    returns (n: nat, deps: set<InstanceID>)
    requires id in rep.log && pa.PreAccept? && pa.cmd.Some? && SpansOK(rep.log) && WellFormed(pa.cmd.value.span)
    requires rep.log[id].st.status in {NoStatus, PreAccepted} && OnPreAccept(c, me, rep, id, pa).Done?
    ensures Above(c, rep.log, pa.cmd.value, id, n, deps)
    ensures var st := OnPreAccept(c, me, rep, id, pa).rep.log[id].st;
            && st.status == PreAccepted && st.cmd == pa.cmd && st.seqNum == Max(pa.seqNum, n)
            && Sorted(st.deps) && Elems(st.deps) == deps + Elems(pa.deps)
  {
    hide ScanAll, Slice, Above, SpansOK, Sorted, WellFormed;
    var res := ScanAll(rep.log, c.nodes, pa.cmd.value, id);
    n, deps := res.maxSeq + 1, res.deps;
    ScanAbove(c, rep.log, pa.cmd.value, id);
    SliceIds(res.deps + Elems(pa.deps));
  }

  /** What a follower records is what it answers: a PreAcceptOK exactly when it records the
      attributes of the PreAccept, else a PreAcceptReply with what it recorded. */
  lemma VoteRecords(c: Config, me: ReplicaID, rep: Replica, id: InstanceID, pa: Body)
    requires id in rep.log && pa.PreAccept? && Sorted(pa.deps)
    requires var o := OnPreAccept(c, me, rep, id, pa); o.Done? && o.out != []
    ensures var o := OnPreAccept(c, me, rep, id, pa);
            && |o.out| == 1 && o.out[0].to == id.replica && o.out[0].id == id
            && id in o.rep.log && o.rep.log[id].st.status == PreAccepted && o.rep.log[id].st.cmd == pa.cmd
            && (o.out[0].body == PreAcceptOK <==>
                  o.rep.log[id].st == InstanceState(PreAccepted, pa.cmd, pa.seqNum, pa.deps))
            && (o.out[0].body != PreAcceptOK ==>
                  o.out[0].body == PreAcceptReply(o.rep.log[id].st.seqNum, o.rep.log[id].st.deps))
  {
    hide Slice, ScanAll, Sorted;
    LengthDecides(pa.deps, ScanAll(rep.log, c.nodes, pa.cmd.value, id).deps + Elems(pa.deps));
  }
}
