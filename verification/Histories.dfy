/** What replicas execute, in every run and over all their lives, and in which order. A restarted replica
    starts with an empty sequence of executed instances; its history is what it executed before followed by that. */
module Histories {
  import opened Keys
  import opened Types
  import opened Scan
  import opened DepSlices
  import opened Graphs
  import opened ExecutionSpec
  import opened Confluence
  import opened Replicas
  import opened Local
  import opened System
  import opened Safety
  import opened Restart
  import opened Runs
  import opened CrashStop
  import opened CrashStopSteps
  import opened SameLeaders

  // ----- Handlers execute nothing -----

  /** No instance disappears or falls back to an earlier status. */
  ghost predicate RanksGrow(log: Log, log': Log) {
    forall id :: id in log ==> id in log' && Rank(log[id].st.status) <= Rank(log'[id].st.status)
  }

  ghost predicate SameExec(rep: Replica, rep': Replica) {
    rep'.executed == rep.executed && ExecutedSet(rep'.log) == ExecutedSet(rep.log) && RanksGrow(rep.log, rep'.log)
  }

  lemma RanksRefl(log: Log)
    ensures RanksGrow(log, log)
  {
  }

  lemma RanksTrans(a: Log, b: Log, c: Log)
    requires RanksGrow(a, b) && RanksGrow(b, c)
    ensures RanksGrow(a, c)
  {
  }

  /** An unexecuted instance is replaced by an unexecuted instance. */
  lemma UpdateSame(rep: Replica, rep': Replica, id: InstanceID, inst: Instance)
    requires rep'.executed == rep.executed && rep'.log == rep.log[id := inst]
    requires inst.st.status != Executed && (id in rep.log ==> Rank(rep.log[id].st.status) <= Rank(inst.st.status))
    ensures SameExec(rep, rep')
  {
  }

  lemma EitherSame(c: Config, me: ReplicaID, rep: Replica, id: InstanceID)
    requires id in rep.log && rep.log[id].st.status == PreAccepted
    ensures var o := OnEitherPreAcceptReply(c, me, rep, id); o.Done? && SameExec(rep, o.rep)
  {
    hide ExecutedSet;
    var o := OnEitherPreAcceptReply(c, me, rep, id);
    assert o.rep.log == rep.log[id := o.rep.log[id]];
    UpdateSame(rep, o.rep, id, o.rep.log[id]);
  }

  lemma DispatchSame(c: Config, me: ReplicaID, rep: Replica, m: Message)
    requires m.id in rep.log
    ensures var o := Dispatch(c, me, rep, m); o.Done? ==> SameExec(rep, o.rep)
  {
    hide ExecutedSet, OnEitherPreAcceptReply, ScanAll, Slice, Broadcast, Merged;
    var o := Dispatch(c, me, rep, m);
    var inst := rep.log[m.id];
    if o.Done? && o.rep != rep {
      if m.body.PreAcceptOK? {
        var rep1 := rep.(log := rep.log[m.id := inst.(preAcceptReplies := inst.preAcceptReplies + 1)]);
        UpdateSame(rep, rep1, m.id, rep1.log[m.id]);
        EitherSame(c, me, rep1, m.id);
      } else if m.body.PreAcceptReply? {
        var rep1 := rep.(log := rep.log[m.id := Merged(inst, m.body.seqNum, m.body.deps)]);
        MergedStatus(inst, m.body);
        UpdateSame(rep, rep1, m.id, rep1.log[m.id]);
        EitherSame(c, me, rep1, m.id);
      } else {
        assert o.rep.log == rep.log[m.id := o.rep.log[m.id]];
        UpdateSame(rep, o.rep, m.id, o.rep.log[m.id]);
      }
    }
  }

  lemma StepSame(c: Config, me: ReplicaID, rep: Replica, m: Message)
    ensures var o := Replicas.Step(c, me, rep, m); o.Done? ==> SameExec(rep, o.rep)
  {
    hide Dispatch, ExecutedSet;
    if m.id in rep.log {
      DispatchSame(c, me, rep, m);
    } else {
      var rep1 := rep.(log := rep.log[m.id := NEW_INSTANCE]);
      UpdateSame(rep, rep1, m.id, NEW_INSTANCE);
      DispatchSame(c, me, rep1, m);
    }
  }

  lemma RequestSame(c: Config, me: ReplicaID, rep: Replica, cmd: Command)
    ensures var o := OnRequest(c, me, rep, cmd); o.Done? ==> SameExec(rep, o.rep)
  {
    hide ScanAll, Slice, Broadcast, MaxInstanceNum, ExecutedSet;
    FreshId(me, rep.log);
    var o := OnRequest(c, me, rep, cmd);
    var id := InstanceID(me, MaxInstanceNum(rep.log, me) + 1);
    if o.Done? {
      assert o.rep.log == rep.log[id := o.rep.log[id]];
      UpdateSame(rep, o.rep, id, o.rep.log[id]);
    }
  }

  lemma TickSame(c: Config, me: ReplicaID, rep: Replica, id: InstanceID)
    requires LocalSafe(me, rep) && id in rep.log
    ensures var o := TickOne(c, me, rep, id); o.Done? ==> SameExec(rep, o.rep)
  {
    assert LocalEntry(me, rep, id);
    hide LocalSafe, ExecutedSet, Broadcast;
    var o := TickOne(c, me, rep, id);
    if o.Done? && o.rep != rep {
      assert o.rep.log == rep.log[id := o.rep.log[id]];
      UpdateSame(rep, o.rep, id, o.rep.log[id]);
    }
  }

  // ----- The invariant -----

  /** What each replica executed before its last restart. */
  type Past = map<ReplicaID, seq<InstanceID>>

  /** Everything that r has executed, in the order in which it delivered the commands. */
  function Total(s: Sys, h: Past, r: ReplicaID): seq<InstanceID>
    requires r in s.reps
  {
    (if r in h then h[r] else []) + s.reps[r].executed
  }

  /** Executed once each, with all dependencies, in an order that the dependency graph allows. */
  ghost predicate GoodOrder(g: Graph<InstanceID>, done: seq<InstanceID>) {
    NoDup(done) && Closed(g, Elems(done)) && Ordered(g, done) && Contiguous(g, done)
  }

  /** Replica r has executed its Executed instances, in a good order. */
  ghost predicate ExecInv(s: Sys, h: Past, r: ReplicaID)
    requires r in s.reps
  {
    GoodOrder(LeaderGraph(s), Total(s, h, r)) && Elems(Total(s, h, r)) == ExecutedSet(s.reps[r].log)
  }

  /** What is executed anywhere is decided at its leader. */
  lemma ExecutedAtLeader(c: Config, s: Sys, r: ReplicaID, id: InstanceID)
    requires Safe(c, s) && r in s.reps && id in s.reps[r].log && IsCommitted(s.reps[r].log[id].st.status)
    ensures LeaderHas(s, id) && IsCommitted(Lead(s, id).st.status)
    ensures s.reps[r].log[id].st == Lead(s, id).st.(status := s.reps[r].log[id].st.status)
    ensures Lead(s, id).st.cmd.Some?
  {
    hide LocalSafe, PacketSafe;
    assert Agrees(s, id, s.reps[r].log[id].st);
    hide Safe, WellFormed;
    LeaderOwn(c, s, id);
  }

  /** Decided vertices keep their place in the graph. */
  lemma SameVertex(s: Sys, s': Sys, id: InstanceID)
    requires Keep(s, s') && LeaderHas(s, id) && Rank(Lead(s, id).st.status) >= 2
    ensures id in LeaderGraph(s) && id in LeaderGraph(s') && LeaderGraph(s')[id] == LeaderGraph(s)[id]
  {
    hide LeaderGraph;
    InGraph(s, id);
    InGraph(s', id);
  }

  /** A good order stays good while the leaders go on. */
  lemma OrderStays(c: Config, s: Sys, s': Sys, h: Past, r: ReplicaID)
    requires Safe(c, s) && Keep(s, s') && r in s.reps && ExecInv(s, h, r)
    ensures GoodOrder(LeaderGraph(s'), Total(s, h, r))
  {
    hide Keep, Safe, LeaderGraph, Closed, Ordered, Contiguous, NoDup;
    var done := Total(s, h, r);
    forall x | x in done
      ensures x in LeaderGraph(s) && x in LeaderGraph(s') && LeaderGraph(s')[x] == LeaderGraph(s)[x]
    {
      assert x in Elems(done) && x in ExecutedSet(s.reps[r].log);
      ExecutedAtLeader(c, s, r, x);
      SameVertex(s, s', x);
    }
    AgreeInOrder(LeaderGraph(s), LeaderGraph(s'), done);
  }

  lemma ExecStays(c: Config, s: Sys, s': Sys, h: Past, r: ReplicaID)
    requires Safe(c, s) && Keep(s, s') && r in s.reps && r in s'.reps && ExecInv(s, h, r)
    requires SameExec(s.reps[r], s'.reps[r])
    ensures ExecInv(s', h, r)
  {
    hide Keep, Safe, GoodOrder;
    OrderStays(c, s, s', h, r);
  }

  ghost predicate AllExec(s: Sys, h: Past) {
    forall r :: r in s.reps ==> ExecInv(s, h, r)
  }

  /** r moved without executing anything. */
  lemma MoveExec(c: Config, s: Sys, s': Sys, h: Past, r: ReplicaID, rep: Replica)
    requires Safe(c, s) && AllExec(s, h) && Keep(s, s') && r in s.reps
    requires s'.reps == s.reps[r := rep] && SameExec(s.reps[r], rep)
    ensures AllExec(s', h)
  {
    hide Safe, Keep, ExecInv;
    forall q | q in s'.reps ensures ExecInv(s', h, q) {
      assert q in s.reps;
      ExecStays(c, s, s', h, q);
    }
  }

  // ----- Runs of the executor -----

  lemma VerticesPending(c: Config, s: Sys, h: Past, r: ReplicaID)
    requires Safe(c, s) && r in s.reps && ExecInv(s, h, r)
    ensures Pending(LeaderGraph(s), VertexGraph(s.reps[r]), Total(s, h, r))
  {
    hide LeaderGraph, Ordered, Contiguous, NoDup, Closed;
    var rep := s.reps[r];
    assert LocalSafe(r, rep) by { hide LocalSafe, Agrees, PacketSafe; }
    hide Safe;
    forall v | v in VertexGraph(rep)
      ensures v in LeaderGraph(s) && LeaderGraph(s)[v] == VertexGraph(rep)[v] && v !in Total(s, h, r)
    {
      assert LocalEntry(r, rep, v);
      ExecutedAtLeader(c, s, r, v);
      InGraph(s, v);
      assert v !in ExecutedSet(rep.log);
      assert v !in Elems(Total(s, h, r));
    }
  }

  lemma ExecuteSet(rep: Replica, ex: seq<InstanceID>)
    requires ExecuteAll(rep, ex).Done?
    ensures var rep' := ExecuteAll(rep, ex).rep;
            rep'.executed == rep.executed + ex && ExecutedSet(rep'.log) == ExecutedSet(rep.log) + Elems(ex)
            && RanksGrow(rep.log, rep'.log)
  {
  }

  /** Executing what a run may execute next gives a good order again. */
  lemma RunGoodOrder(g: Graph<InstanceID>, rep: Replica, done: seq<InstanceID>, ex: seq<InstanceID>)
    requires Pending(g, VertexGraph(rep), done) && GoodOrder(g, done)
    requires ExecutedSet(rep.log) <= Elems(done) && MayRun(rep, ex)
    ensures GoodOrder(g, done + ex)
  {
    hide Ordered, Contiguous, NoDup, Closed, VertexGraph, Pending, RunSpec, ExecutedSet;
    var p, h := VertexGraph(rep), ExecutedSet(rep.log);
    RunClosed(g, p, done, h, ex);
    RunOrdered(g, p, done, h, ex);
    RunNoDup(g, p, done, h, ex);
    RunContiguous(g, p, done, h, ex);
  }

  /** Executing does not change the dependency graph. */
  lemma RunGraph(s: Sys, r: ReplicaID, ex: seq<InstanceID>)
    requires r in s.reps && ExecuteAll(s.reps[r], ex).Done?
    ensures LeaderGraph(AfterRun(s, r, ex)) == LeaderGraph(s)
  {
    var s' := AfterRun(s, r, ex);
    forall id ensures LeaderHas(s, id) <==> LeaderHas(s', id)
              ensures LeaderHas(s, id) ==> ExecOf(id, Lead(s', id)) == ExecOf(id, Lead(s, id)) {}
    forall id ensures id in LeaderGraph(s) <==> id in LeaderGraph(s')
              ensures id in LeaderGraph(s) ==> LeaderGraph(s')[id] == LeaderGraph(s)[id] {
      hide LeaderGraph;
      InGraph(s, id);
      InGraph(s', id);
    }
  }

  lemma RunExec(c: Config, s: Sys, h: Past, r: ReplicaID, ex: seq<InstanceID>)
    requires Safe(c, s) && AllExec(s, h) && r in s.reps && MayRun(s.reps[r], ex)
    ensures AllExec(AfterRun(s, r, ex), h)
  {
    hide Safe, Keep, LeaderGraph, GoodOrder, ExecutedSet, ExecuteAll, MayRun, Pending;
    ExecuteSafe(c, s, r, ex);
    var s', rep' := AfterRun(s, r, ex), ExecuteAll(s.reps[r], ex).rep;
    assert s'.reps == s.reps[r := rep'];
    RunGraph(s, r, ex);
    assert ExecInv(s, h, r);
    VerticesPending(c, s, h, r);
    RunGoodOrder(LeaderGraph(s), s.reps[r], Total(s, h, r), ex);
    ExecuteSet(s.reps[r], ex);
    assert Total(s', h, r) == Total(s, h, r) + ex;
    assert Elems(Total(s, h, r) + ex) == Elems(Total(s, h, r)) + Elems(ex);
    assert ExecInv(s', h, r);
    hide ExecInv, AfterRun;
    forall q | q in s'.reps && q != r ensures ExecInv(s', h, q) { ExecStays(c, s, s', h, q); }
  }

  // ----- Restarts -----

  /** The executed instances among those that are still to be loaded. */
  ghost function Unloaded(stored: map<InstanceID, InstanceState>, left: seq<InstanceID>): set<InstanceID> {
    set id | id in left && id in stored && stored[id].status == Executed
  }

  /** The graph has the attributes of the persisted decisions. */
  ghost predicate GraphStores(g: Graph<InstanceID>, stored: map<InstanceID, InstanceState>) {
    forall id :: id in stored && IsCommitted(stored[id].status) ==>
      id in g && g[id] == Exec(stored[id].deps, stored[id].seqNum, id.replica)
  }

  /** What holds while a replica that had executed done loads what it persisted. */
  ghost predicate LoadOrder(g: Graph<InstanceID>, rep: Replica, stored: map<InstanceID, InstanceState>,
                            left: seq<InstanceID>, done: seq<InstanceID>) {
    GoodOrder(g, done) && Elems(done) == ExecutedSet(rep.log) + Unloaded(stored, left)
  }

  lemma LoadOneOrder(c: Config, me: ReplicaID, g: Graph<InstanceID>, rep: Replica,
                     stored: map<InstanceID, InstanceState>, order: seq<InstanceID>, done: seq<InstanceID>)
    requires order != [] && order[0] in stored && NoDup(order)
    requires LoadOrder(g, rep, stored, order, done) && Loading(me, rep, stored, order)
    requires LoadOne(c, me, rep, order[0], stored[order[0]]).Done?
    ensures LoadOrder(g, LoadOne(c, me, rep, order[0], stored[order[0]]).rep, stored, order[1..], done)
    ensures LoadOne(c, me, rep, order[0], stored[order[0]]).rep.executed == rep.executed
  {
    hide GoodOrder;
    var id, rest := order[0], order[1..];
    assert LoadingEntry(me, rep, stored, order, id);
    hide Loading;
    assert order == [id] + rest && id !in rest;
    var rep1 := LoadOne(c, me, rep, id, stored[id]).rep;
    assert rep1.log == rep.log[id := FromState(stored[id])];
    assert ExecutedSet(rep1.log) + Unloaded(stored, rest) == ExecutedSet(rep.log) + Unloaded(stored, order);
  }

  lemma LoadingPending(me: ReplicaID, g: Graph<InstanceID>, rep: Replica, stored: map<InstanceID, InstanceState>,
                       left: seq<InstanceID>, done: seq<InstanceID>)
    requires LoadOrder(g, rep, stored, left, done) && Loading(me, rep, stored, left) && GraphStores(g, stored)
    ensures Pending(g, VertexGraph(rep), done)
  {
    hide Ordered, Contiguous, NoDup, Closed;
    forall v | v in VertexGraph(rep) ensures v in g && g[v] == VertexGraph(rep)[v] && v !in done {
      LoadingVertex(me, rep, stored, left, v);
      assert LoadingEntry(me, rep, stored, left, v);
      hide Loading;
      assert v !in Elems(done);
    }
  }

  lemma LoadRunOrder(me: ReplicaID, g: Graph<InstanceID>, rep: Replica, stored: map<InstanceID, InstanceState>,
                     left: seq<InstanceID>, done: seq<InstanceID>, run: bool, ex: seq<InstanceID>)
    requires LoadOrder(g, rep, stored, left, done) && Loading(me, rep, stored, left) && GraphStores(g, stored)
    requires if run then MayRun(rep, ex) else ex == []
    ensures ExecuteAll(rep, ex).Done? && Loading(me, ExecuteAll(rep, ex).rep, stored, left)
    ensures LoadOrder(g, ExecuteAll(rep, ex).rep, stored, left, done + ex)
    ensures ExecuteAll(rep, ex).rep.executed == rep.executed + ex
  {
    hide GoodOrder, Loading, MayRun, ExecuteAll, ExecutedSet, Pending, GraphStores, VertexGraph;
    if run { RunVertices(rep, ex); }
    ExecuteLoads(me, rep, stored, left, ex);
    ExecuteSet(rep, ex);
    if run {
      LoadingPending(me, g, rep, stored, left, done);
      RunGoodOrder(g, rep, done, ex);
    } else {
      assert done + ex == done;
    }
    assert Elems(done + ex) == Elems(done) + Elems(ex);
  }

  /** One load and the run of the executor that may follow it. */
  lemma LoadNext(c: Config, me: ReplicaID, g: Graph<InstanceID>, rep: Replica, stored: map<InstanceID, InstanceState>,
                 order: seq<InstanceID>, runs: seq<seq<InstanceID>>, rep': Replica, out: seq<Message>,
                 done: seq<InstanceID>)
    returns (rep2: Replica, rest: seq<Message>)
    requires |runs| == |order| && order != [] && (forall id :: id in order ==> id in stored) && NoDup(order)
    requires GraphStores(g, stored) && Loads(c, me, rep, stored, order, runs, rep', out)
    requires LoadOrder(g, rep, stored, order, done) && Loading(me, rep, stored, order)
    ensures forall id :: id in order[1..] ==> id in stored
    ensures rep2.executed == rep.executed + runs[0] && LoadOrder(g, rep2, stored, order[1..], done + runs[0])
    ensures Loading(me, rep2, stored, order[1..]) && Loads(c, me, rep2, stored, order[1..], runs[1..], rep', rest)
  {
    hide Loading, LoadOne, ExecuteAll, MayRun, LoadOrder, GraphStores;
    LoadOneLoads(c, me, rep, stored, order);
    LoadOneOrder(c, me, g, rep, stored, order, done);
    var o := LoadOne(c, me, rep, order[0], stored[order[0]]);
    LoadRunOrder(me, g, o.rep, stored, order[1..], done, o.run, runs[0]);
    assert forall id :: id in order[1..] ==> id in order;
    rep2, rest := ExecuteAll(o.rep, runs[0]).rep, out[|o.out|..];
  }

  lemma LoadsNothing(c: Config, me: ReplicaID, rep: Replica, stored: map<InstanceID, InstanceState>, rep': Replica,
                     out: seq<Message>)
    requires Loads(c, me, rep, stored, [], [], rep', out)
    ensures rep' == rep
  {
  }

  lemma JoinThree(a: seq<InstanceID>, b: seq<InstanceID>, c: seq<InstanceID>)
    ensures a + b + c == a + (b + c)
  {
  }

  lemma {:induction false} LoadsOrder(c: Config, me: ReplicaID, g: Graph<InstanceID>, rep: Replica,
                                      stored: map<InstanceID, InstanceState>, order: seq<InstanceID>,
                                      runs: seq<seq<InstanceID>>, rep': Replica, out: seq<Message>,
                                      done: seq<InstanceID>)
    returns (ex: seq<InstanceID>)
    requires |runs| == |order| && (forall id :: id in order ==> id in stored) && NoDup(order) && GraphStores(g, stored)
    requires Loads(c, me, rep, stored, order, runs, rep', out)
    requires LoadOrder(g, rep, stored, order, done) && Loading(me, rep, stored, order)
    ensures rep'.executed == rep.executed + ex && LoadOrder(g, rep', stored, [], done + ex)
    decreases |order|
  {
    hide Loading, LoadOrder, GraphStores, Loads;
    if order == [] {
      ex := [];
      LoadsNothing(c, me, rep, stored, rep', out);
      assert done + ex == done;
    } else {
      var rep2, rest := LoadNext(c, me, g, rep, stored, order, runs, rep', out, done);
      assert NoDup(order[1..]);
      hide NoDup;
      var more := LoadsOrder(c, me, g, rep2, stored, order[1..], runs[1..], rep', rest, done + runs[0]);
      ex := runs[0] + more;
      JoinThree(done, runs[0], more);
      JoinThree(rep.executed, runs[0], more);
    }
  }

  /** What a replica has persisted as executed is what it has executed. */
  lemma StoredExecuted(me: ReplicaID, rep: Replica, order: seq<InstanceID>)
    requires LocalSafe(me, rep) && forall id :: id in order <==> id in rep.storage
    ensures Unloaded(rep.storage, order) == ExecutedSet(rep.log)
  {
    forall id ensures id in Unloaded(rep.storage, order) <==> id in ExecutedSet(rep.log) {
      assert LocalEntry(me, rep, id);
    }
  }

  lemma StoredDecision(me: ReplicaID, rep: Replica, id: InstanceID)
    requires LocalSafe(me, rep) && id in rep.storage && IsCommitted(rep.storage[id].status)
    ensures id in rep.log && rep.log[id].st == rep.storage[id]
  {
    assert LocalEntry(me, rep, id);
  }

  lemma StoredVertex(c: Config, s: Sys, s': Sys, r: ReplicaID, id: InstanceID)
    requires Safe(c, s) && Keep(s, s') && r in s.reps && id in s.reps[r].storage
    requires IsCommitted(s.reps[r].storage[id].status)
    ensures id in LeaderGraph(s')
    ensures LeaderGraph(s')[id] == Exec(s.reps[r].storage[id].deps, s.reps[r].storage[id].seqNum, id.replica)
  {
    hide Safe, LocalSafe, Keep, LeaderGraph;
    LocalAt(c, s, r);
    StoredDecision(r, s.reps[r], id);
    ExecutedAtLeader(c, s, r, id);
    InGraph(s, id);
    SameVertex(s, s', id);
  }

  lemma GraphStored(c: Config, s: Sys, s': Sys, r: ReplicaID)
    requires Safe(c, s) && Keep(s, s') && r in s.reps
    ensures GraphStores(LeaderGraph(s'), s.reps[r].storage)
  {
    hide Keep, LeaderGraph, Safe;
    forall id | id in s.reps[r].storage && IsCommitted(s.reps[r].storage[id].status)
      ensures id in LeaderGraph(s')
      ensures LeaderGraph(s')[id] == Exec(s.reps[r].storage[id].deps, s.reps[r].storage[id].seqNum, id.replica)
    {
      StoredVertex(c, s, s', r, id);
    }
  }

  /** The past of each replica after a step. */
  function NextPast(h: Past, s: Sys, step: System.Step): Past {
    if step.RestartStep? && step.r in s.reps then h[step.r := Total(s, h, step.r)] else h
  }

  lemma NothingExecuted(stored: map<InstanceID, InstanceState>)
    ensures ExecutedSet(Rebooted(stored).log) == {}
  {
  }

  lemma NothingLeft(stored: map<InstanceID, InstanceState>)
    ensures Unloaded(stored, []) == {}
  {
  }

  lemma ExecElems(s: Sys, h: Past, r: ReplicaID)
    requires r in s.reps && ExecInv(s, h, r)
    ensures Elems(Total(s, h, r)) == ExecutedSet(s.reps[r].log) && GoodOrder(LeaderGraph(s), Total(s, h, r))
  {
  }

  lemma MakeExec(s: Sys, h: Past, r: ReplicaID)
    requires r in s.reps && Elems(Total(s, h, r)) == ExecutedSet(s.reps[r].log)
    requires GoodOrder(LeaderGraph(s), Total(s, h, r))
    ensures ExecInv(s, h, r)
  {
  }

  lemma RestartExecSelf(c: Config, s: Sys, h: Past, r: ReplicaID, order: seq<InstanceID>, runs: seq<seq<InstanceID>>,
                        s': Sys)
    requires Safe(c, s) && r in s.reps && ExecInv(s, h, r) && Restarts(c, s, r, order, runs, s')
    requires Safe(c, s') && Keep(s, s')
    ensures r in s'.reps && ExecInv(s', h[r := Total(s, h, r)], r)
    ensures forall q :: q in s.reps && q != r ==> q in s'.reps && s'.reps[q] == s.reps[q]
  {
    hide Safe, LocalSafe, Loads, Loading, Keep, ExecInv, GoodOrder, GraphStores, LeaderGraph, ExecutedSet, Unloaded;
    var stored := s.reps[r].storage;
    var rep, out :| Loads(c, r, Rebooted(stored), stored, order, runs, rep, out)
                    && s' == Put(s, r, rep, out).(crashed := s.crashed - {r});
    LocalAt(c, s, r);
    StartLoading(r, s.reps[r], order);
    StoredExecuted(r, s.reps[r], order);
    GraphStored(c, s, s', r);
    OrderStays(c, s, s', h, r);
    var g, done := LeaderGraph(s'), Total(s, h, r);
    assert ExecutedSet(Rebooted(stored).log) == {} by { NothingExecuted(stored); }
    assert Elems(done) == ExecutedSet(s.reps[r].log) by { ExecElems(s, h, r); }
    assert LoadOrder(g, Rebooted(stored), stored, order, done);
    var ex := LoadsOrder(c, r, g, Rebooted(stored), stored, order, runs, rep, out, done);
    assert Unloaded(stored, []) == {} by { NothingLeft(stored); }
    assert Total(s', h[r := done], r) == done + ex;
    assert ExecInv(s', h[r := done], r) by { MakeExec(s', h[r := done], r); }
  }

  lemma KeepKeys(s: Sys, s': Sys)
    requires Keep(s, s')
    ensures s.reps.Keys == s'.reps.Keys
  {
  }

  lemma SameRep(rep: Replica)
    ensures SameExec(rep, rep)
  {
  }

  lemma PastOf(s: Sys, h: Past, h': Past, r: ReplicaID)
    requires r in s.reps && Total(s, h, r) == Total(s, h', r) && ExecInv(s, h, r)
    ensures ExecInv(s, h', r)
  {
  }

  /** Loading after a restart goes on with the order of the earlier lives. */
  lemma RestartExec(c: Config, s: Sys, h: Past, r: ReplicaID, order: seq<InstanceID>, runs: seq<seq<InstanceID>>,
                    s': Sys)
    requires Safe(c, s) && AllExec(s, h) && r in s.reps && Restarts(c, s, r, order, runs, s')
    ensures AllExec(s', h[r := Total(s, h, r)])
    ensures r in s'.reps && Total(s, h, r) <= Total(s', h[r := Total(s, h, r)], r)
    ensures forall q :: q in s.reps && q != r ==> q in s'.reps && s'.reps[q] == s.reps[q]
  {
    hide Safe, Keep, ExecInv, Restarts, SameExec;
    RestartSafe(c, s, s', r, order, runs);
    RestartExecSelf(c, s, h, r, order, runs, s');
    var h' := h[r := Total(s, h, r)];
    forall q | q in s'.reps ensures ExecInv(s', h', q) {
      if q != r {
        assert q in s.reps by { assert s.reps.Keys == s'.reps.Keys by { KeepKeys(s, s'); } }
        SameRep(s.reps[q]);
        ExecStays(c, s, s', h, q);
        PastOf(s', h, h', q);
      }
    }
  }

  // ----- Every step -----

  /** What was executed stays executed, in its order, and no status decreases. */
  ghost predicate ExecutedPrefix(s: Sys, s': Sys) {
    && s.reps.Keys == s'.reps.Keys
    && forall r :: r in s.reps ==> s.reps[r].executed <= s'.reps[r].executed && RanksGrow(s.reps[r].log, s'.reps[r].log)
  }

  lemma SamePrefix(s: Sys, s': Sys, r: ReplicaID)
    requires r in s.reps && r in s'.reps && s'.reps == s.reps[r := s'.reps[r]] && SameExec(s.reps[r], s'.reps[r])
    ensures ExecutedPrefix(s, s')
  {
    hide ExecutedSet;
  }

  lemma PrefixRefl(s: Sys)
    ensures ExecutedPrefix(s, s)
  {
  }

  lemma PrefixTrans(a: Sys, b: Sys, c: Sys)
    requires ExecutedPrefix(a, b) && ExecutedPrefix(b, c)
    ensures ExecutedPrefix(a, c)
  {
  }

  lemma {:induction false} TickAllExec(c: Config, s: Sys, h: Past, r: ReplicaID, order: seq<InstanceID>)
    requires Safe(c, s) && AllExec(s, h) && r in s.reps
    ensures AllExec(TickAll(c, s, r, order), h) && ExecutedPrefix(s, TickAll(c, s, r, order))
    decreases |order|
  {
    hide Safe, Keep, AllExec, TickOne, LocalSafe, ExecutedSet;
    if order != [] && order[0] in s.reps[r].log {
      LocalAt(c, s, r);
      TickMoveSafe(c, s, r, order[0]);
      TickSame(c, r, s.reps[r], order[0]);
      var o := TickOne(c, r, s.reps[r], order[0]);
      var s1 := Put(s, r, o.rep, o.out);
      MoveExec(c, s, s1, h, r, o.rep);
      SamePrefix(s, s1, r);
      TickAllExec(c, s1, h, r, order[1..]);
      hide ExecutedPrefix;
      PrefixTrans(s, s1, TickAll(c, s1, r, order[1..]));
    } else {
      PrefixRefl(s);
    }
  }

  lemma PrefixDone(s: Sys, s': Sys, h: Past, r: ReplicaID)
    requires r in s.reps && r in s'.reps && s.reps[r].executed <= s'.reps[r].executed
    ensures Total(s, h, r) <= Total(s', h, r)
  {
  }

  lemma RunPrefix(s: Sys, r: ReplicaID, ex: seq<InstanceID>)
    requires r in s.reps && ExecuteAll(s.reps[r], ex).Done?
    ensures ExecutedPrefix(s, AfterRun(s, r, ex))
  {
    hide ExecutedSet, ExecuteAll;
    ExecuteSet(s.reps[r], ex);
    forall q | q in s.reps && q != r ensures RanksGrow(s.reps[q].log, s.reps[q].log) { RanksRefl(s.reps[q].log); }
  }

  lemma DeliverExec(c: Config, s: Sys, h: Past, i: nat, ex: seq<InstanceID>, s': Sys)
    requires Safe(c, s) && AllExec(s, h) && i < |s.sent| && Delivers(c, s, i, ex, s')
    ensures AllExec(s', h) && ExecutedPrefix(s, s')
  {
    hide Safe, Keep, AllExec, MayRun, Replicas.Step, ExecutedSet, ExecuteAll, ExecutedPrefix, RanksGrow;
    var m := s.sent[i].msg;
    var r := m.to;
    var o := Replicas.Step(c, r, s.reps[r], m);
    DeliveredIn(c, s);
    if o.Panicked? {
      SameReps(s, s');
      SameRep(s.reps[r]);
      MoveExec(c, s, s', h, r, s.reps[r]);
      SamePrefix(s, s', r);
    } else {
      var s1 := Put(s.(delivered := s.delivered + {i}), r, o.rep, o.out);
      assert Moves(s, s1, r, o.rep, o.out);
      StepSafe(c, s, i, s1);
      StepSame(c, r, s.reps[r], m);
      MoveExec(c, s, s1, h, r, o.rep);
      SamePrefix(s, s1, r);
      if o.run {
        RunExec(c, s1, h, r, ex);
        ExecuteSafe(c, s1, r, ex);
        RunPrefix(s1, r, ex);
        PrefixTrans(s, s1, s');
      }
    }
  }

  lemma WithinLife(c: Config, s: Sys, h: Past, step: System.Step, s': Sys)
    requires Safe(c, s) && AllExec(s, h) && Next(c, s, step, s') && !step.RestartStep?
    ensures AllExec(s', h) && ExecutedPrefix(s, s')
  {
    hide Safe, Keep, AllExec, Delivers, TickAll, OnRequest, MayRun, ExecutedSet, WellFormed;
    NextSafe(c, s, step, s');
    match step
    case RequestStep(r, cmd) =>
      RequestRun(c, r, s.reps[r], cmd);
      RequestSame(c, r, s.reps[r], cmd);
      var o := OnRequest(c, r, s.reps[r], cmd);
      MoveExec(c, s, s', h, r, if o.Done? then o.rep else s.reps[r]);
    case DeliverStep(i, ex) => DeliverExec(c, s, h, i, ex, s');
    case TickStep(r, order) => TickAllExec(c, s, h, r, order);
    case RedeliverStep(i, ex) => DeliverExec(c, s, h, i, ex, s');
  }

  lemma NextExec(c: Config, s: Sys, h: Past, step: System.Step, s': Sys, r: ReplicaID)
    requires Safe(c, s) && AllExec(s, h) && Next(c, s, step, s')
    ensures AllExec(s', NextPast(h, s, step))
    ensures r in s.reps ==> r in s'.reps && Total(s, h, r) <= Total(s', NextPast(h, s, step), r)
    ensures r in s.reps && !RestartOf(step, r) ==> RanksGrow(s.reps[r].log, s'.reps[r].log)
  {
    hide Safe, AllExec, Restarts, Follows, Delivers, TickAll, OnRequest;
    if step.RestartStep? {
      RestartExec(c, s, h, step.r, step.order, step.runs, s');
    } else {
      hide Next;
      WithinLife(c, s, h, step, s');
      if r in s.reps { PrefixDone(s, s', h, r); }
    }
  }

  // ----- Whole runs -----

  /** The past of each replica after k steps. */
  function Pasts(states: seq<Sys>, steps: seq<System.Step>, k: nat): Past
    requires k <= |steps| && |states| == |steps| + 1
  {
    if k == 0 then map[] else NextPast(Pasts(states, steps, k - 1), states[k - 1], steps[k - 1])
  }

  /** Everything that r has executed in the first k steps. */
  function TotalAt(states: seq<Sys>, steps: seq<System.Step>, k: nat, r: ReplicaID): seq<InstanceID>
    requires k <= |steps| && |states| == |steps| + 1
  {
    if r in states[k].reps then Total(states[k], Pasts(states, steps, k), r) else []
  }

  lemma InitialExec(c: Config)
    ensures AllExec(Initial(c), map[])
  {
  }

  lemma {:induction false} RunExecInv(c: Config, states: seq<Sys>, steps: seq<System.Step>, k: nat)
    requires IsRun(c, states, steps) && k < |states|
    ensures AllExec(states[k], Pasts(states, steps, k))
  {
    hide Safe, Next, AllExec;
    if k == 0 {
      InitialExec(c);
    } else {
      RunExecInv(c, states, steps, k - 1);
      RunSafe(c, states, steps, k - 1);
      assert Next(c, states[k - 1], steps[k - 1], states[k]);
      NextExec(c, states[k - 1], Pasts(states, steps, k - 1), steps[k - 1], states[k], 0);
    }
  }

  lemma TotalNext(c: Config, states: seq<Sys>, steps: seq<System.Step>, k: nat, r: ReplicaID)
    requires IsRun(c, states, steps) && k < |steps| && r in states[k].reps
    ensures r in states[k + 1].reps && TotalAt(states, steps, k, r) <= TotalAt(states, steps, k + 1, r)
    ensures !RestartOf(steps[k], r) ==> RanksGrow(states[k].reps[r].log, states[k + 1].reps[r].log)
  {
    hide Safe, Next, AllExec, RanksGrow, Total, NextPast;
    RunExecInv(c, states, steps, k);
    RunSafe(c, states, steps, k);
    assert Next(c, states[k], steps[k], states[k + 1]);
    NextExec(c, states[k], Pasts(states, steps, k), steps[k], states[k + 1], r);
  }

  /** In every run the sequence of what a replica has executed is only appended to, and between restarts no status
      decreases. */
  lemma {:induction false} RunExecutedPrefix(c: Config, states: seq<Sys>, steps: seq<System.Step>, j: nat, k: nat,
                                             r: ReplicaID)
    requires IsRun(c, states, steps) && j <= k < |states| && r in states[j].reps
    ensures r in states[k].reps && TotalAt(states, steps, j, r) <= TotalAt(states, steps, k, r)
    ensures StaysUp(steps, r, j, k) ==> RanksGrow(states[j].reps[r].log, states[k].reps[r].log)
    decreases k
  {
    hide Next, RanksGrow, TotalAt;
    if j < k {
      RunExecutedPrefix(c, states, steps, j, k - 1, r);
      TotalNext(c, states, steps, k - 1, r);
      if StaysUp(steps, r, j, k) {
        assert !RestartOf(steps[k - 1], r);
        RanksTrans(states[j].reps[r].log, states[k - 1].reps[r].log, states[k].reps[r].log);
      }
    } else {
      RanksRefl(states[j].reps[r].log);
    }
  }

  /** The command that a replica has for an instance. */
  function CommandAt(s: Sys, r: ReplicaID, id: InstanceID): Option<Command> {
    if r in s.reps && id in s.reps[r].log then s.reps[r].log[id].st.cmd else None
  }

  /** x and y depend on each other, and x has the smaller sequence number, or the same one and the smaller replica. */
  ghost predicate SmallerInComponent(g: Graph<InstanceID>, x: InstanceID, y: InstanceID) {
    && x in g && y in g && Mutual(g, x, y)
    && (g[x].seqNum < g[y].seqNum || (g[x].seqNum == g[y].seqNum && g[x].replica < g[y].replica))
  }

  lemma Separate(g: Graph<InstanceID>, done: seq<InstanceID>, x: InstanceID, y: InstanceID)
    requires Ordered(g, done) && x in done && y in done && x in g && y in g && Reach(g, y, x) && !Reach(g, x, y)
    ensures Precedes(done, x, y)
  {
    if x == y { ReachRefl(g, x); }
    hide Reach, Ordered, Contiguous;
    ForcedOrder(g, done, x, y);
  }

  lemma AllExecAt(s: Sys, h: Past, r: ReplicaID)
    requires AllExec(s, h) && r in s.reps
    ensures ExecInv(s, h, r)
  {
    hide ExecInv;
  }

  /** Exactly-once execution: in every run the instances that a replica has executed, over all its lives,
      are its Executed instances, each once; each delivered the command decided for it; each has all
      its dependencies executed, those outside its own component before it; a component executes without
      interruption, smaller sequence numbers first, then smaller replicas. */
  lemma ExactlyOnce(c: Config, states: seq<Sys>, steps: seq<System.Step>, k: nat, r: ReplicaID)
    requires IsRun(c, states, steps) && k < |states| && r in states[k].reps
    ensures var s, done, g := states[k], TotalAt(states, steps, k, r), LeaderGraph(states[k]);
            && NoDup(done)
            && (forall id :: id in done <==> id in s.reps[r].log && s.reps[r].log[id].st.status == Executed)
            && (forall id :: id in done ==> CommandAt(s, r, id).Some? && CommandAt(s, r, id) == LeadCmd(s, id))
            && (forall x, d :: x in done && Edge(g, x, d) ==> d in done)
            && (forall x, y :: x in done && y in done && Reach(g, y, x) && !Reach(g, x, y) ==> Precedes(done, x, y))
            && (forall x, y :: x in done && y in done && SmallerInComponent(g, x, y) ==> Precedes(done, x, y))
            && Contiguous(g, done)
  {
    hide Safe, AllExec, LeaderGraph, Reach, Next;
    RunExecInv(c, states, steps, k);
    RunSafe(c, states, steps, k);
    hide IsRun;
    var s, done, g := states[k], TotalAt(states, steps, k, r), LeaderGraph(states[k]);
    AllExecAt(s, Pasts(states, steps, k), r);
    forall id ensures id in done <==> id in ExecutedSet(s.reps[r].log) { assert id in done <==> id in Elems(done); }
    forall id | id in done ensures id in g && CommandAt(s, r, id).Some? && CommandAt(s, r, id) == LeadCmd(s, id) {
      ExecutedAtLeader(c, s, r, id);
      InGraph(s, id);
    }
    forall x, d | x in done && Edge(g, x, d) ensures d in done { assert x in Elems(done) && d in Elems(done); }
    forall x, y | x in done && y in done && Reach(g, y, x) && !Reach(g, x, y) ensures Precedes(done, x, y) {
      hide NoDup, Closed, Precedes;
      Separate(g, done, x, y);
    }
    forall x, y | x in done && y in done && SmallerInComponent(g, x, y) ensures Precedes(done, x, y) {
      hide NoDup, Closed, Precedes, Ordered, Contiguous;
      ForcedOrder(g, done, x, y);
    }
  }
}
