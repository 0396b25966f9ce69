/** Nothing waits that could execute: in every run with any faults, a replica has executed an instance exactly when
    it holds everything that the instance depends on as committed (epaxos/command.go, epaxos/execute.go). */
module Promptness {
  import opened Keys
  import opened Types
  import opened Scan
  import opened DepSlices
  import opened Graphs
  import opened ExecutionSpec
  import opened Replicas
  import opened Local
  import opened System
  import opened Safety
  import opened Runs
  import opened SameLeaders
  import opened Histories

  // ----- Graphs -----

  lemma PathReaches(g: Graph<InstanceID>, p: seq<InstanceID>, i: nat, y: InstanceID)
    requires IsPath(g, p) && i < |p| && p[|p| - 1] == y
    ensures Reach(g, p[i], y)
  {
    assert PathFromTo(g, p[i..], p[i], y);
  }

  /** A run does not execute what reaches something that is missing. */
  lemma NotRun(g: Graph<InstanceID>, h: set<InstanceID>, ex: seq<InstanceID>, x: InstanceID, y: InstanceID)
    requires RunSpec(g, h, ex) && Reach(g, x, y) && y !in g && y !in h
    ensures x !in ex
  {
    hide Ordered, Contiguous, NoDup, Reach;
  }

  /** What a run leaves is still blocked after it. */
  lemma RunLeavesBlocked(g: Graph<InstanceID>, h: set<InstanceID>, ex: seq<InstanceID>, x: InstanceID)
    requires RunSpec(g, h, ex) && x in g && x !in ex
    ensures !Ready(g - Elems(ex), h + Elems(ex), x)
  {
    hide Ordered, Contiguous, NoDup;
    var g' := g - Elems(ex);
    var y :| Reach(g, x, y) && y !in g && y !in h;
    var p :| PathFromTo(g, p, x, y);
    forall i | 0 <= i < |p| - 1 ensures Edge(g', p[i], p[i + 1]) {
      assert Edge(g, p[i], p[i + 1]);
      PathReaches(g, p, i, y);
      NotRun(g, h, ex, p[i], y);
    }
    assert PathFromTo(g', p, x, y);
    assert Reach(g', x, y) && y !in ex;
  }

  /** What is ready with fewer vertices and fewer executed instances is ready with more. */
  lemma ReadyUp(g: Graph<InstanceID>, h: set<InstanceID>, g': Graph<InstanceID>, h': set<InstanceID>, x: InstanceID)
    requires (forall v :: v in g ==> v in g' && g'[v].deps == g[v].deps) && h <= h' && g'.Keys !! h'
    requires Ready(g, h, x) && x in g
    ensures Ready(g', h', x)
  {
    hide Reach;
    var s := (set z | z in g && Reach(g, x, z)) + h;
    ReachRefl(g, x);
    forall a, b | a in s && Edge(g', a, b) ensures b in s {
      assert a in g && Edge(g, a, b);
      ReachEdge(g, a, b);
      ReachTrans(g, x, a, b);
    }
    forall y | Reach(g', x, y) ensures y in g' || y in h' { ReachClosed(g', s, x, y); }
  }

  // ----- One replica -----

  /** No vertex of the executor could execute. */
  ghost predicate NoneReady(rep: Replica) {
    forall v :: v in rep.vertices && v in rep.log ==> !Ready(VertexGraph(rep), ExecutedSet(rep.log), v)
  }

  lemma AfterExecute(rep: Replica, ex: seq<InstanceID>)
    requires MayRun(rep, ex) && ExecuteAll(rep, ex).Done?
    ensures NoneReady(ExecuteAll(rep, ex).rep)
  {
    var rep' := ExecuteAll(rep, ex).rep;
    assert VertexGraph(rep') == VertexGraph(rep) - Elems(ex);
    ExecuteSet(rep, ex);
    hide RunSpec, Ready, ExecutedSet, ExecuteAll;
    forall v | v in rep'.vertices && v in rep'.log
      ensures !Ready(VertexGraph(rep'), ExecutedSet(rep'.log), v)
    {
      assert v in VertexGraph(rep');
      RunLeavesBlocked(VertexGraph(rep), ExecutedSet(rep.log), ex, v);
    }
  }

  /** What is committed at id stays as it is, and nothing new is. */
  predicate EntryIdle(rep: Replica, rep': Replica, id: InstanceID) {
    && (id in rep.log && rep.log[id].st.status == Committed ==> id in rep'.log && rep'.log[id].st == rep.log[id].st)
    && (id in rep'.log && rep'.log[id].st.status == Committed ==> id in rep.log && rep.log[id].st.status == Committed)
  }

  lemma IdleKeeps(me: ReplicaID, rep: Replica, rep': Replica, id: InstanceID)
    requires LocalSafe(me, rep) && LocalSafe(me, rep') && SameElsewhere(rep, rep', id) && EntryIdle(rep, rep', id)
    requires ExecutedSet(rep'.log) == ExecutedSet(rep.log) && NoneReady(rep)
    ensures NoneReady(rep')
  {
    forall v ensures v in rep'.vertices && v in rep'.log <==> v in rep.vertices && v in rep.log
             ensures v in rep.vertices && v in rep.log ==> rep'.log[v].st == rep.log[v].st
    {
      assert LocalEntry(me, rep, v) && LocalEntry(me, rep', v);
      if v != id { assert Same(v, rep.log, rep'.log); }
    }
    assert VertexGraph(rep') == VertexGraph(rep);
  }

  lemma EitherIdle(c: Config, me: ReplicaID, rep: Replica, id: InstanceID)
    requires id in rep.log && rep.log[id].st.status == PreAccepted
    ensures var o := OnEitherPreAcceptReply(c, me, rep, id); o.Done? && !o.run ==> EntryIdle(rep, o.rep, id)
  {
    hide Broadcast;
  }

  lemma DispatchIdle(c: Config, me: ReplicaID, rep: Replica, m: Message)
    requires m.id in rep.log
    ensures var o := Dispatch(c, me, rep, m); o.Done? && !o.run ==> EntryIdle(rep, o.rep, m.id)
  {
    hide OnEitherPreAcceptReply, ScanAll, Slice, Broadcast;
    var inst := rep.log[m.id];
    if m.body.PreAcceptOK? && inst.st.status == PreAccepted {
      var inst' := inst.(preAcceptReplies := inst.preAcceptReplies + 1);
      EitherIdle(c, me, rep.(log := rep.log[m.id := inst']), m.id);
    } else if m.body.PreAcceptReply? && inst.st.status == PreAccepted {
      EitherIdle(c, me, rep.(log := rep.log[m.id := Merged(inst, m.body.seqNum, m.body.deps)]), m.id);
    }
  }

  lemma StepIdle(c: Config, me: ReplicaID, rep: Replica, m: Message)
    requires LocalSafe(me, rep) && NoneReady(rep)
    ensures var o := Replicas.Step(c, me, rep, m); o.Done? && !o.run ==> NoneReady(o.rep)
  {
    StepLocal(c, me, rep, m);
    StepSame(c, me, rep, m);
    hide LocalSafe, SameElsewhere, Dispatch, NoneReady, ExecutedSet;
    var o := Replicas.Step(c, me, rep, m);
    if o.Done? && !o.run {
      if m.id in rep.log {
        DispatchIdle(c, me, rep, m);
      } else {
        DispatchIdle(c, me, rep.(log := rep.log[m.id := NEW_INSTANCE]), m);
      }
      IdleKeeps(me, rep, o.rep, m.id);
    }
  }

  lemma RequestIdle(c: Config, me: ReplicaID, rep: Replica, cmd: Command)
    requires LocalSafe(me, rep) && NoneReady(rep) && WellFormed(cmd.span)
    ensures var o := OnRequest(c, me, rep, cmd); o.Done? ==> NoneReady(o.rep)
  {
    RequestLocal(c, me, rep, cmd);
    RequestSame(c, me, rep, cmd);
    FreshId(me, rep.log);
    hide LocalSafe, SameElsewhere, ScanAll, Slice, Broadcast, MaxInstanceNum, NoneReady, ExecutedSet, WellFormed;
    var o := OnRequest(c, me, rep, cmd);
    if o.Done? { IdleKeeps(me, rep, o.rep, InstanceID(me, MaxInstanceNum(rep.log, me) + 1)); }
  }

  lemma TickIdle(c: Config, me: ReplicaID, rep: Replica, id: InstanceID)
    requires LocalSafe(me, rep) && NoneReady(rep) && id in rep.log
    ensures var o := TickOne(c, me, rep, id); o.Done? && NoneReady(o.rep)
  {
    TickLocal(c, me, rep, id);
    TickSame(c, me, rep, id);
    hide LocalSafe, SameElsewhere, Broadcast, NoneReady, ExecutedSet;
    IdleKeeps(me, rep, TickOne(c, me, rep, id).rep, id);
  }

  // ----- Restarts -----

  /** What is loaded so far was a vertex or executed before the restart. */
  ghost predicate WasHeld(rep0: Replica, rep: Replica) {
    && (forall v :: v in rep.vertices ==>
          v in rep0.vertices && v in rep.log && v in rep0.log && rep.log[v].st.deps == rep0.log[v].st.deps)
    && ExecutedSet(rep.log) <= ExecutedSet(rep0.log)
  }

  lemma HeldBlocked(me: ReplicaID, rep0: Replica, rep: Replica)
    requires LocalSafe(me, rep0) && NoneReady(rep0) && WasHeld(rep0, rep)
    ensures NoneReady(rep)
  {
    hide Ready;
    var g, g0 := VertexGraph(rep), VertexGraph(rep0);
    forall v ensures !(v in g0 && v in ExecutedSet(rep0.log)) { assert LocalEntry(me, rep0, v); }
    hide LocalSafe;
    forall v | v in rep.vertices && v in rep.log ensures !Ready(g, ExecutedSet(rep.log), v) {
      if Ready(g, ExecutedSet(rep.log), v) {
        ReadyUp(g, ExecutedSet(rep.log), g0, ExecutedSet(rep0.log), v);
      }
    }
  }

  lemma HasElement(ex: seq<InstanceID>)
    ensures ex == [] || exists x :: x in ex
  {
    if ex != [] { assert ex[0] in ex; }
  }

  lemma NothingRuns(rep: Replica, ex: seq<InstanceID>)
    requires NoneReady(rep) && MayRun(rep, ex)
    ensures ex == []
  {
    hide Ready, Ordered, Contiguous, NoDup;
    HasElement(ex);
  }

  lemma LoadHeld(c: Config, me: ReplicaID, rep0: Replica, rep: Replica, id: InstanceID)
    requires LocalSafe(me, rep0) && WasHeld(rep0, rep) && id in rep0.storage && id !in rep.log
    requires LoadOne(c, me, rep, id, rep0.storage[id]).Done?
    ensures WasHeld(rep0, LoadOne(c, me, rep, id, rep0.storage[id]).rep)
  {
    assert LocalEntry(me, rep0, id);
    hide LocalSafe, Broadcast;
  }

  lemma LoadKeys(c: Config, me: ReplicaID, rep: Replica, id: InstanceID, st: InstanceState)
    requires LoadOne(c, me, rep, id, st).Done?
    ensures LoadOne(c, me, rep, id, st).rep.log.Keys == rep.log.Keys + {id}
  {
  }

  /** The instances in order are loaded, and nothing else happened. */
  ghost predicate JustLoaded(me: ReplicaID, rep: Replica, stored: map<InstanceID, InstanceState>,
                             order: seq<InstanceID>, rep': Replica) {
    && rep'.timers == rep.timers && rep'.executed == rep.executed && rep'.storage == rep.storage
    && (forall id :: id in order ==> id in stored && id in rep'.log && rep'.log[id] == FromState(stored[id]))
    && (forall id :: id !in order ==> Same(id, rep.log, rep'.log))
    && (forall id :: id in rep'.vertices <==>
          id in rep.vertices || (id in order && id in stored && id.replica == me && stored[id].status == Committed))
  }

  lemma LoadsFirst(c: Config, me: ReplicaID, rep: Replica, stored: map<InstanceID, InstanceState>,
                   order: seq<InstanceID>, rep': Replica)
    requires order != [] && order[0] in stored && NoDup(order) && LoadOne(c, me, rep, order[0], stored[order[0]]).Done?
    requires JustLoaded(me, LoadOne(c, me, rep, order[0], stored[order[0]]).rep, stored, order[1..], rep')
    ensures JustLoaded(me, rep, stored, order, rep')
  {
    var id, rest := order[0], order[1..];
    hide Broadcast, NoDup;
    assert order == [id] + rest;
    assert id !in rest by { TailNoDup(order); }
    var rep1 := LoadOne(c, me, rep, id, stored[id]).rep;
    assert Same(id, rep1.log, rep'.log);
    forall x | x !in order ensures Same(x, rep.log, rep'.log) { assert Same(x, rep1.log, rep'.log); }
  }

  lemma {:induction false} LoadsHeld(c: Config, me: ReplicaID, rep0: Replica, rep: Replica, order: seq<InstanceID>,
                                     runs: seq<seq<InstanceID>>, rep': Replica, out: seq<Message>)
    requires LocalSafe(me, rep0) && NoneReady(rep0) && |runs| == |order| && NoDup(order)
    requires (forall id :: id in order ==> id in rep0.storage && id !in rep.log) && WasHeld(rep0, rep)
    requires Loads(c, me, rep, rep0.storage, order, runs, rep', out)
    ensures WasHeld(rep0, rep') && JustLoaded(me, rep, rep0.storage, order, rep')
    decreases |order|
  {
    if order != [] {
      hide LocalSafe, NoneReady, WasHeld, LoadOne, MayRun, ExecuteAll, JustLoaded, NoDup;
      var id, rest := order[0], order[1..];
      LoadHeld(c, me, rep0, rep, id);
      var o := LoadOne(c, me, rep, id, rep0.storage[id]);
      HeldBlocked(me, rep0, o.rep);
      if o.run { NothingRuns(o.rep, runs[0]); }
      ExecuteNothing(o.rep);
      LoadKeys(c, me, rep, id, rep0.storage[id]);
      TailNoDup(order);
      assert forall x :: x in rest ==> x in order && x != id;
      LoadsHeld(c, me, rep0, o.rep, rest, runs[1..], rep', out[|o.out|..]);
      LoadsFirst(c, me, rep, rep0.storage, order, rep');
    }
  }

  lemma StartHeld(rep0: Replica)
    ensures WasHeld(rep0, Rebooted(rep0.storage))
  {
  }

  /** What a replica is after loading what it has persisted: the stored states with new counters, the own committed
      ones as vertices, and nothing else. */
  function Restored(me: ReplicaID, stored: map<InstanceID, InstanceState>): Replica {
    Replica(map id | id in stored :: FromState(stored[id]), {},
            set id | id in stored && id.replica == me && stored[id].status == Committed, [], stored)
  }

  lemma LoadedIs(me: ReplicaID, stored: map<InstanceID, InstanceState>, order: seq<InstanceID>, rep: Replica)
    requires JustLoaded(me, Rebooted(stored), stored, order, rep) && forall id :: id in order <==> id in stored
    ensures rep == Restored(me, stored)
  {
    forall id ensures id in rep.log <==> id in stored {
      if id !in order { assert Same(id, Rebooted(stored).log, rep.log); }
    }
    assert rep.log == Restored(me, stored).log;
  }

  lemma RestartIdle(c: Config, s: Sys, r: ReplicaID, order: seq<InstanceID>, runs: seq<seq<InstanceID>>, s': Sys)
    requires Safe(c, s) && r in s.reps && NoneReady(s.reps[r]) && Restarts(c, s, r, order, runs, s')
    ensures r in s'.reps && NoneReady(s'.reps[r]) && s'.reps[r] == Restored(r, s.reps[r].storage)
    ensures forall q :: q in s'.reps && q != r ==> q in s.reps && s'.reps[q] == s.reps[q]
  {
    hide Safe, LocalSafe, NoneReady, WasHeld, Loads, NoDup, Packets, JustLoaded, Restored;
    var rep0 := s.reps[r];
    var rep, out :| Loads(c, r, Rebooted(rep0.storage), rep0.storage, order, runs, rep, out)
                    && s' == Put(s, r, rep, out).(crashed := s.crashed - {r});
    LocalAt(c, s, r);
    StartHeld(rep0);
    LoadsHeld(c, r, rep0, Rebooted(rep0.storage), order, runs, rep, out);
    LoadedIs(r, rep0.storage, order, rep);
    HeldBlocked(r, rep0, rep);
  }

  // ----- All replicas -----

  ghost predicate AllBlocked(s: Sys) {
    forall r :: r in s.reps ==> NoneReady(s.reps[r])
  }

  lemma FollowsIdle(c: Config, s: Sys, r: ReplicaID, o: Outcome, ex: seq<InstanceID>, s': Sys)
    requires AllBlocked(s) && r in s.reps && (o.Done? && !o.run ==> NoneReady(o.rep)) && Follows(s, r, o, ex, s')
    ensures AllBlocked(s')
  {
    hide NoneReady, MayRun, ExecuteAll;
    if o.Done? && o.run && ExecuteAll(o.rep, ex).Done? { AfterExecute(o.rep, ex); }
  }

  lemma {:induction false} TickAllIdle(c: Config, s: Sys, r: ReplicaID, order: seq<InstanceID>)
    requires Safe(c, s) && AllBlocked(s) && r in s.reps
    ensures AllBlocked(TickAll(c, s, r, order))
    decreases |order|
  {
    hide Safe, Keep, NoneReady, TickOne, LocalSafe;
    if order != [] && order[0] in s.reps[r].log {
      LocalAt(c, s, r);
      TickMoveSafe(c, s, r, order[0]);
      TickIdle(c, r, s.reps[r], order[0]);
      var o := TickOne(c, r, s.reps[r], order[0]);
      TickAllIdle(c, Put(s, r, o.rep, o.out), r, order[1..]);
    }
  }

  lemma DeliverIdle(c: Config, s: Sys, i: nat, ex: seq<InstanceID>, s': Sys)
    requires Safe(c, s) && AllBlocked(s) && i < |s.sent| && Delivers(c, s, i, ex, s')
    ensures AllBlocked(s')
  {
    hide Safe, NoneReady, Follows, Replicas.Step, LocalSafe;
    var m := s.sent[i].msg;
    LocalAt(c, s, m.to);
    StepIdle(c, m.to, s.reps[m.to], m);
    FollowsIdle(c, s.(delivered := s.delivered + {i}), m.to, Replicas.Step(c, m.to, s.reps[m.to], m), ex, s');
  }

  lemma BlockedAt(s: Sys, r: ReplicaID)
    requires AllBlocked(s) && r in s.reps
    ensures NoneReady(s.reps[r])
  {
  }

  lemma AllBlockedIs(s: Sys)
    requires forall r :: r in s.reps ==> NoneReady(s.reps[r])
    ensures AllBlocked(s)
  {
  }

  lemma NextIdle(c: Config, s: Sys, step: System.Step, s': Sys)
    requires Safe(c, s) && AllBlocked(s) && Next(c, s, step, s')
    ensures AllBlocked(s')
  {
    hide Safe, AllBlocked, Delivers, TickAll, Restarts, Follows, OnRequest, LocalSafe, NoneReady, WellFormed;
    match step
    case RequestStep(r, cmd) =>
      LocalAt(c, s, r);
      BlockedAt(s, r);
      RequestIdle(c, r, s.reps[r], cmd);
      FollowsIdle(c, s, r, OnRequest(c, r, s.reps[r], cmd), [], s');
    case DeliverStep(i, ex) => DeliverIdle(c, s, i, ex, s');
    case TickStep(r, order) => TickAllIdle(c, s, r, order);
    case RedeliverStep(i, ex) => DeliverIdle(c, s, i, ex, s');
    case RestartStep(r, order, runs) =>
      BlockedAt(s, r);
      RestartIdle(c, s, r, order, runs, s');
      forall q | q in s'.reps ensures NoneReady(s'.reps[q]) { if q != r { BlockedAt(s, q); } }
      AllBlockedIs(s');
  }

  lemma StartIdle(c: Config)
    ensures AllBlocked(Initial(c))
  {
  }

  /** In every run, after every step and at every replica, no vertex of the executor is ready. */
  lemma {:induction false} RunIdle(c: Config, states: seq<Sys>, steps: seq<System.Step>, k: nat)
    requires IsRun(c, states, steps) && k < |states|
    ensures AllBlocked(states[k])
  {
    hide Safe, Next, NoneReady;
    if k > 0 {
      RunIdle(c, states, steps, k - 1);
      RunSafe(c, states, steps, k - 1);
      assert Next(c, states[k - 1], steps[k - 1], states[k]);
      NextIdle(c, states[k - 1], steps[k - 1], states[k]);
    } else {
      StartIdle(c);
    }
  }

  /** In every run, a restart brings a replica back to exactly this, whatever the order of loading: no instance that it
      loads was waiting for another one that it loads. */
  lemma RestartRestores(c: Config, states: seq<Sys>, steps: seq<System.Step>, k: nat)
    requires IsRun(c, states, steps) && k < |steps| && steps[k].RestartStep?
    ensures var r := steps[k].r;
            r in states[k].reps && r in states[k + 1].reps
            && states[k + 1].reps[r] == Restored(r, states[k].reps[r].storage)
  {
    RunSafe(c, states, steps, k);
    RunIdle(c, states, steps, k);
    var s, s' := states[k], states[k + 1];
    assert Next(c, s, steps[k], s');
    hide IsRun, Safe, AllBlocked, Restarts, NoneReady, Restored;
    BlockedAt(s, steps[k].r);
    RestartIdle(c, s, steps[k].r, steps[k].order, steps[k].runs, s');
  }

  // ----- Exactly what has executed -----

  /** The dependencies of what a log holds as committed or executed. */
  function HeldGraph(log: Log): Graph<InstanceID> {
    map id | id in log && IsCommitted(log[id].st.status) :: ExecOf(id, log[id])
  }

  lemma BlockedHeld(me: ReplicaID, rep: Replica, id: InstanceID)
    requires LocalSafe(me, rep) && NoneReady(rep) && id in rep.log && rep.log[id].st.status == Committed
    ensures exists y :: Reach(HeldGraph(rep.log), id, y) && y !in HeldGraph(rep.log)
  {
    assert LocalEntry(me, rep, id);
    hide Reach;
    var g, h := VertexGraph(rep), HeldGraph(rep.log);
    var y :| Reach(g, id, y) && y !in g && y !in ExecutedSet(rep.log);
    assert LocalEntry(me, rep, y);
    assert forall a, b :: Edge(g, a, b) ==> Edge(h, a, b) by {
      forall a, b | Edge(g, a, b) ensures Edge(h, a, b) { assert LocalEntry(me, rep, a); }
    }
    ReachMono(g, h, id, y);
  }

  lemma ExecutedHeld(c: Config, s: Sys, h: Past, r: ReplicaID, id: InstanceID, y: InstanceID)
    requires Safe(c, s) && AllExec(s, h) && r in s.reps && id in ExecutedSet(s.reps[r].log)
    requires Reach(HeldGraph(s.reps[r].log), id, y)
    ensures y in ExecutedSet(s.reps[r].log)
  {
    var log, done := s.reps[r].log, ExecutedSet(s.reps[r].log);
    AllExecAt(s, h, r);
    hide Reach, Safe, AllExec, LeaderGraph, Ordered, Contiguous, NoDup;
    forall a, b | a in done && Edge(HeldGraph(log), a, b) ensures b in done {
      ExecutedAtLeader(c, s, r, a);
      InGraph(s, a);
      assert Edge(LeaderGraph(s), a, b);
    }
    ReachClosed(HeldGraph(log), done, id, y);
  }

  /** In every run with any faults, and after every step: a replica has executed what it holds as committed exactly
      when it holds everything that this reaches through dependencies as committed, too. */
  lemma ExecutesExactly(c: Config, states: seq<Sys>, steps: seq<System.Step>, k: nat, r: ReplicaID, id: InstanceID)
    requires IsRun(c, states, steps) && k < |states| && r in states[k].reps
    requires id in states[k].reps[r].log && IsCommitted(states[k].reps[r].log[id].st.status)
    ensures var log := states[k].reps[r].log;
            log[id].st.status == Executed <==>
            forall y :: Reach(HeldGraph(log), id, y) ==> y in log && IsCommitted(log[y].st.status)
  {
    hide Next, Safe, NoneReady, AllExec;
    RunSafe(c, states, steps, k);
    RunIdle(c, states, steps, k);
    RunExecInv(c, states, steps, k);
    hide IsRun, Pasts;
    var s := states[k];
    LocalAt(c, s, r);
    BlockedAt(s, r);
    hide LocalSafe, Reach;
    var log := s.reps[r].log;
    if log[id].st.status == Executed {
      forall y | Reach(HeldGraph(log), id, y) ensures y in log && IsCommitted(log[y].st.status) {
        ExecutedHeld(c, s, Pasts(states, steps, k), r, id, y);
      }
    } else {
      BlockedHeld(r, s.reps[r], id);
    }
  }
}
