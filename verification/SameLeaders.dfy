/** The premise of pruning: an instance reaches every earlier interfering instance of its
    own leader. It holds in every run, with any faults (epaxos/command.go). */
module SameLeaders {
  import opened Keys
  import opened Types
  import opened Scan
  import opened DepSlices
  import opened Graphs
  import opened Replicas
  import opened Local
  import opened System
  import opened Safety
  import opened Restart
  import opened Runs
  import opened CrashStop
  import opened CrashStopSteps
  import opened CrashStopRuns

  // ----- Cover within one command space -----

  /** x is a dependency, or is shielded by one below slot n. */
  ghost predicate CoveredBelow(s: Sys, deps: set<InstanceID>, x: InstanceID, n: nat) {
    x in deps || exists d :: d in deps && d.num < n && ShieldsIn(s, d, x)
  }

  lemma BelowGrows(s: Sys, s': Sys, deps: set<InstanceID>, deps': set<InstanceID>, x: InstanceID, n: nat)
    requires Keep(s, s') && CoveredBelow(s, deps, x, n) && deps <= deps'
    ensures CoveredBelow(s', deps', x, n)
  {
    if x !in deps {
      hide Keep;
      var d :| d in deps && d.num < n && ShieldsIn(s, d, x);
      CmdGrows(s, s', d);
      CmdGrows(s, s', x);
      assert ShieldsIn(s', d, x);
    }
  }

  /** Every earlier interfering instance of the same leader is covered by deps. */
  ghost predicate CoversEarlier(s: Sys, id: InstanceID, deps: set<InstanceID>) {
    forall x: InstanceID :: x.replica == id.replica && LeaderHas(s, x) && x.num < id.num && MeetAt(s, x, id)
      ==> CoveredBelow(s, deps, x, id.num)
  }

  ghost predicate SameLeader(s: Sys, id: InstanceID) {
    CoversEarlier(s, id, LeadDeps(s, id))
  }

  ghost predicate AllSameLeader(s: Sys) {
    forall id :: LeaderHas(s, id) ==> SameLeader(s, id)
  }

  // ----- Reachability -----

  function KnownIds(s: Sys): set<InstanceID> {
    set r, id | r in s.reps && id in s.reps[r].log :: id
  }

  /** The dependency graph as the command leaders have it. */
  function LeaderGraph(s: Sys): Graph<InstanceID> {
    map id | id in KnownIds(s) && LeaderHas(s, id) :: ExecOf(id, Lead(s, id))
  }

  lemma InGraph(s: Sys, id: InstanceID)
    ensures id in LeaderGraph(s) <==> LeaderHas(s, id)
    ensures LeaderHas(s, id) ==> LeaderGraph(s)[id] == ExecOf(id, Lead(s, id))
  {
    if LeaderHas(s, id) { assert id.replica in s.reps && id in s.reps[id.replica].log; }
  }

  lemma DepEdge(s: Sys, x: InstanceID, d: InstanceID)
    ensures Edge(LeaderGraph(s), x, d) <==> d in LeadDeps(s, x)
  {
    hide LeaderGraph;
    InGraph(s, x);
  }

  lemma ShieldMeets(s: Sys, d: InstanceID, x: InstanceID)
    requires ShieldsIn(s, d, x)
    ensures LeaderHas(s, d) && LeaderHas(s, x) && MeetAt(s, x, d)
  {
    OverlapsSym(LeadCmd(s, d).value.span, LeadCmd(s, x).value.span);
  }

  /** An instance reaches every earlier interfering instance of its leader. */
  lemma {:induction false} SameLeaderReach(s: Sys, id: InstanceID, x: InstanceID)
    requires AllSameLeader(s) && LeaderHas(s, id) && LeaderHas(s, x)
    requires x.replica == id.replica && x.num < id.num && MeetAt(s, x, id)
    ensures Reach(LeaderGraph(s), id, x)
    decreases id.num
  {
    assert SameLeader(s, id) by { hide SameLeader; }
    assert CoveredBelow(s, LeadDeps(s, id), x, id.num);
    hide AllSameLeader, SameLeader, LeaderGraph, Reach, MeetAt;
    if x in LeadDeps(s, id) {
      DepEdge(s, id, x);
      ReachEdge(LeaderGraph(s), id, x);
    } else {
      var d :| d in LeadDeps(s, id) && d.num < id.num && ShieldsIn(s, d, x);
      DepEdge(s, id, d);
      ReachEdge(LeaderGraph(s), id, d);
      ShieldMeets(s, d, x);
      SameLeaderReach(s, d, x);
      ReachTrans(LeaderGraph(s), id, d, x);
    }
  }

  // ----- New slots -----

  lemma NextIsLast(s: Sys, r: ReplicaID, y: InstanceID)
    requires r in s.reps && y.replica == r && y in s.reps[r].log
    ensures y.num < NextId(s, r).num
  {
    assert y.num in Nums(s.reps[r].log, r);
  }

  lemma ScanBelow(c: Config, s: Sys, s': Sys, r: ReplicaID, cmd: Command, id: InstanceID, x: InstanceID)
    requires r in s.reps && id == NextId(s, r) && x.replica == r && Keep(s, s') && LeaderHas(s', id)
    requires ScanAll(s.reps[r].log, c.nodes, cmd, InstanceID(0, 0)).Found?
    requires LeadDeps(s', id) == ScanAll(s.reps[r].log, c.nodes, cmd, InstanceID(0, 0)).deps
    requires CoveredIn(s, LeadDeps(s', id), x)
    ensures CoveredBelow(s', LeadDeps(s', id), x, id.num)
  {
    hide Keep, ScanAll, MaxInstanceNum;
    var deps := LeadDeps(s', id);
    if x !in deps {
      var d :| d in deps && ShieldsIn(s, d, x);
      CmdGrows(s, s', d);
      CmdGrows(s, s', x);
      ScanSound(s.reps[r].log, c.nodes, cmd, InstanceID(0, 0));
      NextIsLast(s, r, d);
      assert ShieldsIn(s', d, x);
    }
  }

  /** Every earlier own instance that interferes is covered below the new slot. */
  lemma RequestSameLeader(c: Config, s: Sys, r: ReplicaID, cmd: Command, id: InstanceID, o: Outcome, s': Sys)
    requires Safe(c, s) && RequestDelivery(c, s, r, cmd, id, o, s')
    ensures LeaderHas(s', id) && SameLeader(s', id)
  {
    hide Safe, Keep, OnRequest, Moves, SameElsewhere, Interferes, WellFormed, ScanAll, Sorted, Broadcast,
         MaxInstanceNum, Grow;
    RequestFacts(c, s, r, cmd, id, o, s');
    RequestGrows(c, s, r, cmd, id, o, s');
    RepLogAgrees(c, s, r);
    var log := s.reps[r].log;
    forall x: InstanceID | x.replica == id.replica && LeaderHas(s', x) && x.num < id.num && MeetAt(s', x, id)
      ensures CoveredBelow(s', LeadDeps(s', id), x, id.num)
    {
      CmdGrows(s, s', x);
      LeadCmdOK(c, s, x);
      ScanCoversIn(c, s, log, cmd, InstanceID(0, 0), x);
      ScanBelow(c, s, s', r, cmd, id, x);
    }
  }

  // ----- What is persisted covers too -----

  /** The dependencies that the leader of id has persisted. */
  function StoredDeps(s: Sys, id: InstanceID): set<InstanceID> {
    if id.replica in s.reps && id in s.reps[id.replica].storage then Elems(s.reps[id.replica].storage[id].deps) else {}
  }

  /** The sequence number that the leader of id has persisted. */
  function StoredNum(s: Sys, id: InstanceID): nat {
    if id.replica in s.reps && id in s.reps[id.replica].storage then s.reps[id.replica].storage[id].seqNum else 0
  }

  /** st has at least the attributes of was. */
  predicate AtLeast(was: InstanceState, st: InstanceState) {
    Elems(was.deps) <= Elems(st.deps) && was.seqNum <= st.seqNum
  }

  /** A leader holds at least the attributes that it has persisted. */
  predicate EntryBelow(rep: Replica, id: InstanceID) {
    id in rep.log ==> id in rep.storage && AtLeast(rep.storage[id], rep.log[id].st)
  }

  ghost predicate OwnBelow(me: ReplicaID, rep: Replica) {
    forall id: InstanceID :: id.replica == me ==> EntryBelow(rep, id)
  }

  /** No own instance is opened or dropped, and the persisted attributes of each only grow. */
  predicate EntryKept(rep: Replica, rep': Replica, id: InstanceID) {
    && (id in rep.log <==> id in rep'.log)
    && (id in rep.log && id in rep.storage ==>
          id in rep'.storage && AtLeast(rep.storage[id], rep'.storage[id]))
  }

  ghost predicate OwnKept(me: ReplicaID, rep: Replica, rep': Replica) {
    forall id: InstanceID :: id.replica == me ==> EntryKept(rep, rep', id)
  }

  ghost predicate SL(s: Sys) {
    && (forall r :: r in s.reps ==> OwnBelow(r, s.reps[r]))
    && forall id :: LeaderHas(s, id) ==> CoversEarlier(s, id, StoredDeps(s, id))
  }

  lemma CoversMore(s: Sys, s': Sys, id: InstanceID, deps: set<InstanceID>, deps': set<InstanceID>)
    requires Keep(s, s') && LeaderHas(s, id) && CoversEarlier(s, id, deps) && deps <= deps'
    requires forall x: InstanceID :: x.replica == id.replica && LeaderHas(s', x) && x.num < id.num ==> LeaderHas(s, x)
    ensures CoversEarlier(s', id, deps')
  {
    hide Keep, CoveredBelow, Interferes;
    forall x: InstanceID | x.replica == id.replica && LeaderHas(s', x) && x.num < id.num && MeetAt(s', x, id)
      ensures CoveredBelow(s', deps', x, id.num)
    {
      CmdGrows(s, s', x);
      CmdGrows(s, s', id);
      BelowGrows(s, s', deps, deps', x, id.num);
    }
  }

  /** What the leaders have persisted only grows. */
  ghost predicate StoredGrows(s: Sys, s': Sys) {
    forall id :: LeaderHas(s, id) ==>
      LeaderHas(s', id) && StoredDeps(s, id) <= StoredDeps(s', id) && StoredNum(s, id) <= StoredNum(s', id)
  }

  lemma StoredGrowsTrans(a: Sys, b: Sys, c: Sys)
    requires StoredGrows(a, b) && StoredGrows(b, c)
    ensures StoredGrows(a, c)
  {
    hide StoredDeps, StoredNum, LeaderHas;
  }

  lemma StoredBelow(s: Sys, id: InstanceID)
    requires SL(s) && LeaderHas(s, id)
    ensures StoredDeps(s, id) <= LeadDeps(s, id) && StoredNum(s, id) <= Lead(s, id).st.seqNum
  {
    hide CoversEarlier;
    assert OwnBelow(id.replica, s.reps[id.replica]);
    assert EntryBelow(s.reps[id.replica], id);
  }

  lemma SLAll(s: Sys)
    requires SL(s)
    ensures AllSameLeader(s)
  {
    hide CoversEarlier, OwnBelow, Keep;
    KeepRefl(s);
    forall id | LeaderHas(s, id) ensures SameLeader(s, id) {
      StoredBelow(s, id);
      CoversMore(s, s, id, StoredDeps(s, id), LeadDeps(s, id));
    }
  }

  lemma KeptDeps(s: Sys, s': Sys, r: ReplicaID, rep: Replica, id: InstanceID)
    requires r in s.reps && s'.reps == s.reps[r := rep] && OwnBelow(r, s.reps[r]) && OwnKept(r, s.reps[r], rep)
    ensures LeaderHas(s', id) <==> LeaderHas(s, id)
    ensures LeaderHas(s, id) ==>
              StoredDeps(s, id) <= StoredDeps(s', id) && StoredNum(s, id) <= StoredNum(s', id)
  {
    if id.replica == r {
      assert EntryKept(s.reps[r], rep, id);
      assert EntryBelow(s.reps[r], id);
    }
  }

  lemma MoveSL(s: Sys, s': Sys, r: ReplicaID, rep: Replica)
    requires SL(s) && Keep(s, s') && r in s.reps && s'.reps == s.reps[r := rep]
    requires OwnBelow(r, rep) && OwnKept(r, s.reps[r], rep)
    ensures SL(s') && StoredGrows(s, s')
  {
    hide Keep, CoversEarlier, OwnBelow, OwnKept, LeaderHas, StoredDeps, StoredNum;
    forall id ensures LeaderHas(s', id) <==> LeaderHas(s, id)
              ensures LeaderHas(s, id) ==>
                        StoredDeps(s, id) <= StoredDeps(s', id) && StoredNum(s, id) <= StoredNum(s', id)
    {
      KeptDeps(s, s', r, rep, id);
    }
    forall id | LeaderHas(s', id) ensures CoversEarlier(s', id, StoredDeps(s', id)) {
      CoversMore(s, s', id, StoredDeps(s, id), StoredDeps(s', id));
    }
  }

  // ----- Steps of one replica -----

  /** The attributes of id grow, and are persisted or not. */
  predicate EntryStep(rep: Replica, rep': Replica, id: InstanceID) {
    && (id in rep.log <==> id in rep'.log)
    && (id in rep.log && id in rep'.log ==>
          && AtLeast(rep.log[id].st, rep'.log[id].st)
          && (|| Same(id, rep.storage, rep'.storage)
              || (id in rep'.storage && rep'.storage[id] == rep'.log[id].st)))
  }

  lemma StepOwn(me: ReplicaID, rep: Replica, rep': Replica, id: InstanceID)
    requires OwnBelow(me, rep) && SameElsewhere(rep, rep', id) && (id.replica == me ==> EntryStep(rep, rep', id))
    ensures OwnBelow(me, rep') && OwnKept(me, rep, rep')
  {
    forall x: InstanceID | x.replica == me ensures EntryBelow(rep', x) && EntryKept(rep, rep', x) {
      assert EntryBelow(rep, x);
      if x != id { assert Same(x, rep.log, rep'.log) && Same(x, rep.storage, rep'.storage); }
    }
  }

  lemma EitherEntry(c: Config, me: ReplicaID, rep: Replica, id: InstanceID)
    requires id in rep.log
    ensures var o := OnEitherPreAcceptReply(c, me, rep, id); o.Done? ==> EntryStep(rep, o.rep, id)
  {
    hide Broadcast, Elems;
  }

  lemma {:induction false} EntryTrans(rep: Replica, inst: Instance, rep': Replica, id: InstanceID)
    requires id in rep.log && AtLeast(rep.log[id].st, inst.st)
    requires EntryStep(rep.(log := rep.log[id := inst]), rep', id)
    ensures EntryStep(rep, rep', id)
  {
  }

  lemma ReplyEntry(c: Config, me: ReplicaID, rep: Replica, m: Message)
    requires m.id in rep.log && IsReply(m.body)
    ensures var o := Dispatch(c, me, rep, m); o.Done? ==> EntryStep(rep, o.rep, m.id)
  {
    hide OnEitherPreAcceptReply, Slice, Broadcast;
    var inst := rep.log[m.id];
    if m.body.PreAcceptOK? && inst.st.status == PreAccepted {
      var inst' := inst.(preAcceptReplies := inst.preAcceptReplies + 1);
      var rep1 := rep.(log := rep.log[m.id := inst']);
      EitherEntry(c, me, rep1, m.id);
      var o := OnEitherPreAcceptReply(c, me, rep1, m.id);
      if o.Done? { EntryTrans(rep, inst', o.rep, m.id); }
    } else if m.body.PreAcceptReply? && inst.st.status == PreAccepted {
      var inst' := Merged(inst, m.body.seqNum, m.body.deps);
      SliceIds(Elems(inst.st.deps) + Elems(m.body.deps));
      var rep1 := rep.(log := rep.log[m.id := inst']);
      EitherEntry(c, me, rep1, m.id);
      var o := OnEitherPreAcceptReply(c, me, rep1, m.id);
      if o.Done? { EntryTrans(rep, inst', o.rep, m.id); }
    }
  }

  lemma StepEntry(c: Config, me: ReplicaID, rep: Replica, m: Message)
    requires m.id.replica == me
    ensures var o := Replicas.Step(c, me, rep, m); o.Done? ==> EntryStep(rep, o.rep, m.id)
  {
    hide Dispatch;
    if ValidMessage(c, me, m) && m.id in rep.log { ReplyEntry(c, me, rep, m); }
  }

  lemma StepKeeps(c: Config, me: ReplicaID, rep: Replica, m: Message)
    requires LocalSafe(me, rep) && OwnBelow(me, rep)
    ensures var o := Replicas.Step(c, me, rep, m); o.Done? ==> OwnBelow(me, o.rep) && OwnKept(me, rep, o.rep)
  {
    hide Replicas.Step, LocalSafe, OwnBelow, OwnKept, SameElsewhere, EntryStep;
    StepLocal(c, me, rep, m);
    var o := Replicas.Step(c, me, rep, m);
    if m.id.replica == me { StepEntry(c, me, rep, m); }
    if o.Done? { StepOwn(me, rep, o.rep, m.id); }
  }

  lemma TickKeeps(c: Config, me: ReplicaID, rep: Replica, id: InstanceID)
    requires LocalSafe(me, rep) && OwnBelow(me, rep) && id in rep.log
    ensures var o := TickOne(c, me, rep, id);
            o.Done? && LocalSafe(me, o.rep) && OwnBelow(me, o.rep) && OwnKept(me, rep, o.rep)
  {
    hide LocalSafe, OwnBelow, OwnKept, SameElsewhere, Broadcast;
    TickLocal(c, me, rep, id);
    StepOwn(me, rep, TickOne(c, me, rep, id).rep, id);
  }

  lemma ExecuteKeeps(me: ReplicaID, rep: Replica, ex: seq<InstanceID>)
    requires OwnBelow(me, rep) && ExecuteAll(rep, ex).Done?
    ensures OwnBelow(me, ExecuteAll(rep, ex).rep) && OwnKept(me, rep, ExecuteAll(rep, ex).rep)
  {
    var rep' := ExecuteAll(rep, ex).rep;
    forall x: InstanceID | x.replica == me ensures EntryBelow(rep', x) && EntryKept(rep, rep', x) {
      assert EntryBelow(rep, x);
    }
  }

  // ----- Restarts -----

  predicate SameAttributes(a: InstanceState, b: InstanceState) {
    a.deps == b.deps && a.seqNum == b.seqNum
  }

  /** What is loaded and what is stored have the attributes that were persisted. */
  ghost predicate LoadDeps(rep: Replica, stored: map<InstanceID, InstanceState>) {
    && (forall id :: id in rep.log ==> id in stored && SameAttributes(rep.log[id].st, stored[id]))
    && (forall id :: id in stored ==> id in rep.storage && SameAttributes(rep.storage[id], stored[id]))
  }

  lemma ExecuteDeps(rep: Replica, stored: map<InstanceID, InstanceState>, ex: seq<InstanceID>)
    requires LoadDeps(rep, stored) && ExecuteAll(rep, ex).Done?
    ensures LoadDeps(ExecuteAll(rep, ex).rep, stored)
  {
  }

  lemma {:induction false} LoadsDeps(c: Config, me: ReplicaID, rep: Replica, stored: map<InstanceID, InstanceState>,
                                     order: seq<InstanceID>, runs: seq<seq<InstanceID>>, rep': Replica,
                                     out: seq<Message>)
    requires |runs| == |order| && (forall id :: id in order ==> id in stored)
    requires LoadDeps(rep, stored) && Loads(c, me, rep, stored, order, runs, rep', out)
    ensures LoadDeps(rep', stored)
    decreases |order|
  {
    hide MayRun, Broadcast, ExecuteAll;
    if order != [] {
      var o := LoadOne(c, me, rep, order[0], stored[order[0]]);
      assert LoadDeps(o.rep, stored);
      hide LoadDeps, LoadOne;
      ExecuteDeps(o.rep, stored, runs[0]);
      LoadsDeps(c, me, ExecuteAll(o.rep, runs[0]).rep, stored, order[1..], runs[1..], rep', out[|o.out|..]);
    }
  }

  /** The leader of id is back at what it had persisted. */
  predicate Reverted(s: Sys, s': Sys, id: InstanceID) {
    LeaderHas(s', id) && LeadDeps(s', id) == StoredDeps(s, id) && Lead(s', id).st.seqNum == StoredNum(s, id)
  }

  lemma LoadedKeys(me: ReplicaID, rep: Replica, stored: map<InstanceID, InstanceState>)
    requires Loading(me, rep, stored, [])
    ensures forall id :: id in rep.log <==> id in stored
  {
    forall id ensures id in rep.log <==> id in stored { assert LoadingEntry(me, rep, stored, [], id); }
  }

  lemma StartDeps(stored: map<InstanceID, InstanceState>)
    ensures LoadDeps(Rebooted(stored), stored)
  {
  }

  /** A restart loads every stored instance with its persisted attributes. */
  lemma RestartLoads(c: Config, s: Sys, s': Sys, r: ReplicaID, order: seq<InstanceID>, runs: seq<seq<InstanceID>>)
    returns (rep: Replica)
    requires Safe(c, s) && r in s.reps && Restarts(c, s, r, order, runs, s')
    ensures s'.reps == s.reps[r := rep] && LoadDeps(rep, s.reps[r].storage)
    ensures forall id :: id in rep.log <==> id in s.reps[r].storage
  {
    var stored := s.reps[r].storage;
    LocalAt(c, s, r);
    hide Safe, Loads, Loading, LoadDeps;
    var out;
    rep, out :| Loads(c, r, Rebooted(stored), stored, order, runs, rep, out)
                && s' == Put(s, r, rep, out).(crashed := s.crashed - {r});
    StartLoading(r, s.reps[r], order);
    hide LocalSafe;
    LoadsSafe(c, r, Rebooted(stored), stored, order, runs, rep, out);
    StartDeps(stored);
    LoadsDeps(c, r, Rebooted(stored), stored, order, runs, rep, out);
    LoadedKeys(r, rep, stored);
  }

  lemma LoadedOwn(me: ReplicaID, rep0: Replica, rep: Replica)
    requires LocalSafe(me, rep0) && LoadDeps(rep, rep0.storage)
    requires forall id :: id in rep.log <==> id in rep0.storage
    ensures OwnBelow(me, rep) && OwnKept(me, rep0, rep)
  {
    forall x: InstanceID | x.replica == me ensures EntryBelow(rep, x) && EntryKept(rep0, rep, x) {
      assert LocalEntry(me, rep0, x);
    }
  }

  lemma RestartReverts(s: Sys, s': Sys, r: ReplicaID, rep: Replica, id: InstanceID)
    requires r in s.reps && s'.reps == s.reps[r := rep] && LoadDeps(rep, s.reps[r].storage)
    requires LocalSafe(r, s.reps[r]) && forall x :: x in rep.log <==> x in s.reps[r].storage
    requires LeaderHas(s, id) && id.replica == r
    ensures Reverted(s, s', id)
  {
    assert LocalEntry(r, s.reps[r], id);
  }

  lemma RestartSL(c: Config, s: Sys, s': Sys, r: ReplicaID, order: seq<InstanceID>, runs: seq<seq<InstanceID>>)
    requires Safe(c, s) && SL(s) && r in s.reps && Restarts(c, s, r, order, runs, s')
    ensures SL(s') && StoredGrows(s, s')
    ensures forall id :: LeaderHas(s, id) && id.replica == r ==> Reverted(s, s', id)
  {
    hide Safe, SL, Keep, Restarts, LoadDeps, LocalSafe, OwnBelow, OwnKept, StoredGrows, Reverted, LeaderHas;
    RestartSafe(c, s, s', r, order, runs);
    var rep := RestartLoads(c, s, s', r, order, runs);
    LocalAt(c, s, r);
    LoadedOwn(r, s.reps[r], rep);
    MoveSL(s, s', r, rep);
    forall id | LeaderHas(s, id) && id.replica == r ensures Reverted(s, s', id) { RestartReverts(s, s', r, rep, id); }
  }

  // ----- Every step -----

  lemma OwnAt(c: Config, s: Sys, r: ReplicaID)
    requires Safe(c, s) && SL(s) && r in s.reps
    ensures LocalSafe(r, s.reps[r]) && OwnBelow(r, s.reps[r])
  {
    hide LocalSafe, Agrees, PacketSafe, OwnBelow, CoversEarlier;
  }

  lemma OwnKeptRefl(me: ReplicaID, rep: Replica)
    ensures OwnKept(me, rep, rep)
  {
  }

  /** Nothing that SL looks at changed. */
  lemma IdleSL(c: Config, s: Sys, s': Sys, r: ReplicaID)
    requires Safe(c, s) && SL(s) && r in s.reps && s'.reps == s.reps
    ensures SL(s') && StoredGrows(s, s')
  {
    hide Safe, SL, Keep, OwnBelow, OwnKept;
    OwnAt(c, s, r);
    OwnKeptRefl(r, s.reps[r]);
    SameReps(s, s');
    MoveSL(s, s', r, s.reps[r]);
  }

  lemma RunSL(c: Config, s: Sys, r: ReplicaID, ex: seq<InstanceID>)
    requires Safe(c, s) && SL(s) && r in s.reps && MayRun(s.reps[r], ex)
    ensures ExecuteAll(s.reps[r], ex).Done? && SL(AfterRun(s, r, ex)) && StoredGrows(s, AfterRun(s, r, ex))
  {
    hide Safe, SL, Keep, OwnBelow, OwnKept, MayRun, ExecuteAll, LocalSafe;
    OwnAt(c, s, r);
    ExecuteSafe(c, s, r, ex);
    ExecuteKeeps(r, s.reps[r], ex);
    MoveSL(s, AfterRun(s, r, ex), r, ExecuteAll(s.reps[r], ex).rep);
  }

  lemma DeliverSL(c: Config, s: Sys, i: nat, ex: seq<InstanceID>, s': Sys)
    requires Safe(c, s) && SL(s) && i < |s.sent| && Delivers(c, s, i, ex, s')
    ensures SL(s') && StoredGrows(s, s')
  {
    hide Safe, SL, StoredGrows, Keep, OwnBelow, OwnKept, MayRun, LocalSafe, Replicas.Step, AfterRun, ExecuteAll;
    var m := s.sent[i].msg;
    var r := m.to;
    var o := Replicas.Step(c, r, s.reps[r], m);
    DeliveredIn(c, s);
    OwnAt(c, s, r);
    if o.Panicked? {
      IdleSL(c, s, s', r);
    } else {
      var s1 := Put(s.(delivered := s.delivered + {i}), r, o.rep, o.out);
      assert Moves(s, s1, r, o.rep, o.out);
      StepSafe(c, s, i, s1);
      StepKeeps(c, r, s.reps[r], m);
      MoveSL(s, s1, r, o.rep);
      if o.run {
        RunSL(c, s1, r, ex);
        StoredGrowsTrans(s, s1, s');
      }
    }
  }

  lemma {:induction false} TickAllSL(c: Config, s: Sys, r: ReplicaID, order: seq<InstanceID>)
    requires Safe(c, s) && SL(s) && r in s.reps
    ensures SL(TickAll(c, s, r, order)) && StoredGrows(s, TickAll(c, s, r, order))
    decreases |order|
  {
    IdleSL(c, s, s, r);
    hide Safe, SL, StoredGrows, Keep, OwnBelow, OwnKept, LocalSafe, TickOne;
    if order != [] && order[0] in s.reps[r].log {
      OwnAt(c, s, r);
      TickMoveSafe(c, s, r, order[0]);
      TickKeeps(c, r, s.reps[r], order[0]);
      var o := TickOne(c, r, s.reps[r], order[0]);
      var s1 := Put(s, r, o.rep, o.out);
      MoveSL(s, s1, r, o.rep);
      TickAllSL(c, s1, r, order[1..]);
      StoredGrowsTrans(s, s1, TickAll(c, s1, r, order[1..]));
    }
  }

  // ----- A request opens a slot -----

  lemma RequestStored(c: Config, me: ReplicaID, rep: Replica, cmd: Command)
    requires OnRequest(c, me, rep, cmd).Done?
    ensures var rep' := OnRequest(c, me, rep, cmd).rep;
            var id := InstanceID(me, MaxInstanceNum(rep.log, me) + 1);
            id in rep'.log && id in rep'.storage && rep'.storage[id] == rep'.log[id].st
  {
    hide ScanAll, Slice, Broadcast, MaxInstanceNum;
  }

  lemma OldSlot(s: Sys, s': Sys, r: ReplicaID, rep: Replica, id: InstanceID, x: InstanceID)
    requires r in s.reps && s'.reps == s.reps[r := rep] && SameElsewhere(s.reps[r], rep, id) && x != id
    ensures LeaderHas(s', x) <==> LeaderHas(s, x)
    ensures StoredDeps(s', x) == StoredDeps(s, x) && StoredNum(s', x) == StoredNum(s, x)
  {
    if x.replica == r { assert Same(x, s.reps[r].log, rep.log) && Same(x, s.reps[r].storage, rep.storage); }
  }

  lemma RequestBelow(me: ReplicaID, rep: Replica, rep': Replica, id: InstanceID)
    requires OwnBelow(me, rep) && SameElsewhere(rep, rep', id) && EntryBelow(rep', id)
    ensures OwnBelow(me, rep')
  {
    forall x: InstanceID | x.replica == me ensures EntryBelow(rep', x) {
      assert EntryBelow(rep, x);
      if x != id { assert Same(x, rep.log, rep'.log) && Same(x, rep.storage, rep'.storage); }
    }
  }

  lemma NewSlotGrows(s: Sys, s': Sys, r: ReplicaID, rep: Replica, id: InstanceID)
    requires r in s.reps && s'.reps == s.reps[r := rep] && SameElsewhere(s.reps[r], rep, id) && !LeaderHas(s, id)
    ensures StoredGrows(s, s')
  {
    hide SameElsewhere, LeaderHas, StoredDeps, StoredNum;
    forall x | LeaderHas(s, x)
      ensures LeaderHas(s', x) && StoredDeps(s, x) <= StoredDeps(s', x) && StoredNum(s, x) <= StoredNum(s', x)
    {
      OldSlot(s, s', r, rep, id, x);
    }
  }

  lemma RequestOther(c: Config, s: Sys, r: ReplicaID, id: InstanceID, rep: Replica, s': Sys, x: InstanceID)
    requires SL(s) && Keep(s, s') && r in s.reps && id == NextId(s, r)
    requires s'.reps == s.reps[r := rep] && SameElsewhere(s.reps[r], rep, id) && LeaderHas(s', x) && x != id
    ensures CoversEarlier(s', x, StoredDeps(s', x))
  {
    hide Keep, SameElsewhere, MaxInstanceNum, OwnBelow, CoversEarlier, StoredDeps;
    OldSlot(s, s', r, rep, id, x);
    forall y: InstanceID | y.replica == x.replica && LeaderHas(s', y) && y.num < x.num ensures LeaderHas(s, y) {
      if x.replica == r { NextIsLast(s, r, x); }
      OldSlot(s, s', r, rep, id, y);
    }
    CoversMore(s, s', x, StoredDeps(s, x), StoredDeps(s', x));
  }

  lemma RequestSL(c: Config, s: Sys, r: ReplicaID, cmd: Command, id: InstanceID, o: Outcome, s': Sys)
    requires Safe(c, s) && SL(s) && RequestDelivery(c, s, r, cmd, id, o, s')
    ensures SL(s') && StoredGrows(s, s')
  {
    hide Safe, Keep, OnRequest, SameElsewhere, RequestCore, MaxInstanceNum, OwnBelow, CoversEarlier, WellFormed, Moves;
    RequestFacts(c, s, r, cmd, id, o, s');
    RequestStored(c, r, s.reps[r], cmd);
    RequestSameLeader(c, s, r, cmd, id, o, s');
    RequestBelow(r, s.reps[r], o.rep, id);
    assert s'.reps == s.reps[r := o.rep];
    assert StoredDeps(s', id) == LeadDeps(s', id);
    forall x | LeaderHas(s', x) && x != id ensures CoversEarlier(s', x, StoredDeps(s', x)) {
      RequestOther(c, s, r, id, o.rep, s', x);
    }
    NewSlotGrows(s, s', r, o.rep, id);
  }

  // ----- Whole runs -----

  lemma NextSL(c: Config, s: Sys, step: System.Step, s': Sys)
    requires Safe(c, s) && SL(s) && Next(c, s, step, s')
    ensures SL(s') && StoredGrows(s, s')
    ensures step.RestartStep? ==> forall id :: LeaderHas(s, id) && id.replica == step.r ==> Reverted(s, s', id)
  {
    hide Safe, SL, StoredGrows, Reverted, Delivers, TickAll, Restarts, OnRequest, MayRun, MaxInstanceNum, WellFormed;
    match step
    case RequestStep(r, cmd) =>
      RequestRun(c, r, s.reps[r], cmd);
      var o := OnRequest(c, r, s.reps[r], cmd);
      if o.Panicked? { IdleSL(c, s, s', r); } else { RequestSL(c, s, r, cmd, NextId(s, r), o, s'); }
    case DeliverStep(i, ex) => DeliverSL(c, s, i, ex, s');
    case TickStep(r, order) => TickAllSL(c, s, r, order);
    case RedeliverStep(i, ex) => DeliverSL(c, s, i, ex, s');
    case RestartStep(r, order, runs) => RestartSL(c, s, s', r, order, runs);
  }

  lemma {:induction false} RunsSL(c: Config, states: seq<Sys>, steps: seq<System.Step>, k: nat)
    requires IsRun(c, states, steps) && k < |states|
    ensures SL(states[k])
  {
    hide Safe, Next;
    if k > 0 {
      hide SL;
      RunsSL(c, states, steps, k - 1);
      RunSafe(c, states, steps, k - 1);
      assert Next(c, states[k - 1], steps[k - 1], states[k]);
      NextSL(c, states[k - 1], steps[k - 1], states[k]);
    }
  }

  /** Same-leader transitivity: in every run, with loss, duplication, reordering and restarts, an
      instance reaches every earlier interfering instance of its leader through the dependencies at the leaders. */
  lemma SameLeaderTransitivity(c: Config, states: seq<Sys>, steps: seq<System.Step>, k: nat, d: InstanceID,
                               x: InstanceID)
    requires IsRun(c, states, steps) && k < |states|
    requires LeaderHas(states[k], d) && LeaderHas(states[k], x) && MeetAt(states[k], x, d)
    requires x.replica == d.replica && x.num < d.num
    ensures Reach(LeaderGraph(states[k]), d, x)
  {
    hide SL, AllSameLeader;
    RunsSL(c, states, steps, k);
    SLAll(states[k]);
    SameLeaderReach(states[k], d, x);
  }

  // ----- Attributes only grow -----

  /** The attributes of the own instances of me grow. */
  ghost predicate OwnGrows(me: ReplicaID, rep: Replica, rep': Replica) {
    forall id: InstanceID :: id in rep.log && id.replica == me ==>
      id in rep'.log && AtLeast(rep.log[id].st, rep'.log[id].st)
  }

  predicate LeadGrew(s: Sys, s': Sys, id: InstanceID) {
    LeaderHas(s, id) ==> LeaderHas(s', id) && AtLeast(Lead(s, id).st, Lead(s', id).st)
  }

  ghost predicate LeadGrows(s: Sys, s': Sys) {
    forall id :: LeadGrew(s, s', id)
  }

  lemma EntryOwnGrows(me: ReplicaID, rep: Replica, rep': Replica, id: InstanceID)
    requires SameElsewhere(rep, rep', id) && (id.replica == me ==> id !in rep.log || EntryStep(rep, rep', id))
    ensures OwnGrows(me, rep, rep')
  {
    forall x: InstanceID | x in rep.log && x.replica == me
      ensures x in rep'.log && AtLeast(rep.log[x].st, rep'.log[x].st)
    {
      if x != id { assert Same(x, rep.log, rep'.log); }
    }
  }

  lemma MoveGrows(s: Sys, s': Sys, r: ReplicaID, rep: Replica)
    requires r in s.reps && s'.reps == s.reps[r := rep] && OwnGrows(r, s.reps[r], rep)
    ensures LeadGrows(s, s')
  {
    hide Elems;
  }

  lemma ExecuteOwnGrows(me: ReplicaID, rep: Replica, ex: seq<InstanceID>)
    requires ExecuteAll(rep, ex).Done?
    ensures OwnGrows(me, rep, ExecuteAll(rep, ex).rep)
  {
  }

  lemma StepOwnGrows(c: Config, me: ReplicaID, rep: Replica, m: Message)
    requires LocalSafe(me, rep)
    ensures var o := Replicas.Step(c, me, rep, m); o.Done? ==> OwnGrows(me, rep, o.rep)
  {
    hide Replicas.Step, LocalSafe, OwnGrows, SameElsewhere, EntryStep;
    StepLocal(c, me, rep, m);
    var o := Replicas.Step(c, me, rep, m);
    if m.id.replica == me { StepEntry(c, me, rep, m); }
    if o.Done? { EntryOwnGrows(me, rep, o.rep, m.id); }
  }

  lemma GrewTrans(a: Sys, b: Sys, c: Sys, id: InstanceID)
    requires LeadGrew(a, b, id) && LeadGrew(b, c, id)
    ensures LeadGrew(a, c, id)
  {
  }

  lemma LeadGrowsTrans(a: Sys, b: Sys, c: Sys)
    requires LeadGrows(a, b) && LeadGrows(b, c)
    ensures LeadGrows(a, c)
  {
    hide LeadGrew;
    forall id ensures LeadGrew(a, c, id) { GrewTrans(a, b, c, id); }
  }

  lemma SameGrows(s: Sys, s': Sys)
    requires s'.reps == s.reps
    ensures LeadGrows(s, s')
  {
  }

  lemma DeliverGrows(c: Config, s: Sys, i: nat, ex: seq<InstanceID>, s': Sys)
    requires Safe(c, s) && i < |s.sent| && Delivers(c, s, i, ex, s')
    ensures LeadGrows(s, s')
  {
    hide Safe, Keep, OwnGrows, MayRun, LocalSafe, Replicas.Step, LeadGrows, ExecuteAll;
    var m := s.sent[i].msg;
    var r := m.to;
    var o := Replicas.Step(c, r, s.reps[r], m);
    LocalAt(c, s, r);
    if o.Panicked? {
      SameGrows(s, s');
    } else {
      var s1 := Put(s.(delivered := s.delivered + {i}), r, o.rep, o.out);
      StepOwnGrows(c, r, s.reps[r], m);
      MoveGrows(s, s1, r, o.rep);
      if o.run {
        DeliveredIn(c, s);
        assert Moves(s, s1, r, o.rep, o.out);
        StepSafe(c, s, i, s1);
        ExecuteSafe(c, s1, r, ex);
        ExecuteOwnGrows(r, o.rep, ex);
        MoveGrows(s1, s', r, ExecuteAll(o.rep, ex).rep);
        LeadGrowsTrans(s, s1, s');
      }
    }
  }

  lemma TickOwnGrows(c: Config, me: ReplicaID, rep: Replica, id: InstanceID)
    requires LocalSafe(me, rep) && id in rep.log
    ensures var o := TickOne(c, me, rep, id); o.Done? ==> OwnGrows(me, rep, o.rep)
  {
    hide LocalSafe, OwnGrows, SameElsewhere, Broadcast;
    TickLocal(c, me, rep, id);
    EntryOwnGrows(me, rep, TickOne(c, me, rep, id).rep, id);
  }

  lemma {:induction false} TickAllGrows(c: Config, s: Sys, r: ReplicaID, order: seq<InstanceID>)
    requires Safe(c, s) && r in s.reps
    ensures LeadGrows(s, TickAll(c, s, r, order))
    decreases |order|
  {
    hide Safe, Keep, LocalSafe, TickOne, LeadGrows, OwnGrows;
    SameGrows(s, s);
    if order != [] && order[0] in s.reps[r].log {
      LocalAt(c, s, r);
      TickMoveSafe(c, s, r, order[0]);
      TickOwnGrows(c, r, s.reps[r], order[0]);
      var o := TickOne(c, r, s.reps[r], order[0]);
      var s1 := Put(s, r, o.rep, o.out);
      MoveGrows(s, s1, r, o.rep);
      TickAllGrows(c, s1, r, order[1..]);
      LeadGrowsTrans(s, s1, TickAll(c, s1, r, order[1..]));
    }
  }

  lemma NextGrows(c: Config, s: Sys, step: System.Step, s': Sys)
    requires Safe(c, s) && Next(c, s, step, s') && !step.RestartStep?
    ensures LeadGrows(s, s')
  {
    hide Safe, Delivers, TickAll, OnRequest, MayRun, MaxInstanceNum, WellFormed, LeadGrows, OwnGrows, SameElsewhere,
         RequestCore, Keep, Moves;
    match step
    case RequestStep(r, cmd) =>
      RequestRun(c, r, s.reps[r], cmd);
      var o := OnRequest(c, r, s.reps[r], cmd);
      if o.Panicked? {
        SameGrows(s, s');
      } else {
        RequestFacts(c, s, r, cmd, NextId(s, r), o, s');
        EntryOwnGrows(r, s.reps[r], o.rep, NextId(s, r));
        MoveGrows(s, s', r, o.rep);
      }
    case DeliverStep(i, ex) => DeliverGrows(c, s, i, ex, s');
    case TickStep(r, order) => TickAllGrows(c, s, r, order);
    case RedeliverStep(i, ex) => DeliverGrows(c, s, i, ex, s');
  }

  lemma SameGrew(s: Sys, s': Sys, id: InstanceID)
    requires id.replica in s.reps ==> id.replica in s'.reps && s'.reps[id.replica] == s.reps[id.replica]
    ensures LeadGrew(s, s', id)
  {
  }

  /** Only its leader's own restart takes attributes of an instance back. */
  lemma NextGrew(c: Config, s: Sys, step: System.Step, s': Sys, id: InstanceID)
    requires Safe(c, s) && Next(c, s, step, s') && !RestartOf(step, id.replica)
    ensures LeadGrew(s, s', id)
  {
    hide Safe, LeadGrew;
    if step.RestartStep? {
      hide Loads;
      assert id.replica in s.reps ==> id.replica in s'.reps && s'.reps[id.replica] == s.reps[id.replica];
      assert id.replica in s'.reps ==> id.replica in s.reps;
      SameGrew(s, s', id);
    } else {
      hide Next;
      NextGrows(c, s, step, s');
    }
  }

  lemma {:induction false} RunsGrow(c: Config, states: seq<Sys>, steps: seq<System.Step>, j: nat, k: nat,
                                    id: InstanceID)
    requires IsRun(c, states, steps) && j <= k < |states| && StaysUp(steps, id.replica, j, k)
    ensures LeadGrew(states[j], states[k], id)
    decreases k
  {
    hide Safe, Next, LeadGrew;
    SameGrew(states[j], states[j], id);
    if j < k {
      RunsGrow(c, states, steps, j, k - 1, id);
      RunSafe(c, states, steps, k - 1);
      assert Next(c, states[k - 1], steps[k - 1], states[k]);
      NextGrew(c, states[k - 1], steps[k - 1], states[k], id);
      GrewTrans(states[j], states[k - 1], states[k], id);
    }
  }

  lemma StoredGrowsRefl(s: Sys)
    ensures StoredGrows(s, s)
  {
  }

  lemma {:induction false} RunsStored(c: Config, states: seq<Sys>, steps: seq<System.Step>, j: nat, k: nat)
    requires IsRun(c, states, steps) && j <= k < |states|
    ensures StoredGrows(states[j], states[k])
    decreases k
  {
    hide Safe, Next, SL, StoredGrows;
    if j < k {
      RunsStored(c, states, steps, j, k - 1);
      RunSafe(c, states, steps, k - 1);
      RunsSL(c, states, steps, k - 1);
      assert Next(c, states[k - 1], steps[k - 1], states[k]);
      NextSL(c, states[k - 1], steps[k - 1], states[k]);
      StoredGrowsTrans(states[j], states[k - 1], states[k]);
    } else {
      StoredGrowsRefl(states[j]);
    }
  }

  /** What id has at its leader lasts from state j to state k: it is past PreAccepted, or the leader stays up. */
  ghost predicate Lasts(states: seq<Sys>, steps: seq<System.Step>, j: nat, k: nat, id: InstanceID)
    requires j < |states|
  {
    LeaderHas(states[j], id) ==> Lead(states[j], id).st.status != PreAccepted || StaysUp(steps, id.replica, j, k)
  }

  /** Past PreAccepted the attributes are fixed. */
  lemma DecidedGrew(c: Config, s: Sys, s': Sys, id: InstanceID)
    requires Safe(c, s) && Keep(s, s') && LeaderHas(s, id) && Lead(s, id).st.status != PreAccepted
    ensures LeadGrew(s, s', id)
  {
    assert LocalEntry(id.replica, s.reps[id.replica], id) by { LocalAt(c, s, id.replica); }
  }

  lemma NotGrew(s: Sys, s': Sys, id: InstanceID)
    requires !LeaderHas(s, id)
    ensures LeadGrew(s, s', id)
  {
  }

  lemma LastingGrew(c: Config, states: seq<Sys>, steps: seq<System.Step>, j: nat, k: nat, id: InstanceID)
    requires IsRun(c, states, steps) && j <= k < |states| && Lasts(states, steps, j, k, id)
    ensures LeadGrew(states[j], states[k], id)
  {
    hide Next, Safe, Keep, LeadGrew;
    if StaysUp(steps, id.replica, j, k) {
      RunsGrow(c, states, steps, j, k, id);
    } else if LeaderHas(states[j], id) {
      RunSafe(c, states, steps, j);
      RunKeeps(c, states, steps, j, k);
      DecidedGrew(c, states[j], states[k], id);
    } else {
      NotGrew(states[j], states[k], id);
    }
  }

  /** In every run the attributes of an instance at its leader only grow from state j to state k, unless the leader
      has only pre-accepted it at j and restarts in between. They never fall below what the leader has persisted,
      which itself only grows; a restart takes them back to exactly that. */
  lemma DependenciesGrow(c: Config, states: seq<Sys>, steps: seq<System.Step>, j: nat, k: nat, x: InstanceID)
    requires IsRun(c, states, steps) && j <= k < |states| && LeaderHas(states[j], x)
    ensures LeaderHas(states[k], x)
    ensures Lasts(states, steps, j, k, x) ==>
              LeadDeps(states[j], x) <= LeadDeps(states[k], x)
              && Lead(states[j], x).st.seqNum <= Lead(states[k], x).st.seqNum
    ensures StoredDeps(states[j], x) <= StoredDeps(states[k], x) <= LeadDeps(states[k], x)
    ensures StoredNum(states[j], x) <= StoredNum(states[k], x) <= Lead(states[k], x).st.seqNum
    ensures k < |steps| && RestartOf(steps[k], x.replica) ==> Reverted(states[k], states[k + 1], x)
  {
    hide Next, Safe, SL, Reverted, StoredDeps, StoredNum, StaysUp;
    RunsStored(c, states, steps, j, k);
    RunsSL(c, states, steps, k);
    StoredBelow(states[k], x);
    if Lasts(states, steps, j, k, x) { LastingGrew(c, states, steps, j, k, x); }
    if k < |steps| {
      RunSafe(c, states, steps, k);
      assert Next(c, states[k], steps[k], states[k + 1]);
      NextSL(c, states[k], steps[k], states[k + 1]);
    }
  }

  lemma GrewEdge(s: Sys, s': Sys, p: InstanceID, q: InstanceID)
    requires LeadGrew(s, s', p) && Edge(LeaderGraph(s), p, q)
    ensures Edge(LeaderGraph(s'), p, q)
  {
    DepEdge(s, p, q);
    DepEdge(s', p, q);
    hide LeaderGraph, Edge;
  }

  /** A path of the dependency graph out of x is kept while what every instance that x reaches has lasts. */
  lemma PathsKept(c: Config, states: seq<Sys>, steps: seq<System.Step>, j: nat, k: nat, x: InstanceID, y: InstanceID)
    requires IsRun(c, states, steps) && j <= k < |states| && Reach(LeaderGraph(states[j]), x, y)
    requires forall z :: Reach(LeaderGraph(states[j]), x, z) ==> Lasts(states, steps, j, k, z)
    ensures Reach(LeaderGraph(states[k]), x, y)
  {
    var g, h := LeaderGraph(states[j]), LeaderGraph(states[k]);
    hide Next, IsRun, Reach, LeaderGraph, Lasts;
    forall p, q | Reach(g, x, p) && Edge(g, p, q) ensures Edge(h, p, q) {
      LastingGrew(c, states, steps, j, k, p);
      GrewEdge(states[j], states[k], p, q);
    }
    ReachMono(g, h, x, y);
  }
}
