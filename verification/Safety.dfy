/** What holds in every run, with loss, duplication, reordering and restarts:
    one command per instance, one commit per instance, and no transition outside the table. */
module Safety {
  import opened Keys
  import opened Types
  import opened Scan
  import opened DepSlices
  import opened ExecutionSpec
  import opened Replicas
  import opened Local
  import opened System

  /** The command leader of id knows it. */
  predicate LeaderHas(s: Sys, id: InstanceID) {
    id.replica in s.reps && id in s.reps[id.replica].log
  }

  /** The instance at its command leader. */
  function Lead(s: Sys, id: InstanceID): Instance
    requires LeaderHas(s, id)
  {
    s.reps[id.replica].log[id]
  }

  /** What any replica holds of an instance agrees with its command leader. */
  ghost predicate Agrees(s: Sys, id: InstanceID, st: InstanceState) {
    && LeaderHas(s, id)
    && (st.cmd.Some? ==> Lead(s, id).st.cmd == st.cmd)
    && (IsCommitted(st.status) ==>
          IsCommitted(Lead(s, id).st.status) && st == Lead(s, id).st.(status := st.status))
  }

  ghost predicate PacketSafe(s: Sys, p: Packet) {
    var id := p.msg.id;
    && p.from in s.reps && p.msg.to in s.reps && p.from != p.msg.to
    && (if IsReply(p.msg.body) then p.msg.to == id.replica else p.from == id.replica)
    && LeaderHas(s, id)
    && match p.msg.body
       case PreAccept(cmd, _, _) => cmd == Lead(s, id).st.cmd
       case Accept(seqNum, deps) =>
         Rank(Lead(s, id).st.status) >= 2 && seqNum == Lead(s, id).st.seqNum && deps == Lead(s, id).st.deps
       case Commit(cmd, seqNum, deps) =>
         IsCommitted(Lead(s, id).st.status) && InstanceState(Lead(s, id).st.status, cmd, seqNum, deps) == Lead(s, id).st
       case _ => true
  }

  ghost predicate Safe(c: Config, s: Sys) {
    && (forall r :: r in s.reps <==> r in c.nodes)
    && (forall r :: r in s.reps ==> LocalSafe(r, s.reps[r]))
    && (forall r, id :: r in s.reps && id in s.reps[r].log ==> Agrees(s, id, s.reps[r].log[id].st))
    && (forall i :: 0 <= i < |s.sent| ==> PacketSafe(s, s.sent[i]))
    && (forall i :: i in s.delivered ==> i < |s.sent|)
  }

  lemma LocalAt(c: Config, s: Sys, r: ReplicaID)
    requires Safe(c, s) && r in s.reps
    ensures LocalSafe(r, s.reps[r])
  {
    hide LocalSafe, Agrees, PacketSafe;
  }

  lemma DeliveredIn(c: Config, s: Sys)
    requires Safe(c, s)
    ensures forall i :: i in s.delivered ==> i < |s.sent|
  {
    hide LocalSafe, Agrees, PacketSafe;
  }

  // ----- What never changes -----

  /** How an instance may develop at its command leader. */
  predicate LeadStep(a: InstanceState, b: InstanceState) {
    && a.cmd == b.cmd
    && Rank(a.status) <= Rank(b.status)
    && (Rank(a.status) >= 2 ==> a.seqNum == b.seqNum && a.deps == b.deps)
  }

  ghost predicate Keep(s: Sys, s': Sys) {
    && s.reps.Keys == s'.reps.Keys
    && forall id :: LeaderHas(s, id) ==> LeaderHas(s', id) && LeadStep(Lead(s, id).st, Lead(s', id).st)
  }

  lemma KeepHas(s: Sys, s': Sys, id: InstanceID)
    requires Keep(s, s') && LeaderHas(s, id)
    ensures LeaderHas(s', id)
  {
  }

  lemma AgreesKeeps(s: Sys, s': Sys, id: InstanceID, st: InstanceState)
    requires Agrees(s, id, st) && Keep(s, s')
    ensures Agrees(s', id, st)
  {
  }

  lemma PacketKeeps(s: Sys, s': Sys, p: Packet)
    requires PacketSafe(s, p) && Keep(s, s')
    ensures PacketSafe(s', p)
  {
  }

  // ----- A step of one replica -----

  ghost predicate Moves(s: Sys, s': Sys, r: ReplicaID, rep: Replica, out: seq<Message>) {
    && s'.reps == s.reps[r := rep]
    && s'.sent == s.sent + Packets(r, out)
    && s.delivered <= s'.delivered
    && (forall i :: i in s'.delivered ==> i < |s'.sent|)
  }

  /** The own instances of r develop as instances may. */
  ghost predicate OwnKeeps(s: Sys, r: ReplicaID, rep: Replica) {
    r in s.reps && forall id: InstanceID :: id.replica == r && id in s.reps[r].log ==>
      id in rep.log && LeadStep(s.reps[r].log[id].st, rep.log[id].st)
  }

  lemma LeadStepRefl(a: InstanceState)
    ensures LeadStep(a, a)
  {
  }

  lemma MoveKeeps(s: Sys, s': Sys, r: ReplicaID, rep: Replica, out: seq<Message>)
    requires Moves(s, s', r, rep, out) && OwnKeeps(s, r, rep)
    ensures Keep(s, s')
  {
    forall id | LeaderHas(s, id) ensures LeaderHas(s', id) && LeadStep(Lead(s, id).st, Lead(s', id).st) {
      LeadStepRefl(Lead(s, id).st);
    }
  }

  lemma OwnIn(s: Sys, r: ReplicaID, rep: Replica)
    requires OwnKeeps(s, r, rep)
    ensures r in s.reps
  {
  }

  lemma MoveSafe(c: Config, s: Sys, s': Sys, r: ReplicaID, rep: Replica, out: seq<Message>)
    requires Safe(c, s) && Moves(s, s', r, rep, out) && OwnKeeps(s, r, rep) && LocalSafe(r, rep)
    requires forall id :: id in rep.log ==> Agrees(s', id, rep.log[id].st)
    requires forall m :: m in out ==> PacketSafe(s', Packet(r, m))
    ensures Safe(c, s') && Keep(s, s')
  {
    hide LocalSafe, OwnKeeps, Agrees, PacketSafe, Keep;
    MoveKeeps(s, s', r, rep, out);
    assert r in s.reps by { OwnIn(s, r, rep); }
    forall q, id | q in s'.reps && id in s'.reps[q].log ensures Agrees(s', id, s'.reps[q].log[id].st) {
      if q != r { AgreesKeeps(s, s', id, s.reps[q].log[id].st); }
    }
    forall i | 0 <= i < |s'.sent| ensures PacketSafe(s', s'.sent[i]) {
      if i < |s.sent| {
        PacketKeeps(s, s', s.sent[i]);
      } else {
        assert s'.sent[i] == Packet(r, out[i - |s.sent|]);
      }
    }
  }

  // ----- Broadcasts -----

  lemma {:induction false} BroadcastIn(nodes: seq<ReplicaID>, me: ReplicaID, id: InstanceID, body: Body, m: Message)
    ensures m in Broadcast(nodes, me, id, body) <==> m.to in nodes && m.to != me && m.id == id && m.body == body
  {
    if nodes != [] {
      BroadcastIn(nodes[1..], me, id, body, m);
      assert nodes == [nodes[0]] + nodes[1..];
      assert m == Message(m.to, m.id, m.body);
    }
  }

  /** What a command leader announces stays true of its instance. */
  lemma AnnouncementSafe(c: Config, s: Sys, id: InstanceID, st: InstanceState, m: Message)
    requires (forall r :: r in s.reps <==> r in c.nodes) && LeaderHas(s, id) && LeadStep(st, Lead(s, id).st)
    requires Rank(st.status) in {1, 2, 3}
    requires m in Broadcast(c.nodes, id.replica, id, Announcement(st))
    ensures PacketSafe(s, Packet(id.replica, m))
  {
    BroadcastIn(c.nodes, id.replica, id, Announcement(st), m);
  }

  // ----- Leaders -----

  /** What a reply does at the command leader. */
  ghost predicate LeaderEffect(c: Config, me: ReplicaID, rep: Replica, id: InstanceID, o: Outcome)
    requires id in rep.log
  {
    && o.Done? && id in o.rep.log
    && LeadStep(rep.log[id].st, o.rep.log[id].st)
    && (o.out == [] || (o.out == Broadcast(c.nodes, me, id, Announcement(o.rep.log[id].st))
                        && Rank(o.rep.log[id].st.status) in {2, 3}))
  }

  lemma EitherEffect(c: Config, me: ReplicaID, rep: Replica, id: InstanceID, inst: Instance)
    requires id in rep.log && rep.log[id].st.status == PreAccepted
    requires inst.st.status == PreAccepted && inst.st.cmd == rep.log[id].st.cmd
    ensures LeaderEffect(c, me, rep, id, OnEitherPreAcceptReply(c, me, rep.(log := rep.log[id := inst]), id))
  {
    hide Broadcast;
  }

  lemma LeaderStep(c: Config, me: ReplicaID, rep: Replica, m: Message)
    requires m.id in rep.log && IsReply(m.body)
    ensures LeaderEffect(c, me, rep, m.id, Dispatch(c, me, rep, m))
  {
    hide Broadcast, OnEitherPreAcceptReply, Slice;
    var inst := rep.log[m.id];
    match m.body
    case PreAcceptOK =>
      if inst.st.status == PreAccepted {
        EitherEffect(c, me, rep, m.id, inst.(preAcceptReplies := inst.preAcceptReplies + 1));
      }
    case PreAcceptReply(seqNum, deps) =>
      if inst.st.status == PreAccepted {
        EitherEffect(c, me, rep, m.id, Merged(inst, seqNum, deps));
      }
    case AcceptOK =>
  }

  lemma TickEffect(c: Config, me: ReplicaID, rep: Replica, id: InstanceID)
    requires LocalSafe(me, rep) && id in rep.log
    ensures LeaderEffect(c, me, rep, id, TickOne(c, me, rep, id))
    ensures TickOne(c, me, rep, id).out != [] ==> id.replica == me
  {
    hide Broadcast;
    assert LocalEntry(me, rep, id);
  }

  // ----- Followers -----

  /** What a message other than a reply does at a follower. */
  ghost predicate FollowerEffect(rep: Replica, m: Message, o: Outcome)
    requires m.id in rep.log
  {
    o.Done? ==>
      && m.id in o.rep.log
      && (forall reply :: reply in o.out ==> reply.to == m.id.replica && reply.id == m.id && IsReply(reply.body))
      && (var a, b := rep.log[m.id].st, o.rep.log[m.id].st;
          match m.body
          case PreAccept(cmd, _, _) => b == a || (b.status == PreAccepted && b.cmd == cmd)
          case Accept(_, _) => b == a || (b.status == Accepted && b.cmd == a.cmd)
          case Commit(cmd, seqNum, deps) => b == a || b == InstanceState(Committed, cmd, seqNum, deps)
          case _ => b == a)
  }

  lemma FollowerStep(c: Config, me: ReplicaID, rep: Replica, m: Message)
    requires m.id in rep.log && !IsReply(m.body)
    ensures FollowerEffect(rep, m, Dispatch(c, me, rep, m))
  {
    hide Slice, ScanAll;
  }

  lemma FollowerAgrees(s: Sys, p: Packet, rep: Replica, o: Outcome)
    requires PacketSafe(s, p) && !IsReply(p.msg.body) && p.msg.id in rep.log
    requires Agrees(s, p.msg.id, rep.log[p.msg.id].st)
    requires FollowerEffect(rep, p.msg, o) && o.Done?
    ensures Agrees(s, p.msg.id, o.rep.log[p.msg.id].st)
  {
  }

  // ----- Steps keep Safe -----

  lemma OneKeeps(s: Sys, r: ReplicaID, rep: Replica, id: InstanceID)
    requires r in s.reps && SameElsewhere(s.reps[r], rep, id)
    requires id.replica == r && id in s.reps[r].log ==> id in rep.log && LeadStep(s.reps[r].log[id].st, rep.log[id].st)
    ensures OwnKeeps(s, r, rep)
  {
    hide LeadStep;
    forall x: InstanceID | x.replica == r && x in s.reps[r].log
      ensures x in rep.log && LeadStep(s.reps[r].log[x].st, rep.log[x].st)
    {
      LeadStepRefl(s.reps[r].log[x].st);
      assert x != id ==> Same(x, s.reps[r].log, rep.log);
    }
  }

  /** A step that changes one instance of one replica. */
  lemma OneMove(c: Config, s: Sys, s': Sys, r: ReplicaID, rep: Replica, out: seq<Message>, id: InstanceID)
    requires Safe(c, s) && r in s.reps && Moves(s, s', r, rep, out) && LocalSafe(r, rep)
    requires SameElsewhere(s.reps[r], rep, id)
    requires id.replica == r && id in s.reps[r].log ==> id in rep.log && LeadStep(s.reps[r].log[id].st, rep.log[id].st)
    requires id in rep.log ==> Agrees(s', id, rep.log[id].st)
    requires forall m :: m in out ==> PacketSafe(s', Packet(r, m))
    ensures Safe(c, s') && Keep(s, s')
  {
    hide LocalSafe, Agrees, PacketSafe, Keep, LeadStep, OwnKeeps, Moves;
    OneKeeps(s, r, rep, id);
    MoveKeeps(s, s', r, rep, out);
    forall x | x in rep.log ensures Agrees(s', x, rep.log[x].st) {
      if x != id {
        assert Same(x, s.reps[r].log, rep.log);
        AgreesKeeps(s, s', x, s.reps[r].log[x].st);
      }
    }
    hide Safe, SameElsewhere;
    MoveSafe(c, s, s', r, rep, out);
  }

  /** The command leader's own entry agrees with itself. */
  lemma OwnAgrees(s: Sys, id: InstanceID)
    requires LeaderHas(s, id)
    ensures Agrees(s, id, Lead(s, id).st)
  {
  }

  /** The leader side: counting a reply, or a timer that fires. */
  lemma LeaderMove(c: Config, s: Sys, s': Sys, r: ReplicaID, o: Outcome, id: InstanceID)
    requires Safe(c, s) && r in s.reps && id in s.reps[r].log && id.replica == r
    requires LeaderEffect(c, r, s.reps[r], id, o) && GoodOutcome(r, s.reps[r], id, o)
    requires Moves(s, s', r, o.rep, o.out)
    ensures Safe(c, s') && Keep(s, s')
  {
    hide LocalSafe, Agrees, PacketSafe, Keep, LeadStep, SameElsewhere, Broadcast;
    OwnAgrees(s', id);
    forall m | m in o.out ensures PacketSafe(s', Packet(r, m)) {
      LeadStepRefl(o.rep.log[id].st);
      assert forall q :: q in s'.reps <==> q in c.nodes;
      AnnouncementSafe(c, s', id, o.rep.log[id].st, m);
    }
    OneMove(c, s, s', r, o.rep, o.out, id);
  }

  lemma ReplySafe(s: Sys, me: ReplicaID, id: InstanceID, m: Message)
    requires me in s.reps && LeaderHas(s, id) && id.replica != me
    requires m.to == id.replica && m.id == id && IsReply(m.body)
    ensures PacketSafe(s, Packet(me, m))
  {
  }

  /** The follower side. rep is the replica with id present. */
  lemma FollowerMove(c: Config, s: Sys, s': Sys, p: Packet, rep: Replica, o: Outcome)
    requires Safe(c, s) && p.msg.to in s.reps && PacketSafe(s, p) && !IsReply(p.msg.body)
    requires SameElsewhere(s.reps[p.msg.to], rep, p.msg.id)
    requires p.msg.id in rep.log && Agrees(s, p.msg.id, rep.log[p.msg.id].st)
    requires FollowerEffect(rep, p.msg, o) && o.Done? && GoodOutcome(p.msg.to, s.reps[p.msg.to], p.msg.id, o)
    requires Moves(s, s', p.msg.to, o.rep, o.out)
    ensures Safe(c, s') && Keep(s, s')
  {
    var r, id := p.msg.to, p.msg.id;
    assert id.replica != r && LeaderHas(s, id);
    FollowerAgrees(s, p, rep, o);
    OneKeeps(s, r, o.rep, id) by { hide LocalSafe, SameElsewhere, FollowerEffect, Safe; }
    hide LocalSafe, SameElsewhere;
    MoveKeeps(s, s', r, o.rep, o.out);
    AgreesKeeps(s, s', id, o.rep.log[id].st);
    assert LeaderHas(s', id);
    hide Agrees, Keep, LeadStep, PacketSafe;
    forall m | m in o.out ensures PacketSafe(s', Packet(r, m)) {
      ReplySafe(s', r, id, m);
    }
    hide Safe;
    OneMove(c, s, s', r, o.rep, o.out, id);
  }

  lemma NewAgrees(s: Sys, id: InstanceID)
    requires LeaderHas(s, id)
    ensures Agrees(s, id, NEW_INSTANCE.st)
  {
  }

  lemma StaysSafe(c: Config, s: Sys, s': Sys, r: ReplicaID)
    requires Safe(c, s) && r in s.reps && Moves(s, s', r, s.reps[r], [])
    ensures Safe(c, s') && Keep(s, s')
  {
    var id := InstanceID(r, 0);
    SameRefl(s.reps[r], id);
    hide LocalSafe, SameElsewhere, PacketSafe;
    forall x: InstanceID | x.replica == r && x in s.reps[r].log
      ensures LeadStep(s.reps[r].log[x].st, s.reps[r].log[x].st)
    {
      LeadStepRefl(s.reps[r].log[x].st);
    }
    MoveKeeps(s, s', r, s.reps[r], []);
    if id in s.reps[r].log { AgreesKeeps(s, s', id, s.reps[r].log[id].st); }
    OneMove(c, s, s', r, s.reps[r], [], id);
  }

  lemma PacketLeader(s: Sys, p: Packet)
    requires PacketSafe(s, p)
    ensures LeaderHas(s, p.msg.id)
  {
  }

  /** Delivering a packet, before the executor runs. */
  lemma StepSafe(c: Config, s: Sys, i: nat, s': Sys)
    requires Safe(c, s) && i < |s.sent| && s.sent[i].msg.to in s.reps
    requires var m := s.sent[i].msg;
             var o := Replicas.Step(c, m.to, s.reps[m.to], m);
             o.Done? && Moves(s, s', m.to, o.rep, o.out)
    ensures Safe(c, s') && Keep(s, s')
  {
    hide PacketSafe, Agrees, SameElsewhere, LocalSafe, Moves, Dispatch, FollowerEffect, LeaderEffect, Keep;
    var p := s.sent[i];
    var m := p.msg;
    var r := m.to;
    var rep := s.reps[r];
    var o := Replicas.Step(c, r, rep, m);
    assert LocalSafe(r, rep) && PacketSafe(s, p);
    StepLocal(c, r, rep, m);
    SameRefl(rep, m.id);
    if !ValidMessage(c, r, m) || (m.id !in rep.log && m.id.replica == r) {
      StaysSafe(c, s, s', r);
    } else if IsReply(m.body) {
      LeaderStep(c, r, rep, m);
      LeaderMove(c, s, s', r, o, m.id);
    } else if m.id in rep.log {
      FollowerStep(c, r, rep, m);
      assert Agrees(s, m.id, rep.log[m.id].st);
      FollowerMove(c, s, s', p, rep, o);
    } else {
      var rep1 := rep.(log := rep.log[m.id := NEW_INSTANCE]);
      NewLocal(r, rep, m.id);
      PacketLeader(s, p);
      NewAgrees(s, m.id);
      FollowerStep(c, r, rep1, m);
      FollowerMove(c, s, s', p, rep1, o);
    }
  }

  /** A request, which always opens a new slot. */
  lemma RequestSafe(c: Config, s: Sys, r: ReplicaID, cmd: Command, s': Sys)
    requires Safe(c, s) && r in s.reps && WellFormed(cmd.span)
    requires var o := OnRequest(c, r, s.reps[r], cmd); o.Done? && Moves(s, s', r, o.rep, o.out)
    ensures Safe(c, s') && Keep(s, s')
  {
    hide LocalSafe, Agrees, PacketSafe, Keep, LeadStep, SameElsewhere, Broadcast, MaxInstanceNum, ScanAll, Slice;
    var rep := s.reps[r];
    var o := OnRequest(c, r, rep, cmd);
    var id := InstanceID(r, MaxInstanceNum(rep.log, r) + 1);
    RequestLocal(c, r, rep, cmd);
    FreshId(r, rep.log);
    OwnAgrees(s', id);
    forall m | m in o.out ensures PacketSafe(s', Packet(r, m)) {
      LeadStepRefl(o.rep.log[id].st);
      assert forall q :: q in s'.reps <==> q in c.nodes;
      AnnouncementSafe(c, s', id, o.rep.log[id].st, m);
    }
    OneMove(c, s, s', r, o.rep, o.out, id);
  }

  lemma AdvancesLead(a: InstanceState, b: InstanceState)
    requires Advances(a, b)
    ensures LeadStep(a, b)
  {
  }

  /** Moving committed instances on to Executed. */
  lemma AdvanceAgrees(s: Sys, id: InstanceID, a: InstanceState, b: InstanceState)
    requires Agrees(s, id, a) && Advances(a, b)
    ensures Agrees(s, id, b)
  {
  }

  /** The executor run at the end of a step. */
  lemma RunVertices(rep: Replica, ex: seq<InstanceID>)
    requires MayRun(rep, ex)
    ensures forall id :: id in ex ==> id in rep.vertices
  {
    hide Ready, Ordered;
  }

  lemma PutTwice(s: Sys, r: ReplicaID, rep: Replica, rep': Replica, out: seq<Message>)
    ensures Put(Put(s, r, rep, out), r, rep', []) == Put(s, r, rep', out)
  {
  }

  lemma ExecuteOwnKeeps(s: Sys, r: ReplicaID, rep': Replica)
    requires r in s.reps && forall x :: x in s.reps[r].log ==>
        x in rep'.log && Advances(s.reps[r].log[x].st, rep'.log[x].st)
    ensures OwnKeeps(s, r, rep')
  {
    forall id | id in s.reps[r].log ensures LeadStep(s.reps[r].log[id].st, rep'.log[id].st) {
      AdvancesLead(s.reps[r].log[id].st, rep'.log[id].st);
    }
  }

  lemma AgreesAt(c: Config, s: Sys, r: ReplicaID, id: InstanceID)
    requires Safe(c, s) && r in s.reps && id in s.reps[r].log
    ensures Agrees(s, id, s.reps[r].log[id].st)
  {
    hide LocalSafe, Agrees, PacketSafe;
  }

  /** What is committed anywhere has a command. */
  lemma CommittedSome(c: Config, s: Sys, r: ReplicaID, id: InstanceID)
    requires Safe(c, s) && r in s.reps && id in s.reps[r].log && IsCommitted(s.reps[r].log[id].st.status)
    ensures s.reps[r].log[id].st.cmd.Some?
  {
    AgreesAt(c, s, r, id);
    LocalAt(c, s, id.replica);
    hide Safe;
    assert LocalEntry(id.replica, s.reps[id.replica], id);
  }

  lemma VerticesSome(c: Config, s: Sys, r: ReplicaID, id: InstanceID)
    requires Safe(c, s) && r in s.reps && id in s.reps[r].vertices
    ensures id in s.reps[r].log && s.reps[r].log[id].st.cmd.Some?
  {
    LocalAt(c, s, r);
    hide Safe;
    assert LocalEntry(r, s.reps[r], id);
    CommittedSome(c, s, r, id);
  }

  lemma ExecuteOut(rep: Replica, ex: seq<InstanceID>)
    ensures ExecuteAll(rep, ex).Done? ==> ExecuteAll(rep, ex).out == []
  {
  }

  lemma ExecuteSafe(c: Config, s: Sys, r: ReplicaID, ex: seq<InstanceID>)
    requires Safe(c, s) && r in s.reps && MayRun(s.reps[r], ex)
    ensures ExecuteAll(s.reps[r], ex).Done?
    ensures Safe(c, AfterRun(s, r, ex)) && Keep(s, AfterRun(s, r, ex))
  {
    hide Safe, LocalSafe, Agrees, PacketSafe, Keep, MayRun, ExecuteAll, OwnKeeps;
    var rep := s.reps[r];
    RunVertices(rep, ex);
    LocalAt(c, s, r);
    ExecuteLocal(r, rep, ex);
    forall id | id in ex ensures id in rep.log && rep.log[id].st.cmd.Some? { VerticesSome(c, s, r, id); }
    var o := ExecuteAll(rep, ex);
    ExecuteOut(rep, ex);
    var s' := AfterRun(s, r, ex);
    ExecuteOwnKeeps(s, r, o.rep);
    assert Moves(s, s', r, o.rep, []) by { DeliveredIn(c, s); }
    hide Moves;
    MoveKeeps(s, s', r, o.rep, []);
    forall id | id in o.rep.log ensures Agrees(s', id, o.rep.log[id].st) {
      AgreesAt(c, s, r, id);
      AgreesKeeps(s, s', id, rep.log[id].st);
      AdvanceAgrees(s', id, rep.log[id].st, o.rep.log[id].st);
    }
    MoveSafe(c, s, s', r, o.rep, []);
  }

  lemma KeepTrans(a: Sys, b: Sys, c: Sys)
    requires Keep(a, b) && Keep(b, c)
    ensures Keep(a, c)
  {
  }

  lemma KeepRefl(s: Sys)
    ensures Keep(s, s)
  {
  }
}
