/** Delivering a packet, for the first time or again where that is harmless, keeps the invariants of CrashStop. */
module CrashStopSteps {
  import opened Keys
  import opened Types
  import opened Scan
  import opened DepSlices
  import opened Graphs
  import opened Replicas
  import opened Local
  import opened System
  import opened Safety
  import opened CrashStop

  // ----- Growth of a step that changes one instance of one replica -----

  /** How the instance that a step changes may change. */
  ghost predicate EntryGrows(r: ReplicaID, rep: Replica, rep': Replica, id: InstanceID) {
    id in rep.log ==>
      && id in rep'.log
      && (rep.log[id].st.cmd.Some? ==> rep'.log[id].st.cmd.Some?)
      && (id.replica == r ==> Elems(rep.log[id].st.deps) <= Elems(rep'.log[id].st.deps)
                              && rep.log[id].st.seqNum <= rep'.log[id].st.seqNum)
  }

  lemma EntrySame(r: ReplicaID, rep: Replica, rep': Replica, id: InstanceID)
    requires Same(id, rep.log, rep'.log)
    ensures EntryGrows(r, rep, rep', id)
  {
  }

  lemma GrowAll(s: Sys, s': Sys, r: ReplicaID, rep: Replica, out: seq<Message>)
    requires r in s.reps && Moves(s, s', r, rep, out) && Keep(s, s')
    requires forall id :: EntryGrows(r, s.reps[r], rep, id)
    ensures Grow(s, s')
  {
    hide Keep, Elems;
    forall q, id | Knows(s, q, id) ensures Knows(s', q, id) {
      assert EntryGrows(r, s.reps[r], rep, id);
    }
    forall id | LeaderHas(s, id)
      ensures LeadDeps(s, id) <= LeadDeps(s', id)
      ensures LeaderHas(s', id) && Lead(s, id).st.seqNum <= Lead(s', id).st.seqNum
    {
      assert EntryGrows(r, s.reps[r], rep, id);
    }
  }

  lemma GrowOne(s: Sys, s': Sys, r: ReplicaID, rep: Replica, out: seq<Message>, id: InstanceID)
    requires r in s.reps && Moves(s, s', r, rep, out) && Keep(s, s')
    requires SameElsewhere(s.reps[r], rep, id) && EntryGrows(r, s.reps[r], rep, id)
    ensures Grow(s, s')
  {
    hide Keep, EntryGrows, Moves;
    forall x ensures EntryGrows(r, s.reps[r], rep, x) {
      if x != id {
        assert Same(x, s.reps[r].log, rep.log);
        EntrySame(r, s.reps[r], rep, x);
      }
    }
    hide SameElsewhere;
    GrowAll(s, s', r, rep, out);
  }

  // ----- Entries -----

  /** A step leaves the entry of id at its leader and the replies counted for it alone. */
  ghost predicate Untouched(s: Sys, s': Sys, id: InstanceID) {
    && LeaderHas(s, id) && LeaderHas(s', id)
    && CoreSame(Lead(s, id), Lead(s', id))
    && NoNewPre(s, s', id)
    && (Lead(s, id).st.status == PreAccepted ==> Tallied(s', id, 1) == Tallied(s, id, 1))
    && (Lead(s, id).st.status == Accepted ==> Tallied(s', id, 3) == Tallied(s, id, 3))
  }

  lemma UntouchedEntry(c: Config, s: Sys, s': Sys, id: InstanceID, mode: Mode)
    requires CS(c, s, mode) && Grow(s, s') && Untouched(s, s', id)
    ensures EntryCS(c, s', id, mode)
  {
    hide Safe, PacketsCS, Grow, EntryCS, CoreSame, NoNewPre, Tallied;
    EntryStays(c, s, s', id, mode);
  }

  lemma EntriesStay(c: Config, s: Sys, s': Sys, id: InstanceID, mode: Mode)
    requires CS(c, s, mode) && Safe(c, s') && PacketsCS(s', mode) && Grow(s, s')
    requires forall x :: LeaderHas(s', x) && x != id ==> Untouched(s, s', x)
    requires LeaderHas(s', id) ==> EntryCS(c, s', id, mode)
    ensures CS(c, s', mode)
  {
    hide Safe, PacketsCS, Grow, EntryCS, Untouched;
    forall x | LeaderHas(s', x) ensures EntryCS(c, s', x, mode) {
      if x != id { UntouchedEntry(c, s, s', x, mode); }
    }
  }

  lemma TalliedDeliver(s: Sys, s': Sys, i: nat, id: InstanceID, kind: nat)
    requires i < |s.sent| && s'.delivered == s.delivered + {i} && s.sent <= s'.sent
    requires forall j :: j in s.delivered ==> j < |s.sent|
    ensures Tallied(s', id, kind) ==
            Tallied(s, id, kind) + (if s.sent[i].msg.id == id && Kind(s.sent[i].msg.body) == kind then {i} else {})
  {
    assert forall j :: 0 <= j < |s.sent| ==> s'.sent[j] == s.sent[j];
  }

  lemma CoreSameRefl(a: Instance)
    ensures CoreSame(a, a)
  {
  }

  // ----- Scans cover what the replica knows -----

  /** A log whose commands are the leaders' commands. */
  ghost predicate LogAgrees(c: Config, s: Sys, log: Log) {
    forall id :: id in log && log[id].st.cmd.Some? ==>
      LeadCmd(s, id) == log[id].st.cmd && WellFormed(log[id].st.cmd.value.span) && id.replica in c.nodes && id.num > 0
  }

  lemma LeadCmdOK(c: Config, s: Sys, id: InstanceID)
    requires Safe(c, s) && LeaderHas(s, id)
    ensures LeadCmd(s, id).Some? && WellFormed(LeadCmd(s, id).value.span) && id.replica in c.nodes && id.num > 0
  {
    hide Agrees, PacketSafe;
    assert LocalEntry(id.replica, s.reps[id.replica], id);
  }

  lemma RepLogAgrees(c: Config, s: Sys, r: ReplicaID)
    requires Safe(c, s) && r in s.reps
    ensures LogAgrees(c, s, s.reps[r].log)
  {
    hide LocalSafe, PacketSafe;
    forall id | id in s.reps[r].log && s.reps[r].log[id].st.cmd.Some?
      ensures LeadCmd(s, id) == s.reps[r].log[id].st.cmd && WellFormed(s.reps[r].log[id].st.cmd.value.span)
      ensures id.replica in c.nodes && id.num > 0
    {
      assert Agrees(s, id, s.reps[r].log[id].st);
      LeadCmdOK(c, s, id);
    }
  }

  lemma LogSpans(c: Config, s: Sys, log: Log)
    requires LogAgrees(c, s, log)
    ensures SpansOK(log)
  {
  }

  lemma ShieldsLift(c: Config, s: Sys, log: Log, d: InstanceID, id: InstanceID)
    requires LogAgrees(c, s, log) && Shields(log, d, id)
    ensures ShieldsIn(s, d, id)
  {
    hide Overlaps;
  }

  /** The dependencies that a scan of log finds cover every interfering instance in it. */
  lemma ScanCoversIn(c: Config, s: Sys, log: Log, cmd: Command, ignored: InstanceID, a: InstanceID)
    requires LogAgrees(c, s, log) && WellFormed(cmd.span)
    requires ScanAll(log, c.nodes, cmd, ignored).Found?
    requires a in log && log[a].st.cmd.Some? && Interferes(log[a].st.cmd.value, cmd) && a != ignored
    ensures CoveredIn(s, ScanAll(log, c.nodes, cmd, ignored).deps, a)
  {
    hide Interferes, WellFormed, ScanAll, Shields, ShieldsIn;
    LogSpans(c, s, log);
    ScanCovers(log, c.nodes, cmd, ignored, a);
    var deps := ScanAll(log, c.nodes, cmd, ignored).deps;
    if a !in deps {
      var d :| d in deps && Shields(log, d, a);
      ShieldsLift(c, s, log, d, a);
    }
  }

  // ----- The executor run -----

  lemma ExecuteCore(rep: Replica, ex: seq<InstanceID>, id: InstanceID)
    requires id in rep.log && ExecuteAll(rep, ex).Done?
    ensures id in ExecuteAll(rep, ex).rep.log && CoreSame(rep.log[id], ExecuteAll(rep, ex).rep.log[id])
  {
  }

  lemma ExecuteGrows(r: ReplicaID, rep: Replica, ex: seq<InstanceID>, id: InstanceID)
    requires ExecuteAll(rep, ex).Done?
    ensures EntryGrows(r, rep, ExecuteAll(rep, ex).rep, id)
    ensures id in ExecuteAll(rep, ex).rep.log ==> id in rep.log
  {
  }

  lemma EmptyOut(s: Sys, s': Sys, r: ReplicaID, mode: Mode)
    ensures NewPackets(s, s', r, [], mode)
  {
  }

  lemma RunCS(c: Config, s: Sys, r: ReplicaID, ex: seq<InstanceID>, mode: Mode)
    requires CS(c, s, mode) && r in s.reps && MayRun(s.reps[r], ex)
    ensures CS(c, AfterRun(s, r, ex), mode) && Grow(s, AfterRun(s, r, ex))
  {
    hide Safe, PacketsCS, EntryCS, MayRun, ExecuteAll, Keep, Grow;
    ExecuteSafe(c, s, r, ex);
    ExecuteOut(s.reps[r], ex);
    var o := ExecuteAll(s.reps[r], ex);
    var s' := AfterRun(s, r, ex);
    assert s' == s.(reps := s.reps[r := o.rep]);
    forall id ensures EntryGrows(r, s.reps[r], o.rep, id) { ExecuteGrows(r, s.reps[r], ex, id); }
    hide EntryGrows;
    assert Moves(s, s', r, o.rep, []) by { DeliveredIn(c, s); }
    GrowAll(s, s', r, o.rep, []);
    EmptyOut(s, s', r, mode);
    PacketsGrow(c, s, s', r, [], mode);
    forall x | LeaderHas(s', x) ensures Untouched(s, s', x) {
      ExecuteGrows(r, s.reps[r], ex, x);
      CoreSameRefl(s.reps[x.replica].log[x]);
      if x.replica == r { ExecuteCore(s.reps[r], ex, x); }
      hide CoreSame;
    }
    hide Untouched;
    var any := InstanceID(r, 0);
    if LeaderHas(s', any) { UntouchedEntry(c, s, s', any, mode); }
    EntriesStay(c, s, s', any, mode);
  }

  // ----- Followers -----

  lemma WithInstanceAgrees(c: Config, s: Sys, rep: Replica, id: InstanceID)
    requires LogAgrees(c, s, rep.log)
    ensures LogAgrees(c, s, WithInstance(rep, id).log)
  {
  }

  /** No reply of r to this packet was sent before: it was not delivered before, or is an Accept. */
  lemma FirstReply(c: Config, s: Sys, i: nat, k: nat, m: Message, mode: Mode)
    requires Safe(c, s) && PacketsCS(s, mode) && MayDeliver(s, i, mode) && k < |s.sent|
    requires Kind(s.sent[i].msg.body) in {0, 2} && m.id == s.sent[i].msg.id
    requires Kind(m.body) == Kind(s.sent[i].msg.body) + 1
    ensures !Clash(s.sent[k], Packet(s.sent[i].msg.to, m), mode)
  {
    hide Safe, CoverPair, HasNews, Sorted, Knows;
    var p := s.sent[i];
    if Clash(s.sent[k], Packet(p.msg.to, m), mode) {
      assert PacketCS(s, s.sent[k]);
      assert Got(s, p.msg.to, p.msg.id, Kind(p.msg.body));
      var j :| j in s.delivered && j < |s.sent| && s.sent[j].msg.to == p.msg.to
               && s.sent[j].msg.id == p.msg.id && Kind(s.sent[j].msg.body) == Kind(p.msg.body);
      PacketHas(c, s, i);
      PacketHas(c, s, j);
    }
  }

  /** PreAcceptOK exactly when the follower recorded the very attributes of the PreAccept. */
  predicate VoteReply(pa: Body, st: InstanceState, reply: Body)
    requires pa.PreAccept?
  {
    if st.seqNum == pa.seqNum && st.deps == pa.deps then reply == PreAcceptOK
    else reply == PreAcceptReply(st.seqNum, st.deps) && Exceeds(reply, pa)
  }

  /** What a follower that votes replies, and what it then holds. */
  ghost predicate VoteEffect(c: Config, rep: Replica, pa: Body, id: InstanceID, o: Outcome)
    requires pa.PreAccept? && id in rep.log
  {
    o.Done? && o.out != [] ==>
      && pa.cmd.Some? && ScanAll(rep.log, c.nodes, pa.cmd.value, id).Found?
      && id in o.rep.log && o.rep.log[id].st.cmd == pa.cmd
      && (var st := o.rep.log[id].st;
          && Elems(st.deps) == ScanAll(rep.log, c.nodes, pa.cmd.value, id).deps + Elems(pa.deps)
          && Sorted(st.deps) && pa.seqNum <= st.seqNum
          && (exists reply :: o.out == [Message(id.replica, id, reply)] && VoteReply(pa, st, reply)))
  }

  lemma VoteStep(c: Config, me: ReplicaID, rep: Replica, id: InstanceID, pa: Body)
    requires pa.PreAccept? && id in rep.log && Sorted(pa.deps)
    ensures VoteEffect(c, rep, pa, id, OnPreAccept(c, me, rep, id, pa))
  {
    hide ScanAll, Slice, Sorted;
    var o := OnPreAccept(c, me, rep, id, pa);
    if o.Done? && o.out != [] {
      var found := ScanAll(rep.log, c.nodes, pa.cmd.value, id);
      SliceIds(found.deps + Elems(pa.deps));
      LengthDecides(pa.deps, found.deps + Elems(pa.deps));
      assert VoteReply(pa, o.rep.log[id].st, o.out[0].body);
      assert o.out == [Message(id.replica, id, o.out[0].body)];
    }
  }

  lemma VotePacketCS(s': Sys, r: ReplicaID, id: InstanceID, pa: Body, st: InstanceState, reply: Body, i: nat)
    requires pa.PreAccept? && VoteReply(pa, st, reply) && Sorted(st.deps)
    requires r in s'.reps && id in s'.reps[r].log && s'.reps[r].log[id].st.cmd.Some?
    requires i in s'.delivered && i < |s'.sent|
    requires s'.sent[i].msg == Message(r, id, pa)
    ensures PacketCS(s', Packet(r, Message(id.replica, id, reply)))
  {
    hide Sorted, Exceeds;
    assert Got(s', r, id, 0);
  }

  /** A follower's vote covers everything it voted on before. */
  lemma VoteCoverPair(c: Config, s: Sys, s': Sys, r: ReplicaID, id: InstanceID, pa: Body, rep: Replica, o: Outcome,
                      reply: Body, q: Packet)
    requires Safe(c, s) && LogAgrees(c, s, rep.log) && Keep(s, s') && LeaderHas(s, id)
    requires pa.PreAccept? && id in rep.log && VoteEffect(c, rep, pa, id, o) && o.Done?
    requires o.out == [Message(id.replica, id, reply)]
    requires VoteReply(pa, o.rep.log[id].st, reply)
    requires LeadCmd(s, id) == pa.cmd && Elems(pa.deps) <= LeadDeps(s', id)
    requires q.msg.id in rep.log && rep.log[q.msg.id].st.cmd.Some?
    ensures CoverPair(s', q, Packet(r, Message(id.replica, id, reply)))
  {
    var a := q.msg.id;
    var p := Packet(r, Message(id.replica, id, reply));
    if a != id && MeetAt(s', a, id) {
      hide Interferes, WellFormed, ScanAll, CoveredIn, Keep, Sorted, Exceeds;
      LeadCmdOK(c, s, id);
      CmdGrows(s, s', a);
      CmdGrows(s, s', id);
      assert LeadCmd(s, a) == rep.log[a].st.cmd;
      ScanCoversIn(c, s, rep.log, pa.cmd.value, id, a);
      var found := ScanAll(rep.log, c.nodes, pa.cmd.value, id).deps;
      assert found <= VoteDeps(s', p);
      CoveredGrows(s, s', found, VoteDeps(s', p), a);
    }
  }

  /** A single new message. */
  lemma OneOut(s: Sys, s': Sys, r: ReplicaID, m: Message, mode: Mode)
    requires PacketCS(s', Packet(r, m))
    requires forall k :: 0 <= k < |s.sent| ==>
        !Clash(s.sent[k], Packet(r, m), mode) && CoverPair(s', s.sent[k], Packet(r, m))
    ensures NewPackets(s, s', r, [m], mode)
  {
    hide PacketCS, CoverPair, Clash;
  }

  lemma NotAVote(s: Sys, p: Packet, q: Packet)
    requires !IsVote(q.msg.body)
    ensures CoverPair(s, p, q)
  {
  }

  /** Delivering packet i to a replica other than its instance's leader. */
  ghost predicate FollowerDelivery(c: Config, s: Sys, i: nat, o: Outcome, s': Sys, mode: Mode) {
    && MayDeliver(s, i, mode) && !IsReply(s.sent[i].msg.body)
    && s.sent[i].msg.to in s.reps
    && o == Replicas.Step(c, s.sent[i].msg.to, s.reps[s.sent[i].msg.to], s.sent[i].msg)
    && o.Done?
    && s' == Put(s.(delivered := s.delivered + {i}), s.sent[i].msg.to, o.rep, o.out)
  }

  lemma FollowerFacts(c: Config, s: Sys, i: nat)
    requires Safe(c, s) && i < |s.sent| && !IsReply(s.sent[i].msg.body)
    ensures var m := s.sent[i].msg;
            m.to in s.reps && LocalSafe(m.to, s.reps[m.to]) && ValidMessage(c, m.to, m) && LeaderHas(s, m.id)
  {
    hide LocalSafe, Agrees;
    assert PacketSafe(s, s.sent[i]);
  }

  lemma FollowerSafe(c: Config, s: Sys, i: nat, o: Outcome, s': Sys, mode: Mode)
    requires Safe(c, s) && FollowerDelivery(c, s, i, o, s', mode)
    ensures Safe(c, s') && Keep(s, s') && Moves(s, s', s.sent[i].msg.to, o.rep, o.out)
    ensures SameElsewhere(s.reps[s.sent[i].msg.to], o.rep, s.sent[i].msg.id)
    ensures s.sent[i].msg.id.replica != s.sent[i].msg.to && LeaderHas(s, s.sent[i].msg.id)
    ensures o == Dispatch(c, s.sent[i].msg.to, WithInstance(s.reps[s.sent[i].msg.to], s.sent[i].msg.id), s.sent[i].msg)
  {
    hide Safe, Keep, Dispatch, LocalSafe, SameElsewhere;
    var m := s.sent[i].msg;
    var r := m.to;
    FollowerFacts(c, s, i);
    DeliveredIn(c, s);
    assert Moves(s, s', r, o.rep, o.out);
    StepSafe(c, s, i, s');
    StepLocal(c, r, s.reps[r], m);
  }

  lemma FollowerGrows(c: Config, s: Sys, i: nat, o: Outcome, s': Sys, mode: Mode)
    requires Safe(c, s) && FollowerDelivery(c, s, i, o, s', mode)
    ensures EntryGrows(s.sent[i].msg.to, s.reps[s.sent[i].msg.to], o.rep, s.sent[i].msg.id)
  {
    hide Safe, Dispatch, SameElsewhere, Keep, Moves;
    FollowerSafe(c, s, i, o, s', mode);
    var m := s.sent[i].msg;
    var rep1 := WithInstance(s.reps[m.to], m.id);
    FollowerStep(c, m.to, rep1, m);
    PacketHas(c, s, i);
    LeadCmdOK(c, s, m.id);
    hide Replicas.Step;
  }

  lemma FollowerGrow(c: Config, s: Sys, i: nat, o: Outcome, s': Sys, mode: Mode)
    requires Safe(c, s) && FollowerDelivery(c, s, i, o, s', mode)
    ensures Grow(s, s')
  {
    hide Safe, Dispatch, SameElsewhere, Keep, Moves, EntryGrows, Grow, Replicas.Step;
    FollowerSafe(c, s, i, o, s', mode);
    FollowerGrows(c, s, i, o, s', mode);
    GrowOne(s, s', s.sent[i].msg.to, o.rep, o.out, s.sent[i].msg.id);
  }

  lemma DispatchPre(c: Config, me: ReplicaID, rep: Replica, m: Message)
    requires m.id in rep.log && m.body.PreAccept?
    ensures Dispatch(c, me, rep, m) == OnPreAccept(c, me, rep, m.id, m.body)
  {
  }

  lemma OtherVoter(s: Sys, p: Packet, q: Packet)
    requires !(IsVote(p.msg.body) && p.from == q.from)
    ensures CoverPair(s, p, q)
  {
  }

  lemma VoterKnows(s: Sys, k: nat, mode: Mode)
    requires PacketsCS(s, mode) && k < |s.sent| && IsVote(s.sent[k].msg.body)
    ensures Knows(s, s.sent[k].from, s.sent[k].msg.id)
  {
    hide CoverPair, Uniq;
    assert PacketCS(s, s.sent[k]);
  }

  lemma PreAcceptFacts(c: Config, s: Sys, i: nat, mode: Mode)
    requires Safe(c, s) && PacketsCS(s, mode) && i < |s.sent| && s.sent[i].msg.body.PreAccept?
    ensures Sorted(s.sent[i].msg.body.deps) && Elems(s.sent[i].msg.body.deps) <= LeadDeps(s, s.sent[i].msg.id)
    ensures LeadCmd(s, s.sent[i].msg.id) == s.sent[i].msg.body.cmd && LeadCmd(s, s.sent[i].msg.id).Some?
    ensures LeaderHas(s, s.sent[i].msg.id) && s.sent[i].msg.body.seqNum <= Lead(s, s.sent[i].msg.id).st.seqNum
  {
    hide CoverPair, Uniq, Safe;
    PacketHas(c, s, i);
    LeadCmdOK(c, s, s.sent[i].msg.id);
    assert PacketCS(s, s.sent[i]);
  }

  lemma VoteParts(c: Config, rep: Replica, pa: Body, id: InstanceID, o: Outcome) returns (reply: Body)
    requires pa.PreAccept? && id in rep.log && VoteEffect(c, rep, pa, id, o) && o.Done? && o.out != []
    ensures id in o.rep.log && o.rep.log[id].st.cmd == pa.cmd && Sorted(o.rep.log[id].st.deps)
    ensures o.out == [Message(id.replica, id, reply)] && VoteReply(pa, o.rep.log[id].st, reply) && Kind(reply) == 1
  {
    hide Sorted, ScanAll;
    reply :| o.out == [Message(id.replica, id, reply)] && VoteReply(pa, o.rep.log[id].st, reply);
  }

  lemma GrowDeps(s: Sys, s': Sys, id: InstanceID)
    requires Grow(s, s') && LeaderHas(s, id)
    ensures LeadDeps(s, id) <= LeadDeps(s', id)
  {
    hide Keep, Knows;
  }

  /** A vote is a fresh packet that covers the earlier votes of its sender. */
  lemma VotePackets(c: Config, s: Sys, i: nat, o: Outcome, s': Sys, mode: Mode)
    requires CS(c, s, mode) && FollowerDelivery(c, s, i, o, s', mode) && s.sent[i].msg.body.PreAccept?
    ensures NewPackets(s, s', s.sent[i].msg.to, o.out, mode)
  {
    hide Safe, EntryCS, Dispatch, SameElsewhere, Keep, Moves, Grow, Replicas.Step, PacketsCS, NewPackets, PacketCS,
         VoteEffect, CoverPair, Clash;
    var m := s.sent[i].msg;
    var r, id, pa := m.to, m.id, m.body;
    FollowerSafe(c, s, i, o, s', mode);
    var rep1 := WithInstance(s.reps[r], id);
    assert o == OnPreAccept(c, r, rep1, id, pa) by { DispatchPre(c, r, rep1, m); }
    PreAcceptFacts(c, s, i, mode);
    VoteStep(c, r, rep1, id, pa);
    if o.out == [] {
      EmptyOut(s, s', r, mode);
    } else {
      var reply := VoteParts(c, rep1, pa, id, o);
      RepLogAgrees(c, s, r);
      WithInstanceAgrees(c, s, s.reps[r], id);
      hide LogAgrees;
      FollowerGrow(c, s, i, o, s', mode);
      GrowDeps(s, s', id);
      VotePacketCS(s', r, id, pa, o.rep.log[id].st, reply, i);
      forall k | 0 <= k < |s.sent|
        ensures !Clash(s.sent[k], Packet(r, Message(id.replica, id, reply)), mode)
        ensures CoverPair(s', s.sent[k], Packet(r, Message(id.replica, id, reply)))
      {
        FirstReply(c, s, i, k, Message(id.replica, id, reply), mode);
        if IsVote(s.sent[k].msg.body) && s.sent[k].from == r {
          VoterKnows(s, k, mode);
          VoteCoverPair(c, s, s', r, id, pa, rep1, o, reply, s.sent[k]);
        } else {
          OtherVoter(s', s.sent[k], Packet(r, Message(id.replica, id, reply)));
        }
      }
      OneOut(s, s', r, Message(id.replica, id, reply), mode);
    }
  }

  lemma DispatchOther(c: Config, me: ReplicaID, rep: Replica, m: Message)
    requires m.id in rep.log && (m.body.Accept? || m.body.Commit?)
    ensures var o := Dispatch(c, me, rep, m);
            o.Done? && (o.out == [] || (o.out == [Message(m.id.replica, m.id, AcceptOK)] && m.body.Accept?))
  {
  }

  lemma AcceptPackets(c: Config, s: Sys, i: nat, o: Outcome, s': Sys, mode: Mode)
    requires CS(c, s, mode) && FollowerDelivery(c, s, i, o, s', mode) && !s.sent[i].msg.body.PreAccept?
    ensures NewPackets(s, s', s.sent[i].msg.to, o.out, mode)
  {
    hide Safe, EntryCS, Dispatch, SameElsewhere, Keep, Moves, Replicas.Step, PacketsCS, NewPackets, CoverPair, Clash;
    var m := s.sent[i].msg;
    var r, id := m.to, m.id;
    FollowerSafe(c, s, i, o, s', mode);
    var rep1 := WithInstance(s.reps[r], id);
    DispatchOther(c, r, rep1, m);
    if o.out == [] {
      EmptyOut(s, s', r, mode);
    } else {
      var ok := Message(id.replica, id, AcceptOK);
      assert o.out == [ok] && Kind(m.body) == 2;
      assert Got(s', r, id, 2) by { assert s'.sent[i] == s.sent[i]; }
      forall k | 0 <= k < |s.sent|
        ensures !Clash(s.sent[k], Packet(r, ok), mode) && CoverPair(s', s.sent[k], Packet(r, ok))
      {
        FirstReply(c, s, i, k, ok, mode);
        NotAVote(s', s.sent[k], Packet(r, ok));
      }
      OneOut(s, s', r, ok, mode);
    }
  }

  lemma FollowerUntouched(c: Config, s: Sys, i: nat, o: Outcome, s': Sys, x: InstanceID, mode: Mode)
    requires Safe(c, s) && FollowerDelivery(c, s, i, o, s', mode) && LeaderHas(s', x)
    ensures Untouched(s, s', x)
  {
    hide Safe, Dispatch, Keep, Moves, Replicas.Step, Tallied;
    var m := s.sent[i].msg;
    FollowerSafe(c, s, i, o, s', mode);
    assert x.replica == m.to ==> Same(x, s.reps[m.to].log, o.rep.log);
    DeliveredIn(c, s);
    TalliedDeliver(s, s', i, x, 1);
    TalliedDeliver(s, s', i, x, 3);
    hide SameElsewhere;
    CoreSameRefl(Lead(s, x));
    FollowerStep(c, m.to, WithInstance(s.reps[m.to], m.id), m);
    assert NoNewPre(s, s', x) by {
      forall k | |s.sent| <= k < |s'.sent| ensures !(s'.sent[k].msg.id == x && s'.sent[k].msg.body.PreAccept?) {
        assert s'.sent[k] == Packet(m.to, o.out[k - |s.sent|]) && o.out[k - |s.sent|] in o.out;
      }
    }
  }

  lemma FollowerCS(c: Config, s: Sys, i: nat, o: Outcome, s': Sys, mode: Mode)
    requires CS(c, s, mode) && FollowerDelivery(c, s, i, o, s', mode)
    ensures CS(c, s', mode) && Grow(s, s')
  {
    var r := s.sent[i].msg.to;
    FollowerSafe(c, s, i, o, s', mode);
    assert s'.sent == s.sent + Packets(r, o.out);
    if s.sent[i].msg.body.PreAccept? {
      VotePackets(c, s, i, o, s', mode);
    } else {
      AcceptPackets(c, s, i, o, s', mode);
    }
    FollowerGrow(c, s, i, o, s', mode);
    hide Safe, EntryCS, Keep, Moves, Replicas.Step, PacketsCS, NewPackets, Grow, Dispatch, SameElsewhere;
    PacketsGrow(c, s, s', r, o.out, mode);
    forall x | LeaderHas(s', x) ensures Untouched(s, s', x) { FollowerUntouched(c, s, i, o, s', x, mode); }
    var any := s.sent[i].msg.id;
    if LeaderHas(s', any) { UntouchedEntry(c, s, s', any, mode); }
    hide Untouched;
    EntriesStay(c, s, s', any, mode);
  }

  // ----- Command leaders -----

  /** b is a with another status and timer. */
  predicate SameAttrs(a: Instance, b: Instance) {
    b == a.(st := a.st.(status := b.st.status), timer := b.timer)
  }

  /** What onEitherPreAcceptReply does with the instance once the reply is counted. */
  ghost predicate EitherCore(c: Config, me: ReplicaID, id: InstanceID, a: Instance, b: Instance, out: seq<Message>) {
    && SameAttrs(a, b)
    && match b.st.status
       case PreAccepted =>
         && out == [] && !(a.differentReplies && Quorum(c, a.preAcceptReplies + 1))
         && (!b.timer.paused <==> !a.timer.paused || Quorum(c, a.preAcceptReplies + 1))
       case Accepted =>
         && Quorum(c, a.preAcceptReplies + 1) && a.differentReplies && b.timer.paused
         && out == Broadcast(c.nodes, me, id, Accept(b.st.seqNum, b.st.deps))
       case Committed =>
         && FastQuorum(c, a.preAcceptReplies + 1) && !a.differentReplies
         && out == Broadcast(c.nodes, me, id, Commit(b.st.cmd, b.st.seqNum, b.st.deps))
       case _ => false
  }

  lemma EitherStep(c: Config, me: ReplicaID, rep: Replica, id: InstanceID)
    requires id in rep.log && rep.log[id].st.status == PreAccepted
    ensures var o := OnEitherPreAcceptReply(c, me, rep, id);
            o.Done? && id in o.rep.log && EitherCore(c, me, id, rep.log[id], o.rep.log[id], o.out)
  {
    hide Broadcast;
  }

  /** The instance once the reply in body is counted. */
  ghost function Counted(inst: Instance, body: Body): Instance
    requires Kind(body) == 1
  {
    if body.PreAcceptReply? then Merged(inst, body.seqNum, body.deps)
    else inst.(preAcceptReplies := inst.preAcceptReplies + 1)
  }

  lemma MergedFacts(inst: Instance, seqNum: nat, deps: seq<InstanceID>)
    requires Sorted(inst.st.deps)
    ensures var b := Merged(inst, seqNum, deps);
            && Elems(b.st.deps) == Elems(inst.st.deps) + Elems(deps) && Sorted(b.st.deps)
            && b.st.seqNum == Max(seqNum, inst.st.seqNum)
            && (b.differentReplies <==>
                  inst.differentReplies || seqNum > inst.st.seqNum || !(Elems(deps) <= Elems(inst.st.deps)))
  {
    hide Slice, Sorted;
    SliceIds(Elems(inst.st.deps) + Elems(deps));
    LengthDecides(inst.st.deps, Elems(inst.st.deps) + Elems(deps));
  }

  /** As long as no reply differed, the attributes are those of the PreAccept. */
  lemma StillInitial(c: Config, s: Sys, id: InstanceID, counted: set<nat>, j: nat, mode: Mode)
    requires Safe(c, s) && PacketsCS(s, mode) && LeaderHas(s, id) && Tally(s, id, counted)
    requires !AnyReply(s, counted)
    requires j < |s.sent| && s.sent[j].msg.id == id && s.sent[j].msg.body.PreAccept?
    ensures Elems(s.sent[j].msg.body.deps) == Elems(Lead(s, id).st.deps)
    ensures s.sent[j].msg.body.seqNum == Lead(s, id).st.seqNum
  {
    hide Safe, PacketsCS, Tallied;
    PreAcceptFacts(c, s, j, mode);
    forall d | d in Lead(s, id).st.deps ensures d in s.sent[j].msg.body.deps {
      assert InitDep(s, id, d);
    }
  }

  /** A PreAcceptReply always sets differentReplies. */
  lemma ReplyDiffers(c: Config, s: Sys, id: InstanceID, i: nat, mode: Mode)
    requires Safe(c, s) && PacketsCS(s, mode) && LeaderHas(s, id) && Tally(s, id, Tallied(s, id, 1))
    requires Sorted(Lead(s, id).st.deps) && (Lead(s, id).differentReplies <==> AnyReply(s, Tallied(s, id, 1)))
    requires ReplyAt(s, i) && s.sent[i].msg.id == id
    ensures Merged(Lead(s, id), s.sent[i].msg.body.seqNum, s.sent[i].msg.body.deps).differentReplies
  {
    hide Safe, Tally, Sorted, Merged;
    var body := s.sent[i].msg.body;
    MergedFacts(Lead(s, id), body.seqNum, body.deps);
    if !Lead(s, id).differentReplies {
      assert HasNews(s, id, body) by { assert PacketCS(s, s.sent[i]); }
      hide PacketsCS;
      var j :| 0 <= j < |s.sent| && s.sent[j].msg.id == id && s.sent[j].msg.body.PreAccept?
               && Exceeds(body, s.sent[j].msg.body);
      StillInitial(c, s, id, Tallied(s, id, 1), j, mode);
    }
  }

  /** Counting a PreAcceptOK. */
  lemma CountOK(s: Sys, s': Sys, id: InstanceID, i: nat)
    requires LeaderHas(s, id) && LeaderHas(s', id) && Tally(s, id, Tallied(s, id, 1))
    requires i < |s.sent| && s.sent[i].msg.id == id && s.sent[i].msg.body.PreAcceptOK?
    requires s.sent <= s'.sent && NoNewPre(s, s', id) && Tallied(s', id, 1) == Tallied(s, id, 1) + {i}
    requires var a, b := Lead(s, id), Lead(s', id);
             b.st.seqNum == a.st.seqNum && b.st.deps == a.st.deps
    ensures Tally(s', id, Tallied(s', id, 1)) && (AnyReply(s', Tallied(s', id, 1)) <==> AnyReply(s, Tallied(s, id, 1)))
  {
    var k := Tallied(s, id, 1);
    assert forall j :: j in k ==> j < |s.sent| && s'.sent[j] == s.sent[j];
    assert s'.sent[i] == s.sent[i];
    assert forall j, d :: j in k ==> (Brings(s, j, d) <==> Brings(s', j, d));
    assert forall j, n :: j in k ==> (BringsSeq(s, j, n) <==> BringsSeq(s', j, n));
    forall d | d in Lead(s, id).st.deps ensures InitDep(s', id, d) || exists j :: j in k && Brings(s', j, d) {
      InitStays(s, s', id, d, 0);
    }
    InitStays(s, s', id, id, Lead(s, id).st.seqNum);
    hide InitDep, InitSeq, Tallied, NoNewPre, Brings, BringsSeq;
  }

  lemma CountedDep(s: Sys, s': Sys, id: InstanceID, d: InstanceID)
    requires LeaderHas(s, id) && Tally(s, id, Tallied(s, id, 1)) && d in Lead(s, id).st.deps
    requires s.sent <= s'.sent && NoNewPre(s, s', id)
    ensures InitDep(s', id, d) || exists j :: j in Tallied(s, id, 1) && Brings(s', j, d)
  {
    InitStays(s, s', id, d, 0);
    hide InitDep, InitSeq, NoNewPre;
    if j :| j in Tallied(s, id, 1) && Brings(s, j, d) {
      assert s'.sent[j] == s.sent[j] && Brings(s', j, d);
    }
  }

  lemma CountedSeq(s: Sys, s': Sys, id: InstanceID, i: nat)
    requires LeaderHas(s, id) && LeaderHas(s', id) && Tally(s, id, Tallied(s, id, 1)) && ReplyAt(s, i)
    requires s.sent <= s'.sent && NoNewPre(s, s', id)
    requires Lead(s', id).st.seqNum == Max(s.sent[i].msg.body.seqNum, Lead(s, id).st.seqNum)
    ensures var n := Lead(s', id).st.seqNum;
            InitSeq(s', id, n) || exists j :: j in Tallied(s, id, 1) + {i} && BringsSeq(s', j, n)
  {
    var n := Lead(s', id).st.seqNum;
    InitStays(s, s', id, id, n);
    hide InitDep, InitSeq, NoNewPre;
    assert s'.sent[i] == s.sent[i];
    if n == s.sent[i].msg.body.seqNum {
      assert BringsSeq(s', i, n);
    } else if j :| j in Tallied(s, id, 1) && BringsSeq(s, j, n) {
      assert s'.sent[j] == s.sent[j] && BringsSeq(s', j, n);
    }
  }

  /** Counting a PreAcceptReply. */
  lemma CountReply(s: Sys, s': Sys, id: InstanceID, i: nat)
    requires LeaderHas(s, id) && LeaderHas(s', id) && Tally(s, id, Tallied(s, id, 1))
    requires ReplyAt(s, i) && s.sent[i].msg.id == id
    requires s.sent <= s'.sent && NoNewPre(s, s', id) && Tallied(s', id, 1) == Tallied(s, id, 1) + {i}
    requires var a, b, body := Lead(s, id), Lead(s', id), s.sent[i].msg.body;
             b.st.seqNum == Max(body.seqNum, a.st.seqNum) && Elems(b.st.deps) == Elems(a.st.deps) + Elems(body.deps)
    ensures Tally(s', id, Tallied(s', id, 1)) && AnyReply(s', Tallied(s', id, 1))
  {
    var k := Tallied(s, id, 1);
    assert forall j :: j in k ==> j < |s.sent| && s'.sent[j] == s.sent[j];
    assert s'.sent[i] == s.sent[i] && ReplyAt(s', i);
    forall d | d in Lead(s', id).st.deps ensures InitDep(s', id, d) || exists j :: j in k + {i} && Brings(s', j, d) {
      assert d in Elems(Lead(s', id).st.deps);
      if d in s.sent[i].msg.body.deps {
        assert Brings(s', i, d);
      } else {
        assert d in Lead(s, id).st.deps;
        CountedDep(s, s', id, d);
      }
    }
    CountedSeq(s, s', id, i);
    hide InitDep, InitSeq, Tallied, NoNewPre, Brings, BringsSeq;
  }

  // ----- Broadcasts -----

  predicate ToDistinct(out: seq<Message>) {
    forall a, b :: 0 <= a < b < |out| ==> out[a].to != out[b].to
  }

  lemma {:induction false} BroadcastDistinct(nodes: seq<ReplicaID>, me: ReplicaID, id: InstanceID, body: Body)
    requires NoDup(nodes)
    ensures ToDistinct(Broadcast(nodes, me, id, body))
  {
    if nodes != [] {
      var rest := Broadcast(nodes[1..], me, id, body);
      BroadcastDistinct(nodes[1..], me, id, body);
      forall b | 0 <= b < |rest| ensures rest[b].to != nodes[0] {
        BroadcastIn(nodes[1..], me, id, body, rest[b]);
      }
    }
  }

  /** A first broadcast is new on the network. */
  lemma AnnouncePackets(c: Config, s: Sys, s': Sys, r: ReplicaID, id: InstanceID, body: Body, mode: Mode)
    requires ConfigOK(c)
    requires forall k :: 0 <= k < |s.sent| ==> !(s.sent[k].msg.id == id && Kind(s.sent[k].msg.body) == Kind(body))
    requires forall m :: m in Broadcast(c.nodes, r, id, body) ==> PacketCS(s', Packet(r, m))
    requires forall k, m :: 0 <= k < |s.sent| && m in Broadcast(c.nodes, r, id, body) ==>
        CoverPair(s', s.sent[k], Packet(r, m))
    ensures NewPackets(s, s', r, Broadcast(c.nodes, r, id, body), mode)
  {
    hide PacketCS, CoverPair;
    var out := Broadcast(c.nodes, r, id, body);
    BroadcastDistinct(c.nodes, r, id, body);
    assert ToDistinct(out);
    forall m | m in out ensures m.id == id && m.body == body { BroadcastIn(c.nodes, r, id, body, m); }
    forall a, b | 0 <= a < b < |out|
      ensures !Clash(Packet(r, out[a]), Packet(r, out[b]), mode)
      ensures CoverPair(s', Packet(r, out[a]), Packet(r, out[b]))
    {
      assert out[a] in out && out[b] in out && out[a].to != out[b].to;
      SameIdPair(s', Packet(r, out[a]), Packet(r, out[b]));
    }
  }

  /** Accept and Commit broadcasts. */
  lemma DecisionPackets(c: Config, s: Sys, s': Sys, id: InstanceID, body: Body, mode: Mode)
    requires ConfigOK(c) && Safe(c, s) && LeaderHas(s, id)
    requires (body.Accept? && Rank(Lead(s, id).st.status) < 2) || (body.Commit? && Rank(Lead(s, id).st.status) < 3)
    ensures NewPackets(s, s', id.replica, Broadcast(c.nodes, id.replica, id, body), mode)
  {
    hide Safe, Broadcast, NewPackets;
    var r := id.replica;
    forall k | 0 <= k < |s.sent| ensures !(s.sent[k].msg.id == id && Kind(s.sent[k].msg.body) == Kind(body)) {
      PacketHas(c, s, k);
    }
    forall m | m in Broadcast(c.nodes, r, id, body) ensures PacketCS(s', Packet(r, m)) && !IsVote(m.body) {
      BroadcastIn(c.nodes, r, id, body, m);
    }
    forall k, m | 0 <= k < |s.sent| && m in Broadcast(c.nodes, r, id, body)
      ensures CoverPair(s', s.sent[k], Packet(r, m))
    {
      NotAVote(s', s.sent[k], Packet(r, m));
    }
    AnnouncePackets(c, s, s', r, id, body, mode);
  }

  /** A reply comes from a second node. */
  lemma ReplyFrom(c: Config, s: Sys, i: nat)
    requires Safe(c, s) && i < |s.sent| && IsReply(s.sent[i].msg.body)
    ensures s.sent[i].from in c.nodes && s.sent[i].from != s.sent[i].msg.id.replica
  {
    hide LocalSafe, Agrees;
    assert PacketSafe(s, s.sent[i]);
  }

  lemma AcceptsSent(c: Config, s: Sys, s': Sys, id: InstanceID, body: Body, other: ReplicaID)
    requires other in c.nodes && other != id.replica && body.Accept?
    requires s'.sent == s.sent + Packets(id.replica, Broadcast(c.nodes, id.replica, id, body))
    ensures AcceptSent(s', id)
  {
    var out := Broadcast(c.nodes, id.replica, id, body);
    BroadcastIn(c.nodes, id.replica, id, body, Message(other, id, body));
    hide Broadcast, Packets;
    var k :| 0 <= k < |out| && out[k] == Message(other, id, body);
    assert s'.sent[|s.sent| + k].msg == out[k];
  }

  // ----- The entry at the leader after a reply -----

  lemma NoAcceptVotes(c: Config, s: Sys, id: InstanceID, mode: Mode)
    requires Safe(c, s) && PacketsCS(s, mode) && LeaderHas(s, id) && Rank(Lead(s, id).st.status) < 2
    ensures Tallied(s, id, 3) == {}
  {
    hide Safe, CoverPair, Uniq, HasNews, Sorted, Knows;
    forall i | i in Tallied(s, id, 3) ensures false {
      assert PacketCS(s, s.sent[i]);
      assert Got(s, s.sent[i].from, id, 2);
      var j :| j in s.delivered && j < |s.sent| && s.sent[j].msg.to == s.sent[i].from
               && s.sent[j].msg.id == id && Kind(s.sent[j].msg.body) == 2;
      PacketHas(c, s, j);
    }
  }

  lemma FastIsMajority(c: Config, n: nat)
    requires n >= 1
    ensures FastQuorum(c, n + 1) ==> Quorum(c, n + 1)
  {
  }

  /** After counting one more vote. */
  lemma CountedOK(c: Config, s': Sys, me: ReplicaID, id: InstanceID, a: Instance, out: seq<Message>, mode: Mode)
    requires LeaderHas(s', id) && EitherCore(c, me, id, a, Lead(s', id), out)
    requires Tally(s', id, Tallied(s', id, 1)) && a.preAcceptReplies == |Tallied(s', id, 1)| && a.preAcceptReplies >= 1
    requires a.acceptReplies == 0 && (Lead(s', id).st.status != PreAccepted ==> Tallied(s', id, 3) == {})
    requires !a.timer.paused ==> Quorum(c, a.preAcceptReplies)
    requires a.differentReplies <==> AnyReply(s', Tallied(s', id, 1))
    requires Lead(s', id).st.status == Accepted ==> AcceptSent(s', id)
    ensures TallyOK(c, s', id, mode)
  {
    hide Tally, Tallied, Broadcast, AnyReply, AcceptSent;
    var b := Lead(s', id);
    if Rank(b.st.status) >= 2 {
      FastIsMajority(c, a.preAcceptReplies);
      assert Majority(c, s', id, Tallied(s', id, 1), mode);
    }
  }

  // ----- Replies delivered to a command leader -----

  ghost predicate LeaderDelivery(c: Config, s: Sys, i: nat, o: Outcome, s': Sys, mode: Mode) {
    && MayDeliver(s, i, mode) && IsReply(s.sent[i].msg.body)
    && s.sent[i].msg.to in s.reps
    && o == Replicas.Step(c, s.sent[i].msg.to, s.reps[s.sent[i].msg.to], s.sent[i].msg)
    && o.Done?
    && s' == Put(s.(delivered := s.delivered + {i}), s.sent[i].msg.to, o.rep, o.out)
  }

  lemma LeaderFacts(c: Config, s: Sys, i: nat)
    requires Safe(c, s) && i < |s.sent| && IsReply(s.sent[i].msg.body)
    ensures var m := s.sent[i].msg;
            m.to in s.reps && LocalSafe(m.to, s.reps[m.to]) && ValidMessage(c, m.to, m) && LeaderHas(s, m.id)
            && m.id.replica == m.to
  {
    hide LocalSafe, Agrees;
    assert PacketSafe(s, s.sent[i]);
  }

  lemma EffectIn(c: Config, me: ReplicaID, rep: Replica, id: InstanceID, o: Outcome)
    requires id in rep.log && LeaderEffect(c, me, rep, id, o)
    ensures o.Done? && id in o.rep.log
  {
  }

  lemma LeaderSafe(c: Config, s: Sys, i: nat, o: Outcome, s': Sys, mode: Mode)
    requires Safe(c, s) && LeaderDelivery(c, s, i, o, s', mode)
    ensures Safe(c, s') && Keep(s, s') && Moves(s, s', s.sent[i].msg.to, o.rep, o.out)
    ensures SameElsewhere(s.reps[s.sent[i].msg.to], o.rep, s.sent[i].msg.id)
    ensures s.sent[i].msg.id.replica == s.sent[i].msg.to && LeaderHas(s, s.sent[i].msg.id)
    ensures LeaderHas(s', s.sent[i].msg.id)
    ensures o == Dispatch(c, s.sent[i].msg.to, s.reps[s.sent[i].msg.to], s.sent[i].msg)
  {
    hide Safe, Keep, Dispatch, LocalSafe, SameElsewhere, LeaderEffect;
    var m := s.sent[i].msg;
    var r := m.to;
    LeaderFacts(c, s, i);
    DeliveredIn(c, s);
    assert Moves(s, s', r, o.rep, o.out);
    StepSafe(c, s, i, s');
    StepLocal(c, r, s.reps[r], m);
    LeaderStep(c, r, s.reps[r], m);
    assert m.id in o.rep.log by { EffectIn(c, r, s.reps[r], m.id, o); }
  }

  lemma MergedStatus(inst: Instance, body: Body)
    requires Kind(body) == 1
    ensures Counted(inst, body).st.status == inst.st.status
    ensures Counted(inst, body).preAcceptReplies == inst.preAcceptReplies + 1
    ensures Counted(inst, body).timer == inst.timer && Counted(inst, body).acceptReplies == inst.acceptReplies
    ensures Counted(inst, body).st.cmd == inst.st.cmd
  {
  }

  /** A vote that arrives while the leader is still counting. */
  lemma VoteCounted(c: Config, me: ReplicaID, rep: Replica, m: Message)
    requires m.id in rep.log && Kind(m.body) == 1 && rep.log[m.id].st.status == PreAccepted
    ensures var o := Dispatch(c, me, rep, m);
            o.Done? && m.id in o.rep.log
            && EitherCore(c, me, m.id, Counted(rep.log[m.id], m.body), o.rep.log[m.id], o.out)
  {
    hide OnEitherPreAcceptReply, Merged, EitherCore;
    MergedStatus(rep.log[m.id], m.body);
    EitherStep(c, me, rep.(log := rep.log[m.id := Counted(rep.log[m.id], m.body)]), m.id);
  }

  /** A reply that is not counted. */
  lemma ReplyIgnored(c: Config, me: ReplicaID, rep: Replica, m: Message)
    requires m.id in rep.log
    requires || (Kind(m.body) == 1 && rep.log[m.id].st.status != PreAccepted)
             || (Kind(m.body) == 3 && rep.log[m.id].st.status != Accepted)
    ensures Dispatch(c, me, rep, m) == Done(rep, [], false)
  {
  }

  /** An AcceptOK that is counted. */
  lemma AcceptCounted(c: Config, me: ReplicaID, rep: Replica, m: Message)
    requires m.id in rep.log && Kind(m.body) == 3 && rep.log[m.id].st.status == Accepted
    ensures var o := Dispatch(c, me, rep, m);
            && o.Done? && m.id in o.rep.log
            && (var a, b := rep.log[m.id].(acceptReplies := rep.log[m.id].acceptReplies + 1), o.rep.log[m.id];
                if Quorum(c, a.acceptReplies + 1)
                then b == WithStatus(a, Committed)
                     && o.out == Broadcast(c.nodes, me, m.id, Commit(b.st.cmd, b.st.seqNum, b.st.deps))
                else b == a && o.out == [])
  {
    hide Broadcast;
  }

  lemma LeaderNoPre(c: Config, s: Sys, i: nat, o: Outcome, s': Sys, x: InstanceID, mode: Mode)
    requires Safe(c, s) && LeaderDelivery(c, s, i, o, s', mode)
    ensures NoNewPre(s, s', x)
  {
    hide Safe, Dispatch, Keep, Moves, Replicas.Step, Broadcast, SameElsewhere;
    var m := s.sent[i].msg;
    LeaderSafe(c, s, i, o, s', mode);
    LeaderStep(c, m.to, s.reps[m.to], m);
    forall k | |s.sent| <= k < |s'.sent| ensures !(s'.sent[k].msg.id == x && s'.sent[k].msg.body.PreAccept?) {
      assert s'.sent[k] == Packet(m.to, o.out[k - |s.sent|]) && o.out[k - |s.sent|] in o.out;
      BroadcastIn(c.nodes, m.to, m.id, Announcement(o.rep.log[m.id].st), o.out[k - |s.sent|]);
    }
  }

  lemma OthersUntouched(c: Config, s: Sys, i: nat, o: Outcome, s': Sys, x: InstanceID, mode: Mode)
    requires Safe(c, s) && LeaderDelivery(c, s, i, o, s', mode) && LeaderHas(s', x) && x != s.sent[i].msg.id
    ensures Untouched(s, s', x)
  {
    hide Safe, Dispatch, Keep, Moves, Replicas.Step, Tallied, Broadcast;
    var m := s.sent[i].msg;
    LeaderSafe(c, s, i, o, s', mode);
    assert x.replica == m.to ==> Same(x, s.reps[m.to].log, o.rep.log);
    DeliveredIn(c, s);
    TalliedDeliver(s, s', i, x, 1);
    TalliedDeliver(s, s', i, x, 3);
    hide SameElsewhere;
    CoreSameRefl(Lead(s, x));
    LeaderNoPre(c, s, i, o, s', x, mode);
  }

  /** Which of the three things a reply does at its leader. */
  predicate CountsVote(s: Sys, i: nat)
    requires i < |s.sent| && LeaderHas(s, s.sent[i].msg.id)
  {
    Kind(s.sent[i].msg.body) == 1 && Lead(s, s.sent[i].msg.id).st.status == PreAccepted
  }

  predicate CountsAccept(s: Sys, i: nat)
    requires i < |s.sent| && LeaderHas(s, s.sent[i].msg.id)
  {
    Kind(s.sent[i].msg.body) == 3 && Lead(s, s.sent[i].msg.id).st.status == Accepted
  }

  lemma CountedGrows(inst: Instance, body: Body)
    requires Kind(body) == 1 && Sorted(inst.st.deps)
    ensures Elems(inst.st.deps) <= Elems(Counted(inst, body).st.deps) && inst.st.seqNum <= Counted(inst, body).st.seqNum
    ensures Sorted(Counted(inst, body).st.deps)
  {
    hide Sorted, Merged;
    if body.PreAcceptReply? { MergedFacts(inst, body.seqNum, body.deps); }
  }

  lemma EntrySorted(c: Config, s: Sys, id: InstanceID, mode: Mode)
    requires CS(c, s, mode) && LeaderHas(s, id)
    ensures Sorted(Lead(s, id).st.deps) && TallyOK(c, s, id, mode)
  {
    hide Safe, PacketsCS, Sorted, TallyOK;
  }

  lemma LeaderGrows(c: Config, s: Sys, i: nat, o: Outcome, s': Sys, mode: Mode)
    requires CS(c, s, mode) && LeaderDelivery(c, s, i, o, s', mode)
    ensures EntryGrows(s.sent[i].msg.to, s.reps[s.sent[i].msg.to], o.rep, s.sent[i].msg.id)
    ensures Sorted(Lead(s', s.sent[i].msg.id).st.deps)
    ensures Grow(s, s')
  {
    hide Safe, EntryCS, PacketsCS, Dispatch, SameElsewhere, Keep, Moves, Replicas.Step, Sorted, Counted, Broadcast,
         Grow;
    LeaderSafe(c, s, i, o, s', mode);
    var m := s.sent[i].msg;
    var rep := s.reps[m.to];
    EntrySorted(c, s, m.id, mode);
    hide CS;
    if CountsVote(s, i) {
      VoteCounted(c, m.to, rep, m);
      CountedGrows(rep.log[m.id], m.body);
      MergedStatus(rep.log[m.id], m.body);
    } else if CountsAccept(s, i) {
      AcceptCounted(c, m.to, rep, m);
    } else {
      ReplyIgnored(c, m.to, rep, m);
    }
    hide Elems;
    GrowOne(s, s', m.to, o.rep, o.out, m.id);
  }

  lemma LeaderPackets(c: Config, s: Sys, i: nat, o: Outcome, s': Sys, mode: Mode)
    requires CS(c, s, mode) && LeaderDelivery(c, s, i, o, s', mode)
    ensures NewPackets(s, s', s.sent[i].msg.to, o.out, mode)
  {
    hide Safe, EntryCS, PacketsCS, Dispatch, SameElsewhere, Keep, Moves, Replicas.Step, Counted, Broadcast, NewPackets;
    LeaderSafe(c, s, i, o, s', mode);
    var m := s.sent[i].msg;
    var rep := s.reps[m.to];
    if CountsVote(s, i) {
      VoteCounted(c, m.to, rep, m);
    } else if CountsAccept(s, i) {
      AcceptCounted(c, m.to, rep, m);
    } else {
      ReplyIgnored(c, m.to, rep, m);
    }
    if o.out == [] {
      EmptyOut(s, s', m.to, mode);
    } else {
      var st := o.rep.log[m.id].st;
      if st.status == Accepted {
        DecisionPackets(c, s, s', m.id, Accept(st.seqNum, st.deps), mode);
      } else {
        DecisionPackets(c, s, s', m.id, Commit(st.cmd, st.seqNum, st.deps), mode);
      }
    }
  }

  lemma NewTally(s: Sys, s': Sys, i: nat, id: InstanceID)
    requires i < |s.sent| && s'.delivered == s.delivered + {i} && s.sent <= s'.sent
    requires forall j :: j in s.delivered ==> j < |s.sent|
    requires s.sent[i].msg.id == id
    ensures var kind := Kind(s.sent[i].msg.body);
            && Tallied(s', id, kind) == Tallied(s, id, kind) + {i}
            && (i !in s.delivered ==> |Tallied(s', id, kind)| == |Tallied(s, id, kind)| + 1)
            && forall other :: other != kind ==> Tallied(s', id, other) == Tallied(s, id, other)
  {
    var kind := Kind(s.sent[i].msg.body);
    TalliedDeliver(s, s', i, id, kind);
    assert i !in s.delivered ==> i !in Tallied(s, id, kind);
    forall other | other != kind ensures Tallied(s', id, other) == Tallied(s, id, other) {
      TalliedDeliver(s, s', i, id, other);
    }
  }

  lemma VoteTally(c: Config, s: Sys, i: nat, o: Outcome, s': Sys, mode: Mode)
    requires CS(c, s, mode) && LeaderDelivery(c, s, i, o, s', mode) && LeaderHas(s, s.sent[i].msg.id)
    requires CountsVote(s, i)
    ensures LeaderHas(s', s.sent[i].msg.id) && TallyOK(c, s', s.sent[i].msg.id, mode)
  {
    hide Safe, EntryCS, PacketsCS, Dispatch, SameElsewhere, Keep, Moves, Replicas.Step, Broadcast, Sorted, Tally,
         Tallied, Merged;
    LeaderSafe(c, s, i, o, s', mode);
    var m := s.sent[i].msg;
    var id := m.id;
    var a := Lead(s, id);
    EntrySorted(c, s, id, mode);
    VoteCounted(c, m.to, s.reps[m.to], m);
    MergedStatus(a, m.body);
    DeliveredIn(c, s);
    NewTally(s, s', i, id);
    LeaderNoPre(c, s, i, o, s', id, mode);
    NoAcceptVotes(c, s, id, mode);
    if ReplyAt(s, i) {
      MergedFacts(a, m.body.seqNum, m.body.deps);
      ReplyDiffers(c, s, id, i, mode);
      CountReply(s, s', id, i);
    } else {
      CountOK(s, s', id, i);
    }
    hide CS, Counted, NoNewPre, AnyReply;
    if Lead(s', id).st.status == Accepted {
      ReplyFrom(c, s, i);
      AcceptsSent(c, s, s', id, Accept(Lead(s', id).st.seqNum, Lead(s', id).st.deps), s.sent[i].from);
    }
    CountedOK(c, s', m.to, id, Counted(a, m.body), o.out, mode);
  }

  lemma AcceptTally(c: Config, s: Sys, i: nat, o: Outcome, s': Sys, mode: Mode)
    requires CS(c, s, mode) && LeaderDelivery(c, s, i, o, s', mode) && LeaderHas(s, s.sent[i].msg.id)
    requires CountsAccept(s, i)
    ensures LeaderHas(s', s.sent[i].msg.id) && TallyOK(c, s', s.sent[i].msg.id, mode)
  {
    hide Safe, EntryCS, PacketsCS, Dispatch, SameElsewhere, Keep, Moves, Replicas.Step, Broadcast, Sorted, Tally,
         Tallied;
    LeaderSafe(c, s, i, o, s', mode);
    var m := s.sent[i].msg;
    var id := m.id;
    EntrySorted(c, s, id, mode);
    AcceptCounted(c, m.to, s.reps[m.to], m);
    DeliveredIn(c, s);
    NewTally(s, s', i, id);
    LeaderNoPre(c, s, i, o, s', id, mode);
    hide CS, NoNewPre;
    var counted :| Majority(c, s, id, counted, mode);
    TallyStays(s, s', id, counted);
    TallyCounts(s, id, counted);
    AnyReplyStays(s, s', id, counted);
    AcceptSentStays(s, s', id);
    hide AnyReply, AcceptSent;
    assert Majority(c, s', id, counted, mode);
  }

  lemma IgnoredUntouched(c: Config, s: Sys, i: nat, o: Outcome, s': Sys, mode: Mode)
    requires Safe(c, s) && LeaderDelivery(c, s, i, o, s', mode) && LeaderHas(s, s.sent[i].msg.id)
    requires !CountsVote(s, i) && !CountsAccept(s, i)
    ensures Untouched(s, s', s.sent[i].msg.id)
  {
    hide Safe, Dispatch, SameElsewhere, Keep, Moves, Replicas.Step, Broadcast, Tallied;
    LeaderSafe(c, s, i, o, s', mode);
    var m := s.sent[i].msg;
    ReplyIgnored(c, m.to, s.reps[m.to], m);
    DeliveredIn(c, s);
    NewTally(s, s', i, m.id);
    LeaderNoPre(c, s, i, o, s', m.id, mode);
    CoreSameRefl(Lead(s, m.id));
  }

  lemma LeaderEntry(c: Config, s: Sys, i: nat, o: Outcome, s': Sys, mode: Mode)
    requires CS(c, s, mode) && LeaderDelivery(c, s, i, o, s', mode)
    ensures LeaderHas(s', s.sent[i].msg.id) && EntryCS(c, s', s.sent[i].msg.id, mode)
  {
    hide Safe, PacketsCS, Dispatch, SameElsewhere, Keep, Moves, Replicas.Step, Sorted, TallyOK, Grow, EntryGrows,
         Untouched;
    LeaderSafe(c, s, i, o, s', mode);
    LeaderGrows(c, s, i, o, s', mode);
    var id := s.sent[i].msg.id;
    if CountsVote(s, i) || CountsAccept(s, i) {
      EntrySorted(c, s, id, mode);
      if CountsVote(s, i) { VoteTally(c, s, i, o, s', mode); } else { AcceptTally(c, s, i, o, s', mode); }
    } else {
      IgnoredUntouched(c, s, i, o, s', mode);
      UntouchedEntry(c, s, s', id, mode);
    }
  }

  lemma LeaderCS(c: Config, s: Sys, i: nat, o: Outcome, s': Sys, mode: Mode)
    requires CS(c, s, mode) && LeaderDelivery(c, s, i, o, s', mode)
    ensures CS(c, s', mode) && Grow(s, s')
  {
    hide Safe, EntryCS, Keep, Moves, Replicas.Step, PacketsCS, NewPackets, Grow, Dispatch, SameElsewhere, EntryGrows,
         Untouched, Sorted;
    LeaderSafe(c, s, i, o, s', mode);
    LeaderPackets(c, s, i, o, s', mode);
    LeaderGrows(c, s, i, o, s', mode);
    assert s'.sent == s.sent + Packets(s.sent[i].msg.to, o.out);
    PacketsGrow(c, s, s', s.sent[i].msg.to, o.out, mode);
    LeaderEntry(c, s, i, o, s', mode);
    forall x | LeaderHas(s', x) && x != s.sent[i].msg.id
      ensures Untouched(s, s', x)
    {
      OthersUntouched(c, s, i, o, s', x, mode);
    }
    EntriesStay(c, s, s', s.sent[i].msg.id, mode);
  }
}
