/** Requests and ticks keep the invariants of CrashStop, and so do whole runs. */
module CrashStopRuns {
  import opened Keys
  import opened Types
  import opened Scan
  import opened DepSlices
  import opened Graphs
  import opened Replicas
  import opened Local
  import opened System
  import opened Safety
  import opened Restart
  import opened Runs
  import opened CrashStop
  import opened CrashStopSteps

  lemma TalliedSame(s: Sys, s': Sys, id: InstanceID, kind: nat)
    requires s'.delivered == s.delivered && s.sent <= s'.sent && forall j :: j in s.delivered ==> j < |s.sent|
    ensures Tallied(s', id, kind) == Tallied(s, id, kind)
  {
    assert forall j :: 0 <= j < |s.sent| ==> s'.sent[j] == s.sent[j];
  }

  // ----- Ticks -----

  /** What a tick that is not ignored does with the instance. */
  ghost predicate TickCore(c: Config, me: ReplicaID, id: InstanceID, a: Instance, b: Instance, out: seq<Message>) {
    && SameAttrs(a, b)
    && (if b.st.status == a.st.status then out == [] && b.timer.paused == a.timer.paused
        else b.st.status == Accepted && out == Broadcast(c.nodes, me, id, Accept(b.st.seqNum, b.st.deps)))
  }

  lemma TickStepCore(c: Config, me: ReplicaID, rep: Replica, id: InstanceID)
    requires LocalSafe(me, rep) && id in rep.log && !rep.log[id].timer.paused
    ensures id.replica == me && rep.log[id].st.status == PreAccepted
    ensures var o := TickOne(c, me, rep, id);
            o.Done? && id in o.rep.log && TickCore(c, me, id, rep.log[id], o.rep.log[id], o.out)
  {
    hide Broadcast;
    assert LocalEntry(me, rep, id);
  }

  ghost predicate TickDelivery(c: Config, s: Sys, r: ReplicaID, id: InstanceID, o: Outcome, s': Sys) {
    && r in s.reps && id in s.reps[r].log && !s.reps[r].log[id].timer.paused
    && o == TickOne(c, r, s.reps[r], id)
    && o.Done? && s' == Put(s, r, o.rep, o.out)
  }

  lemma TickFacts(c: Config, s: Sys, r: ReplicaID, id: InstanceID, o: Outcome, s': Sys)
    requires Safe(c, s) && TickDelivery(c, s, r, id, o, s')
    ensures Safe(c, s') && Keep(s, s') && Moves(s, s', r, o.rep, o.out) && SameElsewhere(s.reps[r], o.rep, id)
    ensures id.replica == r && LeaderHas(s, id) && LeaderHas(s', id)
    ensures Lead(s, id).st.status == PreAccepted && TickCore(c, r, id, Lead(s, id), Lead(s', id), o.out)
    ensures o == TickOne(c, r, s.reps[r], id)
  {
    assert LocalSafe(r, s.reps[r]);
    hide Safe, Keep, TickOne, LocalSafe, SameElsewhere, TickCore;
    TickMoveSafe(c, s, r, id);
    TickLocal(c, r, s.reps[r], id);
    TickStepCore(c, r, s.reps[r], id);
    DeliveredIn(c, s);
  }

  lemma TickGrows(c: Config, s: Sys, r: ReplicaID, id: InstanceID, o: Outcome, s': Sys)
    requires Safe(c, s) && TickDelivery(c, s, r, id, o, s')
    ensures Grow(s, s') && forall x :: NoNewPre(s, s', x)
  {
    hide Safe, Keep, TickOne, Broadcast, Grow;
    TickFacts(c, s, r, id, o, s');
    assert EntryGrows(r, s.reps[r], o.rep, id);
    forall x | LeaderHas(s', x) ensures LeaderHas(s, x) {
      if x != id { assert Same(x, s.reps[r].log, o.rep.log); }
    }
    forall x ensures NoNewPre(s, s', x) {
      forall k | |s.sent| <= k < |s'.sent| ensures !s'.sent[k].msg.body.PreAccept? {
        assert s'.sent[k] == Packet(r, o.out[k - |s.sent|]) && o.out[k - |s.sent|] in o.out;
        var b := Lead(s', id);
        BroadcastIn(c.nodes, r, id, Accept(b.st.seqNum, b.st.deps), o.out[k - |s.sent|]);
      }
    }
    hide SameElsewhere, EntryGrows, Moves;
    GrowOne(s, s', r, o.rep, o.out, id);
  }

  lemma TickPackets(c: Config, s: Sys, r: ReplicaID, id: InstanceID, o: Outcome, s': Sys, mode: Mode)
    requires CS(c, s, mode) && TickDelivery(c, s, r, id, o, s')
    ensures NewPackets(s, s', r, o.out, mode)
  {
    hide Safe, Keep, TickOne, Broadcast, SameElsewhere, Moves, PacketsCS, EntryCS, NewPackets;
    TickFacts(c, s, r, id, o, s');
    if o.out == [] {
      EmptyOut(s, s', r, mode);
    } else {
      var b := Lead(s', id);
      DecisionPackets(c, s, s', id, Accept(b.st.seqNum, b.st.deps), mode);
    }
  }

  lemma TickUntouched(c: Config, s: Sys, r: ReplicaID, id: InstanceID, o: Outcome, s': Sys, x: InstanceID)
    requires Safe(c, s) && TickDelivery(c, s, r, id, o, s') && LeaderHas(s', x)
    requires x != id || Lead(s', id).st.status == PreAccepted
    ensures Untouched(s, s', x)
  {
    hide Safe, Keep, TickOne, Broadcast, Grow, Tallied, NoNewPre;
    TickFacts(c, s, r, id, o, s');
    TickGrows(c, s, r, id, o, s');
    DeliveredIn(c, s);
    TalliedSame(s, s', x, 1);
    TalliedSame(s, s', x, 3);
    if x != id {
      assert x.replica == r ==> Same(x, s.reps[r].log, o.rep.log);
      CoreSameRefl(Lead(s, x));
    }
  }

  lemma CountedReply(s: Sys, id: InstanceID) returns (i: nat)
    requires |Tallied(s, id, 1)| > 0
    ensures i < |s.sent| && s.sent[i].msg.id == id && IsReply(s.sent[i].msg.body)
  {
    i :| i in Tallied(s, id, 1);
  }

  /** The slow path is taken with a majority of votes. */
  lemma TickFires(c: Config, s: Sys, r: ReplicaID, id: InstanceID, o: Outcome, s': Sys, mode: Mode)
    requires CS(c, s, mode) && TickDelivery(c, s, r, id, o, s') && LeaderHas(s', id)
    requires Lead(s', id).st.status != PreAccepted
    ensures EntryCS(c, s', id, mode)
  {
    hide Safe, Keep, TickOne, Broadcast, Grow, Tallied, NoNewPre, PacketsCS, SameElsewhere, Moves, Tally, Sorted;
    TickFacts(c, s, r, id, o, s');
    TickGrows(c, s, r, id, o, s');
    EntrySorted(c, s, id, mode);
    NoAcceptVotes(c, s, id, mode);
    DeliveredIn(c, s);
    TalliedSame(s, s', id, 1);
    TalliedSame(s, s', id, 3);
    TallyStays(s, s', id, Tallied(s, id, 1));
    AnyReplyStays(s, s', id, Tallied(s, id, 1));
    var i := CountedReply(s, id);
    ReplyFrom(c, s, i);
    AcceptsSent(c, s, s', id, Accept(Lead(s', id).st.seqNum, Lead(s', id).st.deps), s.sent[i].from);
    hide AnyReply, AcceptSent;
    assert Majority(c, s', id, Tallied(s, id, 1), mode);
  }

  lemma TickCS(c: Config, s: Sys, r: ReplicaID, id: InstanceID, o: Outcome, s': Sys, mode: Mode)
    requires CS(c, s, mode) && TickDelivery(c, s, r, id, o, s')
    ensures CS(c, s', mode) && Grow(s, s')
  {
    hide Safe, Keep, TickOne, Broadcast, Grow, NoNewPre, PacketsCS, SameElsewhere, Moves, EntryCS, NewPackets,
         Untouched;
    TickFacts(c, s, r, id, o, s');
    TickGrows(c, s, r, id, o, s');
    TickPackets(c, s, r, id, o, s', mode);
    PacketsGrow(c, s, s', r, o.out, mode);
    if Lead(s', id).st.status == PreAccepted {
      TickUntouched(c, s, r, id, o, s', id);
      UntouchedEntry(c, s, s', id, mode);
    } else {
      TickFires(c, s, r, id, o, s', mode);
    }
    forall x | LeaderHas(s', x) && x != id ensures Untouched(s, s', x) { TickUntouched(c, s, r, id, o, s', x); }
    EntriesStay(c, s, s', id, mode);
  }

  lemma GrowTrans(a: Sys, b: Sys, c: Sys)
    requires Grow(a, b) && Grow(b, c)
    ensures Grow(a, c)
  {
    KeepTrans(a, b, c);
    hide Keep, Knows;
    forall id | LeaderHas(a, id)
      ensures LeaderHas(c, id) && LeadDeps(a, id) <= LeadDeps(c, id) && Lead(a, id).st.seqNum <= Lead(c, id).st.seqNum
    {
      KeepHas(a, b, id);
      KeepHas(b, c, id);
    }
  }

  lemma GrowRefl(s: Sys)
    ensures Grow(s, s)
  {
    KeepRefl(s);
  }

  lemma CSSafe(c: Config, s: Sys, mode: Mode)
    requires CS(c, s, mode)
    ensures Safe(c, s)
  {
    hide Safe, PacketsCS, EntryCS;
  }

  lemma {:induction false} TickAllCS(c: Config, s: Sys, r: ReplicaID, order: seq<InstanceID>, mode: Mode)
    requires CS(c, s, mode) && r in s.reps
    ensures CS(c, TickAll(c, s, r, order), mode) && Grow(s, TickAll(c, s, r, order))
    decreases |order|
  {
    hide CS, Grow;
    GrowRefl(s);
    if order != [] && order[0] in s.reps[r].log {
      var o := TickOne(c, r, s.reps[r], order[0]);
      CSSafe(c, s, mode);
      TickMoveSafe(c, s, r, order[0]);
      var s1 := Put(s, r, o.rep, o.out);
      if s.reps[r].log[order[0]].timer.paused {
        assert s1 == s;
      } else {
        hide TickOne;
        TickCS(c, s, r, order[0], o, s1, mode);
      }
      hide TickOne;
      TickAllCS(c, s1, r, order[1..], mode);
      GrowTrans(s, s1, TickAll(c, s1, r, order[1..]));
    }
  }

  // ----- Requests -----

  /** A request by r for cmd that opens id. */
  ghost predicate RequestDelivery(c: Config, s: Sys, r: ReplicaID, cmd: Command, id: InstanceID, o: Outcome, s': Sys) {
    && r in s.reps && WellFormed(cmd.span) && id == NextId(s, r)
    && o == OnRequest(c, r, s.reps[r], cmd)
    && o.Done? && s' == Put(s, r, o.rep, o.out)
  }

  /** What a request stores and broadcasts. */
  ghost predicate RequestCore(c: Config, log: Log, me: ReplicaID, id: InstanceID, cmd: Command, b: Instance,
                              out: seq<Message>) {
    && ScanAll(log, c.nodes, cmd, InstanceID(0, 0)).Found?
    && b.st.status == PreAccepted && b.st.cmd == Some(cmd)
    && Elems(b.st.deps) == ScanAll(log, c.nodes, cmd, InstanceID(0, 0)).deps && Sorted(b.st.deps)
    && b.preAcceptReplies == 0 && !b.differentReplies && b.acceptReplies == 0 && b.timer.paused
    && out == Broadcast(c.nodes, me, id, PreAccept(b.st.cmd, b.st.seqNum, b.st.deps))
  }

  lemma RequestStepCore(c: Config, me: ReplicaID, rep: Replica, cmd: Command)
    requires OnRequest(c, me, rep, cmd).Done?
    ensures var o := OnRequest(c, me, rep, cmd);
            var id := InstanceID(me, MaxInstanceNum(rep.log, me) + 1);
            id in o.rep.log && RequestCore(c, rep.log, me, id, cmd, o.rep.log[id], o.out)
  {
    hide Broadcast, ScanAll, Slice, Sorted, MaxInstanceNum;
    SliceIds(ScanAll(rep.log, c.nodes, cmd, InstanceID(0, 0)).deps);
  }

  lemma RequestMoves(c: Config, s: Sys, r: ReplicaID, cmd: Command, id: InstanceID, o: Outcome, s': Sys)
    requires Safe(c, s) && RequestDelivery(c, s, r, cmd, id, o, s')
    ensures Safe(c, s') && Keep(s, s') && Moves(s, s', r, o.rep, o.out)
  {
    hide Safe, Keep, OnRequest, MaxInstanceNum, WellFormed;
    assert Moves(s, s', r, o.rep, o.out) by { DeliveredIn(c, s); }
    hide Moves;
    RequestSafe(c, s, r, cmd, s');
  }

  lemma RequestFacts(c: Config, s: Sys, r: ReplicaID, cmd: Command, id: InstanceID, o: Outcome, s': Sys)
    requires Safe(c, s) && RequestDelivery(c, s, r, cmd, id, o, s')
    ensures Safe(c, s') && Keep(s, s') && Moves(s, s', r, o.rep, o.out) && SameElsewhere(s.reps[r], o.rep, id)
    ensures id.replica == r && !LeaderHas(s, id) && LeaderHas(s', id)
    ensures RequestCore(c, s.reps[r].log, r, id, cmd, Lead(s', id), o.out)
  {
    hide Keep, OnRequest, LocalSafe, SameElsewhere, RequestCore, MaxInstanceNum, Moves, Agrees, PacketSafe, WellFormed;
    assert LocalSafe(r, s.reps[r]);
    hide Safe;
    RequestMoves(c, s, r, cmd, id, o, s');
    RequestLocal(c, r, s.reps[r], cmd);
    RequestStepCore(c, r, s.reps[r], cmd);
    FreshId(r, s.reps[r].log);
  }

  lemma RequestGrows(c: Config, s: Sys, r: ReplicaID, cmd: Command, id: InstanceID, o: Outcome, s': Sys)
    requires Safe(c, s) && RequestDelivery(c, s, r, cmd, id, o, s')
    ensures Grow(s, s')
    ensures forall x :: LeaderHas(s', x) && x != id ==> LeaderHas(s, x) && Lead(s', x) == Lead(s, x)
  {
    hide Safe, Keep, OnRequest, RequestCore, Grow, MaxInstanceNum;
    RequestFacts(c, s, r, cmd, id, o, s');
    assert EntryGrows(r, s.reps[r], o.rep, id);
    forall x | LeaderHas(s', x) && x != id ensures LeaderHas(s, x) && Lead(s', x) == Lead(s, x) {
      assert Same(x, s.reps[r].log, o.rep.log);
    }
    hide SameElsewhere, EntryGrows, Moves;
    GrowOne(s, s', r, o.rep, o.out, id);
  }

  lemma NoPackets(c: Config, s: Sys, id: InstanceID)
    requires Safe(c, s) && !LeaderHas(s, id)
    ensures forall k :: 0 <= k < |s.sent| ==> s.sent[k].msg.id != id
    ensures forall kind :: Tallied(s, id, kind) == {}
  {
    hide Safe;
    forall k | 0 <= k < |s.sent| ensures s.sent[k].msg.id != id { PacketHas(c, s, k); }
  }

  /** The leader's own vote covers everything it voted on before. */
  lemma OwnCoverPair(c: Config, s: Sys, s': Sys, r: ReplicaID, cmd: Command, id: InstanceID, b: Instance,
                     out: seq<Message>, q: Packet, m: Message)
    requires Safe(c, s) && r in s.reps && Keep(s, s') && LeaderHas(s', id) && Lead(s', id) == b && WellFormed(cmd.span)
    requires RequestCore(c, s.reps[r].log, r, id, cmd, b, out) && m in out
    requires q.from == r && Knows(s, r, q.msg.id)
    ensures CoverPair(s', q, Packet(r, m))
  {
    hide Safe, Keep, Interferes, WellFormed, ScanAll, CoveredIn, Sorted, Broadcast;
    BroadcastIn(c.nodes, r, id, PreAccept(b.st.cmd, b.st.seqNum, b.st.deps), m);
    RepLogAgrees(c, s, r);
    var log, a := s.reps[r].log, q.msg.id;
    if a != id && MeetAt(s', a, id) {
      CmdGrows(s, s', a);
      assert LeadCmd(s, a) == log[a].st.cmd;
      assert a != InstanceID(0, 0);
      ScanCoversIn(c, s, log, cmd, InstanceID(0, 0), a);
      CoveredGrows(s, s', ScanAll(log, c.nodes, cmd, InstanceID(0, 0)).deps, LeadDeps(s', id), a);
    }
  }

  lemma RequestPacketCS(c: Config, s': Sys, r: ReplicaID, id: InstanceID, cmd: Command, log: Log, out: seq<Message>,
                        m: Message)
    requires LeaderHas(s', id) && id.replica == r && RequestCore(c, log, r, id, cmd, Lead(s', id), out) && m in out
    ensures PacketCS(s', Packet(r, m))
  {
    hide ScanAll, Sorted, Broadcast;
    var b := Lead(s', id);
    BroadcastIn(c.nodes, r, id, PreAccept(b.st.cmd, b.st.seqNum, b.st.deps), m);
  }

  lemma RequestOut(c: Config, log: Log, me: ReplicaID, id: InstanceID, cmd: Command, b: Instance, out: seq<Message>)
    requires RequestCore(c, log, me, id, cmd, b, out)
    ensures out == Broadcast(c.nodes, me, id, PreAccept(b.st.cmd, b.st.seqNum, b.st.deps))
    ensures b.st.cmd == Some(cmd) && b.st.status == PreAccepted && Sorted(b.st.deps)
    ensures b.preAcceptReplies == 0 && !b.differentReplies && b.acceptReplies == 0 && b.timer.paused
  {
  }

  lemma RequestPackets(c: Config, s: Sys, r: ReplicaID, cmd: Command, id: InstanceID, o: Outcome, s': Sys, mode: Mode)
    requires CS(c, s, mode) && RequestDelivery(c, s, r, cmd, id, o, s')
    ensures NewPackets(s, s', r, o.out, mode)
  {
    hide Safe, Keep, OnRequest, PacketsCS, EntryCS, Moves, SameElsewhere, NewPackets, CoverPair, PacketCS,
         RequestCore, MaxInstanceNum;
    RequestFacts(c, s, r, cmd, id, o, s');
    NoPackets(c, s, id);
    var b := Lead(s', id);
    var body := PreAccept(b.st.cmd, b.st.seqNum, b.st.deps);
    assert o.out == Broadcast(c.nodes, r, id, body) by { RequestOut(c, s.reps[r].log, r, id, cmd, b, o.out); }
    forall m | m in o.out ensures PacketCS(s', Packet(r, m)) {
      RequestPacketCS(c, s', r, id, cmd, s.reps[r].log, o.out, m);
    }
    forall k, m | 0 <= k < |s.sent| && m in o.out ensures CoverPair(s', s.sent[k], Packet(r, m)) {
      if IsVote(s.sent[k].msg.body) && s.sent[k].from == r {
        VoterKnows(s, k, mode);
        OwnCoverPair(c, s, s', r, cmd, id, b, o.out, s.sent[k], m);
      } else {
        OtherVoter(s', s.sent[k], Packet(r, m));
      }
    }
    AnnouncePackets(c, s, s', r, id, body, mode);
  }

  lemma RequestTally(c: Config, s: Sys, r: ReplicaID, cmd: Command, id: InstanceID, o: Outcome, s': Sys, mode: Mode)
    requires Safe(c, s) && RequestDelivery(c, s, r, cmd, id, o, s')
    ensures LeaderHas(s', id) && Sorted(Lead(s', id).st.deps) && TallyOK(c, s', id, mode)
  {
    hide Safe, Keep, OnRequest, SameElsewhere, RequestCore, Sorted, MaxInstanceNum, Broadcast;
    RequestFacts(c, s, r, cmd, id, o, s');
    var b := Lead(s', id);
    RequestOut(c, s.reps[r].log, r, id, cmd, b, o.out);
    NoPackets(c, s, id);
    DeliveredIn(c, s);
    assert Tallied(s', id, 1) == {} by { TalliedSame(s, s', id, 1); }
    assert forall k :: 0 <= k < |s.sent| ==> s'.sent[k].msg.id != id;
    forall k | |s.sent| <= k < |s'.sent| && s'.sent[k].msg.id == id
      ensures s'.sent[k].msg.body == PreAccept(b.st.cmd, b.st.seqNum, b.st.deps)
    {
      assert s'.sent[k] == Packet(r, o.out[k - |s.sent|]) && o.out[k - |s.sent|] in o.out;
      BroadcastIn(c.nodes, r, id, PreAccept(b.st.cmd, b.st.seqNum, b.st.deps), o.out[k - |s.sent|]);
    }
    assert forall d :: d in b.st.deps ==> InitDep(s', id, d);
    assert InitSeq(s', id, b.st.seqNum);
    assert Tally(s', id, {});
  }

  lemma RequestUntouched(c: Config, s: Sys, r: ReplicaID, cmd: Command, id: InstanceID, o: Outcome, s': Sys,
                         x: InstanceID)
    requires Safe(c, s) && RequestDelivery(c, s, r, cmd, id, o, s') && LeaderHas(s', x) && x != id
    ensures Untouched(s, s', x)
  {
    hide Safe, Keep, OnRequest, SameElsewhere, RequestCore, Sorted, MaxInstanceNum, Broadcast, Tallied, Grow;
    RequestFacts(c, s, r, cmd, id, o, s');
    RequestGrows(c, s, r, cmd, id, o, s');
    DeliveredIn(c, s);
    TalliedSame(s, s', x, 1);
    TalliedSame(s, s', x, 3);
    CoreSameRefl(Lead(s, x));
    var b := Lead(s', id);
    RequestOut(c, s.reps[r].log, r, id, cmd, b, o.out);
    forall k | |s.sent| <= k < |s'.sent| ensures s'.sent[k].msg.id != x {
      assert s'.sent[k] == Packet(r, o.out[k - |s.sent|]) && o.out[k - |s.sent|] in o.out;
      BroadcastIn(c.nodes, r, id, PreAccept(b.st.cmd, b.st.seqNum, b.st.deps), o.out[k - |s.sent|]);
    }
  }

  lemma RequestCS(c: Config, s: Sys, r: ReplicaID, cmd: Command, id: InstanceID, o: Outcome, s': Sys, mode: Mode)
    requires CS(c, s, mode) && RequestDelivery(c, s, r, cmd, id, o, s')
    ensures CS(c, s', mode) && Grow(s, s')
  {
    hide Safe, Keep, OnRequest, SameElsewhere, RequestCore, Sorted, MaxInstanceNum, Grow, PacketsCS, NewPackets,
         TallyOK, Untouched, Moves;
    RequestFacts(c, s, r, cmd, id, o, s');
    RequestGrows(c, s, r, cmd, id, o, s');
    RequestPackets(c, s, r, cmd, id, o, s', mode);
    assert s'.sent == s.sent + Packets(r, o.out);
    PacketsGrow(c, s, s', r, o.out, mode);
    RequestTally(c, s, r, cmd, id, o, s', mode);
    forall x | LeaderHas(s', x) && x != id ensures Untouched(s, s', x) { RequestUntouched(c, s, r, cmd, id, o, s', x); }
    EntriesStay(c, s, s', id, mode);
  }

  // ----- Crashes -----

  /** Replies never make a handler panic. */
  lemma ReplyNeverPanics(c: Config, me: ReplicaID, rep: Replica, m: Message)
    requires IsReply(m.body)
    ensures Replicas.Step(c, me, rep, m).Done?
  {
  }

  /** The process dies; if it was handling a packet then that was not a reply. */
  ghost predicate Dies(s: Sys, s': Sys) {
    && s'.reps == s.reps && s'.sent == s.sent
    && (s'.delivered == s.delivered
        || exists i: nat :: i < |s.sent| && !IsReply(s.sent[i].msg.body) && s'.delivered == s.delivered + {i})
  }

  lemma DiesTallied(c: Config, s: Sys, s': Sys, id: InstanceID)
    requires Safe(c, s) && Dies(s, s')
    ensures Tallied(s', id, 1) == Tallied(s, id, 1) && Tallied(s', id, 3) == Tallied(s, id, 3)
  {
    hide Safe, Tallied;
    DeliveredIn(c, s);
    if s'.delivered == s.delivered {
      TalliedSame(s, s', id, 1);
      TalliedSame(s, s', id, 3);
    } else {
      var i: nat :| i < |s.sent| && !IsReply(s.sent[i].msg.body) && s'.delivered == s.delivered + {i};
      TalliedDeliver(s, s', i, id, 1);
      TalliedDeliver(s, s', i, id, 3);
    }
  }

  lemma SameRepsGrow(s: Sys, s': Sys)
    requires Dies(s, s') && Keep(s, s')
    ensures Grow(s, s')
  {
    hide Keep;
  }

  lemma DiesCS(c: Config, s: Sys, s': Sys, mode: Mode)
    requires CS(c, s, mode) && Dies(s, s')
    ensures CS(c, s', mode) && Grow(s, s')
  {
    hide Keep, EntryCS, PacketsCS, Knows, Tallied, CoreSame, Safe;
    DeliveredIn(c, s);
    CrashSafe(c, s, s');
    assert s'.sent == s.sent + Packets(0, []);
    SameRepsGrow(s, s');
    hide Grow;
    EmptyOut(s, s', 0, mode);
    PacketsGrow(c, s, s', 0, [], mode);
    forall x | LeaderHas(s', x) ensures Untouched(s, s', x) {
      DiesTallied(c, s, s', x);
      CoreSameRefl(Lead(s, x));
    }
    hide Untouched, Dies;
    forall x | LeaderHas(s', x) ensures EntryCS(c, s', x, mode) { UntouchedEntry(c, s, s', x, mode); }
  }

  // ----- Every step keeps CS -----

  lemma RunAfterCS(c: Config, s: Sys, s1: Sys, r: ReplicaID, ex: seq<InstanceID>, mode: Mode)
    requires CS(c, s1, mode) && Grow(s, s1) && r in s1.reps && MayRun(s1.reps[r], ex)
    ensures ExecuteAll(s1.reps[r], ex).Done?
    ensures CS(c, AfterRun(s1, r, ex), mode) && Grow(s, AfterRun(s1, r, ex))
  {
    hide CS, Grow, MayRun, AfterRun, ExecuteAll;
    CSSafe(c, s1, mode);
    ExecuteSafe(c, s1, r, ex);
    CrashStopSteps.RunCS(c, s1, r, ex, mode);
    GrowTrans(s, s1, AfterRun(s1, r, ex));
  }

  lemma DeliverCS(c: Config, s: Sys, i: nat, ex: seq<InstanceID>, s': Sys, mode: Mode)
    requires CS(c, s, mode) && MayDeliver(s, i, mode) && Delivers(c, s, i, ex, s')
    ensures CS(c, s', mode) && Grow(s, s')
  {
    hide CS, Grow, MayRun, AfterRun, Replicas.Step, ExecuteAll;
    var m := s.sent[i].msg;
    var r := m.to;
    var o := Replicas.Step(c, r, s.reps[r], m);
    var s0 := s.(delivered := s.delivered + {i});
    if o.Panicked? {
      assert !IsReply(m.body) by { if IsReply(m.body) { ReplyNeverPanics(c, r, s.reps[r], m); } }
      assert Dies(s, s');
      DiesCS(c, s, s', mode);
    } else {
      var s1 := Put(s0, r, o.rep, o.out);
      if IsReply(m.body) { LeaderCS(c, s, i, o, s1, mode); } else { FollowerCS(c, s, i, o, s1, mode); }
      if o.run { RunAfterCS(c, s, s1, r, ex, mode); }
    }
  }

  // ----- Restarts that lose no vote -----

  /** What r has after a restart, by what it had before. */
  ghost predicate Reloads(s: Sys, s': Sys, r: ReplicaID, rep: Replica, out: seq<Message>) {
    && r in s.reps && Moves(s, s', r, rep, out) && s'.delivered == s.delivered
    && (forall id :: id in rep.log ==> id in s.reps[r].log)
    && (forall id :: id in s.reps[r].log && s.reps[r].log[id].st.cmd.Some? ==>
          id in rep.log && Advances(s.reps[r].log[id].st, rep.log[id].st))
    && (forall m :: m in out ==> m.body.Accept? || m.body.Commit?)
  }

  lemma ReloadedEntry(r: ReplicaID, was: Replica, rep: Replica, id: InstanceID)
    requires LocalSafe(r, was) && Loading(r, rep, was.storage, [])
    requires forall x, loss :: !Held(was, r, x, loss)
    ensures id in rep.log ==> id in was.log
    ensures id in was.log && was.log[id].st.cmd.Some? ==> id in rep.log && Advances(was.log[id].st, rep.log[id].st)
  {
    LoadedLocal(r, rep, was.storage);
    assert LocalEntry(r, was, id);
    hide Loading, LocalSafe;
    if id in was.log && was.log[id].st.cmd.Some? {
      assert !Held(was, r, id, PreAcceptedVote) && !Held(was, r, id, AcceptedVote);
      assert !Held(was, r, id, CommittedVote) && !Held(was, r, id, OwnTally);
    }
  }

  lemma ReloadedOut(c: Config, r: ReplicaID, was: Replica, m: Message)
    requires LocalSafe(r, was) && Repeats(c, r, was.storage, m) && forall x, loss :: !Held(was, r, x, loss)
    ensures m.body.Accept? || m.body.Commit?
  {
    assert LocalEntry(r, was, m.id);
    hide LocalSafe;
    BroadcastIn(c.nodes, r, m.id, Announcement(was.storage[m.id]), m);
    assert !Held(was, r, m.id, OwnTally);
  }

  lemma RestartReloads(c: Config, s: Sys, s': Sys, r: ReplicaID, order: seq<InstanceID>, runs: seq<seq<InstanceID>>)
    returns (rep: Replica, out: seq<Message>)
    requires Safe(c, s) && LosesOnly(s, r, {}) && Restarts(c, s, r, order, runs, s')
    ensures Safe(c, s') && Keep(s, s') && Reloads(s, s', r, rep, out)
  {
    hide Safe, LocalSafe, Loads, Loading, Keep, Repeats, Held;
    RestartSafe(c, s, s', r, order, runs);
    LocalAt(c, s, r);
    var stored := s.reps[r].storage;
    rep, out :| Loads(c, r, Rebooted(stored), stored, order, runs, rep, out)
                && s' == Put(s, r, rep, out).(crashed := s.crashed - {r});
    StartLoading(r, s.reps[r], order);
    LoadsSafe(c, r, Rebooted(stored), stored, order, runs, rep, out);
    forall id
      ensures id in rep.log ==> id in s.reps[r].log
      ensures id in s.reps[r].log && s.reps[r].log[id].st.cmd.Some? ==>
                id in rep.log && Advances(s.reps[r].log[id].st, rep.log[id].st)
    {
      ReloadedEntry(r, s.reps[r], rep, id);
    }
    forall m | m in out ensures m.body.Accept? || m.body.Commit? { ReloadedOut(c, r, s.reps[r], m); }
    assert Moves(s, s', r, rep, out) by { DeliveredIn(c, s); }
  }

  lemma ReloadGrows(c: Config, s: Sys, s': Sys, r: ReplicaID, rep: Replica, out: seq<Message>)
    requires Safe(c, s) && Reloads(s, s', r, rep, out) && Keep(s, s')
    ensures Grow(s, s') && forall x :: NoNewPre(s, s', x)
  {
    hide Safe, Keep;
    forall id | Knows(s, r, id) ensures EntryGrows(r, s.reps[r], rep, id) {
    }
    forall q, id | Knows(s, q, id) ensures Knows(s', q, id) {
      if q == r { assert id in rep.log; }
    }
    forall id | LeaderHas(s, id)
      ensures LeadDeps(s, id) <= LeadDeps(s', id)
      ensures LeaderHas(s', id) && Lead(s, id).st.seqNum <= Lead(s', id).st.seqNum
    {
      if id.replica == r { LeaderOwn(c, s, id); }
    }
    forall x ensures NoNewPre(s, s', x) {
      forall k | |s.sent| <= k < |s'.sent| ensures !s'.sent[k].msg.body.PreAccept? {
        assert s'.sent[k] == Packet(r, out[k - |s.sent|]) && out[k - |s.sent|] in out;
      }
    }
  }

  lemma ReloadPackets(s: Sys, s': Sys, r: ReplicaID, rep: Replica, out: seq<Message>)
    requires Reloads(s, s', r, rep, out)
    ensures NewPackets(s, s', r, out, WithRestarts)
  {
    hide Moves;
    forall a, b | 0 <= a < b < |out| ensures CoverPair(s', Packet(r, out[a]), Packet(r, out[b])) {
      assert out[b] in out;
      NotAVote(s', Packet(r, out[a]), Packet(r, out[b]));
    }
    forall i, m | 0 <= i < |s.sent| && m in out ensures CoverPair(s', s.sent[i], Packet(r, m)) {
      NotAVote(s', s.sent[i], Packet(r, m));
    }
    forall m | m in out ensures PacketCS(s', Packet(r, m)) {
    }
    hide PacketCS, CoverPair;
    forall a, b | 0 <= a < b < |out| ensures !Clash(Packet(r, out[a]), Packet(r, out[b]), WithRestarts) {
      assert out[a] in out;
    }
  }

  lemma ReloadEntry(c: Config, s: Sys, s': Sys, r: ReplicaID, rep: Replica, out: seq<Message>, x: InstanceID)
    requires CS(c, s, WithRestarts) && LosesOnly(s, r, {}) && Reloads(s, s', r, rep, out) && Grow(s, s')
    requires LeaderHas(s', x) && NoNewPre(s, s', x)
    ensures EntryCS(c, s', x, WithRestarts)
  {
    hide Safe, PacketsCS, Sorted, NoNewPre, Tallied, Tally, Majority, AcceptSent, AnyReply, Keep, Knows;
    CSSafe(c, s, WithRestarts);
    assert LeaderHas(s, x);
    LeaderOwn(c, s, x);
    assert EntryCS(c, s, x, WithRestarts);
    if x.replica == r {
      assert !Held(s.reps[r], r, x, OwnTally);
      var counted :| Majority(c, s, x, counted, WithRestarts);
      MajorityStays(c, s, s', x, counted, WithRestarts);
      if Lead(s', x).st.status == Accepted { AcceptSentStays(s, s', x); }
    } else {
      DeliveredIn(c, s);
      TalliedSame(s, s', x, 1);
      TalliedSame(s, s', x, 3);
      CoreSameRefl(Lead(s, x));
      EntryStays(c, s, s', x, WithRestarts);
    }
  }

  /** A restart that loses no vote keeps the invariants. */
  lemma RestartCS(c: Config, s: Sys, s': Sys, r: ReplicaID, order: seq<InstanceID>, runs: seq<seq<InstanceID>>)
    requires CS(c, s, WithRestarts) && LosesOnly(s, r, {}) && Restarts(c, s, r, order, runs, s')
    ensures CS(c, s', WithRestarts) && Grow(s, s')
  {
    hide Safe, PacketsCS, EntryCS, Restarts, LosesOnly, Keep, Grow, NewPackets;
    var rep, out := RestartReloads(c, s, s', r, order, runs);
    ReloadGrows(c, s, s', r, rep, out);
    ReloadPackets(s, s', r, rep, out);
    PacketsGrow(c, s, s', r, out, WithRestarts);
    forall x | LeaderHas(s', x) ensures EntryCS(c, s', x, WithRestarts) { ReloadEntry(c, s, s', r, rep, out, x); }
  }

  /** What the mode allows. */
  ghost predicate Suits(s: Sys, step: System.Step, mode: Mode) {
    && (step.RedeliverStep? ==> !mode.AtMostOnce? && HasForm(s, step.i, LATE))
    && (step.RestartStep? ==> mode.WithRestarts? && LosesOnly(s, step.r, {}))
  }

  lemma NextCS(c: Config, s: Sys, step: System.Step, s': Sys, mode: Mode)
    requires CS(c, s, mode) && Next(c, s, step, s') && Suits(s, step, mode)
    ensures CS(c, s', mode) && Grow(s, s')
  {
    hide CS, Grow, Delivers, TickAll, Restarts, OnRequest, MayRun, MaxInstanceNum, WellFormed;
    match step
    case RequestStep(r, cmd) =>
      RequestRun(c, r, s.reps[r], cmd);
      var o := OnRequest(c, r, s.reps[r], cmd);
      if o.Panicked? {
        DiesCS(c, s, s', mode);
      } else {
        RequestCS(c, s, r, cmd, NextId(s, r), o, s', mode);
      }
    case DeliverStep(i, ex) => DeliverCS(c, s, i, ex, s', mode);
    case TickStep(r, order) => TickAllCS(c, s, r, order, mode);
    case RedeliverStep(i, ex) => DeliverCS(c, s, i, ex, s', mode);
    case RestartStep(r, order, runs) => RestartCS(c, s, s', r, order, runs);
  }

  lemma InitialCS(c: Config, mode: Mode)
    requires ConfigOK(c)
    ensures CS(c, Initial(c), mode)
  {
    hide Safe, EntryCS;
    InitialSafe(c);
  }

  ghost predicate IsModeRun(c: Config, states: seq<Sys>, steps: seq<System.Step>, mode: Mode) {
    IsRun(c, states, steps) && forall k :: 0 <= k < |steps| ==> Suits(states[k], steps[k], mode)
  }

  ghost predicate NoRestarts(steps: seq<System.Step>) {
    forall k :: 0 <= k < |steps| ==> !steps[k].RestartStep?
  }

  lemma CrashStopMode(c: Config, states: seq<Sys>, steps: seq<System.Step>)
    ensures IsModeRun(c, states, steps, AtMostOnce) <==> IsCrashStopRun(c, states, steps)
  {
    hide Next;
  }

  lemma VoteOnceMode(c: Config, states: seq<Sys>, steps: seq<System.Step>)
    ensures IsModeRun(c, states, steps, VotesOnce) <==> IsVoteOnceRun(c, states, steps) && NoRestarts(steps)
    ensures IsModeRun(c, states, steps, WithRestarts) <==> IsVoteOnceRun(c, states, steps)
  {
    hide Next, LosesOnly, HasForm;
  }

  lemma {:induction false} ModeRunCS(c: Config, states: seq<Sys>, steps: seq<System.Step>, k: nat, mode: Mode)
    requires IsModeRun(c, states, steps, mode) && k < |states|
    ensures CS(c, states[k], mode)
  {
    hide CS, Next, Grow, Suits;
    if k == 0 {
      InitialCS(c, mode);
    } else {
      ModeRunCS(c, states, steps, k - 1, mode);
      assert Next(c, states[k - 1], steps[k - 1], states[k]);
      NextCS(c, states[k - 1], steps[k - 1], states[k], mode);
    }
  }
}
