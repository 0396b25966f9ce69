/** Exactly which packets each step of a run sends, and what a follower holds after a delivery
    (epaxos/instance.go, epaxos/messaging.go, epaxos/epaxos.go). */
module Traffic {
  import opened Keys
  import opened Types
  import opened Scan
  import opened DepSlices
  import opened Graphs
  import opened Replicas
  import opened Local
  import opened System
  import opened Safety
  import opened Runs
  import opened CrashStopSteps
  import opened Timers

  /** What the leader of an instance says of it. */
  predicate Says(st: InstanceState, body: Body) {
    match st.status
    case NoStatus => false
    case PreAccepted => body == PreAccept(st.cmd, st.seqNum, st.deps)
    case Accepted => body == Accept(st.seqNum, st.deps)
    case Committed => body == Commit(st.cmd, st.seqNum, st.deps)
    case Executed => body == Commit(st.cmd, st.seqNum, st.deps)
  }

  lemma PutSends(s: Sys, r: ReplicaID, rep: Replica, out: seq<Message>, p: Packet)
    ensures SentNow(s, Put(s, r, rep, out), p) <==> p.from == r && p.msg in out
  {
    var s' := Put(s, r, rep, out);
    hide Packets;
    if SentNow(s, s', p) {
      var i :| |s.sent| <= i < |s'.sent| && s'.sent[i] == p;
      assert out[i - |s.sent|] == p.msg;
    }
    if p.from == r && p.msg in out {
      var k :| 0 <= k < |out| && out[k] == p.msg;
      assert s'.sent[|s.sent| + k] == p;
    }
  }

  // ----- Restarts -----

  /** p repeats to another node the last transition that its sender r has persisted of an own instance. */
  predicate IsRepeated(c: Config, stored: map<InstanceID, InstanceState>, r: ReplicaID, p: Packet) {
    && p.from == r && p.msg.to in c.nodes && p.msg.to != r
    && p.msg.id in stored && p.msg.id.replica == r && stored[p.msg.id].status != Executed
    && Says(stored[p.msg.id], p.msg.body)
  }

  lemma LoadSends(c: Config, me: ReplicaID, rep: Replica, id: InstanceID, st: InstanceState, m: Message)
    requires LoadOne(c, me, rep, id, st).Done?
    ensures m in LoadOne(c, me, rep, id, st).out <==>
            m.id == id && id.replica == me && m.to in c.nodes && m.to != me && st.status != Executed && Says(st, m.body)
  {
    BroadcastIn(c.nodes, me, id, Announcement(st), m);
    hide Broadcast;
  }

  lemma {:induction false} LoadsSend(c: Config, me: ReplicaID, rep: Replica, stored: map<InstanceID, InstanceState>,
                                     order: seq<InstanceID>, runs: seq<seq<InstanceID>>, rep': Replica,
                                     out: seq<Message>, m: Message)
    requires |runs| == |order| && (forall id :: id in order ==> id in stored) && NoDup(order)
    requires Loads(c, me, rep, stored, order, runs, rep', out)
    ensures m in out <==> m.id in order && IsRepeated(c, stored, me, Packet(me, m))
    decreases |order|
  {
    hide MayRun, ExecuteAll, LoadOne, Says;
    if order != [] {
      var id := order[0];
      var o := LoadOne(c, me, rep, id, stored[id]);
      LoadSends(c, me, rep, id, stored[id], m);
      assert forall x :: x in order <==> x == id || x in order[1..];
      LoadsSend(c, me, ExecuteAll(o.rep, runs[0]).rep, stored, order[1..], runs[1..], rep', out[|o.out|..], m);
      assert out == o.out + out[|o.out|..];
    }
  }

  lemma SameSent(s: Sys, a: Sys, b: Sys, p: Packet)
    requires a.sent == b.sent
    ensures SentNow(s, a, p) <==> SentNow(s, b, p)
  {
  }

  lemma RepeatedIn(c: Config, stored: map<InstanceID, InstanceState>, r: ReplicaID, p: Packet)
    ensures IsRepeated(c, stored, r, p) <==>
            p.from == r && p.msg.id in stored && IsRepeated(c, stored, r, Packet(r, p.msg))
  {
  }

  /** A restart sends to every other node exactly the repetition of the last transition of each own instance that has
      not executed, with the persisted attributes. */
  lemma RestartRepeats(c: Config, states: seq<Sys>, steps: seq<System.Step>, k: nat, p: Packet)
    requires IsRun(c, states, steps) && k < |steps| && steps[k].RestartStep?
    ensures steps[k].r in states[k].reps
    ensures SentNow(states[k], states[k + 1], p) <==>
            IsRepeated(c, states[k].reps[steps[k].r].storage, steps[k].r, p)
  {
    hide Loads, SentNow, IsRepeated;
    var s, s', r, order, runs := states[k], states[k + 1], steps[k].r, steps[k].order, steps[k].runs;
    assert Next(c, s, steps[k], s');
    hide IsRun;
    var stored := s.reps[r].storage;
    var rep, out :| Loads(c, r, Rebooted(stored), stored, order, runs, rep, out)
                    && s' == Put(s, r, rep, out).(crashed := s.crashed - {r});
    LoadsSend(c, r, Rebooted(stored), stored, order, runs, rep, out, p.msg);
    PutSends(s, r, rep, out, p);
    SameSent(s, Put(s, r, rep, out), s', p);
    RepeatedIn(c, stored, r, p);
  }

  // ----- Transitions of leaders -----

  function StatusAt(log: Log, id: InstanceID): Status {
    if id in log then log[id].st.status else NoStatus
  }

  /** An own instance moved on, and m tells another node. Executing says nothing more than committing. */
  predicate Tells(c: Config, me: ReplicaID, rep: Replica, rep': Replica, m: Message) {
    && m.id.replica == me && m.to in c.nodes && m.to != me && m.id in rep'.log
    && Rank(StatusAt(rep.log, m.id)) < 3 && Rank(StatusAt(rep.log, m.id)) < Rank(rep'.log[m.id].st.status)
    && Says(rep'.log[m.id].st, m.body)
  }

  /** The answer that m gets from a follower that held its instance as in rep and holds it as in rep' now. */
  predicate Answers(rep: Replica, rep': Replica, m: Message, answer: Message) {
    && answer.to == m.id.replica && answer.id == m.id && m.id in rep'.log
    && match m.body
       case PreAccept(_, seqNum, deps) =>
         && StatusAt(rep.log, m.id) in {NoStatus, PreAccepted}
         && var st := rep'.log[m.id].st;
            if st.seqNum == seqNum && |st.deps| == |deps| then answer.body == PreAcceptOK
            else answer.body == PreAcceptReply(st.seqNum, st.deps)
       case Accept(_, _) =>
         StatusAt(rep.log, m.id) in {NoStatus, PreAccepted, Accepted} && answer.body == AcceptOK
       case _ => false
  }

  lemma TransitionOut(c: Config, me: ReplicaID, rep: Replica, rep1: Replica, id: InstanceID, to: Status, a: Message)
    requires id in rep.log && id in rep1.log && id.replica == me && rep1.log[id].st.status == rep.log[id].st.status
    requires to in {PreAccepted, Accepted, Committed} && TransitionTo(c, me, rep1, id, to).Done? && a.id == id
    ensures var o := TransitionTo(c, me, rep1, id, to); a in o.out <==> Tells(c, me, rep, o.rep, a)
  {
    var o := TransitionTo(c, me, rep1, id, to);
    BroadcastIn(c.nodes, me, id, Announcement(o.rep.log[id].st), a);
    hide Broadcast;
  }

  lemma TransitionDone(c: Config, me: ReplicaID, rep: Replica, id: InstanceID)
    requires id in rep.log && rep.log[id].st.status == PreAccepted
    ensures TransitionTo(c, me, rep, id, Accepted).Done? && TransitionTo(c, me, rep, id, Committed).Done?
  {
  }

  lemma EitherOut(c: Config, me: ReplicaID, rep: Replica, rep1: Replica, id: InstanceID, a: Message)
    requires id in rep.log && id in rep1.log && id.replica == me && a.id == id
    requires rep.log[id].st.status == PreAccepted == rep1.log[id].st.status
    ensures var o := OnEitherPreAcceptReply(c, me, rep1, id); o.Done? && (a in o.out <==> Tells(c, me, rep, o.rep, a))
  {
    hide TransitionTo;
    TransitionDone(c, me, Unregister(rep1, id), id);
    TransitionOut(c, me, rep, Unregister(rep1, id), id, Committed, a);
    TransitionOut(c, me, rep, Unregister(rep1, id), id, Accepted, a);
  }

  lemma CommitDone(c: Config, me: ReplicaID, rep: Replica, id: InstanceID)
    requires id in rep.log && rep.log[id].st.status == Accepted
    ensures TransitionTo(c, me, rep, id, Committed).Done?
  {
  }

  lemma ReplyOut(c: Config, me: ReplicaID, rep: Replica, m: Message, a: Message)
    requires m.id in rep.log && m.id.replica == me && IsReply(m.body) && a.id == m.id
    ensures var o := Dispatch(c, me, rep, m); o.Done? && (a in o.out <==> Tells(c, me, rep, o.rep, a))
  {
    hide OnEitherPreAcceptReply, TransitionTo, Slice;
    var inst := rep.log[m.id];
    match m.body
    case PreAcceptOK =>
      if inst.st.status == PreAccepted {
        var rep1 := rep.(log := rep.log[m.id := inst.(preAcceptReplies := inst.preAcceptReplies + 1)]);
        EitherOut(c, me, rep, rep1, m.id, a);
      }
    case PreAcceptReply(seqNum, deps) =>
      if inst.st.status == PreAccepted {
        EitherOut(c, me, rep, rep.(log := rep.log[m.id := Merged(inst, seqNum, deps)]), m.id, a);
      }
    case AcceptOK =>
      if inst.st.status == Accepted {
        var rep1 := rep.(log := rep.log[m.id := inst.(acceptReplies := inst.acceptReplies + 1)]);
        CommitDone(c, me, rep1, m.id);
        TransitionOut(c, me, rep, rep1, m.id, Committed, a);
      }
  }

  lemma FollowerOut(c: Config, me: ReplicaID, rep: Replica, m: Message, a: Message)
    requires m.id in rep.log && m.id.replica != me && !IsReply(m.body) && Dispatch(c, me, rep, m).Done?
    ensures var o := Dispatch(c, me, rep, m); a in o.out <==> Answers(rep, o.rep, m, a)
  {
    hide ScanAll, Slice;
  }

  lemma {:induction false} BroadcastAbout(nodes: seq<ReplicaID>, me: ReplicaID, id: InstanceID)
    ensures forall body, a :: a in Broadcast(nodes, me, id, body) ==> a.id == id
  {
    if nodes != [] { BroadcastAbout(nodes[1..], me, id); }
  }

  lemma DispatchId(c: Config, me: ReplicaID, rep: Replica, m: Message, a: Message)
    requires m.id in rep.log && Dispatch(c, me, rep, m).Done? && a in Dispatch(c, me, rep, m).out
    ensures a.id == m.id
  {
    hide ScanAll, Slice;
    BroadcastAbout(c.nodes, me, m.id);
  }

  /** Elsewhere nothing moves. */
  lemma SameSilent(c: Config, me: ReplicaID, rep: Replica, rep': Replica, id: InstanceID, a: Message)
    requires SameElsewhere(rep, rep', id) && a.id != id
    ensures !Tells(c, me, rep, rep', a)
  {
    assert Same(a.id, rep.log, rep'.log);
  }

  lemma Unmoved(c: Config, me: ReplicaID, rep: Replica, a: Message)
    ensures !Tells(c, me, rep, rep, a)
  {
  }

  lemma NoAnswer(rep: Replica, rep': Replica, m: Message, a: Message)
    requires IsReply(m.body)
    ensures !Answers(rep, rep', m, a)
  {
  }

  lemma AnswerId(rep: Replica, rep': Replica, m: Message, a: Message)
    requires a.id != m.id
    ensures !Answers(rep, rep', m, a)
  {
  }

  lemma NotOwn(c: Config, me: ReplicaID, rep: Replica, rep': Replica, a: Message)
    requires a.id.replica != me
    ensures !Tells(c, me, rep, rep', a)
  {
  }

  lemma AnswersSame(rep: Replica, rep1: Replica, rep': Replica, m: Message, a: Message)
    requires rep1 == WithInstance(rep, m.id)
    ensures Answers(rep, rep', m, a) <==> Answers(rep1, rep', m, a)
  {
  }

  /** Every message gets exactly the announcement of a transition, or an answer, or nothing. */
  lemma StepOut(c: Config, me: ReplicaID, rep: Replica, m: Message, a: Message)
    requires LocalSafe(me, rep) && Replicas.Step(c, me, rep, m).Done? && ValidMessage(c, me, m)
    ensures var o := Replicas.Step(c, me, rep, m);
            a in o.out <==> Tells(c, me, rep, o.rep, a) || Answers(rep, o.rep, m, a)
  {
    StepLocal(c, me, rep, m);
    hide LocalSafe, SameElsewhere, Dispatch, Tells, Answers;
    var o := Replicas.Step(c, me, rep, m);
    SameRefl(rep, m.id);
    if m.id !in rep.log && m.id.replica == me {
      Unmoved(c, me, rep, a);
      NoAnswer(rep, rep, m, a);
    } else {
      var rep1 := WithInstance(rep, m.id);
      if a in o.out { DispatchId(c, me, rep1, m, a); }
      if a.id != m.id {
        SameSilent(c, me, rep, o.rep, m.id, a);
        AnswerId(rep, o.rep, m, a);
      } else if IsReply(m.body) {
        ReplyOut(c, me, rep1, m, a);
        NoAnswer(rep, o.rep, m, a);
      } else {
        FollowerOut(c, me, rep1, m, a);
        AnswersSame(rep, rep1, o.rep, m, a);
        NotOwn(c, me, rep, o.rep, a);
      }
    }
  }

  lemma RequestOut(c: Config, me: ReplicaID, rep: Replica, cmd: Command, a: Message)
    requires OnRequest(c, me, rep, cmd).Done?
    ensures var o := OnRequest(c, me, rep, cmd); a in o.out <==> Tells(c, me, rep, o.rep, a)
  {
    var id := InstanceID(me, MaxInstanceNum(rep.log, me) + 1);
    FreshId(me, rep.log);
    var o := OnRequest(c, me, rep, cmd);
    BroadcastIn(c.nodes, me, id, Announcement(o.rep.log[id].st), a);
    hide Broadcast, ScanAll, Slice, MaxInstanceNum;
    assert a.id != id ==> Same(a.id, rep.log, o.rep.log);
  }

  /** The run of the executor says nothing. */
  lemma ExecuteTells(c: Config, me: ReplicaID, rep: Replica, rep1: Replica, ex: seq<InstanceID>, a: Message)
    requires ExecuteAll(rep1, ex).Done?
    ensures Tells(c, me, rep, rep1, a) <==> Tells(c, me, rep, ExecuteAll(rep1, ex).rep, a)
  {
  }

  // ----- Ticks -----

  lemma TickAbout(c: Config, me: ReplicaID, rep: Replica, id: InstanceID, a: Message)
    requires id in rep.log && TickOne(c, me, rep, id).Done? && a in TickOne(c, me, rep, id).out
    ensures a.id == id
  {
    BroadcastAbout(c.nodes, me, id);
  }

  lemma TickOut(c: Config, me: ReplicaID, rep: Replica, id: InstanceID, a: Message)
    requires LocalSafe(me, rep) && id in rep.timers && id in rep.log
    ensures var o := TickOne(c, me, rep, id); o.Done? && (a in o.out <==> Tells(c, me, rep, o.rep, a))
  {
    assert LocalEntry(me, rep, id);
    TickLocal(c, me, rep, id);
    hide LocalSafe, SameElsewhere, TransitionTo;
    var o := TickOne(c, me, rep, id);
    if a.id != id {
      SameSilent(c, me, rep, o.rep, id, a);
      if a in o.out { TickAbout(c, me, rep, id, a); }
    } else {
      TransitionDone(c, me, Unregister(rep, id), id);
      TransitionOut(c, me, rep, Unregister(rep, id), id, Accepted, a);
    }
  }

  /** What is told over two moves that do not move the same instance is told in one of them. */
  lemma TellsJoin(c: Config, me: ReplicaID, rep: Replica, rep1: Replica, rep2: Replica, id: InstanceID, a: Message)
    requires SameElsewhere(rep, rep1, id) && Same(id, rep1.log, rep2.log)
    ensures Tells(c, me, rep, rep2, a) <==> Tells(c, me, rep, rep1, a) || Tells(c, me, rep1, rep2, a)
  {
    if a.id != id { assert Same(a.id, rep.log, rep1.log); }
  }

  lemma SentJoin(s: Sys, s1: Sys, s2: Sys, p: Packet)
    requires s.sent <= s1.sent <= s2.sent
    ensures SentNow(s, s2, p) <==> SentNow(s, s1, p) || SentNow(s1, s2, p)
  {
    if SentNow(s, s2, p) {
      var i :| |s.sent| <= i < |s2.sent| && s2.sent[i] == p;
      if i < |s1.sent| { assert s1.sent[i] == p; }
    }
    if SentNow(s, s1, p) {
      var i :| |s.sent| <= i < |s1.sent| && s1.sent[i] == p;
      assert s2.sent[i] == p;
    }
  }

  lemma NothingSent(s: Sys, s': Sys, p: Packet)
    requires s'.sent == s.sent
    ensures !SentNow(s, s', p)
  {
  }

  lemma {:induction false} TickAllOut(c: Config, s: Sys, r: ReplicaID, order: seq<InstanceID>, p: Packet)
    requires Safe(c, s) && r in s.reps && NoDup(order)
    requires forall id :: id in order ==> id in s.reps[r].timers && id in s.reps[r].log
    ensures var s' := TickAll(c, s, r, order);
            && r in s'.reps && s.sent <= s'.sent
            && (SentNow(s, s', p) <==> p.from == r && Tells(c, r, s.reps[r], s'.reps[r], p.msg))
    decreases |order|
  {
    hide Safe, LocalSafe, TickOne, SentNow, Tells, Keep, SameElsewhere;
    if order == [] {
      NothingSent(s, s, p);
      Unmoved(c, r, s.reps[r], p.msg);
    } else {
      var id, rest := order[0], order[1..];
      assert order == [id] + rest && id !in rest;
      LocalAt(c, s, r);
      TickMoveSafe(c, s, r, id);
      TickOut(c, r, s.reps[r], id, p.msg);
      TickLocal(c, r, s.reps[r], id);
      var o := TickOne(c, r, s.reps[r], id);
      var s1 := Put(s, r, o.rep, o.out);
      var s' := TickAll(c, s1, r, rest);
      PutSends(s, r, o.rep, o.out, p);
      forall x | x in rest ensures x in o.rep.timers && x in o.rep.log { SameAt(s.reps[r], o.rep, id, x); }
      TickAllOut(c, s1, r, rest, p);
      TickElsewhere(c, s1, r, rest, id);
      TellsJoin(c, r, s.reps[r], o.rep, s'.reps[r], id, p.msg);
      SentJoin(s, s1, s', p);
    }
  }

  // ----- All steps -----

  /** p announces a transition of an own instance of its sender to another node. */
  ghost predicate Announces(c: Config, s: Sys, s': Sys, p: Packet) {
    p.from in s.reps && p.from in s'.reps && Tells(c, p.from, s.reps[p.from], s'.reps[p.from], p.msg)
  }

  /** p answers packet i. */
  ghost predicate Replies(s: Sys, i: nat, s': Sys, p: Packet) {
    && i < |s.sent| && p.from == s.sent[i].msg.to && p.from in s.reps && p.from in s'.reps && p.from !in s'.crashed
    && Answers(s.reps[p.from], s'.reps[p.from], s.sent[i].msg, p.msg)
  }

  lemma OthersSilent(c: Config, s: Sys, s': Sys, r: ReplicaID, p: Packet)
    requires p.from != r && (p.from in s.reps ==> p.from in s'.reps && s'.reps[p.from] == s.reps[p.from])
    ensures !Announces(c, s, s', p)
  {
    if p.from in s.reps { Unmoved(c, p.from, s.reps[p.from], p.msg); }
  }

  lemma CrashSilent(c: Config, s: Sys, r: ReplicaID, p: Packet)
    ensures !Announces(c, s, Crash(s, r), p) && !SentNow(s, Crash(s, r), p)
  {
    if p.from in s.reps { Unmoved(c, p.from, s.reps[p.from], p.msg); }
  }

  lemma RequestSends(c: Config, s: Sys, r: ReplicaID, cmd: Command, s': Sys, p: Packet)
    requires Up(s, r) && Follows(s, r, OnRequest(c, r, s.reps[r], cmd), [], s')
    ensures SentNow(s, s', p) <==> Announces(c, s, s', p)
  {
    RequestRun(c, r, s.reps[r], cmd);
    hide OnRequest, SentNow, Tells;
    var o := OnRequest(c, r, s.reps[r], cmd);
    if o.Panicked? {
      CrashSilent(c, s, r, p);
    } else {
      PutSends(s, r, o.rep, o.out, p);
      RequestOut(c, r, s.reps[r], cmd, p.msg);
      if p.from != r { OthersSilent(c, s, s', r, p); }
    }
  }

  lemma TickSends(c: Config, s: Sys, r: ReplicaID, order: seq<InstanceID>, p: Packet)
    requires Safe(c, s) && r in s.reps && NoDup(order) && forall id :: id in order ==> id in s.reps[r].timers
    ensures var s' := TickAll(c, s, r, order); SentNow(s, s', p) <==> Announces(c, s, s', p)
  {
    LocalAt(c, s, r);
    forall id | id in order ensures id in s.reps[r].log { assert LocalEntry(r, s.reps[r], id); }
    hide Safe, LocalSafe, SentNow, Tells, TickAll;
    TickAllOut(c, s, r, order, p);
    var s' := TickAll(c, s, r, order);
    if p.from in s.reps && p.from != r {
      TickOthers(c, s, r, order, p.from);
      OthersSilent(c, s, s', r, p);
    }
  }

  /** The handler and the executor's run come to this. */
  lemma Came(c: Config, s: Sys, r: ReplicaID, o: Outcome, ex: seq<InstanceID>, s': Sys)
    requires r in s.reps && Follows(s, r, o, ex, s')
    ensures || s' == Crash(s, r)
            || (o.Done? && !o.run && s' == Put(s, r, o.rep, o.out))
            || (o.Done? && o.run && ExecuteAll(o.rep, ex).Done? && s' == Put(s, r, ExecuteAll(o.rep, ex).rep, o.out))
  {
    hide MayRun, ExecuteAll, Packets;
    if o.Done? && o.run && ExecuteAll(o.rep, ex).Done? {
      ExecuteOut(o.rep, ex);
      PutTwice(s, r, o.rep, ExecuteAll(o.rep, ex).rep, o.out);
    }
  }

  lemma ExecuteAnswers(rep: Replica, rep1: Replica, ex: seq<InstanceID>, m: Message, a: Message)
    requires ExecuteAll(rep1, ex).Done?
    ensures Answers(rep, rep1, m, a) <==> Answers(rep, ExecuteAll(rep1, ex).rep, m, a)
  {
  }

  lemma DeliverSends(c: Config, s: Sys, i: nat, ex: seq<InstanceID>, s': Sys, p: Packet)
    requires Safe(c, s) && i < |s.sent| && Delivers(c, s, i, ex, s')
    ensures SentNow(s, s', p) <==> Announces(c, s, s', p) || Replies(s, i, s', p)
  {
    var m := s.sent[i].msg;
    var r := m.to;
    assert ValidMessage(c, r, m) by { assert PacketSafe(s, s.sent[i]) by { hide LocalSafe, Agrees, PacketSafe; } }
    LocalAt(c, s, r);
    hide Safe, LocalSafe, SentNow, Tells, Answers, Replicas.Step, ExecuteAll, Follows, Packets;
    var s0 := s.(delivered := s.delivered + {i});
    var o := Replicas.Step(c, r, s.reps[r], m);
    Came(c, s0, r, o, ex, s');
    if s' == Crash(s0, r) {
      CrashSilent(c, s, r, p);
      assert !SentNow(s, s', p) by { NothingSent(s, s', p); }
    } else {
      var rep := if o.run then ExecuteAll(o.rep, ex).rep else o.rep;
      PutSends(s, r, rep, o.out, p);
      SameSent(s, Put(s, r, rep, o.out), s', p);
      StepOut(c, r, s.reps[r], m, p.msg);
      if o.run {
        ExecuteTells(c, r, s.reps[r], o.rep, ex, p.msg);
        ExecuteAnswers(s.reps[r], o.rep, ex, m, p.msg);
      }
      if p.from != r { OthersSilent(c, s, s', r, p); }
    }
  }

  /** Every step of every run that is no restart sends exactly this: to every other node the announcement of each
      transition of an own instance, and for a PreAccept or an Accept that is taken up one answer to its leader. */
  lemma SendsExactly(c: Config, states: seq<Sys>, steps: seq<System.Step>, k: nat, p: Packet)
    requires IsRun(c, states, steps) && k < |steps| && !steps[k].RestartStep?
    ensures SentNow(states[k], states[k + 1], p) <==>
            || Announces(c, states[k], states[k + 1], p)
            || ((steps[k].DeliverStep? || steps[k].RedeliverStep?) && Replies(states[k], steps[k].i, states[k + 1], p))
  {
    RunSafe(c, states, steps, k);
    var s, s' := states[k], states[k + 1];
    assert Next(c, s, steps[k], s');
    hide Safe, IsRun, SentNow, Announces, Replies, Delivers, Follows, TickAll, OnRequest;
    match steps[k]
    case RequestStep(r, cmd) => RequestSends(c, s, r, cmd, s', p);
    case DeliverStep(i, ex) => DeliverSends(c, s, i, ex, s', p);
    case TickStep(r, order) => TickSends(c, s, r, order, p);
    case RedeliverStep(i, ex) => DeliverSends(c, s, i, ex, s', p);
  }

  // ----- Nothing is sent twice -----

  /** The packets sent between s and s' are pairwise different. */
  ghost predicate NewOnce(s: Sys, s': Sys) {
    forall i, j :: |s.sent| <= i < j < |s'.sent| ==> s'.sent[i] != s'.sent[j]
  }

  lemma PutOnce(s: Sys, r: ReplicaID, rep: Replica, out: seq<Message>)
    requires NoDup(out)
    ensures NewOnce(s, Put(s, r, rep, out))
  {
    var s', n := Put(s, r, rep, out), |s.sent|;
    hide Packets;
    forall i, j | n <= i < j < |s'.sent| ensures s'.sent[i] != s'.sent[j] {
      assert s'.sent[i] == Packet(r, out[i - n]) && s'.sent[j] == Packet(r, out[j - n]);
    }
  }

  lemma BroadcastOnce(nodes: seq<ReplicaID>, me: ReplicaID, id: InstanceID, body: Body)
    requires NoDup(nodes)
    ensures NoDup(Broadcast(nodes, me, id, body))
  {
    BroadcastDistinct(nodes, me, id, body);
    hide Broadcast;
  }

  lemma TransitionOnce(c: Config, me: ReplicaID, rep: Replica, id: InstanceID, to: Status)
    requires ConfigOK(c) && id in rep.log && to in {PreAccepted, Accepted, Committed}
    ensures var o := TransitionTo(c, me, rep, id, to); o.Done? ==> NoDup(o.out)
  {
    hide Broadcast, NoDup;
    BroadcastOnce(c.nodes, me, id, Announcement(WithStatus(rep.log[id], to).st));
  }

  lemma EitherOnce(c: Config, me: ReplicaID, rep: Replica, id: InstanceID)
    requires ConfigOK(c) && id in rep.log
    ensures var o := OnEitherPreAcceptReply(c, me, rep, id); o.Done? ==> NoDup(o.out)
  {
    hide TransitionTo;
    TransitionOnce(c, me, Unregister(rep, id), id, Committed);
    TransitionOnce(c, me, Unregister(rep, id), id, Accepted);
  }

  lemma DispatchOnce(c: Config, me: ReplicaID, rep: Replica, m: Message)
    requires ConfigOK(c) && m.id in rep.log
    ensures var o := Dispatch(c, me, rep, m); o.Done? ==> NoDup(o.out)
  {
    hide OnEitherPreAcceptReply, TransitionTo, Slice, ScanAll;
    var inst := rep.log[m.id];
    match m.body
    case PreAcceptOK =>
      EitherOnce(c, me, rep.(log := rep.log[m.id := inst.(preAcceptReplies := inst.preAcceptReplies + 1)]), m.id);
    case PreAcceptReply(seqNum, deps) =>
      EitherOnce(c, me, rep.(log := rep.log[m.id := Merged(inst, seqNum, deps)]), m.id);
    case AcceptOK =>
      var rep1 := rep.(log := rep.log[m.id := inst.(acceptReplies := inst.acceptReplies + 1)]);
      TransitionOnce(c, me, rep1, m.id, Committed);
    case _ =>
  }

  lemma StepOnce(c: Config, me: ReplicaID, rep: Replica, m: Message)
    requires ConfigOK(c)
    ensures var o := Replicas.Step(c, me, rep, m); o.Done? ==> NoDup(o.out)
  {
    hide Dispatch;
    if m.id in rep.log {
      DispatchOnce(c, me, rep, m);
    } else {
      DispatchOnce(c, me, rep.(log := rep.log[m.id := NEW_INSTANCE]), m);
    }
  }

  lemma RequestOnce(c: Config, me: ReplicaID, rep: Replica, cmd: Command)
    requires ConfigOK(c)
    ensures var o := OnRequest(c, me, rep, cmd); o.Done? ==> NoDup(o.out)
  {
    hide ScanAll, Slice, MaxInstanceNum, TransitionTo;
    var res := ScanAll(rep.log, c.nodes, cmd, InstanceID(0, 0));
    if res.Found? {
      var id := InstanceID(me, MaxInstanceNum(rep.log, me) + 1);
      var inst := FromState(InstanceState(NoStatus, Some(cmd), res.maxSeq + 1, Slice(res.deps)));
      TransitionOnce(c, me, rep.(log := rep.log[id := inst]), id, PreAccepted);
    }
  }

  lemma FollowsOnce(c: Config, s: Sys, r: ReplicaID, o: Outcome, ex: seq<InstanceID>, s': Sys)
    requires r in s.reps && Follows(s, r, o, ex, s') && (o.Done? ==> NoDup(o.out))
    ensures NewOnce(s, s')
  {
    hide Follows, ExecuteAll, Packets, NoDup;
    Came(c, s, r, o, ex, s');
    if o.Done? {
      PutOnce(s, r, o.rep, o.out);
      if o.run && ExecuteAll(o.rep, ex).Done? { PutOnce(s, r, ExecuteAll(o.rep, ex).rep, o.out); }
    }
  }

  lemma TickOnce(c: Config, me: ReplicaID, rep: Replica, id: InstanceID)
    requires ConfigOK(c) && id in rep.log && TickOne(c, me, rep, id).Done?
    ensures NoDup(TickOne(c, me, rep, id).out)
  {
    hide TransitionTo;
    TransitionOnce(c, me, Unregister(rep, id), id, Accepted);
  }

  ghost predicate NewAbout(s: Sys, s': Sys, ids: seq<InstanceID>) {
    s.sent <= s'.sent && forall i :: |s.sent| <= i < |s'.sent| ==> s'.sent[i].msg.id in ids
  }

  lemma PutAbout(s: Sys, r: ReplicaID, rep: Replica, out: seq<Message>, id: InstanceID)
    requires forall a :: a in out ==> a.id == id
    ensures NewAbout(s, Put(s, r, rep, out), [id])
  {
    var s', n := Put(s, r, rep, out), |s.sent|;
    hide Packets;
    forall i | n <= i < |s'.sent| ensures s'.sent[i].msg.id == id {
      assert s'.sent[i] == Packet(r, out[i - n]) && out[i - n] in out;
    }
  }

  lemma OnceJoin(s: Sys, s1: Sys, s2: Sys, id: InstanceID, rest: seq<InstanceID>)
    requires NewOnce(s, s1) && NewOnce(s1, s2) && NewAbout(s, s1, [id]) && NewAbout(s1, s2, rest) && id !in rest
    ensures NewOnce(s, s2) && NewAbout(s, s2, [id] + rest)
  {
    forall i | |s.sent| <= i < |s1.sent| ensures s2.sent[i] == s1.sent[i] {}
    forall i, j | |s.sent| <= i < j < |s2.sent| ensures s2.sent[i] != s2.sent[j] {
      if i < |s1.sent| <= j { assert s1.sent[i].msg.id in [id] && s2.sent[j].msg.id in rest; }
    }
  }

  lemma NothingNew(s: Sys, ids: seq<InstanceID>)
    ensures NewOnce(s, s) && NewAbout(s, s, ids)
  {
  }

  lemma TickPutOnce(c: Config, s: Sys, r: ReplicaID, id: InstanceID)
    requires ConfigOK(c) && r in s.reps && id in s.reps[r].log && TickOne(c, r, s.reps[r], id).Done?
    ensures var o := TickOne(c, r, s.reps[r], id);
            NewOnce(s, Put(s, r, o.rep, o.out)) && NewAbout(s, Put(s, r, o.rep, o.out), [id])
  {
    hide TickOne, NewOnce, NewAbout, NoDup, Packets;
    var o := TickOne(c, r, s.reps[r], id);
    TickOnce(c, r, s.reps[r], id);
    PutOnce(s, r, o.rep, o.out);
    forall a | a in o.out ensures a.id == id { TickAbout(c, r, s.reps[r], id, a); }
    PutAbout(s, r, o.rep, o.out, id);
  }

  lemma {:induction false} TickAllOnce(c: Config, s: Sys, r: ReplicaID, order: seq<InstanceID>)
    requires ConfigOK(c) && Safe(c, s) && r in s.reps && NoDup(order)
    ensures NewOnce(s, TickAll(c, s, r, order)) && NewAbout(s, TickAll(c, s, r, order), order)
    decreases |order|
  {
    hide Safe, LocalSafe, TickOne, Keep, NewOnce, NewAbout, NoDup, Packets;
    if order == [] || order[0] !in s.reps[r].log {
      NothingNew(s, order);
    } else {
      var id, rest := order[0], order[1..];
      LocalAt(c, s, r);
      TickMoveSafe(c, s, r, id);
      TickPutOnce(c, s, r, id);
      var o := TickOne(c, r, s.reps[r], id);
      var s1 := Put(s, r, o.rep, o.out);
      assert order == [id] + rest;
      TailNoDup(order);
      TickAllOnce(c, s1, r, rest);
      OnceJoin(s, s1, TickAll(c, s1, r, rest), id, rest);
    }
  }

  lemma JoinOnce(a: seq<Message>, b: seq<Message>, id: InstanceID)
    requires NoDup(a) && NoDup(b) && (forall m :: m in a ==> m.id == id) && forall m :: m in b ==> m.id != id
    ensures NoDup(a + b)
  {
    forall i, j | 0 <= i < j < |a + b| ensures (a + b)[i] != (a + b)[j] {
      if i < |a| <= j { assert (a + b)[i] in a && (a + b)[j] in b; }
    }
  }

  lemma LoadOnce(c: Config, me: ReplicaID, rep: Replica, id: InstanceID, st: InstanceState)
    requires ConfigOK(c) && LoadOne(c, me, rep, id, st).Done?
    ensures NoDup(LoadOne(c, me, rep, id, st).out)
    ensures forall m :: m in LoadOne(c, me, rep, id, st).out ==> m.id == id
  {
    BroadcastOnce(c.nodes, me, id, Announcement(st));
    BroadcastAbout(c.nodes, me, id);
    hide Broadcast, NoDup;
  }

  lemma {:induction false} LoadsOnce(c: Config, me: ReplicaID, rep: Replica, stored: map<InstanceID, InstanceState>,
                                     order: seq<InstanceID>, runs: seq<seq<InstanceID>>, rep': Replica,
                                     out: seq<Message>)
    requires ConfigOK(c) && |runs| == |order| && (forall id :: id in order ==> id in stored) && NoDup(order)
    requires Loads(c, me, rep, stored, order, runs, rep', out)
    ensures NoDup(out) && forall m :: m in out ==> m.id in order
    decreases |order|
  {
    if order != [] {
      hide MayRun, ExecuteAll, LoadOne, NoDup;
      var id, rest := order[0], order[1..];
      var o := LoadOne(c, me, rep, id, stored[id]);
      LoadOnce(c, me, rep, id, stored[id]);
      TailNoDup(order);
      assert forall x :: x in order <==> x == id || x in rest;
      LoadsOnce(c, me, ExecuteAll(o.rep, runs[0]).rep, stored, rest, runs[1..], rep', out[|o.out|..]);
      JoinOnce(o.out, out[|o.out|..], id);
      assert out == o.out + out[|o.out|..];
    }
  }

  lemma RestartOnce(c: Config, s: Sys, r: ReplicaID, order: seq<InstanceID>, runs: seq<seq<InstanceID>>, s': Sys)
    requires ConfigOK(c) && r in s.reps && Restarts(c, s, r, order, runs, s')
    ensures NewOnce(s, s')
  {
    hide Loads, Packets;
    var stored := s.reps[r].storage;
    var rep, out :| Loads(c, r, Rebooted(stored), stored, order, runs, rep, out)
                    && s' == Put(s, r, rep, out).(crashed := s.crashed - {r});
    LoadsOnce(c, r, Rebooted(stored), stored, order, runs, rep, out);
    PutOnce(s, r, rep, out);
  }

  lemma DeliverOnce(c: Config, s: Sys, i: nat, ex: seq<InstanceID>, s': Sys)
    requires ConfigOK(c) && i < |s.sent| && Delivers(c, s, i, ex, s')
    ensures NewOnce(s, s')
  {
    hide Follows, Replicas.Step, NoDup;
    var m := s.sent[i].msg;
    StepOnce(c, m.to, s.reps[m.to], m);
    FollowsOnce(c, s.(delivered := s.delivered + {i}), m.to, Replicas.Step(c, m.to, s.reps[m.to], m), ex, s');
  }

  /** No step of a run sends a packet twice. */
  lemma SentOnce(c: Config, states: seq<Sys>, steps: seq<System.Step>, k: nat)
    requires IsRun(c, states, steps) && k < |steps|
    ensures NewOnce(states[k], states[k + 1])
  {
    RunSafe(c, states, steps, k);
    var s, s' := states[k], states[k + 1];
    assert Next(c, s, steps[k], s') && ConfigOK(c);
    hide Safe, IsRun, NewOnce, Delivers, Follows, TickAll, OnRequest, Restarts;
    match steps[k]
    case RequestStep(r, cmd) =>
      RequestOnce(c, r, s.reps[r], cmd);
      FollowsOnce(c, s, r, OnRequest(c, r, s.reps[r], cmd), [], s');
    case DeliverStep(i, ex) => DeliverOnce(c, s, i, ex, s');
    case TickStep(r, order) => TickAllOnce(c, s, r, order);
    case RedeliverStep(i, ex) => DeliverOnce(c, s, i, ex, s');
    case RestartStep(r, order, runs) => RestartOnce(c, s, r, order, runs, s');
  }

  // ----- What a follower holds -----

  function CommandIn(log: Log, id: InstanceID): Option<Command> {
    if id in log then log[id].st.cmd else None
  }

  /** What a follower makes of m: a vote, the accepted or the committed attributes; or it has gone further already and
      changes nothing. */
  ghost predicate Takes(rep: Replica, m: Message, rep': Replica) {
    var was := StatusAt(rep.log, m.id);
    match m.body
    case PreAccept(cmd, seqNum, deps) =>
      if was in {NoStatus, PreAccepted} then
        && m.id in rep'.log && rep'.log[m.id].st.status == PreAccepted && rep'.log[m.id].st.cmd == cmd
        && rep'.log[m.id].st.seqNum >= seqNum && Elems(rep'.log[m.id].st.deps) >= Elems(deps)
      else rep' == rep
    case Accept(seqNum, deps) =>
      if was in {NoStatus, PreAccepted, Accepted} then
        && m.id in rep'.log
        && rep'.log[m.id].st == InstanceState(Accepted, CommandIn(rep.log, m.id), seqNum, deps)
      else rep' == rep
    case Commit(cmd, seqNum, deps) =>
      if was in {NoStatus, PreAccepted, Accepted} then
        && m.id in rep'.log && rep'.log[m.id].st.status in {Committed, Executed}
        && rep'.log[m.id].st == InstanceState(rep'.log[m.id].st.status, cmd, seqNum, deps)
      else rep' == rep
    case _ => true
  }

  lemma DispatchTakes(c: Config, me: ReplicaID, rep: Replica, m: Message)
    requires m.id in rep.log && Dispatch(c, me, rep, m).Done?
    ensures Takes(rep, m, Dispatch(c, me, rep, m).rep)
    ensures !IsReply(m.body) && Rank(rep.log[m.id].st.status) >= 3 ==> !Dispatch(c, me, rep, m).run
    ensures m.body.Accept? || m.body.PreAccept? ==> !Dispatch(c, me, rep, m).run
  {
    hide ScanAll, Slice, OnPreAcceptOK, OnPreAcceptReply, OnAcceptOK;
    if m.body.PreAccept? && m.body.cmd.Some? {
      var res := ScanAll(rep.log, c.nodes, m.body.cmd.value, m.id);
      if res.Found? { SliceIds(res.deps + Elems(m.body.deps)); }
    }
  }

  lemma NewTakes(rep: Replica, m: Message, rep': Replica)
    requires m.id !in rep.log && Takes(WithInstance(rep, m.id), m, rep')
    ensures Takes(rep, m, rep')
  {
  }

  lemma StepTakes(c: Config, me: ReplicaID, rep: Replica, m: Message)
    requires ValidMessage(c, me, m) && !IsReply(m.body) && Replicas.Step(c, me, rep, m).Done?
    ensures Takes(rep, m, Replicas.Step(c, me, rep, m).rep)
    ensures Replicas.Step(c, me, rep, m).run ==> m.body.Commit? && Rank(StatusAt(rep.log, m.id)) < 3
  {
    hide Dispatch, Takes;
    DispatchTakes(c, me, WithInstance(rep, m.id), m);
    if m.id !in rep.log { NewTakes(rep, m, Replicas.Step(c, me, rep, m).rep); }
  }

  lemma ExecuteTakes(rep: Replica, m: Message, rep1: Replica, ex: seq<InstanceID>)
    requires Takes(rep, m, rep1) && m.body.Commit? && Rank(StatusAt(rep.log, m.id)) < 3 && ExecuteAll(rep1, ex).Done?
    ensures Takes(rep, m, ExecuteAll(rep1, ex).rep)
  {
  }

  /** In every run, a follower that does not crash takes what the leader sends it, unless it has gone further. */
  lemma FollowerHolds(c: Config, states: seq<Sys>, steps: seq<System.Step>, k: nat)
    requires IsRun(c, states, steps) && k < |steps| && (steps[k].DeliverStep? || steps[k].RedeliverStep?)
    requires steps[k].i < |states[k].sent| && !IsReply(states[k].sent[steps[k].i].msg.body)
    requires states[k].sent[steps[k].i].msg.to !in states[k + 1].crashed
    ensures var m := states[k].sent[steps[k].i].msg;
            m.to in states[k].reps && m.to in states[k + 1].reps
            && Takes(states[k].reps[m.to], m, states[k + 1].reps[m.to])
  {
    PacketsValid(c, states, steps, k, steps[k].i);
    var s, s', i, ex := states[k], states[k + 1], steps[k].i, steps[k].ex;
    assert Next(c, s, steps[k], s');
    assert Delivers(c, s, i, ex, s');
    hide IsRun, Next, Takes, Replicas.Step, ExecuteAll, Follows;
    var m := s.sent[i].msg;
    var r := m.to;
    var o := Replicas.Step(c, r, s.reps[r], m);
    Came(c, s.(delivered := s.delivered + {i}), r, o, ex, s');
    if o.Done? {
      StepTakes(c, r, s.reps[r], m);
      if o.run && ExecuteAll(o.rep, ex).Done? { ExecuteTakes(s.reps[r], m, o.rep, ex); }
    }
  }
}
