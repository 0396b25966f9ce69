/** What a PreAcceptOK says of its sender: it held the command with exactly the attributes of the PreAccept. */
module Votes {
  import opened Keys
  import opened Types
  import opened Scan
  import opened DepSlices
  import opened Replicas
  import opened System
  import opened Safety
  import opened Runs
  import opened Attributes
  import opened CrashStop
  import opened CrashStopRuns

  // ----- Who sends PreAcceptOKs -----

  lemma BroadcastNoReply(c: Config, me: ReplicaID, id: InstanceID, st: InstanceState, m: Message)
    requires m in Broadcast(c.nodes, me, id, Announcement(st))
    ensures !IsReply(m.body)
  {
    BroadcastIn(c.nodes, me, id, Announcement(st), m);
  }

  lemma RequestNoReply(c: Config, me: ReplicaID, rep: Replica, cmd: Command, m: Message)
    requires OnRequest(c, me, rep, cmd).Done? && m in OnRequest(c, me, rep, cmd).out
    ensures !IsReply(m.body)
  {
    hide Broadcast, ScanAll, MaxInstanceNum;
    var id := InstanceID(me, MaxInstanceNum(rep.log, me) + 1);
    BroadcastNoReply(c, me, id, OnRequest(c, me, rep, cmd).rep.log[id].st, m);
  }

  lemma TickNoReply(c: Config, me: ReplicaID, rep: Replica, id: InstanceID, m: Message)
    requires id in rep.log && TickOne(c, me, rep, id).Done? && m in TickOne(c, me, rep, id).out
    ensures !IsReply(m.body)
  {
    hide Broadcast;
    BroadcastNoReply(c, me, id, TickOne(c, me, rep, id).rep.log[id].st, m);
  }

  lemma {:induction false} TicksKeep(c: Config, s: Sys, r: ReplicaID, order: seq<InstanceID>)
    requires r in s.reps
    ensures s.sent <= TickAll(c, s, r, order).sent
    decreases |order|
  {
    hide TickOne;
    if order != [] && order[0] in s.reps[r].log {
      var o := TickOne(c, r, s.reps[r], order[0]);
      if o.Done? { TicksKeep(c, Put(s, r, o.rep, o.out), r, order[1..]); }
    }
  }

  lemma {:induction false} TicksNoReply(c: Config, s: Sys, r: ReplicaID, order: seq<InstanceID>, i: nat)
    requires Safe(c, s) && r in s.reps && |s.sent| <= i < |TickAll(c, s, r, order).sent|
    ensures !IsReply(TickAll(c, s, r, order).sent[i].msg.body)
    decreases |order|
  {
    hide Safe, TickOne, IsReply;
    TickMoveSafe(c, s, r, order[0]);
    var o := TickOne(c, r, s.reps[r], order[0]);
    var s1 := Put(s, r, o.rep, o.out);
    var n := |s1.sent|;
    if i < n {
      TicksKeep(c, s1, r, order[1..]);
      assert s1.sent[i] == Packet(r, o.out[i - |s.sent|]);
      TickNoReply(c, r, s.reps[r], order[0], o.out[i - |s.sent|]);
    } else {
      TicksNoReply(c, s1, r, order[1..], i);
    }
  }

  /** The vote of a follower. */
  lemma OKOut(c: Config, me: ReplicaID, rep: Replica, m: Message, x: Message)
    requires Replicas.Step(c, me, rep, m).Done? && x in Replicas.Step(c, me, rep, m).out && x.body == PreAcceptOK
    ensures m.body.PreAccept? && x.id == m.id && !Replicas.Step(c, me, rep, m).run
    ensures Replicas.Step(c, me, rep, m) == OnPreAccept(c, me, WithInstance(rep, m.id), m.id, m.body)
  {
    hide Broadcast, ScanAll, OnEitherPreAcceptReply;
    var o := Replicas.Step(c, me, rep, m);
    if m.id in rep.log && IsReply(m.body) && ValidMessage(c, me, m) {
      LeaderStep(c, me, rep, m);
      BroadcastNoReply(c, me, m.id, o.rep.log[m.id].st, x);
    }
  }

  // ----- One step -----

  /** Follower v was handed PreAccept n of id and now holds the command with its attributes. */
  ghost predicate VotedAs(s: Sys, s': Sys, v: ReplicaID, id: InstanceID, n: nat) {
    && n < |s.sent| && s.sent[n].msg.to == v && s.sent[n].msg.id == id && s.sent[n].msg.body.PreAccept?
    && v in s'.reps && id in s'.reps[v].log
    && var pa := s.sent[n].msg.body; s'.reps[v].log[id].st == InstanceState(PreAccepted, pa.cmd, pa.seqNum, pa.deps)
  }

  lemma DeliverOK(c: Config, s: Sys, n: nat, ex: seq<InstanceID>, s': Sys, i: nat)
    requires Safe(c, s) && n < |s.sent| && Delivers(c, s, n, ex, s') && |s.sent| <= i < |s'.sent|
    requires s'.sent[i].msg.body == PreAcceptOK && (s.sent[n].msg.body.PreAccept? ==> Sorted(s.sent[n].msg.body.deps))
    ensures VotedAs(s, s', s'.sent[i].from, s'.sent[i].msg.id, n)
  {
    hide Safe, Replicas.Step, MayRun, OnPreAccept, Sorted;
    var m := s.sent[n].msg;
    var o := Replicas.Step(c, m.to, s.reps[m.to], m);
    var x := o.out[i - |s.sent|];
    assert s'.sent[i] == Packet(m.to, x);
    OKOut(c, m.to, s.reps[m.to], m, x);
    VoteRecords(c, m.to, WithInstance(s.reps[m.to], m.id), m.id, m.body);
  }

  lemma PreSorted(c: Config, s: Sys, n: nat, mode: Mode)
    requires CS(c, s, mode) && n < |s.sent|
    ensures s.sent[n].msg.body.PreAccept? ==> Sorted(s.sent[n].msg.body.deps)
  {
    hide Safe, EntryCS, CoverPair, Uniq, Sorted;
    assert PacketCS(s, s.sent[n]);
  }

  lemma NextOK(c: Config, s: Sys, step: System.Step, s': Sys, i: nat, mode: Mode) returns (n: nat)
    requires CS(c, s, mode) && Next(c, s, step, s') && Suits(s, step, mode)
    requires |s.sent| <= i < |s'.sent| && s'.sent[i].msg.body == PreAcceptOK
    ensures VotedAs(s, s', s'.sent[i].from, s'.sent[i].msg.id, n)
  {
    hide CS, Safe, Delivers, TickAll, OnRequest, VotedAs, Sorted, WellFormed, Restarts, LosesOnly;
    CSSafe(c, s, mode);
    match step
    case RequestStep(r, cmd) =>
      var o := OnRequest(c, r, s.reps[r], cmd);
      RequestRun(c, r, s.reps[r], cmd);
      assert s'.sent[i] == Packet(r, o.out[i - |s.sent|]);
      RequestNoReply(c, r, s.reps[r], cmd, o.out[i - |s.sent|]);
    case TickStep(r, order) => TicksNoReply(c, s, r, order, i);
    case DeliverStep(j, ex) =>
      n := j;
      PreSorted(c, s, n, mode);
      DeliverOK(c, s, n, ex, s', i);
    case RedeliverStep(j, ex) =>
      n := j;
      PreSorted(c, s, n, mode);
      DeliverOK(c, s, n, ex, s', i);
    case RestartStep(r, order, runs) =>
      var rep, out := RestartReloads(c, s, s', r, order, runs);
  }

  // ----- Runs -----

  /** The step that sent packet i. */
  lemma {:induction false} SentBy(c: Config, states: seq<Sys>, steps: seq<System.Step>, k: nat, i: nat, mode: Mode)
    returns (j: nat)
    requires IsModeRun(c, states, steps, mode) && k < |states| && i < |states[k].sent|
    ensures j < k && |states[j].sent| <= i < |states[j + 1].sent| && states[j + 1].sent <= states[k].sent
  {
    hide CS, Next;
    assert k > 0;
    ModeRunCS(c, states, steps, k - 1, mode);
    assert Next(c, states[k - 1], steps[k - 1], states[k]);
    NextCS(c, states[k - 1], steps[k - 1], states[k], mode);
    assert states[k - 1].sent <= states[k].sent by { hide Keep, Knows; }
    hide Grow, IsModeRun;
    if i < |states[k - 1].sent| {
      j := SentBy(c, states, steps, k - 1, i, mode);
    } else {
      j := k - 1;
    }
  }

  /** Every PreAcceptOK was sent in a step after which its sender held the command with the attributes of the PreAccept
      that it answers. */
  lemma OKRecorded(c: Config, states: seq<Sys>, steps: seq<System.Step>, k: nat, i: nat, mode: Mode)
    returns (j: nat, n: nat)
    requires IsModeRun(c, states, steps, mode) && k < |states|
    requires i < |states[k].sent| && states[k].sent[i].msg.body == PreAcceptOK
    ensures j < k && VotedAs(states[j], states[j + 1], states[k].sent[i].from, states[k].sent[i].msg.id, n)
    ensures states[j].sent <= states[k].sent
  {
    hide CS, Next, VotedAs;
    j := SentBy(c, states, steps, k, i, mode);
    ModeRunCS(c, states, steps, j, mode);
    assert Next(c, states[j], steps[j], states[j + 1]);
    assert states[j + 1].sent[i] == states[k].sent[i];
    NextCS(c, states[j], steps[j], states[j + 1], mode);
    assert states[j].sent <= states[j + 1].sent by { hide Keep, Knows; }
    hide Grow;
    n := NextOK(c, states[j], steps[j], states[j + 1], i, mode);
  }
}
