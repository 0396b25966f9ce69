/** A run in which one follower passes for a quorum on the slow path: its PreAcceptReply arrives twice. */
module Redelivery {
  import opened Keys
  import opened RangeGroups
  import opened Types
  import opened Scan
  import opened DepSlices
  import opened Graphs
  import opened ExecutionSpec
  import opened Replicas
  import opened System
  import opened Safety
  import opened Runs
  import opened SameLeaders
  import opened Faults

  // ----- A follower with an instance of its own -----

  /** But for the ignored instance, the log holds the slot of f only. */
  ghost predicate OnlySlot(log: Log, ignored: InstanceID, f: ReplicaID) {
    && ignored != Slot(f) && (forall id :: id in log ==> id in {ignored, Slot(f)})
    && Slot(f) in log && log[Slot(f)].st.cmd == Some(Write(f)) && log[Slot(f)].st.seqNum == 1
  }

  lemma WriteCovers(l: ReplicaID, f: ReplicaID)
    ensures Interferes(Write(f), Write(l)) && Grows([], RangeOf(Write(f).span))
    ensures Add([], RangeOf(Write(f).span)) == [RangeOf(Write(l).span)]
    ensures Encloses([RangeOf(Write(l).span)], RangeOf(Write(l).span))
  {
    assert Contains([RangeOf(Write(l).span)][0], RangeOf(Write(l).span));
  }

  /** Above slot n - 1 there is nothing but the ignored instance. */
  lemma {:induction false} SkipsTo(log: Log, rid: ReplicaID, cmd: Command, ignored: InstanceID, n: nat, m: nat)
    requires n <= m && forall id: InstanceID :: id in log && id.replica == rid && id.num >= n ==> id == ignored
    ensures ScanSpace(log, rid, cmd, ignored, m, []) == ScanSpace(log, rid, cmd, ignored, n, [])
    decreases m
  {
    if n < m { SkipsTo(log, rid, cmd, ignored, n, m - 1); }
  }

  lemma OneInSpace(log: Log, l: ReplicaID, ignored: InstanceID, f: ReplicaID)
    requires OnlySlot(log, ignored, f)
    ensures ScanSpace(log, f, Write(l), ignored, Bound(Nums(log, f)), []) == Found(1, {Slot(f)})
  {
    WriteCovers(l, f);
    hide Add, Grows, Encloses, GroupOverlaps, RangeOf, Interferes;
    assert Slot(f).num in Nums(log, f);
    SkipsTo(log, f, Write(l), ignored, 2, Bound(Nums(log, f)));
  }

  lemma {:induction false} OneFound(log: Log, nodes: seq<ReplicaID>, l: ReplicaID, ignored: InstanceID, f: ReplicaID)
    requires OnlySlot(log, ignored, f)
    ensures ScanAll(log, nodes, Write(l), ignored) == if f in nodes then Found(1, {Slot(f)}) else Found(0, {})
  {
    hide ScanSpace;
    if nodes != [] {
      if nodes[0] == f {
        OneInSpace(log, l, ignored, f);
      } else {
        NothingInSpace(log, nodes[0], Write(l), ignored, Bound(Nums(log, nodes[0])));
      }
      OneFound(log, nodes[1..], l, ignored, f);
    }
  }

  // ----- The states of a leader and its follower -----

  /** The attributes that l gives to its command once it knows of the command of f. */
  function Later(l: ReplicaID, f: ReplicaID, status: Status): InstanceState {
    InstanceState(status, Some(Write(l)), 2, [Slot(f)])
  }

  function News(l: ReplicaID, f: ReplicaID): Message {
    Message(l, Slot(l), PreAcceptReply(2, [Slot(f)]))
  }

  function Ask(l: ReplicaID, f: ReplicaID): Body {
    Accept(2, [Slot(f)])
  }

  function Agreed(l: ReplicaID): Message {
    Message(l, Slot(l), AcceptOK)
  }

  /** The follower, which proposed a command itself. */
  function Differs(l: ReplicaID, f: ReplicaID, status: Status): Replica {
    var rep := Faults.Counted(f, 0, STOPPED);
    rep.(log := rep.log[Slot(l) := FromState(Later(l, f, status))])
  }

  /** The leader after the first reply. */
  function Heard(l: ReplicaID, f: ReplicaID): Replica {
    Faults.Counted(l, 0, STOPPED).(log := map[Slot(l) := Instance(Later(l, f, PreAccepted), 1, true, 0, STOPPED)])
  }

  /** The leader after the second, and with n AcceptOKs. */
  function Slow(l: ReplicaID, f: ReplicaID, status: Status, n: nat): Replica {
    Replica(map[Slot(l) := Instance(Later(l, f, status), 2, true, n, STOPPED)], {},
            if status == Committed then {Slot(l)} else {}, [], map[Slot(l) := Later(l, f, status)])
  }

  /** A replica that learns of the command by an Accept. */
  function Noted(rep: Replica, l: ReplicaID, f: ReplicaID): Replica {
    rep.(log := rep.log[Slot(l) := FromState(Later(l, f, Accepted).(cmd := None))])
  }

  lemma JustThat(f: ReplicaID)
    ensures Slice({Slot(f)} + Elems([])) == [Slot(f)] && Slice(Elems([]) + Elems([Slot(f)])) == [Slot(f)]
    ensures Slice(Elems([Slot(f)]) + Elems([Slot(f)])) == [Slot(f)]
  {
    hide Slice;
    SliceOfIds([Slot(f)]);
    assert Elems([Slot(f)]) == {Slot(f)} && {Slot(f)} + Elems([]) == {Slot(f)};
    assert Elems([]) + Elems([Slot(f)]) == {Slot(f)} && Elems([Slot(f)]) + Elems([Slot(f)]) == {Slot(f)};
  }

  lemma VotesOn(c: Config, l: ReplicaID, f: ReplicaID, rep: Replica)
    requires f in c.nodes && OnlySlot(rep.log, Slot(l), f) && Slot(l) in rep.log && rep.log[Slot(l)] == NEW_INSTANCE
    ensures OnPreAccept(c, f, rep, Slot(l), Pre(l)) ==
            Done(rep.(log := rep.log[Slot(l) := FromState(Later(l, f, PreAccepted))]), [News(l, f)], false)
  {
    hide ScanAll, Slice;
    OneFound(rep.log, c.nodes, l, Slot(l), f);
    JustThat(f);
  }

  lemma FirstHeard(c: Config, me: ReplicaID, rep: Replica, m: Message)
    requires ValidMessage(c, me, m) && !IsReply(m.body) && m.id !in rep.log
    ensures Replicas.Step(c, me, rep, m) == Dispatch(c, me, rep.(log := rep.log[m.id := NEW_INSTANCE]), m)
  {
    hide Dispatch;
  }

  lemma VotesLater(c: Config, l: ReplicaID, f: ReplicaID)
    requires l in c.nodes && f in c.nodes && l != f
    ensures Replicas.Step(c, f, Faults.Counted(f, 0, STOPPED), Message(f, Slot(l), Pre(l))) ==
            Done(Differs(l, f, PreAccepted), [News(l, f)], false)
  {
    hide OnPreAccept, OnPreAcceptOK, OnPreAcceptReply, OnAccept, OnAcceptOK, OnCommit, Replicas.Step;
    var rep := Faults.Counted(f, 0, STOPPED);
    FirstHeard(c, f, rep, Message(f, Slot(l), Pre(l)));
    var rep1 := rep.(log := rep.log[Slot(l) := NEW_INSTANCE]);
    VotesOn(c, l, f, rep1);
    assert rep1.log[Slot(l) := FromState(Later(l, f, PreAccepted))] == Differs(l, f, PreAccepted).log;
  }

  lemma HearsOnce(l: ReplicaID, f: ReplicaID)
    ensures Replicas.Step(FIVE, l, Faults.Counted(l, 0, STOPPED), News(l, f)) == Done(Heard(l, f), [], false)
  {
    hide Slice, Broadcast, OnPreAccept, OnPreAcceptOK, OnAccept, OnAcceptOK, OnCommit;
    JustThat(f);
    var o := Replicas.Step(FIVE, l, Faults.Counted(l, 0, STOPPED), News(l, f));
    assert o.rep.log == Heard(l, f).log;
  }

  lemma HearsTwice(l: ReplicaID, f: ReplicaID)
    ensures Replicas.Step(FIVE, l, Heard(l, f), News(l, f)) ==
            Done(Slow(l, f, Accepted, 0), Broadcast(FIVE.nodes, l, Slot(l), Ask(l, f)), false)
  {
    hide Slice, Broadcast, OnPreAccept, OnPreAcceptOK, OnAccept, OnAcceptOK, OnCommit;
    JustThat(f);
    var o := Replicas.Step(FIVE, l, Heard(l, f), News(l, f));
    assert o.rep.log == Slow(l, f, Accepted, 0).log && o.rep.storage == Slow(l, f, Accepted, 0).storage;
    assert o.rep.timers == {};
  }

  lemma FollowerAgrees(l: ReplicaID, f: ReplicaID)
    requires l in FIVE.nodes && l != f
    ensures Replicas.Step(FIVE, f, Differs(l, f, PreAccepted), Message(f, Slot(l), Ask(l, f))) ==
            Done(Differs(l, f, Accepted), [Agreed(l)], false)
  {
    hide OnPreAccept, OnPreAcceptOK, OnPreAcceptReply, OnAcceptOK, OnCommit;
    var o := Replicas.Step(FIVE, f, Differs(l, f, PreAccepted), Message(f, Slot(l), Ask(l, f)));
    assert o.rep.log == Differs(l, f, Accepted).log;
  }

  lemma StrangerAgrees(l: ReplicaID, f: ReplicaID, r: ReplicaID, rep: Replica)
    requires l in FIVE.nodes && l != r && Slot(l) !in rep.log
    ensures Replicas.Step(FIVE, r, rep, Message(r, Slot(l), Ask(l, f))) == Done(Noted(rep, l, f), [Agreed(l)], false)
  {
    hide OnPreAccept, OnPreAcceptOK, OnPreAcceptReply, OnAcceptOK, OnCommit;
    var o := Replicas.Step(FIVE, r, rep, Message(r, Slot(l), Ask(l, f)));
    assert o.rep.log == Noted(rep, l, f).log;
  }

  lemma CountsFirst(l: ReplicaID, f: ReplicaID)
    ensures Replicas.Step(FIVE, l, Slow(l, f, Accepted, 0), Agreed(l)) == Done(Slow(l, f, Accepted, 1), [], false)
  {
    hide Broadcast, OnPreAccept, OnPreAcceptOK, OnPreAcceptReply, OnAccept, OnCommit;
    var o := Replicas.Step(FIVE, l, Slow(l, f, Accepted, 0), Agreed(l));
    assert o.rep.log == Slow(l, f, Accepted, 1).log;
  }

  lemma CountsSecond(l: ReplicaID, f: ReplicaID)
    ensures Replicas.Step(FIVE, l, Slow(l, f, Accepted, 1), Agreed(l)) ==
            Done(Slow(l, f, Committed, 2),
                 Broadcast(FIVE.nodes, l, Slot(l), Commit(Some(Write(l)), 2, [Slot(f)])), true)
  {
    hide Broadcast, OnPreAccept, OnPreAcceptOK, OnPreAcceptReply, OnAccept, OnCommit;
    var o := Replicas.Step(FIVE, l, Slow(l, f, Accepted, 1), Agreed(l));
    assert o.rep.log == Slow(l, f, Committed, 2).log && o.rep.storage == Slow(l, f, Committed, 2).storage;
    assert o.rep.vertices == {Slot(l)};
  }

  /** The dependency is not committed, so nothing executes. */
  lemma Blocked(l: ReplicaID, f: ReplicaID)
    requires l != f
    ensures MayRun(Slow(l, f, Committed, 2), [])
    ensures ExecuteAll(Slow(l, f, Committed, 2), []) == Done(Slow(l, f, Committed, 2), [], false)
  {
    var rep := Slow(l, f, Committed, 2);
    var g := map[Slot(l) := Exec([Slot(f)], 2, l)];
    assert VertexGraph(rep) == g && ExecutedSet(rep.log) == {};
    assert !Ready(g, {}, Slot(l)) by {
      hide Reach;
      ReachEdge(g, Slot(l), Slot(f));
    }
    hide Ready;
    assert RunSpec(g, {}, []);
    assert ExecuteAll(rep, []).rep.log == rep.log && ExecuteAll(rep, []).rep.storage == rep.storage;
  }

  // ----- The run -----

  const TWICE := Faulty({PreAcceptReplyForm}, {})

  /** l and f are idle, and nobody told 5 of the command of l. */
  ghost predicate Waiting(s: Sys, l: ReplicaID, f: ReplicaID) {
    Idle(FIVE, s, l, f) && l != 5 && f != 5 && 5 in s.reps && Slot(l) !in s.reps[5].log
  }

  /** Both propose, and f answers l: its reply is the last packet. */
  lemma Opens(given: Faulty, s: Sys, l: ReplicaID, f: ReplicaID) returns (s': Sys)
    requires Reached(FIVE, given, s) && Waiting(s, l, f)
    ensures Reached(FIVE, given, s') && s'.crashed == {}
    ensures s'.reps == s.reps[f := Differs(l, f, PreAccepted)][l := Faults.Counted(l, 0, STOPPED)]
    ensures |s'.sent| > 0 && s'.sent[|s'.sent| - 1].msg == News(l, f)
    ensures forall n :: n in s'.delivered ==> n < |s'.sent| - 1
  {
    hide Reached, Broadcast, Replicas.Step, Packets, Faults.Counted, Differs;
    var s1 := Offers(FIVE, given, s, f);
    var s2 := Offers(FIVE, given, s1, l);
    var i := SentTo(FIVE, s1, l, f, Pre(l), s2);
    VotesLater(FIVE, l, f);
    Delivered(FIVE, given, s2, i, Differs(l, f, PreAccepted), [News(l, f)], false, [], Differs(l, f, PreAccepted));
    s' := Put(s2.(delivered := s2.delivered + {i}), f, Differs(l, f, PreAccepted), [News(l, f)]);
  }

  /** The reply arrives twice, and l asks everybody to accept. */
  lemma Hears(s: Sys, l: ReplicaID, f: ReplicaID) returns (s': Sys, i: nat, j: nat)
    requires Reached(FIVE, TWICE, s) && s.crashed == {} && l in s.reps && s.reps[l] == Faults.Counted(l, 0, STOPPED)
    requires |s.sent| > 0 && s.sent[|s.sent| - 1].msg == News(l, f) && forall n :: n in s.delivered ==> n < |s.sent| - 1
    requires f in FIVE.nodes && l != f && l != 5
    ensures Reached(FIVE, TWICE, s') && s'.crashed == {} && s'.reps == s.reps[l := Slow(l, f, Accepted, 0)]
    ensures i < |s'.sent| && j < |s'.sent| && i !in s'.delivered && j !in s'.delivered
    ensures s'.sent[i].msg == Message(f, Slot(l), Ask(l, f)) && s'.sent[j].msg == Message(5, Slot(l), Ask(l, f))
    ensures forall n :: n in s'.delivered ==> n < |s'.sent|
  {
    hide Reached, Broadcast, Replicas.Step, Packets, Faults.Counted, Heard, Slow;
    var n := |s.sent| - 1;
    HearsOnce(l, f);
    Delivered(FIVE, TWICE, s, n, Heard(l, f), [], false, [], Heard(l, f));
    var s1 := Put(s.(delivered := s.delivered + {n}), l, Heard(l, f), []);
    HearsTwice(l, f);
    var out := Broadcast(FIVE.nodes, l, Slot(l), Ask(l, f));
    Delivered(FIVE, TWICE, s1, n, Slow(l, f, Accepted, 0), out, false, [], Slow(l, f, Accepted, 0));
    s' := Put(s1.(delivered := s1.delivered + {n}), l, Slow(l, f, Accepted, 0), out);
    i := SentTo(FIVE, s1, l, f, Ask(l, f), s');
    j := SentTo(FIVE, s1, l, 5, Ask(l, f), s');
  }

  /** f and 5 accept: their AcceptOKs are the last two packets. */
  lemma Accepts(s: Sys, l: ReplicaID, f: ReplicaID, i: nat, j: nat) returns (s': Sys)
    requires Reached(FIVE, TWICE, s) && s.crashed == {} && l in FIVE.nodes && f in FIVE.nodes && l != f && l != 5
    requires f != 5
    requires f in s.reps && s.reps[f] == Differs(l, f, PreAccepted) && 5 in s.reps && Slot(l) !in s.reps[5].log
    requires i < |s.sent| && j < |s.sent| && i !in s.delivered && j !in s.delivered
    requires s.sent[i].msg == Message(f, Slot(l), Ask(l, f)) && s.sent[j].msg == Message(5, Slot(l), Ask(l, f))
    requires forall n :: n in s.delivered ==> n < |s.sent|
    ensures Reached(FIVE, TWICE, s') && s'.crashed == {}
    ensures s'.reps == s.reps[f := Differs(l, f, Accepted)][5 := Noted(s.reps[5], l, f)]
    ensures |s'.sent| == |s.sent| + 2 && s'.sent[|s.sent|].msg == Agreed(l) && s'.sent[|s.sent| + 1].msg == Agreed(l)
    ensures forall n :: n in s'.delivered ==> n < |s.sent|
  {
    hide Reached, Replicas.Step, Packets, Differs, Noted;
    FollowerAgrees(l, f);
    Delivered(FIVE, TWICE, s, i, Differs(l, f, Accepted), [Agreed(l)], false, [], Differs(l, f, Accepted));
    var s1 := Put(s.(delivered := s.delivered + {i}), f, Differs(l, f, Accepted), [Agreed(l)]);
    StrangerAgrees(l, f, 5, s.reps[5]);
    Delivered(FIVE, TWICE, s1, j, Noted(s.reps[5], l, f), [Agreed(l)], false, [], Noted(s.reps[5], l, f));
    s' := Put(s1.(delivered := s1.delivered + {j}), 5, Noted(s.reps[5], l, f), [Agreed(l)]);
  }

  /** Two AcceptOKs commit. */
  lemma Decide(s: Sys, l: ReplicaID, f: ReplicaID, i: nat) returns (s': Sys)
    requires Reached(FIVE, TWICE, s) && s.crashed == {} && l in s.reps && s.reps[l] == Slow(l, f, Accepted, 0) && l != f
    requires |s.sent| == i + 2 && s.sent[i].msg == Agreed(l) && s.sent[i + 1].msg == Agreed(l)
    requires forall n :: n in s.delivered ==> n < i
    ensures Reached(FIVE, TWICE, s') && s'.crashed == {} && s'.reps == s.reps[l := Slow(l, f, Committed, 2)]
    ensures forall n :: n in s'.delivered ==> n < |s'.sent|
  {
    hide Reached, Replicas.Step, Packets, Slow, MayRun, ExecuteAll, Broadcast;
    CountsFirst(l, f);
    Delivered(FIVE, TWICE, s, i, Slow(l, f, Accepted, 1), [], false, [], Slow(l, f, Accepted, 1));
    var s1 := Put(s.(delivered := s.delivered + {i}), l, Slow(l, f, Accepted, 1), []);
    CountsSecond(l, f);
    Blocked(l, f);
    var out := Broadcast(FIVE.nodes, l, Slot(l), Commit(Some(Write(l)), 2, [Slot(f)]));
    Delivered(FIVE, TWICE, s1, i + 1, Slow(l, f, Committed, 2), out, true, [], Slow(l, f, Committed, 2));
    s' := Put(s1.(delivered := s1.delivered + {i + 1}), l, Slow(l, f, Committed, 2), out);
  }

  lemma SlowCommit(s: Sys, l: ReplicaID, f: ReplicaID) returns (s': Sys)
    requires Reached(FIVE, TWICE, s) && Waiting(s, l, f)
    ensures Reached(FIVE, TWICE, s') && s'.crashed == {}
    ensures s'.reps == s.reps[f := Differs(l, f, Accepted)][5 := Noted(s.reps[5], l, f)][l := Slow(l, f, Committed, 2)]
    ensures forall n :: n in s'.delivered ==> n < |s'.sent|
  {
    hide Reached, Slow, Differs, Noted, Faults.Counted;
    var s1 := Opens(TWICE, s, l, f);
    var s2, i, j := Hears(s1, l, f);
    var s3 := Accepts(s2, l, f, i, j);
    s' := Decide(s3, l, f, |s2.sent|);
    assert s'.reps == s.reps[f := Differs(l, f, Accepted)][5 := Noted(s.reps[5], l, f)][l := Slow(l, f, Committed, 2)];
  }

  lemma ReachesPair(s: Sys, a: InstanceID, d: InstanceID, b: InstanceID)
    requires LeaderHas(s, a) && Lead(s, a).st.deps == [d] && NoDeps(s, d) && b !in {a, d}
    ensures !Reach(LeaderGraph(s), a, b)
  {
    hide Reach, LeaderGraph;
    forall x, y | x in {a, d} && Edge(LeaderGraph(s), x, y) ensures y in {a, d} { DepEdge(s, x, y); }
    assert Closed(LeaderGraph(s), {a, d});
    if Reach(LeaderGraph(s), a, b) { ReachClosed(LeaderGraph(s), {a, d}, a, b); }
  }

  /** What a leader holds after its slow commit, and its follower. */
  predicate Committer(s: Sys, l: ReplicaID, f: ReplicaID) {
    l in s.reps && f in s.reps && s.reps[l] == Slow(l, f, Committed, 2) && s.reps[f] == Differs(l, f, Accepted)
  }

  lemma CommitterFacts(s: Sys, l: ReplicaID, f: ReplicaID, b: InstanceID)
    requires Committer(s, l, f) && l != f && b !in {Slot(l), Slot(f)}
    ensures Decided(s, Slot(l), Some(Write(l)), 2, [Slot(f)]) && !Reach(LeaderGraph(s), Slot(l), b)
  {
    hide Reach, LeaderGraph;
    assert HoldsCommitted(s, l, Slot(l), Some(Write(l)), 2, [Slot(f)]);
    ReachesPair(s, Slot(l), Slot(f), b);
  }

  lemma BothSlow(s: Sys)
    requires Committer(s, 1, 2) && Committer(s, 3, 4)
    ensures Unrelated(s, Slot(1), Slot(3))
  {
    CommitterFacts(s, 1, 2, Slot(3));
    CommitterFacts(s, 3, 4, Slot(1));
    hide Reach, LeaderGraph, Decided, Committer;
    assert Interferes(Write(1), Write(3));
  }

  /** A slow commit leaves two other replicas waiting. */
  lemma StillWaiting(s: Sys, s': Sys, l: ReplicaID, f: ReplicaID, m: ReplicaID, g: ReplicaID)
    requires Waiting(s, m, g) && {l, f} !! {m, g} && s'.crashed == {} && forall n :: n in s'.delivered ==> n < |s'.sent|
    requires s'.reps == s.reps[f := Differs(l, f, Accepted)][5 := Noted(s.reps[5], l, f)][l := Slow(l, f, Committed, 2)]
    requires l != 5
    ensures Waiting(s', m, g)
  {
    hide Differs, Slow;
  }

  lemma FirstSlow() returns (s: Sys)
    ensures Reached(FIVE, TWICE, s) && Committer(s, 1, 2) && Waiting(s, 3, 4)
  {
    hide Reached, Slow, Differs, Noted;
    Start(FIVE, TWICE);
    var s0 := Initial(FIVE);
    assert Waiting(s0, 1, 2) && Waiting(s0, 3, 4);
    hide Initial, Waiting;
    s := SlowCommit(s0, 1, 2);
    StillWaiting(s0, s, 1, 2, 3, 4);
  }

  /** The PreAcceptReply of the one follower is delivered twice. */
  lemma RepeatedReplies() returns (s: Sys)
    ensures Reached(FIVE, TWICE, s) && Unrelated(s, Slot(1), Slot(3))
  {
    hide Reached, Unrelated, Slow, Differs, Noted;
    var s1 := FirstSlow();
    s := SlowCommit(s1, 3, 4);
    BothSlow(s);
  }
}
