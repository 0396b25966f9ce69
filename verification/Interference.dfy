/** Interfering instances end up ordered: once two of them have left PreAccepted, one
    depends on the other, possibly through later writes of the same replica. */
module Interference {
  import opened Keys
  import opened Types
  import opened DepSlices
  import opened Graphs
  import opened Replicas
  import opened Local
  import opened System
  import opened Safety
  import opened CrashStop
  import opened CrashStopRuns
  import opened SameLeaders

  // ----- Quorums intersect -----

  /** The sender of packet i. */
  function Sender(s: Sys, i: nat): ReplicaID {
    if i < |s.sent| then s.sent[i].from else 0
  }

  function Senders(s: Sys, counted: set<nat>): set<ReplicaID> {
    set i | i in counted :: Sender(s, i)
  }

  lemma {:induction false} SendersSize(s: Sys, counted: set<nat>)
    requires forall i, j :: i in counted && j in counted && i != j ==> Sender(s, i) != Sender(s, j)
    ensures |Senders(s, counted)| == |counted|
  {
    if counted != {} {
      var i :| i in counted;
      SendersSize(s, counted - {i});
      assert Senders(s, counted) == Senders(s, counted - {i}) + {Sender(s, i)};
    }
  }

  lemma {:induction false} NodesSize(nodes: seq<ReplicaID>)
    requires NoDup(nodes)
    ensures |Elems(nodes)| == |nodes|
  {
    if nodes != [] {
      NodesSize(nodes[1..]);
      assert Elems(nodes) == Elems(nodes[1..]) + {nodes[0]};
      assert nodes[0] !in nodes[1..];
    }
  }

  lemma Pigeons(a: set<nat>, b: set<nat>, n: set<nat>)
    requires a <= n && b <= n && |a| + |b| > |n|
    ensures exists x :: x in a && x in b
  {
    if a * b == {} {
      SubsetSize(a + b, n);
    }
    var x :| x in a * b;
  }

  /** The replicas behind the pre-accept phase of id: its leader and those whose replies were counted. */
  function Voters(s: Sys, id: InstanceID, counted: set<nat>): set<ReplicaID> {
    Senders(s, counted) + {id.replica}
  }

  lemma PacketFrom(s: Sys, p: Packet)
    ensures PacketSafe(s, p) ==>
        p.from in s.reps && p.from != p.msg.to && (IsReply(p.msg.body) ==> p.msg.to == p.msg.id.replica)
    ensures PacketSafe(s, p) && !IsReply(p.msg.body) ==> p.from == p.msg.id.replica
  {
  }

  lemma CountedPacket(c: Config, s: Sys, id: InstanceID, kind: nat, counted: set<nat>, i: nat)
    requires Safe(c, s) && kind in {1, 3} && counted <= Tallied(s, id, kind) && i in counted
    ensures i < |s.sent| && s.sent[i].msg.id == id && Kind(s.sent[i].msg.body) == kind
    ensures s.sent[i].msg.to == id.replica && s.sent[i].from != id.replica && s.sent[i].from in c.nodes
  {
    assert i in Tallied(s, id, kind);
    PacketHas(c, s, i);
    hide LocalSafe, Agrees, PacketSafe;
    assert PacketSafe(s, s.sent[i]) ==> s.sent[i].from in s.reps by { PacketFrom(s, s.sent[i]); }
  }

  /** Quorum soundness: every counted reply is the vote of a different follower. */
  lemma SendersDistinct(c: Config, s: Sys, id: InstanceID, kind: nat, counted: set<nat>, mode: Mode)
    requires CS(c, s, mode) && kind in {1, 3} && counted <= Tallied(s, id, kind)
    ensures Senders(s, counted) <= Elems(c.nodes) - {id.replica}
    ensures kind == 1 || mode.AtMostOnce? ==> |Senders(s, counted)| == |counted|
  {
    hide Safe, EntryCS, Tallied, PacketCS, CoverPair;
    forall i | i in counted
      ensures i < |s.sent| && s.sent[i].msg.id == id && Kind(s.sent[i].msg.body) == kind
      ensures s.sent[i].msg.to == id.replica
      ensures s.sent[i].from != id.replica && s.sent[i].from in c.nodes
    {
      CountedPacket(c, s, id, kind, counted, i);
    }
    if kind == 1 || mode.AtMostOnce? {
      forall i, j | i in counted && j in counted && i != j ensures Sender(s, i) != Sender(s, j) {
        if i < j { assert !Clash(s.sent[i], s.sent[j], mode); } else { assert !Clash(s.sent[j], s.sent[i], mode); }
      }
      SendersSize(s, counted);
    }
  }

  lemma NodeOf(c: Config, s: Sys, id: InstanceID, mode: Mode)
    requires CS(c, s, mode) && LeaderHas(s, id)
    ensures id.replica in c.nodes
  {
    hide PacketsCS, EntryCS, LocalSafe, Agrees, PacketSafe;
  }

  lemma QuorumSound(c: Config, s: Sys, id: InstanceID, counted: set<nat>, mode: Mode)
    requires CS(c, s, mode) && counted <= Tallied(s, id, 1) && LeaderHas(s, id)
    ensures Voters(s, id, counted) <= Elems(c.nodes) && |Voters(s, id, counted)| == |counted| + 1
  {
    hide CS, Tallied, Senders;
    SendersDistinct(c, s, id, 1, counted, mode);
    NodeOf(c, s, id, mode);
  }

  // ----- A vote of each voter -----

  /** Packet i is v's vote on id, and the leader's dependencies include those it stands for. */
  ghost predicate VotedAt(s: Sys, id: InstanceID, v: ReplicaID, i: nat) {
    && i < |s.sent| && s.sent[i].from == v && s.sent[i].msg.id == id && IsVote(s.sent[i].msg.body)
    && VoteDeps(s, s.sent[i]) <= LeadDeps(s, id)
  }

  lemma CountedVote(c: Config, s: Sys, id: InstanceID, counted: set<nat>, i: nat)
    requires Safe(c, s) && LeaderHas(s, id) && Tally(s, id, counted) && i in counted
    ensures VotedAt(s, id, Sender(s, i), i)
  {
    hide Safe, InitDep, InitSeq, Brings, BringsSeq;
    CountedPacket(c, s, id, 1, counted, i);
  }

  /** A counted reply shows that the leader sent PreAccepts, which is its own vote. */
  lemma OwnVote(c: Config, s: Sys, id: InstanceID, counted: set<nat>, mode: Mode)
    requires CS(c, s, mode) && LeaderHas(s, id) && counted <= Tallied(s, id, 1) && counted != {}
    ensures exists i :: VotedAt(s, id, id.replica, i)
  {
    hide Safe, EntryCS, Uniq, CoverPair, Tallied;
    var i :| i in counted;
    CountedPacket(c, s, id, 1, counted, i);
    assert PacketCS(s, s.sent[i]);
    var j :| j in s.delivered && j < |s.sent| && s.sent[j].msg.id == id && Kind(s.sent[j].msg.body) == 0;
    PacketHas(c, s, j);
    PacketFrom(s, s.sent[j]);
    assert VotedAt(s, id, id.replica, j);
  }

  lemma VoteOf(c: Config, s: Sys, id: InstanceID, counted: set<nat>, v: ReplicaID, mode: Mode)
    requires CS(c, s, mode) && LeaderHas(s, id) && Tally(s, id, counted) && counted != {} && v in Voters(s, id, counted)
    ensures exists i :: VotedAt(s, id, v, i)
  {
    hide CS, Tally, VotedAt, Tallied, Safe;
    TallyCounts(s, id, counted);
    CSSafe(c, s, mode);
    if v == id.replica {
      OwnVote(c, s, id, counted, mode);
    } else {
      var i :| i in counted && Sender(s, i) == v;
      CountedVote(c, s, id, counted, i);
    }
  }

  lemma MajorityCounts(c: Config, s: Sys, id: InstanceID, counted: set<nat>, mode: Mode)
    requires LeaderHas(s, id) && Majority(c, s, id, counted, mode)
    ensures counted <= Tallied(s, id, 1) && Quorum(c, |counted| + 1)
  {
    hide InitDep, InitSeq, Brings, BringsSeq, Tallied;
  }

  lemma OverHalf(c: Config, a: set<ReplicaID>, b: set<ReplicaID>)
    requires NoDup(c.nodes) && a <= Elems(c.nodes) && b <= Elems(c.nodes) && Quorum(c, |a|) && Quorum(c, |b|)
    ensures exists v :: v in a && v in b
  {
    hide Elems, NoDup;
    NodesSize(c.nodes);
    Pigeons(a, b, Elems(c.nodes));
  }

  /** Any two instances that have left PreAccepted have a voter in common. */
  lemma CommonVoter(c: Config, s: Sys, a: InstanceID, b: InstanceID, ca: set<nat>, cb: set<nat>, mode: Mode)
    requires CS(c, s, mode) && LeaderHas(s, a) && LeaderHas(s, b)
    requires Majority(c, s, a, ca, mode) && Majority(c, s, b, cb, mode)
    ensures exists v :: v in Voters(s, a, ca) && v in Voters(s, b, cb)
  {
    assert ConfigOK(c);
    hide Majority, CS, Voters, Quorum, Tallied, NoDup, Elems;
    MajorityCounts(c, s, a, ca, mode);
    MajorityCounts(c, s, b, cb, mode);
    QuorumSound(c, s, a, ca, mode);
    QuorumSound(c, s, b, cb, mode);
    OverHalf(c, Voters(s, a, ca), Voters(s, b, cb));
  }

  lemma TwoNodes(nodes: seq<ReplicaID>, a: ReplicaID, b: ReplicaID)
    requires a in nodes && b in nodes && a != b
    ensures |nodes| >= 2
  {
  }

  /** With a second node there is a second voter. */
  lemma SecondVoter(c: Config, s: Sys, a: InstanceID, ca: set<nat>, other: ReplicaID, mode: Mode)
    requires LeaderHas(s, a) && Majority(c, s, a, ca, mode) && a.replica in c.nodes && other in c.nodes
    requires other != a.replica
    ensures ca != {}
  {
    hide Majority, Tallied;
    MajorityCounts(c, s, a, ca, mode);
    TwoNodes(c.nodes, a.replica, other);
  }

  // ----- Cover -----

  lemma MajorityOf(c: Config, s: Sys, id: InstanceID, mode: Mode)
    requires CS(c, s, mode) && LeaderHas(s, id) && Rank(Lead(s, id).st.status) >= 2
    ensures exists counted :: Majority(c, s, id, counted, mode)
  {
    hide Safe, PacketsCS, Sorted, Majority, Tally;
    assert EntryCS(c, s, id, mode);
  }

  lemma VotesCover(c: Config, s: Sys, a: InstanceID, b: InstanceID, v: ReplicaID, i: nat, j: nat, mode: Mode)
    requires CS(c, s, mode) && VotedAt(s, a, v, i) && VotedAt(s, b, v, j) && a != b && MeetAt(s, a, b) && i < j
    ensures CoveredIn(s, LeadDeps(s, b), a)
  {
    hide Safe, EntryCS, Uniq, PacketCS, Interferes;
    assert CoverPair(s, s.sent[i], s.sent[j]);
  }

  lemma VotedOn(s: Sys, id: InstanceID, v: ReplicaID, i: nat)
    requires VotedAt(s, id, v, i)
    ensures i < |s.sent| && s.sent[i].msg.id == id
  {
  }

  lemma MeetSym(s: Sys, a: InstanceID, b: InstanceID)
    requires MeetAt(s, a, b)
    ensures MeetAt(s, b, a)
  {
    InterferesSym(LeadCmd(s, a).value, LeadCmd(s, b).value);
  }

  /** Of two interfering instances that have left PreAccepted, the one that the common voter saw
      later covers the other. */
  lemma DirectCover(c: Config, s: Sys, a: InstanceID, b: InstanceID, mode: Mode)
    requires CS(c, s, mode) && LeaderHas(s, a) && LeaderHas(s, b) && a.replica != b.replica && MeetAt(s, a, b)
    requires Rank(Lead(s, a).st.status) >= 2 && Rank(Lead(s, b).st.status) >= 2
    ensures CoveredIn(s, LeadDeps(s, b), a) || CoveredIn(s, LeadDeps(s, a), b)
  {
    hide CS, VotedAt, CoveredIn, Tally, Voters, Quorum, FastQuorum, MeetAt;
    MajorityOf(c, s, a, mode);
    MajorityOf(c, s, b, mode);
    var ca :| Majority(c, s, a, ca, mode);
    var cb :| Majority(c, s, b, cb, mode);
    CommonVoter(c, s, a, b, ca, cb, mode);
    NodeOf(c, s, a, mode);
    NodeOf(c, s, b, mode);
    SecondVoter(c, s, a, ca, b.replica, mode);
    SecondVoter(c, s, b, cb, a.replica, mode);
    var v :| v in Voters(s, a, ca) && v in Voters(s, b, cb);
    VoteOf(c, s, a, ca, v, mode);
    VoteOf(c, s, b, cb, v, mode);
    var i: nat :| VotedAt(s, a, v, i);
    var j: nat :| VotedAt(s, b, v, j);
    MeetSym(s, a, b);
    VotedOn(s, a, v, i);
    VotedOn(s, b, v, j);
    if i < j { VotesCover(c, s, a, b, v, i, j, mode); } else { VotesCover(c, s, b, a, v, j, i, mode); }
  }

  // ----- From cover to reachability -----

  lemma CoverReach(s: Sys, id: InstanceID, x: InstanceID)
    requires AllSameLeader(s) && LeaderHas(s, id) && CoveredIn(s, LeadDeps(s, id), x)
    ensures Reach(LeaderGraph(s), id, x)
  {
    hide AllSameLeader, LeaderGraph, Reach, MeetAt;
    if x in LeadDeps(s, id) {
      DepEdge(s, id, x);
      ReachEdge(LeaderGraph(s), id, x);
    } else {
      var d :| d in LeadDeps(s, id) && ShieldsIn(s, d, x);
      DepEdge(s, id, d);
      ReachEdge(LeaderGraph(s), id, d);
      ShieldMeets(s, d, x);
      SameLeaderReach(s, d, x);
      ReachTrans(LeaderGraph(s), id, d, x);
    }
  }

  /** Two interfering instances that have left PreAccepted are ordered by the dependency graph. */
  lemma Connected(c: Config, s: Sys, a: InstanceID, b: InstanceID, mode: Mode)
    requires CS(c, s, mode) && AllSameLeader(s) && LeaderHas(s, a) && LeaderHas(s, b) && a != b && MeetAt(s, a, b)
    requires Rank(Lead(s, a).st.status) >= 2 && Rank(Lead(s, b).st.status) >= 2
    ensures Reach(LeaderGraph(s), a, b) || Reach(LeaderGraph(s), b, a)
  {
    hide CS, AllSameLeader, LeaderGraph, Reach, MeetAt, CoveredIn;
    if a.replica != b.replica {
      DirectCover(c, s, a, b, mode);
      if CoveredIn(s, LeadDeps(s, b), a) { CoverReach(s, b, a); } else { CoverReach(s, a, b); }
    } else if a.num < b.num {
      SameLeaderReach(s, b, a);
    } else {
      MeetSym(s, a, b);
      SameLeaderReach(s, a, b);
    }
  }
}
