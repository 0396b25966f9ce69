/** What a commit stands for, in every run in which PreAccepts and the replies to them are
    delivered at most once and no restart loses a vote. */
module Commits {
  import opened Keys
  import opened Types
  import opened DepSlices
  import opened Graphs
  import opened Replicas
  import opened Local
  import opened System
  import opened Safety
  import opened Runs
  import opened CrashStop
  import opened CrashStopSteps
  import opened CrashStopRuns
  import opened SameLeaders
  import opened Interference
  import opened Votes

  // ----- Interference -----

  lemma SameLeaderAt(c: Config, states: seq<Sys>, steps: seq<System.Step>, k: nat)
    requires IsVoteOnceRun(c, states, steps) && k < |states|
    ensures AllSameLeader(states[k])
  {
    hide SL, AllSameLeader, Next;
    RunsSL(c, states, steps, k);
    SLAll(states[k]);
  }

  /** a and b are in the graph of the decisions with these attributes, and one reaches the other. */
  ghost predicate Linked(s: Sys, a: InstanceID, seqA: nat, depsA: seq<InstanceID>, b: InstanceID, seqB: nat,
                         depsB: seq<InstanceID>) {
    var g := LeaderGraph(s);
    && a in g && g[a] == Exec(depsA, seqA, a.replica)
    && b in g && g[b] == Exec(depsB, seqB, b.replica)
    && (Reach(g, a, b) || Reach(g, b, a))
  }

  lemma DecidedConnected(c: Config, s: Sys, a: InstanceID, b: InstanceID,
                         x: Command, seqA: nat, depsA: seq<InstanceID>, y: Command, seqB: nat, depsB: seq<InstanceID>)
    requires CS(c, s, WithRestarts) && AllSameLeader(s) && a != b && Interferes(x, y)
    requires Decided(s, a, Some(x), seqA, depsA) && Decided(s, b, Some(y), seqB, depsB)
    ensures Linked(s, a, seqA, depsA, b, seqB, depsB)
  {
    hide CS, Safe, LeaderGraph, Reach, Decided, Interferes, WellFormed, AllSameLeader;
    CSSafe(c, s, WithRestarts);
    DecidedAtLeader(c, s, a, Some(x), seqA, depsA);
    DecidedAtLeader(c, s, b, Some(y), seqB, depsB);
    InGraph(s, a);
    InGraph(s, b);
    assert MeetAt(s, a, b);
    Connected(c, s, a, b, WithRestarts);
  }

  /** The interference theorem: of two decided instances whose commands interfere, one is
      reachable from the other along dependencies. */
  lemma InterferenceTheorem(c: Config, states: seq<Sys>, steps: seq<System.Step>, k: nat, a: InstanceID, b: InstanceID,
                            x: Command, seqA: nat, depsA: seq<InstanceID>,
                            y: Command, seqB: nat, depsB: seq<InstanceID>)
    requires IsVoteOnceRun(c, states, steps) && k < |states| && a != b
    requires Decided(states[k], a, Some(x), seqA, depsA) && Decided(states[k], b, Some(y), seqB, depsB)
    requires Interferes(x, y)
    ensures Linked(states[k], a, seqA, depsA, b, seqB, depsB)
  {
    VoteOnceMode(c, states, steps);
    hide CS, IsVoteOnceRun, IsModeRun, NoRestarts, Decided, Interferes, AllSameLeader, Linked;
    ModeRunCS(c, states, steps, k, WithRestarts);
    SameLeaderAt(c, states, steps, k);
    DecidedConnected(c, states[k], a, b, x, seqA, depsA, y, seqB, depsB);
  }

  // ----- Counters -----

  /** The replicas whose replies of a kind about id were delivered. */
  function Repliers(s: Sys, id: InstanceID, kind: nat): set<ReplicaID> {
    Senders(s, Tallied(s, id, kind))
  }

  lemma RepliersSound(c: Config, s: Sys, id: InstanceID, kind: nat, mode: Mode)
    requires CS(c, s, mode) && kind in {1, 3}
    ensures Repliers(s, id, kind) <= Elems(c.nodes) - {id.replica}
    ensures kind == 1 || mode.AtMostOnce? ==> |Repliers(s, id, kind)| == |Tallied(s, id, kind)|
  {
    hide CS, Tallied, Senders;
    SendersDistinct(c, s, id, kind, Tallied(s, id, kind), mode);
  }

  lemma EntryFacts(c: Config, s: Sys, id: InstanceID, mode: Mode)
    requires CS(c, s, mode) && LeaderHas(s, id)
    ensures Sorted(Lead(s, id).st.deps) && TallyOK(c, s, id, mode)
    ensures id in s.reps[id.replica].timers ==> Lead(s, id).st.status == PreAccepted
    ensures id in s.reps[id.replica].timers <==> !Lead(s, id).timer.paused
  {
    hide PacketsCS, TallyOK, Sorted, Agrees, PacketSafe;
    assert EntryCS(c, s, id, mode);
    assert LocalSafe(id.replica, s.reps[id.replica]);
    assert LocalEntry(id.replica, s.reps[id.replica], id);
  }

  /** The counters count replicas: each is the number of distinct followers whose replies were
      delivered, that of AcceptOKs while nothing is delivered again. The slow-path timer runs exactly
      while a quorum but no fast quorum has answered, and then all answers agreed. */
  lemma CountersExact(c: Config, states: seq<Sys>, steps: seq<System.Step>, k: nat, id: InstanceID)
    requires IsVoteOnceRun(c, states, steps) && k < |states| && LeaderHas(states[k], id)
    ensures var s, inst := states[k], Lead(states[k], id);
            && (inst.st.status == PreAccepted ==>
                  inst.preAcceptReplies == |Repliers(s, id, 1)| && inst.acceptReplies == 0)
            && (IsCrashStopRun(c, states, steps) && inst.st.status == Accepted ==>
                  inst.acceptReplies == |Repliers(s, id, 3)|)
            && Repliers(s, id, 1) <= Elems(c.nodes) - {id.replica}
            && Repliers(s, id, 3) <= Elems(c.nodes) - {id.replica}
    ensures var s, inst := states[k], Lead(states[k], id);
            && (id in s.reps[id.replica].timers <==>
                  inst.st.status == PreAccepted && |Repliers(s, id, 1)| > 0
                  && 2 * (|Repliers(s, id, 1)| + 1) > |c.nodes|)
            && (id in s.reps[id.replica].timers ==> !inst.differentReplies)
  {
    var mode := if IsCrashStopRun(c, states, steps) then AtMostOnce else WithRestarts;
    VoteOnceMode(c, states, steps);
    CrashStopMode(c, states, steps);
    hide CS, Repliers, Tallied, IsVoteOnceRun, IsModeRun, IsCrashStopRun, Quorum;
    var s := states[k];
    ModeRunCS(c, states, steps, k, mode);
    RepliersSound(c, s, id, 1, mode);
    RepliersSound(c, s, id, 3, mode);
    EntryFacts(c, s, id, mode);
    QuorumSizes(c, |Repliers(s, id, 1)| + 1);
  }

  // ----- Decisions -----

  /** id was decided with the leader and the repliers of counted as voters. */
  ghost predicate Backed(c: Config, s: Sys, id: InstanceID, counted: set<nat>) {
    && counted <= Tallied(s, id, 1)
    && Voters(s, id, counted) <= Elems(c.nodes)
    && |Voters(s, id, counted)| == |counted| + 1
    && 2 * |Voters(s, id, counted)| > |c.nodes|
  }

  lemma BackedBy(c: Config, s: Sys, id: InstanceID, mode: Mode)
    requires CS(c, s, mode) && LeaderHas(s, id) && Rank(Lead(s, id).st.status) >= 2
    ensures exists counted :: Backed(c, s, id, counted) && Majority(c, s, id, counted, mode)
  {
    hide CS, Majority, Tallied, Voters, Quorum;
    MajorityOf(c, s, id, mode);
    var counted :| Majority(c, s, id, counted, mode);
    MajorityCounts(c, s, id, counted, mode);
    QuorumSound(c, s, id, counted, mode);
    QuorumSizes(c, |Voters(s, id, counted)|);
    assert Backed(c, s, id, counted);
  }

  /** Some replica voted on both a and b, each of which a majority voted on. */
  ghost predicate ShareVoter(c: Config, s: Sys, a: InstanceID, b: InstanceID) {
    exists ca, cb, v :: Backed(c, s, a, ca) && Backed(c, s, b, cb) && v in Voters(s, a, ca) && v in Voters(s, b, cb)
  }

  lemma BothBacked(c: Config, s: Sys, a: InstanceID, b: InstanceID, mode: Mode)
    requires CS(c, s, mode) && LeaderHas(s, a) && LeaderHas(s, b)
    requires Rank(Lead(s, a).st.status) >= 2 && Rank(Lead(s, b).st.status) >= 2
    ensures ShareVoter(c, s, a, b)
  {
    hide CS, Majority, Voters, Backed;
    BackedBy(c, s, a, mode);
    BackedBy(c, s, b, mode);
    var ca :| Backed(c, s, a, ca) && Majority(c, s, a, ca, mode);
    var cb :| Backed(c, s, b, cb) && Majority(c, s, b, cb, mode);
    CommonVoter(c, s, a, b, ca, cb, mode);
  }

  lemma DecidedShare(c: Config, s: Sys, a: InstanceID, b: InstanceID,
                     x: Option<Command>, seqA: nat, depsA: seq<InstanceID>,
                     y: Option<Command>, seqB: nat, depsB: seq<InstanceID>)
    requires CS(c, s, WithRestarts) && Decided(s, a, x, seqA, depsA) && Decided(s, b, y, seqB, depsB)
    ensures ShareVoter(c, s, a, b)
  {
    hide CS, Safe, Decided, ShareVoter, WellFormed;
    CSSafe(c, s, WithRestarts);
    DecidedAtLeader(c, s, a, x, seqA, depsA);
    DecidedAtLeader(c, s, b, y, seqB, depsB);
    BothBacked(c, s, a, b, WithRestarts);
  }

  /** Quorum soundness: any two decided instances were voted on by majorities of distinct
      replicas, and some replica voted on both. */
  lemma DecisionsShareVoter(c: Config, states: seq<Sys>, steps: seq<System.Step>, k: nat, a: InstanceID, b: InstanceID,
                            x: Option<Command>, seqA: nat, depsA: seq<InstanceID>,
                            y: Option<Command>, seqB: nat, depsB: seq<InstanceID>)
    requires IsVoteOnceRun(c, states, steps) && k < |states|
    requires Decided(states[k], a, x, seqA, depsA) && Decided(states[k], b, y, seqB, depsB)
    ensures ShareVoter(c, states[k], a, b)
  {
    VoteOnceMode(c, states, steps);
    hide CS, IsVoteOnceRun, IsModeRun, NoRestarts, Decided, ShareVoter;
    ModeRunCS(c, states, steps, k, WithRestarts);
    DecidedShare(c, states[k], a, b, x, seqA, depsA, y, seqB, depsB);
  }

  /** Attributes seqNum and deps are the join of those of the PreAccepts and the counted replies. */
  ghost predicate Join(s: Sys, id: InstanceID, counted: set<nat>, seqNum: nat, deps: seq<InstanceID>) {
    && Sorted(deps)
    && (forall d :: d in deps <==> InitDep(s, id, d) || exists i :: i in counted && Brings(s, i, d))
    && (InitSeq(s, id, seqNum) || exists i :: i in counted && BringsSeq(s, i, seqNum))
    && (forall i :: i in counted && ReplyAt(s, i) ==> s.sent[i].msg.body.seqNum <= seqNum)
    && (forall i :: 0 <= i < |s.sent| && s.sent[i].msg.id == id && s.sent[i].msg.body.PreAccept?
          ==> s.sent[i].msg.body.seqNum <= seqNum)
  }

  /** The PreAccepts of id carry at most the attributes at the leader. */
  ghost predicate PreBelow(s: Sys, id: InstanceID)
    requires LeaderHas(s, id)
  {
    forall i :: 0 <= i < |s.sent| && s.sent[i].msg.id == id && s.sent[i].msg.body.PreAccept? ==>
      Elems(s.sent[i].msg.body.deps) <= Elems(Lead(s, id).st.deps) && s.sent[i].msg.body.seqNum <= Lead(s, id).st.seqNum
  }

  lemma PreBounds(c: Config, s: Sys, id: InstanceID, mode: Mode)
    requires CS(c, s, mode) && LeaderHas(s, id)
    ensures PreBelow(s, id)
  {
    hide EntryCS, PacketsCS, Safe, Sorted;
    forall i | 0 <= i < |s.sent| && s.sent[i].msg.id == id && s.sent[i].msg.body.PreAccept?
      ensures Elems(s.sent[i].msg.body.deps) <= Elems(Lead(s, id).st.deps)
      ensures s.sent[i].msg.body.seqNum <= Lead(s, id).st.seqNum
    {
      PreAcceptFacts(c, s, i, mode);
    }
  }

  lemma JoinDep(s: Sys, id: InstanceID, counted: set<nat>, j: nat, d: InstanceID)
    requires LeaderHas(s, id) && Tally(s, id, counted) && PreBelow(s, id)
    requires j < |s.sent| && s.sent[j].msg.id == id && s.sent[j].msg.body.PreAccept?
    ensures d in Lead(s, id).st.deps <==> InitDep(s, id, d) || exists i :: i in counted && Brings(s, i, d)
  {
    hide InitSeq, BringsSeq, Tallied;
    var deps := Lead(s, id).st.deps;
    if InitDep(s, id, d) {
      assert d in Elems(s.sent[j].msg.body.deps);
      assert d in Elems(deps);
    }
    if i :| i in counted && Brings(s, i, d) {
      assert d in Elems(s.sent[i].msg.body.deps);
      assert d in Elems(deps);
    }
  }

  lemma JoinSeq(s: Sys, id: InstanceID, counted: set<nat>)
    requires LeaderHas(s, id) && Tally(s, id, counted)
    ensures var n := Lead(s, id).st.seqNum;
            && (InitSeq(s, id, n) || exists i :: i in counted && BringsSeq(s, i, n))
            && (forall i :: i in counted && ReplyAt(s, i) ==> s.sent[i].msg.body.seqNum <= n)
  {
    hide InitSeq, BringsSeq, Tallied, InitDep, Brings;
  }

  lemma TallyJoin(c: Config, s: Sys, id: InstanceID, counted: set<nat>, j: nat, mode: Mode)
    requires CS(c, s, mode) && LeaderHas(s, id) && Tally(s, id, counted)
    requires j < |s.sent| && s.sent[j].msg.id == id && s.sent[j].msg.body.PreAccept?
    ensures Join(s, id, counted, Lead(s, id).st.seqNum, Lead(s, id).st.deps)
  {
    hide CS, Tally, TallyOK, Sorted, InitDep, Brings, InitSeq, BringsSeq;
    EntryFacts(c, s, id, mode);
    PreBounds(c, s, id, mode);
    JoinSeq(s, id, counted);
    forall d ensures d in Lead(s, id).st.deps <==> InitDep(s, id, d) || exists i :: i in counted && Brings(s, i, d) {
      JoinDep(s, id, counted, j, d);
    }
  }

  lemma LeaderStatus(c: Config, s: Sys, id: InstanceID)
    requires Safe(c, s) && LeaderHas(s, id)
    ensures Lead(s, id).st.status != NoStatus
  {
    hide Safe, WellFormed;
    LeaderOwn(c, s, id);
  }

  lemma LeaderTally(c: Config, s: Sys, id: InstanceID, mode: Mode) returns (counted: set<nat>)
    requires CS(c, s, mode) && LeaderHas(s, id)
    ensures Tally(s, id, counted) && (Lead(s, id).st.status == PreAccepted ==> counted == Tallied(s, id, 1))
    ensures Lead(s, id).st.status == PreAccepted || !mode.WithRestarts? ==>
              (Lead(s, id).differentReplies <==> AnyReply(s, counted))
  {
    hide CS, Safe, Tally, Tallied, Sorted, Quorum, FastQuorum, AnyReply, AcceptSent;
    EntryFacts(c, s, id, mode);
    CSSafe(c, s, mode);
    LeaderStatus(c, s, id);
    if Lead(s, id).st.status == PreAccepted {
      counted := Tallied(s, id, 1);
    } else {
      counted :| Majority(c, s, id, counted, mode);
    }
  }

  /** Slow-path attributes: at every moment the leader's dependencies are the sorted union,
      and its sequence number the maximum, of those of its PreAccepts and of the counted
      replies; before the decision those are all the replies delivered. As long as nobody has
      restarted, differentReplies tells whether any of them was a PreAcceptReply. */
  lemma LeaderAttributes(c: Config, states: seq<Sys>, steps: seq<System.Step>, k: nat, id: InstanceID, j: nat)
    requires IsVoteOnceRun(c, states, steps) && k < |states| && LeaderHas(states[k], id)
    requires j < |states[k].sent| && states[k].sent[j].msg.id == id && states[k].sent[j].msg.body.PreAccept?
    ensures var s, st := states[k], Lead(states[k], id).st;
            exists counted :: counted <= Tallied(s, id, 1) && Join(s, id, counted, st.seqNum, st.deps)
                              && (st.status == PreAccepted ==> counted == Tallied(s, id, 1))
                              && (st.status == PreAccepted || NoRestarts(steps) ==>
                                    (Lead(s, id).differentReplies <==> AnyReply(s, counted)))
  {
    var mode := if NoRestarts(steps) then VotesOnce else WithRestarts;
    VoteOnceMode(c, states, steps);
    hide CS, Join, IsVoteOnceRun, IsModeRun, Tallied, AnyReply, NoRestarts;
    var s := states[k];
    ModeRunCS(c, states, steps, k, mode);
    var counted := LeaderTally(c, s, id, mode);
    TallyJoin(c, s, id, counted, j, mode);
    TallyCounts(s, id, counted);
  }

  // ----- The fast path -----

  /** Attributes that no counted reply changed are those of the PreAccepts. */
  lemma Unchanged(c: Config, s: Sys, id: InstanceID, counted: set<nat>, j: nat, mode: Mode)
    requires CS(c, s, mode) && LeaderHas(s, id) && Tally(s, id, counted) && !AnyReply(s, counted)
    requires j < |s.sent| && s.sent[j].msg.id == id && s.sent[j].msg.body.PreAccept?
    ensures s.sent[j].msg.body == PreAccept(Lead(s, id).st.cmd, Lead(s, id).st.seqNum, Lead(s, id).st.deps)
  {
    hide Safe, PacketsCS, EntryCS, Tally, TallyOK, Sorted;
    StillInitial(c, s, id, counted, j, mode);
    PreAcceptFacts(c, s, j, mode);
    EntryFacts(c, s, id, mode);
    SortedUnique(s.sent[j].msg.body.deps, Lead(s, id).st.deps);
  }

  lemma FastVotes(c: Config, s: Sys, id: InstanceID, counted: set<nat>, i: nat)
    requires Safe(c, s) && LeaderHas(s, id) && Tally(s, id, counted) && i in counted
    ensures i < |s.sent|
    ensures !AnyReply(s, counted) ==> s.sent[i].msg.body == PreAcceptOK
  {
    hide Safe, InitDep, InitSeq, Brings, BringsSeq;
    CountedPacket(c, s, id, 1, counted, i);
    assert !ReplyAt(s, i) ==> s.sent[i].msg.body == PreAcceptOK;
  }

  /** The fast-path votes on id, all but at most one of the possible ones. */
  ghost predicate FastBacked(c: Config, s: Sys, id: InstanceID, counted: set<nat>) {
    && Backed(c, s, id, counted)
    && |Voters(s, id, counted)| >= |c.nodes| - 1
    && forall i :: i in counted ==> i < |s.sent| && s.sent[i].msg.body == PreAcceptOK
  }

  /** How a decision shows that it was taken on the fast path: no Accept was sent, or, if every packet is delivered
      at most once, there is no quorum of AcceptOKs. */
  ghost predicate NoSlowPath(c: Config, s: Sys, id: InstanceID, mode: Mode) {
    !AcceptSent(s, id) || (mode.AtMostOnce? && !Quorum(c, |Repliers(s, id, 3)| + 1))
  }

  lemma FastMajority(c: Config, s: Sys, id: InstanceID, counted: set<nat>, mode: Mode)
    requires LeaderHas(s, id) && Majority(c, s, id, counted, mode) && IsCommitted(Lead(s, id).st.status)
    requires !AcceptSent(s, id) || (mode.AtMostOnce? && !Quorum(c, |Tallied(s, id, 3)| + 1))
    ensures Tally(s, id, counted) && Fast(c, s, counted)
  {
    hide Tally, Tallied, AcceptSent, Fast;
  }

  lemma FastState(c: Config, s: Sys, id: InstanceID, counted: set<nat>, mode: Mode)
    requires CS(c, s, mode) && LeaderHas(s, id) && IsCommitted(Lead(s, id).st.status) && NoSlowPath(c, s, id, mode)
    requires Majority(c, s, id, counted, mode) && Backed(c, s, id, counted)
    ensures FastBacked(c, s, id, counted) && Tally(s, id, counted) && !AnyReply(s, counted)
  {
    hide CS, Safe, Majority, Tally, Tallied, Voters, Quorum, FastQuorum, Repliers, Elems, AcceptSent, AnyReply;
    assert |Voters(s, id, counted)| == |counted| + 1;
    QuorumSizes(c, |counted| + 1);
    hide Backed;
    RepliersSound(c, s, id, 3, mode);
    FastMajority(c, s, id, counted, mode);
    CSSafe(c, s, mode);
    forall i | i in counted
      ensures i < |s.sent| && s.sent[i].msg.body == PreAcceptOK
    {
      FastVotes(c, s, id, counted, i);
    }
  }

  predicate HeldAt(s: Sys, v: ReplicaID, id: InstanceID, st: InstanceState) {
    v in s.reps && id in s.reps[v].log && s.reps[v].log[id].st == st
  }

  /** At some time up to k, v held id in this state. */
  ghost predicate HeldBefore(states: seq<Sys>, k: nat, v: ReplicaID, id: InstanceID, st: InstanceState) {
    exists j :: 0 <= j <= k && j < |states| && HeldAt(states[j], v, id, st)
  }

  lemma SenderAt(c: Config, s: Sys, id: InstanceID, counted: set<nat>, v: ReplicaID) returns (i: nat)
    requires FastBacked(c, s, id, counted) && v in Senders(s, counted)
    ensures i < |s.sent| && s.sent[i].from == v && s.sent[i].msg.id == id && s.sent[i].msg.body == PreAcceptOK
  {
    i :| i in counted && Sender(s, i) == v;
  }

  lemma FastVoterHeld(c: Config, states: seq<Sys>, steps: seq<System.Step>, k: nat, i: nat,
                      cmd: Option<Command>, seqNum: nat, deps: seq<InstanceID>, mode: Mode)
    requires IsModeRun(c, states, steps, mode) && k < |states|
    requires i < |states[k].sent| && states[k].sent[i].msg.body == PreAcceptOK
    requires var s, id := states[k], states[k].sent[i].msg.id;
             forall j :: 0 <= j < |s.sent| && s.sent[j].msg.id == id && s.sent[j].msg.body.PreAccept?
               ==> s.sent[j].msg.body == PreAccept(cmd, seqNum, deps)
    ensures HeldBefore(states, k, states[k].sent[i].from, states[k].sent[i].msg.id,
                       InstanceState(PreAccepted, cmd, seqNum, deps))
  {
    hide IsModeRun;
    var j, n := OKRecorded(c, states, steps, k, i, mode);
    assert states[k].sent[n] == states[j].sent[n];
    assert HeldAt(states[j + 1], states[k].sent[i].from, states[k].sent[i].msg.id,
                  InstanceState(PreAccepted, cmd, seqNum, deps));
  }

  /** Fast-path exactness: an instance that was decided without Accepts, or without a quorum of
      AcceptOKs where every packet is delivered at most once, was decided by the leader and followers
      that answered PreAcceptOK, in all at most one node short of all, with exactly the attributes of its
      PreAccepts, and each of these followers once held the command pre-accepted with exactly these attributes. */
  lemma FastPathExact(c: Config, states: seq<Sys>, steps: seq<System.Step>, k: nat, id: InstanceID,
                      cmd: Option<Command>, seqNum: nat, deps: seq<InstanceID>)
    requires IsVoteOnceRun(c, states, steps) && k < |states| && Decided(states[k], id, cmd, seqNum, deps)
    requires || !AcceptSent(states[k], id)
             || (IsCrashStopRun(c, states, steps) && 2 * (|Repliers(states[k], id, 3)| + 1) <= |c.nodes|)
    ensures exists counted ::
              && FastBacked(c, states[k], id, counted)
              && forall v :: v in Senders(states[k], counted) ==>
                   HeldBefore(states, k, v, id, InstanceState(PreAccepted, cmd, seqNum, deps))
    ensures var s := states[k];
            forall j :: 0 <= j < |s.sent| && s.sent[j].msg.id == id && s.sent[j].msg.body.PreAccept? ==>
              s.sent[j].msg.body == PreAccept(cmd, seqNum, deps)
  {
    var mode := if IsCrashStopRun(c, states, steps) then AtMostOnce else WithRestarts;
    VoteOnceMode(c, states, steps);
    CrashStopMode(c, states, steps);
    assert NoSlowPath(c, states[k], id, mode);
    hide IsVoteOnceRun, NoRestarts, NoSlowPath, CS, Safe, IsCrashStopRun, IsModeRun, Decided, Majority, Quorum,
         Repliers, Backed, FastBacked, Tally, WellFormed, HeldBefore, Senders, AcceptSent, AnyReply;
    var s := states[k];
    ModeRunCS(c, states, steps, k, mode);
    CSSafe(c, s, mode);
    DecidedAtLeader(c, s, id, cmd, seqNum, deps);
    BackedBy(c, s, id, mode);
    var counted :| Backed(c, s, id, counted) && Majority(c, s, id, counted, mode);
    FastState(c, s, id, counted, mode);
    forall j | 0 <= j < |s.sent| && s.sent[j].msg.id == id && s.sent[j].msg.body.PreAccept?
      ensures s.sent[j].msg.body == PreAccept(cmd, seqNum, deps)
    {
      Unchanged(c, s, id, counted, j, mode);
    }
    forall v | v in Senders(s, counted)
      ensures HeldBefore(states, k, v, id, InstanceState(PreAccepted, cmd, seqNum, deps))
    {
      var i := SenderAt(c, s, id, counted, v);
      FastVoterHeld(c, states, steps, k, i, cmd, seqNum, deps, mode);
    }
  }
}
