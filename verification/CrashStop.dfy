/** Invariants of runs in which every PreAccept and every reply to one is delivered at most
    once and no restart loses a vote: who voted, what was counted, and what each vote knew. */
module CrashStop {
  import opened Keys
  import opened Types
  import opened DepSlices
  import opened Graphs
  import opened Replicas
  import opened Local
  import opened System
  import opened Safety

  /** Every packet is delivered at most once and nobody restarts; or only PreAccepts and replies to
      them are delivered at most once, and nobody restarts; or replicas may restart, too. */
  datatype Mode = AtMostOnce | VotesOnce | WithRestarts

  // ----- Packets -----

  function Kind(b: Body): nat {
    match b
    case PreAccept(_, _, _) => 0
    case PreAcceptOK => 1
    case PreAcceptReply(_, _) => 1
    case Accept(_, _) => 2
    case AcceptOK => 3
    case Commit(_, _, _) => 4
  }

  /** p and q are the same message of the protocol. */
  predicate SameSlot(p: Packet, q: Packet) {
    p.from == q.from && p.msg.to == q.msg.to && p.msg.id == q.msg.id && Kind(p.msg.body) == Kind(q.msg.body)
  }

  /** p and q should not both be sent: only packets that follow the PreAccept round are sent again. */
  predicate Clash(p: Packet, q: Packet, mode: Mode) {
    SameSlot(p, q) && (mode.AtMostOnce? || Kind(p.msg.body) < 2)
  }

  ghost predicate Uniq(s: Sys, mode: Mode) {
    forall i, j :: 0 <= i < j < |s.sent| ==> !Clash(s.sent[i], s.sent[j], mode)
  }

  /** Position i may be delivered now. */
  predicate MayDeliver(s: Sys, i: nat, mode: Mode) {
    i < |s.sent| && (i in s.delivered ==> !mode.AtMostOnce? && Kind(s.sent[i].msg.body) >= 2)
  }

  /** A message of the given kind about id was delivered to r. */
  ghost predicate Got(s: Sys, r: ReplicaID, id: InstanceID, kind: nat) {
    exists j :: j in s.delivered && j < |s.sent|
                && s.sent[j].msg.to == r && s.sent[j].msg.id == id && Kind(s.sent[j].msg.body) == kind
  }

  /** A vote on an instance: the leader's own, or a follower's reply. */
  predicate IsVote(b: Body) {
    Kind(b) == 0 || Kind(b) == 1
  }

  /** The sender of a vote knows the command it voted on. */
  predicate Knows(s: Sys, r: ReplicaID, id: InstanceID) {
    r in s.reps && id in s.reps[r].log && s.reps[r].log[id].st.cmd.Some?
  }

  function LeadDeps(s: Sys, id: InstanceID): set<InstanceID> {
    if LeaderHas(s, id) then Elems(Lead(s, id).st.deps) else {}
  }

  function LeadCmd(s: Sys, id: InstanceID): Option<Command> {
    if LeaderHas(s, id) then Lead(s, id).st.cmd else None
  }

  predicate Exceeds(reply: Body, pa: Body)
    requires reply.PreAcceptReply? && pa.PreAccept?
  {
    && pa.seqNum <= reply.seqNum && Elems(pa.deps) <= Elems(reply.deps)
    && (pa.seqNum < reply.seqNum || Elems(pa.deps) != Elems(reply.deps))
  }

  /** A PreAcceptReply has a larger sequence number or more dependencies than the PreAccept it answers. */
  ghost predicate HasNews(s: Sys, id: InstanceID, reply: Body)
    requires reply.PreAcceptReply?
  {
    exists j :: 0 <= j < |s.sent| && s.sent[j].msg.id == id && s.sent[j].msg.body.PreAccept?
                && Exceeds(reply, s.sent[j].msg.body)
  }

  ghost predicate PacketCS(s: Sys, p: Packet) {
    && (Kind(p.msg.body) == 1 ==> Got(s, p.from, p.msg.id, 0))
    && (Kind(p.msg.body) == 3 ==> Got(s, p.from, p.msg.id, 2))
    && (IsVote(p.msg.body) ==> Knows(s, p.from, p.msg.id))
    && (p.msg.body.PreAccept? ==>
          Sorted(p.msg.body.deps) && Elems(p.msg.body.deps) <= LeadDeps(s, p.msg.id)
          && LeaderHas(s, p.msg.id) && p.msg.body.seqNum <= Lead(s, p.msg.id).st.seqNum)
    && (p.msg.body.PreAcceptReply? ==> Sorted(p.msg.body.deps) && HasNews(s, p.msg.id, p.msg.body))
  }

  // ----- Cover -----

  predicate MeetAt(s: Sys, a: InstanceID, b: InstanceID) {
    LeadCmd(s, a).Some? && LeadCmd(s, b).Some? && Interferes(LeadCmd(s, a).value, LeadCmd(s, b).value)
  }

  /** d is a later write of the same replica that interferes with id. */
  predicate ShieldsIn(s: Sys, d: InstanceID, id: InstanceID) {
    && d.replica == id.replica && d.num > id.num
    && LeadCmd(s, d).Some? && LeadCmd(s, id).Some?
    && LeadCmd(s, d).value.writing
    && Overlaps(LeadCmd(s, d).value.span, LeadCmd(s, id).value.span)
  }

  ghost predicate CoveredIn(s: Sys, deps: set<InstanceID>, id: InstanceID) {
    id in deps || exists d :: d in deps && ShieldsIn(s, d, id)
  }

  /** The dependencies that a vote stands for. */
  function VoteDeps(s: Sys, p: Packet): set<InstanceID> {
    if p.msg.body.PreAcceptReply? then Elems(p.msg.body.deps) else LeadDeps(s, p.msg.id)
  }

  /** A replica that votes first on one and later on the other of two interfering
      instances covers the first by the dependencies of the second. */
  ghost predicate CoverPair(s: Sys, p: Packet, q: Packet) {
    IsVote(p.msg.body) && IsVote(q.msg.body) && p.from == q.from && p.msg.id != q.msg.id
    && MeetAt(s, p.msg.id, q.msg.id)
    ==> CoveredIn(s, VoteDeps(s, q), p.msg.id)
  }

  ghost predicate PacketsCS(s: Sys, mode: Mode) {
    && Uniq(s, mode)
    && (forall i :: 0 <= i < |s.sent| ==> PacketCS(s, s.sent[i]))
    && (forall i, j :: 0 <= i < j < |s.sent| ==> CoverPair(s, s.sent[i], s.sent[j]))
  }

  // ----- Growth -----

  /** What only grows, now that nothing is lost. */
  ghost predicate Grow(s: Sys, s': Sys) {
    && Keep(s, s')
    && s.sent <= s'.sent
    && s.delivered <= s'.delivered
    && (forall r, id :: Knows(s, r, id) ==> Knows(s', r, id))
    && (forall id :: LeaderHas(s, id) ==>
          LeadDeps(s, id) <= LeadDeps(s', id) && Lead(s, id).st.seqNum <= Lead(s', id).st.seqNum)
  }

  lemma CmdGrows(s: Sys, s': Sys, id: InstanceID)
    requires Keep(s, s')
    ensures LeadCmd(s, id).Some? ==> LeadCmd(s', id) == LeadCmd(s, id)
    ensures LeaderHas(s, id) ==> LeadCmd(s', id) == LeadCmd(s, id)
  {
  }

  lemma CoveredGrows(s: Sys, s': Sys, deps: set<InstanceID>, deps': set<InstanceID>, id: InstanceID)
    requires Keep(s, s') && CoveredIn(s, deps, id) && deps <= deps'
    ensures CoveredIn(s', deps', id)
  {
    if id !in deps {
      hide Keep;
      var d :| d in deps && ShieldsIn(s, d, id);
      CmdGrows(s, s', d);
      CmdGrows(s, s', id);
      assert ShieldsIn(s', d, id);
    }
  }

  lemma GotGrows(s: Sys, s': Sys, r: ReplicaID, id: InstanceID, kind: nat)
    requires Got(s, r, id, kind) && s.sent <= s'.sent && s.delivered <= s'.delivered
    ensures Got(s', r, id, kind)
  {
    var j :| j in s.delivered && j < |s.sent|
             && s.sent[j].msg.to == r && s.sent[j].msg.id == id && Kind(s.sent[j].msg.body) == kind;
    assert s'.sent[j] == s.sent[j];
  }

  lemma NewsGrows(s: Sys, s': Sys, id: InstanceID, reply: Body)
    requires reply.PreAcceptReply? && HasNews(s, id, reply) && s.sent <= s'.sent
    ensures HasNews(s', id, reply)
  {
    var j :| 0 <= j < |s.sent| && s.sent[j].msg.id == id && s.sent[j].msg.body.PreAccept?
             && Exceeds(reply, s.sent[j].msg.body);
    assert s'.sent[j] == s.sent[j];
  }

  lemma PacketGrows(s: Sys, s': Sys, p: Packet)
    requires PacketCS(s, p) && Grow(s, s')
    ensures PacketCS(s', p)
  {
    hide Got, Sorted, Knows, LeadStep, HasNews;
    if p.msg.body.PreAcceptReply? { NewsGrows(s, s', p.msg.id, p.msg.body); }
    if Kind(p.msg.body) == 1 { GotGrows(s, s', p.from, p.msg.id, 0); }
    if Kind(p.msg.body) == 3 { GotGrows(s, s', p.from, p.msg.id, 2); }
  }

  lemma PairGrows(s: Sys, s': Sys, p: Packet, q: Packet)
    requires CoverPair(s, p, q) && Grow(s, s') && LeaderHas(s, p.msg.id) && LeaderHas(s, q.msg.id)
    ensures CoverPair(s', p, q)
  {
    hide CoveredIn, Knows, Interferes, LeadStep;
    if IsVote(p.msg.body) && IsVote(q.msg.body) && p.from == q.from && p.msg.id != q.msg.id
       && MeetAt(s', p.msg.id, q.msg.id) {
      CmdGrows(s, s', p.msg.id);
      CmdGrows(s, s', q.msg.id);
      CoveredGrows(s, s', VoteDeps(s, q), VoteDeps(s', q), p.msg.id);
    }
  }

  /** What a step must show of the packets it sends. */
  ghost predicate NewPackets(s: Sys, s': Sys, r: ReplicaID, out: seq<Message>, mode: Mode) {
    && (forall m :: m in out ==> PacketCS(s', Packet(r, m)))
    && (forall i, m :: 0 <= i < |s.sent| && m in out ==> !Clash(s.sent[i], Packet(r, m), mode))
    && (forall a, b :: 0 <= a < b < |out| ==>
          && !Clash(Packet(r, out[a]), Packet(r, out[b]), mode)
          && CoverPair(s', Packet(r, out[a]), Packet(r, out[b])))
    && (forall i, m :: 0 <= i < |s.sent| && m in out ==> CoverPair(s', s.sent[i], Packet(r, m)))
  }

  lemma UniqGrows(s: Sys, s': Sys, r: ReplicaID, out: seq<Message>, mode: Mode)
    requires Uniq(s, mode) && s'.sent == s.sent + Packets(r, out) && NewPackets(s, s', r, out, mode)
    ensures Uniq(s', mode)
  {
    hide PacketCS, CoverPair, Clash;
    forall i, j | 0 <= i < j < |s'.sent| ensures !Clash(s'.sent[i], s'.sent[j], mode) {
      var n := |s.sent|;
      if j >= n {
        assert s'.sent[j] == Packet(r, out[j - n]) && out[j - n] in out;
        if i >= n { assert s'.sent[i] == Packet(r, out[i - n]); }
      }
    }
  }

  lemma PacketHas(c: Config, s: Sys, i: nat)
    requires Safe(c, s) && i < |s.sent|
    ensures PacketSafe(s, s.sent[i]) && LeaderHas(s, s.sent[i].msg.id)
  {
    hide LocalSafe, Agrees;
    assert PacketSafe(s, s.sent[i]);
  }

  lemma PacketsGrow(c: Config, s: Sys, s': Sys, r: ReplicaID, out: seq<Message>, mode: Mode)
    requires Safe(c, s) && PacketsCS(s, mode) && Grow(s, s')
    requires s'.sent == s.sent + Packets(r, out) && NewPackets(s, s', r, out, mode)
    ensures PacketsCS(s', mode)
  {
    hide Safe, PacketCS, CoverPair, Clash, Grow;
    UniqGrows(s, s', r, out, mode);
    var n := |s.sent|;
    forall i | 0 <= i < |s'.sent| ensures PacketCS(s', s'.sent[i]) {
      if i < n {
        PacketGrows(s, s', s.sent[i]);
      } else {
        assert s'.sent[i] == Packet(r, out[i - n]) && out[i - n] in out;
      }
    }
    forall i, j | 0 <= i < j < |s'.sent| ensures CoverPair(s', s'.sent[i], s'.sent[j]) {
      if j < n {
        PacketHas(c, s, i);
        PacketHas(c, s, j);
        PairGrows(s, s', s.sent[i], s.sent[j]);
      } else if i < n {
        assert s'.sent[j] == Packet(r, out[j - n]) && out[j - n] in out;
      } else {
        assert s'.sent[j] == Packet(r, out[j - n]) && s'.sent[i] == Packet(r, out[i - n]);
      }
    }
  }

  lemma SameIdPair(s: Sys, p: Packet, q: Packet)
    requires p.msg.id == q.msg.id
    ensures CoverPair(s, p, q)
  {
  }

  // ----- What the command leader has counted -----

  /** The delivered replies of a kind about id. */
  function Tallied(s: Sys, id: InstanceID, kind: nat): set<nat> {
    set i | i in s.delivered && i < |s.sent| && s.sent[i].msg.id == id && Kind(s.sent[i].msg.body) == kind
  }

  /** d was a dependency of the PreAccepts of id. */
  ghost predicate InitDep(s: Sys, id: InstanceID, d: InstanceID) {
    forall i :: 0 <= i < |s.sent| && s.sent[i].msg.id == id && s.sent[i].msg.body.PreAccept? ==>
      d in s.sent[i].msg.body.deps
  }

  ghost predicate InitSeq(s: Sys, id: InstanceID, n: nat) {
    forall i :: 0 <= i < |s.sent| && s.sent[i].msg.id == id && s.sent[i].msg.body.PreAccept? ==>
      n == s.sent[i].msg.body.seqNum
  }

  predicate ReplyAt(s: Sys, i: nat) {
    i < |s.sent| && s.sent[i].msg.body.PreAcceptReply?
  }

  predicate Brings(s: Sys, i: nat, d: InstanceID) {
    ReplyAt(s, i) && d in s.sent[i].msg.body.deps
  }

  predicate BringsSeq(s: Sys, i: nat, n: nat) {
    ReplyAt(s, i) && s.sent[i].msg.body.seqNum == n
  }

  /** The attributes at the leader are the initial ones joined with those of the counted replies. */
  ghost predicate Tally(s: Sys, id: InstanceID, counted: set<nat>)
    requires LeaderHas(s, id)
  {
    var inst := Lead(s, id);
    && counted <= Tallied(s, id, 1)
    && (forall i :: i in counted && ReplyAt(s, i) ==>
          Elems(s.sent[i].msg.body.deps) <= Elems(inst.st.deps) && s.sent[i].msg.body.seqNum <= inst.st.seqNum)
    && (forall d :: d in inst.st.deps ==> InitDep(s, id, d) || exists i :: i in counted && Brings(s, i, d))
    && (InitSeq(s, id, inst.st.seqNum) || exists i :: i in counted && BringsSeq(s, i, inst.st.seqNum))
  }

  /** Some counted reply differed. */
  ghost predicate AnyReply(s: Sys, counted: set<nat>) {
    exists i :: i in counted && ReplyAt(s, i)
  }

  /** An Accept of id was sent. */
  ghost predicate AcceptSent(s: Sys, id: InstanceID) {
    exists i :: 0 <= i < |s.sent| && s.sent[i].msg.id == id && s.sent[i].msg.body.Accept?
  }

  /** The counted votes suffice for the fast path. */
  ghost predicate Fast(c: Config, s: Sys, counted: set<nat>) {
    !AnyReply(s, counted) && FastQuorum(c, |counted| + 1)
  }

  /** Enough votes were counted before an instance left PreAccepted. */
  ghost predicate Majority(c: Config, s: Sys, id: InstanceID, counted: set<nat>, mode: Mode)
    requires LeaderHas(s, id)
  {
    && Tally(s, id, counted)
    && Quorum(c, |counted| + 1)
    && (!mode.WithRestarts? ==> (Lead(s, id).differentReplies <==> AnyReply(s, counted)))
    && (IsCommitted(Lead(s, id).st.status) ==> AcceptSent(s, id) || Fast(c, s, counted))
    && (mode.AtMostOnce? && IsCommitted(Lead(s, id).st.status) ==>
          Quorum(c, |Tallied(s, id, 3)| + 1) || Fast(c, s, counted))
  }

  ghost predicate TallyOK(c: Config, s: Sys, id: InstanceID, mode: Mode)
    requires LeaderHas(s, id)
  {
    var inst := Lead(s, id);
    && (inst.st.status == PreAccepted ==>
          && Tally(s, id, Tallied(s, id, 1)) && (inst.differentReplies <==> AnyReply(s, Tallied(s, id, 1)))
          && inst.preAcceptReplies == |Tallied(s, id, 1)| && inst.acceptReplies == 0
          && (!inst.timer.paused <==> inst.preAcceptReplies > 0 && Quorum(c, inst.preAcceptReplies + 1))
          && (!inst.timer.paused ==> !inst.differentReplies))
    && (inst.st.status == Accepted ==> AcceptSent(s, id))
    && (mode.AtMostOnce? && inst.st.status == Accepted ==> inst.acceptReplies == |Tallied(s, id, 3)|)
    && (Rank(inst.st.status) >= 2 ==> exists counted :: Majority(c, s, id, counted, mode))
  }

  ghost predicate EntryCS(c: Config, s: Sys, id: InstanceID, mode: Mode)
    requires LeaderHas(s, id)
  {
    Sorted(Lead(s, id).st.deps) && TallyOK(c, s, id, mode)
  }

  ghost predicate CS(c: Config, s: Sys, mode: Mode) {
    && ConfigOK(c)
    && Safe(c, s)
    && PacketsCS(s, mode)
    && forall id :: LeaderHas(s, id) ==> EntryCS(c, s, id, mode)
  }

  // ----- Entries that a step leaves alone -----

  /** Nothing the invariant looks at changed, except that a committed instance may have executed. */
  predicate CoreSame(a: Instance, b: Instance) {
    && Advances(a.st, b.st)
    && a.preAcceptReplies == b.preAcceptReplies && a.differentReplies == b.differentReplies
    && a.acceptReplies == b.acceptReplies && a.timer.paused == b.timer.paused
  }

  predicate SameTallied(a: Instance, b: Instance) {
    a.st.seqNum == b.st.seqNum && a.st.deps == b.st.deps
  }

  /** The packets of a step are not PreAccepts of id. */
  ghost predicate NoNewPre(s: Sys, s': Sys, id: InstanceID) {
    forall i :: |s.sent| <= i < |s'.sent| ==> !(s'.sent[i].msg.id == id && s'.sent[i].msg.body.PreAccept?)
  }

  lemma InitStays(s: Sys, s': Sys, id: InstanceID, d: InstanceID, n: nat)
    requires s.sent <= s'.sent && NoNewPre(s, s', id)
    ensures InitDep(s, id, d) ==> InitDep(s', id, d)
    ensures InitSeq(s, id, n) ==> InitSeq(s', id, n)
  {
  }

  lemma TalliedGrows(s: Sys, s': Sys, id: InstanceID, kind: nat)
    requires s.sent <= s'.sent && s.delivered <= s'.delivered
    ensures Tallied(s, id, kind) <= Tallied(s', id, kind)
  {
  }

  lemma {:induction false} SubsetSize(a: set<nat>, b: set<nat>)
    requires a <= b
    ensures |a| <= |b|
  {
    if a != {} {
      var x :| x in a;
      SubsetSize(a - {x}, b - {x});
    }
  }

  lemma TallyStays(s: Sys, s': Sys, id: InstanceID, counted: set<nat>)
    requires LeaderHas(s, id) && LeaderHas(s', id) && Tally(s, id, counted)
    requires s.sent <= s'.sent && s.delivered <= s'.delivered && NoNewPre(s, s', id)
    requires SameTallied(Lead(s, id), Lead(s', id))
    ensures Tally(s', id, counted)
  {
    TalliedGrows(s, s', id, 1);
    assert forall i :: i in counted ==> s'.sent[i] == s.sent[i];
    assert forall i, d :: i in counted ==> (Brings(s, i, d) <==> Brings(s', i, d));
    forall d | d in Lead(s, id).st.deps ensures InitDep(s', id, d) || exists i :: i in counted && Brings(s', i, d) {
      hide Brings;
      InitStays(s, s', id, d, 0);
    }
    InitStays(s, s', id, id, Lead(s, id).st.seqNum);
    assert forall i, n :: i in counted ==> (BringsSeq(s, i, n) <==> BringsSeq(s', i, n));
    hide InitDep, InitSeq, Brings, BringsSeq;
  }

  lemma AnyReplyStays(s: Sys, s': Sys, id: InstanceID, counted: set<nat>)
    requires counted <= Tallied(s, id, 1) && s.sent <= s'.sent
    ensures AnyReply(s', counted) <==> AnyReply(s, counted)
  {
    assert forall i :: i in counted ==> i < |s.sent| && s'.sent[i] == s.sent[i];
  }

  lemma AcceptSentStays(s: Sys, s': Sys, id: InstanceID)
    requires AcceptSent(s, id) && s.sent <= s'.sent
    ensures AcceptSent(s', id)
  {
    var i :| 0 <= i < |s.sent| && s.sent[i].msg.id == id && s.sent[i].msg.body.Accept?;
    assert s'.sent[i] == s.sent[i];
  }

  lemma TallyCounts(s: Sys, id: InstanceID, counted: set<nat>)
    requires LeaderHas(s, id) && Tally(s, id, counted)
    ensures counted <= Tallied(s, id, 1)
  {
    hide InitDep, InitSeq, Brings, BringsSeq, Tallied;
  }

  lemma MajorityStays(c: Config, s: Sys, s': Sys, id: InstanceID, counted: set<nat>, mode: Mode)
    requires LeaderHas(s, id) && LeaderHas(s', id) && Majority(c, s, id, counted, mode)
    requires s.sent <= s'.sent && s.delivered <= s'.delivered && NoNewPre(s, s', id)
    requires Advances(Lead(s, id).st, Lead(s', id).st)
    requires mode.WithRestarts? || Lead(s', id).differentReplies == Lead(s, id).differentReplies
    ensures Majority(c, s', id, counted, mode)
  {
    hide Tally, Tallied, AnyReply, AcceptSent;
    TallyStays(s, s', id, counted);
    TallyCounts(s, id, counted);
    AnyReplyStays(s, s', id, counted);
    if AcceptSent(s, id) { AcceptSentStays(s, s', id); }
    TalliedGrows(s, s', id, 3);
    SubsetSize(Tallied(s, id, 3), Tallied(s', id, 3));
  }

  lemma TallyOKStays(c: Config, s: Sys, s': Sys, id: InstanceID, mode: Mode)
    requires LeaderHas(s, id) && LeaderHas(s', id) && TallyOK(c, s, id, mode)
    requires s.sent <= s'.sent && s.delivered <= s'.delivered && NoNewPre(s, s', id)
    requires CoreSame(Lead(s, id), Lead(s', id))
    requires Lead(s, id).st.status == PreAccepted ==> Tallied(s', id, 1) == Tallied(s, id, 1)
    requires Lead(s, id).st.status == Accepted ==> Tallied(s', id, 3) == Tallied(s, id, 3)
    ensures TallyOK(c, s', id, mode)
  {
    hide Tally, Tallied, Majority, NoNewPre, AnyReply, AcceptSent;
    var inst := Lead(s, id);
    if inst.st.status == PreAccepted {
      TallyStays(s, s', id, Tallied(s, id, 1));
      AnyReplyStays(s, s', id, Tallied(s, id, 1));
    }
    if AcceptSent(s, id) { AcceptSentStays(s, s', id); }
    if Rank(inst.st.status) >= 2 {
      var counted :| Majority(c, s, id, counted, mode);
      MajorityStays(c, s, s', id, counted, mode);
    }
  }

  lemma EntryStays(c: Config, s: Sys, s': Sys, id: InstanceID, mode: Mode)
    requires LeaderHas(s, id) && LeaderHas(s', id) && EntryCS(c, s, id, mode) && Grow(s, s') && NoNewPre(s, s', id)
    requires CoreSame(Lead(s, id), Lead(s', id))
    requires Lead(s, id).st.status == PreAccepted ==> Tallied(s', id, 1) == Tallied(s, id, 1)
    requires Lead(s, id).st.status == Accepted ==> Tallied(s', id, 3) == Tallied(s, id, 3)
    ensures EntryCS(c, s', id, mode)
  {
    hide TallyOK, Sorted, Tallied, NoNewPre, Knows;
    TallyOKStays(c, s, s', id, mode);
  }
}
