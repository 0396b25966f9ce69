/** Replicas that execute two interfering commands execute them in one order. */
module Consistency {
  import opened Keys
  import opened Types
  import opened Graphs
  import opened ExecutionSpec
  import opened Confluence
  import opened Replicas
  import opened System
  import opened Safety
  import opened Runs
  import opened CrashStop
  import opened CrashStopRuns
  import opened SameLeaders
  import opened Interference
  import opened Commits
  import opened Histories

  /** The pair that ExecutesBefore compares is the same. */
  predicate Tied(g: Graph<InstanceID>, a: InstanceID, b: InstanceID)
    requires a in g && b in g
  {
    g[a].seqNum == g[b].seqNum && g[a].replica == g[b].replica
  }

  /** Unless tied inside one component, connected vertices have a forced order. */
  lemma SomeOrder(g: Graph<InstanceID>, a: InstanceID, b: InstanceID)
    requires a in g && b in g && (Reach(g, a, b) || Reach(g, b, a)) && !(Mutual(g, a, b) && Tied(g, a, b))
    ensures MustPrecede(g, a, b) || MustPrecede(g, b, a)
  {
    hide Reach;
  }

  lemma ForcedIn(g: Graph<InstanceID>, done: seq<InstanceID>, a: InstanceID, b: InstanceID)
    requires Ordered(g, done) && NoDup(done) && MustPrecede(g, a, b) && a in done && b in done && a != b
    ensures Precedes(done, a, b) && !Precedes(done, b, a)
  {
    hide MustPrecede, Ordered, Contiguous;
    ForcedOrder(g, done, a, b);
    NotBoth(done, a, b);
  }

  /** The attributes that a replica has for an instance. */
  function AttributesAt(s: Sys, r: ReplicaID, id: InstanceID): Exec<InstanceID> {
    if r in s.reps && id in s.reps[r].log then ExecOf(id, s.reps[r].log[id]) else Exec([], 0, 0)
  }

  lemma ExecutedVertex(c: Config, s: Sys, h: Past, r: ReplicaID, id: InstanceID)
    requires Safe(c, s) && r in s.reps && ExecInv(s, h, r) && id in Total(s, h, r)
    ensures id in LeaderGraph(s) && LeaderHas(s, id) && Rank(Lead(s, id).st.status) >= 2
    ensures CommandAt(s, r, id) == LeadCmd(s, id) && LeaderGraph(s)[id] == AttributesAt(s, r, id)
  {
    hide Safe, LeaderGraph, GoodOrder;
    assert id in Elems(Total(s, h, r));
    ExecutedAtLeader(c, s, r, id);
    InGraph(s, id);
  }

  /** a and b are executed, interfere, and are not tied inside one component. */
  ghost predicate Comparable(s: Sys, a: InstanceID, b: InstanceID) {
    && a != b && MeetAt(s, a, b) && a in LeaderGraph(s) && b in LeaderGraph(s)
    && !(Mutual(LeaderGraph(s), a, b) && Tied(LeaderGraph(s), a, b))
  }

  /** Two interfering executed instances have one order. */
  lemma OneOrder(c: Config, s: Sys, h: Past, p: ReplicaID, a: InstanceID, b: InstanceID, mode: Mode)
    requires CS(c, s, mode) && AllSameLeader(s) && p in s.reps && ExecInv(s, h, p) && Comparable(s, a, b)
    requires a in Total(s, h, p) && b in Total(s, h, p)
    ensures MustPrecede(LeaderGraph(s), a, b) ==> Precedes(Total(s, h, p), a, b) && !Precedes(Total(s, h, p), b, a)
    ensures MustPrecede(LeaderGraph(s), b, a) ==> Precedes(Total(s, h, p), b, a) && !Precedes(Total(s, h, p), a, b)
    ensures MustPrecede(LeaderGraph(s), a, b) || MustPrecede(LeaderGraph(s), b, a)
  {
    hide CS, Safe, AllSameLeader, LeaderGraph, Closed, Ordered, Contiguous, NoDup, Reach, MeetAt, Precedes,
         MustPrecede, Mutual, ExecutedSet;
    CSSafe(c, s, mode);
    ExecutedVertex(c, s, h, p, a);
    ExecutedVertex(c, s, h, p, b);
    Connected(c, s, a, b, mode);
    var g := LeaderGraph(s);
    SomeOrder(g, a, b);
    if MustPrecede(g, a, b) { ForcedIn(g, Total(s, h, p), a, b); }
    if MustPrecede(g, b, a) { ForcedIn(g, Total(s, h, p), b, a); }
  }

  lemma PrecedesPrefix(done: seq<InstanceID>, done': seq<InstanceID>, a: InstanceID, b: InstanceID)
    requires done <= done' && NoDup(done') && a in done && b in done && a != b
    ensures Precedes(done, a, b) <==> Precedes(done', a, b)
  {
    var i :| 0 <= i < |done| && done[i] == a;
    var j :| 0 <= j < |done| && done[j] == b;
    assert done'[i] == a && done'[j] == b;
    if i < j {
      assert Precedes(done, a, b) && Precedes(done', a, b);
    } else {
      assert Precedes(done', b, a) && Precedes(done, b, a);
      assert NoDup(done);
      NotBoth(done', b, a);
      NotBoth(done, b, a);
    }
  }

  /** Replica p after step j and a later state of the same run. */
  lemma LaterView(c: Config, states: seq<Sys>, steps: seq<System.Step>, j: nat, k: nat, p: ReplicaID, id: InstanceID)
    requires IsRun(c, states, steps) && j <= k < |states| && p in states[j].reps && id in TotalAt(states, steps, j, p)
    ensures p in states[k].reps && id in TotalAt(states, steps, k, p)
    ensures AttributesAt(states[k], p, id) == AttributesAt(states[j], p, id)
    ensures CommandAt(states[k], p, id) == CommandAt(states[j], p, id)
  {
    hide Safe, AllExec, LeaderGraph, Keep, ExecInv, Next, RanksGrow, StaysUp;
    var s, s' := states[j], states[k];
    RunExecutedPrefix(c, states, steps, j, k, p);
    RunSafe(c, states, steps, j);
    RunSafe(c, states, steps, k);
    RunExecInv(c, states, steps, j);
    RunExecInv(c, states, steps, k);
    Runs.RunKeeps(c, states, steps, j, k);
    var h, h' := Pasts(states, steps, j), Pasts(states, steps, k);
    AllExecAt(s, h, p);
    AllExecAt(s', h', p);
    hide IsRun, Pasts;
    ExecutedVertex(c, s, h, p, id);
    ExecutedVertex(c, s', h', p, id);
    SameVertex(s, s', id);
    CmdGrows(s, s', id);
  }

  lemma ExecNoDup(s: Sys, h: Past, r: ReplicaID)
    requires r in s.reps && ExecInv(s, h, r)
    ensures NoDup(Total(s, h, r))
  {
    hide Closed, Ordered, Contiguous, LeaderGraph;
  }

  lemma OrderLater(c: Config, states: seq<Sys>, steps: seq<System.Step>, j: nat, k: nat, p: ReplicaID, a: InstanceID,
                   b: InstanceID)
    requires IsRun(c, states, steps) && j <= k < |states| && p in states[j].reps && a != b
    requires a in TotalAt(states, steps, j, p) && b in TotalAt(states, steps, j, p)
    ensures Precedes(TotalAt(states, steps, j, p), a, b) <==> Precedes(TotalAt(states, steps, k, p), a, b)
  {
    hide AllExec, ExecInv, Precedes, Next, Pasts, RanksGrow, StaysUp;
    RunExecutedPrefix(c, states, steps, j, k, p);
    RunExecInv(c, states, steps, k);
    AllExecAt(states[k], Pasts(states, steps, k), p);
    assert NoDup(TotalAt(states, steps, k, p)) by { ExecNoDup(states[k], Pasts(states, steps, k), p); }
    PrecedesPrefix(TotalAt(states, steps, j, p), TotalAt(states, steps, k, p), a, b);
  }

  /** Replica r has executed a and b, whose commands x and y it delivered. */
  ghost predicate ExecutedBoth(states: seq<Sys>, steps: seq<System.Step>, j: nat, r: ReplicaID,
                               a: InstanceID, x: Command, b: InstanceID, y: Command)
    requires j <= |steps| && |states| == |steps| + 1
  {
    && r in states[j].reps && a in TotalAt(states, steps, j, r) && b in TotalAt(states, steps, j, r)
    && CommandAt(states[j], r, a) == Some(x) && CommandAt(states[j], r, b) == Some(y)
  }

  /** Two replicas that have executed a and b by the end of a run. */
  lemma SameOrder(c: Config, states: seq<Sys>, steps: seq<System.Step>, p: ReplicaID, q: ReplicaID,
                  a: InstanceID, b: InstanceID)
    requires IsVoteOnceRun(c, states, steps)
    requires var n := |states| - 1;
             && p in states[n].reps && q in states[n].reps && Comparable(states[n], a, b)
             && a in TotalAt(states, steps, n, p) && b in TotalAt(states, steps, n, p)
             && a in TotalAt(states, steps, n, q) && b in TotalAt(states, steps, n, q)
    ensures var n := |states| - 1;
            && (Precedes(TotalAt(states, steps, n, p), a, b) <==> Precedes(TotalAt(states, steps, n, q), a, b))
            && (Precedes(TotalAt(states, steps, n, p), b, a) <==> !Precedes(TotalAt(states, steps, n, p), a, b))
  {
    var n := |states| - 1;
    var s, h := states[n], Pasts(states, steps, n);
    VoteOnceMode(c, states, steps);
    hide Next, CS, AllSameLeader, AllExec, ExecInv, Comparable, Precedes, MustPrecede, IsModeRun, NoRestarts;
    ModeRunCS(c, states, steps, n, WithRestarts);
    SameLeaderAt(c, states, steps, n);
    RunExecInv(c, states, steps, n);
    hide IsVoteOnceRun, Pasts, LeaderGraph;
    AllExecAt(s, h, p);
    AllExecAt(s, h, q);
    OneOrder(c, s, h, p, a, b, WithRestarts);
    OneOrder(c, s, h, q, a, b, WithRestarts);
  }

  /** Nothing that p has executed changes until the end of the run. */
  lemma AtEnd(c: Config, states: seq<Sys>, steps: seq<System.Step>, j: nat, p: ReplicaID, a: InstanceID, b: InstanceID)
    requires IsRun(c, states, steps) && j < |states| && p in states[j].reps && a != b
    requires a in TotalAt(states, steps, j, p) && b in TotalAt(states, steps, j, p)
    ensures var n := |states| - 1;
            && p in states[n].reps && a in TotalAt(states, steps, n, p) && b in TotalAt(states, steps, n, p)
            && AttributesAt(states[n], p, a) == AttributesAt(states[j], p, a)
            && AttributesAt(states[n], p, b) == AttributesAt(states[j], p, b)
            && CommandAt(states[n], p, a) == CommandAt(states[j], p, a)
            && CommandAt(states[n], p, b) == CommandAt(states[j], p, b)
            && (Precedes(TotalAt(states, steps, n, p), a, b) <==> Precedes(TotalAt(states, steps, j, p), a, b))
            && (Precedes(TotalAt(states, steps, n, p), b, a) <==> Precedes(TotalAt(states, steps, j, p), b, a))
  {
    var n := |states| - 1;
    hide Next, Precedes, TotalAt;
    LaterView(c, states, steps, j, n, p, a);
    LaterView(c, states, steps, j, n, p, b);
    OrderLater(c, states, steps, j, n, p, a, b);
    OrderLater(c, states, steps, j, n, p, b, a);
  }

  lemma FinalPair(c: Config, states: seq<Sys>, steps: seq<System.Step>, p: ReplicaID,
                  a: InstanceID, x: Command, b: InstanceID, y: Command)
    requires IsRun(c, states, steps) && a != b && Interferes(x, y)
    requires var n := |states| - 1;
             && ExecutedBoth(states, steps, n, p, a, x, b, y)
             && (Mutual(LeaderGraph(states[n]), a, b) && a.replica == b.replica ==>
                   AttributesAt(states[n], p, a).seqNum != AttributesAt(states[n], p, b).seqNum)
    ensures Comparable(states[|states| - 1], a, b)
  {
    hide Next, Safe, AllExec, ExecInv, LeaderGraph, Mutual, Interferes;
    var n := |states| - 1;
    var s, h := states[n], Pasts(states, steps, n);
    RunSafe(c, states, steps, n);
    RunExecInv(c, states, steps, n);
    AllExecAt(s, h, p);
    hide IsRun, Pasts;
    ExecutedVertex(c, s, h, p, a);
    ExecutedVertex(c, s, h, p, b);
    assert MeetAt(s, a, b);
  }

  /** Execution consistency: in every run in which only Accept, AcceptOK and Commit packets are
      delivered again and no restart loses a vote, any two replicas that have executed the same two
      interfering instances, in whatever lives, executed them in the same order, unless the two
      depend on each other, come from one replica and have the same sequence number. */
  lemma ExecutionConsistency(c: Config, states: seq<Sys>, steps: seq<System.Step>, j: nat, k: nat, p: ReplicaID,
                             q: ReplicaID, a: InstanceID, x: Command, b: InstanceID, y: Command)
    requires IsVoteOnceRun(c, states, steps) && j < |states| && k < |states| && a != b
    requires ExecutedBoth(states, steps, j, p, a, x, b, y) && Interferes(x, y)
    requires q in states[k].reps && a in TotalAt(states, steps, k, q) && b in TotalAt(states, steps, k, q)
    requires Mutual(LeaderGraph(states[|states| - 1]), a, b) && a.replica == b.replica ==>
               AttributesAt(states[j], p, a).seqNum != AttributesAt(states[j], p, b).seqNum
    ensures Precedes(TotalAt(states, steps, j, p), a, b) <==> Precedes(TotalAt(states, steps, k, q), a, b)
    ensures Precedes(TotalAt(states, steps, j, p), a, b) || Precedes(TotalAt(states, steps, j, p), b, a)
  {
    assert IsRun(c, states, steps) && |states| == |steps| + 1;
    hide Next, IsVoteOnceRun, IsRun, LeaderGraph, Mutual, Precedes, Interferes, TotalAt, Comparable;
    AtEnd(c, states, steps, j, p, a, b);
    AtEnd(c, states, steps, k, q, a, b);
    FinalPair(c, states, steps, p, a, x, b, y);
    SameOrder(c, states, steps, p, q, a, b);
  }
}
