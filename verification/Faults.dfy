/** Runs in which one follower passes for a quorum. Reply counters carry no sender, so one follower whose PreAcceptOK
    arrives three times, or that answers one PreAccept three times, is a fast quorum of five nodes. Two leaders then
    commit interfering commands that know nothing of each other. */
module Faults {
  import opened Keys
  import opened Types
  import opened Scan
  import opened DepSlices
  import opened Graphs
  import opened ExecutionSpec
  import opened Replicas
  import opened System
  import opened Safety
  import opened Runs
  import opened SameLeaders

  const FIVE := Config([1, 2, 3, 4, 5])
  const THREE := Config([1, 2, 3])

  /** The command of leader l, a write of the one key, and its slot. */
  function Write(l: ReplicaID): Command {
    Command(l, Span([7], []), true, [])
  }

  function Slot(l: ReplicaID): InstanceID {
    InstanceID(l, 1)
  }

  function Pre(l: ReplicaID): Body {
    PreAccept(Some(Write(l)), 1, [])
  }

  function Ok(l: ReplicaID): Message {
    Message(l, Slot(l), PreAcceptOK)
  }

  // ----- Scans that find nothing -----

  lemma {:induction false} NothingInSpace(log: Log, rid: ReplicaID, cmd: Command, ignored: InstanceID, n: nat)
    requires forall id: InstanceID :: id in log && id.replica == rid ==> id == ignored
    ensures ScanSpace(log, rid, cmd, ignored, n, []) == Found(0, {})
  {
    if n > 0 { NothingInSpace(log, rid, cmd, ignored, n - 1); }
  }

  lemma {:induction false} NothingFound(log: Log, nodes: seq<ReplicaID>, cmd: Command, ignored: InstanceID)
    requires forall id :: id in log ==> id == ignored
    ensures ScanAll(log, nodes, cmd, ignored) == Found(0, {})
  {
    if nodes != [] {
      NothingInSpace(log, nodes[0], cmd, ignored, Bound(Nums(log, nodes[0])));
      NothingFound(log, nodes[1..], cmd, ignored);
    }
  }

  // ----- The states of a leader and its follower -----

  /** The leader with n replies counted. */
  function Counted(l: ReplicaID, n: nat, timer: Timer): Replica {
    var st := InstanceState(PreAccepted, Some(Write(l)), 1, []);
    Replica(map[Slot(l) := Instance(st, n, false, 0, timer)], if timer.paused then {} else {Slot(l)}, {}, [],
            map[Slot(l) := st])
  }

  const RUNNING := Timer(0, false)

  /** The leader that commits when the n-th reply arrives. */
  function Decides(l: ReplicaID, n: nat): Replica {
    var st := InstanceState(Committed, Some(Write(l)), 1, []);
    Replica(map[Slot(l) := Instance(st, n, false, 0, STOPPED)], {}, {Slot(l)}, [], map[Slot(l) := st])
  }

  function Announces(c: Config, l: ReplicaID): seq<Message> {
    Broadcast(c.nodes, l, Slot(l), Commit(Some(Write(l)), 1, []))
  }

  /** The leader after its instance executed. */
  function Settles(l: ReplicaID, n: nat): Outcome {
    ExecuteAll(Decides(l, n), [Slot(l)])
  }

  function Voted(l: ReplicaID): Replica {
    EMPTY.(log := map[Slot(l) := FromState(InstanceState(PreAccepted, Some(Write(l)), 1, []))])
  }

  lemma Proposed(c: Config, l: ReplicaID)
    ensures OnRequest(c, l, EMPTY, Write(l)) ==
            Done(Counted(l, 0, STOPPED), Broadcast(c.nodes, l, Slot(l), Pre(l)), false)
  {
    hide ScanAll, Slice, Broadcast;
    NothingFound(EMPTY.log, c.nodes, Write(l), InstanceID(0, 0));
    SliceOfIds([]);
    assert Nums(EMPTY.log, l) == {};
    var o := OnRequest(c, l, EMPTY, Write(l));
    assert o.rep.log == Counted(l, 0, STOPPED).log && o.rep.storage == Counted(l, 0, STOPPED).storage;
  }

  /** A follower that knows nothing of the key votes for the leader's attributes, every time it is asked. */
  lemma Votes(c: Config, l: ReplicaID, f: ReplicaID, rep: Replica)
    requires l in c.nodes && l != f && rep in {EMPTY, Voted(l)}
    ensures Replicas.Step(c, f, rep, Message(f, Slot(l), Pre(l))) == Done(Voted(l), [Ok(l)], false)
  {
    hide ScanAll, Slice;
    var log := if rep == EMPTY then EMPTY.log[Slot(l) := NEW_INSTANCE] else rep.log;
    NothingFound(log, c.nodes, Write(l), Slot(l));
    SliceOfIds([]);
    assert {} + Elems<InstanceID>([]) == Elems<InstanceID>([]);
    var o := Replicas.Step(c, f, rep, Message(f, Slot(l), Pre(l)));
    assert o.rep.log == Voted(l).log;
  }

  /** One reply of four is no quorum, */
  lemma FirstOfFive(l: ReplicaID)
    ensures Replicas.Step(FIVE, l, Counted(l, 0, STOPPED), Ok(l)) == Done(Counted(l, 1, STOPPED), [], false)
  {
    hide Broadcast, OnPreAccept, OnPreAcceptReply, OnAccept, OnAcceptOK, OnCommit;
    var o := Replicas.Step(FIVE, l, Counted(l, 0, STOPPED), Ok(l));
    assert o.rep.log == Counted(l, 1, STOPPED).log;
  }

  /** two are a quorum and start the timer, */
  lemma SecondOfFive(l: ReplicaID)
    ensures Replicas.Step(FIVE, l, Counted(l, 1, STOPPED), Ok(l)) == Done(Counted(l, 2, RUNNING), [], false)
  {
    hide Broadcast, OnPreAccept, OnPreAcceptReply, OnAccept, OnAcceptOK, OnCommit;
    var o := Replicas.Step(FIVE, l, Counted(l, 1, STOPPED), Ok(l));
    assert o.rep.log == Counted(l, 2, RUNNING).log && o.rep.timers == Counted(l, 2, RUNNING).timers;
  }

  /** and three are a fast quorum. */
  lemma ThirdOfFive(l: ReplicaID)
    ensures Replicas.Step(FIVE, l, Counted(l, 2, RUNNING), Ok(l)) == Done(Decides(l, 3), Announces(FIVE, l), true)
  {
    hide Broadcast, OnPreAccept, OnPreAcceptReply, OnAccept, OnAcceptOK, OnCommit;
    var o := Replicas.Step(FIVE, l, Counted(l, 2, RUNNING), Ok(l));
    assert o.rep.log == Decides(l, 3).log && o.rep.storage == Decides(l, 3).storage;
    assert o.rep.timers == {} && o.rep.vertices == {Slot(l)};
  }

  /** Of three nodes, one reply is a fast quorum. */
  lemma FirstOfThree(l: ReplicaID)
    ensures Replicas.Step(THREE, l, Counted(l, 0, STOPPED), Ok(l)) == Done(Decides(l, 1), Announces(THREE, l), true)
  {
    hide Broadcast, OnPreAccept, OnPreAcceptReply, OnAccept, OnAcceptOK, OnCommit;
    var o := Replicas.Step(THREE, l, Counted(l, 0, STOPPED), Ok(l));
    assert o.rep.log == Decides(l, 1).log && o.rep.storage == Decides(l, 1).storage;
    assert o.rep.timers == {} && o.rep.vertices == {Slot(l)};
  }

  /** An instance without dependencies executes at once. */
  lemma Alone(l: ReplicaID)
    ensures RunSpec(map[Slot(l) := Exec([], 1, l)], {}, [Slot(l)])
  {
    var g := map[Slot(l) := Exec([], 1, l)];
    assert Closed(g, {Slot(l)});
    assert Ready(g, {}, Slot(l)) by {
      hide Reach;
      forall y | Reach(g, Slot(l), y) ensures y in g { ReachClosed(g, {Slot(l)}, Slot(l), y); }
    }
    hide Ready, MustPrecede;
    assert RunSpec(g, {}, [Slot(l)]);
  }

  lemma Executes(l: ReplicaID, n: nat)
    ensures MayRun(Decides(l, n), [Slot(l)])
  {
    Alone(l);
    hide RunSpec;
    assert VertexGraph(Decides(l, n)) == map[Slot(l) := Exec([], 1, l)] && ExecutedSet(Decides(l, n).log) == {};
  }

  lemma Settled(l: ReplicaID, n: nat)
    ensures Settles(l, n).Done? && Slot(l) in Settles(l, n).rep.log
    ensures Settles(l, n).rep.log[Slot(l)].st == InstanceState(Executed, Some(Write(l)), 1, [])
  {
  }

  // ----- Runs -----

  /** The faults of a run: the forms of packets that are delivered more than once, and what restarts lose; if that is
      nothing then there are no restarts. */
  datatype Faulty = Faulty(again: set<Form>, lost: set<Loss>)

  ghost predicate Permitted(s: Sys, step: System.Step, given: Faulty) {
    Limited(s, step, given.again, given.lost) && (step.RestartStep? ==> given.lost != {})
  }

  ghost predicate EndsIn(c: Config, given: Faulty, states: seq<Sys>, steps: seq<System.Step>, s: Sys) {
    && IsRun(c, states, steps) && states[|states| - 1] == s
    && forall k :: 0 <= k < |steps| ==> Permitted(states[k], steps[k], given)
  }

  ghost predicate Reached(c: Config, given: Faulty, s: Sys) {
    exists states, steps :: EndsIn(c, given, states, steps, s)
  }

  lemma Start(c: Config, given: Faulty)
    requires ConfigOK(c)
    ensures Reached(c, given, Initial(c))
  {
    assert EndsIn(c, given, [Initial(c)], [], Initial(c));
  }

  lemma Extend(c: Config, given: Faulty, s: Sys, step: System.Step, s': Sys)
    requires Reached(c, given, s) && Next(c, s, step, s') && Permitted(s, step, given)
    ensures Reached(c, given, s')
  {
    hide Next, Permitted;
    var states, steps :| EndsIn(c, given, states, steps, s);
    RunExtends(c, states, steps, step, s');
    var states', steps' := states + [s'], steps + [step];
    forall k | 0 <= k < |steps'| ensures Permitted(states'[k], steps'[k], given) {
      if k < |steps| { assert Permitted(states[k], steps[k], given); }
    }
    assert EndsIn(c, given, states', steps', s');
  }

  /** Packet i is delivered, again if need be, and the executor then executes ex. */
  lemma Delivered(c: Config, given: Faulty, s: Sys, i: nat, rep1: Replica, out: seq<Message>, run: bool,
                  ex: seq<InstanceID>, rep: Replica)
    requires Reached(c, given, s) && i < |s.sent| && Up(s, s.sent[i].msg.to)
    requires (i in s.delivered ==> HasForm(s, i, given.again))
    requires Replicas.Step(c, s.sent[i].msg.to, s.reps[s.sent[i].msg.to], s.sent[i].msg) == Done(rep1, out, run)
    requires if run then MayRun(rep1, ex) && ExecuteAll(rep1, ex) == Done(rep, [], false) else ex == [] && rep == rep1
    ensures Reached(c, given, Put(s.(delivered := s.delivered + {i}), s.sent[i].msg.to, rep, out))
  {
    hide Replicas.Step, Reached, MayRun, ExecuteAll;
    var r, s0 := s.sent[i].msg.to, s.(delivered := s.delivered + {i});
    var s' := Put(s0, r, rep, out);
    if run { assert AfterRun(Put(s0, r, rep1, out), r, ex) == s'; }
    assert Delivers(c, s, i, ex, s');
    Extend(c, given, s, if i in s.delivered then RedeliverStep(i, ex) else DeliverStep(i, ex), s');
  }

  /** Leader l and follower f are in their initial states. */
  ghost predicate Idle(c: Config, s: Sys, l: ReplicaID, f: ReplicaID) {
    && l in c.nodes && f in c.nodes && l != f && l in s.reps && f in s.reps && s.crashed == {}
    && s.reps[l] == EMPTY && s.reps[f] == EMPTY && (forall i :: i in s.delivered ==> i < |s.sent|)
  }

  /** A broadcast of leader l reaches f. */
  lemma SentTo(c: Config, s: Sys, l: ReplicaID, f: ReplicaID, body: Body, s': Sys) returns (i: nat)
    requires f in c.nodes && l != f && s'.sent == s.sent + Packets(l, Broadcast(c.nodes, l, Slot(l), body))
    ensures |s.sent| <= i < |s'.sent| && s'.sent[i] == Packet(l, Message(f, Slot(l), body))
  {
    hide Packets;
    var out := Broadcast(c.nodes, l, Slot(l), body);
    BroadcastIn(c.nodes, l, Slot(l), body, Message(f, Slot(l), body));
    hide Broadcast;
    var k :| 0 <= k < |out| && out[k] == Message(f, Slot(l), body);
    i := |s.sent| + k;
  }

  /** Follower f was asked at position i and has voted, and its reply is the last packet, not delivered yet. */
  ghost predicate Answered(s: Sys, l: ReplicaID, f: ReplicaID, s': Sys, i: nat) {
    && s'.crashed == {} && s'.reps == s.reps[l := Counted(l, 0, STOPPED)][f := Voted(l)]
    && i in s'.delivered && i < |s'.sent| - 1 && s'.sent[i].msg == Message(f, Slot(l), Pre(l))
    && s'.sent[|s'.sent| - 1].msg == Ok(l)
    && (forall n :: n in s'.delivered ==> n < |s'.sent| - 1)
  }

  lemma Offers(c: Config, given: Faulty, s: Sys, l: ReplicaID) returns (s': Sys)
    requires Reached(c, given, s) && Up(s, l) && s.reps[l] == EMPTY
    ensures Reached(c, given, s') && s' == Put(s, l, Counted(l, 0, STOPPED), Broadcast(c.nodes, l, Slot(l), Pre(l)))
  {
    hide Reached, OnRequest, Broadcast, Packets;
    Proposed(c, l);
    s' := Put(s, l, Counted(l, 0, STOPPED), Broadcast(c.nodes, l, Slot(l), Pre(l)));
    assert Next(c, s, RequestStep(l, Write(l)), s');
    Extend(c, given, s, RequestStep(l, Write(l)), s');
  }

  lemma AsksOne(c: Config, given: Faulty, s: Sys, l: ReplicaID, f: ReplicaID) returns (s': Sys, i: nat)
    requires Reached(c, given, s) && Idle(c, s, l, f)
    ensures Reached(c, given, s') && Answered(s, l, f, s', i)
  {
    hide Reached, Broadcast, Replicas.Step, Packets;
    var s1 := Offers(c, given, s, l);
    i := SentTo(c, s, l, f, Pre(l), s1);
    Votes(c, l, f, EMPTY);
    Delivered(c, given, s1, i, Voted(l), [Ok(l)], false, [], Voted(l));
    s' := Put(s1.(delivered := s1.delivered + {i}), f, Voted(l), [Ok(l)]);
  }

  /** The PreAccept at position i arrives again, and the follower answers again. */
  lemma AsksAgain(c: Config, s: Sys, l: ReplicaID, f: ReplicaID, i: nat) returns (s': Sys)
    requires Reached(c, Faulty({PreAcceptForm}, {}), s) && l in c.nodes && l != f && Up(s, f)
    requires s.reps[f] == Voted(l)
    requires i < |s.sent| && s.sent[i].msg == Message(f, Slot(l), Pre(l)) && i in s.delivered
    ensures Reached(c, Faulty({PreAcceptForm}, {}), s')
    ensures s'.reps == s.reps && s'.crashed == s.crashed && s'.delivered == s.delivered
    ensures s'.sent == s.sent + [Packet(f, Ok(l))]
  {
    hide Reached, Replicas.Step, Packets;
    Votes(c, l, f, Voted(l));
    Delivered(c, Faulty({PreAcceptForm}, {}), s, i, Voted(l), [Ok(l)], false, [], Voted(l));
    s' := Put(s.(delivered := s.delivered + {i}), f, Voted(l), [Ok(l)]);
    assert s'.delivered == s.delivered && s'.reps == s.reps;
  }

  // ----- Two decisions that do not know each other -----

  /** a and b interfere and are decided, and neither reaches the other. */
  ghost predicate Unrelated(s: Sys, a: InstanceID, b: InstanceID) {
    && a != b
    && (exists x, seqA, depsA, y, seqB, depsB ::
          Interferes(x, y) && Decided(s, a, Some(x), seqA, depsA) && Decided(s, b, Some(y), seqB, depsB))
    && !Reach(LeaderGraph(s), a, b) && !Reach(LeaderGraph(s), b, a)
  }

  predicate NoDeps(s: Sys, a: InstanceID) {
    LeaderHas(s, a) && Lead(s, a).st.deps == []
  }

  lemma ReachesNothing(s: Sys, a: InstanceID, b: InstanceID)
    requires a != b && NoDeps(s, a)
    ensures !Reach(LeaderGraph(s), a, b)
  {
    hide Reach, LeaderGraph;
    forall y ensures !Edge(LeaderGraph(s), a, y) { DepEdge(s, a, y); }
    assert Closed(LeaderGraph(s), {a});
    if Reach(LeaderGraph(s), a, b) { ReachClosed(LeaderGraph(s), {a}, a, b); }
  }

  /** Leader l has executed its command, which depends on nothing. */
  predicate Free(s: Sys, l: ReplicaID) {
    && l in s.reps && Slot(l) in s.reps[l].log
    && s.reps[l].log[Slot(l)].st == InstanceState(Executed, Some(Write(l)), 1, [])
  }

  lemma BothFree(s: Sys)
    requires Free(s, 1) && Free(s, 3)
    ensures Unrelated(s, Slot(1), Slot(3))
  {
    hide Reach, LeaderGraph;
    assert HoldsCommitted(s, 1, Slot(1), Some(Write(1)), 1, []);
    assert HoldsCommitted(s, 3, Slot(3), Some(Write(3)), 1, []);
    ReachesNothing(s, Slot(1), Slot(3));
    ReachesNothing(s, Slot(3), Slot(1));
    assert Interferes(Write(1), Write(3));
    assert Decided(s, Slot(1), Some(Write(1)), 1, []) && Decided(s, Slot(3), Some(Write(3)), 1, []);
  }

  lemma BothDecided(s: Sys, n: nat)
    requires Settles(1, n).Done? && Settles(3, n).Done? && 1 in s.reps && 3 in s.reps
    requires s.reps[1] == Settles(1, n).rep && s.reps[3] == Settles(3, n).rep
    ensures Unrelated(s, Slot(1), Slot(3))
  {
    hide Unrelated, Settles;
    Settled(1, n);
    Settled(3, n);
    BothFree(s);
  }

  // ----- Duplication -----

  lemma OutcomeOf(l: ReplicaID, n: nat)
    ensures Settles(l, n).Done? && ExecuteAll(Decides(l, n), [Slot(l)]) == Done(Settles(l, n).rep, [], false)
  {
  }

  /** The packet at position j counts: it was not delivered yet, or may be delivered again. */
  predicate Counts(s: Sys, given: Faulty, l: ReplicaID, j: nat) {
    j < |s.sent| && s.sent[j].msg == Ok(l) && (j in s.delivered ==> PreAcceptOKForm in given.again)
  }

  /** Three replies arrive, all of one follower. */
  lemma CountsThrice(given: Faulty, s: Sys, l: ReplicaID, i: nat, j: nat, k: nat) returns (s': Sys)
    requires Reached(FIVE, given, s) && l in s.reps && s.crashed == {} && s.reps[l] == Counted(l, 0, STOPPED)
    requires Counts(s, given, l, i) && Counts(s, given, l, j) && Counts(s, given, l, k)
    requires PreAcceptOKForm in given.again || (i != j && j != k && k != i)
    requires forall n :: n in s.delivered ==> n < |s.sent|
    ensures Reached(FIVE, given, s') && s'.crashed == {} && Settles(l, 3).Done?
    ensures s'.reps == s.reps[l := Settles(l, 3).rep]
    ensures forall n :: n in s'.delivered ==> n < |s'.sent|
  {
    hide Reached, Broadcast, Replicas.Step, ExecuteAll, MayRun, Packets;
    FirstOfFive(l);
    Delivered(FIVE, given, s, i, Counted(l, 1, STOPPED), [], false, [], Counted(l, 1, STOPPED));
    var s1 := Put(s.(delivered := s.delivered + {i}), l, Counted(l, 1, STOPPED), []);
    SecondOfFive(l);
    Delivered(FIVE, given, s1, j, Counted(l, 2, RUNNING), [], false, [], Counted(l, 2, RUNNING));
    var s2 := Put(s1.(delivered := s1.delivered + {j}), l, Counted(l, 2, RUNNING), []);
    ThirdOfFive(l);
    Executes(l, 3);
    Settled(l, 3);
    OutcomeOf(l, 3);
    Delivered(FIVE, given, s2, k, Decides(l, 3), Announces(FIVE, l), true, [Slot(l)], Settles(l, 3).rep);
    s' := Put(s2.(delivered := s2.delivered + {k}), l, Settles(l, 3).rep, Announces(FIVE, l));
  }

  /** The PreAcceptOK of the one follower is delivered three times. */
  lemma CountsOneThrice(s: Sys, l: ReplicaID, f: ReplicaID) returns (s': Sys)
    requires Reached(FIVE, Faulty({PreAcceptOKForm}, {}), s) && Idle(FIVE, s, l, f)
    ensures Reached(FIVE, Faulty({PreAcceptOKForm}, {}), s') && s'.crashed == {} && Settles(l, 3).Done?
    ensures s'.reps == s.reps[f := Voted(l)][l := Settles(l, 3).rep]
    ensures forall n :: n in s'.delivered ==> n < |s'.sent|
  {
    hide Reached, Settles, Voted, Counted;
    var given := Faulty({PreAcceptOKForm}, {});
    var s1, _ := AsksOne(FIVE, given, s, l, f);
    var n := |s1.sent| - 1;
    s' := CountsThrice(given, s1, l, n, n, n);
  }

  lemma RepeatedOKs() returns (s: Sys)
    ensures Reached(FIVE, Faulty({PreAcceptOKForm}, {}), s) && Unrelated(s, Slot(1), Slot(3))
  {
    hide Reached, Settles, Voted, Unrelated, Counted;
    Start(FIVE, Faulty({PreAcceptOKForm}, {}));
    var s1 := CountsOneThrice(Initial(FIVE), 1, 2);
    assert Idle(FIVE, s1, 3, 4);
    s := CountsOneThrice(s1, 3, 4);
    BothDecided(s, 3);
  }

  /** The PreAccept to the one follower is delivered three times. */
  lemma AsksThrice(s: Sys, l: ReplicaID, f: ReplicaID) returns (s': Sys)
    requires Reached(FIVE, Faulty({PreAcceptForm}, {}), s) && Idle(FIVE, s, l, f)
    ensures Reached(FIVE, Faulty({PreAcceptForm}, {}), s') && s'.crashed == {} && Settles(l, 3).Done?
    ensures s'.reps == s.reps[f := Voted(l)][l := Settles(l, 3).rep]
    ensures forall n :: n in s'.delivered ==> n < |s'.sent|
  {
    hide Reached, Settles, Voted, Unrelated, Counted;
    var given := Faulty({PreAcceptForm}, {});
    var s1, i := AsksOne(FIVE, given, s, l, f);
    var s2 := AsksAgain(FIVE, s1, l, f, i);
    var s3 := AsksAgain(FIVE, s2, l, f, i);
    var n := |s1.sent|;
    s' := CountsThrice(given, s3, l, n - 1, n, n + 1);
  }

  lemma RepeatedPreAccepts() returns (s: Sys)
    ensures Reached(FIVE, Faulty({PreAcceptForm}, {}), s) && Unrelated(s, Slot(1), Slot(3))
  {
    hide Reached, Settles, Voted, Unrelated, Counted;
    Start(FIVE, Faulty({PreAcceptForm}, {}));
    var s1 := AsksThrice(Initial(FIVE), 1, 2);
    assert Idle(FIVE, s1, 3, 4);
    s := AsksThrice(s1, 3, 4);
    BothDecided(s, 3);
  }
}
