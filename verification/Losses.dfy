/** Runs in which every packet is delivered at most once, but restarts lose votes. Followers do not persist what they
    voted on until it has executed, and leaders do not persist whose votes they counted. For each kind of loss two
    leaders commit interfering commands that know nothing of each other. */
module Losses {
  import opened Keys
  import opened Types
  import opened Scan
  import opened DepSlices
  import opened Graphs
  import opened ExecutionSpec
  import opened Replicas
  import opened System
  import opened Safety
  import opened Runs
  import opened SameLeaders
  import opened Faults
  import opened Redelivery
  import opened SlowPath

  /** A follower that has persisted nothing forgets everything. */
  lemma Forgets(c: Config, given: Faulty, s: Sys, f: ReplicaID) returns (s': Sys)
    requires Reached(c, given, s) && f in s.reps && s.crashed == {} && s.reps[f].storage == map[]
    requires LosesOnly(s, f, given.lost) && given.lost != {}
    ensures Reached(c, given, s') && s' == s.(reps := s.reps[f := EMPTY])
  {
    hide Reached, LosesOnly;
    s' := s.(reps := s.reps[f := EMPTY]);
    assert s' == Put(s, f, EMPTY, []).(crashed := s.crashed - {f});
    assert Loads(c, f, Rebooted(map[]), map[], [], [], EMPTY, []);
    assert Restarts(c, s, f, [], [], s');
    Extend(c, given, s, RestartStep(f, [], []), s');
  }

  /** A follower that knows of one instance loses what its status says. */
  lemma LosesOne(s: Sys, f: ReplicaID, id: InstanceID, loss: Loss)
    requires f in s.reps && id.replica != f && (forall x :: x in s.reps[f].log ==> x == id)
    requires id in s.reps[f].log && Held(s.reps[f], f, id, loss)
    ensures LosesOnly(s, f, {loss})
  {
  }

  // ----- Pre-accepted -----

  const VOTE := Faulty({}, {PreAcceptedVote})

  /** Of three nodes, the reply of the one follower decides. */
  lemma CountsOnce(given: Faulty, s: Sys, l: ReplicaID) returns (s': Sys)
    requires Reached(THREE, given, s) && l in s.reps && s.crashed == {} && s.reps[l] == Faults.Counted(l, 0, STOPPED)
    requires |s.sent| > 0 && s.sent[|s.sent| - 1].msg == Ok(l) && forall i :: i in s.delivered ==> i < |s.sent| - 1
    ensures Reached(THREE, given, s') && s'.crashed == {} && Settles(l, 1).Done?
    ensures s'.reps == s.reps[l := Settles(l, 1).rep]
    ensures forall i :: i in s'.delivered ==> i < |s'.sent|
  {
    hide Reached, Broadcast, Replicas.Step, ExecuteAll, MayRun, Packets;
    var j := |s.sent| - 1;
    FirstOfThree(l);
    Executes(l, 1);
    Settled(l, 1);
    OutcomeOf(l, 1);
    Delivered(THREE, given, s, j, Decides(l, 1), Announces(THREE, l), true, [Slot(l)], Settles(l, 1).rep);
    s' := Put(s.(delivered := s.delivered + {j}), l, Settles(l, 1).rep, Announces(THREE, l));
  }

  /** The follower that both leaders ask restarts after its first vote. */
  lemma LostPreAccepted() returns (s: Sys)
    ensures Reached(THREE, VOTE, s) && Unrelated(s, Slot(1), Slot(3))
  {
    hide Reached, Settles, Unrelated, Faults.Counted, LosesOnly;
    Start(THREE, VOTE);
    var s1, _ := AsksOne(THREE, VOTE, Initial(THREE), 1, 2);
    var s2 := CountsOnce(VOTE, s1, 1);
    LosesOne(s2, 2, Slot(1), PreAcceptedVote);
    hide Voted;
    var s3 := Forgets(THREE, VOTE, s2, 2);
    assert Idle(THREE, s3, 3, 2);
    var s4, _ := AsksOne(THREE, VOTE, s3, 3, 2);
    s := CountsOnce(VOTE, s4, 3);
    BothDecided(s, 1);
  }

  // ----- Accepted -----

  const TAKEN := Faulty({}, {AcceptedVote})

  /** The leader after its slow commit. */
  function Final(l: ReplicaID): Replica {
    var o := ExecuteAll(Chose(l), [Slot(l)]);
    if o.Done? then o.rep else EMPTY
  }

  /** f and g accept: their AcceptOKs are the last two packets. */
  lemma BothTake(given: Faulty, s: Sys, l: ReplicaID, f: ReplicaID, g: ReplicaID, i: nat, j: nat) returns (s': Sys)
    requires Reached(FIVE, given, s) && s.crashed == {} && l in FIVE.nodes && l != f && l != g && f != g
    requires f in s.reps && g in s.reps && s.reps[f] == Voted(l) && s.reps[g] == Voted(l)
    requires Waits(s, i, l, f, Request(l)) && Waits(s, j, l, g, Request(l))
    requires forall n :: n in s.delivered ==> n < |s.sent|
    ensures Reached(FIVE, given, s') && s'.crashed == {} && s'.reps == s.reps[f := Took(l)][g := Took(l)]
    ensures |s'.sent| == |s.sent| + 2 && (forall n :: n in s'.delivered ==> n < |s.sent|)
    ensures s'.sent[|s.sent|].msg == SlowPath.Agreed(l) && s'.sent[|s.sent| + 1].msg == SlowPath.Agreed(l)
  {
    hide Reached, Replicas.Step, Packets, Took, Voted;
    Takes(l, f);
    Delivered(FIVE, given, s, i, Took(l), [SlowPath.Agreed(l)], false, [], Took(l));
    var s1 := Put(s.(delivered := s.delivered + {i}), f, Took(l), [SlowPath.Agreed(l)]);
    Takes(l, g);
    Delivered(FIVE, given, s1, j, Took(l), [SlowPath.Agreed(l)], false, [], Took(l));
    s' := Put(s1.(delivered := s1.delivered + {j}), g, Took(l), [SlowPath.Agreed(l)]);
  }

  /** Two AcceptOKs commit. */
  lemma BothCount(given: Faulty, s: Sys, l: ReplicaID, i: nat) returns (s': Sys)
    requires Reached(FIVE, given, s) && s.crashed == {} && l in s.reps && s.reps[l] == Asked(l, 0)
    requires |s.sent| == i + 2 && s.sent[i].msg == SlowPath.Agreed(l) && s.sent[i + 1].msg == SlowPath.Agreed(l)
    requires forall n :: n in s.delivered ==> n < i
    ensures Reached(FIVE, given, s') && s'.crashed == {} && s'.reps == s.reps[l := Final(l)] && Free(s', l)
    ensures forall n :: n in s'.delivered ==> n < |s'.sent|
  {
    ChoseRuns(l);
    hide Reached, Replicas.Step, Packets, Asked, MayRun, ExecuteAll, Broadcast, Chose;
    FirstAgrees(l);
    Delivered(FIVE, given, s, i, Asked(l, 1), [], false, [], Asked(l, 1));
    var s1 := Put(s.(delivered := s.delivered + {i}), l, Asked(l, 1), []);
    SecondAgrees(l);
    Delivered(FIVE, given, s1, i + 1, Chose(l), Announces(FIVE, l), true, [Slot(l)], Final(l));
    s' := Put(s1.(delivered := s1.delivered + {i + 1}), l, Final(l), Announces(FIVE, l));
  }

  /** A whole slow commit of l with the votes of f and 5. */
  lemma CommitsSlowly(given: Faulty, s: Sys, l: ReplicaID, f: ReplicaID, h: ReplicaID) returns (s': Sys)
    requires Reached(FIVE, given, s) && Three(s, l, f, 5) && h in FIVE.nodes && h !in {l, f, 5}
    ensures Reached(FIVE, given, s') && s'.crashed == {} && Free(s', l)
    ensures s'.reps == s.reps[f := Took(l)][5 := Took(l)][l := Final(l)]
    ensures forall n :: n in s'.delivered ==> n < |s'.sent|
  {
    hide Reached, Asked, Voted, Took, Final;
    var s1, _, i, j, _ := Asks(given, s, l, f, 5, h);
    var s2 := BothTake(given, s1, l, f, 5, i, j);
    s' := BothCount(given, s2, l, |s1.sent|);
    assert s'.reps == s.reps[f := Took(l)][5 := Took(l)][l := Final(l)];
  }

  lemma TakenOnce() returns (s: Sys)
    ensures Reached(FIVE, TAKEN, s) && Free(s, 1) && s.crashed == {} && Idle(FIVE, s, 3, 4)
    ensures 5 in s.reps && s.reps[5] == Took(1)
  {
    hide Reached, Final, Took, Free;
    Start(FIVE, TAKEN);
    var s0 := Initial(FIVE);
    assert Three(s0, 1, 2, 5) && Idle(FIVE, s0, 3, 4);
    hide Initial;
    s := CommitsSlowly(TAKEN, s0, 1, 2, 3);
  }

  lemma FirstTaken() returns (s: Sys)
    ensures Reached(FIVE, TAKEN, s) && Free(s, 1) && Three(s, 3, 4, 5)
  {
    hide Reached, LosesOnly;
    var s1 := TakenOnce();
    LosesOne(s1, 5, Slot(1), AcceptedVote);
    s := Forgets(FIVE, TAKEN, s1, 5);
  }

  /** The one voter that both majorities share restarts after it accepted for the first. */
  lemma LostAccepted() returns (s: Sys)
    ensures Reached(FIVE, TAKEN, s) && Unrelated(s, Slot(1), Slot(3))
  {
    hide Reached, Final, Unrelated, Took;
    var s1 := FirstTaken();
    s := CommitsSlowly(TAKEN, s1, 3, 4, 1);
    BothFree(s);
  }

  // ----- Committed -----

  const COMMIT := Faulty({}, {CommittedVote})

  /** The second slot of leader 1, whose command depends on that of the first. */
  const SECOND := InstanceID(1, 2)

  function SecondState(status: Status): InstanceState {
    InstanceState(status, Some(Write(1)), 2, [Slot(1)])
  }

  const SECOND_PRE := PreAccept(Some(Write(1)), 2, [Slot(1)])

  /** Leader 1 with both. */
  function Both(status: Status, n: nat): Replica {
    var rep := Faults.Counted(1, 0, STOPPED);
    Replica(rep.log[SECOND := Instance(SecondState(status), n, false, 0, STOPPED)], {},
            if status == Committed then {SECOND} else {}, [], rep.storage[SECOND := SecondState(status)])
  }

  /** Follower 2, which knows of the second only. */
  function Knows2(status: Status): Replica {
    Replica(map[SECOND := FromState(SecondState(status))], {}, if status == Committed then {SECOND} else {}, [], map[])
  }

  lemma MaxIsOne()
    ensures MaxInstanceNum(Faults.Counted(1, 0, STOPPED).log, 1) == 1
  {
    var nums := Nums(Faults.Counted(1, 0, STOPPED).log, 1);
    assert Slot(1).num in nums;
    assert nums == {1};
  }

  lemma ProposesSecond()
    ensures OnRequest(THREE, 1, Faults.Counted(1, 0, STOPPED), Write(1)) ==
            Done(Both(PreAccepted, 0), Broadcast(THREE.nodes, 1, SECOND, SECOND_PRE), false)
  {
    hide ScanAll, Slice, Broadcast, MaxInstanceNum;
    var rep := Faults.Counted(1, 0, STOPPED);
    OneFound(rep.log, THREE.nodes, 1, InstanceID(0, 0), 1);
    assert Slice({Slot(1)}) == [Slot(1)] by { JustThat(1); assert {Slot(1)} + Elems([]) == {Slot(1)}; }
    MaxIsOne();
    var o := OnRequest(THREE, 1, rep, Write(1));
    assert o.rep.log == Both(PreAccepted, 0).log && o.rep.storage == Both(PreAccepted, 0).storage;
  }

  lemma VotesSecond()
    ensures Replicas.Step(THREE, 2, EMPTY, Message(2, SECOND, SECOND_PRE)) ==
            Done(Knows2(PreAccepted), [Message(1, SECOND, PreAcceptOK)], false)
  {
    hide ScanAll, Slice, OnPreAcceptOK, OnPreAcceptReply, OnAccept, OnAcceptOK, OnCommit;
    NothingFound(EMPTY.log[SECOND := NEW_INSTANCE], THREE.nodes, Write(1), SECOND);
    assert Slice({} + Elems([Slot(1)])) == [Slot(1)] by {
      JustThat(1);
      assert {} + Elems([Slot(1)]) == Elems([]) + Elems([Slot(1)]);
    }
    var o := Replicas.Step(THREE, 2, EMPTY, Message(2, SECOND, SECOND_PRE));
    assert o.rep.log == Knows2(PreAccepted).log;
  }

  const SECOND_COMMIT := Commit(Some(Write(1)), 2, [Slot(1)])

  lemma CommitsSecond()
    ensures Replicas.Step(THREE, 1, Both(PreAccepted, 0), Message(1, SECOND, PreAcceptOK)) ==
            Done(Both(Committed, 1), Broadcast(THREE.nodes, 1, SECOND, SECOND_COMMIT), true)
    ensures Replicas.Step(THREE, 2, Knows2(PreAccepted), Message(2, SECOND, SECOND_COMMIT)) ==
            Done(Knows2(Committed), [], true)
  {
    hide Broadcast, OnPreAccept, OnPreAcceptReply, OnAccept, OnAcceptOK;
    var o := Replicas.Step(THREE, 1, Both(PreAccepted, 0), Message(1, SECOND, PreAcceptOK));
    assert o.rep.log == Both(Committed, 1).log && o.rep.storage == Both(Committed, 1).storage;
    assert o.rep.timers == {} && o.rep.vertices == {SECOND};
    var p := Replicas.Step(THREE, 2, Knows2(PreAccepted), Message(2, SECOND, SECOND_COMMIT));
    assert p.rep.log == Knows2(Committed).log && p.rep.vertices == {SECOND};
  }

  /** The first slot is not committed, so nothing executes. */
  lemma SecondBlocked(rep: Replica)
    requires rep.vertices == {SECOND} && SECOND in rep.log && rep.log[SECOND].st == SecondState(Committed)
    requires forall id :: id in rep.log ==> rep.log[id].st.status != Executed
    ensures MayRun(rep, []) && ExecuteAll(rep, []) == Done(rep, [], false)
  {
    var g := map[SECOND := Exec([Slot(1)], 2, 1)];
    assert VertexGraph(rep) == g && ExecutedSet(rep.log) == {};
    assert !Ready(g, {}, SECOND) by {
      hide Reach;
      ReachEdge(g, SECOND, Slot(1));
    }
    hide Ready;
    assert RunSpec(g, {}, []);
    assert ExecuteAll(rep, []).rep.log == rep.log && ExecuteAll(rep, []).rep.storage == rep.storage;
  }

  lemma SecondSent(s: Sys, f: ReplicaID, body: Body, s': Sys) returns (i: nat)
    requires f in {2, 3} && s'.sent == s.sent + Packets(1, Broadcast(THREE.nodes, 1, SECOND, body))
    ensures |s.sent| <= i < |s'.sent| && s'.sent[i] == Packet(1, Message(f, SECOND, body))
  {
    hide Packets;
    var out := Broadcast(THREE.nodes, 1, SECOND, body);
    BroadcastIn(THREE.nodes, 1, SECOND, body, Message(f, SECOND, body));
    hide Broadcast;
    var k :| 0 <= k < |out| && out[k] == Message(f, SECOND, body);
    i := |s.sent| + k;
  }

  /** Leader 1 proposes twice, and follower 2 votes on the second. */
  lemma VotedSecond() returns (s: Sys)
    ensures Reached(THREE, COMMIT, s) && s.crashed == {} && s.reps.Keys == {1, 2, 3}
    ensures s.reps[1] == Both(PreAccepted, 0) && s.reps[2] == Knows2(PreAccepted) && s.reps[3] == EMPTY
    ensures |s.sent| > 0 && s.sent[|s.sent| - 1].msg == Message(1, SECOND, PreAcceptOK)
    ensures forall n :: n in s.delivered ==> n < |s.sent| - 1
  {
    hide Reached, Broadcast, Replicas.Step, Packets, OnRequest, Faults.Counted, Both, Knows2;
    Start(THREE, COMMIT);
    var s1 := Offers(THREE, COMMIT, Initial(THREE), 1);
    ProposesSecond();
    var s2 := Put(s1, 1, Both(PreAccepted, 0), Broadcast(THREE.nodes, 1, SECOND, SECOND_PRE));
    assert Next(THREE, s1, RequestStep(1, Write(1)), s2);
    Extend(THREE, COMMIT, s1, RequestStep(1, Write(1)), s2);
    var i := SecondSent(s1, 2, SECOND_PRE, s2);
    VotesSecond();
    var rep, out := Knows2(PreAccepted), [Message(1, SECOND, PreAcceptOK)];
    Delivered(THREE, COMMIT, s2, i, rep, out, false, [], rep);
    s := Put(s2.(delivered := s2.delivered + {i}), 2, rep, out);
  }

  /** The second is committed at both; the follower restarts. */
  lemma ForgotSecond() returns (s: Sys)
    ensures Reached(THREE, COMMIT, s) && Idle(THREE, s, 3, 2) && 1 in s.reps && s.reps[1] == Both(Committed, 1)
  {
    hide Reached, Broadcast, Replicas.Step, Packets, MayRun, ExecuteAll, LosesOnly;
    var s0 := VotedSecond();
    CommitsSecond();
    SecondBlocked(Both(Committed, 1));
    SecondBlocked(Knows2(Committed));
    var out := Broadcast(THREE.nodes, 1, SECOND, SECOND_COMMIT);
    var j := |s0.sent| - 1;
    Delivered(THREE, COMMIT, s0, j, Both(Committed, 1), out, true, [], Both(Committed, 1));
    var s1 := Put(s0.(delivered := s0.delivered + {j}), 1, Both(Committed, 1), out);
    var i := SecondSent(s0, 2, SECOND_COMMIT, s1);
    Delivered(THREE, COMMIT, s1, i, Knows2(Committed), [], true, [], Knows2(Committed));
    var s2 := Put(s1.(delivered := s1.delivered + {i}), 2, Knows2(Committed), []);
    LosesOne(s2, 2, SECOND, CommittedVote);
    s := Forgets(THREE, COMMIT, s2, 2);
  }

  lemma SecondAndThird(s: Sys)
    requires Free(s, 3) && 1 in s.reps && s.reps[1] == Both(Committed, 1)
    ensures Unrelated(s, SECOND, Slot(3))
  {
    hide Reach, LeaderGraph;
    assert HoldsCommitted(s, 1, SECOND, Some(Write(1)), 2, [Slot(1)]);
    assert HoldsCommitted(s, 3, Slot(3), Some(Write(3)), 1, []);
    ReachesPair(s, SECOND, Slot(1), Slot(3));
    ReachesNothing(s, Slot(3), SECOND);
    assert Interferes(Write(1), Write(3));
    assert Decided(s, SECOND, Some(Write(1)), 2, [Slot(1)]) && Decided(s, Slot(3), Some(Write(3)), 1, []);
  }

  /** The follower restarts while a committed instance still waits for its dependency. */
  lemma LostCommitted() returns (s: Sys)
    ensures Reached(THREE, COMMIT, s) && Unrelated(s, SECOND, Slot(3))
  {
    hide Reached, Both, Unrelated, Settles, Faults.Counted, Voted;
    var s1 := ForgotSecond();
    var s2, _ := AsksOne(THREE, COMMIT, s1, 3, 2);
    s := CountsOnce(COMMIT, s2, 3);
    Settled(3, 1);
    SecondAndThird(s);
  }

  // ----- Counted votes -----

  const TALLY := Faulty({}, {OwnTally})

  lemma Reloads1(c: Config, l: ReplicaID)
    ensures var rep, out := Faults.Counted(l, 0, STOPPED), Broadcast(c.nodes, l, Slot(l), Pre(l));
            Loads(c, l, Rebooted(rep.storage), rep.storage, [Slot(l)], [[]], rep, out)
  {
    hide Broadcast;
    var rep, out := Faults.Counted(l, 0, STOPPED), Broadcast(c.nodes, l, Slot(l), Pre(l));
    var o := LoadOne(c, l, Rebooted(rep.storage), Slot(l), rep.storage[Slot(l)]);
    assert o.rep.log == rep.log && o == Done(rep, out, false);
    assert ExecuteAll(rep, []).rep.log == rep.log && ExecuteAll(rep, []).rep.storage == rep.storage;
    assert ExecuteAll(rep, []) == Done(rep, [], false);
    var runs: seq<seq<InstanceID>> := [[]];
    assert [Slot(l)][1..] == [] && runs[1..] == [] && out[|out|..] == [];
  }

  /** A leader that has counted nothing yet repeats its PreAccepts. */
  lemma Reopens(c: Config, given: Faulty, s: Sys, l: ReplicaID, rep: Replica) returns (s': Sys)
    requires Reached(c, given, s) && l in s.reps && s.crashed == {} && OwnTally in given.lost && s.reps[l] == rep
    requires rep.log.Keys == {Slot(l)} && rep.storage == Faults.Counted(l, 0, STOPPED).storage
    ensures Next(c, s, RestartStep(l, [Slot(l)], [[]]), s') && Reached(c, given, s')
    ensures s' == Put(s, l, Faults.Counted(l, 0, STOPPED), Broadcast(c.nodes, l, Slot(l), Pre(l)))
  {
    hide Reached, Broadcast, Packets;
    var back, out := Faults.Counted(l, 0, STOPPED), Broadcast(c.nodes, l, Slot(l), Pre(l));
    s' := Put(s, l, back, out);
    Reloads1(c, l);
    assert s' == Put(s, l, back, out).(crashed := s.crashed - {l});
    hide Loads;
    assert Restarts(c, s, l, [Slot(l)], [[]], s');
    assert LosesOnly(s, l, given.lost);
    Extend(c, given, s, RestartStep(l, [Slot(l)], [[]]), s');
  }

  lemma OwnLog(l: ReplicaID)
    ensures Faults.Counted(l, 0, STOPPED).log.Keys == {Slot(l)}
  {
  }

  /** The PreAccepts of a restarted leader reach the follower, which answers again. */
  lemma AsksAnew(c: Config, s: Sys, l: ReplicaID, f: ReplicaID) returns (s': Sys)
    requires Reached(c, TALLY, s) && s.crashed == {} && l in c.nodes && f in c.nodes && l != f
    requires l in s.reps && f in s.reps && s.reps[l] == Faults.Counted(l, 0, STOPPED) && s.reps[f] == Voted(l)
    requires forall n :: n in s.delivered ==> n < |s.sent|
    ensures Reached(c, TALLY, s') && s'.crashed == {} && s'.reps == s.reps && s.sent <= s'.sent
    ensures |s'.sent| > |s.sent| && s'.sent[|s'.sent| - 1].msg == Ok(l) && s.delivered <= s'.delivered
    ensures forall n :: n in s'.delivered ==> n in s.delivered || |s.sent| <= n < |s'.sent| - 1
  {
    hide Reached, Broadcast, Replicas.Step, Packets, Faults.Counted, Voted;
    var rep := Faults.Counted(l, 0, STOPPED);
    assert rep.log.Keys == {Slot(l)} by { OwnLog(l); }
    var s1 := Reopens(c, TALLY, s, l, rep);
    var i := SentTo(c, s, l, f, Pre(l), s1);
    Votes(c, l, f, Voted(l));
    Delivered(c, TALLY, s1, i, Voted(l), [Ok(l)], false, [], Voted(l));
    s' := Put(s1.(delivered := s1.delivered + {i}), f, Voted(l), [Ok(l)]);
    assert s'.reps == s.reps;
  }

  /** The leader restarts twice before any reply arrives, and then counts three of one follower. */
  lemma RestartsTwice(s: Sys, l: ReplicaID, f: ReplicaID) returns (s': Sys)
    requires Reached(FIVE, TALLY, s) && Idle(FIVE, s, l, f)
    ensures Reached(FIVE, TALLY, s') && s'.crashed == {} && Settles(l, 3).Done?
    ensures s'.reps == s.reps[f := Voted(l)][l := Settles(l, 3).rep]
    ensures forall n :: n in s'.delivered ==> n < |s'.sent|
  {
    hide Reached, Settles, Voted, Faults.Counted;
    var s1, _ := AsksOne(FIVE, TALLY, s, l, f);
    var s2 := AsksAnew(FIVE, s1, l, f);
    var s3 := AsksAnew(FIVE, s2, l, f);
    s' := CountsThrice(TALLY, s3, l, |s1.sent| - 1, |s2.sent| - 1, |s3.sent| - 1);
  }

  lemma LostTally() returns (s: Sys)
    ensures Reached(FIVE, TALLY, s) && Unrelated(s, Slot(1), Slot(3))
  {
    hide Reached, Settles, Voted, Unrelated, Faults.Counted;
    Start(FIVE, TALLY);
    var s1 := RestartsTwice(Initial(FIVE), 1, 2);
    assert Idle(FIVE, s1, 3, 4);
    s := RestartsTwice(s1, 3, 4);
    BothDecided(s, 3);
  }

  // ----- Attributes that shrink -----

  /** The leader hears of a dependency, and is about to restart. */
  lemma HeardOnce() returns (s: Sys)
    ensures Reached(FIVE, TALLY, s) && s.crashed == {} && 1 in s.reps && s.reps[1] == Heard(1, 2)
  {
    hide Reached, Replicas.Step, Packets, Faults.Counted, Differs, Heard;
    Start(FIVE, TALLY);
    var s0 := Initial(FIVE);
    assert Waiting(s0, 1, 2);
    hide Initial;
    var s1 := Opens(TALLY, s0, 1, 2);
    HearsOnce(1, 2);
    var n := |s1.sent| - 1;
    Delivered(FIVE, TALLY, s1, n, Heard(1, 2), [], false, [], Heard(1, 2));
    s := Put(s1.(delivered := s1.delivered + {n}), 1, Heard(1, 2), []);
  }

  /** A leader that has pre-accepted does not persist what it merges, so a restart takes the merged attributes back. */
  lemma AttributesShrink() returns (states: seq<Sys>, steps: seq<System.Step>, k: nat)
    ensures IsRun(FIVE, states, steps) && k < |steps| && RestartOf(steps[k], 1)
    ensures LeaderHas(states[k], Slot(1)) && LeaderHas(states[k + 1], Slot(1))
    ensures Lead(states[k], Slot(1)).st == InstanceState(PreAccepted, Some(Write(1)), 2, [Slot(2)])
    ensures Lead(states[k + 1], Slot(1)).st == InstanceState(PreAccepted, Some(Write(1)), 1, [])
  {
    hide Next, Packets, Broadcast;
    var s := HeardOnce();
    var s' := Reopens(FIVE, TALLY, s, 1, Heard(1, 2));
    states, steps :| EndsIn(FIVE, TALLY, states, steps, s);
    k := |steps|;
    var step := RestartStep(1, [Slot(1)], [[]]);
    RunExtends(FIVE, states, steps, step, s');
    states, steps := states + [s'], steps + [step];
  }
}
