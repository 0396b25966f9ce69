/** The slow path of five nodes: a leader that got two votes waits for its timer and then asks everybody to accept. */
module SlowPath {
  import opened Types
  import opened Graphs
  import opened Replicas
  import opened System
  import opened Faults

  const TICKED := Timer(1, false)

  function Chosen(l: ReplicaID): InstanceState {
    InstanceState(Accepted, Some(Write(l)), 1, [])
  }

  /** The leader on the slow path with n AcceptOKs. */
  function Asked(l: ReplicaID, n: nat): Replica {
    Replica(map[Slot(l) := Instance(Chosen(l), 2, false, n, STOPPED)], {}, {}, [], map[Slot(l) := Chosen(l)])
  }

  /** A follower that voted and then accepted. */
  function Took(l: ReplicaID): Replica {
    EMPTY.(log := map[Slot(l) := FromState(Chosen(l))])
  }

  function Request(l: ReplicaID): Body {
    Accept(1, [])
  }

  function Agreed(l: ReplicaID): Message {
    Message(l, Slot(l), AcceptOK)
  }

  lemma Ticks(l: ReplicaID)
    ensures TickOne(FIVE, l, Faults.Counted(l, 2, RUNNING), Slot(l)) == Done(Faults.Counted(l, 2, TICKED), [], false)
    ensures TickOne(FIVE, l, Faults.Counted(l, 2, TICKED), Slot(l)) ==
            Done(Asked(l, 0), Broadcast(FIVE.nodes, l, Slot(l), Request(l)), false)
  {
    hide Broadcast;
    var o := TickOne(FIVE, l, Faults.Counted(l, 2, RUNNING), Slot(l));
    assert o.rep.log == Faults.Counted(l, 2, TICKED).log;
    var p := TickOne(FIVE, l, Faults.Counted(l, 2, TICKED), Slot(l));
    assert p.rep.log == Asked(l, 0).log && p.rep.storage == Asked(l, 0).storage && p.rep.timers == {};
  }

  lemma Takes(l: ReplicaID, f: ReplicaID)
    requires l in FIVE.nodes && l != f
    ensures Replicas.Step(FIVE, f, Voted(l), Message(f, Slot(l), Request(l))) == Done(Took(l), [Agreed(l)], false)
  {
    hide OnPreAccept, OnPreAcceptOK, OnPreAcceptReply, OnAcceptOK, OnCommit;
    var o := Replicas.Step(FIVE, f, Voted(l), Message(f, Slot(l), Request(l)));
    assert o.rep.log == Took(l).log;
  }

  // ----- The run up to the Accepts -----

  /** Leader l and followers f and g are different nodes in their initial states. */
  ghost predicate Three(s: Sys, l: ReplicaID, f: ReplicaID, g: ReplicaID) {
    && Idle(FIVE, s, l, f) && g in FIVE.nodes && g != l && g != f && g in s.reps && s.reps[g] == EMPTY
  }

  /** The message to h is on the network and was not delivered yet. */
  predicate Waits(s: Sys, i: nat, l: ReplicaID, h: ReplicaID, body: Body) {
    i < |s.sent| && i !in s.delivered && s.sent[i].msg == Message(h, Slot(l), body)
  }

  /** Both followers vote; the PreAccept to h stays on the network. */
  lemma TwoVotes(given: Faulty, s: Sys, l: ReplicaID, f: ReplicaID, g: ReplicaID, h: ReplicaID)
    returns (s': Sys, i: nat)
    requires Reached(FIVE, given, s) && Three(s, l, f, g) && h in FIVE.nodes && h !in {l, f, g}
    ensures Reached(FIVE, given, s') && s'.crashed == {}
    ensures s'.reps == s.reps[l := Faults.Counted(l, 0, STOPPED)][f := Voted(l)][g := Voted(l)]
    ensures |s'.sent| >= 2 && (forall n :: n in s'.delivered ==> n < |s'.sent| - 2)
    ensures s'.sent[|s'.sent| - 2].msg == Ok(l) && s'.sent[|s'.sent| - 1].msg == Ok(l)
    ensures Waits(s', i, l, h, Pre(l)) && i < |s'.sent| - 2
  {
    hide Reached, Broadcast, Replicas.Step, Packets, Faults.Counted, Voted;
    var s1 := Offers(FIVE, given, s, l);
    var j := SentTo(FIVE, s, l, f, Pre(l), s1);
    var k := SentTo(FIVE, s, l, g, Pre(l), s1);
    i := SentTo(FIVE, s, l, h, Pre(l), s1);
    Votes(FIVE, l, f, EMPTY);
    Delivered(FIVE, given, s1, j, Voted(l), [Ok(l)], false, [], Voted(l));
    var s2 := Put(s1.(delivered := s1.delivered + {j}), f, Voted(l), [Ok(l)]);
    Votes(FIVE, l, g, EMPTY);
    Delivered(FIVE, given, s2, k, Voted(l), [Ok(l)], false, [], Voted(l));
    s' := Put(s2.(delivered := s2.delivered + {k}), g, Voted(l), [Ok(l)]);
  }

  /** The leader counts both votes, */
  lemma TwoCounted(given: Faulty, s: Sys, l: ReplicaID) returns (s': Sys)
    requires Reached(FIVE, given, s) && s.crashed == {} && l in s.reps && s.reps[l] == Faults.Counted(l, 0, STOPPED)
    requires |s.sent| >= 2 && (forall n :: n in s.delivered ==> n < |s.sent| - 2)
    requires s.sent[|s.sent| - 2].msg == Ok(l) && s.sent[|s.sent| - 1].msg == Ok(l)
    ensures Reached(FIVE, given, s') && s'.crashed == {} && s'.reps == s.reps[l := Faults.Counted(l, 2, RUNNING)]
    ensures s'.sent == s.sent && s'.delivered == s.delivered + {|s.sent| - 2, |s.sent| - 1}
  {
    hide Reached, Broadcast, Replicas.Step, Faults.Counted;
    var j := |s.sent| - 2;
    FirstOfFive(l);
    Delivered(FIVE, given, s, j, Faults.Counted(l, 1, STOPPED), [], false, [], Faults.Counted(l, 1, STOPPED));
    var s1 := Put(s.(delivered := s.delivered + {j}), l, Faults.Counted(l, 1, STOPPED), []);
    SecondOfFive(l);
    Delivered(FIVE, given, s1, j + 1, Faults.Counted(l, 2, RUNNING), [], false, [], Faults.Counted(l, 2, RUNNING));
    s' := Put(s1.(delivered := s1.delivered + {j + 1}), l, Faults.Counted(l, 2, RUNNING), []);
  }

  lemma OneTick(given: Faulty, s: Sys, l: ReplicaID, rep: Replica, out: seq<Message>) returns (s': Sys)
    requires Reached(FIVE, given, s) && Up(s, l) && s.reps[l].timers == {Slot(l)} && Slot(l) in s.reps[l].log
    requires TickOne(FIVE, l, s.reps[l], Slot(l)) == Done(rep, out, false)
    ensures Reached(FIVE, given, s') && s' == Put(s, l, rep, out)
  {
    hide Reached, TickOne, Packets;
    s' := Put(s, l, rep, out);
    assert [Slot(l)][1..] == [];
    assert TickAll(FIVE, s', l, []) == s';
    assert TickAll(FIVE, s, l, [Slot(l)]) == s';
    assert Next(FIVE, s, TickStep(l, [Slot(l)]), s');
    Extend(FIVE, given, s, TickStep(l, [Slot(l)]), s');
  }

  /** waits for more, and asks everybody to accept. */
  lemma TimedOut(given: Faulty, s: Sys, l: ReplicaID) returns (s': Sys)
    requires Reached(FIVE, given, s) && s.crashed == {} && l in s.reps && s.reps[l] == Faults.Counted(l, 2, RUNNING)
    ensures Reached(FIVE, given, s') && s' == Put(s, l, Asked(l, 0), Broadcast(FIVE.nodes, l, Slot(l), Request(l)))
  {
    hide Reached, Broadcast, Packets, TickOne;
    Ticks(l);
    var s1 := OneTick(given, s, l, Faults.Counted(l, 2, TICKED), []);
    s' := OneTick(given, s1, l, Asked(l, 0), Broadcast(FIVE.nodes, l, Slot(l), Request(l)));
    assert s' == Put(s, l, Asked(l, 0), Broadcast(FIVE.nodes, l, Slot(l), Request(l)));
  }

  /** Both followers vote, the timer fires, and everybody is asked to accept; the PreAccept to h is still on its way. */
  lemma Asks(given: Faulty, s: Sys, l: ReplicaID, f: ReplicaID, g: ReplicaID, h: ReplicaID)
    returns (s': Sys, i: nat, atF: nat, atG: nat, atH: nat)
    requires Reached(FIVE, given, s) && Three(s, l, f, g) && h in FIVE.nodes && h !in {l, f, g}
    ensures Reached(FIVE, given, s') && s'.crashed == {}
    ensures s'.reps == s.reps[l := Asked(l, 0)][f := Voted(l)][g := Voted(l)]
    ensures forall n :: n in s'.delivered ==> n < |s'.sent|
    ensures Waits(s', i, l, h, Pre(l)) && Waits(s', atF, l, f, Request(l)) && Waits(s', atG, l, g, Request(l))
    ensures Waits(s', atH, l, h, Request(l))
  {
    hide Reached, Broadcast, Packets, Faults.Counted, Voted, Asked;
    var s1: Sys;
    s1, i := TwoVotes(given, s, l, f, g, h);
    var s2 := TwoCounted(given, s1, l);
    s' := TimedOut(given, s2, l);
    atF := SentTo(FIVE, s2, l, f, Request(l), s');
    atG := SentTo(FIVE, s2, l, g, Request(l), s');
    atH := SentTo(FIVE, s2, l, h, Request(l), s');
    assert s'.reps == s.reps[l := Asked(l, 0)][f := Voted(l)][g := Voted(l)];
  }

  // ----- The decision -----

  /** The leader that commits when the second AcceptOK arrives. */
  function Chose(l: ReplicaID): Replica {
    var st := Chosen(l).(status := Committed);
    Replica(map[Slot(l) := Instance(st, 2, false, 2, STOPPED)], {}, {Slot(l)}, [], map[Slot(l) := st])
  }

  lemma FirstAgrees(l: ReplicaID)
    ensures Replicas.Step(FIVE, l, Asked(l, 0), Agreed(l)) == Done(Asked(l, 1), [], false)
  {
    hide Broadcast, OnPreAccept, OnPreAcceptOK, OnPreAcceptReply, OnAccept, OnCommit;
    var o := Replicas.Step(FIVE, l, Asked(l, 0), Agreed(l));
    assert o.rep.log == Asked(l, 1).log;
  }

  lemma SecondAgrees(l: ReplicaID)
    ensures Replicas.Step(FIVE, l, Asked(l, 1), Agreed(l)) == Done(Chose(l), Announces(FIVE, l), true)
  {
    hide Broadcast, OnPreAccept, OnPreAcceptOK, OnPreAcceptReply, OnAccept, OnCommit;
    var o := Replicas.Step(FIVE, l, Asked(l, 1), Agreed(l));
    assert o.rep.log == Chose(l).log && o.rep.storage == Chose(l).storage && o.rep.vertices == {Slot(l)};
  }

  lemma ChoseRuns(l: ReplicaID)
    ensures MayRun(Chose(l), [Slot(l)])
    ensures ExecuteAll(Chose(l), [Slot(l)]).Done?
    ensures var rep := ExecuteAll(Chose(l), [Slot(l)]).rep;
            && ExecuteAll(Chose(l), [Slot(l)]) == Done(rep, [], false)
            && Slot(l) in rep.log && rep.log[Slot(l)].st == Chosen(l).(status := Executed)
  {
    Alone(l);
    assert VertexGraph(Chose(l)) == map[Slot(l) := Exec([], 1, l)] && ExecutedSet(Chose(l).log) == {};
  }
}
