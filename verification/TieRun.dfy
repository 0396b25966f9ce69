/** A run without duplication or restarts in which two replicas execute two writes of
    one key in opposite orders. The two writes come from one replica, depend on each
    other and have the same sequence number, which ExecutesBefore of
    epaxos/instance.go takes to be impossible. */
module TieRun {
  import opened Keys
  import opened RangeGroups
  import opened Types
  import opened Scan
  import opened DepSlices
  import opened Graphs
  import opened ExecutionSpec
  import opened Replicas
  import opened Local
  import opened System

  const C := Config([1, 2, 3])

  // Replica 1 writes, reads and writes one key.

  const KEY := Span([7], [])
  const W1 := Command(1, KEY, true, [])
  const R2 := Command(2, KEY, false, [])
  const W3 := Command(3, KEY, true, [])

  const I1 := InstanceID(1, 1)
  const I2 := InstanceID(1, 2)
  const I3 := InstanceID(1, 3)

  // ----- Scans of logs on one key -----

  /** The log holds instances I1 to I3 at most, all on the key. */
  ghost predicate OnKey(log: Log) {
    forall id :: id in log ==> id in {I1, I2, I3} && (log[id].st.cmd.Some? ==> log[id].st.cmd.value.span == KEY)
  }

  lemma KeyFacts()
    ensures Overlaps(KEY, KEY)
    ensures Grows([], RangeOf(KEY)) && Add([], RangeOf(KEY)) == [RangeOf(KEY)]
    ensures Encloses([RangeOf(KEY)], RangeOf(KEY)) && !GroupOverlaps([], RangeOf(KEY))
  {
    assert Contains([RangeOf(KEY)][0], RangeOf(KEY));
  }

  lemma {:induction false} EmptySpace(log: Log, rid: ReplicaID, cmd: Command, ignored: InstanceID, n: nat)
    requires forall id: InstanceID :: id in log && id.num < n ==> id.replica != rid
    ensures ScanSpace(log, rid, cmd, ignored, n, []) == Found(0, {})
  {
    if n > 0 { EmptySpace(log, rid, cmd, ignored, n - 1); }
  }

  lemma {:induction false} ScanFrom(log: Log, cmd: Command, ignored: InstanceID, m: nat, n: nat)
    requires m <= n && forall id: InstanceID :: id in log && id.replica == 1 ==> id.num < m
    ensures ScanSpace(log, 1, cmd, ignored, n, []) == ScanSpace(log, 1, cmd, ignored, m, [])
    decreases n
  {
    if m < n { ScanFrom(log, cmd, ignored, m, n - 1); }
  }

  /** Only the space of replica 1 matters, from slot 3 down. */
  lemma OneSpace(log: Log, cmd: Command, ignored: InstanceID)
    requires OnKey(log)
    ensures ScanAll(log, C.nodes, cmd, ignored) == ScanSpace(log, 1, cmd, ignored, 4, [])
  {
    var b := Bound(Nums(log, 1));
    forall id: InstanceID | id in log && id.replica == 1 ensures id.num < b { assert id.num in Nums(log, 1); }
    assert b > 0 ==> b - 1 in Nums(log, 1);
    ScanFrom(log, cmd, ignored, b, 4);
    EmptySpace(log, 2, cmd, ignored, Bound(Nums(log, 2)));
    EmptySpace(log, 3, cmd, ignored, Bound(Nums(log, 3)));
    assert C.nodes[1..] == [2, 3] && [2, 3][1..] == [3] && [3][1..] == [];
    var res := ScanSpace(log, 1, cmd, ignored, 4, []);
    hide ScanSpace;
    assert ScanAll(log, [3], cmd, ignored) == Found(0, {});
    assert ScanAll(log, [2, 3], cmd, ignored) == Found(0, {});
  }

  /** What slot id of such a log adds to the scan of the slots below it. */
  function AtSlot(log: Log, cmd: Command, ignored: InstanceID, id: InstanceID, below: ScanResult): ScanResult {
    if id !in log || id == ignored then below
    else if log[id].st.cmd.None? then ScanPanic
    else if log[id].st.cmd.value.writing then Found(log[id].st.seqNum, {id})
    else if cmd.writing then With(below, log[id].st.seqNum, {id})
    else below
  }

  function KeyScan(log: Log, cmd: Command, ignored: InstanceID): ScanResult {
    AtSlot(log, cmd, ignored, I3, AtSlot(log, cmd, ignored, I2, AtSlot(log, cmd, ignored, I1, Found(0, {}))))
  }

  lemma SlotStep(log: Log, cmd: Command, ignored: InstanceID, n: nat)
    requires OnKey(log) && cmd.span == KEY
    ensures ScanSpace(log, 1, cmd, ignored, n + 1, []) ==
            AtSlot(log, cmd, ignored, InstanceID(1, n), ScanSpace(log, 1, cmd, ignored, n, []))
  {
    KeyFacts();
    hide Add, Grows, Encloses, GroupOverlaps, RangeOf, Overlaps;
  }

  lemma Scans(log: Log, cmd: Command, ignored: InstanceID)
    requires OnKey(log) && cmd.span == KEY
    ensures ScanAll(log, C.nodes, cmd, ignored) == KeyScan(log, cmd, ignored)
  {
    OneSpace(log, cmd, ignored);
    assert ScanSpace(log, 1, cmd, ignored, 0, []) == Found(0, {});
    hide ScanSpace, ScanAll;
    SlotStep(log, cmd, ignored, 0);
    SlotStep(log, cmd, ignored, 1);
    SlotStep(log, cmd, ignored, 2);
    SlotStep(log, cmd, ignored, 3);
  }

  // ----- The states of the replicas -----

  function Attrs(status: Status, cmd: Command, seqNum: nat, deps: seq<InstanceID>): InstanceState {
    InstanceState(status, Some(cmd), seqNum, deps)
  }

  /** An instance of replica 1 at replica 1, with its reply counters. */
  function Own(st: InstanceState, preAcceptReplies: nat, differentReplies: bool, acceptReplies: nat): Instance {
    Instance(st, preAcceptReplies, differentReplies, acceptReplies, STOPPED)
  }

  /** Replica 1 with a new state of an instance, which it persists. */
  function Moved(rep: Replica, id: InstanceID, inst: Instance, vertices: set<InstanceID>): Replica {
    rep.(log := rep.log[id := inst], storage := rep.storage[id := inst.st], vertices := vertices)
  }

  /** A follower that has executed nothing. */
  function Follower(log: Log, vertices: set<InstanceID>): Replica {
    Replica(log, {}, vertices, [], map[])
  }

  const P1 := Own(Attrs(PreAccepted, W1, 1, []), 0, false, 0)
  const P2 := Own(Attrs(PreAccepted, R2, 2, [I1]), 0, false, 0)
  const P3 := Own(Attrs(PreAccepted, W3, 3, [I1, I2]), 0, false, 0)
  const A1 := Own(Attrs(Accepted, W1, 4, [I3]), 1, true, 0)
  const A3 := Own(Attrs(Accepted, W3, 4, [I1, I2]), 1, true, 0)
  const C1 := Own(Attrs(Committed, W1, 4, [I3]), 1, true, 1)
  const C2 := Own(Attrs(Committed, R2, 2, [I1]), 1, false, 0)
  const C3 := Own(Attrs(Committed, W3, 4, [I1, I2]), 1, true, 1)

  const L1 := Moved(EMPTY, I1, P1, {})
  const L2 := Moved(L1, I2, P2, {})
  const L3 := Moved(L2, I3, P3, {})
  const L4 := Moved(L3, I1, A1, {})
  const L5 := Moved(L4, I3, A3, {})
  const L6 := Moved(L5, I2, C2, {I2})
  const L7 := Moved(L6, I1, C1, {I1, I2})
  const L8 := Moved(L7, I3, C3, {I1, I2, I3})

  const F1 := Follower(map[I3 := FromState(Attrs(PreAccepted, W3, 3, [I1, I2]))], {})
  const F2 := F1.(log := F1.log[I1 := FromState(Attrs(PreAccepted, W1, 4, [I3]))])
  const F3 := F2.(log := F2.log[I1 := FromState(Attrs(Accepted, W1, 4, [I3]))])
  const F4 := F3.(log := F3.log[I3 := FromState(Attrs(Accepted, W3, 4, [I1, I2]))])
  const F5 := F4.(log := F4.log[I2 := FromState(Attrs(Committed, R2, 2, [I1]))], vertices := {I2})
  const F6 := F5.(log := F5.log[I1 := FromState(Attrs(Committed, W1, 4, [I3]))], vertices := {I1, I2})
  const F7 := F6.(log := F6.log[I3 := FromState(Attrs(Committed, W3, 4, [I1, I2]))], vertices := {I1, I2, I3})

  const G1 := Follower(map[I2 := FromState(Attrs(PreAccepted, R2, 2, [I1]))], {})
  const G2 := G1.(log := G1.log[I1 := FromState(Attrs(PreAccepted, W1, 3, [I2]))])
  const G3 := G2.(log := G2.log[I3 := FromState(Attrs(PreAccepted, W3, 4, [I1, I2]))])

  // ----- Requests -----

  lemma SliceIs(ids: set<InstanceID>, s: seq<InstanceID>)
    requires Sorted(s) && Elems(s) == ids
    ensures Slice(ids) == s
  {
    SliceOfIds(s);
  }

  lemma ToOthers(id: InstanceID, body: Body)
    ensures Broadcast(C.nodes, 1, id, body) == [Message(2, id, body), Message(3, id, body)]
  {
    assert C.nodes[1..] == [2, 3] && [2, 3][1..] == [3] && [3][1..] == [];
    assert Broadcast([3], 1, id, body) == [Message(3, id, body)];
    assert Broadcast([2, 3], 1, id, body) == [Message(2, id, body), Message(3, id, body)];
  }

  lemma MaxNum(log: Log, n: nat)
    requires forall id: InstanceID :: id in log && id.replica == 1 ==> id.num <= n
    requires n > 0 ==> InstanceID(1, n) in log
    ensures MaxInstanceNum(log, 1) == n
  {
    var b := Bound(Nums(log, 1));
    assert n > 0 ==> InstanceID(1, n).num in Nums(log, 1);
    assert b > 0 ==> b - 1 in Nums(log, 1);
  }

  lemma Request1()
    ensures OnRequest(C, 1, EMPTY, W1) == Done(L1, Broadcast(C.nodes, 1, I1, PreAccept(Some(W1), 1, [])), false)
  {
    hide ScanAll, Slice, Broadcast, MaxInstanceNum;
    Scans(EMPTY.log, W1, InstanceID(0, 0));
    SliceIs({}, []);
    MaxNum(EMPTY.log, 0);
    var o := OnRequest(C, 1, EMPTY, W1);
    assert o.rep.log == L1.log && o.rep.storage == L1.storage;
  }

  lemma Request2()
    ensures OnRequest(C, 1, L1, R2) == Done(L2, Broadcast(C.nodes, 1, I2, PreAccept(Some(R2), 2, [I1])), false)
  {
    hide ScanAll, Slice, Broadcast, MaxInstanceNum;
    Scans(L1.log, R2, InstanceID(0, 0));
    assert ScanAll(L1.log, C.nodes, R2, InstanceID(0, 0)) == Found(1, {I1});
    hide KeyScan;
    SliceIs({I1}, [I1]);
    MaxNum(L1.log, 1);
    var o := OnRequest(C, 1, L1, R2);
    assert o.rep.log == L2.log && o.rep.storage == L2.storage;
  }

  lemma Request3()
    ensures OnRequest(C, 1, L2, W3) == Done(L3, Broadcast(C.nodes, 1, I3, PreAccept(Some(W3), 3, [I1, I2])), false)
  {
    hide ScanAll, Slice, Broadcast, MaxInstanceNum;
    Scans(L2.log, W3, InstanceID(0, 0));
    assert ScanAll(L2.log, C.nodes, W3, InstanceID(0, 0)) == Found(2, {I2} + {I1});
    hide KeyScan;
    SliceIs({I2} + {I1}, [I1, I2]);
    MaxNum(L2.log, 2);
    var o := OnRequest(C, 1, L2, W3);
    assert o.rep.log == L3.log && o.rep.storage == L3.storage;
  }

  // ----- Votes -----

  lemma Vote3At2()
    ensures Replicas.Step(C, 2, EMPTY, Message(2, I3, PreAccept(Some(W3), 3, [I1, I2]))) ==
            Done(F1, [Message(1, I3, PreAcceptOK)], false)
  {
    hide ScanAll, Slice;
    var log := EMPTY.log[I3 := NEW_INSTANCE];
    Scans(log, W3, I3);
    SliceIs({} + Elems([I1, I2]), [I1, I2]);
    var o := Replicas.Step(C, 2, EMPTY, Message(2, I3, PreAccept(Some(W3), 3, [I1, I2])));
    assert o.rep.log == F1.log;
  }

  lemma Vote1At2()
    ensures Replicas.Step(C, 2, F1, Message(2, I1, PreAccept(Some(W1), 1, []))) ==
            Done(F2, [Message(1, I1, PreAcceptReply(4, [I3]))], false)
  {
    hide ScanAll, Slice;
    var log := F1.log[I1 := NEW_INSTANCE];
    Scans(log, W1, I1);
    SliceIs({I3} + Elems([]), [I3]);
    var o := Replicas.Step(C, 2, F1, Message(2, I1, PreAccept(Some(W1), 1, [])));
    assert o.rep.log == F2.log;
  }

  lemma Vote2At3()
    ensures Replicas.Step(C, 3, EMPTY, Message(3, I2, PreAccept(Some(R2), 2, [I1]))) ==
            Done(G1, [Message(1, I2, PreAcceptOK)], false)
  {
    hide ScanAll, Slice;
    var log := EMPTY.log[I2 := NEW_INSTANCE];
    Scans(log, R2, I2);
    SliceIs({} + Elems([I1]), [I1]);
    var o := Replicas.Step(C, 3, EMPTY, Message(3, I2, PreAccept(Some(R2), 2, [I1])));
    assert o.rep.log == G1.log;
  }

  lemma Vote1At3()
    ensures Replicas.Step(C, 3, G1, Message(3, I1, PreAccept(Some(W1), 1, []))) ==
            Done(G2, [Message(1, I1, PreAcceptReply(3, [I2]))], false)
  {
    hide ScanAll, Slice;
    var log := G1.log[I1 := NEW_INSTANCE];
    Scans(log, W1, I1);
    SliceIs(({I2} + {}) + Elems([]), [I2]);
    var o := Replicas.Step(C, 3, G1, Message(3, I1, PreAccept(Some(W1), 1, [])));
    assert o.rep.log == G2.log;
  }

  lemma Vote3At3()
    ensures Replicas.Step(C, 3, G2, Message(3, I3, PreAccept(Some(W3), 3, [I1, I2]))) ==
            Done(G3, [Message(1, I3, PreAcceptReply(4, [I1, I2]))], false)
  {
    hide ScanAll, Slice;
    var log := G2.log[I3 := NEW_INSTANCE];
    Scans(log, W3, I3);
    SliceIs(({I2} + {I1}) + Elems([I1, I2]), [I1, I2]);
    var o := Replicas.Step(C, 3, G2, Message(3, I3, PreAccept(Some(W3), 3, [I1, I2])));
    assert o.rep.log == G3.log;
  }

  // ----- Decisions -----

  lemma Accept1()
    ensures Replicas.Step(C, 1, L3, Message(1, I1, PreAcceptReply(4, [I3]))) ==
            Done(L4, Broadcast(C.nodes, 1, I1, Accept(4, [I3])), false)
  {
    hide Slice, Broadcast, OnPreAccept, OnAccept, OnCommit, OnAcceptOK;
    SliceIs(Elems([]) + Elems([I3]), [I3]);
    var o := Replicas.Step(C, 1, L3, Message(1, I1, PreAcceptReply(4, [I3])));
    assert o.rep.log == L4.log && o.rep.storage == L4.storage && o.rep.vertices == L4.vertices;
  }

  lemma Accept3()
    ensures Replicas.Step(C, 1, L4, Message(1, I3, PreAcceptReply(4, [I1, I2]))) ==
            Done(L5, Broadcast(C.nodes, 1, I3, Accept(4, [I1, I2])), false)
  {
    hide Slice, Broadcast, OnPreAccept, OnAccept, OnCommit, OnAcceptOK;
    SliceIs(Elems([I1, I2]) + Elems([I1, I2]), [I1, I2]);
    var o := Replicas.Step(C, 1, L4, Message(1, I3, PreAcceptReply(4, [I1, I2])));
    assert o.rep.log == L5.log && o.rep.storage == L5.storage && o.rep.vertices == L5.vertices;
  }

  lemma Commit2()
    ensures Replicas.Step(C, 1, L5, Message(1, I2, PreAcceptOK)) ==
            Done(L6, Broadcast(C.nodes, 1, I2, Commit(Some(R2), 2, [I1])), true)
  {
    hide Broadcast, OnPreAccept, OnAccept, OnCommit, OnAcceptOK, OnPreAcceptReply;
    var o := Replicas.Step(C, 1, L5, Message(1, I2, PreAcceptOK));
    assert o.rep.log == L6.log && o.rep.storage == L6.storage && o.rep.vertices == L6.vertices;
  }

  lemma Commit1()
    ensures Replicas.Step(C, 1, L6, Message(1, I1, AcceptOK)) ==
            Done(L7, Broadcast(C.nodes, 1, I1, Commit(Some(W1), 4, [I3])), true)
  {
    hide Broadcast, OnPreAccept, OnAccept, OnCommit, OnPreAcceptOK, OnPreAcceptReply;
    var o := Replicas.Step(C, 1, L6, Message(1, I1, AcceptOK));
    assert o.rep.log == L7.log && o.rep.storage == L7.storage && o.rep.vertices == L7.vertices;
  }

  lemma Commit3()
    ensures Replicas.Step(C, 1, L7, Message(1, I3, AcceptOK)) ==
            Done(L8, Broadcast(C.nodes, 1, I3, Commit(Some(W3), 4, [I1, I2])), true)
  {
    hide Broadcast, OnPreAccept, OnAccept, OnCommit, OnPreAcceptOK, OnPreAcceptReply;
    var o := Replicas.Step(C, 1, L7, Message(1, I3, AcceptOK));
    assert o.rep.log == L8.log && o.rep.storage == L8.storage && o.rep.vertices == L8.vertices;
  }

  lemma Accept1At2()
    ensures Replicas.Step(C, 2, F2, Message(2, I1, Accept(4, [I3]))) == Done(F3, [Message(1, I1, AcceptOK)], false)
  {
    hide OnPreAccept, OnCommit, OnPreAcceptOK, OnPreAcceptReply, OnAcceptOK;
    var o := Replicas.Step(C, 2, F2, Message(2, I1, Accept(4, [I3])));
    assert o.rep.log == F3.log && o.rep.vertices == F3.vertices;
  }

  lemma Accept3At2()
    ensures Replicas.Step(C, 2, F3, Message(2, I3, Accept(4, [I1, I2]))) == Done(F4, [Message(1, I3, AcceptOK)], false)
  {
    hide OnPreAccept, OnCommit, OnPreAcceptOK, OnPreAcceptReply, OnAcceptOK;
    var o := Replicas.Step(C, 2, F3, Message(2, I3, Accept(4, [I1, I2])));
    assert o.rep.log == F4.log && o.rep.vertices == F4.vertices;
  }

  lemma Commit2At2()
    ensures Replicas.Step(C, 2, F4, Message(2, I2, Commit(Some(R2), 2, [I1]))) == Done(F5, [], true)
  {
    hide OnPreAccept, OnAccept, OnPreAcceptOK, OnPreAcceptReply, OnAcceptOK;
    var o := Replicas.Step(C, 2, F4, Message(2, I2, Commit(Some(R2), 2, [I1])));
    assert o.rep.log == F5.log && o.rep.vertices == F5.vertices;
  }

  lemma Commit1At2()
    ensures Replicas.Step(C, 2, F5, Message(2, I1, Commit(Some(W1), 4, [I3]))) == Done(F6, [], true)
  {
    hide OnPreAccept, OnAccept, OnPreAcceptOK, OnPreAcceptReply, OnAcceptOK;
    var o := Replicas.Step(C, 2, F5, Message(2, I1, Commit(Some(W1), 4, [I3])));
    assert o.rep.log == F6.log && o.rep.vertices == F6.vertices;
  }

  lemma Commit3At2()
    ensures Replicas.Step(C, 2, F6, Message(2, I3, Commit(Some(W3), 4, [I1, I2]))) == Done(F7, [], true)
  {
    hide OnPreAccept, OnAccept, OnPreAcceptOK, OnPreAcceptReply, OnAcceptOK;
    var o := Replicas.Step(C, 2, F6, Message(2, I3, Commit(Some(W3), 4, [I1, I2])));
    assert o.rep.log == F7.log && o.rep.vertices == F7.vertices;
  }

  // ----- Runs of the executor -----

  const GRAPH1 := map[I2 := Exec([I1], 2, 1)]
  const GRAPH2 := GRAPH1[I1 := Exec([I3], 4, 1)]
  const GRAPH3 := GRAPH2[I3 := Exec([I1, I2], 4, 1)]

  lemma Vertices(rep: Replica, g: Graph<InstanceID>, ex: seq<InstanceID>)
    requires rep.vertices == g.Keys && forall id :: id in g ==> id in rep.log && ExecOf(id, rep.log[id]) == g[id]
    requires forall id :: id in rep.log ==> rep.log[id].st.status != Executed
    requires RunSpec(g, {}, ex)
    ensures MayRun(rep, ex)
  {
    hide RunSpec;
    assert VertexGraph(rep) == g;
    assert ExecutedSet(rep.log) == {};
  }

  lemma Waits(g: Graph<InstanceID>, x: InstanceID, y: InstanceID)
    requires Reach(g, x, y) && y !in g
    ensures !Ready(g, {}, x)
  {
  }

  lemma NothingReady()
    ensures RunSpec(GRAPH1, {}, []) && RunSpec(GRAPH2, {}, [])
  {
    hide Reach;
    ReachEdge(GRAPH1, I2, I1);
    Waits(GRAPH1, I2, I1);
    ReachEdge(GRAPH2, I2, I1);
    ReachEdge(GRAPH2, I1, I3);
    ReachTrans(GRAPH2, I2, I1, I3);
    Waits(GRAPH2, I2, I3);
    Waits(GRAPH2, I1, I3);
    hide Ready;
  }

  /** All three depend on each other. */
  lemma AllMutual(x: InstanceID, y: InstanceID)
    requires x in GRAPH3 && y in GRAPH3
    ensures Reach(GRAPH3, x, y)
  {
    hide Reach;
    ReachEdge(GRAPH3, I1, I3);
    ReachEdge(GRAPH3, I3, I1);
    ReachEdge(GRAPH3, I3, I2);
    ReachEdge(GRAPH3, I2, I1);
    ReachTrans(GRAPH3, I1, I3, I2);
    ReachTrans(GRAPH3, I2, I1, I3);
    ReachRefl(GRAPH3, I1);
    ReachRefl(GRAPH3, I2);
    ReachRefl(GRAPH3, I3);
  }

  /** Any order that puts the read first is allowed. */
  lemma EitherOrder(ex: seq<InstanceID>)
    requires ex == [I2, I1, I3] || ex == [I2, I3, I1]
    ensures RunSpec(GRAPH3, {}, ex)
  {
    hide Reach;
    forall x, y | x in GRAPH3 && y in GRAPH3 ensures Reach(GRAPH3, x, y) { AllMutual(x, y); }
    forall x | x in GRAPH3 ensures Ready(GRAPH3, {}, x) {
      assert Closed(GRAPH3, GRAPH3.Keys);
      forall y | Reach(GRAPH3, x, y) ensures y in GRAPH3 { ReachClosed(GRAPH3, GRAPH3.Keys, x, y); }
    }
    hide Ready;
    assert Ordered(GRAPH3, ex);
  }

  lemma LeaderRuns()
    ensures MayRun(L6, []) && MayRun(L7, []) && MayRun(L8, [I2, I1, I3])
  {
    hide RunSpec;
    NothingReady();
    EitherOrder([I2, I1, I3]);
    Vertices(L6, GRAPH1, []);
    Vertices(L7, GRAPH2, []);
    Vertices(L8, GRAPH3, [I2, I1, I3]);
  }

  lemma FollowerRuns()
    ensures MayRun(F5, []) && MayRun(F6, []) && MayRun(F7, [I2, I3, I1])
  {
    hide RunSpec;
    NothingReady();
    EitherOrder([I2, I3, I1]);
    Vertices(F5, GRAPH1, []);
    Vertices(F6, GRAPH2, []);
    Vertices(F7, GRAPH3, [I2, I3, I1]);
  }

  // ----- The run -----

  /** The packets in the order in which they are sent. */
  function Sends(i: nat): Packet {
    match i
    case 0 => Packet(1, Message(2, I1, PreAccept(Some(W1), 1, [])))
    case 1 => Packet(1, Message(3, I1, PreAccept(Some(W1), 1, [])))
    case 2 => Packet(1, Message(2, I2, PreAccept(Some(R2), 2, [I1])))
    case 3 => Packet(1, Message(3, I2, PreAccept(Some(R2), 2, [I1])))
    case 4 => Packet(1, Message(2, I3, PreAccept(Some(W3), 3, [I1, I2])))
    case 5 => Packet(1, Message(3, I3, PreAccept(Some(W3), 3, [I1, I2])))
    case 6 => Packet(2, Message(1, I3, PreAcceptOK))
    case 7 => Packet(2, Message(1, I1, PreAcceptReply(4, [I3])))
    case 8 => Packet(3, Message(1, I2, PreAcceptOK))
    case 9 => Packet(3, Message(1, I1, PreAcceptReply(3, [I2])))
    case 10 => Packet(3, Message(1, I3, PreAcceptReply(4, [I1, I2])))
    case 11 => Packet(1, Message(2, I1, Accept(4, [I3])))
    case 12 => Packet(1, Message(3, I1, Accept(4, [I3])))
    case 13 => Packet(1, Message(2, I3, Accept(4, [I1, I2])))
    case 14 => Packet(1, Message(3, I3, Accept(4, [I1, I2])))
    case 15 => Packet(1, Message(2, I2, Commit(Some(R2), 2, [I1])))
    case 16 => Packet(1, Message(3, I2, Commit(Some(R2), 2, [I1])))
    case 17 => Packet(2, Message(1, I1, AcceptOK))
    case 18 => Packet(1, Message(2, I1, Commit(Some(W1), 4, [I3])))
    case 19 => Packet(1, Message(3, I1, Commit(Some(W1), 4, [I3])))
    case 20 => Packet(2, Message(1, I3, AcceptOK))
    case 21 => Packet(1, Message(2, I3, Commit(Some(W3), 4, [I1, I2])))
    case _ => Packet(1, Message(3, I3, Commit(Some(W3), 4, [I1, I2])))
  }

  function Sent(n: nat): seq<Packet> {
    seq(n, i requires 0 <= i => Sends(i))
  }

  /** The system with the first n packets sent. */
  function At(l: Replica, f: Replica, g: Replica, n: nat, delivered: set<nat>): Sys {
    Sys(map[1 := l, 2 := f, 3 := g], {}, Sent(n), delivered)
  }

  ghost predicate EndsIn(states: seq<Sys>, steps: seq<System.Step>, s: Sys) {
    IsCrashStopRun(C, states, steps) && states[|states| - 1] == s
  }

  ghost predicate Reached(s: Sys) {
    exists states, steps :: EndsIn(states, steps, s)
  }

  lemma Start()
    ensures Reached(At(EMPTY, EMPTY, EMPTY, 0, {}))
  {
    var s := At(EMPTY, EMPTY, EMPTY, 0, {});
    assert Initial(C).reps == s.reps;
    assert Initial(C) == s;
    assert EndsIn([s], [], s);
  }

  lemma Extend(s: Sys, step: System.Step, s': Sys)
    requires Reached(s) && Next(C, s, step, s') && !step.RedeliverStep? && !step.RestartStep?
    ensures Reached(s')
  {
    hide Next;
    var states, steps :| EndsIn(states, steps, s);
    RunExtends(C, states, steps, step, s');
    assert EndsIn(states + [s'], steps + [step], s');
  }

  lemma SentMore(n: nat, r: ReplicaID, out: seq<Message>)
    requires forall k :: 0 <= k < |out| ==> Sends(n + k) == Packet(r, out[k])
    ensures Sent(n) + Packets(r, out) == Sent(n + |out|)
  {
    hide Sends;
  }

  lemma Requested(f: Replica, g: Replica, n: nat, delivered: set<nat>, l: Replica, cmd: Command, l': Replica,
                  id: InstanceID, body: Body)
    requires Reached(At(l, f, g, n, delivered)) && WellFormed(cmd.span)
    requires OnRequest(C, 1, l, cmd) == Done(l', Broadcast(C.nodes, 1, id, body), false)
    requires Sends(n) == Packet(1, Message(2, id, body)) && Sends(n + 1) == Packet(1, Message(3, id, body))
    ensures Reached(At(l', f, g, n + 2, delivered))
  {
    hide OnRequest, Broadcast, Sends, WellFormed, Reached;
    ToOthers(id, body);
    var out := [Message(2, id, body), Message(3, id, body)];
    SentMore(n, 1, out);
    var s, s' := At(l, f, g, n, delivered), At(l', f, g, n + 2, delivered);
    assert s'.reps == s.reps[1 := l'];
    assert s' == Put(s, 1, l', out);
    Extend(s, RequestStep(1, cmd), s');
  }

  /** The step ends with a run of the executor that executes ex. */
  ghost predicate Ran(rep1: Replica, run: bool, ex: seq<InstanceID>, rep: Replica) {
    if run then MayRun(rep1, ex) && ExecuteAll(rep1, ex) == Done(rep, [], false) else ex == [] && rep == rep1
  }

  /** Delivery of packet i to replica r, whose state becomes rep after the executor executed ex. */
  lemma Stepped(s: Sys, i: nat, rep1: Replica, out: seq<Message>, run: bool, ex: seq<InstanceID>, rep: Replica, s': Sys)
    requires Reached(s) && i < |s.sent| && i !in s.delivered && Up(s, s.sent[i].msg.to)
    requires Replicas.Step(C, s.sent[i].msg.to, s.reps[s.sent[i].msg.to], s.sent[i].msg) == Done(rep1, out, run)
    requires Ran(rep1, run, ex, rep)
    requires s' == Put(s.(delivered := s.delivered + {i}), s.sent[i].msg.to, rep, out)
    ensures Reached(s')
  {
    hide Replicas.Step, MayRun, Reached, ExecuteAll;
    var r := s.sent[i].msg.to;
    var s1 := Put(s.(delivered := s.delivered + {i}), r, rep1, out);
    if run { assert Put(s1, r, rep, []) == s'; }
    assert Delivers(C, s, i, ex, s');
    Extend(s, DeliverStep(i, ex), s');
  }

  lemma To1(l: Replica, f: Replica, g: Replica, n: nat, delivered: set<nat>, i: nat,
            l1: Replica, out: seq<Message>, run: bool, ex: seq<InstanceID>, l': Replica)
    requires Reached(At(l, f, g, n, delivered)) && i < n && i !in delivered && Sends(i).msg.to == 1
    requires Replicas.Step(C, 1, l, Sends(i).msg) == Done(l1, out, run) && Ran(l1, run, ex, l')
    requires forall k :: 0 <= k < |out| ==> Sends(n + k) == Packet(1, out[k])
    ensures Reached(At(l', f, g, n + |out|, delivered + {i}))
  {
    hide Replicas.Step, MayRun, Reached, ExecuteAll, Sends;
    SentMore(n, 1, out);
    var s, s' := At(l, f, g, n, delivered), At(l', f, g, n + |out|, delivered + {i});
    assert s'.reps == s.reps[1 := l'];
    Stepped(s, i, l1, out, run, ex, l', s');
  }

  lemma To2(l: Replica, f: Replica, g: Replica, n: nat, delivered: set<nat>, i: nat,
            f1: Replica, out: seq<Message>, run: bool, ex: seq<InstanceID>, f': Replica)
    requires Reached(At(l, f, g, n, delivered)) && i < n && i !in delivered && Sends(i).msg.to == 2
    requires Replicas.Step(C, 2, f, Sends(i).msg) == Done(f1, out, run) && Ran(f1, run, ex, f')
    requires forall k :: 0 <= k < |out| ==> Sends(n + k) == Packet(2, out[k])
    ensures Reached(At(l, f', g, n + |out|, delivered + {i}))
  {
    hide Replicas.Step, MayRun, Reached, ExecuteAll, Sends;
    SentMore(n, 2, out);
    var s, s' := At(l, f, g, n, delivered), At(l, f', g, n + |out|, delivered + {i});
    assert s'.reps == s.reps[2 := f'];
    Stepped(s, i, f1, out, run, ex, f', s');
  }

  lemma To3(l: Replica, f: Replica, g: Replica, n: nat, delivered: set<nat>, i: nat,
            g1: Replica, out: seq<Message>, run: bool, ex: seq<InstanceID>, g': Replica)
    requires Reached(At(l, f, g, n, delivered)) && i < n && i !in delivered && Sends(i).msg.to == 3
    requires Replicas.Step(C, 3, g, Sends(i).msg) == Done(g1, out, run) && Ran(g1, run, ex, g')
    requires forall k :: 0 <= k < |out| ==> Sends(n + k) == Packet(3, out[k])
    ensures Reached(At(l, f, g', n + |out|, delivered + {i}))
  {
    hide Replicas.Step, MayRun, Reached, ExecuteAll, Sends;
    SentMore(n, 3, out);
    var s, s' := At(l, f, g, n, delivered), At(l, f, g', n + |out|, delivered + {i});
    assert s'.reps == s.reps[3 := g'];
    Stepped(s, i, g1, out, run, ex, g', s');
  }

  lemma RequestsReached()
    ensures Reached(At(L3, EMPTY, EMPTY, 6, {}))
  {
    hide OnRequest, Reached, Broadcast, At;
    Start();
    Request1();
    Requested(EMPTY, EMPTY, 0, {}, EMPTY, W1, L1, I1, PreAccept(Some(W1), 1, []));
    Request2();
    Requested(EMPTY, EMPTY, 2, {}, L1, R2, L2, I2, PreAccept(Some(R2), 2, [I1]));
    Request3();
    Requested(EMPTY, EMPTY, 4, {}, L2, W3, L3, I3, PreAccept(Some(W3), 3, [I1, I2]));
  }

  lemma VotesReached()
    ensures Reached(At(L3, F2, G3, 11, {0, 1, 3, 4, 5}))
  {
    hide Replicas.Step, Reached, At;
    RequestsReached();
    Vote3At2();
    To2(L3, EMPTY, EMPTY, 6, {}, 4, F1, [Message(1, I3, PreAcceptOK)], false, [], F1);
    Vote1At2();
    To2(L3, F1, EMPTY, 7, {} + {4}, 0, F2, [Message(1, I1, PreAcceptReply(4, [I3]))], false, [], F2);
    Vote2At3();
    To3(L3, F2, EMPTY, 8, {} + {4} + {0}, 3, G1, [Message(1, I2, PreAcceptOK)], false, [], G1);
    Vote1At3();
    To3(L3, F2, G1, 9, {} + {4} + {0} + {3}, 1, G2, [Message(1, I1, PreAcceptReply(3, [I2]))], false, [], G2);
    Vote3At3();
    To3(L3, F2, G2, 10, {} + {4} + {0} + {3} + {1}, 5, G3, [Message(1, I3, PreAcceptReply(4, [I1, I2]))], false, [],
        G3);
    assert {} + {4} + {0} + {3} + {1} + {5} == {0, 1, 3, 4, 5};
  }

  lemma NoRun(rep: Replica)
    requires MayRun(rep, [])
    ensures Ran(rep, true, [], rep)
  {
    ExecuteNothing(rep);
  }

  function Both(id: InstanceID, body: Body): seq<Message> {
    [Message(2, id, body), Message(3, id, body)]
  }

  lemma Accept1Reached()
    ensures Reached(At(L4, F2, G3, 13, {0, 1, 3, 4, 5, 7}))
  {
    hide Replicas.Step, Reached, At, Broadcast;
    VotesReached();
    Accept1();
    ToOthers(I1, Accept(4, [I3]));
    To1(L3, F2, G3, 11, {0, 1, 3, 4, 5}, 7, L4, Both(I1, Accept(4, [I3])), false, [], L4);
    assert {0, 1, 3, 4, 5} + {7} == {0, 1, 3, 4, 5, 7};
  }

  lemma AcceptsReached()
    ensures Reached(At(L6, F2, G3, 17, {0, 1, 3, 4, 5, 7, 8, 10}))
  {
    hide Replicas.Step, Reached, At, Broadcast, MayRun, ExecuteAll;
    Accept1Reached();
    LeaderRuns();
    var d := {0, 1, 3, 4, 5, 7};
    Accept3();
    ToOthers(I3, Accept(4, [I1, I2]));
    To1(L4, F2, G3, 13, d, 10, L5, Both(I3, Accept(4, [I1, I2])), false, [], L5);
    Commit2();
    ToOthers(I2, Commit(Some(R2), 2, [I1]));
    NoRun(L6);
    To1(L5, F2, G3, 15, d + {10}, 8, L6, Both(I2, Commit(Some(R2), 2, [I1])), true, [], L6);
    assert d + {10} + {8} == {0, 1, 3, 4, 5, 7, 8, 10};
  }

  /** The early exit can miss the maximum in a run: with I1 raised to 4 by a follower, a request of replica 1 stops at
      I3, whose number is 3. */
  lemma ScanMissesMax()
    ensures Reached(At(L4, F2, G3, 13, {0, 1, 3, 4, 5, 7})) && 1 in At(L4, F2, G3, 13, {0, 1, 3, 4, 5, 7}).reps
    ensures var log := At(L4, F2, G3, 13, {0, 1, 3, 4, 5, 7}).reps[1].log;
            && ScanAll(log, C.nodes, W1, InstanceID(0, 0)) == Found(3, {I3})
            && !FullMax(log, C.nodes, W1, InstanceID(0, 0), 3)
  {
    hide Reached, ScanAll;
    Accept1Reached();
    Scans(L4.log, W1, InstanceID(0, 0));
    KeyFacts();
    assert Known(L4.log, W1, I1) && L4.log[I1].st.seqNum == 4;
  }

  const L9 := ExecuteAll(L8, [I2, I1, I3])
  const F8 := ExecuteAll(F7, [I2, I3, I1])

  lemma Executes(rep: Replica, ex: seq<InstanceID>)
    requires MayRun(rep, ex) && rep.executed == []
    requires forall id :: id in ex ==> id in rep.log && rep.log[id].st.status == Committed && rep.log[id].st.cmd.Some?
    ensures ExecuteAll(rep, ex).Done? && Ran(rep, true, ex, ExecuteAll(rep, ex).rep)
    ensures ExecuteAll(rep, ex).rep.executed == ex
  {
    hide MayRun;
  }

  lemma LastRuns()
    ensures L9.Done? && Ran(L8, true, [I2, I1, I3], L9.rep) && L9.rep.executed == [I2, I1, I3]
    ensures F8.Done? && Ran(F7, true, [I2, I3, I1], F8.rep) && F8.rep.executed == [I2, I3, I1]
  {
    hide MayRun, ExecuteAll, Ran;
    LeaderRuns();
    FollowerRuns();
    Executes(L8, [I2, I1, I3]);
    Executes(F7, [I2, I3, I1]);
  }

  lemma DecisionsReached()
    ensures L9.Done? && Reached(At(L9.rep, F4, G3, 23, {0, 1, 3, 4, 5, 7, 8, 10, 11, 13, 17, 20}))
  {
    hide Replicas.Step, Reached, At, Broadcast, MayRun, ExecuteAll;
    AcceptsReached();
    LeaderRuns();
    LastRuns();
    var d := {0, 1, 3, 4, 5, 7, 8, 10};
    Accept1At2();
    To2(L6, F2, G3, 17, d, 11, F3, [Message(1, I1, AcceptOK)], false, [], F3);
    Commit1();
    ToOthers(I1, Commit(Some(W1), 4, [I3]));
    NoRun(L7);
    To1(L6, F3, G3, 18, d + {11}, 17, L7, Both(I1, Commit(Some(W1), 4, [I3])), true, [], L7);
    Accept3At2();
    To2(L7, F3, G3, 20, d + {11} + {17}, 13, F4, [Message(1, I3, AcceptOK)], false, [], F4);
    Commit3();
    ToOthers(I3, Commit(Some(W3), 4, [I1, I2]));
    To1(L7, F4, G3, 21, d + {11} + {17} + {13}, 20, L8, Both(I3, Commit(Some(W3), 4, [I1, I2])), true, [I2, I1, I3],
        L9.rep);
    assert d + {11} + {17} + {13} + {20} == {0, 1, 3, 4, 5, 7, 8, 10, 11, 13, 17, 20};
  }

  lemma CommitsReached()
    ensures L9.Done? && F8.Done?
    ensures Reached(At(L9.rep, F8.rep, G3, 23, {0, 1, 3, 4, 5, 7, 8, 10, 11, 13, 17, 20, 15, 18, 21}))
  {
    hide Replicas.Step, Reached, At, MayRun, ExecuteAll;
    DecisionsReached();
    FollowerRuns();
    LastRuns();
    var d := {0, 1, 3, 4, 5, 7, 8, 10, 11, 13, 17, 20};
    Commit2At2();
    NoRun(F5);
    To2(L9.rep, F4, G3, 23, d, 15, F5, [], true, [], F5);
    Commit1At2();
    NoRun(F6);
    To2(L9.rep, F5, G3, 23, d + {15}, 18, F6, [], true, [], F6);
    Commit3At2();
    To2(L9.rep, F6, G3, 23, d + {15} + {18}, 21, F7, [], true, [I2, I3, I1], F8.rep);
    assert d + {15} + {18} + {21} == {0, 1, 3, 4, 5, 7, 8, 10, 11, 13, 17, 20, 15, 18, 21};
  }

  /** All replicas are up, and two of them executed the writes in opposite orders. */
  predicate Diverged(s: Sys) {
    && s.crashed == {} && 1 in s.reps && 2 in s.reps
    && s.reps[1].executed == [I2, I1, I3] && s.reps[2].executed == [I2, I3, I1]
  }

  lemma RunOf(s: Sys)
    requires Reached(s) && Diverged(s)
    ensures exists states: seq<Sys>, steps: seq<System.Step> ::
              IsCrashStopRun(C, states, steps) && Diverged(states[|states| - 1])
  {
    hide Diverged, Next;
    var states, steps :| EndsIn(states, steps, s);
    assert IsCrashStopRun(C, states, steps) && Diverged(states[|states| - 1]);
  }

  /** Ties diverge: some run without duplication and restarts ends with two replicas that
      executed two writes of the same key in opposite orders. */
  lemma TiesDiverge()
    ensures Interferes(W1, W3)
    ensures exists states: seq<Sys>, steps: seq<System.Step> ::
              IsCrashStopRun(C, states, steps) && Diverged(states[|states| - 1])
  {
    KeyFacts();
    hide Reached, ExecuteAll, Sends, Sent, IsCrashStopRun, Ran, Overlaps;
    CommitsReached();
    LastRuns();
    RunOf(At(L9.rep, F8.rep, G3, 23, {0, 1, 3, 4, 5, 7, 8, 10, 11, 13, 17, 20, 15, 18, 21}));
  }
}
