/** One replica of the protocol as a state and the functions that its handlers
    compute (epaxos/instance.go, epaxos/epaxos.go, epaxos/command.go,
    epaxos/messaging.go, epaxos/timer.go). */
module Replicas {
  import opened Keys
  import opened Types
  import opened Scan
  import opened DepSlices
  import opened Graphs

  datatype Config = Config(nodes: seq<ReplicaID>)

  predicate Quorum(c: Config, val: nat) {
    val > |c.nodes| / 2
  }

  predicate FastQuorum(c: Config, val: nat) {
    val >= |c.nodes| - 1
  }

  // ----- Messages -----

  datatype Body =
    | PreAccept(cmd: Option<Command>, seqNum: nat, deps: seq<InstanceID>)
    | PreAcceptOK
    | PreAcceptReply(seqNum: nat, deps: seq<InstanceID>)
    | Accept(seqNum: nat, deps: seq<InstanceID>)
    | AcceptOK
    | Commit(cmd: Option<Command>, seqNum: nat, deps: seq<InstanceID>)

  datatype Message = Message(to: ReplicaID, id: InstanceID, body: Body)

  predicate IsReply(b: Body) {
    b.PreAcceptOK? || b.PreAcceptReply? || b.AcceptOK?
  }

  /** One copy for every other node. */
  function Broadcast(nodes: seq<ReplicaID>, me: ReplicaID, id: InstanceID, body: Body): seq<Message> {
    if nodes == [] then []
    else if nodes[0] != me then [Message(nodes[0], id, body)] + Broadcast(nodes[1..], me, id, body)
    else Broadcast(nodes[1..], me, id, body)
  }

  // ----- State -----

  /** log: the commands of epaxos; timers: the registered slow-path timers, by
      instance; vertices: what the executor holds; executed: the instances whose commands
      were delivered for execution, in order; storage: the persisted instances. */
  datatype Replica = Replica(log: Log, timers: set<InstanceID>, vertices: set<InstanceID>,
                             executed: seq<InstanceID>, storage: map<InstanceID, InstanceState>)

  const EMPTY := Replica(map[], {}, {}, [], map[])

  datatype PanicReason = NilCommand | BadTransition

  /** run: the executor is to be run on the resulting state. */
  datatype Outcome = Panicked(reason: PanicReason) | Done(rep: Replica, out: seq<Message>, run: bool)

  /** The state transition table. */
  predicate Allowed(from: Status, to: Status) {
    || (from == NoStatus && to == PreAccepted)
    || (from == PreAccepted && to == Accepted)
    || (from == PreAccepted && to == Committed)
    || (from == Accepted && to == Committed)
    || (from == Committed && to == Executed)
  }

  function WithStatus(inst: Instance, to: Status): Instance {
    inst.(st := inst.st.(status := to))
  }

  /** The message that a transition of the command leader broadcasts. */
  function Announcement(st: InstanceState): Body {
    if st.status == PreAccepted then PreAccept(st.cmd, st.seqNum, st.deps)
    else if st.status == Accepted then Accept(st.seqNum, st.deps)
    else Commit(st.cmd, st.seqNum, st.deps)
  }

  /** transitionTo up to Committed. */
  function TransitionTo(c: Config, me: ReplicaID, rep: Replica, id: InstanceID, to: Status): Outcome
    requires id in rep.log && to in {PreAccepted, Accepted, Committed}
  {
    if !Allowed(rep.log[id].st.status, to) then Panicked(BadTransition) else
      var inst := WithStatus(rep.log[id], to);
      Done(rep.(log := rep.log[id := inst],
                storage := rep.storage[id := inst.st],
                vertices := if to == Committed then rep.vertices + {id} else rep.vertices),
           Broadcast(c.nodes, me, id, Announcement(inst.st)),
           to == Committed)
  }

  // ----- The executor -----

  function ExecOf(id: InstanceID, inst: Instance): Exec<InstanceID> {
    Exec(inst.st.deps, inst.st.seqNum, id.replica)
  }

  function VertexGraph(rep: Replica): Graph<InstanceID> {
    map id | id in rep.vertices && id in rep.log :: ExecOf(id, rep.log[id])
  }

  function ExecutedSet(log: Log): set<InstanceID> {
    set id | id in log && log[id].st.status == Executed
  }

  /** transitionTo Executed for each instance that a run of the executor executes. Delivering
      the command of an instance that has none dereferences nil. */
  function ExecuteAll(rep: Replica, ex: seq<InstanceID>): Outcome {
    if exists id :: id in ex && (id !in rep.log || rep.log[id].st.status != Committed) then Panicked(BadTransition)
    else if exists id :: id in ex && id in rep.log && rep.log[id].st.cmd.None? then Panicked(NilCommand)
    else
      var log := map id | id in rep.log :: if id in ex then WithStatus(rep.log[id], Executed) else rep.log[id];
      Done(rep.(log := log,
                vertices := rep.vertices - Elems(ex),
                executed := rep.executed + ex,
                storage := rep.storage + map id | id in Elems(ex) && id in log :: log[id].st),
           [], false)
  }

  // ----- Requests -----

  ghost function MaxInstanceNum(log: Log, r: ReplicaID): nat {
    var b := Bound(Nums(log, r));
    if b == 0 then 0 else b - 1
  }

  ghost function OnRequest(c: Config, me: ReplicaID, rep: Replica, cmd: Command): Outcome {
    match ScanAll(rep.log, c.nodes, cmd, InstanceID(0, 0))
    case ScanPanic => Panicked(NilCommand)
    case Found(maxSeq, deps) =>
      var id := InstanceID(me, MaxInstanceNum(rep.log, me) + 1);
      var inst := FromState(InstanceState(NoStatus, Some(cmd), maxSeq + 1, Slice(deps)));
      TransitionTo(c, me, rep.(log := rep.log[id := inst]), id, PreAccepted)
  }

  // ----- Messages to followers -----

  ghost function OnPreAccept(c: Config, me: ReplicaID, rep: Replica, id: InstanceID, pa: Body): Outcome
    requires id in rep.log && pa.PreAccept?
  {
    var inst := rep.log[id];
    if inst.st.status !in {NoStatus, PreAccepted} then Done(rep, [], false)
    else if pa.cmd.None? then Panicked(NilCommand)
    else match ScanAll(rep.log, c.nodes, pa.cmd.value, id)
      case ScanPanic => Panicked(NilCommand)
      case Found(maxSeq, localDeps) =>
        var st := InstanceState(PreAccepted, pa.cmd, Max(pa.seqNum, maxSeq + 1), Slice(localDeps + Elems(pa.deps)));
        var reply := if st.seqNum == pa.seqNum && |st.deps| == |pa.deps| then PreAcceptOK
                     else PreAcceptReply(st.seqNum, st.deps);
        Done(rep.(log := rep.log[id := inst.(st := st)]), [Message(id.replica, id, reply)], false)
  }

  function OnAccept(rep: Replica, id: InstanceID, a: Body): Outcome
    requires id in rep.log && a.Accept?
  {
    var inst := rep.log[id];
    if inst.st.status !in {NoStatus, PreAccepted, Accepted} then Done(rep, [], false) else
      var st := inst.st.(status := Accepted, seqNum := a.seqNum, deps := a.deps);
      Done(rep.(log := rep.log[id := inst.(st := st)]), [Message(id.replica, id, AcceptOK)], false)
  }

  function OnCommit(rep: Replica, id: InstanceID, m: Body): Outcome
    requires id in rep.log && m.Commit?
  {
    var inst := rep.log[id];
    if inst.st.status !in {NoStatus, PreAccepted, Accepted} then Done(rep, [], false) else
      var st := InstanceState(Committed, m.cmd, m.seqNum, m.deps);
      Done(rep.(log := rep.log[id := inst.(st := st)], vertices := rep.vertices + {id}), [], true)
  }

  // ----- Replies to the command leader -----

  function Register(rep: Replica, id: InstanceID): Replica
    requires id in rep.log
  {
    rep.(log := rep.log[id := rep.log[id].(timer := Timer(0, false))], timers := rep.timers + {id})
  }

  function Unregister(rep: Replica, id: InstanceID): Replica
    requires id in rep.log
  {
    rep.(log := rep.log[id := rep.log[id].(timer := STOPPED)], timers := rep.timers - {id})
  }

  function OnEitherPreAcceptReply(c: Config, me: ReplicaID, rep: Replica, id: InstanceID): Outcome
    requires id in rep.log
  {
    var inst := rep.log[id];
    var replies := inst.preAcceptReplies + 1;
    if !inst.differentReplies && FastQuorum(c, replies) then
      TransitionTo(c, me, Unregister(rep, id), id, Committed)
    else if Quorum(c, replies) then
      if inst.differentReplies then TransitionTo(c, me, Unregister(rep, id), id, Accepted)
      else if inst.timer.paused then Done(Register(rep, id), [], false)
      else Done(rep, [], false)
    else Done(rep, [], false)
  }

  function OnPreAcceptOK(c: Config, me: ReplicaID, rep: Replica, id: InstanceID): Outcome
    requires id in rep.log
  {
    var inst := rep.log[id];
    if inst.st.status != PreAccepted then Done(rep, [], false) else
      var inst' := inst.(preAcceptReplies := inst.preAcceptReplies + 1);
      OnEitherPreAcceptReply(c, me, rep.(log := rep.log[id := inst']), id)
  }

  /** The leader's instance after merging the attributes of a PreAcceptReply. */
  ghost function Merged(inst: Instance, seqNum: nat, deps: seq<InstanceID>): Instance {
    var seq' := if seqNum > inst.st.seqNum then seqNum else inst.st.seqNum;
    var deps' := Slice(Elems(inst.st.deps) + Elems(deps));
    inst.(st := inst.st.(seqNum := seq', deps := deps'),
          differentReplies := inst.differentReplies || seqNum > inst.st.seqNum || |inst.st.deps| != |deps'|,
          preAcceptReplies := inst.preAcceptReplies + 1)
  }

  ghost function OnPreAcceptReply(c: Config, me: ReplicaID, rep: Replica, id: InstanceID, m: Body): Outcome
    requires id in rep.log && m.PreAcceptReply?
  {
    var inst := rep.log[id];
    if inst.st.status != PreAccepted then Done(rep, [], false) else
      OnEitherPreAcceptReply(c, me, rep.(log := rep.log[id := Merged(inst, m.seqNum, m.deps)]), id)
  }

  function OnAcceptOK(c: Config, me: ReplicaID, rep: Replica, id: InstanceID): Outcome
    requires id in rep.log
  {
    var inst := rep.log[id];
    if inst.st.status != Accepted then Done(rep, [], false) else
      var rep' := rep.(log := rep.log[id := inst.(acceptReplies := inst.acceptReplies + 1)]);
      if Quorum(c, inst.acceptReplies + 2) then TransitionTo(c, me, rep', id, Committed)
      else Done(rep', [], false)
  }

  // ----- Dispatch -----

  predicate ValidMessage(c: Config, me: ReplicaID, m: Message) {
    && m.to == me
    && (if IsReply(m.body) then m.id.replica == me else m.id.replica != me && m.id.replica in c.nodes)
  }

  /** Step on a known instance. */
  ghost function Dispatch(c: Config, me: ReplicaID, rep: Replica, m: Message): Outcome
    requires m.id in rep.log
  {
    match m.body
    case PreAccept(_, _, _) => OnPreAccept(c, me, rep, m.id, m.body)
    case PreAcceptOK => OnPreAcceptOK(c, me, rep, m.id)
    case PreAcceptReply(_, _) => OnPreAcceptReply(c, me, rep, m.id, m.body)
    case Accept(_, _) => OnAccept(rep, m.id, m.body)
    case AcceptOK => OnAcceptOK(c, me, rep, m.id)
    case Commit(_, _, _) => OnCommit(rep, m.id, m.body)
  }

  /** The replica as Step sees it, with the instance of the message present. */
  function WithInstance(rep: Replica, id: InstanceID): Replica {
    if id in rep.log then rep else rep.(log := rep.log[id := NEW_INSTANCE])
  }

  ghost function Step(c: Config, me: ReplicaID, rep: Replica, m: Message): Outcome {
    if !ValidMessage(c, me, m) then Done(rep, [], false)
    else if m.id in rep.log then Dispatch(c, me, rep, m)
    else if m.id.replica == me then Done(rep, [], false)
    else Dispatch(c, me, rep.(log := rep.log[m.id := NEW_INSTANCE]), m)
  }

  // ----- Ticks -----

  const SLOW_PATH_TIMEOUT: nat := 2

  /** tick of the slow-path timer of id; when it fires it unregisters itself and
      the instance takes the slow path. */
  function TickOne(c: Config, me: ReplicaID, rep: Replica, id: InstanceID): Outcome
    requires id in rep.log
  {
    var inst := rep.log[id];
    if inst.timer.paused then Done(rep, [], false) else
      var ticks := inst.timer.ticksElapsed + 1;
      if ticks >= SLOW_PATH_TIMEOUT then TransitionTo(c, me, Unregister(rep, id), id, Accepted)
      else Done(rep.(log := rep.log[id := inst.(timer := Timer(ticks, false))]), [], false)
  }

  // ----- Restart -----

  /** What a replica keeps across a restart. */
  function Rebooted(storage: map<InstanceID, InstanceState>): Replica {
    EMPTY.(storage := storage)
  }

  /** Load one persisted instance; the command leader repeats its last transition. */
  function LoadOne(c: Config, me: ReplicaID, rep: Replica, id: InstanceID, st: InstanceState): Outcome {
    var rep' := rep.(log := rep.log[id := FromState(st)]);
    if id.replica != me || st.status == Executed then Done(rep', [], false)
    else if st.status == NoStatus then Panicked(BadTransition)
    else Done(rep'.(vertices := if st.status == Committed then rep.vertices + {id} else rep.vertices),
              Broadcast(c.nodes, me, id, Announcement(st)), st.status == Committed)
  }
}
