/** Instances and their state (epaxos/epaxospb/epaxos.proto, epaxos/instance.go). */
module Types {
  import opened Keys

  datatype Option<+T> = None | Some(value: T)

  type ReplicaID = nat

  /** Slot num of the command space of a replica, its command leader. */
  datatype InstanceID = InstanceID(replica: ReplicaID, num: nat)

  datatype Status = NoStatus | PreAccepted | Accepted | Committed | Executed

  function Rank(s: Status): nat {
    match s
    case NoStatus => 0
    case PreAccepted => 1
    case Accepted => 2
    case Committed => 3
    case Executed => 4
  }

  predicate IsCommitted(s: Status) {
    s == Committed || s == Executed
  }

  /** What is persisted of an instance. */
  datatype InstanceState = InstanceState(status: Status, cmd: Option<Command>, seqNum: nat, deps: seq<InstanceID>)

  datatype Timer = Timer(ticksElapsed: nat, paused: bool)

  /** An instance as a replica holds it: its state and, at the command leader,
      the reply counters and the slow-path timer. */
  datatype Instance = Instance(st: InstanceState, preAcceptReplies: nat, differentReplies: bool,
                               acceptReplies: nat, timer: Timer)

  type Log = map<InstanceID, Instance>

  const STOPPED := Timer(0, true)

  function FromState(st: InstanceState): Instance {
    Instance(st, 0, false, 0, STOPPED)
  }

  const NEW_INSTANCE := FromState(InstanceState(NoStatus, None, 0, []))
}
