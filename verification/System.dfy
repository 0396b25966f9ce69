/** The replicas and the network as a transition system. Steps are atomic: the
    outbox of a step is on the network when the step ends. */
module System {
  import opened Keys
  import opened Types
  import opened Graphs
  import opened ExecutionSpec
  import opened Replicas

  /** A message on the network with its sender, which no handler looks at. */
  datatype Packet = Packet(from: ReplicaID, msg: Message)

  /** sent: everything ever sent; delivered: the positions in sent that were delivered at
      least once; crashed: replicas whose process panicked. */
  datatype Sys = Sys(reps: map<ReplicaID, Replica>, crashed: set<ReplicaID>, sent: seq<Packet>, delivered: set<nat>)

  /** ex is the sequence that the executor run of the step executes, order the order in
      which a map is iterated, runs the executor runs of a restart. */
  datatype Step =
    | RequestStep(r: ReplicaID, cmd: Command)
    | DeliverStep(i: nat, ex: seq<InstanceID>)
    | TickStep(r: ReplicaID, order: seq<InstanceID>)
    | RedeliverStep(i: nat, ex: seq<InstanceID>)
    | RestartStep(r: ReplicaID, order: seq<InstanceID>, runs: seq<seq<InstanceID>>)

  predicate RestartOf(step: Step, r: ReplicaID) {
    step.RestartStep? && step.r == r
  }

  /** r does not restart in steps j to k - 1. */
  ghost predicate StaysUp(steps: seq<Step>, r: ReplicaID, j: nat, k: nat) {
    forall n: nat :: j <= n < k && n < |steps| ==> !RestartOf(steps[n], r)
  }

  function Packets(r: ReplicaID, out: seq<Message>): (ps: seq<Packet>)
    ensures |ps| == |out| && forall i :: 0 <= i < |out| ==> ps[i] == Packet(r, out[i])
  {
    if out == [] then [] else [Packet(r, out[0])] + Packets(r, out[1..])
  }

  /** Replica r moves to rep and sends out. */
  function Put(s: Sys, r: ReplicaID, rep: Replica, out: seq<Message>): Sys {
    s.(reps := s.reps[r := rep], sent := s.sent + Packets(r, out))
  }

  function Crash(s: Sys, r: ReplicaID): Sys {
    s.(crashed := s.crashed + {r})
  }

  /** p is sent between s and s'. */
  ghost predicate SentNow(s: Sys, s': Sys, p: Packet) {
    exists i :: |s.sent| <= i < |s'.sent| && s'.sent[i] == p
  }

  /** r sent the body to everybody else. */
  ghost predicate Announced(c: Config, s: Sys, s': Sys, r: ReplicaID, id: InstanceID, body: Body) {
    forall q :: q in c.nodes && q != r ==> SentNow(s, s', Packet(r, Message(q, id, body)))
  }

  /** The run of the executor that may end a step. */
  ghost predicate MayRun(rep: Replica, ex: seq<InstanceID>) {
    RunSpec(VertexGraph(rep), ExecutedSet(rep.log), ex)
  }

  function AfterRun(s: Sys, r: ReplicaID, ex: seq<InstanceID>): Sys
    requires r in s.reps
  {
    match ExecuteAll(s.reps[r], ex)
    case Panicked(_) => Crash(s, r)
    case Done(rep, out, _) => Put(s, r, rep, out)
  }

  /** s' follows s when the handler of r had outcome o and the executor then executed ex. */
  ghost predicate Follows(s: Sys, r: ReplicaID, o: Outcome, ex: seq<InstanceID>, s': Sys) {
    match o
    case Panicked(_) => ex == [] && s' == Crash(s, r)
    case Done(rep, out, run) =>
      if run then
        MayRun(rep, ex) && s' == if ExecuteAll(rep, ex).Done? then AfterRun(Put(s, r, rep, out), r, ex) else Crash(s, r)
      else ex == [] && s' == Put(s, r, rep, out)
  }

  predicate Up(s: Sys, r: ReplicaID) {
    r in s.reps && r !in s.crashed
  }

  /** Tick: every registered timer once, in the given order. */
  function TickAll(c: Config, s: Sys, r: ReplicaID, order: seq<InstanceID>): Sys
    requires r in s.reps
    decreases |order|
  {
    if order == [] || order[0] !in s.reps[r].log then s
    else match TickOne(c, r, s.reps[r], order[0])
      case Panicked(_) => Crash(s, r)
      case Done(rep, out, _) => TickAll(c, Put(s, r, rep, out), r, order[1..])
  }

  // ----- Restart -----

  /** Loading the persisted instances one after the other. */
  ghost predicate Loads(c: Config, me: ReplicaID, rep: Replica, stored: map<InstanceID, InstanceState>,
                        order: seq<InstanceID>, runs: seq<seq<InstanceID>>, rep': Replica, out: seq<Message>)
    requires |runs| == |order| && forall id :: id in order ==> id in stored
    decreases |order|
  {
    if order == [] then rep' == rep && out == [] else
      match LoadOne(c, me, rep, order[0], stored[order[0]])
      case Panicked(_) => false
      case Done(rep1, out1, run) =>
        && (if run then MayRun(rep1, runs[0]) else runs[0] == [])
        && |out1| <= |out| && out[..|out1|] == out1
        && match ExecuteAll(rep1, runs[0])
           case Panicked(_) => false
           case Done(rep2, _, _) => Loads(c, me, rep2, stored, order[1..], runs[1..], rep', out[|out1|..])
  }

  ghost predicate Restarts(c: Config, s: Sys, r: ReplicaID, order: seq<InstanceID>, runs: seq<seq<InstanceID>>, s': Sys)
    requires r in s.reps
  {
    var stored := s.reps[r].storage;
    && |runs| == |order| && NoDup(order)
    && (forall id :: id in order <==> id in stored)
    && exists rep', out :: Loads(c, r, Rebooted(stored), stored, order, runs, rep', out)
                           && s' == Put(s, r, rep', out).(crashed := s.crashed - {r})
  }

  // ----- Steps -----

  ghost predicate Delivers(c: Config, s: Sys, i: nat, ex: seq<InstanceID>, s': Sys)
    requires i < |s.sent|
  {
    var m := s.sent[i].msg;
    Up(s, m.to) && Follows(s.(delivered := s.delivered + {i}), m.to, Replicas.Step(c, m.to, s.reps[m.to], m), ex, s')
  }

  ghost predicate Next(c: Config, s: Sys, step: Step, s': Sys) {
    match step
    case RequestStep(r, cmd) =>
      Up(s, r) && WellFormed(cmd.span) && Follows(s, r, OnRequest(c, r, s.reps[r], cmd), [], s')
    case DeliverStep(i, ex) =>
      i < |s.sent| && i !in s.delivered && Delivers(c, s, i, ex, s')
    case TickStep(r, order) =>
      && Up(s, r) && NoDup(order) && (forall id :: id in order <==> id in s.reps[r].timers)
      && s' == TickAll(c, s, r, order)
    case RedeliverStep(i, ex) =>
      i < |s.sent| && i in s.delivered && Delivers(c, s, i, ex, s')
    case RestartStep(r, order, runs) =>
      r in s.reps && Restarts(c, s, r, order, runs, s')
  }

  predicate ConfigOK(c: Config) {
    NoDup(c.nodes)
  }

  function Initial(c: Config): Sys {
    Sys(map r | r in c.nodes :: EMPTY, {}, [], {})
  }

  /** A run: any interleaving of steps, with loss, duplication, reordering and restarts. */
  ghost predicate IsRun(c: Config, states: seq<Sys>, steps: seq<Step>) {
    && ConfigOK(c)
    && |states| == |steps| + 1
    && states[0] == Initial(c)
    && forall k :: 0 <= k < |steps| ==> Next(c, states[k], steps[k], states[k + 1])
  }

  /** A run in which packets are delivered at most once and nobody restarts. */
  ghost predicate IsCrashStopRun(c: Config, states: seq<Sys>, steps: seq<Step>) {
    IsRun(c, states, steps) && forall k :: 0 <= k < |steps| ==> !steps[k].RedeliverStep? && !steps[k].RestartStep?
  }

  datatype Form = PreAcceptForm | PreAcceptOKForm | PreAcceptReplyForm | AcceptForm | AcceptOKForm | CommitForm

  function FormOf(b: Body): Form {
    match b
    case PreAccept(_, _, _) => PreAcceptForm
    case PreAcceptOK => PreAcceptOKForm
    case PreAcceptReply(_, _) => PreAcceptReplyForm
    case Accept(_, _) => AcceptForm
    case AcceptOK => AcceptOKForm
    case Commit(_, _, _) => CommitForm
  }

  /** Position i holds a packet of one of the forms. */
  predicate HasForm(s: Sys, i: nat, forms: set<Form>) {
    i < |s.sent| && FormOf(s.sent[i].msg.body) in forms
  }

  /** What a restart may lose: the vote on a foreign instance that is pre-accepted, accepted or committed, or the
      votes counted for an own one. A foreign instance without a command, and one that executed, are no loss. */
  datatype Loss = PreAcceptedVote | AcceptedVote | CommittedVote | OwnTally

  predicate Held(rep: Replica, r: ReplicaID, id: InstanceID, loss: Loss) {
    && id in rep.log
    && match loss
       case PreAcceptedVote => id.replica != r && rep.log[id].st.cmd.Some? && Rank(rep.log[id].st.status) <= 1
       case AcceptedVote => id.replica != r && rep.log[id].st.cmd.Some? && rep.log[id].st.status == Accepted
       case CommittedVote => id.replica != r && rep.log[id].st.cmd.Some? && rep.log[id].st.status == Committed
       case OwnTally => id.replica == r && rep.log[id].st.status == PreAccepted
  }

  /** A restart of r now loses nothing but what is in lost. */
  ghost predicate LosesOnly(s: Sys, r: ReplicaID, lost: set<Loss>) {
    r in s.reps && forall id, loss :: Held(s.reps[r], r, id, loss) ==> loss in lost
  }

  ghost predicate Limited(s: Sys, step: Step, again: set<Form>, lost: set<Loss>) {
    && (step.RedeliverStep? ==> HasForm(s, step.i, again))
    && (step.RestartStep? ==> LosesOnly(s, step.r, lost))
  }

  /** A run in which only packets of the forms again are delivered more than once, and restarts lose nothing but
      what is in lost. */
  ghost predicate IsLimitedRun(c: Config, states: seq<Sys>, steps: seq<Step>, again: set<Form>, lost: set<Loss>) {
    IsRun(c, states, steps) && forall k :: 0 <= k < |steps| ==> Limited(states[k], steps[k], again, lost)
  }

  /** The packets that follow the PreAccept round. */
  const LATE := {AcceptForm, AcceptOKForm, CommitForm}

  /** A run in which PreAccepts and the replies to them are delivered at most once, and no restart loses a vote. */
  ghost predicate IsVoteOnceRun(c: Config, states: seq<Sys>, steps: seq<Step>) {
    IsLimitedRun(c, states, steps, LATE, {})
  }

  /** A run goes on with any step that may follow. */
  lemma RunExtends(c: Config, states: seq<Sys>, steps: seq<Step>, step: Step, s': Sys)
    requires IsRun(c, states, steps) && Next(c, states[|states| - 1], step, s')
    ensures IsRun(c, states + [s'], steps + [step])
  {
    hide Next;
    var states', steps' := states + [s'], steps + [step];
    forall k | 0 <= k < |steps'| ensures Next(c, states'[k], steps'[k], states'[k + 1]) {
      if k < |steps| { assert Next(c, states[k], steps[k], states[k + 1]); }
    }
  }
}
