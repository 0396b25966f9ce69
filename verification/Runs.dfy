/** The promises that hold over whole runs with any faults. */
module Runs {
  import opened Keys
  import opened Types
  import opened Scan
  import opened Replicas
  import opened Local
  import opened System
  import opened Safety
  import opened Restart

  // ----- Every step keeps Safe -----

  lemma ForeignTimer(me: ReplicaID, rep: Replica, id: InstanceID)
    requires LocalSafe(me, rep) && id in rep.log && id.replica != me
    ensures rep.log[id].timer.paused
  {
    assert LocalEntry(me, rep, id);
  }

  lemma TickMoveSafe(c: Config, s: Sys, r: ReplicaID, id: InstanceID)
    requires Safe(c, s) && r in s.reps && id in s.reps[r].log
    ensures var o := TickOne(c, r, s.reps[r], id);
            o.Done? && Safe(c, Put(s, r, o.rep, o.out)) && Keep(s, Put(s, r, o.rep, o.out))
  {
    hide LocalSafe, SameElsewhere, Agrees, PacketSafe, Keep, LeaderEffect;
    var rep := s.reps[r];
    var o := TickOne(c, r, rep, id);
    TickLocal(c, r, rep, id);
    TickEffect(c, r, rep, id);
    var s' := Put(s, r, o.rep, o.out);
    if id.replica == r {
      LeaderMove(c, s, s', r, o, id);
    } else {
      ForeignTimer(r, rep, id);
      StaysSafe(c, s, s', r);
    }
  }

  lemma {:induction false} TickAllSafe(c: Config, s: Sys, r: ReplicaID, order: seq<InstanceID>)
    requires Safe(c, s) && r in s.reps
    ensures Safe(c, TickAll(c, s, r, order)) && Keep(s, TickAll(c, s, r, order))
    decreases |order|
  {
    hide Safe, Keep, TickOne;
    KeepRefl(s);
    if order != [] && order[0] in s.reps[r].log {
      TickMoveSafe(c, s, r, order[0]);
      var o := TickOne(c, r, s.reps[r], order[0]);
      var s1 := Put(s, r, o.rep, o.out);
      TickAllSafe(c, s1, r, order[1..]);
      KeepTrans(s, s1, TickAll(c, s1, r, order[1..]));
    }
  }

  lemma SameReps(s: Sys, s': Sys)
    requires s.reps == s'.reps
    ensures Keep(s, s')
  {
  }

  /** Safe does not look at crashes. */
  lemma CrashSafe(c: Config, s: Sys, s': Sys)
    requires Safe(c, s) && s'.reps == s.reps && s'.sent == s.sent
    requires forall i :: i in s'.delivered ==> i < |s.sent|
    ensures Safe(c, s') && Keep(s, s')
  {
    hide LocalSafe, Agrees, PacketSafe;
    assert Keep(s, s') by { hide Safe; SameReps(s, s'); }
    hide Keep;
    forall r, id | r in s.reps && id in s.reps[r].log ensures Agrees(s', id, s.reps[r].log[id].st) {
      AgreesKeeps(s, s', id, s.reps[r].log[id].st);
    }
    forall i | 0 <= i < |s.sent| ensures PacketSafe(s', s.sent[i]) { PacketKeeps(s, s', s.sent[i]); }
  }

  lemma RunAfter(c: Config, s: Sys, s1: Sys, r: ReplicaID, ex: seq<InstanceID>)
    requires Safe(c, s1) && Keep(s, s1) && r in s1.reps && MayRun(s1.reps[r], ex)
    ensures ExecuteAll(s1.reps[r], ex).Done?
    ensures Safe(c, AfterRun(s1, r, ex)) && Keep(s, AfterRun(s1, r, ex))
  {
    hide Safe, Keep, MayRun, AfterRun, ExecuteAll;
    ExecuteSafe(c, s1, r, ex);
    KeepTrans(s, s1, AfterRun(s1, r, ex));
  }

  lemma DeliverSafe(c: Config, s: Sys, i: nat, ex: seq<InstanceID>, s': Sys)
    requires Safe(c, s) && i < |s.sent| && Delivers(c, s, i, ex, s')
    ensures Safe(c, s') && Keep(s, s')
  {
    hide Safe, Keep, MayRun, AfterRun, Replicas.Step, ExecuteAll;
    var m := s.sent[i].msg;
    var r := m.to;
    var o := Replicas.Step(c, r, s.reps[r], m);
    var s0 := s.(delivered := s.delivered + {i});
    DeliveredIn(c, s);
    if o.Panicked? {
      CrashSafe(c, s, s');
    } else {
      var s1 := Put(s0, r, o.rep, o.out);
      assert Moves(s, s1, r, o.rep, o.out);
      StepSafe(c, s, i, s1);
      if o.run { RunAfter(c, s, s1, r, ex); }
    }
  }

  lemma RequestRun(c: Config, r: ReplicaID, rep: Replica, cmd: Command)
    ensures OnRequest(c, r, rep, cmd).Done? ==> !OnRequest(c, r, rep, cmd).run
  {
  }

  lemma NextSafe(c: Config, s: Sys, step: System.Step, s': Sys)
    requires Safe(c, s) && Next(c, s, step, s')
    ensures Safe(c, s') && Keep(s, s')
  {
    hide Safe, Keep, Delivers, TickAll, Restarts, OnRequest, MayRun;
    DeliveredIn(c, s);
    match step
    case RequestStep(r, cmd) =>
      RequestRun(c, r, s.reps[r], cmd);
      var o := OnRequest(c, r, s.reps[r], cmd);
      if o.Panicked? {
        CrashSafe(c, s, s');
      } else {
        assert Moves(s, s', r, o.rep, o.out);
        RequestSafe(c, s, r, cmd, s');
      }
    case DeliverStep(i, ex) => DeliverSafe(c, s, i, ex, s');
    case TickStep(r, order) => TickAllSafe(c, s, r, order);
    case RedeliverStep(i, ex) => DeliverSafe(c, s, i, ex, s');
    case RestartStep(r, order, runs) => RestartSafe(c, s, s', r, order, runs);
  }

  lemma InitialSafe(c: Config)
    ensures Safe(c, Initial(c))
  {
    assert forall me, id :: LocalEntry(me, EMPTY, id);
    assert forall me :: LocalSafe(me, EMPTY);
  }

  // ----- Whole runs -----

  lemma {:induction false} RunSafe(c: Config, states: seq<Sys>, steps: seq<System.Step>, k: nat)
    requires IsRun(c, states, steps) && k < |states|
    ensures Safe(c, states[k])
  {
    hide Safe, Next;
    if k == 0 {
      InitialSafe(c);
    } else {
      RunSafe(c, states, steps, k - 1);
      assert Next(c, states[k - 1], steps[k - 1], states[k]);
      NextSafe(c, states[k - 1], steps[k - 1], states[k]);
    }
  }

  lemma {:induction false} RunKeeps(c: Config, states: seq<Sys>, steps: seq<System.Step>, j: nat, k: nat)
    requires IsRun(c, states, steps) && j <= k < |states|
    ensures Keep(states[j], states[k])
    decreases k
  {
    hide Safe, Next, Keep;
    if j == k {
      KeepRefl(states[j]);
    } else {
      RunKeeps(c, states, steps, j, k - 1);
      RunSafe(c, states, steps, k - 1);
      assert Next(c, states[k - 1], steps[k - 1], states[k]);
      NextSafe(c, states[k - 1], steps[k - 1], states[k]);
      KeepTrans(states[j], states[k - 1], states[k]);
    }
  }

  /** Replica r holds id, committed or executed, with the given attributes. */
  predicate HoldsCommitted(s: Sys, r: ReplicaID, id: InstanceID, cmd: Option<Command>, seqNum: nat,
                           deps: seq<InstanceID>) {
    && r in s.reps && id in s.reps[r].log && IsCommitted(s.reps[r].log[id].st.status)
    && s.reps[r].log[id].st == InstanceState(s.reps[r].log[id].st.status, cmd, seqNum, deps)
  }

  /** A Commit message with the given attributes is on the network. */
  predicate SentCommit(s: Sys, i: nat, id: InstanceID, cmd: Option<Command>, seqNum: nat, deps: seq<InstanceID>) {
    i < |s.sent| && s.sent[i].msg.id == id && s.sent[i].msg.body == Commit(cmd, seqNum, deps)
  }

  /** A decision about id, wherever it shows. */
  ghost predicate Decided(s: Sys, id: InstanceID, cmd: Option<Command>, seqNum: nat, deps: seq<InstanceID>) {
    || (exists r :: HoldsCommitted(s, r, id, cmd, seqNum, deps))
    || (exists i :: SentCommit(s, i, id, cmd, seqNum, deps))
  }

  lemma HeldAtLeader(c: Config, s: Sys, r: ReplicaID, id: InstanceID, cmd: Option<Command>, seqNum: nat,
                     deps: seq<InstanceID>)
    requires Safe(c, s) && HoldsCommitted(s, r, id, cmd, seqNum, deps)
    ensures HoldsCommitted(s, id.replica, id, cmd, seqNum, deps)
  {
    hide LocalSafe, PacketSafe;
    assert Agrees(s, id, s.reps[r].log[id].st);
  }

  lemma SentAtLeader(c: Config, s: Sys, i: nat, id: InstanceID, cmd: Option<Command>, seqNum: nat,
                     deps: seq<InstanceID>)
    requires Safe(c, s) && SentCommit(s, i, id, cmd, seqNum, deps)
    ensures HoldsCommitted(s, id.replica, id, cmd, seqNum, deps)
  {
    hide LocalSafe, Agrees;
    assert PacketSafe(s, s.sent[i]);
  }

  lemma LeaderOwn(c: Config, s: Sys, id: InstanceID)
    requires Safe(c, s) && LeaderHas(s, id)
    ensures OwnOK(Lead(s, id).st) && id.num > 0
  {
    assert LocalEntry(id.replica, s.reps[id.replica], id);
  }

  lemma DecidedAtLeader(c: Config, s: Sys, id: InstanceID, cmd: Option<Command>, seqNum: nat, deps: seq<InstanceID>)
    requires Safe(c, s) && Decided(s, id, cmd, seqNum, deps)
    ensures HoldsCommitted(s, id.replica, id, cmd, seqNum, deps)
    ensures cmd.Some? && WellFormed(cmd.value.span)
  {
    hide Safe, SentCommit;
    if r :| HoldsCommitted(s, r, id, cmd, seqNum, deps) {
      HeldAtLeader(c, s, r, id, cmd, seqNum, deps);
    } else {
      var i :| SentCommit(s, i, id, cmd, seqNum, deps);
      SentAtLeader(c, s, i, id, cmd, seqNum, deps);
    }
    LeaderOwn(c, s, id);
  }

  /** Agreement: whatever replicas and Commit messages say of an instance, at any two
      times of any run, they say the same command, sequence number and dependencies. */
  lemma Agreement(c: Config, states: seq<Sys>, steps: seq<System.Step>, j: nat, k: nat, id: InstanceID,
                  cmd: Option<Command>, seqNum: nat, deps: seq<InstanceID>,
                  cmd': Option<Command>, seqNum': nat, deps': seq<InstanceID>)
    requires IsRun(c, states, steps) && j <= k < |states|
    requires Decided(states[j], id, cmd, seqNum, deps) && Decided(states[k], id, cmd', seqNum', deps')
    ensures cmd == cmd' && seqNum == seqNum' && deps == deps' && cmd.Some?
  {
    hide IsRun, Decided, Safe, WellFormed;
    RunSafe(c, states, steps, j);
    RunSafe(c, states, steps, k);
    RunKeeps(c, states, steps, j, k);
    DecidedAtLeader(c, states[j], id, cmd, seqNum, deps);
    DecidedAtLeader(c, states[k], id, cmd', seqNum', deps');
    assert LeaderHas(states[j], id);
  }

  /** An Accept message with the given attributes is on the network. */
  predicate SentAccept(s: Sys, i: nat, id: InstanceID, seqNum: nat, deps: seq<InstanceID>) {
    i < |s.sent| && s.sent[i].msg.id == id && s.sent[i].msg.body == Accept(seqNum, deps)
  }

  lemma AcceptAtLeader(c: Config, s: Sys, i: nat, id: InstanceID, seqNum: nat, deps: seq<InstanceID>)
    requires Safe(c, s) && SentAccept(s, i, id, seqNum, deps)
    ensures LeaderHas(s, id) && Rank(Lead(s, id).st.status) >= 2
    ensures Lead(s, id).st.seqNum == seqNum && Lead(s, id).st.deps == deps
  {
    hide LocalSafe, Agrees;
    assert PacketSafe(s, s.sent[i]);
  }

  /** A decision after a slow path carries the attributes of the Accepts, of which there is one kind. */
  lemma AcceptIsDecided(c: Config, states: seq<Sys>, steps: seq<System.Step>, j: nat, k: nat, i: nat, id: InstanceID,
                        seqNum: nat, deps: seq<InstanceID>)
    requires IsRun(c, states, steps) && j <= k < |states| && SentAccept(states[j], i, id, seqNum, deps)
    ensures forall cmd, seqNum', deps' :: Decided(states[k], id, cmd, seqNum', deps') ==>
        seqNum' == seqNum && deps' == deps
    ensures forall i', seqNum', deps' :: SentAccept(states[k], i', id, seqNum', deps') ==>
        seqNum' == seqNum && deps' == deps
  {
    hide IsRun, Decided, Safe, SentAccept, WellFormed;
    RunSafe(c, states, steps, j);
    RunSafe(c, states, steps, k);
    RunKeeps(c, states, steps, j, k);
    AcceptAtLeader(c, states[j], i, id, seqNum, deps);
    forall cmd, seqNum', deps' | Decided(states[k], id, cmd, seqNum', deps')
      ensures seqNum' == seqNum && deps' == deps
    {
      DecidedAtLeader(c, states[k], id, cmd, seqNum', deps');
    }
    forall i': nat, seqNum', deps' | SentAccept(states[k], i', id, seqNum', deps')
      ensures seqNum' == seqNum && deps' == deps
    {
      AcceptAtLeader(c, states[k], i', id, seqNum', deps');
    }
  }

  // ----- Identity -----

  /** The slot that the next request of r opens. */
  ghost function NextId(s: Sys, r: ReplicaID): InstanceID
    requires r in s.reps
  {
    InstanceID(r, MaxInstanceNum(s.reps[r].log, r) + 1)
  }

  /** Step k of the run is the request that opened id with cmd. */
  ghost predicate Proposes(states: seq<Sys>, steps: seq<System.Step>, k: nat, id: InstanceID, cmd: Command) {
    && k < |steps| && k < |states|
    && steps[k] == RequestStep(id.replica, cmd)
    && id.replica in states[k].reps && id == NextId(states[k], id.replica)
  }

  lemma StepOwnKeys(c: Config, me: ReplicaID, rep: Replica, m: Message, id: InstanceID)
    requires LocalSafe(me, rep) && Replicas.Step(c, me, rep, m).Done? && id.replica == me
    ensures id in Replicas.Step(c, me, rep, m).rep.log ==> id in rep.log
  {
    hide LocalSafe, Dispatch;
    StepLocal(c, me, rep, m);
    if id != m.id { assert Same(id, rep.log, Replicas.Step(c, me, rep, m).rep.log); }
  }

  lemma ExecuteKeys(rep: Replica, ex: seq<InstanceID>, id: InstanceID)
    ensures ExecuteAll(rep, ex).Done? ==> (id in ExecuteAll(rep, ex).rep.log <==> id in rep.log)
  {
  }

  lemma AfterRunKeys(s: Sys, r: ReplicaID, ex: seq<InstanceID>, id: InstanceID)
    requires r in s.reps && LeaderHas(AfterRun(s, r, ex), id)
    ensures LeaderHas(s, id)
  {
    hide ExecuteAll;
    ExecuteKeys(s.reps[r], ex, id);
  }

  lemma DeliverKeys(c: Config, s: Sys, i: nat, ex: seq<InstanceID>, s': Sys, id: InstanceID)
    requires Safe(c, s) && i < |s.sent| && Delivers(c, s, i, ex, s') && LeaderHas(s', id)
    ensures LeaderHas(s, id)
  {
    hide Safe, LocalSafe, MayRun, AfterRun, Replicas.Step, ExecuteAll;
    var m := s.sent[i].msg;
    var r := m.to;
    var o := Replicas.Step(c, r, s.reps[r], m);
    if o.Done? {
      LocalAt(c, s, r);
      var s1 := Put(s.(delivered := s.delivered + {i}), r, o.rep, o.out);
      if o.run && ExecuteAll(o.rep, ex).Done? { AfterRunKeys(s1, r, ex, id); }
      if id.replica == r { StepOwnKeys(c, r, s.reps[r], m, id); }
    }
  }

  lemma {:induction false} TickKeys(c: Config, s: Sys, r: ReplicaID, order: seq<InstanceID>, id: InstanceID)
    requires r in s.reps && LeaderHas(TickAll(c, s, r, order), id)
    ensures LeaderHas(s, id)
    decreases |order|
  {
    hide TickOne;
    if order != [] && order[0] in s.reps[r].log {
      var o := TickOne(c, r, s.reps[r], order[0]);
      if o.Done? {
        TickOneKeys(c, r, s.reps[r], order[0]);
        TickKeys(c, Put(s, r, o.rep, o.out), r, order[1..], id);
      }
    }
  }

  lemma StoredKnown(me: ReplicaID, rep: Replica, id: InstanceID)
    requires LocalSafe(me, rep)
    ensures id in rep.storage ==> id in rep.log
  {
    assert LocalEntry(me, rep, id);
  }

  lemma RestartKeys(c: Config, s: Sys, s': Sys, r: ReplicaID, order: seq<InstanceID>, runs: seq<seq<InstanceID>>,
                    id: InstanceID)
    requires Safe(c, s) && r in s.reps && Restarts(c, s, r, order, runs, s') && LeaderHas(s', id)
    ensures LeaderHas(s, id)
  {
    hide LocalSafe, Loads, Loading;
    var stored := s.reps[r].storage;
    var rep, out :| Loads(c, r, Rebooted(stored), stored, order, runs, rep, out)
                    && s' == Put(s, r, rep, out).(crashed := s.crashed - {r});
    assert LocalSafe(r, s.reps[r]);
    hide Safe;
    StartLoading(r, s.reps[r], order);
    LoadsSafe(c, r, Rebooted(stored), stored, order, runs, rep, out);
    LoadedLocal(r, rep, stored);
    StoredKnown(r, s.reps[r], id);
  }

  /** Only a request gives a command leader a new instance. */
  lemma NewInstance(c: Config, s: Sys, step: System.Step, s': Sys, id: InstanceID)
    requires Safe(c, s) && Next(c, s, step, s') && LeaderHas(s', id) && !LeaderHas(s, id)
    ensures step.RequestStep? && step.r == id.replica && id.replica in s.reps && id == NextId(s, id.replica)
    ensures Lead(s', id).st.cmd == Some(step.cmd)
  {
    hide Safe, Delivers, TickAll, Restarts, MayRun;
    match step
    case RequestStep(r, cmd) => hide ScanAll, MaxInstanceNum;
    case DeliverStep(i, ex) => DeliverKeys(c, s, i, ex, s', id);
    case TickStep(r, order) => TickKeys(c, s, r, order, id);
    case RedeliverStep(i, ex) => DeliverKeys(c, s, i, ex, s', id);
    case RestartStep(r, order, runs) => RestartKeys(c, s, s', r, order, runs, id);
  }

  lemma ProposesAt(states: seq<Sys>, steps: seq<System.Step>, k: nat, id: InstanceID, cmd: Command)
    requires k < |steps| && k < |states| && steps[k] == RequestStep(id.replica, cmd)
    requires id.replica in states[k].reps && id == NextId(states[k], id.replica)
    ensures Proposes(states, steps, k, id, cmd)
  {
  }

  /** Every instance known to its leader was opened by a request for the very
      command it holds, at any later time and after any restarts. */
  lemma {:induction false} WasProposed(c: Config, states: seq<Sys>, steps: seq<System.Step>, k: nat, id: InstanceID)
    returns (j: nat)
    requires IsRun(c, states, steps) && k < |states| && LeaderHas(states[k], id)
    ensures j < k && Lead(states[k], id).st.cmd.Some?
    ensures Proposes(states, steps, j, id, Lead(states[k], id).st.cmd.value)
  {
    hide Safe, Next, Proposes;
    assert !LeaderHas(states[0], id);
    RunSafe(c, states, steps, k - 1);
    assert Next(c, states[k - 1], steps[k - 1], states[k]);
    if LeaderHas(states[k - 1], id) {
      j := WasProposed(c, states, steps, k - 1, id);
      NextSafe(c, states[k - 1], steps[k - 1], states[k]);
      assert Lead(states[k], id).st.cmd == Lead(states[k - 1], id).st.cmd;
    } else {
      NewInstance(c, states[k - 1], steps[k - 1], states[k], id);
      j := k - 1;
      ProposesAt(states, steps, j, id, Lead(states[k], id).st.cmd.value);
    }
  }

  lemma MaxKnown(s: Sys, r: ReplicaID)
    requires r in s.reps && NextId(s, r).num > 1
    ensures LeaderHas(s, InstanceID(r, NextId(s, r).num - 1))
  {
    assert NextId(s, r).num - 1 in Nums(s.reps[r].log, r);
  }

  /** The slots that a leader has opened are numbered from 1 without gaps. */
  lemma {:induction false} SlotsDense(c: Config, states: seq<Sys>, steps: seq<System.Step>, k: nat, id: InstanceID,
                                      m: nat)
    requires IsRun(c, states, steps) && k < |states| && LeaderHas(states[k], id) && 1 <= m <= id.num
    ensures LeaderHas(states[k], InstanceID(id.replica, m))
  {
    hide Safe, Next, MaxInstanceNum, Keep;
    assert !LeaderHas(states[0], id);
    RunSafe(c, states, steps, k - 1);
    assert Next(c, states[k - 1], steps[k - 1], states[k]);
    if m < id.num {
      if !LeaderHas(states[k - 1], id) {
        NewInstance(c, states[k - 1], steps[k - 1], states[k], id);
        MaxKnown(states[k - 1], id.replica);
        SlotsDense(c, states, steps, k - 1, InstanceID(id.replica, id.num - 1), m);
      } else {
        SlotsDense(c, states, steps, k - 1, id, m);
      }
      NextSafe(c, states[k - 1], steps[k - 1], states[k]);
      KeepHas(states[k - 1], states[k], InstanceID(id.replica, m));
    }
  }

  /** A slot is never opened twice by requests that take effect. */
  lemma OpenedOnce(c: Config, states: seq<Sys>, steps: seq<System.Step>, j: nat, k: nat, id: InstanceID, cmd: Command,
                   cmd': Command)
    requires IsRun(c, states, steps) && j < k
    requires Proposes(states, steps, j, id, cmd) && LeaderHas(states[j + 1], id)
    ensures !Proposes(states, steps, k, id, cmd')
  {
    hide Next, MaxInstanceNum;
    if Proposes(states, steps, k, id, cmd') {
      RunKeeps(c, states, steps, j + 1, k);
      FreshId(id.replica, states[k].reps[id.replica].log);
    }
  }

  /** Every decided command was proposed at the leader of its instance. */
  lemma DecidedWasProposed(c: Config, states: seq<Sys>, steps: seq<System.Step>, k: nat, id: InstanceID,
                           cmd: Option<Command>, seqNum: nat, deps: seq<InstanceID>) returns (j: nat)
    requires IsRun(c, states, steps) && k < |states| && Decided(states[k], id, cmd, seqNum, deps)
    ensures j < k && cmd.Some? && Proposes(states, steps, j, id, cmd.value)
  {
    hide IsRun, Safe, Decided, Proposes;
    RunSafe(c, states, steps, k);
    DecidedAtLeader(c, states[k], id, cmd, seqNum, deps);
    j := WasProposed(c, states, steps, k, id);
  }

  /** No packet of a run is ever rejected by the replica it is sent to. */
  lemma PacketsValid(c: Config, states: seq<Sys>, steps: seq<System.Step>, k: nat, i: nat)
    requires IsRun(c, states, steps) && k < |states| && i < |states[k].sent|
    ensures ValidMessage(c, states[k].sent[i].msg.to, states[k].sent[i].msg)
  {
    hide IsRun, LocalSafe, Agrees;
    RunSafe(c, states, steps, k);
    assert PacketSafe(states[k], states[k].sent[i]);
  }

  // ----- No illegal transition -----

  ghost predicate MessageRunsOK(c: Config, s: Sys, r: ReplicaID, m: Message)
    requires r in s.reps
  {
    var o := Replicas.Step(c, r, s.reps[r], m);
    o.Done? && o.run ==> forall ex :: MayRun(o.rep, ex) ==> ExecuteAll(o.rep, ex) != Panicked(BadTransition)
  }

  /** Nothing that can happen next at r attempts a transition outside the table. */
  ghost predicate NoBadTransition(c: Config, s: Sys, r: ReplicaID)
    requires r in s.reps
  {
    && (forall m :: Replicas.Step(c, r, s.reps[r], m) != Panicked(BadTransition))
    && (forall cmd: Command :: WellFormed(cmd.span) ==> OnRequest(c, r, s.reps[r], cmd) != Panicked(BadTransition))
    && (forall id :: id in s.reps[r].log ==> TickOne(c, r, s.reps[r], id) != Panicked(BadTransition))
    && (forall m :: MessageRunsOK(c, s, r, m))
    && (forall id :: id in s.reps[r].storage ==>
          LoadOne(c, r, EMPTY, id, s.reps[r].storage[id]) != Panicked(BadTransition))
  }

  lemma LoadGood(c: Config, me: ReplicaID, rep: Replica, id: InstanceID)
    requires LocalSafe(me, rep) && id in rep.storage
    ensures LoadOne(c, me, EMPTY, id, rep.storage[id]).Done?
  {
    assert LocalEntry(me, rep, id);
  }

  lemma NoIllegalTransition(c: Config, states: seq<Sys>, steps: seq<System.Step>, k: nat, r: ReplicaID)
    requires IsRun(c, states, steps) && k < |states| && r in states[k].reps
    ensures NoBadTransition(c, states[k], r)
  {
    hide IsRun;
    RunSafe(c, states, steps, k);
    var s := states[k];
    var rep := s.reps[r];
    assert LocalSafe(r, rep);
    hide Safe, LocalSafe, Replicas.Step, OnRequest, TickOne, ExecuteAll, LoadOne, MayRun;
    forall m ensures Replicas.Step(c, r, rep, m) != Panicked(BadTransition) && MessageRunsOK(c, s, r, m) {
      StepLocal(c, r, rep, m);
      var o := Replicas.Step(c, r, rep, m);
      if o.Done? && o.run {
        forall ex | MayRun(o.rep, ex) ensures ExecuteAll(o.rep, ex) != Panicked(BadTransition) {
          RunVertices(o.rep, ex);
          ExecuteLocal(r, o.rep, ex);
        }
      }
    }
    forall cmd: Command | WellFormed(cmd.span) ensures OnRequest(c, r, rep, cmd) != Panicked(BadTransition) {
      RequestLocal(c, r, rep, cmd);
    }
    forall id | id in rep.log ensures TickOne(c, r, rep, id) != Panicked(BadTransition) {
      TickLocal(c, r, rep, id);
    }
    forall id | id in rep.storage ensures LoadOne(c, r, EMPTY, id, rep.storage[id]) != Panicked(BadTransition) {
      LoadGood(c, r, rep, id);
    }
  }
}
