/** Any calls of the methods of the epaxos objects, on packets that were sent, make a run of the system. */
module Refinement {
  import opened Keys
  import opened Types
  import opened Graphs
  import opened Replicas
  import opened DepSlices
  import opened Local
  import opened System
  import opened Safety
  import opened Restart
  import opened Runs
  import opened Node

  /** The system after replica r called a method: it moved to rep and sent out, or its process died and left what it
      had persisted by then. */
  function Called(s: Sys, r: ReplicaID, rep: Replica, out: seq<Message>, panic: Option<PanicReason>): Sys
    requires r in s.reps
  {
    if panic.None? then Put(s, r, rep, out)
    else Crash(s.(reps := s.reps[r := s.reps[r].(storage := rep.storage)]), r)
  }

  lemma DiedClean(s: Sys, r: ReplicaID, rep: Replica, out: seq<Message>, reason: PanicReason)
    requires r in s.reps && rep.storage == s.reps[r].storage
    ensures Called(s, r, rep, out, Some(reason)) == Crash(s, r)
  {
    assert s.reps[r := s.reps[r]] == s.reps;
  }

  /** What a method does is what Follows asks for. */
  lemma EffectFollows(s: Sys, r: ReplicaID, o: Outcome, rep: Replica, out: seq<Message>, panic: Option<PanicReason>,
                      ex: seq<InstanceID>)
    requires r in s.reps && Effect(o, rep, out, panic, ex)
    requires o.Panicked? ==> rep.storage == s.reps[r].storage
    requires o.Done? && o.run ==> ExecuteAll(o.rep, ex).Done?
    ensures Follows(s, r, o, if o.Panicked? then [] else ex, Called(s, r, rep, out, panic))
  {
    hide MayRun;
    if o.Panicked? {
      DiedClean(s, r, rep, out, o.reason);
    } else if o.run {
      PutTwice(s, r, o.rep, rep, out);
      ExecuteOut(o.rep, ex);
    }
  }

  /** EPaxos.Request on replica r. */
  lemma RequestRefines(c: Config, s: Sys, r: ReplicaID, cmd: Command, rep: Replica, out: seq<Message>,
                       panic: Option<PanicReason>)
    requires Up(s, r) && WellFormed(cmd.span) && Effect(OnRequest(c, r, s.reps[r], cmd), rep, out, panic, [])
    requires panic.Some? ==> rep.storage == s.reps[r].storage
    ensures Next(c, s, RequestStep(r, cmd), Called(s, r, rep, out, panic))
  {
    RequestRun(c, r, s.reps[r], cmd);
    hide OnRequest, WellFormed;
    EffectFollows(s, r, OnRequest(c, r, s.reps[r], cmd), rep, out, panic, []);
  }

  /** The executor that Step may run after the handler never panics in a system that is safe. */
  lemma StepRuns(c: Config, s: Sys, i: nat, o: Outcome, rep: Replica, out: seq<Message>, panic: Option<PanicReason>,
                 ex: seq<InstanceID>)
    requires Safe(c, s) && i < |s.sent| && s.sent[i].msg.to in s.reps && Effect(o, rep, out, panic, ex)
    requires o == Replicas.Step(c, s.sent[i].msg.to, s.reps[s.sent[i].msg.to], s.sent[i].msg)
    ensures o.Done? && o.run ==> ExecuteAll(o.rep, ex).Done?
  {
    hide Safe, Keep, MayRun, ExecuteAll, Replicas.Step, AfterRun;
    DeliveredIn(c, s);
    var m := s.sent[i].msg;
    if o.Done? && o.run {
      var s1 := Put(s.(delivered := s.delivered + {i}), m.to, o.rep, o.out);
      assert Moves(s, s1, m.to, o.rep, o.out);
      StepSafe(c, s, i, s1);
      ExecuteSafe(c, s1, m.to, ex);
    }
  }

  function Delivery(s: Sys, i: nat, ex: seq<InstanceID>): System.Step {
    if i in s.delivered then RedeliverStep(i, ex) else DeliverStep(i, ex)
  }

  lemma DeliveryNext(c: Config, s: Sys, i: nat, ex: seq<InstanceID>, s': Sys)
    requires i < |s.sent| && Up(s, s.sent[i].msg.to)
    requires Follows(s.(delivered := s.delivered + {i}), s.sent[i].msg.to,
                     Replicas.Step(c, s.sent[i].msg.to, s.reps[s.sent[i].msg.to], s.sent[i].msg), ex, s')
    ensures Next(c, s, Delivery(s, i, ex), s')
  {
    hide Replicas.Step, Follows;
  }

  /** EPaxos.Step of packet i on the replica it is addressed to. */
  lemma StepRefines(c: Config, s: Sys, i: nat, rep: Replica, out: seq<Message>, panic: Option<PanicReason>,
                    ex: seq<InstanceID>)
    requires Safe(c, s) && i < |s.sent| && Up(s, s.sent[i].msg.to)
    requires var o := Replicas.Step(c, s.sent[i].msg.to, s.reps[s.sent[i].msg.to], s.sent[i].msg);
             && Effect(o, rep, out, panic, ex)
             && (o.Panicked? ==> rep.storage == s.reps[s.sent[i].msg.to].storage)
    ensures exists ex' ::
              Next(c, s, Delivery(s, i, ex'),
                   Called(s.(delivered := s.delivered + {i}), s.sent[i].msg.to, rep, out, panic))
  {
    var r := s.sent[i].msg.to;
    var o := Replicas.Step(c, r, s.reps[r], s.sent[i].msg);
    hide Replicas.Step, Effect, Follows, Safe, ExecuteAll, Called, Next;
    StepRuns(c, s, i, o, rep, out, panic, ex);
    var s1, ex' := s.(delivered := s.delivered + {i}), if o.Panicked? then [] else ex;
    EffectFollows(s1, r, o, rep, out, panic, ex);
    DeliveryNext(c, s, i, ex', Called(s1, r, rep, out, panic));
  }

  lemma PutThen(s: Sys, r: ReplicaID, rep: Replica, out: seq<Message>, rep': Replica, out': seq<Message>)
    ensures Put(Put(s, r, rep, out), r, rep', out') == Put(s, r, rep', out + out')
  {
    hide Packets;
    assert Packets(r, out + out') == Packets(r, out) + Packets(r, out');
    assert s.sent + Packets(r, out) + Packets(r, out') == s.sent + Packets(r, out + out');
  }

  lemma {:induction false} TickSeqAll(c: Config, s: Sys, r: ReplicaID, order: seq<InstanceID>)
    requires r in s.reps && TickSeq(c, r, s.reps[r], order).Done?
    ensures TickAll(c, s, r, order) ==
            Put(s, r, TickSeq(c, r, s.reps[r], order).rep, TickSeq(c, r, s.reps[r], order).out)
    decreases |order|
  {
    hide TickOne;
    var rep := s.reps[r];
    if order == [] || order[0] !in rep.log {
      assert Put(s, r, rep, []) == s;
    } else {
      var o := TickOne(c, r, rep, order[0]);
      var s1 := Put(s, r, o.rep, o.out);
      TickSeqAll(c, s1, r, order[1..]);
      var o2 := TickSeq(c, r, o.rep, order[1..]);
      PutThen(s, r, o.rep, o.out, o2.rep, o2.out);
    }
  }

  /** Ticking a replica that is in order neither panics nor runs the executor. */
  lemma {:induction false} TickSeqLocal(c: Config, r: ReplicaID, rep: Replica, order: seq<InstanceID>)
    requires LocalSafe(r, rep)
    ensures TickSeq(c, r, rep, order).Done? && !TickSeq(c, r, rep, order).run
    decreases |order|
  {
    hide TickOne, LocalSafe;
    if order != [] && order[0] in rep.log {
      TickLocal(c, r, rep, order[0]);
      TickSeqLocal(c, r, TickOne(c, r, rep, order[0]).rep, order[1..]);
    }
  }

  /** EPaxos.Tick on replica r never panics. */
  lemma TickRefines(c: Config, s: Sys, r: ReplicaID, order: seq<InstanceID>, rep: Replica, out: seq<Message>,
                    panic: Option<PanicReason>)
    requires Safe(c, s) && Up(s, r)
    requires panic.None? ==> NoDup(order) && forall id :: id in order <==> id in s.reps[r].timers
    requires Effect(TickSeq(c, r, s.reps[r], order), rep, out, panic, [])
    ensures panic.None? && Next(c, s, TickStep(r, order), Put(s, r, rep, out))
  {
    hide TickSeq, TickAll, LocalSafe, Agrees, PacketSafe;
    TickSeqLocal(c, r, s.reps[r], order);
    hide Safe;
    TickSeqAll(c, s, r, order);
  }

  lemma JoinNoDup(a: seq<InstanceID>, b: seq<InstanceID>)
    requires NoDup(a) && NoDup(b) && forall x :: x in a ==> x !in b
    ensures NoDup(a + b)
  {
    forall i, j | 0 <= i < j < |a + b| ensures (a + b)[i] != (a + b)[j] {
      if i < |a| <= j { assert (a + b)[i] in a && (a + b)[j] in b; }
    }
  }

  lemma SingleNoDup(id: InstanceID)
    ensures NoDup([id])
  {
  }

  lemma SortedIds(ids: seq<InstanceID>)
    requires Sorted(ids)
    ensures NoDup(ids)
  {
  }

  /** What is still to be loaded, failed first. */
  lemma Unloaded(stored: map<InstanceID, InstanceState>, order: seq<InstanceID>, failed: InstanceID)
    returns (left: seq<InstanceID>)
    requires NoDup(order) && failed in stored && failed !in order && forall id :: id in order ==> id in stored
    ensures left != [] && left[0] == failed && NoDup(left)
    ensures NoDup(order + left) && forall id :: id in order + left <==> id in stored
  {
    hide Slice, NoDup;
    var ids := stored.Keys - Elems(order) - {failed};
    var rest := Slice(ids);
    SliceIds(ids);
    assert NoDup(rest) by { SortedIds(rest); }
    assert forall id :: id in rest <==> id in Elems(rest);
    SingleNoDup(failed);
    JoinNoDup([failed], rest);
    left := [failed] + rest;
    JoinNoDup(order, left);
  }

  /** EPaxos.InitStorage on what a replica has persisted never panics. */
  lemma LoadsAll(c: Config, r: ReplicaID, rep0: Replica, order: seq<InstanceID>, runs: seq<seq<InstanceID>>,
                 failed: InstanceID, panic: Option<PanicReason>)
    requires LocalSafe(r, rep0) && |runs| == |order| && NoDup(order) && forall id :: id in order ==> id in rep0.storage
    requires LoadFails(c, r, Rebooted(rep0.storage), rep0.storage, order, runs, failed, panic)
    ensures panic.None?
  {
    hide LocalSafe, Loading, Loads, LoadOne, ExecuteAll, MayRun, Slice, Repeats;
    var stored := rep0.storage;
    var rep, out, ex, rep', out' :| Loads(c, r, Rebooted(stored), stored, order, runs, rep, out)
                                    && LoadEffect(c, r, rep, failed, stored[failed], ex, rep', out', panic);
    var left := Unloaded(stored, order, failed);
    StartLoading(r, rep0, order + left);
    LoadsPart(c, r, Rebooted(stored), stored, order, left, runs, rep, out);
    LoadOneLoads(c, r, rep, stored, left);
    var o := LoadOne(c, r, rep, failed, stored[failed]);
    if o.run {
      RunVertices(o.rep, ex);
      ExecuteLoads(r, o.rep, stored, left[1..], ex);
    }
  }

  /** What InitStorage promises. */
  ghost predicate Loaded(c: Config, r: ReplicaID, stored: map<InstanceID, InstanceState>, order: seq<InstanceID>,
                         runs: seq<seq<InstanceID>>, rep: Replica, out: seq<Message>, panic: Option<PanicReason>,
                         failed: InstanceID) {
    && |runs| == |order| && NoDup(order) && (forall id :: id in order ==> id in stored)
    && (panic.None? ==> forall id :: id in stored ==> id in order)
    && (panic.None? ==> Loads(c, r, Rebooted(stored), stored, order, runs, rep, out))
    && (panic.Some? ==> LoadFails(c, r, Rebooted(stored), stored, order, runs, failed, panic))
  }

  /** EPaxos.Reopen and InitStorage on the storage of replica r. */
  lemma RestartRefines(c: Config, s: Sys, r: ReplicaID, order: seq<InstanceID>, runs: seq<seq<InstanceID>>,
                       rep: Replica, out: seq<Message>, panic: Option<PanicReason>, failed: InstanceID)
    requires Safe(c, s) && r in s.reps && Loaded(c, r, s.reps[r].storage, order, runs, rep, out, panic, failed)
    ensures panic.None? && Next(c, s, RestartStep(r, order, runs), Put(s, r, rep, out).(crashed := s.crashed - {r}))
  {
    LocalAt(c, s, r);
    hide Loads, LoadFails, Safe, LocalSafe;
    if panic.Some? { LoadsAll(c, r, s.reps[r], order, runs, failed, panic); }
  }

  // ----- Whole histories of calls -----

  /** A call and what it came to: the state of the object after it, the messages that it sent and whether it
      panicked. */
  datatype Call =
    | RequestCall(r: ReplicaID, cmd: Command, rep: Replica, out: seq<Message>, panic: Option<PanicReason>)
    | StepCall(i: nat, ex: seq<InstanceID>, rep: Replica, out: seq<Message>, panic: Option<PanicReason>)
    | TickCall(r: ReplicaID, order: seq<InstanceID>, rep: Replica, out: seq<Message>, panic: Option<PanicReason>)
    | InitCall(r: ReplicaID, order: seq<InstanceID>, runs: seq<seq<InstanceID>>, failed: InstanceID, rep: Replica,
               out: seq<Message>, panic: Option<PanicReason>)

  /** The call is made on an object that is alive, for Step with a packet that was sent to it, and keeps the contract
      of its method. */
  ghost predicate Keeps(c: Config, s: Sys, call: Call) {
    match call
    case RequestCall(r, cmd, rep, out, panic) =>
      && Up(s, r) && WellFormed(cmd.span) && Effect(OnRequest(c, r, s.reps[r], cmd), rep, out, panic, [])
      && (panic.Some? ==> rep.storage == s.reps[r].storage)
    case StepCall(i, ex, rep, out, panic) =>
      && i < |s.sent| && Up(s, s.sent[i].msg.to)
      && var o := Replicas.Step(c, s.sent[i].msg.to, s.reps[s.sent[i].msg.to], s.sent[i].msg);
         Effect(o, rep, out, panic, ex) && (o.Panicked? ==> rep.storage == s.reps[s.sent[i].msg.to].storage)
    case TickCall(r, order, rep, out, panic) =>
      && Up(s, r) && Effect(TickSeq(c, r, s.reps[r], order), rep, out, panic, [])
      && (panic.None? ==> NoDup(order) && forall id :: id in order <==> id in s.reps[r].timers)
    case InitCall(r, order, runs, failed, rep, out, panic) =>
      r in s.reps && Loaded(c, r, s.reps[r].storage, order, runs, rep, out, panic, failed)
  }

  ghost function After(c: Config, s: Sys, call: Call): Sys
    requires Keeps(c, s, call)
  {
    match call
    case RequestCall(r, _, rep, out, panic) => Called(s, r, rep, out, panic)
    case StepCall(i, _, rep, out, panic) =>
      Called(s.(delivered := s.delivered + {i}), s.sent[i].msg.to, rep, out, panic)
    case TickCall(r, _, rep, out, panic) => Called(s, r, rep, out, panic)
    case InitCall(r, _, _, _, rep, out, panic) => Called(s.(crashed := s.crashed - {r}), r, rep, out, panic)
  }

  /** New objects, and then one call after the other. */
  ghost predicate IsHistory(c: Config, states: seq<Sys>, calls: seq<Call>) {
    && |states| == |calls| + 1 && ConfigOK(c) && states[0] == Initial(c)
    && forall k :: 0 <= k < |calls| ==> Keeps(c, states[k], calls[k]) && states[k + 1] == After(c, states[k], calls[k])
  }

  lemma CallRefines(c: Config, s: Sys, call: Call) returns (step: System.Step)
    requires Safe(c, s) && Keeps(c, s, call)
    ensures Next(c, s, step, After(c, s, call))
  {
    hide Safe, Next, Effect, TickSeq, Loaded, OnRequest, Replicas.Step;
    match call
    case RequestCall(r, cmd, rep, out, panic) =>
      RequestRefines(c, s, r, cmd, rep, out, panic);
      step := RequestStep(r, cmd);
    case StepCall(i, ex, rep, out, panic) =>
      StepRefines(c, s, i, rep, out, panic, ex);
      var ex' :| Next(c, s, Delivery(s, i, ex'), After(c, s, call));
      step := Delivery(s, i, ex');
    case TickCall(r, order, rep, out, panic) =>
      TickRefines(c, s, r, order, rep, out, panic);
      step := TickStep(r, order);
    case InitCall(r, order, runs, failed, rep, out, panic) =>
      RestartRefines(c, s, r, order, runs, rep, out, panic, failed);
      step := RestartStep(r, order, runs);
  }

  /** Every history of calls is a run: what is proved of runs holds of the objects. */
  lemma {:induction false} HistoriesAreRuns(c: Config, states: seq<Sys>, calls: seq<Call>) returns
      (steps: seq<System.Step>)
    requires IsHistory(c, states, calls)
    ensures IsRun(c, states, steps)
    decreases |calls|
  {
    hide Next, Keeps, After;
    if calls == [] {
      steps := [];
    } else {
      var n := |calls| - 1;
      var before := states[..n + 1];
      assert IsHistory(c, before, calls[..n]);
      var steps0 := HistoriesAreRuns(c, before, calls[..n]);
      RunSafe(c, before, steps0, n);
      var step := CallRefines(c, states[n], calls[n]);
      RunExtends(c, before, steps0, step, states[n + 1]);
      steps := steps0 + [step];
      assert before + [states[n + 1]] == states;
    }
  }
}
