/** What a leader waits for, in every run with any faults: how many replies, and which slow-path timers are
    registered and when they fire. */
module Timers {
  import opened Keys
  import opened Types
  import opened Scan
  import opened DepSlices
  import opened Graphs
  import opened Replicas
  import opened Local
  import opened System
  import opened Safety
  import opened Runs

  // ----- One replica -----

  /** With n nodes: a pre-accepted instance has not been answered by half of the others if an answer differed, nor by
      all but one of them if none did. An accepted one was answered by a majority, the leader included, and waits for
      one to accept. A committed one was committed by the last answer that it needed. After a restart the count starts
      again at 0. */
  predicate CountEntry(n: nat, inst: Instance) {
    var p, a := inst.preAcceptReplies, inst.acceptReplies;
    match inst.st.status
    case NoStatus => true
    case PreAccepted => a == 0 && if inst.differentReplies then 2 * (p + 1) <= n else p == 0 || p + 1 < n - 1
    case Accepted => (p == 0 || 2 * (p + 1) > n) && (a == 0 || 2 * (a + 1) <= n)
    case _ =>
      || (p == 0 && a == 0)
      || (a == 0 && !inst.differentReplies && p + 1 >= n - 1 && (p == 1 || p < n - 1))
      || (a > 0 && 2 * (a + 1) > n && (a == 1 || 2 * a <= n) && (p == 0 || 2 * (p + 1) > n))
  }

  /** A timer runs exactly while a quorum but no fast quorum has answered, all alike, and not yet for two ticks. */
  predicate TimerEntry(c: Config, me: ReplicaID, rep: Replica, id: InstanceID) {
    id in rep.log ==>
      var inst := rep.log[id];
      && (if id.replica == me then CountEntry(|c.nodes|, inst) else inst.preAcceptReplies == 0 == inst.acceptReplies)
      && (!inst.timer.paused <==> inst.st.status == PreAccepted && inst.preAcceptReplies > 0
                                  && 2 * (inst.preAcceptReplies + 1) > |c.nodes|)
      && (!inst.timer.paused ==> !inst.differentReplies && inst.timer.ticksElapsed < 2)
  }

  ghost predicate TimersOK(c: Config, me: ReplicaID, rep: Replica) {
    forall id :: TimerEntry(c, me, rep, id)
  }

  lemma OneEntry(c: Config, me: ReplicaID, rep: Replica, rep': Replica, id: InstanceID)
    requires TimersOK(c, me, rep) && SameElsewhere(rep, rep', id) && TimerEntry(c, me, rep', id)
    ensures TimersOK(c, me, rep')
  {
    forall x ensures TimerEntry(c, me, rep', x) {
      if x != id { assert TimerEntry(c, me, rep, x) && Same(x, rep.log, rep'.log); }
    }
  }

  /** Counting one more reply, which may bring differences. */
  lemma EitherTimer(c: Config, me: ReplicaID, rep: Replica, id: InstanceID, inst: Instance)
    requires id in rep.log && id.replica == me && TimerEntry(c, me, rep, id) && rep.log[id].st.status == PreAccepted
    requires inst.st.status == PreAccepted && inst.timer == rep.log[id].timer
    requires inst.preAcceptReplies == rep.log[id].preAcceptReplies + 1
    requires inst.acceptReplies == rep.log[id].acceptReplies
    requires rep.log[id].differentReplies ==> inst.differentReplies
    ensures var o := OnEitherPreAcceptReply(c, me, rep.(log := rep.log[id := inst]), id);
            o.Done? && TimerEntry(c, me, o.rep, id)
  {
    hide Broadcast;
  }

  lemma ReplyTimer(c: Config, me: ReplicaID, rep: Replica, m: Message)
    requires m.id in rep.log && m.id.replica == me && IsReply(m.body) && TimerEntry(c, me, rep, m.id)
    ensures var o := Dispatch(c, me, rep, m); o.Done? && TimerEntry(c, me, o.rep, m.id)
  {
    hide Broadcast, OnEitherPreAcceptReply, Slice;
    var inst := rep.log[m.id];
    match m.body
    case PreAcceptOK =>
      if inst.st.status == PreAccepted {
        EitherTimer(c, me, rep, m.id, inst.(preAcceptReplies := inst.preAcceptReplies + 1));
      }
    case PreAcceptReply(seqNum, deps) =>
      if inst.st.status == PreAccepted { EitherTimer(c, me, rep, m.id, Merged(inst, seqNum, deps)); }
    case AcceptOK =>
  }

  lemma FollowerTimer(c: Config, me: ReplicaID, rep: Replica, m: Message)
    requires m.id in rep.log && m.id.replica != me && !IsReply(m.body) && TimerEntry(c, me, rep, m.id)
    ensures var o := Dispatch(c, me, rep, m); o.Done? ==> TimerEntry(c, me, o.rep, m.id)
  {
    hide ScanAll, Slice;
  }

  lemma NewTimer(c: Config, me: ReplicaID, rep: Replica, id: InstanceID)
    ensures TimerEntry(c, me, rep.(log := rep.log[id := NEW_INSTANCE]), id)
  {
  }

  lemma StepTimers(c: Config, me: ReplicaID, rep: Replica, m: Message)
    requires LocalSafe(me, rep) && TimersOK(c, me, rep)
    ensures var o := Replicas.Step(c, me, rep, m); o.Done? ==> TimersOK(c, me, o.rep)
  {
    assert TimerEntry(c, me, rep, m.id);
    StepLocal(c, me, rep, m);
    hide LocalSafe, SameElsewhere, Dispatch, TimerEntry;
    var o := Replicas.Step(c, me, rep, m);
    if o.Done? && ValidMessage(c, me, m) && (m.id in rep.log || m.id.replica != me) {
      var rep1 := WithInstance(rep, m.id);
      NewTimer(c, me, rep, m.id);
      if IsReply(m.body) { ReplyTimer(c, me, rep1, m); } else { FollowerTimer(c, me, rep1, m); }
      OneEntry(c, me, rep, o.rep, m.id);
    }
  }

  lemma RequestTimers(c: Config, me: ReplicaID, rep: Replica, cmd: Command)
    requires LocalSafe(me, rep) && TimersOK(c, me, rep)
    ensures var o := OnRequest(c, me, rep, cmd); o.Done? ==> TimersOK(c, me, o.rep)
  {
    var id := InstanceID(me, MaxInstanceNum(rep.log, me) + 1);
    RequestLocal(c, me, rep, cmd);
    hide LocalSafe, SameElsewhere, ScanAll, Slice, Broadcast, MaxInstanceNum, TimersOK;
    var o := OnRequest(c, me, rep, cmd);
    if o.Done? { OneEntry(c, me, rep, o.rep, id); }
  }

  lemma TickTimers(c: Config, me: ReplicaID, rep: Replica, id: InstanceID)
    requires LocalSafe(me, rep) && TimersOK(c, me, rep) && id in rep.log
    ensures var o := TickOne(c, me, rep, id); o.Done? && TimersOK(c, me, o.rep)
  {
    assert TimerEntry(c, me, rep, id);
    TickLocal(c, me, rep, id);
    hide LocalSafe, SameElsewhere, Broadcast, TimersOK;
    OneEntry(c, me, rep, TickOne(c, me, rep, id).rep, id);
  }

  lemma ExecuteTimers(c: Config, me: ReplicaID, rep: Replica, ex: seq<InstanceID>)
    requires TimersOK(c, me, rep) && ExecuteAll(rep, ex).Done?
    ensures TimersOK(c, me, ExecuteAll(rep, ex).rep)
  {
    forall id ensures TimerEntry(c, me, ExecuteAll(rep, ex).rep, id) { assert TimerEntry(c, me, rep, id); }
  }

  lemma LoadTimers(c: Config, me: ReplicaID, rep: Replica, id: InstanceID, st: InstanceState)
    requires TimersOK(c, me, rep) && LoadOne(c, me, rep, id, st).Done?
    ensures TimersOK(c, me, LoadOne(c, me, rep, id, st).rep)
  {
    forall x ensures TimerEntry(c, me, LoadOne(c, me, rep, id, st).rep, x) { assert TimerEntry(c, me, rep, x); }
  }

  lemma {:induction false} LoadsTimers(c: Config, me: ReplicaID, rep: Replica, stored: map<InstanceID, InstanceState>,
                                       order: seq<InstanceID>, runs: seq<seq<InstanceID>>, rep': Replica,
                                       out: seq<Message>)
    requires |runs| == |order| && forall id :: id in order ==> id in stored
    requires TimersOK(c, me, rep) && Loads(c, me, rep, stored, order, runs, rep', out)
    ensures TimersOK(c, me, rep')
    decreases |order|
  {
    hide TimersOK, LoadOne, ExecuteAll, MayRun;
    if order != [] {
      LoadTimers(c, me, rep, order[0], stored[order[0]]);
      var o := LoadOne(c, me, rep, order[0], stored[order[0]]);
      ExecuteTimers(c, me, o.rep, runs[0]);
      assert forall id :: id in order[1..] ==> id in order;
      LoadsTimers(c, me, ExecuteAll(o.rep, runs[0]).rep, stored, order[1..], runs[1..], rep', out[|o.out|..]);
    }
  }

  // ----- All replicas -----

  ghost predicate AllTimers(c: Config, s: Sys) {
    forall r :: r in s.reps ==> TimersOK(c, r, s.reps[r])
  }

  lemma FollowsTimers(c: Config, s: Sys, r: ReplicaID, o: Outcome, ex: seq<InstanceID>, s': Sys)
    requires AllTimers(c, s) && r in s.reps && (o.Done? ==> TimersOK(c, r, o.rep)) && Follows(s, r, o, ex, s')
    ensures AllTimers(c, s')
  {
    hide TimersOK, MayRun, ExecuteAll;
    if o.Done? && o.run && ExecuteAll(o.rep, ex).Done? { ExecuteTimers(c, r, o.rep, ex); }
  }

  lemma {:induction false} TickAllTimers(c: Config, s: Sys, r: ReplicaID, order: seq<InstanceID>)
    requires Safe(c, s) && AllTimers(c, s) && r in s.reps
    ensures AllTimers(c, TickAll(c, s, r, order))
    decreases |order|
  {
    hide Safe, Keep, TimersOK, TickOne, LocalSafe;
    if order != [] && order[0] in s.reps[r].log {
      LocalAt(c, s, r);
      TickMoveSafe(c, s, r, order[0]);
      TickTimers(c, r, s.reps[r], order[0]);
      var o := TickOne(c, r, s.reps[r], order[0]);
      TickAllTimers(c, Put(s, r, o.rep, o.out), r, order[1..]);
    }
  }

  lemma DeliverTimers(c: Config, s: Sys, i: nat, ex: seq<InstanceID>, s': Sys)
    requires Safe(c, s) && AllTimers(c, s) && i < |s.sent| && Delivers(c, s, i, ex, s')
    ensures AllTimers(c, s')
  {
    hide Safe, TimersOK, Follows, Replicas.Step, LocalSafe;
    var m := s.sent[i].msg;
    LocalAt(c, s, m.to);
    StepTimers(c, m.to, s.reps[m.to], m);
    FollowsTimers(c, s.(delivered := s.delivered + {i}), m.to, Replicas.Step(c, m.to, s.reps[m.to], m), ex, s');
  }

  lemma RestartTimers(c: Config, s: Sys, r: ReplicaID, order: seq<InstanceID>, runs: seq<seq<InstanceID>>, s': Sys)
    requires AllTimers(c, s) && r in s.reps && Restarts(c, s, r, order, runs, s')
    ensures AllTimers(c, s')
  {
    var stored := s.reps[r].storage;
    assert TimersOK(c, r, Rebooted(stored));
    hide TimersOK, Loads;
    var rep, out :| Loads(c, r, Rebooted(stored), stored, order, runs, rep, out)
                    && s' == Put(s, r, rep, out).(crashed := s.crashed - {r});
    LoadsTimers(c, r, Rebooted(stored), stored, order, runs, rep, out);
  }

  lemma TimersAt(c: Config, s: Sys, r: ReplicaID)
    requires AllTimers(c, s) && r in s.reps
    ensures TimersOK(c, r, s.reps[r])
  {
  }

  lemma NextTimers(c: Config, s: Sys, step: System.Step, s': Sys)
    requires Safe(c, s) && AllTimers(c, s) && Next(c, s, step, s')
    ensures AllTimers(c, s')
  {
    hide Safe, AllTimers, Delivers, TickAll, Restarts, Follows, OnRequest, LocalSafe, TimersOK;
    match step
    case RequestStep(r, cmd) =>
      LocalAt(c, s, r);
      assert TimersOK(c, r, s.reps[r]) by { TimersAt(c, s, r); }
      RequestTimers(c, r, s.reps[r], cmd);
      FollowsTimers(c, s, r, OnRequest(c, r, s.reps[r], cmd), [], s');
    case DeliverStep(i, ex) => DeliverTimers(c, s, i, ex, s');
    case TickStep(r, order) => TickAllTimers(c, s, r, order);
    case RedeliverStep(i, ex) => DeliverTimers(c, s, i, ex, s');
    case RestartStep(r, order, runs) => RestartTimers(c, s, r, order, runs, s');
  }

  lemma StartTimers(c: Config)
    ensures AllTimers(c, Initial(c))
  {
  }

  lemma {:induction false} RunTimers(c: Config, states: seq<Sys>, steps: seq<System.Step>, k: nat)
    requires IsRun(c, states, steps) && k < |states|
    ensures AllTimers(c, states[k])
  {
    hide Safe, Next, TimersOK;
    if k > 0 {
      RunTimers(c, states, steps, k - 1);
      RunSafe(c, states, steps, k - 1);
      assert Next(c, states[k - 1], steps[k - 1], states[k]);
      NextTimers(c, states[k - 1], steps[k - 1], states[k]);
    } else {
      StartTimers(c);
    }
  }

  /** In every run, a slow-path timer is registered exactly for an own instance that is pre-accepted with a quorum of
      replies counted; then no reply differed, and the timer has not seen its second tick. Others' instances count no
      replies. */
  lemma TimersExact(c: Config, states: seq<Sys>, steps: seq<System.Step>, k: nat, r: ReplicaID, id: InstanceID)
    requires IsRun(c, states, steps) && k < |states| && r in states[k].reps && id in states[k].reps[r].log
    ensures var rep, inst := states[k].reps[r], states[k].reps[r].log[id];
            && (id in rep.timers <==> id.replica == r && inst.st.status == PreAccepted && inst.preAcceptReplies > 0
                                      && 2 * (inst.preAcceptReplies + 1) > |c.nodes|)
            && (id in rep.timers ==> !inst.differentReplies && inst.timer.ticksElapsed < 2)
            && (id.replica != r ==> inst.preAcceptReplies == 0 == inst.acceptReplies)
  {
    hide Next, Safe;
    RunTimers(c, states, steps, k);
    RunSafe(c, states, steps, k);
    LocalAt(c, states[k], r);
    hide IsRun;
    assert LocalEntry(r, states[k].reps[r], id);
    assert TimerEntry(c, r, states[k].reps[r], id) by { TimersAt(c, states[k], r); }
  }

  /** In every run, the counters of an own instance say what it has and what it waits for. */
  lemma QuorumsExact(c: Config, states: seq<Sys>, steps: seq<System.Step>, k: nat, id: InstanceID)
    requires IsRun(c, states, steps) && k < |states| && LeaderHas(states[k], id)
    ensures CountEntry(|c.nodes|, Lead(states[k], id))
  {
    hide Next, IsRun, CountEntry;
    RunTimers(c, states, steps, k);
    assert TimerEntry(c, id.replica, states[k].reps[id.replica], id) by { TimersAt(c, states[k], id.replica); }
  }

  // ----- Clocks -----

  /** A timer that id has in rep' goes on as in rep, or starts. */
  predicate ClockEntry(rep: Replica, rep': Replica, id: InstanceID) {
    id in rep'.timers && id in rep'.log ==>
      rep'.log[id].timer.ticksElapsed ==
      if id in rep.timers && id in rep.log then rep.log[id].timer.ticksElapsed else 0
  }

  ghost predicate ClocksRun(rep: Replica, rep': Replica) {
    forall id :: ClockEntry(rep, rep', id)
  }

  lemma OneClock(rep: Replica, rep': Replica, id: InstanceID)
    requires SameElsewhere(rep, rep', id) && ClockEntry(rep, rep', id)
    ensures ClocksRun(rep, rep')
  {
    forall x ensures ClockEntry(rep, rep', x) { if x != id { assert Same(x, rep.log, rep'.log); } }
  }

  lemma EitherClock(c: Config, me: ReplicaID, rep: Replica, id: InstanceID, inst: Instance)
    requires id in rep.log && inst.timer == rep.log[id].timer && LocalEntry(me, rep, id)
    ensures var o := OnEitherPreAcceptReply(c, me, rep.(log := rep.log[id := inst]), id);
            o.Done? ==> ClockEntry(rep, o.rep, id)
  {
    hide Broadcast;
  }

  lemma DispatchClock(c: Config, me: ReplicaID, rep: Replica, m: Message)
    requires m.id in rep.log && LocalEntry(me, rep, m.id)
    ensures var o := Dispatch(c, me, rep, m); o.Done? ==> ClockEntry(rep, o.rep, m.id)
  {
    hide Broadcast, OnEitherPreAcceptReply, Slice, ScanAll;
    var inst := rep.log[m.id];
    if m.body.PreAcceptOK? {
      EitherClock(c, me, rep, m.id, inst.(preAcceptReplies := inst.preAcceptReplies + 1));
    } else if m.body.PreAcceptReply? {
      EitherClock(c, me, rep, m.id, Merged(inst, m.body.seqNum, m.body.deps));
    }
  }

  lemma StepClocks(c: Config, me: ReplicaID, rep: Replica, m: Message)
    requires LocalSafe(me, rep)
    ensures var o := Replicas.Step(c, me, rep, m); o.Done? ==> ClocksRun(rep, o.rep)
  {
    assert LocalEntry(me, rep, m.id);
    StepLocal(c, me, rep, m);
    hide LocalSafe, SameElsewhere, Dispatch;
    var o := Replicas.Step(c, me, rep, m);
    if o.Done? && ValidMessage(c, me, m) && (m.id in rep.log || m.id.replica != me) {
      var rep1 := WithInstance(rep, m.id);
      assert LocalEntry(me, rep1, m.id);
      DispatchClock(c, me, rep1, m);
      OneClock(rep, o.rep, m.id);
    }
  }

  lemma RequestClocks(c: Config, me: ReplicaID, rep: Replica, cmd: Command)
    requires LocalSafe(me, rep)
    ensures var o := OnRequest(c, me, rep, cmd); o.Done? ==> ClocksRun(rep, o.rep)
  {
    var id := InstanceID(me, MaxInstanceNum(rep.log, me) + 1);
    assert LocalEntry(me, rep, id);
    FreshId(me, rep.log);
    RequestLocal(c, me, rep, cmd);
    hide LocalSafe, SameElsewhere, ScanAll, Slice, Broadcast, MaxInstanceNum;
    var o := OnRequest(c, me, rep, cmd);
    if o.Done? { OneClock(rep, o.rep, id); }
  }

  lemma ExecuteClocks(rep: Replica, rep1: Replica, ex: seq<InstanceID>)
    requires ClocksRun(rep, rep1) && ExecuteAll(rep1, ex).Done?
    ensures ClocksRun(rep, ExecuteAll(rep1, ex).rep)
  {
    forall id ensures ClockEntry(rep, ExecuteAll(rep1, ex).rep, id) { assert ClockEntry(rep, rep1, id); }
  }

  lemma SameClocks(rep: Replica)
    ensures ClocksRun(rep, rep)
  {
  }

  lemma FollowsClocks(s: Sys, r: ReplicaID, o: Outcome, ex: seq<InstanceID>, s': Sys, q: ReplicaID)
    requires r in s.reps && q in s.reps && Follows(s, r, o, ex, s') && (o.Done? ==> ClocksRun(s.reps[r], o.rep))
    ensures q in s'.reps && ClocksRun(s.reps[q], s'.reps[q])
  {
    hide ClocksRun, MayRun, ExecuteAll;
    SameClocks(s.reps[q]);
    if o.Done? && o.run && ExecuteAll(o.rep, ex).Done? { ExecuteClocks(s.reps[r], o.rep, ex); }
  }

  /** Loading registers nothing. */
  lemma {:induction false} LoadsNoTimers(c: Config, me: ReplicaID, rep: Replica, stored: map<InstanceID, InstanceState>,
                                         order: seq<InstanceID>, runs: seq<seq<InstanceID>>, rep': Replica,
                                         out: seq<Message>)
    requires |runs| == |order| && forall id :: id in order ==> id in stored
    requires rep.timers == {} && Loads(c, me, rep, stored, order, runs, rep', out)
    ensures rep'.timers == {}
    decreases |order|
  {
    hide MayRun;
    if order != [] {
      var o := LoadOne(c, me, rep, order[0], stored[order[0]]);
      assert forall id :: id in order[1..] ==> id in order;
      LoadsNoTimers(c, me, ExecuteAll(o.rep, runs[0]).rep, stored, order[1..], runs[1..], rep', out[|o.out|..]);
    }
  }

  lemma RestartClocks(c: Config, s: Sys, r: ReplicaID, order: seq<InstanceID>, runs: seq<seq<InstanceID>>, s': Sys,
                      q: ReplicaID)
    requires r in s.reps && q in s.reps && Restarts(c, s, r, order, runs, s')
    ensures q in s'.reps && ClocksRun(s.reps[q], s'.reps[q])
  {
    hide Loads, Packets;
    var stored := s.reps[r].storage;
    var rep, out :| Loads(c, r, Rebooted(stored), stored, order, runs, rep, out)
                    && s' == Put(s, r, rep, out).(crashed := s.crashed - {r});
    LoadsNoTimers(c, r, Rebooted(stored), stored, order, runs, rep, out);
  }

  lemma DeliverClocks(c: Config, s: Sys, i: nat, ex: seq<InstanceID>, s': Sys, q: ReplicaID)
    requires Safe(c, s) && q in s.reps && i < |s.sent| && Delivers(c, s, i, ex, s')
    ensures q in s'.reps && ClocksRun(s.reps[q], s'.reps[q])
  {
    hide Safe, ClocksRun, Follows, Replicas.Step, LocalSafe;
    var m := s.sent[i].msg;
    LocalAt(c, s, m.to);
    StepClocks(c, m.to, s.reps[m.to], m);
    FollowsClocks(s.(delivered := s.delivered + {i}), m.to, Replicas.Step(c, m.to, s.reps[m.to], m), ex, s', q);
  }

  lemma {:induction false} TickOthers(c: Config, s: Sys, r: ReplicaID, order: seq<InstanceID>, q: ReplicaID)
    requires r in s.reps && q in s.reps && q != r
    ensures q in TickAll(c, s, r, order).reps && TickAll(c, s, r, order).reps[q] == s.reps[q]
    decreases |order|
  {
    hide TickOne;
    if order != [] && order[0] in s.reps[r].log {
      var o := TickOne(c, r, s.reps[r], order[0]);
      if o.Done? { TickOthers(c, Put(s, r, o.rep, o.out), r, order[1..], q); }
    }
  }

  /** Only ticks advance a timer. */
  lemma NextClocks(c: Config, s: Sys, step: System.Step, s': Sys, q: ReplicaID)
    requires Safe(c, s) && Next(c, s, step, s') && q in s.reps && !(step.TickStep? && step.r == q)
    ensures q in s'.reps && ClocksRun(s.reps[q], s'.reps[q])
  {
    hide Safe, ClocksRun, Follows, Restarts, TickAll, OnRequest, Replicas.Step, LocalSafe;
    match step
    case RequestStep(r, cmd) =>
      LocalAt(c, s, r);
      RequestClocks(c, r, s.reps[r], cmd);
      FollowsClocks(s, r, OnRequest(c, r, s.reps[r], cmd), [], s', q);
    case DeliverStep(i, ex) => DeliverClocks(c, s, i, ex, s', q);
    case TickStep(r, order) =>
      TickOthers(c, s, r, order, q);
      SameClocks(s.reps[q]);
    case RedeliverStep(i, ex) => DeliverClocks(c, s, i, ex, s', q);
    case RestartStep(r, order, runs) => RestartClocks(c, s, r, order, runs, s', q);
  }

  lemma ClockAt(c: Config, s: Sys, s': Sys, r: ReplicaID, id: InstanceID)
    requires Safe(c, s) && Safe(c, s') && r in s.reps && r in s'.reps && id in s'.reps[r].timers
    requires ClocksRun(s.reps[r], s'.reps[r])
    ensures id in s'.reps[r].log
    ensures var timer := s'.reps[r].log[id].timer;
            && !timer.paused
            && if id in s.reps[r].timers then id in s.reps[r].log && timer == s.reps[r].log[id].timer
               else timer.ticksElapsed == 0
  {
    hide Safe;
    LocalAt(c, s, r);
    LocalAt(c, s', r);
    assert LocalEntry(r, s.reps[r], id) && LocalEntry(r, s'.reps[r], id);
    assert ClockEntry(s.reps[r], s'.reps[r], id);
  }

  /** In every run, a timer starts at 0 ticks in the step that registers it, and a step that is no tick of its replica
      does not advance it. */
  lemma TimerStarts(c: Config, states: seq<Sys>, steps: seq<System.Step>, k: nat, r: ReplicaID, id: InstanceID)
    requires IsRun(c, states, steps) && k < |steps| && r in states[k].reps && !(steps[k].TickStep? && steps[k].r == r)
    requires r in states[k + 1].reps && id in states[k + 1].reps[r].timers
    ensures id in states[k + 1].reps[r].log
    ensures var timer := states[k + 1].reps[r].log[id].timer;
            && !timer.paused
            && if id in states[k].reps[r].timers then
                 id in states[k].reps[r].log && timer == states[k].reps[r].log[id].timer
               else timer.ticksElapsed == 0
  {
    hide Next, Safe, ClocksRun;
    RunSafe(c, states, steps, k);
    RunSafe(c, states, steps, k + 1);
    assert Next(c, states[k], steps[k], states[k + 1]);
    hide IsRun;
    NextClocks(c, states[k], steps[k], states[k + 1], r);
    ClockAt(c, states[k], states[k + 1], r, id);
  }

  // ----- Ticks -----

  /** Ticking other timers leaves id alone. */
  lemma {:induction false} TickElsewhere(c: Config, s: Sys, r: ReplicaID, order: seq<InstanceID>, id: InstanceID)
    requires Safe(c, s) && r in s.reps && id !in order
    ensures var s' := TickAll(c, s, r, order);
            && r in s'.reps && Same(id, s.reps[r].log, s'.reps[r].log) && s.sent <= s'.sent
            && (id in s'.reps[r].timers <==> id in s.reps[r].timers)
    decreases |order|
  {
    hide Safe, LocalSafe, TickOne, Keep;
    if order != [] && order[0] in s.reps[r].log {
      LocalAt(c, s, r);
      TickMoveSafe(c, s, r, order[0]);
      TickLocal(c, r, s.reps[r], order[0]);
      var o := TickOne(c, r, s.reps[r], order[0]);
      var s1 := Put(s, r, o.rep, o.out);
      assert Same(id, s.reps[r].log, o.rep.log) && (id in o.rep.timers <==> id in s.reps[r].timers);
      hide SameElsewhere;
      TickElsewhere(c, s1, r, order[1..], id);
    }
  }

  /** What a tick of r does to the registered timer of id. */
  ghost predicate Ticked(c: Config, s: Sys, s': Sys, r: ReplicaID, id: InstanceID)
    requires r in s.reps && id in s.reps[r].log
  {
    var inst := s.reps[r].log[id];
    && r in s'.reps && id in s'.reps[r].log
    && if inst.timer.ticksElapsed == 0 then
         && s'.reps[r].log[id] == inst.(timer := Timer(1, false))
         && id in s'.reps[r].timers
       else
         && s'.reps[r].log[id] == inst.(st := inst.st.(status := Accepted), timer := STOPPED)
         && id !in s'.reps[r].timers && Announced(c, s, s', r, id, Accept(inst.st.seqNum, inst.st.deps))
  }

  lemma TickHere(c: Config, s: Sys, r: ReplicaID, id: InstanceID)
    requires Safe(c, s) && r in s.reps && id in s.reps[r].timers
    ensures id in s.reps[r].log && TickOne(c, r, s.reps[r], id).Done?
    ensures var o := TickOne(c, r, s.reps[r], id); Ticked(c, s, Put(s, r, o.rep, o.out), r, id)
  {
    hide Safe;
    LocalAt(c, s, r);
    assert LocalEntry(r, s.reps[r], id);
    TickLocal(c, r, s.reps[r], id);
    hide LocalSafe;
    var o := TickOne(c, r, s.reps[r], id);
    var s' := Put(s, r, o.rep, o.out);
    var inst := s.reps[r].log[id];
    var body := Accept(inst.st.seqNum, inst.st.deps);
    if inst.timer.ticksElapsed > 0 {
      assert o.out == Broadcast(c.nodes, r, id, body);
      forall q | q in c.nodes && q != r ensures SentNow(s, s', Packet(r, Message(q, id, body))) {
        BroadcastIn(c.nodes, r, id, body, Message(q, id, body));
        hide Broadcast, Packets;
        var k :| 0 <= k < |o.out| && o.out[k] == Message(q, id, body);
        assert s'.sent[|s.sent| + k] == Packet(r, Message(q, id, body));
      }
    }
  }

  lemma AnnouncedLater(c: Config, s: Sys, s1: Sys, s': Sys, r: ReplicaID, id: InstanceID, body: Body)
    requires Announced(c, s, s1, r, id, body) && s1.sent <= s'.sent
    ensures Announced(c, s, s', r, id, body)
  {
    forall q | q in c.nodes && q != r ensures SentNow(s, s', Packet(r, Message(q, id, body))) {
      assert SentNow(s, s1, Packet(r, Message(q, id, body)));
      var i :| |s.sent| <= i < |s1.sent| && s1.sent[i] == Packet(r, Message(q, id, body));
      assert s'.sent[i] == s1.sent[i];
    }
  }

  lemma AnnouncedEarlier(c: Config, s: Sys, s1: Sys, s': Sys, r: ReplicaID, id: InstanceID, body: Body)
    requires Announced(c, s1, s', r, id, body) && s.sent <= s1.sent
    ensures Announced(c, s, s', r, id, body)
  {
    forall q | q in c.nodes && q != r ensures SentNow(s, s', Packet(r, Message(q, id, body))) {
      assert SentNow(s1, s', Packet(r, Message(q, id, body)));
    }
  }

  lemma SameAt(rep: Replica, rep': Replica, at: InstanceID, id: InstanceID)
    requires SameElsewhere(rep, rep', at) && id != at
    ensures Same(id, rep.log, rep'.log) && (id in rep'.timers <==> id in rep.timers)
  {
  }

  lemma {:induction false} TickAllAt(c: Config, s: Sys, r: ReplicaID, order: seq<InstanceID>, id: InstanceID)
    requires Safe(c, s) && r in s.reps && NoDup(order) && id in order && id in s.reps[r].timers && id in s.reps[r].log
    requires forall x :: x in order ==> x in s.reps[r].log
    ensures Ticked(c, s, TickAll(c, s, r, order), r, id)
    decreases |order|
  {
    hide Safe, LocalSafe, TickOne, Keep, Announced;
    var o := TickOne(c, r, s.reps[r], order[0]);
    TickMoveSafe(c, s, r, order[0]);
    var s1, rest := Put(s, r, o.rep, o.out), order[1..];
    assert order == [order[0]] + rest && order[0] !in rest;
    var inst := s.reps[r].log[id];
    var body := Accept(inst.st.seqNum, inst.st.deps);
    if order[0] == id {
      TickHere(c, s, r, id);
      TickElsewhere(c, s1, r, rest, id);
      if Announced(c, s, s1, r, id, body) { AnnouncedLater(c, s, s1, TickAll(c, s1, r, rest), r, id, body); }
    } else {
      LocalAt(c, s, r);
      TickLocal(c, r, s.reps[r], order[0]);
      SameAt(s.reps[r], o.rep, order[0], id);
      TickOneKeys(c, r, s.reps[r], order[0]);
      hide SameElsewhere;
      TickAllAt(c, s1, r, rest, id);
      if Announced(c, s1, TickAll(c, s1, r, rest), r, id, body) {
        AnnouncedEarlier(c, s, s1, TickAll(c, s1, r, rest), r, id, body);
      }
    }
  }

  /** In every run, a tick of r makes every registered timer wait once and, the second time, take its instance on the
      slow path: Accepted, Accepts sent to everybody else, and the timer gone. */
  lemma TimerFires(c: Config, states: seq<Sys>, steps: seq<System.Step>, k: nat, id: InstanceID)
    requires IsRun(c, states, steps) && k < |steps| && steps[k].TickStep? && steps[k].r in states[k].reps
    requires id in states[k].reps[steps[k].r].timers
    ensures id in states[k].reps[steps[k].r].log && Ticked(c, states[k], states[k + 1], steps[k].r, id)
    ensures states[k].reps[steps[k].r].log[id].timer.ticksElapsed < 2
  {
    var s, r, order := states[k], steps[k].r, steps[k].order;
    assert Next(c, s, steps[k], states[k + 1]);
    RunSafe(c, states, steps, k);
    LocalAt(c, s, r);
    forall x | x in order ensures x in s.reps[r].log { assert LocalEntry(r, s.reps[r], x); }
    hide Safe, LocalSafe, Ticked, TickAll, Next;
    TimersExact(c, states, steps, k, r, id);
    TickAllAt(c, s, r, order, id);
  }
}
