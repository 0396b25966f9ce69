/** Instances without a command. An Accept carries no command, so a replica that meets an instance by its
    Accept holds it without one, and a later scan that comes to it dereferences nil. When that happens,
    exactly, and in which runs it never does. */
module NilCommands {
  import opened Keys
  import opened Types
  import opened Scan
  import opened Visits
  import opened Replicas
  import opened Local
  import opened System
  import opened Safety
  import opened Restart
  import opened Runs

  // ----- What a replica knows of an instance -----

  datatype View = Unknown | Nil | Known

  function ViewOf(rep: Replica, id: InstanceID): View {
    if id !in rep.log then Unknown else if rep.log[id].st.cmd.None? then Nil else View.Known
  }

  /** An instance without a command is accepted. */
  predicate NilAccepted(rep: Replica, id: InstanceID) {
    id in rep.log && rep.log[id].st.cmd.None? ==> rep.log[id].st.status == Accepted
  }

  /** What a message of a form does to the view of its instance: a PreAccept that comes after an Accept is ignored. */
  function Learned(v: View, form: Form): View {
    match form
    case PreAcceptForm => if v.Nil? then Nil else View.Known
    case AcceptForm => if v.Known? then View.Known else Nil
    case CommitForm => View.Known
    case _ => v
  }

  lemma MessageView(c: Config, me: ReplicaID, rep: Replica, m: Message)
    requires ValidMessage(c, me, m) && !IsReply(m.body) && Replicas.Step(c, me, rep, m).Done?
    requires NilAccepted(rep, m.id)
    requires m.id in rep.log && IsCommitted(rep.log[m.id].st.status) ==> rep.log[m.id].st.cmd.Some?
    requires m.body.Commit? ==> m.body.cmd.Some?
    ensures var rep' := Replicas.Step(c, me, rep, m).rep;
            ViewOf(rep', m.id) == Learned(ViewOf(rep, m.id), FormOf(m.body)) && NilAccepted(rep', m.id)
  {
    hide ScanAll;
  }

  /** The run of an executor leaves all views. */
  lemma ExecuteView(me: ReplicaID, rep: Replica, ex: seq<InstanceID>, id: InstanceID)
    requires LocalSafe(me, rep) && MayRun(rep, ex) && ExecuteAll(rep, ex).Done?
    ensures ViewOf(ExecuteAll(rep, ex).rep, id) == ViewOf(rep, id)
    ensures NilAccepted(rep, id) ==> NilAccepted(ExecuteAll(rep, ex).rep, id)
  {
    hide LocalSafe, MayRun, ExecuteAll;
    RunVertices(rep, ex);
    ExecuteLocal(me, rep, ex);
  }

  lemma SameView(rep: Replica, rep': Replica, id: InstanceID)
    requires Same(id, rep.log, rep'.log)
    ensures ViewOf(rep', id) == ViewOf(rep, id)
    ensures NilAccepted(rep, id) ==> NilAccepted(rep', id)
  {
  }

  lemma ElsewhereView(rep: Replica, rep': Replica, at: InstanceID, id: InstanceID)
    requires SameElsewhere(rep, rep', at) && id != at
    ensures ViewOf(rep', id) == ViewOf(rep, id)
    ensures NilAccepted(rep, id) ==> NilAccepted(rep', id)
  {
    SameView(rep, rep', id);
  }

  // ----- Steps of the system -----

  /** The replica that makes a step. */
  function Mover(s: Sys, step: System.Step): ReplicaID {
    match step
    case RequestStep(r, _) => r
    case DeliverStep(i, _) => if i < |s.sent| then s.sent[i].msg.to else 0
    case TickStep(r, _) => r
    case RedeliverStep(i, _) => if i < |s.sent| then s.sent[i].msg.to else 0
    case RestartStep(r, _, _) => r
  }

  /** A step of q changes nothing but q. */
  ghost predicate Moved(s: Sys, s': Sys, q: ReplicaID) {
    && s.reps.Keys == s'.reps.Keys
    && (forall r :: r in s.reps && r != q ==> s'.reps[r] == s.reps[r])
    && (forall r :: r != q ==> (r in s'.crashed <==> r in s.crashed))
  }

  lemma FollowsMoved(s: Sys, r: ReplicaID, o: Outcome, ex: seq<InstanceID>, s': Sys)
    requires r in s.reps && Follows(s, r, o, ex, s')
    ensures Moved(s, s', r) && s.crashed <= s'.crashed
  {
    hide MayRun;
  }

  lemma {:induction false} TickMoved(c: Config, s: Sys, r: ReplicaID, order: seq<InstanceID>)
    requires r in s.reps
    ensures Moved(s, TickAll(c, s, r, order), r) && s.crashed <= TickAll(c, s, r, order).crashed
    decreases |order|
  {
    hide TickOne;
    if order != [] && order[0] in s.reps[r].log {
      var o := TickOne(c, r, s.reps[r], order[0]);
      if o.Done? { TickMoved(c, Put(s, r, o.rep, o.out), r, order[1..]); }
    }
  }

  lemma DeliverMoved(c: Config, s: Sys, i: nat, ex: seq<InstanceID>, s': Sys)
    requires i < |s.sent| && Delivers(c, s, i, ex, s')
    ensures s.sent[i].msg.to in s.reps && Moved(s, s', s.sent[i].msg.to) && s.crashed <= s'.crashed
  {
    hide Follows, Replicas.Step;
    var m := s.sent[i].msg;
    FollowsMoved(s.(delivered := s.delivered + {i}), m.to, Replicas.Step(c, m.to, s.reps[m.to], m), ex, s');
  }

  lemma NextMoved(c: Config, s: Sys, step: System.Step, s': Sys)
    requires Next(c, s, step, s')
    ensures Mover(s, step) in s.reps && Moved(s, s', Mover(s, step))
    ensures step.RestartStep? || s.crashed <= s'.crashed
  {
    hide Follows, TickAll, Loads, OnRequest, Replicas.Step;
    match step
    case RequestStep(r, cmd) => FollowsMoved(s, r, OnRequest(c, r, s.reps[r], cmd), [], s');
    case DeliverStep(i, ex) => DeliverMoved(c, s, i, ex, s');
    case TickStep(r, order) => TickMoved(c, s, r, order);
    case RedeliverStep(i, ex) => DeliverMoved(c, s, i, ex, s');
    case RestartStep(r, order, runs) =>
  }

  /** The form of the packet about id that a step hands to r. */
  function Handed(s: Sys, step: System.Step, r: ReplicaID, id: InstanceID): Option<Form> {
    if (step.DeliverStep? || step.RedeliverStep?) && step.i < |s.sent|
       && s.sent[step.i].msg.to == r && s.sent[step.i].msg.id == id
    then Some(FormOf(s.sent[step.i].msg.body)) else None
  }

  function AfterForm(v: View, form: Option<Form>): View {
    if form.None? then v else Learned(v, form.value)
  }

  lemma PacketCommand(c: Config, s: Sys, i: nat)
    requires Safe(c, s) && i < |s.sent|
    ensures PacketSafe(s, s.sent[i])
    ensures s.sent[i].msg.body.PreAccept? || s.sent[i].msg.body.Commit? ==>
              s.sent[i].msg.body.cmd.Some? && WellFormed(s.sent[i].msg.body.cmd.value.span)
  {
    hide LocalSafe, Agrees;
    assert PacketSafe(s, s.sent[i]);
    assert LeaderHas(s, s.sent[i].msg.id);
    hide Safe;
    LeaderOwn(c, s, s.sent[i].msg.id);
  }

  /** A packet about a foreign instance is no reply and is valid. */
  lemma ForeignPacket(c: Config, s: Sys, i: nat)
    requires Safe(c, s) && i < |s.sent| && s.sent[i].msg.id.replica != s.sent[i].msg.to
    ensures !IsReply(s.sent[i].msg.body) && ValidMessage(c, s.sent[i].msg.to, s.sent[i].msg)
  {
    PacketCommand(c, s, i);
    hide LocalSafe, Agrees, PacketSafe;
  }

  lemma HandledView(c: Config, s: Sys, i: nat, id: InstanceID)
    requires Safe(c, s) && i < |s.sent| && s.sent[i].msg.to in s.reps && id.replica != s.sent[i].msg.to
    requires Replicas.Step(c, s.sent[i].msg.to, s.reps[s.sent[i].msg.to], s.sent[i].msg).Done?
    requires NilAccepted(s.reps[s.sent[i].msg.to], id)
    ensures var m := s.sent[i].msg;
            var rep, rep' := s.reps[m.to], Replicas.Step(c, m.to, s.reps[m.to], m).rep;
            && ViewOf(rep', id) == (if m.id == id then Learned(ViewOf(rep, id), FormOf(m.body)) else ViewOf(rep, id))
            && NilAccepted(rep', id) && LocalSafe(m.to, rep')
  {
    hide Safe, LocalSafe, Replicas.Step, SameElsewhere, ViewOf, NilAccepted, Learned, WellFormed, PacketSafe;
    var m := s.sent[i].msg;
    var r := m.to;
    LocalAt(c, s, r);
    StepLocal(c, r, s.reps[r], m);
    if m.id == id {
      PacketCommand(c, s, i);
      ForeignPacket(c, s, i);
      if id in s.reps[r].log && IsCommitted(s.reps[r].log[id].st.status) { CommittedSome(c, s, r, id); }
      MessageView(c, r, s.reps[r], m);
    } else {
      ElsewhereView(s.reps[r], Replicas.Step(c, r, s.reps[r], m).rep, m.id, id);
    }
  }

  lemma DeliverView(c: Config, s: Sys, i: nat, ex: seq<InstanceID>, s': Sys, id: InstanceID)
    requires Safe(c, s) && i < |s.sent| && Delivers(c, s, i, ex, s') && s.sent[i].msg.to !in s'.crashed
    requires id.replica != s.sent[i].msg.to && NilAccepted(s.reps[s.sent[i].msg.to], id)
    ensures var m := s.sent[i].msg;
            && m.to in s'.reps && NilAccepted(s'.reps[m.to], id)
            && ViewOf(s'.reps[m.to], id) ==
               (if m.id == id then Learned(ViewOf(s.reps[m.to], id), FormOf(m.body)) else ViewOf(s.reps[m.to], id))
  {
    hide Safe, Replicas.Step, MayRun, ExecuteAll, ViewOf, NilAccepted, Learned, LocalSafe;
    var m := s.sent[i].msg;
    var o := Replicas.Step(c, m.to, s.reps[m.to], m);
    HandledView(c, s, i, id);
    if o.run { ExecuteView(m.to, o.rep, ex, id); }
  }

  lemma PausedStays(c: Config, me: ReplicaID, rep: Replica, id: InstanceID)
    requires LocalSafe(me, rep) && id in rep.log && id.replica != me
    ensures TickOne(c, me, rep, id) == Done(rep, [], false)
  {
    ForeignTimer(me, rep, id);
  }

  lemma {:induction false} TickView(c: Config, s: Sys, r: ReplicaID, order: seq<InstanceID>, id: InstanceID)
    requires Safe(c, s) && r in s.reps && id.replica != r && NilAccepted(s.reps[r], id)
    ensures var s' := TickAll(c, s, r, order);
            r in s'.reps && ViewOf(s'.reps[r], id) == ViewOf(s.reps[r], id) && NilAccepted(s'.reps[r], id)
    decreases |order|
  {
    hide Safe, LocalSafe, TickOne, ViewOf, NilAccepted, SameElsewhere;
    if order != [] && order[0] in s.reps[r].log {
      TickMoveSafe(c, s, r, order[0]);
      LocalAt(c, s, r);
      TickLocal(c, r, s.reps[r], order[0]);
      var o := TickOne(c, r, s.reps[r], order[0]);
      if order[0] == id { PausedStays(c, r, s.reps[r], id); } else { ElsewhereView(s.reps[r], o.rep, order[0], id); }
      TickView(c, Put(s, r, o.rep, o.out), r, order[1..], id);
    }
  }

  lemma RequestView(c: Config, s: Sys, r: ReplicaID, cmd: Command, s': Sys, id: InstanceID)
    requires Safe(c, s) && Next(c, s, RequestStep(r, cmd), s') && r !in s'.crashed && id.replica != r
    ensures ViewOf(s'.reps[r], id) == ViewOf(s.reps[r], id)
    ensures NilAccepted(s.reps[r], id) ==> NilAccepted(s'.reps[r], id)
  {
    hide Safe, LocalSafe, OnRequest, ViewOf, NilAccepted, SameElsewhere, WellFormed, MaxInstanceNum;
    LocalAt(c, s, r);
    RequestLocal(c, r, s.reps[r], cmd);
    RequestRun(c, r, s.reps[r], cmd);
    ElsewhereView(s.reps[r], OnRequest(c, r, s.reps[r], cmd).rep, InstanceID(r, MaxInstanceNum(s.reps[r].log, r) + 1),
                  id);
  }

  /** How a step changes what r, which stays up, knows of a foreign instance. */
  lemma NextView(c: Config, s: Sys, step: System.Step, s': Sys, r: ReplicaID, id: InstanceID)
    requires Safe(c, s) && Next(c, s, step, s') && Up(s, r) && r !in s'.crashed && !RestartOf(step, r)
    requires id.replica != r
    requires NilAccepted(s.reps[r], id)
    ensures r in s'.reps && NilAccepted(s'.reps[r], id)
    ensures ViewOf(s'.reps[r], id) == AfterForm(ViewOf(s.reps[r], id), Handed(s, step, r, id))
  {
    hide Safe, Delivers, TickAll, Restarts, OnRequest, ViewOf, NilAccepted, Learned, Follows;
    NextMoved(c, s, step, s');
    if Mover(s, step) == r {
      match step
      case RequestStep(_, cmd) => RequestView(c, s, r, cmd, s', id);
      case DeliverStep(i, ex) => DeliverView(c, s, i, ex, s', id);
      case TickStep(_, order) => TickView(c, s, r, order, id);
      case RedeliverStep(i, ex) => DeliverView(c, s, i, ex, s', id);
    }
  }

  /** A replica that just restarted has a command for everything it holds. */
  lemma RestartView(c: Config, s: Sys, r: ReplicaID, order: seq<InstanceID>, runs: seq<seq<InstanceID>>, s': Sys,
                    id: InstanceID)
    requires Safe(c, s) && r in s.reps && Restarts(c, s, r, order, runs, s') && id in s'.reps[r].log
    ensures s'.reps[r].log[id].st.cmd.Some?
  {
    hide Safe, LocalSafe, Loads, Loading;
    RestartSafe(c, s, s', r, order, runs);
    var stored := s.reps[r].storage;
    var rep, out :| Loads(c, r, Rebooted(stored), stored, order, runs, rep, out)
                    && s' == Put(s, r, rep, out).(crashed := s.crashed - {r});
    LocalAt(c, s, r);
    StartLoading(r, s.reps[r], order);
    LoadsSafe(c, r, Rebooted(stored), stored, order, runs, rep, out);
    LoadedLocal(r, rep, stored);
    if id.replica != r { CommittedSome(c, s', r, id); }
  }

  // ----- History -----

  /** When r last started: at the beginning, or by its latest restart among the first k steps. */
  function LastStart(steps: seq<System.Step>, r: ReplicaID, k: nat): (j: nat)
    requires k <= |steps|
    ensures j <= k
  {
    if k == 0 || RestartOf(steps[k - 1], r) then k else LastStart(steps, r, k - 1)
  }

  ghost predicate Hears(states: seq<Sys>, steps: seq<System.Step>, r: ReplicaID, id: InstanceID, form: Form, n: nat) {
    n < |states| && n < |steps| && Handed(states[n], steps[n], r, id) == Some(form)
  }

  /** A packet of the form about id was handed to r in steps j to k - 1. */
  ghost predicate Heard(states: seq<Sys>, steps: seq<System.Step>, r: ReplicaID, id: InstanceID, form: Form, j: nat,
                        k: nat) {
    exists n: nat :: j <= n < k && Hears(states, steps, r, id, form, n)
  }

  /** Step n hands the command of id to r: by a Commit, or by a PreAccept that comes before every Accept. */
  ghost predicate Teaches(states: seq<Sys>, steps: seq<System.Step>, r: ReplicaID, id: InstanceID, j: nat, n: nat) {
    || Hears(states, steps, r, id, CommitForm, n)
    || (Hears(states, steps, r, id, PreAcceptForm, n) && !Heard(states, steps, r, id, AcceptForm, j, n))
  }

  ghost predicate Taught(states: seq<Sys>, steps: seq<System.Step>, r: ReplicaID, id: InstanceID, j: nat, k: nat) {
    exists n: nat :: j <= n < k && Teaches(states, steps, r, id, j, n)
  }

  /** What r knows of id by what it was handed since it started with rep in step j. */
  ghost function History(states: seq<Sys>, steps: seq<System.Step>, r: ReplicaID, id: InstanceID, rep: Replica,
                         j: nat, k: nat): View {
    if id in rep.log || Taught(states, steps, r, id, j, k) then View.Known
    else if Heard(states, steps, r, id, AcceptForm, j, k) then Nil
    else Unknown
  }

  lemma HeardMore(states: seq<Sys>, steps: seq<System.Step>, r: ReplicaID, id: InstanceID, form: Form, j: nat, k: nat)
    requires j <= k
    ensures Heard(states, steps, r, id, form, j, k + 1) <==>
            Heard(states, steps, r, id, form, j, k) || Hears(states, steps, r, id, form, k)
  {
    hide Hears;
    if Heard(states, steps, r, id, form, j, k + 1) {
      var n: nat :| j <= n < k + 1 && Hears(states, steps, r, id, form, n);
      assert n < k || n == k;
    }
    if Heard(states, steps, r, id, form, j, k) {
      var n: nat :| j <= n < k && Hears(states, steps, r, id, form, n);
    }
  }

  lemma TaughtMore(states: seq<Sys>, steps: seq<System.Step>, r: ReplicaID, id: InstanceID, j: nat, k: nat)
    requires j <= k
    ensures Taught(states, steps, r, id, j, k + 1) <==>
            Taught(states, steps, r, id, j, k) || Teaches(states, steps, r, id, j, k)
  {
    hide Teaches;
    if Taught(states, steps, r, id, j, k + 1) {
      var n: nat :| j <= n < k + 1 && Teaches(states, steps, r, id, j, n);
      assert n < k || n == k;
    }
    if Taught(states, steps, r, id, j, k) {
      var n: nat :| j <= n < k && Teaches(states, steps, r, id, j, n);
    }
  }

  /** One more step of history is one more step of the view. */
  lemma HistoryMore(states: seq<Sys>, steps: seq<System.Step>, r: ReplicaID, id: InstanceID, rep: Replica, j: nat,
                    k: nat)
    requires j <= k < |steps| && |states| == |steps| + 1
    ensures History(states, steps, r, id, rep, j, k + 1) ==
            AfterForm(History(states, steps, r, id, rep, j, k), Handed(states[k], steps[k], r, id))
  {
    hide Handed, Heard, Taught;
    HeardMore(states, steps, r, id, AcceptForm, j, k);
    TaughtMore(states, steps, r, id, j, k);
  }

  lemma NothingYet(states: seq<Sys>, steps: seq<System.Step>, r: ReplicaID, id: InstanceID, rep: Replica, j: nat)
    ensures History(states, steps, r, id, rep, j, j) == if id in rep.log then View.Known else Unknown
  {
  }

  lemma RestartedView(c: Config, s: Sys, step: System.Step, s': Sys, id: InstanceID)
    requires Safe(c, s) && Next(c, s, step, s') && step.RestartStep? && step.r in s'.reps && id in s'.reps[step.r].log
    ensures s'.reps[step.r].log[id].st.cmd.Some?
  {
    hide Safe, Restarts;
    RestartView(c, s, step.r, step.order, step.runs, s', id);
  }

  lemma StartView(c: Config, states: seq<Sys>, steps: seq<System.Step>, r: ReplicaID, k: nat, id: InstanceID)
    requires IsRun(c, states, steps) && k < |states| && LastStart(steps, r, k) == k && r in states[k].reps
    ensures id in states[k].reps[r].log ==> states[k].reps[r].log[id].st.cmd.Some?
  {
    if k > 0 && id in states[k].reps[r].log {
      RunSafe(c, states, steps, k - 1);
      var step := steps[k - 1];
      assert Next(c, states[k - 1], step, states[k]);
      hide Safe, Restarts, Next, IsRun;
      RestartedView(c, states[k - 1], step, states[k], id);
    }
  }

  lemma {:induction false} ForeignHistory(c: Config, states: seq<Sys>, steps: seq<System.Step>, r: ReplicaID, k: nat,
                                          id: InstanceID)
    requires IsRun(c, states, steps) && k < |states| && Up(states[k], r) && id.replica != r
    ensures r in states[LastStart(steps, r, k)].reps
    ensures var j := LastStart(steps, r, k);
            ViewOf(states[k].reps[r], id) == History(states, steps, r, id, states[j].reps[r], j, k)
    ensures NilAccepted(states[k].reps[r], id)
  {
    hide Next, History, Safe;
    var j := LastStart(steps, r, k);
    if j == k {
      StartView(c, states, steps, r, k, id);
      NothingYet(states, steps, r, id, states[k].reps[r], k);
    } else {
      assert Next(c, states[k - 1], steps[k - 1], states[k]);
      NextMoved(c, states[k - 1], steps[k - 1], states[k]);
      RunSafe(c, states, steps, k - 1);
      assert Up(states[k - 1], r);
      hide IsRun, Handed;
      ForeignHistory(c, states, steps, r, k - 1, id);
      NextView(c, states[k - 1], steps[k - 1], states[k], r, id);
      HistoryMore(states, steps, r, id, states[j].reps[r], j, k - 1);
    }
  }

  /** Since its last start r met id by an Accept and never got its command: id was not among the instances that it
      loaded, no Commit of id was handed to it, and no PreAccept of id before its first Accept. */
  ghost predicate NilSince(states: seq<Sys>, steps: seq<System.Step>, r: ReplicaID, id: InstanceID, k: nat)
    requires k <= |steps| && |states| == |steps| + 1
  {
    var j := LastStart(steps, r, k);
    && r in states[j].reps && id !in states[j].reps[r].log
    && Heard(states, steps, r, id, AcceptForm, j, k) && !Taught(states, steps, r, id, j, k)
  }

  lemma OwnPacket(c: Config, s: Sys, step: System.Step, r: ReplicaID, id: InstanceID)
    requires Safe(c, s) && id.replica == r
    ensures Handed(s, step, r, id) != Some(AcceptForm)
  {
    hide Safe, WellFormed;
    if Handed(s, step, r, id) == Some(AcceptForm) { PacketCommand(c, s, step.i); }
  }

  /** No Accept of an own instance arrives. */
  lemma OwnNotHeard(c: Config, states: seq<Sys>, steps: seq<System.Step>, r: ReplicaID, id: InstanceID, n: nat)
    requires IsRun(c, states, steps) && id.replica == r
    ensures !Hears(states, steps, r, id, AcceptForm, n)
  {
    hide IsRun, Safe, Handed;
    if n < |states| {
      RunSafe(c, states, steps, n);
      if n < |steps| { OwnPacket(c, states[n], steps[n], r, id); }
    }
  }

  /** In every run, a replica that is up holds an instance without a command exactly when its history says so. */
  lemma NilExactly(c: Config, states: seq<Sys>, steps: seq<System.Step>, r: ReplicaID, k: nat, id: InstanceID)
    requires IsRun(c, states, steps) && k < |states| && Up(states[k], r)
    ensures id in states[k].reps[r].log && states[k].reps[r].log[id].st.cmd.None? <==> NilSince(states, steps, r, id, k)
  {
    if id.replica == r {
      RunSafe(c, states, steps, k);
      if id in states[k].reps[r].log { LeaderOwn(c, states[k], id); }
      forall n ensures !Hears(states, steps, r, id, AcceptForm, n) { OwnNotHeard(c, states, steps, r, id, n); }
    } else {
      ForeignHistory(c, states, steps, r, k, id);
      hide IsRun, Heard, Taught;
    }
  }

  // ----- Panics -----

  lemma RequestPanics(c: Config, me: ReplicaID, rep: Replica, cmd: Command)
    requires SpansOK(rep.log) && WellFormed(cmd.span)
    ensures OnRequest(c, me, rep, cmd).Panicked? <==> exists x :: NilAhead(rep.log, c.nodes, cmd, InstanceID(0, 0), x)
  {
    hide NilAhead, ScanAll, SpansOK, WellFormed, MaxInstanceNum;
    ScanPanics(rep.log, c.nodes, cmd, InstanceID(0, 0));
  }

  /** A PreAccept that a replica votes on. */
  predicate VotesOn(c: Config, me: ReplicaID, rep: Replica, m: Message) {
    && ValidMessage(c, me, m) && m.body.PreAccept?
    && (m.id in rep.log ==> rep.log[m.id].st.status in {NoStatus, PreAccepted})
  }

  lemma WithSpans(rep: Replica, id: InstanceID)
    requires SpansOK(rep.log)
    ensures SpansOK(WithInstance(rep, id).log)
  {
  }

  lemma OtherwiseDone(c: Config, me: ReplicaID, rep: Replica, m: Message)
    requires !VotesOn(c, me, rep, m)
    ensures Replicas.Step(c, me, rep, m).Done?
  {
    hide ScanAll, Broadcast;
  }

  lemma MessagePanics(c: Config, me: ReplicaID, rep: Replica, m: Message)
    requires SpansOK(rep.log) && (m.body.PreAccept? && m.body.cmd.Some? ==> WellFormed(m.body.cmd.value.span))
    ensures Replicas.Step(c, me, rep, m).Panicked? <==>
            VotesOn(c, me, rep, m)
            && (m.body.cmd.None?
                || exists x :: NilAhead(WithInstance(rep, m.id).log, c.nodes, m.body.cmd.value, m.id, x))
  {
    hide NilAhead, ScanAll, SpansOK, WellFormed;
    if VotesOn(c, me, rep, m) {
      var log := WithInstance(rep, m.id).log;
      assert SpansOK(log) by { WithSpans(rep, m.id); }
      if m.body.cmd.Some? { ScanPanics(log, c.nodes, m.body.cmd.value, m.id); }
    } else {
      OtherwiseDone(c, me, rep, m);
    }
  }

  lemma RepSpans(c: Config, s: Sys, r: ReplicaID)
    requires Safe(c, s) && r in s.reps
    ensures SpansOK(s.reps[r].log)
  {
    hide LocalSafe, PacketSafe;
    forall id | id in s.reps[r].log && s.reps[r].log[id].st.cmd.Some?
      ensures WellFormed(s.reps[r].log[id].st.cmd.value.span)
    {
      assert Agrees(s, id, s.reps[r].log[id].st);
      LeaderOwn(c, s, id);
    }
  }

  ghost predicate BlocksVote(c: Config, s: Sys, i: nat, r: ReplicaID, x: InstanceID)
    requires r in s.reps
  {
    && i < |s.sent| && s.sent[i].msg.to == r && VotesOn(c, r, s.reps[r], s.sent[i].msg) && s.sent[i].msg.body.cmd.Some?
    && NilAhead(WithInstance(s.reps[r], s.sent[i].msg.id).log, c.nodes, s.sent[i].msg.body.cmd.value,
                s.sent[i].msg.id, x)
  }

  /** The scan of the step at r, for a request or a vote, comes to x, for which r has no command. */
  ghost predicate Blocks(c: Config, s: Sys, step: System.Step, r: ReplicaID, x: InstanceID) {
    r in s.reps &&
      match step
      case RequestStep(q, cmd) => q == r && NilAhead(s.reps[r].log, c.nodes, cmd, InstanceID(0, 0), x)
      case DeliverStep(i, _) => BlocksVote(c, s, i, r, x)
      case RedeliverStep(i, _) => BlocksVote(c, s, i, r, x)
      case _ => false
  }

  lemma BlockedByNil(c: Config, s: Sys, step: System.Step, r: ReplicaID, x: InstanceID)
    requires Blocks(c, s, step, r, x)
    ensures r in s.reps && x in s.reps[r].log && s.reps[r].log[x].st.cmd.None?
  {
    hide Comes;
  }

  lemma DeliverRuns(c: Config, s: Sys, i: nat, ex: seq<InstanceID>, s': Sys)
    requires Safe(c, s) && i < |s.sent| && Delivers(c, s, i, ex, s')
    ensures s.sent[i].msg.to in s.reps
    ensures var m := s.sent[i].msg;
            m.to !in s.crashed && (m.to in s'.crashed <==> Replicas.Step(c, m.to, s.reps[m.to], m).Panicked?)
  {
    hide Safe, Keep, MayRun, Replicas.Step, ExecuteAll;
    var m := s.sent[i].msg;
    var o := Replicas.Step(c, m.to, s.reps[m.to], m);
    DeliveredIn(c, s);
    if o.Done? && o.run {
      var s1 := Put(s.(delivered := s.delivered + {i}), m.to, o.rep, o.out);
      assert Moves(s, s1, m.to, o.rep, o.out);
      StepSafe(c, s, i, s1);
      RunAfter(c, s, s1, m.to, ex);
    }
  }

  lemma DeliverCrashes(c: Config, s: Sys, i: nat, ex: seq<InstanceID>, s': Sys)
    requires Safe(c, s) && i < |s.sent| && Delivers(c, s, i, ex, s')
    ensures s.sent[i].msg.to in s.reps
    ensures s.sent[i].msg.to in s'.crashed <==> exists x :: BlocksVote(c, s, i, s.sent[i].msg.to, x)
  {
    hide Safe, Delivers, Replicas.Step, NilAhead, WellFormed, SpansOK;
    var m := s.sent[i].msg;
    DeliverRuns(c, s, i, ex, s');
    RepSpans(c, s, m.to);
    PacketCommand(c, s, i);
    hide PacketSafe;
    MessagePanics(c, m.to, s.reps[m.to], m);
    hide VotesOn;
    if Replicas.Step(c, m.to, s.reps[m.to], m).Panicked? {
      var x :| NilAhead(WithInstance(s.reps[m.to], m.id).log, c.nodes, m.body.cmd.value, m.id, x);
      assert BlocksVote(c, s, i, m.to, x);
    }
  }

  lemma {:induction false} TickUp(c: Config, s: Sys, r: ReplicaID, order: seq<InstanceID>)
    requires Safe(c, s) && r in s.reps
    ensures TickAll(c, s, r, order).crashed == s.crashed
    decreases |order|
  {
    hide Safe, TickOne;
    if order != [] && order[0] in s.reps[r].log {
      TickMoveSafe(c, s, r, order[0]);
      var o := TickOne(c, r, s.reps[r], order[0]);
      TickUp(c, Put(s, r, o.rep, o.out), r, order[1..]);
    }
  }

  lemma RequestCrashes(c: Config, s: Sys, r: ReplicaID, cmd: Command, s': Sys)
    requires Safe(c, s) && Next(c, s, RequestStep(r, cmd), s')
    ensures r in s'.crashed <==> exists x :: NilAhead(s.reps[r].log, c.nodes, cmd, InstanceID(0, 0), x)
  {
    hide Safe, OnRequest, NilAhead, WellFormed, SpansOK;
    RepSpans(c, s, r);
    RequestRun(c, r, s.reps[r], cmd);
    RequestPanics(c, r, s.reps[r], cmd);
  }

  lemma DeliverBlocks(c: Config, s: Sys, step: System.Step, i: nat, ex: seq<InstanceID>, s': Sys, r: ReplicaID)
    requires Safe(c, s) && i < |s.sent| && Delivers(c, s, i, ex, s') && Up(s, r)
    requires step == DeliverStep(i, ex) || step == RedeliverStep(i, ex)
    ensures r in s'.crashed <==> exists x :: Blocks(c, s, step, r, x)
  {
    DeliverMoved(c, s, i, ex, s');
    hide Safe, Delivers, NilAhead, VotesOn;
    assert forall x :: Blocks(c, s, step, r, x) <==> BlocksVote(c, s, i, r, x);
    if s.sent[i].msg.to == r { DeliverCrashes(c, s, i, ex, s'); }
  }

  /** A step crashes a replica exactly when its scan comes to an instance without a command. */
  lemma NextCrashes(c: Config, s: Sys, step: System.Step, s': Sys, r: ReplicaID)
    requires Safe(c, s) && Next(c, s, step, s') && Up(s, r)
    ensures r in s'.crashed <==> exists x :: Blocks(c, s, step, r, x)
  {
    hide Safe, Delivers, TickAll, OnRequest, NilAhead, BlocksVote, Follows, WellFormed, Loads;
    NextMoved(c, s, step, s');
    match step
    case RequestStep(q, cmd) =>
      if q == r {
        RequestCrashes(c, s, r, cmd, s');
        assert forall x :: Blocks(c, s, step, r, x) <==> NilAhead(s.reps[r].log, c.nodes, cmd, InstanceID(0, 0), x);
      }
    case DeliverStep(i, ex) => DeliverBlocks(c, s, step, i, ex, s', r);
    case TickStep(q, order) => TickUp(c, s, q, order);
    case RedeliverStep(i, ex) => DeliverBlocks(c, s, step, i, ex, s', r);
    case RestartStep(q, order, runs) =>
  }

  /** Crashes, exactly: in every run, a step crashes a replica if and only if the descent of its request or vote comes,
      before its early exit, to an instance that the replica met by an Accept and whose command it never got. */
  lemma CrashExactly(c: Config, states: seq<Sys>, steps: seq<System.Step>, k: nat, r: ReplicaID)
    requires IsRun(c, states, steps) && k < |steps| && Up(states[k], r)
    ensures r in states[k + 1].crashed <==> exists x :: Blocks(c, states[k], steps[k], r, x)
    ensures forall x :: Blocks(c, states[k], steps[k], r, x) ==> NilSince(states, steps, r, x, k)
  {
    RunSafe(c, states, steps, k);
    assert Next(c, states[k], steps[k], states[k + 1]);
    hide Safe, Next, Blocks, NilSince;
    NextCrashes(c, states[k], steps[k], states[k + 1], r);
    forall x | Blocks(c, states[k], steps[k], r, x) ensures NilSince(states, steps, r, x, k) {
      BlockedByNil(c, states[k], steps[k], r, x);
      NilExactly(c, states, steps, r, k, x);
    }
  }

  // ----- Runs that never panic -----

  predicate HasCommand(s: Sys, r: ReplicaID, id: InstanceID) {
    r in s.reps && id in s.reps[r].log && s.reps[r].log[id].st.cmd.Some?
  }

  /** No Accept is delivered to a replica that lacks the command. */
  ghost predicate Acquainted(states: seq<Sys>, steps: seq<System.Step>) {
    forall n: nat, r, id :: Hears(states, steps, r, id, AcceptForm, n) ==> n < |states| && HasCommand(states[n], r, id)
  }

  ghost predicate AllKnown(s: Sys) {
    forall r, id :: r in s.reps && id in s.reps[r].log ==> HasCommand(s, r, id)
  }

  lemma KnownNext(c: Config, s: Sys, step: System.Step, s': Sys, r: ReplicaID, id: InstanceID)
    requires Safe(c, s) && Next(c, s, step, s') && AllKnown(s) && s.crashed == {} && s'.crashed == {}
    requires Handed(s, step, r, id) == Some(AcceptForm) ==> HasCommand(s, r, id)
    requires r in s'.reps && id in s'.reps[r].log
    ensures HasCommand(s', r, id)
  {
    hide Safe, Next, Handed, Keep;
    NextSafe(c, s, step, s');
    NextMoved(c, s, step, s');
    if id.replica == r {
      LeaderOwn(c, s', id);
    } else if RestartOf(step, r) {
      RestartedView(c, s, step, s', id);
    } else {
      NextView(c, s, step, s', r, id);
    }
  }

  lemma NothingBlocks(c: Config, s: Sys, step: System.Step, r: ReplicaID)
    requires AllKnown(s)
    ensures forall x :: !Blocks(c, s, step, r, x)
  {
    forall x ensures !Blocks(c, s, step, r, x) {
      hide Blocks;
      if Blocks(c, s, step, r, x) { BlockedByNil(c, s, step, r, x); }
    }
  }

  lemma {:induction false} AcquaintedRun(c: Config, states: seq<Sys>, steps: seq<System.Step>, k: nat)
    requires IsRun(c, states, steps) && Acquainted(states, steps) && k < |states|
    ensures states[k].crashed == {} && AllKnown(states[k])
  {
    if k > 0 {
      AcquaintedRun(c, states, steps, k - 1);
      RunSafe(c, states, steps, k - 1);
      var s, step, s' := states[k - 1], steps[k - 1], states[k];
      assert Next(c, s, step, s');
      hide Safe, Next, Blocks, Handed, HasCommand;
      NextMoved(c, s, step, s');
      forall r ensures r !in s'.crashed {
        if r in s.reps { NextCrashes(c, s, step, s', r); NothingBlocks(c, s, step, r); }
      }
      forall r, id | r in s'.reps && id in s'.reps[r].log ensures HasCommand(s', r, id) {
        assert Handed(s, step, r, id) == Some(AcceptForm) ==> Hears(states, steps, r, id, AcceptForm, k - 1);
        KnownNext(c, s, step, s', r, id);
      }
    }
  }

  /** Packet i does not make its receiver panic, nor does the run of the executor that it starts. */
  ghost predicate PacketHandled(c: Config, s: Sys, i: nat)
    requires i < |s.sent| && s.sent[i].msg.to in s.reps
  {
    var m := s.sent[i].msg;
    var o := Replicas.Step(c, m.to, s.reps[m.to], m);
    o.Done? && (o.run ==> forall ex :: MayRun(o.rep, ex) ==> ExecuteAll(o.rep, ex).Done?)
  }

  /** Every packet, request and tick that may come next is handled. */
  ghost predicate AllHandled(c: Config, s: Sys) {
    && (forall i :: 0 <= i < |s.sent| ==> s.sent[i].msg.to in s.reps && PacketHandled(c, s, i))
    && (forall r, cmd: Command :: r in s.reps && WellFormed(cmd.span) ==> OnRequest(c, r, s.reps[r], cmd).Done?)
    && (forall r, id :: r in s.reps && id in s.reps[r].log ==> TickOne(c, r, s.reps[r], id).Done?)
  }

  lemma NoNilAhead(rep: Replica, nodes: seq<ReplicaID>, id: InstanceID)
    requires forall x :: x in rep.log ==> rep.log[x].st.cmd.Some?
    ensures forall cmd, x :: !NilAhead(WithInstance(rep, id).log, nodes, cmd, id, x)
    ensures forall cmd, x :: !NilAhead(rep.log, nodes, cmd, InstanceID(0, 0), x)
  {
    hide Comes;
  }

  lemma PacketsHandled(c: Config, s: Sys, i: nat)
    requires Safe(c, s) && AllKnown(s) && i < |s.sent|
    ensures s.sent[i].msg.to in s.reps && PacketHandled(c, s, i)
  {
    hide Safe, Replicas.Step, WellFormed, SpansOK, ExecuteAll, MayRun, Keep;
    var m := s.sent[i].msg;
    PacketCommand(c, s, i);
    RepSpans(c, s, m.to);
    NoNilAhead(s.reps[m.to], c.nodes, m.id);
    MessagePanics(c, m.to, s.reps[m.to], m);
    var o := Replicas.Step(c, m.to, s.reps[m.to], m);
    DeliveredIn(c, s);
    var s1 := Put(s.(delivered := s.delivered + {i}), m.to, o.rep, o.out);
    assert Moves(s, s1, m.to, o.rep, o.out);
    StepSafe(c, s, i, s1);
    forall ex | MayRun(o.rep, ex) ensures ExecuteAll(o.rep, ex).Done? { RunAfter(c, s, s1, m.to, ex); }
  }

  /** Every run in which no Accept is delivered to a replica that lacks the command goes on without a panic. */
  lemma NeverPanics(c: Config, states: seq<Sys>, steps: seq<System.Step>, k: nat)
    requires IsRun(c, states, steps) && Acquainted(states, steps) && k < |states|
    ensures states[k].crashed == {} && AllHandled(c, states[k])
  {
    AcquaintedRun(c, states, steps, k);
    RunSafe(c, states, steps, k);
    var s := states[k];
    hide IsRun, Safe, Replicas.Step, OnRequest, TickOne, LocalSafe, WellFormed, PacketHandled, SpansOK;
    forall i | 0 <= i < |s.sent|
      ensures s.sent[i].msg.to in s.reps && PacketHandled(c, s, i)
    {
      PacketsHandled(c, s, i);
    }
    forall r, cmd: Command | r in s.reps && WellFormed(cmd.span) ensures OnRequest(c, r, s.reps[r], cmd).Done? {
      RepSpans(c, s, r);
      NoNilAhead(s.reps[r], c.nodes, InstanceID(0, 0));
      RequestPanics(c, r, s.reps[r], cmd);
    }
    forall r, id | r in s.reps && id in s.reps[r].log ensures TickOne(c, r, s.reps[r], id).Done? {
      LocalAt(c, s, r);
      TickLocal(c, r, s.reps[r], id);
    }
  }
}
