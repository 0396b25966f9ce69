/** What each replica keeps true of its own state, whatever messages arrive:
    timers, executor vertices and storage agree with the log, and no
    handler asks for a transition that is not in the table. */
module Local {
  import opened Keys
  import opened Types
  import opened Scan
  import opened DepSlices
  import opened Replicas

  /** A quorum is more than half of the nodes, a fast quorum all but one. */
  lemma QuorumSizes(c: Config, n: nat)
    ensures Quorum(c, n) <==> 2 * n > |c.nodes|
    ensures FastQuorum(c, n) <==> n >= |c.nodes| - 1
  {
  }

  /** The transitions that do not panic. */
  lemma TransitionTable(c: Config, me: ReplicaID, rep: Replica, id: InstanceID, to: Status)
    requires id in rep.log && to in {PreAccepted, Accepted, Committed}
    ensures var from := rep.log[id].st.status;
            TransitionTo(c, me, rep, id, to).Done? <==>
            (from, to) in {(NoStatus, PreAccepted), (PreAccepted, Accepted), (PreAccepted, Committed),
                           (Accepted, Committed)}
  {
  }

  /** Messages that change nothing: for another replica, replies about others' or unknown instances, and all others
      about own instances or those of strangers. */
  lemma Ignored(c: Config, me: ReplicaID, rep: Replica, m: Message)
    requires || m.to != me
             || (IsReply(m.body) && (m.id.replica != me || m.id !in rep.log))
             || (!IsReply(m.body) && (m.id.replica == me || m.id.replica !in c.nodes))
    ensures Step(c, me, rep, m) == Done(rep, [], false)
  {
  }

  /** What is persisted of an instance at its command leader. The merges of
      PreAcceptReplies are not, everything else is. */
  predicate Persisted(stored: InstanceState, st: InstanceState) {
    stored.status == st.status && stored.cmd == st.cmd && (st.status != PreAccepted ==> stored == st)
  }

  predicate OwnOK(st: InstanceState) {
    st.cmd.Some? && WellFormed(st.cmd.value.span) && st.status != NoStatus
  }

  ghost predicate LocalEntry(me: ReplicaID, rep: Replica, id: InstanceID) {
    && (id in rep.timers ==> id in rep.log && id.replica == me && rep.log[id].st.status == PreAccepted)
    && (id in rep.log ==> (id in rep.timers <==> !rep.log[id].timer.paused))
    && (id in rep.vertices <==> id in rep.log && rep.log[id].st.status == Committed)
    && (id in rep.storage ==> id in rep.log)
    && (id in rep.log && id.replica == me ==>
          && OwnOK(rep.log[id].st) && id.num > 0
          && id in rep.storage && Persisted(rep.storage[id], rep.log[id].st))
    && (id in rep.storage && id.replica != me ==>
          id in rep.log && rep.storage[id] == rep.log[id].st && rep.log[id].st.status == Executed)
    && (id in rep.log && rep.log[id].st.status == Executed ==> id in rep.storage)
  }

  ghost predicate LocalSafe(me: ReplicaID, rep: Replica) {
    forall id :: LocalEntry(me, rep, id)
  }

  predicate Same<V(==)>(x: InstanceID, a: map<InstanceID, V>, b: map<InstanceID, V>) {
    (x in a <==> x in b) && (x in a && x in b ==> a[x] == b[x])
  }

  /** rep' differs from rep at most at id. */
  ghost predicate SameElsewhere(rep: Replica, rep': Replica, id: InstanceID) {
    forall x :: x != id ==>
      && Same(x, rep.log, rep'.log) && Same(x, rep.storage, rep'.storage)
      && (x in rep.timers <==> x in rep'.timers) && (x in rep.vertices <==> x in rep'.vertices)
  }

  lemma LocalOne(me: ReplicaID, rep: Replica, rep': Replica, id: InstanceID)
    requires LocalSafe(me, rep) && SameElsewhere(rep, rep', id) && LocalEntry(me, rep', id)
    ensures LocalSafe(me, rep')
  {
    forall x ensures LocalEntry(me, rep', x) {
      if x != id { assert LocalEntry(me, rep, x); }
    }
  }

  lemma UnregisterLocal(me: ReplicaID, rep: Replica, id: InstanceID)
    requires LocalSafe(me, rep) && id in rep.log
    ensures LocalSafe(me, Unregister(rep, id)) && SameElsewhere(rep, Unregister(rep, id), id)
  {
    assert LocalEntry(me, rep, id);
    LocalOne(me, rep, Unregister(rep, id), id);
  }

  /** The command leader moves an instance on. */
  lemma TransitionLocal(c: Config, me: ReplicaID, rep: Replica, id: InstanceID, to: Status)
    requires LocalSafe(me, rep) && id in rep.log && id.replica == me && id !in rep.timers
    requires to in {Accepted, Committed} && Allowed(rep.log[id].st.status, to)
    ensures var o := TransitionTo(c, me, rep, id, to);
            o.Done? && LocalSafe(me, o.rep) && SameElsewhere(rep, o.rep, id)
  {
    assert LocalEntry(me, rep, id);
    var o := TransitionTo(c, me, rep, id, to);
    assert LocalEntry(me, o.rep, id);
    LocalOne(me, rep, o.rep, id);
  }

  /** Counting a reply and merging its attributes keeps a pre-accepted instance in order. */
  lemma CountLocal(me: ReplicaID, rep: Replica, id: InstanceID, inst: Instance)
    requires LocalSafe(me, rep) && id in rep.log && id.replica == me
    requires inst.st.status == rep.log[id].st.status && inst.st.cmd == rep.log[id].st.cmd
    requires inst.timer == rep.log[id].timer
    requires inst.st.status != PreAccepted ==> inst.st == rep.log[id].st
    ensures LocalSafe(me, rep.(log := rep.log[id := inst])) && SameElsewhere(rep, rep.(log := rep.log[id := inst]), id)
  {
    assert LocalEntry(me, rep, id);
    LocalOne(me, rep, rep.(log := rep.log[id := inst]), id);
  }

  lemma RegisterLocal(me: ReplicaID, rep: Replica, id: InstanceID)
    requires LocalSafe(me, rep) && id in rep.log && id.replica == me && rep.log[id].st.status == PreAccepted
    ensures LocalSafe(me, Register(rep, id)) && SameElsewhere(rep, Register(rep, id), id)
  {
    assert LocalEntry(me, rep, id);
    LocalOne(me, rep, Register(rep, id), id);
  }

  lemma SameTrans(a: Replica, b: Replica, c: Replica, id: InstanceID)
    requires SameElsewhere(a, b, id) && SameElsewhere(b, c, id)
    ensures SameElsewhere(a, c, id)
  {
    forall x | x != id
      ensures Same(x, a.log, c.log) && Same(x, a.storage, c.storage)
      ensures (x in a.timers <==> x in c.timers) && (x in a.vertices <==> x in c.vertices)
    {
      assert Same(x, a.log, b.log) && Same(x, b.log, c.log);
      assert Same(x, a.storage, b.storage) && Same(x, b.storage, c.storage);
    }
  }

  lemma SameRefl(rep: Replica, id: InstanceID)
    ensures SameElsewhere(rep, rep, id)
  {
  }

  lemma EitherLocal(c: Config, me: ReplicaID, rep: Replica, id: InstanceID)
    requires LocalSafe(me, rep) && id in rep.log && id.replica == me && rep.log[id].st.status == PreAccepted
    ensures var o := OnEitherPreAcceptReply(c, me, rep, id);
            o.Done? && LocalSafe(me, o.rep) && SameElsewhere(rep, o.rep, id)
  {
    hide LocalSafe, SameElsewhere, LocalEntry, TransitionTo;
    SameRefl(rep, id);
    UnregisterLocal(me, rep, id);
    RegisterLocal(me, rep, id);
    TransitionLocal(c, me, Unregister(rep, id), id, Committed);
    TransitionLocal(c, me, Unregister(rep, id), id, Accepted);
    forall to | to in {Committed, Accepted}
      ensures SameElsewhere(rep, TransitionTo(c, me, Unregister(rep, id), id, to).rep, id)
    {
      SameTrans(rep, Unregister(rep, id), TransitionTo(c, me, Unregister(rep, id), id, to).rep, id);
    }
  }

  // ----- Handlers -----

  /** The outcome of a handler for id keeps LocalSafe and touches nothing else. */
  ghost predicate GoodOutcome(me: ReplicaID, rep: Replica, id: InstanceID, o: Outcome) {
    match o
    case Panicked(reason) => reason == NilCommand
    case Done(rep', _, _) => LocalSafe(me, rep') && SameElsewhere(rep, rep', id)
  }

  lemma ReplyLocal(c: Config, me: ReplicaID, rep: Replica, id: InstanceID, inst: Instance)
    requires LocalSafe(me, rep) && id in rep.log && id.replica == me && rep.log[id].st.status == PreAccepted
    requires inst.st.status == PreAccepted && inst.st.cmd == rep.log[id].st.cmd && inst.timer == rep.log[id].timer
    ensures GoodOutcome(me, rep, id, OnEitherPreAcceptReply(c, me, rep.(log := rep.log[id := inst]), id))
  {
    hide LocalSafe, SameElsewhere, OnEitherPreAcceptReply;
    var rep1 := rep.(log := rep.log[id := inst]);
    CountLocal(me, rep, id, inst);
    EitherLocal(c, me, rep1, id);
    SameTrans(rep, rep1, OnEitherPreAcceptReply(c, me, rep1, id).rep, id);
  }

  lemma PreAcceptOKLocal(c: Config, me: ReplicaID, rep: Replica, id: InstanceID)
    requires LocalSafe(me, rep) && id in rep.log && id.replica == me
    ensures GoodOutcome(me, rep, id, OnPreAcceptOK(c, me, rep, id))
  {
    hide LocalSafe, SameElsewhere, OnEitherPreAcceptReply;
    SameRefl(rep, id);
    var inst := rep.log[id];
    if inst.st.status == PreAccepted {
      ReplyLocal(c, me, rep, id, inst.(preAcceptReplies := inst.preAcceptReplies + 1));
    }
  }

  lemma PreAcceptReplyLocal(c: Config, me: ReplicaID, rep: Replica, id: InstanceID, m: Body)
    requires LocalSafe(me, rep) && id in rep.log && id.replica == me && m.PreAcceptReply?
    ensures GoodOutcome(me, rep, id, OnPreAcceptReply(c, me, rep, id, m))
  {
    hide LocalSafe, SameElsewhere, OnEitherPreAcceptReply;
    SameRefl(rep, id);
    var inst := rep.log[id];
    if inst.st.status == PreAccepted {
      ReplyLocal(c, me, rep, id, Merged(inst, m.seqNum, m.deps));
    }
  }

  lemma NotTimed(me: ReplicaID, rep: Replica, id: InstanceID)
    requires LocalSafe(me, rep) && id in rep.log && rep.log[id].st.status != PreAccepted
    ensures id !in rep.timers
  {
    assert LocalEntry(me, rep, id);
  }

  lemma AcceptOKLocal(c: Config, me: ReplicaID, rep: Replica, id: InstanceID)
    requires LocalSafe(me, rep) && id in rep.log && id.replica == me
    ensures GoodOutcome(me, rep, id, OnAcceptOK(c, me, rep, id))
  {
    hide LocalSafe, SameElsewhere, TransitionTo;
    SameRefl(rep, id);
    var inst := rep.log[id];
    if inst.st.status == Accepted {
      var inst' := inst.(acceptReplies := inst.acceptReplies + 1);
      var rep1 := rep.(log := rep.log[id := inst']);
      CountLocal(me, rep, id, inst');
      NotTimed(me, rep1, id);
      TransitionLocal(c, me, rep1, id, Committed);
      SameTrans(rep, rep1, TransitionTo(c, me, rep1, id, Committed).rep, id);
    }
  }

  lemma FollowerLocal(me: ReplicaID, rep: Replica, id: InstanceID, st: InstanceState)
    requires LocalSafe(me, rep) && id in rep.log && id.replica != me
    requires rep.log[id].st.status in {NoStatus, PreAccepted, Accepted}
    requires st.status in {PreAccepted, Accepted, Committed}
    ensures var rep' := rep.(log := rep.log[id := rep.log[id].(st := st)],
                             vertices := if st.status == Committed then rep.vertices + {id} else rep.vertices);
            LocalSafe(me, rep') && SameElsewhere(rep, rep', id)
  {
    var rep' := rep.(log := rep.log[id := rep.log[id].(st := st)],
                     vertices := if st.status == Committed then rep.vertices + {id} else rep.vertices);
    assert LocalEntry(me, rep, id);
    assert LocalEntry(me, rep', id);
    LocalOne(me, rep, rep', id);
  }

  lemma FollowersLocal(c: Config, me: ReplicaID, rep: Replica, m: Message)
    requires LocalSafe(me, rep) && m.id in rep.log && m.id.replica != me && !IsReply(m.body)
    ensures GoodOutcome(me, rep, m.id, Dispatch(c, me, rep, m))
  {
    hide LocalSafe, SameElsewhere;
    SameRefl(rep, m.id);
    var id, o := m.id, Dispatch(c, me, rep, m);
    if o.Done? && rep.log[id].st.status in {NoStatus, PreAccepted, Accepted} && o.rep != rep {
      FollowerLocal(me, rep, id, o.rep.log[id].st);
    }
  }

  lemma NewLocal(me: ReplicaID, rep: Replica, id: InstanceID)
    requires LocalSafe(me, rep) && id !in rep.log && id.replica != me
    ensures LocalSafe(me, rep.(log := rep.log[id := NEW_INSTANCE]))
    ensures SameElsewhere(rep, rep.(log := rep.log[id := NEW_INSTANCE]), id)
  {
    assert LocalEntry(me, rep, id);
    LocalOne(me, rep, rep.(log := rep.log[id := NEW_INSTANCE]), id);
  }

  lemma DispatchLocal(c: Config, me: ReplicaID, rep: Replica, m: Message)
    requires LocalSafe(me, rep) && ValidMessage(c, me, m) && m.id in rep.log
    ensures GoodOutcome(me, rep, m.id, Dispatch(c, me, rep, m))
  {
    hide LocalSafe, SameElsewhere, OnPreAccept, OnPreAcceptOK, OnPreAcceptReply, OnAccept, OnAcceptOK, OnCommit,
         GoodOutcome;
    match m.body
    case PreAcceptOK => PreAcceptOKLocal(c, me, rep, m.id);
    case PreAcceptReply(_, _) => PreAcceptReplyLocal(c, me, rep, m.id, m.body);
    case AcceptOK => AcceptOKLocal(c, me, rep, m.id);
    case PreAccept(_, _, _) => FollowersLocal(c, me, rep, m);
    case Accept(_, _) => FollowersLocal(c, me, rep, m);
    case Commit(_, _, _) => FollowersLocal(c, me, rep, m);
  }

  /** No message makes a replica attempt a transition outside the table or lose its bookkeeping. */
  lemma StepLocal(c: Config, me: ReplicaID, rep: Replica, m: Message)
    requires LocalSafe(me, rep)
    ensures GoodOutcome(me, rep, m.id, Step(c, me, rep, m))
  {
    hide LocalSafe, SameElsewhere, Dispatch;
    SameRefl(rep, m.id);
    if ValidMessage(c, me, m) {
      if m.id in rep.log {
        DispatchLocal(c, me, rep, m);
      } else if m.id.replica != me {
        var rep1 := rep.(log := rep.log[m.id := NEW_INSTANCE]);
        NewLocal(me, rep, m.id);
        DispatchLocal(c, me, rep1, m);
        var o := Dispatch(c, me, rep1, m);
        if o.Done? { SameTrans(rep, rep1, o.rep, m.id); }
      }
    }
  }

  /** The next slot of a replica's own space is unused. */
  lemma FreshId(me: ReplicaID, log: Log)
    ensures InstanceID(me, MaxInstanceNum(log, me) + 1) !in log
  {
    var id := InstanceID(me, MaxInstanceNum(log, me) + 1);
    assert id in log ==> id.num in Nums(log, me);
  }

  /** A request fails on a nil command only, touches only the slot it opens, and keeps the bookkeeping. */
  lemma RequestLocal(c: Config, me: ReplicaID, rep: Replica, cmd: Command)
    requires LocalSafe(me, rep)
    ensures var o := OnRequest(c, me, rep, cmd);
            var id := InstanceID(me, MaxInstanceNum(rep.log, me) + 1);
            && (o.Panicked? ==> o.reason == NilCommand)
            && (o.Done? ==> SameElsewhere(rep, o.rep, id) && id in o.rep.log && id in o.rep.storage
                            && id !in o.rep.timers && id !in o.rep.vertices && o.rep.storage[id] == o.rep.log[id].st)
            && (WellFormed(cmd.span) ==> GoodOutcome(me, rep, id, o))
  {
    hide ScanAll, Slice, MaxInstanceNum, WellFormed;
    var id := InstanceID(me, MaxInstanceNum(rep.log, me) + 1);
    FreshId(me, rep.log);
    var o := OnRequest(c, me, rep, cmd);
    if o.Done? {
      assert LocalEntry(me, rep, id);
      if WellFormed(cmd.span) {
        assert LocalEntry(me, o.rep, id);
        LocalOne(me, rep, o.rep, id);
      }
    }
  }

  lemma TickOneKeys(c: Config, me: ReplicaID, rep: Replica, id: InstanceID)
    requires id in rep.log
    ensures var o := TickOne(c, me, rep, id); o.Done? ==> o.rep.log.Keys == rep.log.Keys && !o.run
  {
  }

  lemma TickingLocal(me: ReplicaID, rep: Replica, id: InstanceID, t: Timer)
    requires LocalSafe(me, rep) && id in rep.log && t.paused == rep.log[id].timer.paused
    ensures var rep' := rep.(log := rep.log[id := rep.log[id].(timer := t)]);
            LocalSafe(me, rep') && SameElsewhere(rep, rep', id)
  {
    assert LocalEntry(me, rep, id);
    LocalOne(me, rep, rep.(log := rep.log[id := rep.log[id].(timer := t)]), id);
  }

  lemma TickLocal(c: Config, me: ReplicaID, rep: Replica, id: InstanceID)
    requires LocalSafe(me, rep) && id in rep.log
    ensures TickOne(c, me, rep, id).Done? && GoodOutcome(me, rep, id, TickOne(c, me, rep, id))
  {
    var inst := rep.log[id];
    assert LocalEntry(me, rep, id);
    SameRefl(rep, id);
    hide LocalSafe, SameElsewhere, TransitionTo;
    if !inst.timer.paused {
      UnregisterLocal(me, rep, id);
      var rep1 := Unregister(rep, id);
      TransitionLocal(c, me, rep1, id, Accepted);
      SameTrans(rep, rep1, TransitionTo(c, me, rep1, id, Accepted).rep, id);
      TickingLocal(me, rep, id, Timer(inst.timer.ticksElapsed + 1, false));
    }
  }

  // ----- Execution -----

  /** Committed data stays; only the status may move on to Executed. */
  predicate Advances(a: InstanceState, b: InstanceState) {
    b == a || (a.status == Committed && b == a.(status := Executed))
  }

  lemma ExecuteLocal(me: ReplicaID, rep: Replica, ex: seq<InstanceID>)
    requires LocalSafe(me, rep) && forall id :: id in ex ==> id in rep.vertices
    ensures ExecuteAll(rep, ex).Panicked? <==> exists id :: id in ex && id in rep.log && rep.log[id].st.cmd.None?
    ensures var o := ExecuteAll(rep, ex);
            match o
            case Panicked(reason) => reason == NilCommand
            case Done(rep', _, _) =>
              && LocalSafe(me, rep') && (forall x :: x in rep.log <==> x in rep'.log)
              && forall x :: x in rep.log ==> Advances(rep.log[x].st, rep'.log[x].st)
  {
    forall id | id in ex ensures id in rep.log && rep.log[id].st.status == Committed {
      assert LocalEntry(me, rep, id);
    }
    var o := ExecuteAll(rep, ex);
    if o.Done? {
      forall id ensures LocalEntry(me, o.rep, id) {
        assert LocalEntry(me, rep, id);
      }
    }
  }

  lemma ExecuteNothing(rep: Replica)
    ensures ExecuteAll(rep, []) == Done(rep, [], false)
  {
    var o := ExecuteAll(rep, []);
    assert o.rep.log == rep.log && o.rep.storage == rep.storage;
  }
}
