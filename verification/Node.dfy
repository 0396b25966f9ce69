/** The epaxos object and its methods (epaxos/epaxos.go, epaxos/instance.go,
    epaxos/command.go, epaxos/messaging.go, epaxos/storage.go). Each handler is
    proved to compute the function of Replicas that models it. */
module Node {
  import opened Keys
  import opened RangeGroups
  import opened Types
  import opened Scan
  import opened ScanOrder
  import opened DepSlices
  import opened Graphs
  import opened Tarjan
  import opened ExecutionSpec
  import opened Execution
  import opened Replicas
  import opened Local
  import opened System

  // ----- Dependency slices -----

  function InsertId(x: InstanceID, s: seq<InstanceID>): seq<InstanceID> {
    if s == [] then [x]
    else if Less(x, s[0]) then [x] + s
    else [s[0]] + InsertId(x, s[1..])
  }

  /** In ascending order; repeated ids may stand side by side. */
  ghost predicate InOrder(s: seq<InstanceID>) {
    forall i, j :: 0 <= i < j < |s| ==> !Less(s[j], s[i])
  }

  lemma {:induction false} InsertIdKeeps(x: InstanceID, s: seq<InstanceID>)
    ensures multiset(InsertId(x, s)) == multiset(s) + multiset{x}
  {
    hide Less;
    if s != [] {
      assert s == [s[0]] + s[1..];
      if !Less(x, s[0]) { InsertIdKeeps(x, s[1..]); }
    }
  }

  lemma NotAbove(x: InstanceID, y: InstanceID, z: InstanceID)
    requires !Less(y, x) && !Less(z, y)
    ensures !Less(z, x)
  {
  }

  lemma PrependInOrder(x: InstanceID, s: seq<InstanceID>)
    requires InOrder(s) && forall y :: y in s ==> !Less(y, x)
    ensures InOrder([x] + s)
  {
    hide Less;
    var t := [x] + s;
    forall i, j | 0 <= i < j < |t| ensures !Less(t[j], t[i]) { assert t[j] == s[j - 1] && s[j - 1] in s; }
  }

  lemma {:induction false} InsertIdInOrder(x: InstanceID, s: seq<InstanceID>)
    requires InOrder(s)
    ensures InOrder(InsertId(x, s))
  {
    if s == [] {
    } else if Less(x, s[0]) {
      forall y | y in s ensures !Less(y, x) { NotAbove(x, s[0], y); }
      PrependInOrder(x, s);
    } else {
      hide Less;
      InsertIdInOrder(x, s[1..]);
      InsertIdKeeps(x, s[1..]);
      var t := InsertId(x, s[1..]);
      forall y | y in t ensures !Less(y, s[0]) { assert y in multiset(t); assert y == x || y in multiset(s[1..]); }
      PrependInOrder(s[0], t);
    }
  }

  /** Ids that do not repeat are in strictly ascending order. */
  lemma StrictlyInOrder(s: seq<InstanceID>)
    requires InOrder(s) && NoDup(s)
    ensures Sorted(s)
  {
  }

  lemma {:induction false} NoDupCounts(s: seq<InstanceID>, x: InstanceID)
    requires NoDup(s)
    ensures multiset(s)[x] <= 1
  {
    if s != [] {
      assert s == [s[0]] + s[1..];
      NoDupCounts(s[1..], x);
      if x == s[0] { assert x !in s[1..]; }
    }
  }

  lemma NoDupSame(s: seq<InstanceID>, t: seq<InstanceID>)
    requires NoDup(s) && multiset(s) == multiset(t)
    ensures NoDup(t) && Elems(t) == Elems(s)
  {
    forall i, j | 0 <= i < j < |t| ensures t[i] != t[j] {
      NoDupCounts(s, t[i]);
      assert t == t[..i] + [t[i]] + t[i + 1..j] + [t[j]] + t[j + 1..];
    }
    forall x ensures x in Elems(t) <==> x in Elems(s) { assert x in multiset(t) <==> x in multiset(s); }
  }

  /** sort.Sort of InstanceIDs. */
  method SortIds(s: seq<InstanceID>) returns (t: seq<InstanceID>)
    ensures InOrder(t) && multiset(t) == multiset(s)
    ensures NoDup(s) ==> Sorted(t) && Elems(t) == Elems(s)
  {
    t := [];
    for i := 0 to |s|
      invariant InOrder(t) && multiset(t) == multiset(s[..i])
    {
      InsertIdInOrder(s[i], t);
      InsertIdKeeps(s[i], t);
      t := InsertId(s[i], t);
      assert s[..i + 1] == s[..i] + [s[i]];
    }
    assert s[..|s|] == s;
    if NoDup(s) {
      NoDupSame(s, t);
      StrictlyInOrder(t);
    }
  }

  method DepSliceFromMap(depsMap: set<InstanceID>) returns (deps: seq<InstanceID>)
    ensures deps == Slice(depsMap)
  {
    deps := [];
    var todo := depsMap;
    while todo != {}
      invariant todo <= depsMap && Elems(deps) == depsMap - todo && NoDup(deps)
    {
      var dep :| dep in todo;
      assert dep !in Elems(deps);
      assert dep !in deps;
      assert Elems(deps + [dep]) == Elems(deps) + {dep};
      deps := deps + [dep];
      todo := todo - {dep};
    }
    deps := SortIds(deps);
    SliceOfIds(deps);
  }

  method UnionDepSlices(a: seq<InstanceID>, b: seq<InstanceID>) returns (deps: seq<InstanceID>)
    ensures deps == Slice(Elems(a) + Elems(b))
  {
    var depUnion := {};
    for i := 0 to |a|
      invariant depUnion == Elems(a[..i])
    {
      depUnion := depUnion + {a[i]};
    }
    assert a[..|a|] == a;
    for i := 0 to |b|
      invariant depUnion == Elems(a) + Elems(b[..i])
    {
      depUnion := depUnion + {b[i]};
    }
    assert b[..|b|] == b;
    deps := DepSliceFromMap(depUnion);
  }

  // ----- Storage -----

  /** The ids of each replica stand together, in ascending order. */
  ghost predicate BySpace(ids: seq<InstanceID>) {
    forall i, j :: 0 <= i < j < |ids| && ids[i].replica == ids[j].replica ==>
      ids[i].num < ids[j].num && forall k :: i <= k <= j ==> ids[k].replica == ids[i].replica
  }

  lemma AppendSpace(ids: seq<InstanceID>, space: seq<InstanceID>, r: ReplicaID)
    requires BySpace(ids) && Sorted(space)
    requires (forall id :: id in ids ==> id.replica != r) && (forall id :: id in space ==> id.replica == r)
    ensures BySpace(ids + space)
  {
    var all, n := ids + space, |ids|;
    forall i | 0 <= i < |all|
      ensures (i < n ==> all[i] == ids[i] && ids[i] in ids)
      ensures (i >= n ==> all[i] == space[i - n] && space[i - n] in space)
    {
    }
  }

  class MemoryStorage {
    var instances: map<InstanceID, InstanceState>

    constructor ()
      ensures instances == map[]
    {
      instances := map[];
    }

    method PersistInstance(id: InstanceID, st: InstanceState)
      modifies this
      ensures instances == old(instances)[id := st]
    {
      instances := instances[id := st];
    }

    /** The persisted instances, each once, space by space and in ascending order in each; the spaces come in the
        order in which the map of spaces is iterated. */
    method Instances() returns (insts: seq<InstanceID>)
      ensures NoDup(insts) && (forall id :: id in insts <==> id in instances) && BySpace(insts)
    {
      insts := [];
      var todo := set id | id in instances :: id.replica;
      while todo != {}
        invariant BySpace(insts)
        invariant forall id :: id in insts <==> id in instances && id.replica !in todo
      {
        var r :| r in todo;
        var space := DepSliceFromMap(set id | id in instances && id.replica == r);
        SliceIds(set id | id in instances && id.replica == r);
        forall id
          ensures id in space <==> id in instances && id.replica == r
        {
          assert id in space <==> id in Elems(space);
        }
        AppendSpace(insts, space, r);
        insts := insts + space;
        todo := todo - {r};
      }
    }
  }

  // ----- What a method call amounts to -----

  /** The commands of the instances in ex. */
  ghost function CommandsOf(log: Log, ex: seq<InstanceID>): (cmds: seq<Command>)
    requires forall id :: id in ex ==> id in log && log[id].st.cmd.Some?
    ensures |cmds| == |ex|
  {
    if ex == [] then [] else [log[ex[0]].st.cmd.value] + CommandsOf(log, ex[1..])
  }

  /** A run of the executor on rep1 that executes ex. */
  ghost predicate Runs(rep1: Replica, rep: Replica, panic: Option<PanicReason>, ex: seq<InstanceID>) {
    && MayRun(rep1, ex)
    && match ExecuteAll(rep1, ex)
       case Panicked(reason) => panic == Some(reason)
       case Done(rep2, _, _) => panic == None && rep == rep2
  }

  /** The handler had outcome o; then, if o asks for it, the executor executed ex. */
  ghost predicate Effect(o: Outcome, rep: Replica, out: seq<Message>, panic: Option<PanicReason>, ex: seq<InstanceID>) {
    match o
    case Panicked(reason) => panic == Some(reason)
    case Done(rep1, out1, run) =>
      && (panic == None ==> out == out1)
      && if run then Runs(rep1, rep, panic, ex) else panic == None && ex == [] && rep == rep1
  }

  /** cmds are the commands of ex. */
  ghost predicate Delivered(log: Log, ex: seq<InstanceID>, cmds: seq<Command>) {
    && (forall id :: id in ex ==> id in log && log[id].st.cmd.Some?)
    && cmds == CommandsOf(log, ex)
  }

  /** Only the handler of a PreAccept may panic itself. */
  lemma MostDone(c: Config, me: ReplicaID, rep: Replica, m: Message)
    requires !m.body.PreAccept?
    ensures Replicas.Step(c, me, rep, m).Done?
  {
    hide Replicas.Broadcast, Slice;
  }

  // ----- Executing a sequence of instances one by one -----

  ghost function Marked(log: Log, ex: seq<InstanceID>): Log {
    map id | id in log :: if id in ex then WithStatus(log[id], Executed) else log[id]
  }

  ghost function Saved(stored: map<InstanceID, InstanceState>, log: Log, ex: seq<InstanceID>): map<InstanceID,
                       InstanceState> {
    stored + map id | id in Elems(ex) && id in log :: WithStatus(log[id], Executed).st
  }

  lemma MarkedNext(log: Log, ex: seq<InstanceID>, id: InstanceID)
    requires id in log
    ensures Marked(log, ex + [id]) == Marked(log, ex)[id := WithStatus(log[id], Executed)]
  {
  }

  lemma SavedNext(stored: map<InstanceID, InstanceState>, log: Log, ex: seq<InstanceID>, id: InstanceID)
    requires id in log
    ensures Saved(stored, log, ex + [id]) == Saved(stored, log, ex)[id := WithStatus(log[id], Executed).st]
  {
    assert Elems(ex + [id]) == Elems(ex) + {id};
  }

  lemma {:induction false} CommandsNext(log: Log, ex: seq<InstanceID>, id: InstanceID)
    requires forall x :: x in ex + [id] ==> x in log && log[x].st.cmd.Some?
    ensures forall x :: x in ex ==> x in log && log[x].st.cmd.Some?
    ensures CommandsOf(log, ex + [id]) == CommandsOf(log, ex) + [log[id].st.cmd.value]
  {
    assert forall x :: x in ex ==> x in ex + [id];
    if ex == [] {
      assert ex + [id] == [id];
    } else {
      assert (ex + [id])[1..] == ex[1..] + [id];
      assert forall x :: x in ex[1..] + [id] ==> x in ex + [id];
      CommandsNext(log, ex[1..], id);
    }
  }

  lemma {:induction false} CommandsSame(log: Log, log': Log, ex: seq<InstanceID>)
    requires forall x :: x in ex ==> x in log && x in log' && log[x].st.cmd.Some? && log'[x].st.cmd == log[x].st.cmd
    ensures CommandsOf(log, ex) == CommandsOf(log', ex)
  {
    if ex != [] { CommandsSame(log, log', ex[1..]); }
  }

  /** Each instance can execute, once. */
  ghost predicate CanExecute(log: Log, ex: seq<InstanceID>) {
    NoDup(ex) && forall id :: id in ex ==> id in log && log[id].st.status == Committed
  }

  /** The instances have commands. */
  ghost predicate HaveCommands(log: Log, ex: seq<InstanceID>) {
    forall id :: id in ex ==> id in log && log[id].st.cmd.Some?
  }

  lemma ExecutePanics(rep: Replica, ex: seq<InstanceID>)
    requires CanExecute(rep.log, ex) && !HaveCommands(rep.log, ex)
    ensures ExecuteAll(rep, ex) == Panicked(NilCommand)
  {
  }

  lemma ExecuteLog(rep: Replica, ex: seq<InstanceID>)
    requires CanExecute(rep.log, ex) && HaveCommands(rep.log, ex)
    ensures ExecuteAll(rep, ex).Done? && ExecuteAll(rep, ex).rep.log == Marked(rep.log, ex)
  {
    hide NoDup;
  }

  lemma ExecuteStorage(rep: Replica, ex: seq<InstanceID>)
    requires CanExecute(rep.log, ex) && HaveCommands(rep.log, ex)
    ensures ExecuteAll(rep, ex).Done? && ExecuteAll(rep, ex).rep.storage == Saved(rep.storage, rep.log, ex)
  {
    hide NoDup;
  }

  lemma MarkedAll(rep: Replica, ex: seq<InstanceID>)
    requires CanExecute(rep.log, ex) && HaveCommands(rep.log, ex)
    ensures ExecuteAll(rep, ex) ==
            Done(Replica(Marked(rep.log, ex), rep.timers, rep.vertices - Elems(ex), rep.executed + ex,
                         Saved(rep.storage, rep.log, ex)),
                 [], false)
  {
    ExecuteLog(rep, ex);
    ExecuteStorage(rep, ex);
    hide Marked, Saved, Elems, CanExecute, HaveCommands;
  }

  /** The executables in g are committed instances of the log. */
  ghost predicate Holds(g: Graph<InstanceID>, log: Log) {
    forall id :: id in g ==> id in log && log[id].st.status == Committed && g[id] == ExecOf(id, log[id])
  }

  lemma HoldsGraph(g: Graph<InstanceID>, rep: Replica)
    requires Holds(g, rep.log) && rep.vertices == g.Keys
    ensures g == VertexGraph(rep) && g.Keys !! ExecutedSet(rep.log)
  {
  }

  lemma HoldsAdd(g: Graph<InstanceID>, log: Log, id: InstanceID)
    requires Holds(g, log) && id in log && log[id].st.status == Committed
    ensures Holds(g[id := ExecOf(id, log[id])], log)
  {
  }

  lemma ExecsKeys(nodes: map<InstanceID, TarjanNode<InstanceID>>)
    ensures Execs(nodes).Keys == nodes.Keys
  {
  }

  lemma RunCan(rep: Replica, ex: seq<InstanceID>)
    requires Holds(VertexGraph(rep), rep.log) && MayRun(rep, ex)
    ensures CanExecute(rep.log, ex)
  {
    hide Ready, Ordered;
  }

  lemma HoldsAfter(g: Graph<InstanceID>, log: Log, ex: seq<InstanceID>)
    requires Holds(g, log)
    ensures Holds(g - Elems(ex), Marked(log, ex))
  {
  }

  /** An instance that is not committed is not with the executor. */
  lemma HoldsUpdate(g: Graph<InstanceID>, log: Log, id: InstanceID, inst: Instance)
    requires Holds(g, log) && (id in log ==> log[id].st.status != Committed || log[id].st == inst.st)
    ensures Holds(g, log[id := inst])
  {
  }

  lemma SavedLater(stored: map<InstanceID, InstanceState>, log: Log, id: InstanceID, ex: seq<InstanceID>)
    requires id in log
    ensures id in Marked(log, ex)
    ensures Saved(stored[id := log[id].st], log, ex) == Saved(stored, log, ex)[id := Marked(log, ex)[id].st]
  {
  }

  /** Persisting an instance after the run that may have executed it, rather than before, makes no difference. */
  lemma PersistLater(rep: Replica, id: InstanceID, ex: seq<InstanceID>)
    requires id in rep.log && CanExecute(rep.log, ex) && MayRun(rep, ex)
    ensures var rep1, done := rep.(storage := rep.storage[id := rep.log[id].st]), ExecuteAll(rep, ex);
            && MayRun(rep1, ex)
            && match done
               case Panicked(reason) => ExecuteAll(rep1, ex) == Panicked(reason)
               case Done(rep', _, _) =>
                 && id in rep'.log
                 && ExecuteAll(rep1, ex) == Done(rep'.(storage := rep'.storage[id := rep'.log[id].st]), [], false)
  {
    var rep1 := rep.(storage := rep.storage[id := rep.log[id].st]);
    assert VertexGraph(rep1) == VertexGraph(rep);
    hide RunSpec;
    if HaveCommands(rep.log, ex) {
      MarkedAll(rep, ex);
      MarkedAll(rep1, ex);
      hide ExecuteAll;
      SavedLater(rep.storage, rep.log, id, ex);
    } else {
      ExecutePanics(rep, ex);
      ExecutePanics(rep1, ex);
    }
  }

  lemma MarkedDelivered(log: Log, ex: seq<InstanceID>)
    requires HaveCommands(log, ex)
    ensures Delivered(Marked(log, ex), ex, CommandsOf(log, ex))
  {
    CommandsSame(log, Marked(log, ex), ex);
  }

  lemma MarkedKeys(log: Log, ex: seq<InstanceID>)
    ensures Marked(log, ex).Keys == log.Keys
  {
  }

  lemma ExecuteNone(log: Log, stored: map<InstanceID, InstanceState>)
    ensures log == Marked(log, []) && stored == Saved(stored, log, []) && CommandsOf(log, []) == []
  {
  }

  lemma StillThere(log: Log, ex: seq<InstanceID>, id: InstanceID)
    requires id in log && id !in ex
    ensures id in Marked(log, ex) && Marked(log, ex)[id] == log[id]
  {
  }

  // ----- Loading in sequence -----

  lemma LoadsNone(c: Config, me: ReplicaID, rep: Replica, stored: map<InstanceID, InstanceState>)
    ensures Loads(c, me, rep, stored, [], [], rep, [])
  {
  }

  /** What one load does. */
  ghost predicate LoadEffect(c: Config, me: ReplicaID, rep: Replica, id: InstanceID, st: InstanceState,
                             ex: seq<InstanceID>, rep': Replica, out: seq<Message>, panic: Option<PanicReason>) {
    Effect(LoadOne(c, me, rep, id, st), rep', out, panic, ex)
  }

  /** Loading order goes well, and then loading id panics. */
  ghost predicate LoadFails(c: Config, me: ReplicaID, rep: Replica, stored: map<InstanceID, InstanceState>,
                            order: seq<InstanceID>, runs: seq<seq<InstanceID>>, id: InstanceID,
                            panic: Option<PanicReason>)
    requires |runs| == |order| && forall x :: x in order ==> x in stored
  {
    && id in stored && id !in order
    && exists rep1, out1, ex, rep2, out2 ::
         && Loads(c, me, rep, stored, order, runs, rep1, out1)
         && LoadEffect(c, me, rep1, id, stored[id], ex, rep2, out2, panic)
  }

  lemma {:induction false} LoadsSnoc(c: Config, me: ReplicaID, rep: Replica, stored: map<InstanceID, InstanceState>,
                                     order: seq<InstanceID>, runs: seq<seq<InstanceID>>, rep1: Replica,
                                     out1: seq<Message>,
                                     id: InstanceID, ex: seq<InstanceID>, rep2: Replica, out2: seq<Message>)
    requires |runs| == |order| && id in stored && forall x :: x in order ==> x in stored
    requires Loads(c, me, rep, stored, order, runs, rep1, out1)
    requires LoadEffect(c, me, rep1, id, stored[id], ex, rep2, out2, None)
    ensures Loads(c, me, rep, stored, order + [id], runs + [ex], rep2, out1 + out2)
    decreases |order|
  {
    hide LoadOne, MayRun;
    var order', runs', out := order + [id], runs + [ex], out1 + out2;
    if order == [] {
      assert order'[1..] == [] && runs'[1..] == [];
      if ex == [] { ExecuteNothing(LoadOne(c, me, rep1, id, stored[id]).rep); }
    } else {
      assert order'[1..] == order[1..] + [id] && runs'[1..] == runs[1..] + [ex];
      var o := LoadOne(c, me, rep, order[0], stored[order[0]]);
      var n := |o.out|;
      assert out[..n] == out1[..n] && out[n..] == out1[n..] + out2;
      assert forall x :: x in order[1..] ==> x in order;
      hide ExecuteAll;
      LoadsSnoc(c, me, ExecuteAll(o.rep, runs[0]).rep, stored, order[1..], runs[1..], rep1, out1[n..], id, ex, rep2,
                out2);
    }
  }

  // ----- Ticks in sequence -----

  /** The timers in order tick one after the other. */
  ghost function TickSeq(c: Config, me: ReplicaID, rep: Replica, order: seq<InstanceID>): Outcome
    decreases |order|
  {
    if order == [] || order[0] !in rep.log then Done(rep, [], false)
    else match TickOne(c, me, rep, order[0])
      case Panicked(reason) => Panicked(reason)
      case Done(rep1, out1, _) =>
        match TickSeq(c, me, rep1, order[1..])
        case Panicked(reason) => Panicked(reason)
        case Done(rep2, out2, _) => Done(rep2, out1 + out2, false)
  }

  lemma TickNone(c: Config, me: ReplicaID, rep: Replica)
    ensures TickSeq(c, me, rep, []) == Done(rep, [], false)
  {
  }

  lemma {:induction false} TickSnoc(c: Config, me: ReplicaID, rep: Replica, order: seq<InstanceID>, id: InstanceID)
    requires TickSeq(c, me, rep, order).Done? && id in rep.log && forall x :: x in order ==> x in rep.log
    ensures var o := TickSeq(c, me, rep, order);
            && id in o.rep.log
            && TickSeq(c, me, rep, order + [id]) ==
               match TickOne(c, me, o.rep, id) {
                 case Panicked(reason) => Panicked(reason)
                 case Done(rep1, out1, _) => Done(rep1, o.out + out1, false)
               }
    decreases |order|
  {
    hide TickOne;
    if order == [] {
      assert [id][1..] == [];
    } else {
      assert (order + [id])[1..] == order[1..] + [id];
      var o := TickOne(c, me, rep, order[0]);
      TickOneKeys(c, me, rep, order[0]);
      assert forall x :: x in order[1..] ==> x in order;
      TickSnoc(c, me, o.rep, order[1..], id);
    }
  }

  // ----- The replica -----

  class EPaxos {
    const me: ReplicaID
    const nodes: seq<ReplicaID>
    const executor: Executor<InstanceID>
    const storage: MemoryStorage
    var log: Log
    var rangeGroup: RangeGroup
    var timers: set<InstanceID>
    var msgs: seq<Message>
    var executedCmds: seq<Command>
    ghost var executed: seq<InstanceID>

    ghost function Cfg(): Config {
      Config(nodes)
    }

    ghost function State(): Replica
      reads this, executor, storage
    {
      Replica(log, timers, executor.vertices.Keys, executed, storage.instances)
    }

    /** The executor holds committed instances, as the log has them. */
    ghost predicate Wired()
      reads this, executor
    {
      && executor.Valid()
      && rangeGroup == []
      && timers <= log.Keys
      && Holds(Execs(executor.vertices), log)
    }

    constructor (me: ReplicaID, nodes: seq<ReplicaID>)
      ensures this.me == me && this.nodes == nodes && fresh(executor) && fresh(storage)
      ensures Wired() && State() == EMPTY && msgs == [] && executedCmds == []
    {
      this.me, this.nodes := me, nodes;
      executor := new Executor<InstanceID>();
      storage := new MemoryStorage();
      log, rangeGroup, timers, msgs, executedCmds, executed := map[], [], {}, [], [], [];
    }

    /** A restart: nothing but the storage survives. */
    constructor Reopen(me: ReplicaID, nodes: seq<ReplicaID>, storage: MemoryStorage)
      ensures this.me == me && this.nodes == nodes && this.storage == storage && fresh(executor)
      ensures Wired() && State() == Rebooted(storage.instances) && msgs == [] && executedCmds == []
    {
      this.me, this.nodes, this.storage := me, nodes, storage;
      executor := new Executor<InstanceID>();
      log, rangeGroup, timers, msgs, executedCmds, executed := map[], [], {}, [], [], [];
    }

    // ----- Reads -----

    predicate Quorum(val: nat) {
      val > |nodes| / 2
    }

    predicate FastQuorum(val: nat) {
      val >= |nodes| - 1
    }

    method MaxInstanceNum(r: ReplicaID) returns (n: nat)
      ensures n == Replicas.MaxInstanceNum(log, r)
    {
      n := 0;
      var todo := log.Keys;
      while todo != {}
        invariant todo <= log.Keys
        invariant forall id :: id in log && id.replica == r && id !in todo ==> id.num <= n
        invariant n > 0 ==> InstanceID(r, n) in log
      {
        var id :| id in todo;
        if id.replica == r && id.num > n { n := id.num; }
        todo := todo - {id};
      }
      assert forall x :: x in Nums(log, r) ==> InstanceID(r, x) in log;
      assert n > 0 ==> InstanceID(r, n) in log && InstanceID(r, n).num in Nums(log, r);
    }

    // ----- The scan -----

    /** Add of the range group, which reports whether the group grew. */
    method AddRange(r: Range) returns (grew: bool)
      modifies this`rangeGroup
      ensures grew == Grows(old(rangeGroup), r)
      ensures rangeGroup == if grew then Add(old(rangeGroup), r) else old(rangeGroup)
    {
      grew := Grows(rangeGroup, r);
      if grew { rangeGroup := Add(rangeGroup, r); }
    }

    /** Descend through the space of rid. */
    method Descend(rid: ReplicaID, cmd: Command, ignored: InstanceID, maxSeq0: nat, deps0: set<InstanceID>)
      returns (panic: bool, maxSeq: nat, deps: set<InstanceID>)
      requires rangeGroup == []
      modifies this`rangeGroup
      ensures var res := With(Space(log, rid, cmd, ignored), maxSeq0, deps0);
              panic == res.ScanPanic? && (!panic ==> res == Found(maxSeq, deps))
    {
      maxSeq, deps := maxSeq0, deps0;
      var last := MaxInstanceNum(rid);
      var n := last + 1;
      ghost var whole := With(Space(log, rid, cmd, ignored), maxSeq0, deps0);
      TopSlot(log, rid, cmd, ignored, last);
      while n > 0
        invariant whole == With(ScanSpace(log, rid, cmd, ignored, n, rangeGroup), maxSeq, deps)
      {
        n := n - 1;
        var id := InstanceID(rid, n);
        if id in log && id != ignored {
          var inst := log[id];
          if inst.st.cmd.None? {
            return true, maxSeq, deps;
          }
          var other := inst.st.cmd.value;
          if Interferes(other, cmd) {
            ghost var seq0, deps1 := maxSeq, deps;
            maxSeq := Max(maxSeq, inst.st.seqNum);
            if other.writing {
              var grew := AddRange(RangeOf(other.span));
              if grew {
                deps := deps + {id};
                if |rangeGroup| == 1 && Encloses(rangeGroup, RangeOf(cmd.span)) {
                  return false, maxSeq, deps;
                }
              }
            } else if !GroupOverlaps(rangeGroup, RangeOf(other.span)) {
              deps := deps + {id};
            }
            WithWith(ScanSpace(log, rid, cmd, ignored, n, rangeGroup), inst.st.seqNum, {id}, seq0, deps1);
            WithWith(ScanSpace(log, rid, cmd, ignored, n, rangeGroup), inst.st.seqNum, {}, seq0, deps1);
          }
        }
      }
      return false, maxSeq, deps;
    }

    /** seqAndDepsForCommand: the spaces are scanned in the order that the map of spaces is iterated in. */
    method SeqAndDepsForCommand(cmd: Command, ignored: InstanceID) returns (res: ScanResult)
      requires rangeGroup == []
      modifies this`rangeGroup
      ensures res == ScanAll(log, nodes, cmd, ignored)
      ensures res.Found? ==> rangeGroup == []
    {
      hide Space, Collected, ScanAll;
      var maxSeq, deps := 0, {};
      var todo := Elems(nodes);
      CollectedNone(log, cmd, ignored);
      ScanAllCollects(log, nodes, cmd, ignored);
      assert Elems(nodes) - todo == {};
      while todo != {}
        invariant todo <= Elems(nodes) && rangeGroup == []
        invariant Collected(log, Elems(nodes) - todo, cmd, ignored, maxSeq, deps)
        decreases todo
      {
        var rid :| rid in todo;
        ghost var seq0, deps0 := maxSeq, deps;
        var panic: bool;
        panic, maxSeq, deps := Descend(rid, cmd, ignored, maxSeq, deps);
        if panic {
          return ScanPanic;
        }
        CollectedMore(log, Elems(nodes) - todo, rid, cmd, ignored, seq0, deps0);
        assert Elems(nodes) - (todo - {rid}) == Elems(nodes) - todo + {rid};
        MaxSym(seq0, Space(log, rid, cmd, ignored).maxSeq);
        assert deps0 + Space(log, rid, cmd, ignored).deps == Space(log, rid, cmd, ignored).deps + deps0;
        rangeGroup := [];
        todo := todo - {rid};
      }
      assert Elems(nodes) - todo == Elems(nodes);
      NoPanicAll(log, nodes, cmd, ignored, maxSeq, deps);
      return Found(maxSeq, deps);
    }

    // ----- Messaging -----

    method SendTo(body: Body, to: ReplicaID, id: InstanceID)
      modifies this`msgs
      ensures msgs == old(msgs) + [Message(to, id, body)]
    {
      msgs := msgs + [Message(to, id, body)];
    }

    method Broadcast(body: Body, id: InstanceID)
      modifies this`msgs
      ensures msgs == old(msgs) + Replicas.Broadcast(nodes, me, id, body)
    {
      for i := 0 to |nodes|
        invariant msgs + Replicas.Broadcast(nodes[i..], me, id, body) ==
                  old(msgs) + Replicas.Broadcast(nodes, me, id, body)
      {
        assert nodes[i..][1..] == nodes[i + 1..];
        if nodes[i] != me { SendTo(body, nodes[i], id); }
      }
    }

    method Reply(body: Body, id: InstanceID)
      modifies this`msgs
      ensures msgs == old(msgs) + [Message(id.replica, id, body)]
    {
      SendTo(body, id.replica, id);
    }

    // ----- Execution -----

    /** transitionTo Executed: deliver the command and persist. */
    method Execute(id: InstanceID) returns (panic: bool)
      requires id in log && log[id].st.status == Committed
      modifies this`log, this`executedCmds, this`executed, storage
      ensures panic <==> old(log)[id].st.cmd.None?
      ensures !panic ==>
                && log == old(log)[id := WithStatus(old(log)[id], Executed)]
                && executed == old(executed) + [id] && executedCmds == old(executedCmds) + [log[id].st.cmd.value]
                && storage.instances == old(storage.instances)[id := log[id].st]
      ensures old(executedCmds) <= executedCmds
    {
      log := log[id := WithStatus(log[id], Executed)];
      if log[id].st.cmd.None? {
        return true;
      }
      executedCmds := executedCmds + [log[id].st.cmd.value];
      executed := executed + [id];
      storage.PersistInstance(id, log[id].st);
      return false;
    }

    method ExecuteEach(ex: seq<InstanceID>) returns (panic: bool)
      requires CanExecute(log, ex)
      modifies this`log, this`executedCmds, this`executed, storage
      ensures panic <==> !HaveCommands(old(log), ex)
      ensures !panic ==>
                && log == Marked(old(log), ex) && executed == old(executed) + ex
                && storage.instances == Saved(old(storage.instances), old(log), ex)
                && executedCmds == old(executedCmds) + CommandsOf(old(log), ex)
      ensures old(executedCmds) <= executedCmds
    {
      hide Marked, Saved, CommandsOf;
      ghost var log0, stored0 := log, storage.instances;
      assert log == Marked(log0, []) && stored0 == Saved(stored0, log0, []) && CommandsOf(log0, []) == [] by {
        ExecuteNone(log0, stored0);
      }
      for i := 0 to |ex|
        invariant HaveCommands(log0, ex[..i])
        invariant log == Marked(log0, ex[..i]) && executed == old(executed) + ex[..i]
        invariant storage.instances == Saved(stored0, log0, ex[..i])
        invariant executedCmds == old(executedCmds) + CommandsOf(log0, ex[..i])
      {
        var id := ex[i];
        assert id in ex && id !in ex[..i];
        assert ex[..i + 1] == ex[..i] + [id];
        StillThere(log0, ex[..i], id);
        MarkedNext(log0, ex[..i], id);
        SavedNext(stored0, log0, ex[..i], id);
        assert forall x :: x in ex[..i] + [id] ==> x in ex;
        var nil := Execute(id);
        if nil {
          return true;
        }
        CommandsNext(log0, ex[..i], id);
      }
      assert ex[..|ex|] == ex;
      return false;
    }

    /** prepareToExecute: hand a committed instance to the executor and run it. */
    method PrepareToExecute(id: InstanceID) returns (panic: Option<PanicReason>, ghost ex: seq<InstanceID>)
      requires Wired() && id in log && log[id].st.status == Committed
      modifies this`log, this`executedCmds, this`executed, storage, executor
      ensures Runs(old(State()).(vertices := old(State()).vertices + {id}), State(), panic, ex)
      ensures CanExecute(old(log), ex) && old(executedCmds) <= executedCmds
      ensures panic.None? ==>
          Wired() && log.Keys == old(log).Keys && Delivered(log, ex, executedCmds[|old(executedCmds)|..])
    {
      hide RunSpec, CommandsOf, ExecuteAll, Marked, Saved, CanExecute, HaveCommands, VertexGraph, Holds, Execs,
        ExecutedSet, Delivered;
      ghost var rep := State().(vertices := State().vertices + {id});
      ExecsKeys(executor.vertices);
      HoldsAdd(Execs(executor.vertices), log, id);
      executor.AddExec(id, ExecOf(id, log[id]));
      ghost var g := Execs(executor.vertices);
      ExecsKeys(executor.vertices);
      assert State() == rep;
      HoldsGraph(g, rep);
      var run := executor.Run(ExecutedSet(log));
      ex := run;
      ExecsKeys(executor.vertices);
      RunCan(rep, ex);
      HoldsAfter(g, rep.log, ex);
      var nil := ExecuteEach(run);
      if nil {
        ExecutePanics(rep, ex);
        return Some(NilCommand), ex;
      }
      MarkedAll(rep, ex);
      MarkedKeys(rep.log, ex);
      MarkedDelivered(rep.log, ex);
      return None, ex;
    }

    // ----- Transitions -----

    method TransitionTo(id: InstanceID, to: Status) returns (panic: Option<PanicReason>, ghost ex: seq<InstanceID>)
      requires Wired() && id in log && to in {PreAccepted, Accepted, Committed}
      modifies this`log, this`msgs, this`executedCmds, this`executed, storage, executor
      ensures old(msgs) <= msgs && old(executedCmds) <= executedCmds
      ensures Effect(Replicas.TransitionTo(Cfg(), me, old(State()), id, to), State(), msgs[|old(msgs)|..], panic, ex)
      ensures panic.None? ==> Wired() && Delivered(log, ex, executedCmds[|old(executedCmds)|..])
    {
      hide RunSpec, ExecuteAll, Replicas.Broadcast, CanExecute, MayRun;
      ex := [];
      if !Allowed(log[id].st.status, to) {
        return Some(BadTransition), [];
      }
      HoldsUpdate(Execs(executor.vertices), log, id, WithStatus(log[id], to));
      log := log[id := WithStatus(log[id], to)];
      Broadcast(Announcement(log[id].st), id);
      panic := None;
      if to == Committed {
        ghost var rep := State().(vertices := State().vertices + {id});
        panic, ex := PrepareToExecute(id);
        PersistLater(rep, id, ex);
        if panic.Some? {
          return;
        }
      }
      storage.PersistInstance(id, log[id].st);
    }

    /** Replace what the log has for id, keeping the attributes of a committed instance. */
    method SetInstance(id: InstanceID, inst: Instance)
      requires Wired() && (id in log ==> log[id].st.status != Committed || log[id].st == inst.st)
      modifies this`log
      ensures Wired() && log == old(log)[id := inst]
    {
      HoldsUpdate(Execs(executor.vertices), log, id, inst);
      log := log[id := inst];
    }

    method OnRequest(cmd: Command) returns (panic: Option<PanicReason>)
      requires Wired()
      modifies this`log, this`rangeGroup, this`msgs, this`executedCmds, this`executed, storage, executor
      ensures old(msgs) <= msgs && executedCmds == old(executedCmds)
      ensures Effect(Replicas.OnRequest(Cfg(), me, old(State()), cmd), State(), msgs[|old(msgs)|..], panic, [])
      ensures panic.None? ==> Wired()
      ensures panic.Some? ==> storage.instances == old(storage.instances)
    {
      hide ScanAll, Slice, Replicas.Broadcast, Replicas.MaxInstanceNum;
      var i := MaxInstanceNum(me);
      var id := InstanceID(me, i + 1);
      FreshId(me, log);
      var res := SeqAndDepsForCommand(cmd, InstanceID(0, 0));
      if res.ScanPanic? {
        return Some(NilCommand);
      }
      var deps := DepSliceFromMap(res.deps);
      SetInstance(id, FromState(InstanceState(NoStatus, Some(cmd), res.maxSeq + 1, deps)));
      ghost var ex;
      panic, ex := TransitionTo(id, PreAccepted);
    }

    // ----- Messages to followers -----

    method OnPreAccept(id: InstanceID, pa: Body) returns (panic: Option<PanicReason>)
      requires Wired() && id in log && id.replica != me && pa.PreAccept?
      modifies this`log, this`rangeGroup, this`msgs
      ensures old(msgs) <= msgs
      ensures Effect(Replicas.OnPreAccept(Cfg(), me, old(State()), id, pa), State(), msgs[|old(msgs)|..], panic, [])
      ensures panic.None? ==> Wired()
    {
      hide ScanAll, Slice;
      var inst := log[id];
      if inst.st.status !in {NoStatus, PreAccepted} {
        return None;
      }
      if pa.cmd.None? {
        return Some(NilCommand);
      }
      var res := SeqAndDepsForCommand(pa.cmd.value, id);
      if res.ScanPanic? {
        return Some(NilCommand);
      }
      var seqNum := Max(pa.seqNum, res.maxSeq + 1);
      var depsUnion := res.deps;
      for k := 0 to |pa.deps|
        invariant depsUnion == res.deps + Elems(pa.deps[..k])
      {
        depsUnion := depsUnion + {pa.deps[k]};
        assert pa.deps[..k + 1] == pa.deps[..k] + [pa.deps[k]];
      }
      assert pa.deps[..|pa.deps|] == pa.deps;
      var deps := DepSliceFromMap(depsUnion);
      SetInstance(id, inst.(st := InstanceState(PreAccepted, pa.cmd, seqNum, deps)));
      if seqNum == pa.seqNum && |deps| == |pa.deps| {
        Reply(PreAcceptOK, id);
      } else {
        Reply(PreAcceptReply(seqNum, deps), id);
      }
      return None;
    }

    method OnAccept(id: InstanceID, a: Body)
      requires Wired() && id in log && id.replica != me && a.Accept?
      modifies this`log, this`msgs
      ensures old(msgs) <= msgs
      ensures Effect(Replicas.OnAccept(old(State()), id, a), State(), msgs[|old(msgs)|..], None, [])
      ensures Wired()
    {
      var inst := log[id];
      if inst.st.status !in {NoStatus, PreAccepted, Accepted} {
        return;
      }
      SetInstance(id, inst.(st := inst.st.(status := Accepted, seqNum := a.seqNum, deps := a.deps)));
      Reply(AcceptOK, id);
    }

    method OnCommit(id: InstanceID, m: Body) returns (panic: Option<PanicReason>, ghost ex: seq<InstanceID>)
      requires Wired() && id in log && id.replica != me && m.Commit?
      modifies this`log, this`executedCmds, this`executed, storage, executor
      ensures old(executedCmds) <= executedCmds
      ensures Effect(Replicas.OnCommit(old(State()), id, m), State(), [], panic, ex)
      ensures panic.None? ==> Wired() && Delivered(log, ex, executedCmds[|old(executedCmds)|..])
    {
      hide RunSpec, ExecuteAll, CanExecute, MayRun;
      panic, ex := None, [];
      var inst := log[id];
      if inst.st.status !in {NoStatus, PreAccepted, Accepted} {
        return;
      }
      SetInstance(id, inst.(st := InstanceState(Committed, m.cmd, m.seqNum, m.deps)));
      panic, ex := PrepareToExecute(id);
    }

    // ----- Timers -----

    /** registerOneTimeTimer on the slow-path timer of id. */
    method RegisterTimer(id: InstanceID)
      requires Wired() && id in log
      modifies this`log, this`timers
      ensures Wired() && State() == Register(old(State()), id)
    {
      SetInstance(id, log[id].(timer := Timer(0, false)));
      timers := timers + {id};
    }

    method UnregisterTimer(id: InstanceID)
      requires Wired() && id in log
      modifies this`log, this`timers
      ensures Wired() && State() == Unregister(old(State()), id)
    {
      SetInstance(id, log[id].(timer := STOPPED));
      timers := timers - {id};
    }

    /** tick of the slow-path timer of id. */
    method TickTimer(id: InstanceID) returns (panic: Option<PanicReason>)
      requires Wired() && id in log
      modifies this`log, this`timers, this`msgs, this`executedCmds, this`executed, storage, executor
      ensures old(msgs) <= msgs
      ensures Effect(TickOne(Cfg(), me, old(State()), id), State(), msgs[|old(msgs)|..], panic, [])
      ensures panic.None? ==> Wired() && executedCmds == old(executedCmds)
    {
      hide Replicas.Broadcast;
      var inst := log[id];
      if inst.timer.paused {
        return None;
      }
      var ticks := inst.timer.ticksElapsed + 1;
      if ticks >= SLOW_PATH_TIMEOUT {
        UnregisterTimer(id);
        ghost var ex;
        panic, ex := TransitionTo(id, Accepted);
      } else {
        SetInstance(id, inst.(timer := Timer(ticks, false)));
        return None;
      }
    }

    // ----- Replies to the command leader -----

    method OnEitherPreAcceptReply(id: InstanceID) returns (panic: Option<PanicReason>, ghost ex: seq<InstanceID>)
      requires Wired() && id in log && id.replica == me && log[id].st.status == PreAccepted
      modifies this`log, this`timers, this`msgs, this`executedCmds, this`executed, storage, executor
      ensures old(msgs) <= msgs && old(executedCmds) <= executedCmds
      ensures Effect(Replicas.OnEitherPreAcceptReply(Cfg(), me, old(State()), id), State(), msgs[|old(msgs)|..],
                     panic, ex)
      ensures panic.None? ==> Wired() && Delivered(log, ex, executedCmds[|old(executedCmds)|..])
    {
      hide RunSpec, ExecuteAll, Replicas.Broadcast;
      panic, ex := None, [];
      var inst := log[id];
      var replies := inst.preAcceptReplies + 1;
      var takeFastPath := !inst.differentReplies && FastQuorum(replies);
      var takeSlowPath := Quorum(replies);
      if takeFastPath {
        UnregisterTimer(id);
        panic, ex := TransitionTo(id, Committed);
      } else if takeSlowPath {
        if inst.differentReplies {
          UnregisterTimer(id);
          panic, ex := TransitionTo(id, Accepted);
        } else if inst.timer.paused {
          RegisterTimer(id);
        }
      }
    }

    method OnPreAcceptOK(id: InstanceID) returns (panic: Option<PanicReason>, ghost ex: seq<InstanceID>)
      requires Wired() && id in log && id.replica == me
      modifies this`log, this`timers, this`msgs, this`executedCmds, this`executed, storage, executor
      ensures old(msgs) <= msgs && old(executedCmds) <= executedCmds
      ensures Effect(Replicas.OnPreAcceptOK(Cfg(), me, old(State()), id), State(), msgs[|old(msgs)|..], panic, ex)
      ensures panic.None? ==> Wired() && Delivered(log, ex, executedCmds[|old(executedCmds)|..])
    {
      hide RunSpec, ExecuteAll, Replicas.OnEitherPreAcceptReply;
      panic, ex := None, [];
      var inst := log[id];
      if inst.st.status != PreAccepted {
        return;
      }
      SetInstance(id, inst.(preAcceptReplies := inst.preAcceptReplies + 1));
      panic, ex := OnEitherPreAcceptReply(id);
    }

    method OnPreAcceptReply(id: InstanceID, reply: Body) returns (panic: Option<PanicReason>, ghost ex: seq<InstanceID>)
      requires Wired() && id in log && id.replica == me && reply.PreAcceptReply?
      modifies this`log, this`timers, this`msgs, this`executedCmds, this`executed, storage, executor
      ensures old(msgs) <= msgs && old(executedCmds) <= executedCmds
      ensures Effect(Replicas.OnPreAcceptReply(Cfg(), me, old(State()), id, reply), State(), msgs[|old(msgs)|..],
                     panic, ex)
      ensures panic.None? ==> Wired() && Delivered(log, ex, executedCmds[|old(executedCmds)|..])
    {
      hide RunSpec, ExecuteAll, Replicas.OnEitherPreAcceptReply, Slice;
      panic, ex := None, [];
      var inst := log[id];
      if inst.st.status != PreAccepted {
        return;
      }
      var newSeq, different := inst.st.seqNum, inst.differentReplies;
      if reply.seqNum > inst.st.seqNum {
        newSeq := reply.seqNum;
        different := true;
      }
      var deps := UnionDepSlices(inst.st.deps, reply.deps);
      if |inst.st.deps| != |deps| {
        different := true;
      }
      SetInstance(id, inst.(st := inst.st.(seqNum := newSeq, deps := deps), differentReplies := different,
                            preAcceptReplies := inst.preAcceptReplies + 1));
      assert log[id] == Merged(inst, reply.seqNum, reply.deps);
      panic, ex := OnEitherPreAcceptReply(id);
    }

    method OnAcceptOK(id: InstanceID) returns (panic: Option<PanicReason>, ghost ex: seq<InstanceID>)
      requires Wired() && id in log && id.replica == me
      modifies this`log, this`msgs, this`executedCmds, this`executed, storage, executor
      ensures old(msgs) <= msgs && old(executedCmds) <= executedCmds
      ensures Effect(Replicas.OnAcceptOK(Cfg(), me, old(State()), id), State(), msgs[|old(msgs)|..], panic, ex)
      ensures panic.None? ==> Wired() && Delivered(log, ex, executedCmds[|old(executedCmds)|..])
    {
      hide RunSpec, ExecuteAll, Replicas.Broadcast;
      panic, ex := None, [];
      var inst := log[id];
      if inst.st.status != Accepted {
        return;
      }
      SetInstance(id, inst.(acceptReplies := inst.acceptReplies + 1));
      if Quorum(inst.acceptReplies + 2) {
        panic, ex := TransitionTo(id, Committed);
      }
    }

    // ----- Step -----

    /** inReplicaSlice */
    method KnownReplica(r: ReplicaID) returns (known: bool)
      ensures known <==> r in nodes
    {
      for i := 0 to |nodes|
        invariant r !in nodes[..i]
      {
        if nodes[i] == r {
          return true;
        }
      }
      assert nodes[..|nodes|] == nodes;
      return false;
    }

    method ValidateMessage(m: Message) returns (ok: bool)
      ensures ok <==> ValidMessage(Cfg(), me, m)
    {
      if m.to != me {
        return false;
      }
      if IsReply(m.body) {
        return m.id.replica == me;
      }
      if m.id.replica == me {
        return false;
      }
      ok := KnownReplica(m.id.replica);
    }

    method Step(m: Message) returns (panic: Option<PanicReason>, ghost ex: seq<InstanceID>)
      requires Wired()
      modifies this, storage, executor
      ensures old(msgs) <= msgs && old(executedCmds) <= executedCmds
      ensures Effect(Replicas.Step(Cfg(), me, old(State()), m), State(), msgs[|old(msgs)|..], panic, ex)
      ensures panic.None? ==> Wired() && Delivered(log, ex, executedCmds[|old(executedCmds)|..])
      ensures Replicas.Step(Cfg(), me, old(State()), m).Panicked? ==> storage.instances == old(storage.instances)
    {
      if !m.body.PreAccept? { MostDone(Cfg(), me, State(), m); }
      hide RunSpec, ExecuteAll, Replicas.OnPreAccept, Replicas.OnPreAcceptOK, Replicas.OnPreAcceptReply,
        Replicas.OnAccept, Replicas.OnAcceptOK, Replicas.OnCommit;
      panic, ex := None, [];
      var ok := ValidateMessage(m);
      if !ok {
        return;
      }
      if m.id !in log {
        if m.id.replica == me {
          return;
        }
        SetInstance(m.id, NEW_INSTANCE);
      }
      match m.body
      case PreAccept(_, _, _) => panic := OnPreAccept(m.id, m.body);
      case PreAcceptOK => panic, ex := OnPreAcceptOK(m.id);
      case PreAcceptReply(_, _) => panic, ex := OnPreAcceptReply(m.id, m.body);
      case Accept(_, _) => OnAccept(m.id, m.body);
      case AcceptOK => panic, ex := OnAcceptOK(m.id);
      case Commit(_, _, _) => panic, ex := OnCommit(m.id, m.body);
    }

    /** Tick: every registered timer, in the order that the map of timers is iterated in. */
    method Tick() returns (panic: Option<PanicReason>, ghost order: seq<InstanceID>)
      requires Wired()
      modifies this, storage, executor
      ensures old(msgs) <= msgs
      ensures panic.None? ==> Wired() && executedCmds == old(executedCmds)
      ensures panic.None? ==> NoDup(order) && forall id :: id in order <==> id in old(timers)
      ensures Effect(TickSeq(Cfg(), me, old(State()), order), State(), msgs[|old(msgs)|..], panic, [])
    {
      hide TickOne, TickSeq;
      order := [];
      ghost var rep0 := State();
      TickNone(Cfg(), me, rep0);
      var todo := timers;
      while todo != {}
        invariant Wired() && todo <= old(timers) && NoDup(order)
        invariant forall id :: id in order <==> id in old(timers) && id !in todo
        invariant forall id :: id in rep0.log <==> id in log
        invariant old(msgs) <= msgs && executedCmds == old(executedCmds)
        invariant TickSeq(Cfg(), me, rep0, order) == Done(State(), msgs[|old(msgs)|..], false)
        decreases todo
      {
        var id :| id in todo;
        TickSnoc(Cfg(), me, rep0, order, id);
        TickOneKeys(Cfg(), me, State(), id);
        order := order + [id];
        ghost var sent := msgs;
        panic := TickTimer(id);
        if panic.Some? {
          return;
        }
        assert msgs[|old(msgs)|..] == sent[|old(msgs)|..] + msgs[|sent|..];
        todo := todo - {id};
      }
      return None, order;
    }

    // ----- Restart -----

    /** Load one persisted instance; its command leader repeats the last transition. */
    method LoadInstance(id: InstanceID, st: InstanceState)
      returns (panic: Option<PanicReason>, ghost ex: seq<InstanceID>)
      requires Wired() && id !in log
      modifies this`log, this`msgs, this`executedCmds, this`executed, storage, executor
      ensures old(msgs) <= msgs
      ensures Effect(LoadOne(Cfg(), me, old(State()), id, st), State(), msgs[|old(msgs)|..], panic, ex)
      ensures panic.None? ==> Wired() && log.Keys == old(log).Keys + {id}
    {
      hide RunSpec, ExecuteAll, Replicas.Broadcast, CanExecute, MayRun;
      panic, ex := None, [];
      SetInstance(id, FromState(st));
      if id.replica == me && st.status != Executed {
        if st.status == NoStatus {
          return Some(BadTransition), [];
        }
        Broadcast(Announcement(st), id);
        if st.status == Committed {
          panic, ex := PrepareToExecute(id);
        }
      }
    }

    /** initStorage: load all persisted instances. If that panics, then on the instance failed, after those in order. */
    method InitStorage()
      returns (panic: Option<PanicReason>, ghost order: seq<InstanceID>, ghost runs: seq<seq<InstanceID>>,
               ghost failed: InstanceID)
      requires Wired() && State() == Rebooted(storage.instances) && msgs == []
      modifies this, storage, executor
      ensures |runs| == |order| && NoDup(order) && forall id :: id in order ==> id in old(storage.instances)
      ensures panic.None? ==> Wired() && forall id :: id in old(storage.instances) ==> id in order
      ensures panic.None? ==> Loads(Cfg(), me, old(State()), old(storage.instances), order, runs, State(), msgs)
      ensures panic.Some? ==> LoadFails(Cfg(), me, old(State()), old(storage.instances), order, runs, failed, panic)
    {
      hide Loads, LoadOne, MayRun, ExecuteAll, Effect;
      var stored := storage.instances;
      var insts := storage.Instances();
      panic, order, runs, failed := None, [], [], InstanceID(0, 0);
      ghost var rep0 := State();
      LoadsNone(Cfg(), me, rep0, stored);
      for k := 0 to |insts|
        invariant Wired() && order == insts[..k] && |runs| == |order|
        invariant forall id :: id in order ==> id in stored
        invariant forall id :: id in log <==> id in order
        invariant Loads(Cfg(), me, rep0, stored, order, runs, State(), msgs)
      {
        var id := insts[k];
        assert id in insts && id !in insts[..k] && insts[..k + 1] == insts[..k] + [id];
        ghost var rep, out := State(), msgs;
        ghost var ex;
        panic, ex := LoadInstance(id, stored[id]);
        if panic.Some? {
          failed := id;
          assert LoadEffect(Cfg(), me, rep, id, stored[id], ex, State(), msgs[|out|..], panic);
          return;
        }
        assert msgs == out + msgs[|out|..];
        LoadsSnoc(Cfg(), me, rep0, stored, order, runs, rep, out, id, ex, State(), msgs[|out|..]);
        order, runs := order + [id], runs + [ex];
      }
      assert insts[..|insts|] == insts;
      return None, order, runs, failed;
    }
  }
}
