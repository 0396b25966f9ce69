/** Exactly which of the interfering instances that the descent of epaxos/command.go comes to become dependencies: the
    writes with a key that no later one writes, and the reads without any such key. */
module Pruning {
  import opened Keys
  import opened RangeGroups
  import opened Types
  import opened Graphs
  import opened Scan
  import opened ScanOrder
  import opened Visits

  // ----- One space -----

  /** w, strictly between slots m and n, interferes with cmd and writes key k. */
  predicate Writer(log: Log, rid: ReplicaID, cmd: Command, ignored: InstanceID, m: int, n: nat, k: Key, w: InstanceID) {
    w.replica == rid && m < w.num < n && WritesKey(log, ignored, k, w) && Known(log, cmd, w)
  }

  /** The group has k, or an interfering write strictly between slots m and n does. */
  ghost predicate Written(log: Log, rid: ReplicaID, cmd: Command, ignored: InstanceID, m: int, n: nat, g: RangeGroup,
                          k: Key) {
    Covers(g, k) || exists w :: Writer(log, rid, cmd, ignored, m, n, k, w)
  }

  /** Coming from slot n with group g, d is not pruned: as a write it has a key that is not written above, as a read it
      has none that is. */
  ghost predicate Unpruned(log: Log, rid: ReplicaID, cmd: Command, ignored: InstanceID, n: nat, g: RangeGroup,
                           d: InstanceID)
    requires Known(log, cmd, d)
  {
    var r := RangeOf(log[d].st.cmd.value.span);
    if log[d].st.cmd.value.writing then exists k :: InRange(r, k) && !Written(log, rid, cmd, ignored, d.num, n, g, k)
    else forall k :: InRange(r, k) ==> !Written(log, rid, cmd, ignored, d.num, n, g, k)
  }

  /** The dependencies that the descent from slot n finds. */
  ghost predicate Kept(log: Log, rid: ReplicaID, cmd: Command, ignored: InstanceID, n: nat, g: RangeGroup,
                       d: InstanceID) {
    Seen(log, rid, cmd, ignored, n, g, d) && Unpruned(log, rid, cmd, ignored, n, g, d)
  }

  ghost predicate KeptExactly(log: Log, rid: ReplicaID, cmd: Command, ignored: InstanceID, n: nat, g: RangeGroup,
                              res: ScanResult) {
    res.Found? ==> forall d :: d in res.deps <==> Kept(log, rid, cmd, ignored, n, g, d)
  }

  /** The group g1 below slot n - 1 has what g and an interfering write there have. */
  ghost predicate Absorbs(log: Log, rid: ReplicaID, cmd: Command, ignored: InstanceID, n: nat, g: RangeGroup,
                          g1: RangeGroup)
    requires n > 0
  {
    var id := InstanceID(rid, n - 1);
    forall k :: Covers(g1, k) <==> Covers(g, k) || (WritesKey(log, ignored, k, id) && Known(log, cmd, id))
  }

  lemma WrittenBelow(log: Log, rid: ReplicaID, cmd: Command, ignored: InstanceID, m: int, n: nat, g: RangeGroup,
                     g1: RangeGroup, k: Key)
    requires n > 0 && m < n - 1 && Absorbs(log, rid, cmd, ignored, n, g, g1)
    ensures Written(log, rid, cmd, ignored, m, n, g, k) <==> Written(log, rid, cmd, ignored, m, n - 1, g1, k)
  {
    hide Covers, WritesKey, Known;
    var id, n1 := InstanceID(rid, n - 1), n - 1;
    if w :| Writer(log, rid, cmd, ignored, m, n, k, w) {
      if w.num == n1 { assert w == id; } else { assert Writer(log, rid, cmd, ignored, m, n1, k, w); }
    }
    if w :| Writer(log, rid, cmd, ignored, m, n1, k, w) { assert Writer(log, rid, cmd, ignored, m, n, k, w); }
    if Covers(g1, k) && !Covers(g, k) { assert Writer(log, rid, cmd, ignored, m, n, k, id); }
  }

  lemma KeptBelow(log: Log, rid: ReplicaID, cmd: Command, ignored: InstanceID, n: nat, g: RangeGroup, g1: RangeGroup,
                  d: InstanceID)
    requires n > 0 && Alike(log, rid, cmd, ignored, n, g, g1) && Absorbs(log, rid, cmd, ignored, n, g, g1)
    requires d != InstanceID(rid, n - 1)
    ensures Kept(log, rid, cmd, ignored, n, g, d) <==> Kept(log, rid, cmd, ignored, n - 1, g1, d)
  {
    MetBelow(log, rid, cmd, ignored, n, g, g1, d);
    hide Written, Absorbs, Known, Alike;
    if d.replica == rid && d.num < n - 1 {
      forall k ensures Written(log, rid, cmd, ignored, d.num, n, g, k) <==>
                       Written(log, rid, cmd, ignored, d.num, n - 1, g1, k)
      {
        WrittenBelow(log, rid, cmd, ignored, d.num, n, g, g1, k);
      }
    }
  }

  /** In the slot that the descent is at, only the group counts. */
  lemma UnprunedHere(log: Log, rid: ReplicaID, cmd: Command, ignored: InstanceID, n: nat, g: RangeGroup)
    requires n > 0 && Canonical(g) && SpansOK(log) && Known(log, cmd, InstanceID(rid, n - 1))
    ensures var id := InstanceID(rid, n - 1);
            var r := RangeOf(log[id].st.cmd.value.span);
            Unpruned(log, rid, cmd, ignored, n, g, id) <==>
            if log[id].st.cmd.value.writing then Grows(g, r) else !GroupOverlaps(g, r)
  {
    hide Canonical, Grows, GroupOverlaps, Covers, SpansOK, RangeOf;
    var id := InstanceID(rid, n - 1);
    SpanOK(log, id);
    RangeOfNonEmpty(log[id].st.cmd.value.span);
    var r := RangeOf(log[id].st.cmd.value.span);
    GrowsIffNewKey(g, r);
    OverlapsIffCovered(g, r);
    forall k ensures Written(log, rid, cmd, ignored, id.num, n, g, k) <==> Covers(g, k) {}
  }

  /** What a slot adds to what is found below it. */
  lemma KeptJoin(log: Log, rid: ReplicaID, cmd: Command, ignored: InstanceID, n: nat, g: RangeGroup, g1: RangeGroup,
                 res: ScanResult, seqNum: nat, deps: set<InstanceID>)
    requires n > 0 && Alike(log, rid, cmd, ignored, n, g, g1) && Absorbs(log, rid, cmd, ignored, n, g, g1)
    requires KeptExactly(log, rid, cmd, ignored, n - 1, g1, res)
    requires var id := InstanceID(rid, n - 1);
             deps == if Kept(log, rid, cmd, ignored, n, g, id) then {id} else {}
    ensures KeptExactly(log, rid, cmd, ignored, n, g, With(res, seqNum, deps))
  {
    var id := InstanceID(rid, n - 1);
    NotMet(log, rid, cmd, ignored, n - 1, g1, id);
    assert !Kept(log, rid, cmd, ignored, n - 1, g1, id);
    hide Kept, Alike, Absorbs;
    forall d | d != id ensures Kept(log, rid, cmd, ignored, n, g, d) <==> Kept(log, rid, cmd, ignored, n - 1, g1, d) {
      KeptBelow(log, rid, cmd, ignored, n, g, g1, d);
    }
  }

  lemma KeptSame(log: Log, rid: ReplicaID, cmd: Command, ignored: InstanceID, n: nat, g: RangeGroup, res: ScanResult)
    requires SpansOK(log) && WellFormed(cmd.span) && n > 0
    requires var id := InstanceID(rid, n - 1);
             id !in log || id == ignored || (log[id].st.cmd.Some? && !Known(log, cmd, id))
    requires KeptExactly(log, rid, cmd, ignored, n - 1, g, res)
    ensures KeptExactly(log, rid, cmd, ignored, n, g, res)
  {
    var id := InstanceID(rid, n - 1);
    assert !Kept(log, rid, cmd, ignored, n, g, id);
    forall k ensures !WritesKey(log, ignored, k, id) || !Known(log, cmd, id) {}
    hide Kept, Covers, SpansOK, WellFormed, Known;
    forall k | InRange(RangeOf(cmd.span), k) ensures !WritesKey(log, ignored, k, id) {
      if WritesKey(log, ignored, k, id) { WriteInterferes(log, cmd, ignored, k, id); }
    }
    AlikeSame(log, rid, cmd, ignored, n, g);
    KeptJoin(log, rid, cmd, ignored, n, g, g, res, 0, {});
  }

  /** A slot with an interfering instance that the group does not grow by. */
  lemma KeptCounted(log: Log, rid: ReplicaID, cmd: Command, ignored: InstanceID, n: nat, g: RangeGroup, res: ScanResult)
    requires SpansOK(log) && WellFormed(cmd.span) && n > 0 && Going(g, RangeOf(cmd.span))
    requires KeptExactly(log, rid, cmd, ignored, n - 1, g, res)
    requires var id := InstanceID(rid, n - 1);
             && id != ignored && Known(log, cmd, id)
             && (log[id].st.cmd.value.writing ==> !Grows(g, RangeOf(log[id].st.cmd.value.span)))
    ensures var id := InstanceID(rid, n - 1);
            var inst := log[id];
            var keep := !inst.st.cmd.value.writing && !GroupOverlaps(g, RangeOf(inst.st.cmd.value.span));
            KeptExactly(log, rid, cmd, ignored, n, g, With(res, inst.st.seqNum, if keep then {id} else {}))
  {
    var id := InstanceID(rid, n - 1);
    assert Canonical(g);
    UnprunedHere(log, rid, cmd, ignored, n, g);
    MetHere(log, rid, cmd, ignored, n, g);
    hide Met, Going, Unpruned, KeptExactly, SpansOK, WellFormed, GroupOverlaps, Canonical;
    forall k | WritesKey(log, ignored, k, id) ensures Covers(g, k) {
      EnclosedKeys(g, RangeOf(log[id].st.cmd.value.span), k);
    }
    AlikeSame(log, rid, cmd, ignored, n, g);
    var keep := !log[id].st.cmd.value.writing && !GroupOverlaps(g, RangeOf(log[id].st.cmd.value.span));
    assert Kept(log, rid, cmd, ignored, n, g, id) <==> keep;
    KeptJoin(log, rid, cmd, ignored, n, g, g, res, log[id].st.seqNum, if keep then {id} else {});
  }

  /** A slot with a write that the group grows by. */
  lemma KeptWrite(log: Log, rid: ReplicaID, cmd: Command, ignored: InstanceID, n: nat, g: RangeGroup, res: ScanResult)
    requires SpansOK(log) && WellFormed(cmd.span) && n > 0 && Going(g, RangeOf(cmd.span))
    requires var id := InstanceID(rid, n - 1);
             && id != ignored && Known(log, cmd, id) && log[id].st.cmd.value.writing
             && Grows(g, RangeOf(log[id].st.cmd.value.span))
             && KeptExactly(log, rid, cmd, ignored, n - 1, Add(g, RangeOf(log[id].st.cmd.value.span)), res)
    ensures var id := InstanceID(rid, n - 1);
            KeptExactly(log, rid, cmd, ignored, n, g, With(res, log[id].st.seqNum, {id}))
  {
    var id := InstanceID(rid, n - 1);
    var g1 := Add(g, RangeOf(log[id].st.cmd.value.span));
    UnprunedHere(log, rid, cmd, ignored, n, g);
    MetHere(log, rid, cmd, ignored, n, g);
    AddedKeys(log, ignored, g, id);
    hide Met, Going, Unpruned, KeptExactly, SpansOK, WellFormed, Grows, Add, Covers, RangeOf, Alike;
    AlikeAdd(log, rid, cmd, ignored, n, g, g1);
    assert Kept(log, rid, cmd, ignored, n, g, id);
    KeptJoin(log, rid, cmd, ignored, n, g, g1, res, log[id].st.seqNum, {id});
  }

  /** Below the early exit there is nothing. */
  lemma KeptNothing(log: Log, rid: ReplicaID, cmd: Command, ignored: InstanceID, n: nat, g: RangeGroup)
    requires Encloses(g, RangeOf(cmd.span))
    ensures KeptExactly(log, rid, cmd, ignored, n, g, Found(0, {}))
  {
    hide Open, Unpruned, Encloses;
    forall d: InstanceID ensures !Kept(log, rid, cmd, ignored, n, g, d) {
      ClosedBelow(log, rid, cmd, ignored, d.num, n, g);
    }
  }

  lemma NoSlots(log: Log, rid: ReplicaID, cmd: Command, ignored: InstanceID, g: RangeGroup)
    ensures KeptExactly(log, rid, cmd, ignored, 0, g, ScanSpace(log, rid, cmd, ignored, 0, g))
  {
    hide Open;
  }

  lemma PanicKeeps(log: Log, rid: ReplicaID, cmd: Command, ignored: InstanceID, n: nat, g: RangeGroup)
    ensures KeptExactly(log, rid, cmd, ignored, n, g, ScanPanic)
  {
  }

  /** A slot that the scan passes by, or stops at. */
  lemma ScanPasses(log: Log, rid: ReplicaID, cmd: Command, ignored: InstanceID, n: nat, g: RangeGroup)
    requires n > 0
    ensures var id := InstanceID(rid, n - 1);
            && (id !in log || id == ignored || (log[id].st.cmd.Some? && !Known(log, cmd, id)) ==>
                  ScanSpace(log, rid, cmd, ignored, n, g) == ScanSpace(log, rid, cmd, ignored, n - 1, g))
            && (id in log && id != ignored && log[id].st.cmd.None? ==>
                  ScanSpace(log, rid, cmd, ignored, n, g) == ScanPanic)
  {
    hide Interferes, Grows, Add, RangeOf;
  }

  /** A slot with an interfering instance. */
  lemma ScanMeets(log: Log, rid: ReplicaID, cmd: Command, ignored: InstanceID, n: nat, g: RangeGroup)
    requires n > 0 && InstanceID(rid, n - 1) != ignored && Known(log, cmd, InstanceID(rid, n - 1))
    ensures var id := InstanceID(rid, n - 1);
            var seqNum, other := log[id].st.seqNum, log[id].st.cmd.value;
            var r, g' := RangeOf(other.span), Add(g, RangeOf(other.span));
            ScanSpace(log, rid, cmd, ignored, n, g) ==
            if other.writing && Grows(g, r) then
              if |g'| == 1 && Encloses(g', RangeOf(cmd.span)) then With(Found(0, {}), seqNum, {id})
              else With(ScanSpace(log, rid, cmd, ignored, n - 1, g'), seqNum, {id})
            else With(ScanSpace(log, rid, cmd, ignored, n - 1, g), seqNum,
                      if !other.writing && !GroupOverlaps(g, r) then {id} else {})
  {
    hide Interferes, Grows, Add, RangeOf, Encloses, GroupOverlaps;
  }

  lemma {:induction false} DescentKeeps(log: Log, rid: ReplicaID, cmd: Command, ignored: InstanceID, n: nat,
                                        g: RangeGroup)
    requires SpansOK(log) && WellFormed(cmd.span) && Going(g, RangeOf(cmd.span))
    ensures KeptExactly(log, rid, cmd, ignored, n, g, ScanSpace(log, rid, cmd, ignored, n, g))
    decreases n
  {
    hide KeptExactly, Going, SpansOK, WellFormed, Add, Grows, Encloses, GroupOverlaps, RangeOf, Interferes, Alike,
      ScanSpace, With, Exact;
    if n == 0 {
      NoSlots(log, rid, cmd, ignored, g);
    } else {
      var id := InstanceID(rid, n - 1);
      ScanPasses(log, rid, cmd, ignored, n, g);
      if id !in log || id == ignored || (log[id].st.cmd.Some? && !Known(log, cmd, id)) {
        DescentKeeps(log, rid, cmd, ignored, n - 1, g);
        KeptSame(log, rid, cmd, ignored, n, g, ScanSpace(log, rid, cmd, ignored, n - 1, g));
      } else if log[id].st.cmd.None? {
        PanicKeeps(log, rid, cmd, ignored, n, g);
      } else {
        ScanMeets(log, rid, cmd, ignored, n, g);
        var r := RangeOf(log[id].st.cmd.value.span);
        if log[id].st.cmd.value.writing && Grows(g, r) {
          DescentWrite(log, rid, cmd, ignored, n, g);
          var g' := Add(g, r);
          if |g'| == 1 && Encloses(g', RangeOf(cmd.span)) {
            KeptNothing(log, rid, cmd, ignored, n - 1, g');
            KeptWrite(log, rid, cmd, ignored, n, g, Found(0, {}));
          } else {
            DescentKeeps(log, rid, cmd, ignored, n - 1, g');
            KeptWrite(log, rid, cmd, ignored, n, g, ScanSpace(log, rid, cmd, ignored, n - 1, g'));
          }
        } else {
          DescentKeeps(log, rid, cmd, ignored, n - 1, g);
          KeptCounted(log, rid, cmd, ignored, n, g, ScanSpace(log, rid, cmd, ignored, n - 1, g));
        }
      }
    }
  }

  // ----- All spaces -----

  /** w, above d in its space, interferes with cmd and writes key k. */
  predicate WrittenAbove(log: Log, cmd: Command, ignored: InstanceID, d: InstanceID, k: Key, w: InstanceID) {
    w.replica == d.replica && w.num > d.num && WritesKey(log, ignored, k, w) && Known(log, cmd, w)
  }

  /** Key k is in no interfering write above d. */
  ghost predicate LastOn(log: Log, cmd: Command, ignored: InstanceID, d: InstanceID, k: Key) {
    forall w :: !WrittenAbove(log, cmd, ignored, d, k, w)
  }

  /** A write is needed for a key that no interfering write above it has; a read is needed if that is so for all its
      keys. */
  ghost predicate Needed(log: Log, cmd: Command, ignored: InstanceID, d: InstanceID)
    requires Known(log, cmd, d)
  {
    var r := RangeOf(log[d].st.cmd.value.span);
    if log[d].st.cmd.value.writing then exists k :: InRange(r, k) && LastOn(log, cmd, ignored, d, k)
    else forall k :: InRange(r, k) ==> LastOn(log, cmd, ignored, d, k)
  }

  lemma LastIff(log: Log, cmd: Command, ignored: InstanceID, d: InstanceID, k: Key)
    ensures var n := Bound(Nums(log, d.replica));
            Written(log, d.replica, cmd, ignored, d.num, n, [], k) <==> !LastOn(log, cmd, ignored, d, k)
  {
    var n := Bound(Nums(log, d.replica));
    if w :| WrittenAbove(log, cmd, ignored, d, k, w) {
      assert w.num in Nums(log, d.replica);
      assert Writer(log, d.replica, cmd, ignored, d.num, n, k, w);
    }
    if w :| Writer(log, d.replica, cmd, ignored, d.num, n, k, w) {
      assert WrittenAbove(log, cmd, ignored, d, k, w);
    }
  }

  lemma NeededIff(log: Log, cmd: Command, ignored: InstanceID, d: InstanceID)
    requires Known(log, cmd, d)
    ensures var n := Bound(Nums(log, d.replica));
            Unpruned(log, d.replica, cmd, ignored, n, [], d) <==> Needed(log, cmd, ignored, d)
  {
    hide Written, LastOn, Known;
    KnownIn(log, cmd, d);
    forall k ensures Written(log, d.replica, cmd, ignored, d.num, Bound(Nums(log, d.replica)), [], k) <==>
                     !LastOn(log, cmd, ignored, d, k)
    {
      LastIff(log, cmd, ignored, d, k);
    }
  }

  /** d interferes, the scan comes to it, and it is needed. */
  ghost predicate Depends(log: Log, nodes: seq<ReplicaID>, cmd: Command, ignored: InstanceID, d: InstanceID) {
    Counts(log, nodes, cmd, ignored, d) && Needed(log, cmd, ignored, d)
  }

  lemma SpaceKeeps(log: Log, rid: ReplicaID, cmd: Command, ignored: InstanceID, d: InstanceID)
    requires SpansOK(log) && WellFormed(cmd.span) && Space(log, rid, cmd, ignored).Found?
    ensures d in Space(log, rid, cmd, ignored).deps <==> Depends(log, [rid], cmd, ignored, d)
  {
    hide Met, Comes, SpansOK, WellFormed, Known, Unpruned, Needed, ScanSpace;
    var n := Bound(Nums(log, rid));
    StartsGoing(cmd);
    DescentKeeps(log, rid, cmd, ignored, n, []);
    SpaceIs(log, rid, cmd, ignored);
    assert d in Space(log, rid, cmd, ignored).deps <==> Kept(log, rid, cmd, ignored, n, [], d);
    if d.replica != rid { ElsewhereNotMet(log, rid, cmd, ignored, n, [], d); }
    if Known(log, cmd, d) {
      KnownIn(log, cmd, d);
      ComesIff(log, cmd, ignored, d);
      NeededIff(log, cmd, ignored, d);
    }
  }

  /** The dependencies are exactly the interfering instances that the scan comes to and that are needed. */
  lemma DependenciesExact(log: Log, nodes: seq<ReplicaID>, cmd: Command, ignored: InstanceID, d: InstanceID)
    requires SpansOK(log) && WellFormed(cmd.span) && ScanAll(log, nodes, cmd, ignored).Found?
    ensures d in ScanAll(log, nodes, cmd, ignored).deps <==> Depends(log, nodes, cmd, ignored, d)
  {
    hide Counts, Space, ScanAll, SpansOK, WellFormed, Needed, Known;
    ScanAllCollects(log, nodes, cmd, ignored);
    var deps := ScanAll(log, nodes, cmd, ignored).deps;
    if d in deps {
      var r :| r in Elems(nodes) && Space(log, r, cmd, ignored).Found? && d in Space(log, r, cmd, ignored).deps;
      SpaceKeeps(log, r, cmd, ignored, d);
      NilAheadReplica(log, r, cmd, ignored, d);
      NilAheadIn(log, nodes, cmd, ignored, d);
    }
    if Counts(log, nodes, cmd, ignored, d) {
      NilAheadIn(log, nodes, cmd, ignored, d);
      assert d.replica in Elems(nodes);
      SpaceKeeps(log, d.replica, cmd, ignored, d);
    }
  }
}
