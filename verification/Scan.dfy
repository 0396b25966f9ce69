/** The dependency scan seqAndDepsForCommand of epaxos/command.go. */
module Scan {
  import opened Keys
  import opened RangeGroups
  import opened Types

  /** A scan that meets an instance without a command dereferences nil. */
  datatype ScanResult = ScanPanic | Found(maxSeq: nat, deps: set<InstanceID>)

  function Max(a: nat, b: nat): nat {
    if a > b then a else b
  }

  function With(res: ScanResult, seqNum: nat, deps: set<InstanceID>): ScanResult {
    if res.ScanPanic? then ScanPanic else Found(Max(seqNum, res.maxSeq), deps + res.deps)
  }

  /** One replica's command space, from slot n - 1 down, with the ranges of the
      writes depended on so far in g. */
  function ScanSpace(log: Log, rid: ReplicaID, cmd: Command, ignored: InstanceID, n: nat, g: RangeGroup): ScanResult {
    if n == 0 then Found(0, {}) else
      var id := InstanceID(rid, n - 1);
      if id !in log || id == ignored then ScanSpace(log, rid, cmd, ignored, n - 1, g)
      else if log[id].st.cmd.None? then ScanPanic
      else
        var other, seqNum := log[id].st.cmd.value, log[id].st.seqNum;
        if !Interferes(other, cmd) then ScanSpace(log, rid, cmd, ignored, n - 1, g)
        else if other.writing then
          if Grows(g, RangeOf(other.span)) then
            var g' := Add(g, RangeOf(other.span));
            if |g'| == 1 && Encloses(g', RangeOf(cmd.span)) then Found(seqNum, {id})
            else With(ScanSpace(log, rid, cmd, ignored, n - 1, g'), seqNum, {id})
          else With(ScanSpace(log, rid, cmd, ignored, n - 1, g), seqNum, {})
        else if !GroupOverlaps(g, RangeOf(other.span)) then
          With(ScanSpace(log, rid, cmd, ignored, n - 1, g), seqNum, {id})
        else With(ScanSpace(log, rid, cmd, ignored, n - 1, g), seqNum, {})
  }

  /** One more than the largest number, 0 for the empty set. */
  ghost function Bound(nums: set<nat>): (b: nat)
    ensures forall x :: x in nums ==> x < b
    ensures b > 0 ==> b - 1 in nums
  {
    if nums == {} then 0 else
      var x :| x in nums;
      assert forall y :: y in nums ==> y == x || y in nums - {x};
      Max(x + 1, Bound(nums - {x}))
  }

  ghost function Nums(log: Log, rid: ReplicaID): set<nat> {
    set id | id in log && id.replica == rid :: id.num
  }

  /** The whole scan over the spaces of the given replicas. */
  ghost function ScanAll(log: Log, nodes: seq<ReplicaID>, cmd: Command, ignored: InstanceID): ScanResult {
    if nodes == [] then Found(0, {}) else
      var first := ScanSpace(log, nodes[0], cmd, ignored, Bound(Nums(log, nodes[0])), []);
      if first.ScanPanic? then ScanPanic
      else With(ScanAll(log, nodes[1..], cmd, ignored), first.maxSeq, first.deps)
  }

  // ----- Cover -----

  /** The commands of the log have well-formed spans. */
  ghost predicate SpansOK(log: Log) {
    forall id :: id in log && log[id].st.cmd.Some? ==> WellFormed(log[id].st.cmd.value.span)
  }

  /** id is known here with a command that interferes with cmd. */
  predicate Known(log: Log, cmd: Command, id: InstanceID) {
    id in log && log[id].st.cmd.Some? && Interferes(log[id].st.cmd.value, cmd)
  }

  /** d is a later write of the same replica that interferes with id. */
  predicate Shields(log: Log, d: InstanceID, id: InstanceID) {
    && d.replica == id.replica && d.num > id.num
    && d in log && id in log && log[d].st.cmd.Some? && log[id].st.cmd.Some?
    && log[d].st.cmd.value.writing
    && Overlaps(log[d].st.cmd.value.span, log[id].st.cmd.value.span)
  }

  ghost predicate Covered(log: Log, deps: set<InstanceID>, id: InstanceID) {
    id in deps || exists d :: d in deps && Shields(log, d, id)
  }

  lemma CoveredMore(log: Log, deps: set<InstanceID>, deps': set<InstanceID>, id: InstanceID)
    requires Covered(log, deps, id) && deps <= deps'
    ensures Covered(log, deps', id)
  {
  }

  /** A key of id that a group holds was put there by d or was there before. */
  lemma GroupShields(log: Log, g: RangeGroup, d: InstanceID, id: InstanceID)
    requires SpansOK(log) && Canonical(g)
    requires d.replica == id.replica && d.num > id.num && d in log && id in log
    requires log[d].st.cmd.Some? && log[id].st.cmd.Some? && log[d].st.cmd.value.writing
    requires GroupOverlaps(Add(g, RangeOf(log[d].st.cmd.value.span)), RangeOf(log[id].st.cmd.value.span))
    ensures GroupOverlaps(g, RangeOf(log[id].st.cmd.value.span)) || Shields(log, d, id)
  {
    var s, o := log[d].st.cmd.value.span, log[id].st.cmd.value.span;
    RangeOfNonEmpty(s);
    RangeOfNonEmpty(o);
    var r := RangeOf(o);
    AddCanonical(g, RangeOf(s));
    OverlapsIffCovered(Add(g, RangeOf(s)), r);
    var k :| InRange(r, k) && Covers(Add(g, RangeOf(s)), k);
    AddKeys(g, RangeOf(s), k);
    OverlapsIffCovered(g, r);
    OverlapsIffShare(s, o);
  }

  /** A group that encloses the range of cmd overlaps everything that interferes with cmd. */
  lemma EnclosedOverlaps(g: RangeGroup, cmd: Command, other: Command)
    requires Canonical(g) && WellFormed(cmd.span) && WellFormed(other.span)
    requires Interferes(other, cmd) && Encloses(g, RangeOf(cmd.span))
    ensures GroupOverlaps(g, RangeOf(other.span))
  {
    OverlapsIffShare(other.span, cmd.span);
    RangeOfNonEmpty(other.span);
    var k :| InRange(RangeOf(other.span), k) && InRange(RangeOf(cmd.span), k);
    EnclosedKeys(g, RangeOf(cmd.span), k);
    OverlapsIffCovered(g, RangeOf(other.span));
  }

  lemma NotGrownOverlaps(g: RangeGroup, other: Command)
    requires Canonical(g) && WellFormed(other.span) && !Grows(g, RangeOf(other.span))
    ensures GroupOverlaps(g, RangeOf(other.span))
  {
    RangeOfNonEmpty(other.span);
    var r := RangeOf(other.span);
    StartInRange(r);
    EnclosedKeys(g, r, r.start);
    OverlapsIffCovered(g, r);
  }

  lemma SpanOK(log: Log, id: InstanceID)
    requires SpansOK(log) && id in log && log[id].st.cmd.Some?
    ensures WellFormed(log[id].st.cmd.value.span)
  {
  }

  /** Every interfering instance below slot n is a dependency, is shielded by
      one, or overlaps the writes depended on before slot n. */
  lemma {:induction false} SpaceCovers(log: Log, rid: ReplicaID, cmd: Command, ignored: InstanceID, n: nat,
                                       g: RangeGroup, id: InstanceID)
    requires SpansOK(log) && WellFormed(cmd.span) && Canonical(g)
    requires id.replica == rid && id.num < n && id != ignored && Known(log, cmd, id)
    requires ScanSpace(log, rid, cmd, ignored, n, g).Found?
    ensures Covered(log, ScanSpace(log, rid, cmd, ignored, n, g).deps, id)
            || GroupOverlaps(g, RangeOf(log[id].st.cmd.value.span))
    decreases n
  {
    hide Canonical, GroupOverlaps, Encloses, Overlaps, SpansOK, RangeOf, Add, WellFormed;
    var cur := InstanceID(rid, n - 1);
    if cur !in log || cur == ignored || !Interferes(log[cur].st.cmd.value, cmd) {
      SpaceCovers(log, rid, cmd, ignored, n - 1, g, id);
    } else if cur == id {
      SpanOK(log, cur);
      var other := log[cur].st.cmd.value;
      if other.writing && !Grows(g, RangeOf(other.span)) { NotGrownOverlaps(g, other); }
    } else {
      SpanOK(log, cur);
      SpanOK(log, id);
      var other := log[cur].st.cmd.value;
      var r := RangeOf(other.span);
      if other.writing && Grows(g, r) {
        RangeOfNonEmpty(other.span);
        AddCanonical(g, r);
        var g' := Add(g, r);
        if |g'| == 1 && Encloses(g', RangeOf(cmd.span)) {
          EnclosedOverlaps(g', cmd, log[id].st.cmd.value);
        } else {
          SpaceCovers(log, rid, cmd, ignored, n - 1, g', id);
        }
        if GroupOverlaps(g', RangeOf(log[id].st.cmd.value.span)) { GroupShields(log, g, cur, id); }
      } else {
        SpaceCovers(log, rid, cmd, ignored, n - 1, g, id);
      }
    }
  }

  lemma KnownIn(log: Log, cmd: Command, id: InstanceID)
    requires Known(log, cmd, id)
    ensures id in log
  {
  }

  /** The pruned scan loses nothing: an interfering instance that is known here is
      a dependency or is shielded by one. */
  lemma {:induction false} ScanCovers(log: Log, nodes: seq<ReplicaID>, cmd: Command, ignored: InstanceID,
                                      id: InstanceID)
    requires SpansOK(log) && WellFormed(cmd.span)
    requires id.replica in nodes && id != ignored && Known(log, cmd, id)
    requires ScanAll(log, nodes, cmd, ignored).Found?
    ensures Covered(log, ScanAll(log, nodes, cmd, ignored).deps, id)
  {
    hide Covered, SpansOK, WellFormed, ScanSpace, Known;
    var res := ScanAll(log, nodes, cmd, ignored);
    var n := Bound(Nums(log, nodes[0]));
    var first := ScanSpace(log, nodes[0], cmd, ignored, n, []);
    if id.replica == nodes[0] {
      assert id.num in Nums(log, nodes[0]) by { KnownIn(log, cmd, id); }
      SpaceCovers(log, nodes[0], cmd, ignored, n, [], id);
      CoveredMore(log, first.deps, res.deps, id);
    } else {
      ScanCovers(log, nodes[1..], cmd, ignored, id);
      CoveredMore(log, ScanAll(log, nodes[1..], cmd, ignored).deps, res.deps, id);
    }
  }

  // ----- Soundness -----

  predicate IsMaxOf(log: Log, nodes: seq<ReplicaID>, cmd: Command, ignored: InstanceID, m: nat, id: InstanceID) {
    id.replica in nodes && id != ignored && Known(log, cmd, id) && log[id].st.seqNum == m
  }

  /** Dependencies come from the interfering instances and the maximum is over them. */
  ghost predicate Sound(log: Log, nodes: seq<ReplicaID>, cmd: Command, ignored: InstanceID, res: ScanResult) {
    res.Found? ==>
      && (forall d :: d in res.deps ==>
            d.replica in nodes && d != ignored && Known(log, cmd, d) && log[d].st.seqNum <= res.maxSeq)
      && (res.maxSeq > 0 ==> exists id :: IsMaxOf(log, nodes, cmd, ignored, res.maxSeq, id))
  }

  lemma WithSound(log: Log, nodes: seq<ReplicaID>, cmd: Command, ignored: InstanceID, res: ScanResult, id: InstanceID,
                  deps: set<InstanceID>)
    requires Sound(log, nodes, cmd, ignored, res) && deps <= {id}
    requires id.replica in nodes && id != ignored && Known(log, cmd, id)
    ensures Sound(log, nodes, cmd, ignored, With(res, log[id].st.seqNum, deps))
  {
    hide Known;
    KnownIn(log, cmd, id);
    var r := With(res, log[id].st.seqNum, deps);
    if res.Found? {
      if r.maxSeq == log[id].st.seqNum {
        assert IsMaxOf(log, nodes, cmd, ignored, r.maxSeq, id);
      }
    }
  }

  lemma OneSound(log: Log, nodes: seq<ReplicaID>, cmd: Command, ignored: InstanceID, id: InstanceID)
    requires id.replica in nodes && id != ignored && Known(log, cmd, id)
    ensures Sound(log, nodes, cmd, ignored, Found(log[id].st.seqNum, {id}))
    ensures Sound(log, nodes, cmd, ignored, ScanPanic)
  {
    assert IsMaxOf(log, nodes, cmd, ignored, log[id].st.seqNum, id);
  }

  lemma {:induction false} SpaceSound(log: Log, nodes: seq<ReplicaID>, rid: ReplicaID, cmd: Command,
                                      ignored: InstanceID, n: nat, g: RangeGroup)
    requires rid in nodes
    ensures Sound(log, nodes, cmd, ignored, ScanSpace(log, rid, cmd, ignored, n, g))
    decreases n
  {
    if n > 0 {
      hide GroupOverlaps, Encloses, Overlaps, RangeOf, Add, Sound, With;
      var id := InstanceID(rid, n - 1);
      SpaceSound(log, nodes, rid, cmd, ignored, n - 1, g);
      if id in log && id != ignored && log[id].st.cmd.Some? && Interferes(log[id].st.cmd.value, cmd) {
        var r := RangeOf(log[id].st.cmd.value.span);
        var rest := ScanSpace(log, rid, cmd, ignored, n - 1, g);
        SpaceSound(log, nodes, rid, cmd, ignored, n - 1, Add(g, r));
        WithSound(log, nodes, cmd, ignored, rest, id, {});
        WithSound(log, nodes, cmd, ignored, rest, id, {id});
        WithSound(log, nodes, cmd, ignored, ScanSpace(log, rid, cmd, ignored, n - 1, Add(g, r)), id, {id});
        OneSound(log, nodes, cmd, ignored, id);
      }
    } else {
      hide Known;
    }
  }

  lemma JoinSound(log: Log, nodes: seq<ReplicaID>, cmd: Command, ignored: InstanceID, a: ScanResult, b: ScanResult)
    requires Sound(log, nodes, cmd, ignored, a) && Sound(log, nodes, cmd, ignored, b) && a.Found?
    ensures Sound(log, nodes, cmd, ignored, With(b, a.maxSeq, a.deps))
  {
    hide Known, IsMaxOf;
  }

  lemma SoundWider(log: Log, nodes: seq<ReplicaID>, nodes': seq<ReplicaID>, cmd: Command, ignored: InstanceID,
                   a: ScanResult)
    requires Sound(log, nodes, cmd, ignored, a) && forall r :: r in nodes ==> r in nodes'
    ensures Sound(log, nodes', cmd, ignored, a)
  {
    hide Known;
    if a.Found? && a.maxSeq > 0 {
      var id :| IsMaxOf(log, nodes, cmd, ignored, a.maxSeq, id);
      assert IsMaxOf(log, nodes', cmd, ignored, a.maxSeq, id);
    }
  }

  lemma PanicSound(log: Log, nodes: seq<ReplicaID>, cmd: Command, ignored: InstanceID)
    ensures Sound(log, nodes, cmd, ignored, ScanPanic)
  {
  }

  lemma {:induction false} ScanSound(log: Log, nodes: seq<ReplicaID>, cmd: Command, ignored: InstanceID)
    ensures Sound(log, nodes, cmd, ignored, ScanAll(log, nodes, cmd, ignored))
  {
    if nodes != [] {
      hide Sound, ScanSpace, With;
      ScanSound(log, nodes[1..], cmd, ignored);
      SoundWider(log, nodes[1..], nodes, cmd, ignored, ScanAll(log, nodes[1..], cmd, ignored));
      var n := Bound(Nums(log, nodes[0]));
      SpaceSound(log, nodes, nodes[0], cmd, ignored, n, []);
      var first := ScanSpace(log, nodes[0], cmd, ignored, n, []);
      if first.Found? {
        JoinSound(log, nodes, cmd, ignored, first, ScanAll(log, nodes[1..], cmd, ignored));
      } else {
        PanicSound(log, nodes, cmd, ignored);
      }
    } else {
      hide Known;
    }
  }

  // ----- Sequence numbers -----

  /** Causality inside each command space: a later interfering instance has a larger sequence number. */
  ghost predicate Causal(log: Log) {
    forall x, y :: && x in log && y in log && x.replica == y.replica && x.num < y.num
                   && log[x].st.cmd.Some? && log[y].st.cmd.Some?
                   && Interferes(log[x].st.cmd.value, log[y].st.cmd.value)
                   ==> log[x].st.seqNum < log[y].st.seqNum
  }

  lemma ScanMaxOf(log: Log, nodes: seq<ReplicaID>, cmd: Command, ignored: InstanceID, id: InstanceID)
    requires SpansOK(log) && WellFormed(cmd.span) && Causal(log)
    requires id.replica in nodes && id != ignored && Known(log, cmd, id)
    requires ScanAll(log, nodes, cmd, ignored).Found?
    ensures log[id].st.seqNum <= ScanAll(log, nodes, cmd, ignored).maxSeq
  {
    hide Overlaps, SpansOK, WellFormed, ScanAll;
    ScanCovers(log, nodes, cmd, ignored, id);
    ScanSound(log, nodes, cmd, ignored);
    var res := ScanAll(log, nodes, cmd, ignored);
    if id !in res.deps {
      var d :| d in res.deps && Shields(log, d, id);
      OverlapsSym(log[d].st.cmd.value.span, log[id].st.cmd.value.span);
      assert log[id].st.seqNum < log[d].st.seqNum;
    }
  }

  /** m is the largest sequence number of the interfering instances, 0 if there are none. */
  ghost predicate FullMax(log: Log, nodes: seq<ReplicaID>, cmd: Command, ignored: InstanceID, m: nat) {
    && (forall id: InstanceID :: id.replica in nodes && id != ignored && Known(log, cmd, id) ==> log[id].st.seqNum <= m)
    && (m > 0 ==> exists id :: IsMaxOf(log, nodes, cmd, ignored, m, id))
  }

  /** Under causality the pruned scan returns the maximum that a full scan would. */
  lemma ScanMax(log: Log, nodes: seq<ReplicaID>, cmd: Command, ignored: InstanceID)
    requires SpansOK(log) && WellFormed(cmd.span) && Causal(log) && ScanAll(log, nodes, cmd, ignored).Found?
    ensures FullMax(log, nodes, cmd, ignored, ScanAll(log, nodes, cmd, ignored).maxSeq)
  {
    hide SpansOK, WellFormed, ScanAll, Causal, Known;
    ScanSound(log, nodes, cmd, ignored);
    forall id: InstanceID | id.replica in nodes && id != ignored && Known(log, cmd, id)
      ensures id in log && log[id].st.seqNum <= ScanAll(log, nodes, cmd, ignored).maxSeq
    {
      KnownIn(log, cmd, id);
      ScanMaxOf(log, nodes, cmd, ignored, id);
    }
  }
}
