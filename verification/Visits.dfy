/** Exactly which instances the descent of epaxos/command.go meets before its early exit, and
    what follows: when a scan dereferences nil, and when it finds the maximum that a full scan would. */
module Visits {
  import opened Keys
  import opened RangeGroups
  import opened Types
  import opened Graphs
  import opened Scan
  import opened ScanOrder

  // ----- Which keys are written where -----

  /** x is an instance, other than the ignored one, whose command touches key k. */
  predicate Touches(log: Log, ignored: InstanceID, k: Key, x: InstanceID) {
    x in log && x != ignored && log[x].st.cmd.Some? && InRange(RangeOf(log[x].st.cmd.value.span), k)
  }

  predicate WritesKey(log: Log, ignored: InstanceID, k: Key, x: InstanceID) {
    Touches(log, ignored, k, x) && log[x].st.cmd.value.writing
  }

  /** x is an instance, other than the ignored one, without a command. */
  predicate IsNil(log: Log, ignored: InstanceID, x: InstanceID) {
    x in log && x != ignored && log[x].st.cmd.None?
  }

  /** Neither g nor a write of rid strictly between slots m and n has key k of cmd. */
  ghost predicate OpenKey(log: Log, rid: ReplicaID, cmd: Command, ignored: InstanceID, m: int, n: nat, g: RangeGroup,
                          k: Key) {
    && InRange(RangeOf(cmd.span), k) && !Covers(g, k)
    && forall w: InstanceID :: w.replica == rid && m < w.num < n ==> !WritesKey(log, ignored, k, w)
  }

  /** The descent from slot n with group g comes to slot m. */
  ghost predicate Open(log: Log, rid: ReplicaID, cmd: Command, ignored: InstanceID, m: int, n: nat, g: RangeGroup) {
    exists k :: OpenKey(log, rid, cmd, ignored, m, n, g, k)
  }

  // ----- The range group while the descent goes on -----

  ghost predicate MeetAll(g: RangeGroup, r: Range) {
    forall i :: 0 <= i < |g| ==> ShareKey(g[i], r)
  }

  lemma ShareMore(r: Range, s: Range, t: Range)
    requires ShareKey(s, t) && Le(s.start, r.end) && Le(r.start, s.end)
    ensures ShareKey(Merge(r, s), t)
  {
    var k :| InRange(s, k) && InRange(t, k);
    MergeKeys(r, s, k);
    assert InRange(Merge(r, s), k);
  }

  lemma {:induction false} AddMeets(g: RangeGroup, s: Range, r: Range)
    requires MeetAll(g, r) && ShareKey(s, r)
    ensures MeetAll(Add(g, s), r)
    decreases |g|
  {
    if g != [] {
      hide ShareKey;
      var t := g[1..];
      assert forall i :: 0 <= i < |t| ==> t[i] == g[i + 1];
      assert MeetAll(t, r);
      NotLt(g[0].end, s.start);
      NotLt(s.end, g[0].start);
      if Lt(g[0].end, s.start) {
        AddMeets(t, s, r);
      } else if !Lt(s.end, g[0].start) {
        ShareMore(g[0], s, r);
        AddMeets(t, Merge(g[0], s), r);
      }
    }
  }

  lemma SameRange(g: RangeGroup, r: Range, i: nat, j: nat)
    requires Canonical(g) && i < |g| && j < |g| && Contains(g[i], r) && ShareKey(g[j], r)
    ensures i == j
  {
    var k :| InRange(g[j], k) && InRange(r, k);
    LeTrans(g[i].start, r.start, k);
    LtLeTrans(k, r.end, g[i].end);
    LtAsym(k, g[i].end);
    LtAsym(k, g[j].end);
    if i < j {
      LtLeTrans(g[i].end, g[j].start, k);
    } else if j < i {
      LtLeTrans(g[j].end, g[i].start, k);
    }
  }

  /** Ranges with gaps between them that all meet r are one range once r is enclosed. */
  lemma SingleRange(g: RangeGroup, r: Range)
    requires Canonical(g) && MeetAll(g, r) && Encloses(g, r)
    ensures |g| == 1
  {
    var i :| 0 <= i < |g| && Contains(g[i], r);
    SameRange(g, r, i, 0);
    SameRange(g, r, i, |g| - 1);
  }

  /** What holds of the group before each slot. */
  ghost predicate Going(g: RangeGroup, r: Range) {
    NonEmpty(r) && Canonical(g) && MeetAll(g, r) && !Encloses(g, r)
  }

  lemma GoingOn(g: RangeGroup, s: Range, r: Range)
    requires Going(g, r) && NonEmpty(s) && ShareKey(s, r)
    ensures |Add(g, s)| == 1 && Encloses(Add(g, s), r) <==> !Going(Add(g, s), r)
  {
    AddCanonical(g, s);
    AddMeets(g, s, r);
    if Encloses(Add(g, s), r) { SingleRange(Add(g, s), r); }
  }

  lemma GoingKey(g: RangeGroup, r: Range)
    requires Going(g, r)
    ensures exists k :: InRange(r, k) && !Covers(g, k)
  {
    GrowsIffNewKey(g, r);
  }

  // ----- One slot -----

  /** A slot that adds nothing to the keys of g leaves the descent as it is. */
  lemma OpenSame(log: Log, rid: ReplicaID, cmd: Command, ignored: InstanceID, m: int, n: nat, g: RangeGroup)
    requires n > 0 && m < n - 1
    requires forall k :: InRange(RangeOf(cmd.span), k) && WritesKey(log, ignored, k, InstanceID(rid, n - 1)) ==>
        Covers(g, k)
    ensures Open(log, rid, cmd, ignored, m, n, g) <==> Open(log, rid, cmd, ignored, m, n - 1, g)
  {
    hide Covers, WritesKey;
    var id := InstanceID(rid, n - 1);
    if Open(log, rid, cmd, ignored, m, n, g) {
      var k :| OpenKey(log, rid, cmd, ignored, m, n, g, k);
      assert m < id.num < n;
      assert OpenKey(log, rid, cmd, ignored, m, n - 1, g, k);
    }
    if Open(log, rid, cmd, ignored, m, n - 1, g) {
      var k :| OpenKey(log, rid, cmd, ignored, m, n - 1, g, k);
      forall w: InstanceID | w.replica == rid && m < w.num < n ensures !WritesKey(log, ignored, k, w) {
        if w.num == n - 1 { assert w == id; }
      }
      assert OpenKey(log, rid, cmd, ignored, m, n, g, k);
    }
  }

  /** A write that grows the group to g' takes its keys out of what is open. */
  lemma OpenAdd(log: Log, rid: ReplicaID, cmd: Command, ignored: InstanceID, m: int, n: nat, g: RangeGroup,
                g': RangeGroup)
    requires n > 0 && m < n - 1
    requires forall k :: Covers(g', k) <==> Covers(g, k) || WritesKey(log, ignored, k, InstanceID(rid, n - 1))
    ensures Open(log, rid, cmd, ignored, m, n, g) <==> Open(log, rid, cmd, ignored, m, n - 1, g')
  {
    hide Covers, WritesKey;
    var id := InstanceID(rid, n - 1);
    if Open(log, rid, cmd, ignored, m, n, g) {
      var k :| OpenKey(log, rid, cmd, ignored, m, n, g, k);
      assert m < id.num < n;
      assert OpenKey(log, rid, cmd, ignored, m, n - 1, g', k);
    }
    if Open(log, rid, cmd, ignored, m, n - 1, g') {
      var k :| OpenKey(log, rid, cmd, ignored, m, n - 1, g', k);
      forall w: InstanceID | w.replica == rid && m < w.num < n ensures !WritesKey(log, ignored, k, w) {
        if w.num == n - 1 { assert w == id; }
      }
      assert OpenKey(log, rid, cmd, ignored, m, n, g, k);
    }
  }

  lemma OpenHere(log: Log, rid: ReplicaID, cmd: Command, ignored: InstanceID, n: nat, g: RangeGroup)
    requires n > 0 && Going(g, RangeOf(cmd.span))
    ensures Open(log, rid, cmd, ignored, n - 1, n, g)
  {
    GoingKey(g, RangeOf(cmd.span));
    var k :| InRange(RangeOf(cmd.span), k) && !Covers(g, k);
    assert OpenKey(log, rid, cmd, ignored, n - 1, n, g, k);
  }

  lemma ClosedBelow(log: Log, rid: ReplicaID, cmd: Command, ignored: InstanceID, m: int, n: nat, g: RangeGroup)
    requires Encloses(g, RangeOf(cmd.span))
    ensures !Open(log, rid, cmd, ignored, m, n, g)
  {
    forall k | InRange(RangeOf(cmd.span), k) ensures Covers(g, k) { EnclosedKeys(g, RangeOf(cmd.span), k); }
  }

  // ----- The whole descent -----

  /** The descent from slot n comes to x. */
  ghost predicate Met(log: Log, rid: ReplicaID, cmd: Command, ignored: InstanceID, n: nat, g: RangeGroup,
                      x: InstanceID) {
    x.replica == rid && x.num < n && Open(log, rid, cmd, ignored, x.num, n, g)
  }

  /** The descent comes to an instance without a command. */
  ghost predicate NilMet(log: Log, rid: ReplicaID, cmd: Command, ignored: InstanceID, n: nat, g: RangeGroup) {
    exists x :: IsNil(log, ignored, x) && Met(log, rid, cmd, ignored, n, g, x)
  }

  /** The descent counts x. */
  ghost predicate Seen(log: Log, rid: ReplicaID, cmd: Command, ignored: InstanceID, n: nat, g: RangeGroup,
                       x: InstanceID) {
    x != ignored && Known(log, cmd, x) && Met(log, rid, cmd, ignored, n, g, x)
  }

  /** m is the maximum over what the descent counts, 0 if that is nothing. */
  ghost predicate SeenMax(log: Log, rid: ReplicaID, cmd: Command, ignored: InstanceID, n: nat, g: RangeGroup, m: nat) {
    && (forall x :: Seen(log, rid, cmd, ignored, n, g, x) ==> log[x].st.seqNum <= m)
    && (m > 0 ==> exists x :: Seen(log, rid, cmd, ignored, n, g, x) && log[x].st.seqNum == m)
  }

  ghost predicate Exact(log: Log, rid: ReplicaID, cmd: Command, ignored: InstanceID, n: nat, g: RangeGroup,
                        res: ScanResult) {
    && (res.ScanPanic? <==> NilMet(log, rid, cmd, ignored, n, g))
    && (res.Found? ==> SeenMax(log, rid, cmd, ignored, n, g, res.maxSeq))
  }

  /** Below slot n - 1 the descent with g goes as the one from n - 1 with g1. */
  ghost predicate Alike(log: Log, rid: ReplicaID, cmd: Command, ignored: InstanceID, n: nat, g: RangeGroup,
                        g1: RangeGroup)
    requires n > 0
  {
    forall x: InstanceID :: x.replica == rid && x.num < n - 1 ==>
      (Open(log, rid, cmd, ignored, x.num, n, g) <==> Open(log, rid, cmd, ignored, x.num, n - 1, g1))
  }

  lemma MetBelow(log: Log, rid: ReplicaID, cmd: Command, ignored: InstanceID, n: nat, g: RangeGroup, g1: RangeGroup,
                 x: InstanceID)
    requires n > 0 && Alike(log, rid, cmd, ignored, n, g, g1) && x != InstanceID(rid, n - 1)
    ensures Met(log, rid, cmd, ignored, n, g, x) <==> Met(log, rid, cmd, ignored, n - 1, g1, x)
  {
  }

  lemma NotMet(log: Log, rid: ReplicaID, cmd: Command, ignored: InstanceID, n: nat, g: RangeGroup, x: InstanceID)
    requires x.num >= n
    ensures !Met(log, rid, cmd, ignored, n, g, x)
  {
  }

  lemma ExactSkip(log: Log, rid: ReplicaID, cmd: Command, ignored: InstanceID, n: nat, g: RangeGroup, res: ScanResult)
    requires n > 0 && Alike(log, rid, cmd, ignored, n, g, g) && Exact(log, rid, cmd, ignored, n - 1, g, res)
    requires var id := InstanceID(rid, n - 1); !IsNil(log, ignored, id) && (id == ignored || !Known(log, cmd, id))
    ensures Exact(log, rid, cmd, ignored, n, g, res)
  {
    hide Met, Alike, Known;
    var id := InstanceID(rid, n - 1);
    forall x | x != id ensures Met(log, rid, cmd, ignored, n, g, x) <==> Met(log, rid, cmd, ignored, n - 1, g, x) {
      MetBelow(log, rid, cmd, ignored, n, g, g, x);
    }
    NotMet(log, rid, cmd, ignored, n - 1, g, id);
    forall x ensures Seen(log, rid, cmd, ignored, n, g, x) <==> Seen(log, rid, cmd, ignored, n - 1, g, x) {}
    hide Seen;
  }

  lemma MetHere(log: Log, rid: ReplicaID, cmd: Command, ignored: InstanceID, n: nat, g: RangeGroup)
    requires n > 0 && Going(g, RangeOf(cmd.span))
    ensures Met(log, rid, cmd, ignored, n, g, InstanceID(rid, n - 1))
  {
    OpenHere(log, rid, cmd, ignored, n, g);
  }

  lemma ExactCount(log: Log, rid: ReplicaID, cmd: Command, ignored: InstanceID, n: nat, g: RangeGroup, g1: RangeGroup,
                   res: ScanResult, deps: set<InstanceID>)
    requires n > 0 && Going(g, RangeOf(cmd.span)) && Alike(log, rid, cmd, ignored, n, g, g1)
    requires Exact(log, rid, cmd, ignored, n - 1, g1, res)
    requires var id := InstanceID(rid, n - 1); id != ignored && Known(log, cmd, id)
    ensures Exact(log, rid, cmd, ignored, n, g, With(res, log[InstanceID(rid, n - 1)].st.seqNum, deps))
  {
    var id := InstanceID(rid, n - 1);
    assert !IsNil(log, ignored, id);
    MetHere(log, rid, cmd, ignored, n, g);
    hide Met, Alike, Going;
    forall x | x != id ensures Met(log, rid, cmd, ignored, n, g, x) <==> Met(log, rid, cmd, ignored, n - 1, g1, x) {
      MetBelow(log, rid, cmd, ignored, n, g, g1, x);
    }
    NotMet(log, rid, cmd, ignored, n - 1, g1, id);
    assert forall x :: Seen(log, rid, cmd, ignored, n, g, x) <==> x == id || Seen(log, rid, cmd, ignored, n - 1, g1, x);
    assert NilMet(log, rid, cmd, ignored, n, g) <==> NilMet(log, rid, cmd, ignored, n - 1, g1);
    hide Seen, NilMet, Known;
    if res.Found? && res.maxSeq > log[id].st.seqNum {
      var x :| Seen(log, rid, cmd, ignored, n - 1, g1, x) && log[x].st.seqNum == res.maxSeq;
      assert Seen(log, rid, cmd, ignored, n, g, x);
    }
  }

  lemma ExactStop(log: Log, rid: ReplicaID, cmd: Command, ignored: InstanceID, n: nat, g: RangeGroup,
                  deps: set<InstanceID>)
    requires n > 0 && Going(g, RangeOf(cmd.span))
    requires var id := InstanceID(rid, n - 1); id != ignored && Known(log, cmd, id)
    requires forall x: InstanceID :: x.replica == rid && x.num < n - 1 ==> !Open(log, rid, cmd, ignored, x.num, n, g)
    ensures Exact(log, rid, cmd, ignored, n, g, Found(log[InstanceID(rid, n - 1)].st.seqNum, deps))
  {
    var id := InstanceID(rid, n - 1);
    MetHere(log, rid, cmd, ignored, n, g);
    assert forall x :: Met(log, rid, cmd, ignored, n, g, x) ==> x == id;
    hide Met, Going;
    assert !NilMet(log, rid, cmd, ignored, n, g);
    assert Seen(log, rid, cmd, ignored, n, g, id);
  }

  lemma ExactNil(log: Log, rid: ReplicaID, cmd: Command, ignored: InstanceID, n: nat, g: RangeGroup)
    requires n > 0 && Going(g, RangeOf(cmd.span)) && IsNil(log, ignored, InstanceID(rid, n - 1))
    ensures Exact(log, rid, cmd, ignored, n, g, ScanPanic)
  {
    MetHere(log, rid, cmd, ignored, n, g);
  }

  /** A write of a key of cmd interferes with cmd. */
  lemma WriteInterferes(log: Log, cmd: Command, ignored: InstanceID, k: Key, x: InstanceID)
    requires SpansOK(log) && WellFormed(cmd.span) && WritesKey(log, ignored, k, x) && InRange(RangeOf(cmd.span), k)
    ensures Known(log, cmd, x)
  {
    OverlapsIffShare(log[x].st.cmd.value.span, cmd.span);
  }

  lemma AlikeSame(log: Log, rid: ReplicaID, cmd: Command, ignored: InstanceID, n: nat, g: RangeGroup)
    requires n > 0
    requires forall k :: InRange(RangeOf(cmd.span), k) && WritesKey(log, ignored, k, InstanceID(rid, n - 1)) ==>
        Covers(g, k)
    ensures Alike(log, rid, cmd, ignored, n, g, g)
  {
    hide Open, Covers, WritesKey;
    forall x: InstanceID | x.replica == rid && x.num < n - 1
      ensures Open(log, rid, cmd, ignored, x.num, n, g) <==> Open(log, rid, cmd, ignored, x.num, n - 1, g)
    {
      OpenSame(log, rid, cmd, ignored, x.num, n, g);
    }
  }

  lemma AlikeAdd(log: Log, rid: ReplicaID, cmd: Command, ignored: InstanceID, n: nat, g: RangeGroup, g': RangeGroup)
    requires n > 0
    requires forall k :: Covers(g', k) <==> Covers(g, k) || WritesKey(log, ignored, k, InstanceID(rid, n - 1))
    ensures Alike(log, rid, cmd, ignored, n, g, g')
  {
    hide Open, Covers, WritesKey;
    forall x: InstanceID | x.replica == rid && x.num < n - 1
      ensures Open(log, rid, cmd, ignored, x.num, n, g) <==> Open(log, rid, cmd, ignored, x.num, n - 1, g')
    {
      OpenAdd(log, rid, cmd, ignored, x.num, n, g, g');
    }
  }

  /** A slot whose instance does not interfere. */
  lemma PassesBy(log: Log, rid: ReplicaID, cmd: Command, ignored: InstanceID, n: nat, g: RangeGroup, res: ScanResult)
    requires SpansOK(log) && WellFormed(cmd.span) && n > 0 && Exact(log, rid, cmd, ignored, n - 1, g, res)
    requires var id := InstanceID(rid, n - 1); !IsNil(log, ignored, id) && (id == ignored || !Known(log, cmd, id))
    ensures Exact(log, rid, cmd, ignored, n, g, res)
  {
    hide Exact, Covers, SpansOK, WellFormed, Known;
    var id := InstanceID(rid, n - 1);
    forall k | InRange(RangeOf(cmd.span), k) ensures !WritesKey(log, ignored, k, id) {
      if WritesKey(log, ignored, k, id) { WriteInterferes(log, cmd, ignored, k, id); }
    }
    AlikeSame(log, rid, cmd, ignored, n, g);
    ExactSkip(log, rid, cmd, ignored, n, g, res);
  }

  /** A slot whose keys the group already has, or that does not write. */
  lemma CountsOnly(log: Log, rid: ReplicaID, cmd: Command, ignored: InstanceID, n: nat, g: RangeGroup,
                   res: ScanResult, deps: set<InstanceID>)
    requires n > 0 && Going(g, RangeOf(cmd.span)) && Exact(log, rid, cmd, ignored, n - 1, g, res)
    requires var id := InstanceID(rid, n - 1);
             && id != ignored && Known(log, cmd, id)
             && (log[id].st.cmd.value.writing ==> !Grows(g, RangeOf(log[id].st.cmd.value.span)))
    ensures Exact(log, rid, cmd, ignored, n, g, With(res, log[InstanceID(rid, n - 1)].st.seqNum, deps))
  {
    hide Exact, Going;
    var id := InstanceID(rid, n - 1);
    forall k | WritesKey(log, ignored, k, id)
      ensures Covers(g, k)
    {
      EnclosedKeys(g, RangeOf(log[id].st.cmd.value.span), k);
    }
    AlikeSame(log, rid, cmd, ignored, n, g);
    ExactCount(log, rid, cmd, ignored, n, g, g, res, deps);
  }

  lemma AddedKeys(log: Log, ignored: InstanceID, g: RangeGroup, id: InstanceID)
    requires id in log && id != ignored && log[id].st.cmd.Some? && log[id].st.cmd.value.writing
    ensures forall k :: Covers(Add(g, RangeOf(log[id].st.cmd.value.span)), k) <==>
        Covers(g, k) || WritesKey(log, ignored, k, id)
  {
    forall k
      ensures Covers(Add(g, RangeOf(log[id].st.cmd.value.span)), k) <==> Covers(g, k) || WritesKey(log, ignored, k, id)
    {
      AddKeys(g, RangeOf(log[id].st.cmd.value.span), k);
    }
  }

  lemma KnownMeets(log: Log, cmd: Command, id: InstanceID)
    requires SpansOK(log) && WellFormed(cmd.span) && Known(log, cmd, id)
    ensures NonEmpty(RangeOf(log[id].st.cmd.value.span)) && NonEmpty(RangeOf(cmd.span))
    ensures ShareKey(RangeOf(log[id].st.cmd.value.span), RangeOf(cmd.span))
  {
    OverlapsIffShare(log[id].st.cmd.value.span, cmd.span);
    RangeOfNonEmpty(log[id].st.cmd.value.span);
    RangeOfNonEmpty(cmd.span);
  }

  /** A write that grows the group either ends the descent or lets it go on with the larger group. */
  lemma DescentWrite(log: Log, rid: ReplicaID, cmd: Command, ignored: InstanceID, n: nat, g: RangeGroup)
    requires SpansOK(log) && WellFormed(cmd.span) && Going(g, RangeOf(cmd.span)) && n > 0
    requires var id := InstanceID(rid, n - 1); id != ignored && Known(log, cmd, id) && log[id].st.cmd.value.writing
    ensures var id := InstanceID(rid, n - 1);
            var g' := Add(g, RangeOf(log[id].st.cmd.value.span));
            && Alike(log, rid, cmd, ignored, n, g, g')
            && (if |g'| == 1 && Encloses(g', RangeOf(cmd.span))
                then Exact(log, rid, cmd, ignored, n, g, Found(log[id].st.seqNum, {id}))
                else Going(g', RangeOf(cmd.span)))
  {
    hide Exact, Going, SpansOK, WellFormed, Open, Add, Covers, Encloses, RangeOf;
    var id := InstanceID(rid, n - 1);
    var g' := Add(g, RangeOf(log[id].st.cmd.value.span));
    AddedKeys(log, ignored, g, id);
    AlikeAdd(log, rid, cmd, ignored, n, g, g');
    KnownMeets(log, cmd, id);
    GoingOn(g, RangeOf(log[id].st.cmd.value.span), RangeOf(cmd.span));
    if |g'| == 1 && Encloses(g', RangeOf(cmd.span)) {
      forall x: InstanceID | x.replica == rid && x.num < n - 1 ensures !Open(log, rid, cmd, ignored, x.num, n, g) {
        ClosedBelow(log, rid, cmd, ignored, x.num, n - 1, g');
      }
      ExactStop(log, rid, cmd, ignored, n, g, {id});
    }
  }

  /** The descent panics exactly when it comes to an instance without a command, and else returns the
      maximum over the interfering instances it comes to. */
  lemma {:induction false} Descent(log: Log, rid: ReplicaID, cmd: Command, ignored: InstanceID, n: nat, g: RangeGroup)
    requires SpansOK(log) && WellFormed(cmd.span) && Going(g, RangeOf(cmd.span))
    ensures Exact(log, rid, cmd, ignored, n, g, ScanSpace(log, rid, cmd, ignored, n, g))
    decreases n
  {
    if n > 0 {
      hide Exact, Going, SpansOK, WellFormed, Alike, Open, Add, Grows, Encloses, GroupOverlaps, RangeOf, Interferes;
      var id := InstanceID(rid, n - 1);
      if id !in log || id == ignored {
        Descent(log, rid, cmd, ignored, n - 1, g);
        PassesBy(log, rid, cmd, ignored, n, g, ScanSpace(log, rid, cmd, ignored, n - 1, g));
      } else if log[id].st.cmd.None? {
        ExactNil(log, rid, cmd, ignored, n, g);
      } else {
        var other := log[id].st.cmd.value;
        if !Interferes(other, cmd) {
          Descent(log, rid, cmd, ignored, n - 1, g);
          PassesBy(log, rid, cmd, ignored, n, g, ScanSpace(log, rid, cmd, ignored, n - 1, g));
        } else if other.writing && Grows(g, RangeOf(other.span)) {
          DescentWrite(log, rid, cmd, ignored, n, g);
          var g' := Add(g, RangeOf(other.span));
          if !(|g'| == 1 && Encloses(g', RangeOf(cmd.span))) {
            Descent(log, rid, cmd, ignored, n - 1, g');
            ExactCount(log, rid, cmd, ignored, n, g, g', ScanSpace(log, rid, cmd, ignored, n - 1, g'), {id});
          }
        } else {
          Descent(log, rid, cmd, ignored, n - 1, g);
          CountsOnly(log, rid, cmd, ignored, n, g, ScanSpace(log, rid, cmd, ignored, n - 1, g), {id});
          CountsOnly(log, rid, cmd, ignored, n, g, ScanSpace(log, rid, cmd, ignored, n - 1, g), {});
        }
      }
    } else {
      assert forall x :: !Met(log, rid, cmd, ignored, n, g, x);
    }
  }

  // ----- Whole spaces -----

  /** No write of the space of x above x has key k of cmd. */
  ghost predicate FreeKey(log: Log, cmd: Command, ignored: InstanceID, x: InstanceID, k: Key) {
    && InRange(RangeOf(cmd.span), k)
    && forall w: InstanceID :: w.replica == x.replica && w.num > x.num ==> !WritesKey(log, ignored, k, w)
  }

  /** The scan for cmd comes to x: the writes above x leave some key of cmd free. */
  ghost predicate Comes(log: Log, cmd: Command, ignored: InstanceID, x: InstanceID) {
    exists k :: FreeKey(log, cmd, ignored, x, k)
  }

  lemma ComesIff(log: Log, cmd: Command, ignored: InstanceID, x: InstanceID)
    requires x in log
    ensures Met(log, x.replica, cmd, ignored, Bound(Nums(log, x.replica)), [], x) <==> Comes(log, cmd, ignored, x)
  {
    var n := Bound(Nums(log, x.replica));
    assert x.num in Nums(log, x.replica);
    if Comes(log, cmd, ignored, x) {
      var k :| FreeKey(log, cmd, ignored, x, k);
      assert OpenKey(log, x.replica, cmd, ignored, x.num, n, [], k);
    }
    if Met(log, x.replica, cmd, ignored, n, [], x) {
      var k :| OpenKey(log, x.replica, cmd, ignored, x.num, n, [], k);
      forall w: InstanceID | w.replica == x.replica && w.num > x.num ensures !WritesKey(log, ignored, k, w) {
        if w in log { assert w.num in Nums(log, x.replica); }
      }
      assert FreeKey(log, cmd, ignored, x, k);
    }
  }

  lemma StartsGoing(cmd: Command)
    requires WellFormed(cmd.span)
    ensures Going([], RangeOf(cmd.span))
  {
    RangeOfNonEmpty(cmd.span);
  }

  /** x is without a command, and the scan comes to it. */
  ghost predicate NilAhead(log: Log, nodes: seq<ReplicaID>, cmd: Command, ignored: InstanceID, x: InstanceID) {
    x.replica in nodes && IsNil(log, ignored, x) && Comes(log, cmd, ignored, x)
  }

  /** x interferes, and the scan comes to it. */
  ghost predicate Counts(log: Log, nodes: seq<ReplicaID>, cmd: Command, ignored: InstanceID, x: InstanceID) {
    x.replica in nodes && x != ignored && Known(log, cmd, x) && Comes(log, cmd, ignored, x)
  }

  /** m is the largest sequence number that the scan counts, 0 if it counts none. */
  ghost predicate CountedMax(log: Log, nodes: seq<ReplicaID>, cmd: Command, ignored: InstanceID, m: nat) {
    && (forall x :: Counts(log, nodes, cmd, ignored, x) ==> log[x].st.seqNum <= m)
    && (m > 0 ==> exists x :: Counts(log, nodes, cmd, ignored, x) && log[x].st.seqNum == m)
  }

  lemma ElsewhereNotMet(log: Log, rid: ReplicaID, cmd: Command, ignored: InstanceID, n: nat, g: RangeGroup,
                        x: InstanceID)
    requires x.replica != rid
    ensures !Met(log, rid, cmd, ignored, n, g, x)
  {
  }

  lemma SpaceExact(log: Log, rid: ReplicaID, cmd: Command, ignored: InstanceID)
    requires SpansOK(log) && WellFormed(cmd.span)
    ensures var res := Space(log, rid, cmd, ignored);
            && (res.ScanPanic? <==> exists x :: NilAhead(log, [rid], cmd, ignored, x))
            && (res.Found? ==> CountedMax(log, [rid], cmd, ignored, res.maxSeq))
  {
    hide Met, Comes, SpansOK, WellFormed, Known;
    var n := Bound(Nums(log, rid));
    StartsGoing(cmd);
    Descent(log, rid, cmd, ignored, n, []);
    SpaceIs(log, rid, cmd, ignored);
    forall x: InstanceID | x in log && x.replica == rid
      ensures Met(log, rid, cmd, ignored, n, [], x) <==> Comes(log, cmd, ignored, x)
    {
      ComesIff(log, cmd, ignored, x);
    }
    forall x ensures Seen(log, rid, cmd, ignored, n, [], x) <==> Counts(log, [rid], cmd, ignored, x) {
      if x.replica != rid { ElsewhereNotMet(log, rid, cmd, ignored, n, [], x); }
      if Known(log, cmd, x) { KnownIn(log, cmd, x); }
    }
    forall x
      ensures IsNil(log, ignored, x) && Met(log, rid, cmd, ignored, n, [], x) <==> NilAhead(log, [rid], cmd, ignored, x)
    {
      if x.replica != rid { ElsewhereNotMet(log, rid, cmd, ignored, n, [], x); }
    }
    hide Seen, Counts, NilAhead, ScanSpace;
  }

  lemma NilAheadIn(log: Log, nodes: seq<ReplicaID>, cmd: Command, ignored: InstanceID, x: InstanceID)
    ensures NilAhead(log, nodes, cmd, ignored, x) <==> x.replica in nodes && NilAhead(log, [x.replica], cmd, ignored, x)
    ensures Counts(log, nodes, cmd, ignored, x) <==> x.replica in nodes && Counts(log, [x.replica], cmd, ignored, x)
  {
  }

  lemma NilAheadReplica(log: Log, r: ReplicaID, cmd: Command, ignored: InstanceID, x: InstanceID)
    ensures NilAhead(log, [r], cmd, ignored, x) || Counts(log, [r], cmd, ignored, x) ==> x.replica == r
  {
  }

  /** The scan over all spaces panics exactly when it comes to an instance without a command. */
  lemma ScanPanics(log: Log, nodes: seq<ReplicaID>, cmd: Command, ignored: InstanceID)
    requires SpansOK(log) && WellFormed(cmd.span)
    ensures ScanAll(log, nodes, cmd, ignored).ScanPanic? <==> exists x :: NilAhead(log, nodes, cmd, ignored, x)
  {
    hide NilAhead, Space, Collected, ScanAll, SpansOK, WellFormed;
    ScanAllCollects(log, nodes, cmd, ignored);
    if ScanAll(log, nodes, cmd, ignored).ScanPanic? {
      var r :| r in nodes && Space(log, r, cmd, ignored).ScanPanic?;
      SpaceExact(log, r, cmd, ignored);
      var x :| NilAhead(log, [r], cmd, ignored, x);
      assert x.replica == r by { NilAheadReplica(log, r, cmd, ignored, x); }
      NilAheadIn(log, nodes, cmd, ignored, x);
    }
    if x :| NilAhead(log, nodes, cmd, ignored, x) {
      NilAheadIn(log, nodes, cmd, ignored, x);
      SpaceExact(log, x.replica, cmd, ignored);
    }
  }

  lemma CountsIn(log: Log, nodes: seq<ReplicaID>, cmd: Command, ignored: InstanceID, x: InstanceID)
    ensures Counts(log, nodes, cmd, ignored, x) ==> x in log
  {
  }

  /** Otherwise it returns the maximum over the interfering instances that it comes to. */
  lemma ScanCounts(log: Log, nodes: seq<ReplicaID>, cmd: Command, ignored: InstanceID)
    requires SpansOK(log) && WellFormed(cmd.span) && ScanAll(log, nodes, cmd, ignored).Found?
    ensures CountedMax(log, nodes, cmd, ignored, ScanAll(log, nodes, cmd, ignored).maxSeq)
  {
    hide Counts, NilAhead, Space, ScanAll, SpansOK, WellFormed;
    ScanAllCollects(log, nodes, cmd, ignored);
    var m := ScanAll(log, nodes, cmd, ignored).maxSeq;
    forall x | Counts(log, nodes, cmd, ignored, x) ensures x in log && log[x].st.seqNum <= m {
      CountsIn(log, nodes, cmd, ignored, x);
      NilAheadIn(log, nodes, cmd, ignored, x);
      SpaceExact(log, x.replica, cmd, ignored);
      assert x.replica in Elems(nodes);
    }
    if m > 0 {
      var r :| r in Elems(nodes) && Space(log, r, cmd, ignored).Found? && Space(log, r, cmd, ignored).maxSeq == m;
      SpaceExact(log, r, cmd, ignored);
      forall x ensures Counts(log, [r], cmd, ignored, x) ==> x in log { CountsIn(log, [r], cmd, ignored, x); }
      var x :| Counts(log, [r], cmd, ignored, x) && log[x].st.seqNum == m;
      NilAheadReplica(log, r, cmd, ignored, x);
      NilAheadIn(log, nodes, cmd, ignored, x);
    }
  }

  // ----- When the pruned scan finds the full maximum -----

  /** y is the latest write of key k in the space of rid. */
  ghost predicate LatestWrite(log: Log, rid: ReplicaID, ignored: InstanceID, k: Key, y: InstanceID) {
    && y.replica == rid && WritesKey(log, ignored, k, y)
    && forall w: InstanceID :: w.replica == rid && w.num > y.num ==> !WritesKey(log, ignored, k, w)
  }

  /** Some instance on key k, at y or above it, has at least the number of x. */
  ghost predicate Outranked(log: Log, ignored: InstanceID, k: Key, y: InstanceID, x: InstanceID) {
    x in log && exists z: InstanceID :: z.replica == y.replica && z.num >= y.num && Touches(log, ignored, k, z)
                                        && log[x].st.seqNum <= log[z].st.seqNum
  }

  /** On every key: no write before the latest one has a larger number than that one, and no instance before it
      has a larger number than all instances at or above it. */
  ghost predicate KeyCausal(log: Log, rid: ReplicaID, ignored: InstanceID) {
    forall k, y: InstanceID, x: InstanceID ::
      LatestWrite(log, rid, ignored, k, y) && Touches(log, ignored, k, x) && x.replica == rid && x.num < y.num ==>
        && (WritesKey(log, ignored, k, x) ==> log[x].st.seqNum <= log[y].st.seqNum)
        && Outranked(log, ignored, k, y, x)
  }

  /** The scan of the space finds the full maximum. */
  ghost predicate FindsMax(log: Log, rid: ReplicaID, ignored: InstanceID, cmd: Command) {
    var res := Space(log, rid, cmd, ignored);
    res.Found? && FullMax(log, [rid], cmd, ignored, res.maxSeq)
  }

  ghost predicate NoNil(log: Log, rid: ReplicaID, ignored: InstanceID) {
    forall x: InstanceID :: x.replica == rid ==> !IsNil(log, ignored, x)
  }

  lemma SpaceFound(log: Log, rid: ReplicaID, cmd: Command, ignored: InstanceID)
    requires SpansOK(log) && WellFormed(cmd.span) && NoNil(log, rid, ignored)
    ensures Space(log, rid, cmd, ignored).Found?
    ensures CountedMax(log, [rid], cmd, ignored, Space(log, rid, cmd, ignored).maxSeq)
  {
    hide SpansOK, WellFormed, Comes, Counts, Space;
    SpaceExact(log, rid, cmd, ignored);
  }

  lemma {:induction false} TopWrite(log: Log, rid: ReplicaID, ignored: InstanceID, k: Key, w: InstanceID, n: nat)
    returns (y: InstanceID)
    requires w.replica == rid && WritesKey(log, ignored, k, w) && n == Bound(Nums(log, rid))
    ensures LatestWrite(log, rid, ignored, k, y) && y.num >= w.num
    decreases n - w.num
  {
    if v: InstanceID :| v.replica == rid && v.num > w.num && WritesKey(log, ignored, k, v) {
      assert v.num in Nums(log, rid) && w.num in Nums(log, rid);
      y := TopWrite(log, rid, ignored, k, v, n);
    } else {
      y := w;
    }
  }

  /** What the descent misses lies below a latest write of one of its keys. */
  lemma MissedBelow(log: Log, rid: ReplicaID, cmd: Command, ignored: InstanceID, x: InstanceID, k: Key)
    returns (y: InstanceID)
    requires x.replica == rid && !Comes(log, cmd, ignored, x) && InRange(RangeOf(cmd.span), k)
    ensures LatestWrite(log, rid, ignored, k, y) && y.num > x.num
  {
    assert !FreeKey(log, cmd, ignored, x, k);
    var w: InstanceID :| w.replica == x.replica && w.num > x.num && WritesKey(log, ignored, k, w);
    y := TopWrite(log, rid, ignored, k, w, Bound(Nums(log, rid)));
  }

  /** Instances on a key of cmd, at or above its latest write, are counted if they interfere. */
  lemma AboveComes(log: Log, rid: ReplicaID, cmd: Command, ignored: InstanceID, k: Key, y: InstanceID, z: InstanceID)
    requires LatestWrite(log, rid, ignored, k, y) && InRange(RangeOf(cmd.span), k) && z.replica == rid && z.num >= y.num
    ensures Comes(log, cmd, ignored, z)
  {
    assert FreeKey(log, cmd, ignored, z, k);
  }

  lemma TouchKnown(log: Log, cmd: Command, ignored: InstanceID, k: Key, z: InstanceID)
    requires SpansOK(log) && WellFormed(cmd.span) && Touches(log, ignored, k, z) && InRange(RangeOf(cmd.span), k)
    requires cmd.writing || log[z].st.cmd.value.writing
    ensures Known(log, cmd, z)
  {
    OverlapsIffShare(log[z].st.cmd.value.span, cmd.span);
  }

  lemma MissedIsLow(log: Log, rid: ReplicaID, cmd: Command, ignored: InstanceID, m: nat, x: InstanceID)
    requires SpansOK(log) && WellFormed(cmd.span) && KeyCausal(log, rid, ignored)
    requires CountedMax(log, [rid], cmd, ignored, m)
    requires x.replica == rid && x != ignored && Known(log, cmd, x) && !Comes(log, cmd, ignored, x)
    ensures log[x].st.seqNum <= m
  {
    KnownMeets(log, cmd, x);
    var k :| InRange(RangeOf(log[x].st.cmd.value.span), k) && InRange(RangeOf(cmd.span), k);
    hide SpansOK, WellFormed, RangeOf, Comes;
    var y := MissedBelow(log, rid, cmd, ignored, x, k);
    assert Touches(log, ignored, k, x);
    if cmd.writing {
      assert Outranked(log, ignored, k, y, x);
      var z: InstanceID :| z.replica == y.replica && z.num >= y.num && Touches(log, ignored, k, z)
                           && log[x].st.seqNum <= log[z].st.seqNum;
      TouchKnown(log, cmd, ignored, k, z);
      AboveComes(log, rid, cmd, ignored, k, y, z);
      assert Counts(log, [rid], cmd, ignored, z);
    } else {
      assert WritesKey(log, ignored, k, x);
      TouchKnown(log, cmd, ignored, k, y);
      AboveComes(log, rid, cmd, ignored, k, y, y);
      assert Counts(log, [rid], cmd, ignored, y);
    }
  }

  lemma CausalFinds(log: Log, rid: ReplicaID, cmd: Command, ignored: InstanceID)
    requires SpansOK(log) && NoNil(log, rid, ignored) && WellFormed(cmd.span) && KeyCausal(log, rid, ignored)
    ensures FindsMax(log, rid, ignored, cmd)
  {
    hide SpansOK, WellFormed, KeyCausal, Comes, Space, Known, NoNil;
    SpaceFound(log, rid, cmd, ignored);
    var m := Space(log, rid, cmd, ignored).maxSeq;
    forall x: InstanceID | x.replica in [rid] && x != ignored && Known(log, cmd, x)
      ensures x in log && log[x].st.seqNum <= m
    {
      KnownIn(log, cmd, x);
      if Comes(log, cmd, ignored, x) {
        assert Counts(log, [rid], cmd, ignored, x);
      } else {
        MissedIsLow(log, rid, cmd, ignored, m, x);
      }
    }
    if m > 0 {
      var x :| Counts(log, [rid], cmd, ignored, x) && log[x].st.seqNum == m;
      assert IsMaxOf(log, [rid], cmd, ignored, m, x);
    }
  }

  /** A command on the one key k. */
  function OnKey(k: Key, writing: bool): Command {
    Command(0, Span(k, []), writing, [])
  }

  lemma OneKey(k: Key, x: Key)
    ensures InRange(RangeOf(OnKey(k, true).span), x) <==> x == k
  {
    NextKey(k, x);
    NotLt(x, k);
    if Lt(x, k) { LtAsym(x, k); }
  }

  /** What the scan for a command on k counts touches k and is not below a write of k. */
  lemma CountsOnKey(log: Log, rid: ReplicaID, ignored: InstanceID, k: Key, writing: bool, y: InstanceID, z: InstanceID)
    requires SpansOK(log) && LatestWrite(log, rid, ignored, k, y) && Counts(log, [rid], OnKey(k, writing), ignored, z)
    ensures Touches(log, ignored, k, z) && z.replica == rid && z.num >= y.num
    ensures !writing ==> z == y
  {
    var cmd := OnKey(k, writing);
    KnownMeets(log, cmd, z);
    var k1 :| InRange(RangeOf(log[z].st.cmd.value.span), k1) && InRange(RangeOf(cmd.span), k1);
    OneKey(k, k1);
    var k2 :| FreeKey(log, cmd, ignored, z, k2);
    OneKey(k, k2);
  }

  lemma FindsOnKey(log: Log, rid: ReplicaID, ignored: InstanceID, k: Key, writing: bool, y: InstanceID, x: InstanceID)
    requires SpansOK(log) && NoNil(log, rid, ignored) && FindsMax(log, rid, ignored, OnKey(k, writing))
    requires LatestWrite(log, rid, ignored, k, y) && Touches(log, ignored, k, x) && x.replica == rid
    requires writing || WritesKey(log, ignored, k, x)
    ensures Outranked(log, ignored, k, y, x) && (!writing ==> log[x].st.seqNum <= log[y].st.seqNum)
  {
    var cmd := OnKey(k, writing);
    OneKey(k, k);
    TouchKnown(log, cmd, ignored, k, x);
    SpaceFound(log, rid, cmd, ignored);
    var m := Space(log, rid, cmd, ignored).maxSeq;
    hide SpansOK, Space, Comes, NoNil;
    assert log[x].st.seqNum <= m;
    if m > 0 {
      var z :| Counts(log, [rid], cmd, ignored, z) && log[z].st.seqNum == m;
      CountsOnKey(log, rid, ignored, k, writing, y, z);
    } else {
      assert Touches(log, ignored, k, y);
    }
  }

  /** The scan of the space finds the full maximum for every well-formed command. */
  ghost predicate AlwaysFinds(log: Log, rid: ReplicaID, ignored: InstanceID) {
    forall cmd: Command :: WellFormed(cmd.span) ==> FindsMax(log, rid, ignored, cmd)
  }

  lemma FindsAt(log: Log, rid: ReplicaID, ignored: InstanceID, k: Key, y: InstanceID, x: InstanceID)
    requires SpansOK(log) && NoNil(log, rid, ignored) && AlwaysFinds(log, rid, ignored)
    requires LatestWrite(log, rid, ignored, k, y) && Touches(log, ignored, k, x) && x.replica == rid
    ensures WritesKey(log, ignored, k, x) ==> log[x].st.seqNum <= log[y].st.seqNum
    ensures Outranked(log, ignored, k, y, x)
  {
    hide FindsMax, Outranked, SpansOK, NoNil;
    assert WellFormed(OnKey(k, true).span) && WellFormed(OnKey(k, false).span);
    FindsOnKey(log, rid, ignored, k, true, y, x);
    if WritesKey(log, ignored, k, x) { FindsOnKey(log, rid, ignored, k, false, y, x); }
  }

  lemma LatestIn(log: Log, rid: ReplicaID, ignored: InstanceID, k: Key, y: InstanceID, x: InstanceID)
    requires LatestWrite(log, rid, ignored, k, y) && Touches(log, ignored, k, x)
    ensures x in log && y in log
  {
  }

  /** It does exactly when the numbers of the space are causal on every key. */
  lemma FindsMaxIffCausal(log: Log, rid: ReplicaID, ignored: InstanceID)
    requires SpansOK(log) && NoNil(log, rid, ignored)
    ensures AlwaysFinds(log, rid, ignored) <==> KeyCausal(log, rid, ignored)
  {
    hide FindsMax, Outranked, SpansOK, NoNil, LatestWrite, Touches;
    if KeyCausal(log, rid, ignored) {
      hide KeyCausal;
      forall cmd: Command | WellFormed(cmd.span)
        ensures FindsMax(log, rid, ignored, cmd)
      {
        CausalFinds(log, rid, cmd, ignored);
      }
    }
    if AlwaysFinds(log, rid, ignored) {
      hide AlwaysFinds;
      forall k, y: InstanceID, x: InstanceID |
        LatestWrite(log, rid, ignored, k, y) && Touches(log, ignored, k, x) && x.replica == rid && x.num < y.num
        ensures x in log && y in log
        ensures (WritesKey(log, ignored, k, x) ==> log[x].st.seqNum <= log[y].st.seqNum)
        ensures Outranked(log, ignored, k, y, x)
      {
        LatestIn(log, rid, ignored, k, y, x);
        FindsAt(log, rid, ignored, k, y, x);
      }
    }
  }
}
