/** The range group that the dependency scan of epaxos/command.go accumulates:
    a set of keys held as ordered ranges with gaps between them. */
module RangeGroups {
  import opened Keys

  type RangeGroup = seq<Range>

  /** The keys of a group. */
  ghost predicate Covers(g: RangeGroup, k: Key) {
    exists i :: 0 <= i < |g| && InRange(g[i], k)
  }

  /** Ranges are not empty, ordered, and neither overlap nor touch. */
  ghost predicate Canonical(g: RangeGroup) {
    && (forall i :: 0 <= i < |g| ==> NonEmpty(g[i]))
    && (forall i, j :: 0 <= i < j < |g| ==> Lt(g[i].end, g[j].start))
  }

  predicate Contains(r: Range, s: Range) {
    Le(r.start, s.start) && Le(s.end, r.end)
  }

  /** Encloses: some range of the group contains r. */
  predicate Encloses(g: RangeGroup, r: Range) {
    exists i :: 0 <= i < |g| && Contains(g[i], r)
  }

  predicate OverlapsRange(r: Range, s: Range) {
    Lt(r.start, s.end) && Lt(s.start, r.end)
  }

  /** Overlaps: some range of the group shares a key with r. */
  predicate GroupOverlaps(g: RangeGroup, r: Range) {
    exists i :: 0 <= i < |g| && OverlapsRange(g[i], r)
  }

  function MinKey(a: Key, b: Key): Key {
    if Lt(a, b) then a else b
  }

  function Merge(r: Range, s: Range): Range {
    Range(MinKey(r.start, s.start), MaxKey(r.end, s.end))
  }

  /** The group after Add, with ranges that meet r merged into it. */
  function Add(g: RangeGroup, r: Range): RangeGroup {
    if g == [] then [r]
    else if Lt(g[0].end, r.start) then [g[0]] + Add(g[1..], r)
    else if Lt(r.end, g[0].start) then [r] + g
    else Add(g[1..], Merge(g[0], r))
  }

  /** What Add returns: whether the group grew. */
  predicate Grows(g: RangeGroup, r: Range) {
    !Encloses(g, r)
  }

  lemma {:induction false} CoversHead(g: RangeGroup, k: Key)
    requires g != []
    ensures Covers(g, k) <==> InRange(g[0], k) || Covers(g[1..], k)
  {
    if Covers(g, k) && !InRange(g[0], k) {
      var i :| 0 <= i < |g| && InRange(g[i], k);
      assert g[1..][i - 1] == g[i];
    }
    if Covers(g[1..], k) {
      var i :| 0 <= i < |g[1..]| && InRange(g[1..][i], k);
      assert g[i + 1] == g[1..][i];
    }
  }

  lemma CoversCons(r: Range, g: RangeGroup, k: Key)
    ensures Covers([r] + g, k) <==> InRange(r, k) || Covers(g, k)
  {
    assert ([r] + g)[1..] == g;
    CoversHead([r] + g, k);
  }

  lemma MinLe(a: Key, b: Key)
    ensures Le(MinKey(a, b), a) && Le(MinKey(a, b), b) && (MinKey(a, b) == a || MinKey(a, b) == b)
  {
    NotLt(a, b);
  }

  lemma MergeNonEmpty(r: Range, s: Range)
    requires NonEmpty(r) && NonEmpty(s)
    ensures NonEmpty(Merge(r, s))
  {
    MinLe(r.start, s.start);
    LeLtTrans(MinKey(r.start, s.start), r.start, r.end);
    LtLeTrans(MinKey(r.start, s.start), r.end, MaxKey(r.end, s.end));
  }

  lemma MergeSplit(r: Range, s: Range, k: Key)
    requires Le(s.start, r.end) && Le(r.start, s.end) && InRange(Merge(r, s), k)
    ensures InRange(r, k) || InRange(s, k)
  {
    NotLt(k, r.start);
    NotLt(k, s.start);
    NotLt(k, r.end);
    NotLt(k, s.end);
    if Lt(k, r.start) {
      if !InRange(s, k) { LtLeTrans(k, r.start, s.end); }
    } else if !Lt(k, r.end) {
      LeTrans(s.start, r.end, k);
    }
  }

  /** Ranges that overlap or touch merge without adding keys. */
  lemma MergeKeys(r: Range, s: Range, k: Key)
    requires Le(s.start, r.end) && Le(r.start, s.end)
    ensures InRange(Merge(r, s), k) <==> InRange(r, k) || InRange(s, k)
  {
    var m := Merge(r, s);
    MinLe(r.start, s.start);
    if InRange(r, k) {
      LeTrans(m.start, r.start, k);
      LtLeTrans(k, r.end, m.end);
    }
    if InRange(s, k) {
      LeTrans(m.start, s.start, k);
      LtLeTrans(k, s.end, m.end);
    }
    if InRange(m, k) {
      MergeSplit(r, s, k);
    }
  }

  lemma {:induction false} AddKeys(g: RangeGroup, r: Range, k: Key)
    ensures Covers(Add(g, r), k) <==> Covers(g, k) || InRange(r, k)
    decreases |g|
  {
    if g == [] {
      CoversCons(r, [], k);
    } else {
      CoversHead(g, k);
      NotLt(g[0].end, r.start);
      NotLt(r.end, g[0].start);
      if Lt(g[0].end, r.start) {
        AddKeys(g[1..], r, k);
        CoversCons(g[0], Add(g[1..], r), k);
      } else if Lt(r.end, g[0].start) {
        CoversCons(r, g, k);
      } else {
        AddKeys(g[1..], Merge(g[0], r), k);
        MergeKeys(g[0], r, k);
      }
    }
  }

  /** Everything in the result starts above a key that everything added starts above. */
  lemma {:induction false} AddAbove(g: RangeGroup, r: Range, b: Key)
    requires Lt(b, r.start) && forall i :: 0 <= i < |g| ==> Lt(b, g[i].start)
    ensures forall i :: 0 <= i < |Add(g, r)| ==> Lt(b, Add(g, r)[i].start)
    decreases |g|
  {
    if g != [] {
      assert forall i :: 0 <= i < |g[1..]| ==> g[1..][i] == g[i + 1];
      if Lt(g[0].end, r.start) {
        AddAbove(g[1..], r, b);
      } else if !Lt(r.end, g[0].start) {
        AddAbove(g[1..], Merge(g[0], r), b);
      }
    }
  }

  lemma {:induction false} AddCanonical(g: RangeGroup, r: Range)
    requires Canonical(g) && NonEmpty(r)
    ensures Canonical(Add(g, r))
    decreases |g|
  {
    if g != [] {
      var t := g[1..];
      assert forall i :: 0 <= i < |t| ==> t[i] == g[i + 1];
      if Lt(g[0].end, r.start) {
        AddCanonical(t, r);
        AddAbove(t, r, g[0].end);
      } else if Lt(r.end, g[0].start) {
        forall j | 0 <= j < |g| ensures Lt(r.end, g[j].start) {
          if j > 0 {
            LtTrans(r.end, g[0].start, g[0].end);
            LtTrans(r.end, g[0].end, g[j].start);
          }
        }
      } else {
        MergeNonEmpty(g[0], r);
        AddCanonical(t, Merge(g[0], r));
      }
    }
  }

  lemma EnclosedKeys(g: RangeGroup, r: Range, k: Key)
    requires Encloses(g, r) && InRange(r, k)
    ensures Covers(g, k)
  {
    var i :| 0 <= i < |g| && Contains(g[i], r);
    LeTrans(g[i].start, r.start, k);
    LtLeTrans(k, r.end, g[i].end);
  }

  lemma GapKey(g: RangeGroup, r: Range) returns (k: Key)
    requires Canonical(g) && NonEmpty(r) && !Encloses(g, r)
    ensures InRange(r, k) && !Covers(g, k)
  {
    if !Covers(g, r.start) {
      return r.start;
    }
    var i :| 0 <= i < |g| && InRange(g[i], r.start);
    k := g[i].end;
    NotLt(k, r.end);
    forall j | 0 <= j < |g| ensures !InRange(g[j], k) {
      if j < i {
        LtTrans(g[j].end, g[i].start, g[i].end);
        LtAsym(g[j].end, k);
      } else if j > i {
        NotLt(k, g[j].start);
      } else {
        LtIrrefl(k);
      }
    }
  }

  /** In a canonical group, Encloses means that every key is covered: Add
      reports growth exactly when some key is new. */
  lemma GrowsIffNewKey(g: RangeGroup, r: Range)
    requires Canonical(g) && NonEmpty(r)
    ensures Grows(g, r) <==> exists k :: InRange(r, k) && !Covers(g, k)
  {
    if Encloses(g, r) {
      forall k | InRange(r, k) ensures Covers(g, k) { EnclosedKeys(g, r, k); }
    } else {
      var k := GapKey(g, r);
    }
  }

  lemma OverlapsIffCovered(g: RangeGroup, r: Range)
    requires Canonical(g) && NonEmpty(r)
    ensures GroupOverlaps(g, r) <==> exists k :: InRange(r, k) && Covers(g, k)
  {
    if GroupOverlaps(g, r) {
      var i :| 0 <= i < |g| && OverlapsRange(g[i], r);
      ShareIff(g[i], r);
      var k :| InRange(g[i], k) && InRange(r, k);
      assert Covers(g, k);
    }
    if k :| InRange(r, k) && Covers(g, k) {
      var i :| 0 <= i < |g| && InRange(g[i], k);
      assert ShareKey(g[i], r);
      ShareIff(g[i], r);
    }
  }
}
