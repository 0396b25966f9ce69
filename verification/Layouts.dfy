/** Which byte sequences make Unmarshal fail, and which make it panic (epaxos/epaxospb/epaxos.pb.go). Both depend on
    the layout of a message alone: on what it has in which field. */
module Layouts {
  import opened Keys
  import opened Types
  import opened Wire

  /** kinds[n - 1] is what the message has in field n. */
  datatype Layout = Layout(kinds: seq<Kind>)
  datatype Kind = Number | Raw | Nested(layout: Layout)

  const SPAN := Layout([Raw, Raw])
  const COMMAND := Layout([Number, Nested(SPAN), Number, Raw])
  const ID := Layout([Number, Number])
  const BALLOT := Layout([Number, Number, Number])
  const DATA := Layout([Nested(COMMAND), Number, Nested(ID)])
  const INSTANCE := Layout([Nested(ID), Number, Nested(DATA), Nested(BALLOT)])

  datatype Unit = Unit

  /** Reading d, the end of a buffer of l bytes, without keeping anything of it. */
  function Check(y: Layout, d: Bytes, l: nat): Result<Unit>
    decreases y, |d|, 1
  {
    if d == [] then Ok(Unit) else
      var rest :- FieldAt(y, d, l);
      Check(y, rest, l)
  }

  /** What follows the field at the start of d. */
  function FieldAt(y: Layout, d: Bytes, l: nat): (r: Result<Bytes>)
    requires d != []
    ensures r.Ok? ==> |r.value| < |d|
    decreases y, |d|, 0
  {
    var t :- ReadTag(d);
    if t.num <= |y.kinds| then
      match y.kinds[t.num - 1]
      case Number => var v :- ReadNum(t); Ok(v.rest)
      case Raw => var b :- ReadBytes(t, l); Ok(b.rest)
      case Nested(z) =>
        var b :- ReadBytes(t, l);
        var _ :- Check(z, b.value, |b.value|);
        Ok(b.rest)
    else SkipField(d, l)
  }

  // ----- Unmarshal fails as its layout says -----

  predicate Alike<T>(r: Result<T>, q: Result<Unit>) {
    if r.Ok? then q.Ok? else q == Err(r.error)
  }

  lemma {:induction false} SpanAlike(m: Span, d: Bytes, l: nat)
    ensures Alike(UnmarshalSpan(m, d, l), Check(SPAN, d, l))
    decreases |d|
  {
    hide ReadTag, ReadBytes, SkipField;
    if d != [] && ReadTag(d).Ok? {
      var t := ReadTag(d).value;
      if t.num <= 2 {
        var b := ReadBytes(t, l);
        if b.Ok? {
          SpanAlike(if t.num == 1 then m.(key := b.value.value) else m.(endKey := b.value.value), b.value.rest, l);
        }
      } else if SkipField(d, l).Ok? {
        SpanAlike(m, SkipField(d, l).value, l);
      }
    }
  }

  lemma {:induction false} IdAlike(m: InstanceID, d: Bytes, l: nat)
    ensures Alike(UnmarshalId(m, d, l), Check(ID, d, l))
    decreases |d|
  {
    hide ReadTag, ReadNum, SkipField;
    if d != [] && ReadTag(d).Ok? {
      var t := ReadTag(d).value;
      if t.num <= 2 {
        var v := ReadNum(t);
        if v.Ok? {
          IdAlike(if t.num == 1 then m.(replica := v.value.value) else m.(num := v.value.value), v.value.rest, l);
        }
      } else if SkipField(d, l).Ok? {
        IdAlike(m, SkipField(d, l).value, l);
      }
    }
  }

  lemma {:induction false} BallotAlike(m: Ballot, d: Bytes, l: nat)
    ensures Alike(UnmarshalBallot(m, d, l), Check(BALLOT, d, l))
    decreases |d|
  {
    hide ReadTag, ReadNum, SkipField;
    if d != [] && ReadTag(d).Ok? {
      var t := ReadTag(d).value;
      if t.num <= 3 {
        var v := ReadNum(t);
        if v.Ok? {
          var n := v.value.value;
          BallotAlike(if t.num == 1 then m.(epoch := n) else if t.num == 2 then m.(number := n) else m.(replica := n),
                      v.value.rest, l);
        }
      } else if SkipField(d, l).Ok? {
        BallotAlike(m, SkipField(d, l).value, l);
      }
    }
  }

  lemma {:induction false} CommandAlike(m: Command, d: Bytes, l: nat)
    ensures Alike(UnmarshalCommand(m, d, l), Check(COMMAND, d, l))
    decreases |d|
  {
    hide ReadTag, ReadNum, ReadBytes, SkipField, UnmarshalSpan;
    if d != [] && ReadTag(d).Ok? {
      var t := ReadTag(d).value;
      var v, b := ReadNum(t), ReadBytes(t, l);
      if t.num in {1, 3} {
        if v.Ok? {
          CommandAlike(if t.num == 1 then m.(id := v.value.value) else m.(writing := v.value.value != 0),
                       v.value.rest, l);
        }
      } else if t.num == 2 {
        if b.Ok? {
          SpanAlike(m.span, b.value.value, |b.value.value|);
          var span := UnmarshalSpan(m.span, b.value.value, |b.value.value|);
          if span.Ok? { CommandAlike(m.(span := span.value), b.value.rest, l); }
        }
      } else if t.num == 4 {
        if b.Ok? { CommandAlike(m.(data := b.value.value), b.value.rest, l); }
      } else if SkipField(d, l).Ok? {
        CommandAlike(m, SkipField(d, l).value, l);
      }
    }
  }

  lemma {:induction false} DataAlike(m: InstanceData, d: Bytes, l: nat)
    ensures Alike(UnmarshalData(m, d, l), Check(DATA, d, l))
    decreases |d|
  {
    hide ReadTag, ReadNum, ReadBytes, SkipField, UnmarshalCommand, UnmarshalId;
    if d != [] && ReadTag(d).Ok? {
      var t := ReadTag(d).value;
      var v, b := ReadNum(t), ReadBytes(t, l);
      if t.num == 2 {
        if v.Ok? { DataAlike(m.(seqNum := v.value.value), v.value.rest, l); }
      } else if t.num == 1 {
        if b.Ok? {
          var cmd0 := if m.cmd.Some? then m.cmd.value else NO_COMMAND;
          CommandAlike(cmd0, b.value.value, |b.value.value|);
          var cmd := UnmarshalCommand(cmd0, b.value.value, |b.value.value|);
          if cmd.Ok? { DataAlike(m.(cmd := Some(cmd.value)), b.value.rest, l); }
        }
      } else if t.num == 3 {
        if b.Ok? {
          IdAlike(NO_ID, b.value.value, |b.value.value|);
          var id := UnmarshalId(NO_ID, b.value.value, |b.value.value|);
          if id.Ok? { DataAlike(m.(deps := m.deps + [id.value]), b.value.rest, l); }
        }
      } else if SkipField(d, l).Ok? {
        DataAlike(m, SkipField(d, l).value, l);
      }
    }
  }

  lemma {:induction false} InstanceAlike(m: StoredInstance, d: Bytes, l: nat)
    ensures Alike(UnmarshalInstance(m, d, l), Check(INSTANCE, d, l))
    decreases |d|
  {
    hide ReadTag, ReadNum, ReadBytes, SkipField, UnmarshalData, UnmarshalId, UnmarshalBallot;
    if d != [] && ReadTag(d).Ok? {
      var t := ReadTag(d).value;
      var v, b := ReadNum(t), ReadBytes(t, l);
      if t.num == 2 {
        if v.Ok? { InstanceAlike(m.(status := Int32(v.value.value)), v.value.rest, l); }
      } else if t.num == 1 {
        if b.Ok? {
          IdAlike(m.id, b.value.value, |b.value.value|);
          var id := UnmarshalId(m.id, b.value.value, |b.value.value|);
          if id.Ok? { InstanceAlike(m.(id := id.value), b.value.rest, l); }
        }
      } else if t.num == 3 {
        if b.Ok? {
          DataAlike(m.data, b.value.value, |b.value.value|);
          var data := UnmarshalData(m.data, b.value.value, |b.value.value|);
          if data.Ok? { InstanceAlike(m.(data := data.value), b.value.rest, l); }
        }
      } else if t.num == 4 {
        if b.Ok? {
          var ballot0 := if m.ballot.Some? then m.ballot.value else NO_BALLOT;
          BallotAlike(ballot0, b.value.value, |b.value.value|);
          var ballot := UnmarshalBallot(ballot0, b.value.value, |b.value.value|);
          if ballot.Ok? { InstanceAlike(m.(ballot := Some(ballot.value)), b.value.rest, l); }
        }
      } else if SkipField(d, l).Ok? {
        InstanceAlike(m, SkipField(d, l).value, l);
      }
    }
  }

  // ----- Lengths that end beyond 2^63 -----

  /** No buffer is longer. */
  const TWO_62: nat := 0x4000_0000_0000_0000

  /** At the start of d, the end of a buffer of l bytes, is a length that is below 2^63 and ends at 2^63 or beyond. */
  predicate Overlong(d: Bytes, l: nat) {
    var len := ReadVarint(d, 0, 0);
    len.Ok? && len.value.value < TWO_63 <= l - |len.value.rest| + len.value.value
  }

  /** A field of a group, and then rest. */
  predicate Member(d: Bytes, rest: Bytes) {
    && ReadVarint(d, 0, 0).Ok? && ReadVarint(d, 0, 0).value.value % 8 != 4
    && Skip(d).Ok? && Skip(d).value <= |d| && rest == d[Skip(d).value..]
  }

  /** From d on there are fields of a group, up to the last of ds. */
  ghost predicate Members(d: Bytes, ds: seq<Bytes>) {
    |ds| > 0 && ds[0] == d && forall i :: 0 <= i < |ds| - 1 ==> Member(ds[i], ds[i + 1])
  }

  /** A field of a group with an overlong length, or with an overlong length inside. */
  ghost predicate MemberPanics(d: Bytes, l: nat)
    decreases |d|, 0
  {
    var w := ReadVarint(d, 0, 0);
    && w.Ok?
    && (|| (w.value.value % 8 == 2 && Overlong(w.value.rest, l))
        || (w.value.value % 8 == 3 && GroupPanics(w.value.rest, |d|)))
  }

  /** Complete fields of a group lead from d to one that panics. */
  ghost predicate GroupPanics(d: Bytes, l: nat)
    decreases |d|, 1
  {
    exists ds: seq<Bytes> :: Members(d, ds) && |ds[|ds| - 1]| <= |d| && MemberPanics(ds[|ds| - 1], l)
  }

  lemma {:induction false} VarintNoPanic(d: Bytes, k: nat, acc: nat)
    ensures ReadVarint(d, k, acc) != Err(OutOfRange)
    decreases |d|
  {
    if k < 10 && d != [] && d[0] >= 128 { VarintNoPanic(d[1..], k + 1, (acc + (d[0] % 128) * Pow128(k)) % TWO_64); }
  }

  lemma {:induction false} GroupEnds(d: Bytes, l: nat)
    requires SkipGroup(d, l).Ok?
    ensures SkipGroup(d, l).value <= |d|
    decreases |d|
  {
    hide ReadVarint, Skip;
    if ReadVarint(d, 0, 0).value.value % 8 != 4 { GroupEnds(d[Skip(d).value..], l); }
  }

  /** Only a declared length reaches 2^63. */
  lemma FarSkip(d: Bytes, l: nat)
    requires |d| <= l <= TWO_62 && Skip(d).Ok?
    ensures var w := ReadVarint(d, 0, 0);
            w.Ok? && (l - |d| + Skip(d).value >= TWO_63 <==> w.value.value % 8 == 2 && Overlong(w.value.rest, l))
  {
    hide ReadVarint;
    var w := ReadVarint(d, 0, 0);
    if w.value.value % 8 == 3 { GroupEnds(w.value.rest, |d|); }
  }

  lemma {:induction false} MembersShrink(d: Bytes, ds: seq<Bytes>, i: nat)
    requires Members(d, ds) && i < |ds|
    ensures |ds[i]| <= |d|
  {
    if i > 0 {
      MembersShrink(d, ds, i - 1);
      assert Member(ds[i - 1], ds[i]);
    }
  }

  lemma GoesOn(d: Bytes, rest: Bytes, l: nat)
    requires Member(d, rest) && GroupPanics(rest, l)
    ensures GroupPanics(d, l)
  {
    hide ReadVarint, Skip, MemberPanics;
    var ds :| Members(rest, ds) && |ds[|ds| - 1]| <= |rest| && MemberPanics(ds[|ds| - 1], l);
    var all := [d] + ds;
    assert all[|all| - 1] == ds[|ds| - 1];
    forall i | 0 <= i < |all| - 1 ensures Member(all[i], all[i + 1]) {
      if i > 0 { assert Member(ds[i - 1], ds[i]); }
    }
    assert Members(d, all);
  }

  lemma WentOn(d: Bytes, l: nat)
    requires GroupPanics(d, l) && !MemberPanics(d, l)
    ensures Skip(d).Ok? && Skip(d).value <= |d| && Member(d, d[Skip(d).value..])
    ensures GroupPanics(d[Skip(d).value..], l)
  {
    hide ReadVarint, Skip, MemberPanics;
    var ds :| Members(d, ds) && |ds[|ds| - 1]| <= |d| && MemberPanics(ds[|ds| - 1], l);
    assert Member(ds[0], ds[1]);
    var rest := ds[1..];
    forall i | 0 <= i < |rest| - 1 ensures Member(rest[i], rest[i + 1]) { assert Member(ds[i + 1], ds[i + 2]); }
    assert Members(ds[1], rest) && rest[|rest| - 1] == ds[|ds| - 1];
    MembersShrink(ds[1], rest, |rest| - 1);
  }

  lemma OverlongSkips(d: Bytes, l: nat)
    requires var w := ReadVarint(d, 0, 0); w.Ok? && w.value.value % 8 == 2 && Overlong(w.value.rest, l)
    ensures Skip(d).Ok?
  {
    hide ReadVarint;
  }

  /** skipEpaxos panics only inside groups. */
  lemma {:induction false} SkipPanics(d: Bytes)
    requires |d| <= TWO_62
    ensures var w := ReadVarint(d, 0, 0);
            Skip(d) == Err(OutOfRange) <==> w.Ok? && w.value.value % 8 == 3 && GroupPanics(w.value.rest, |d|)
    decreases |d|, 0
  {
    hide ReadVarint, GroupPanics, SkipGroup;
    var w := ReadVarint(d, 0, 0);
    VarintNoPanic(d, 0, 0);
    if w.Ok? {
      VarintNoPanic(w.value.rest, 0, 0);
      if w.value.value % 8 == 3 { GroupExact(w.value.rest, |d|); }
    }
  }

  lemma MemberExact(d: Bytes, l: nat)
    requires |d| <= l <= TWO_62
    ensures var w := ReadVarint(d, 0, 0);
            MemberPanics(d, l) <==>
            w.Ok? && w.value.value % 8 != 4
            && (Skip(d) == Err(OutOfRange) || (Skip(d).Ok? && l - |d| + Skip(d).value >= TWO_63))
    decreases |d|, 1
  {
    hide GroupPanics, Skip, ReadVarint;
    SkipPanics(d);
    if Skip(d).Ok? { FarSkip(d, l); }
    if MemberPanics(d, l) && ReadVarint(d, 0, 0).value.value % 8 == 2 { OverlongSkips(d, l); }
  }

  /** A group panics exactly at a member that does, after complete members. */
  lemma {:induction false} GroupExact(d: Bytes, l: nat)
    requires |d| <= l <= TWO_62
    ensures SkipGroup(d, l) == Err(OutOfRange) <==> GroupPanics(d, l)
    decreases |d|, 2
  {
    hide ReadVarint, Skip, MemberPanics;
    VarintNoPanic(d, 0, 0);
    MemberExact(d, l);
    if MemberPanics(d, l) {
      assert Members(d, [d]);
    } else {
      if ReadVarint(d, 0, 0).Ok? && Skip(d).Ok? && Skip(d).value <= |d| { GroupExact(d[Skip(d).value..], l); }
      if SkipGroup(d, l) == Err(OutOfRange) { GoesOn(d, d[Skip(d).value..], l); }
      if GroupPanics(d, l) { WentOn(d, l); }
    }
  }

  // ----- Messages that make Unmarshal panic -----

  /** From d on there are fields that are read or passed over, up to the last of ds. */
  ghost predicate Fields(y: Layout, d: Bytes, ds: seq<Bytes>, l: nat) {
    && |ds| > 0 && ds[0] == d
    && forall i :: 0 <= i < |ds| - 1 ==> ds[i] != [] && FieldAt(y, ds[i], l) == Ok(ds[i + 1])
  }

  /** The field at the start of d has an overlong length, or there is one inside. In a field that the message does not
      have, a length that is overlong even from the start of the field on is an error. */
  ghost predicate FieldPanics(y: Layout, d: Bytes, l: nat)
    decreases y, 0
  {
    && d != [] && ReadTag(d).Ok?
    && var t := ReadTag(d).value;
       if t.num <= |y.kinds| then
         match y.kinds[t.num - 1]
         case Number => false
         case Raw => t.wire == 2 && Overlong(t.rest, l)
         case Nested(z) =>
           && t.wire == 2
           && (|| Overlong(t.rest, l)
               || (ReadBytes(t, l).Ok? && Panics(z, ReadBytes(t, l).value.value, |ReadBytes(t, l).value.value|)))
       else
         || (t.wire == 2 && Overlong(t.rest, l) && !Overlong(t.rest, |d|))
         || (t.wire == 3 && GroupPanics(t.rest, |d|))
  }

  /** Fields that are read or passed over lead from d to one that panics. */
  ghost predicate Panics(y: Layout, d: Bytes, l: nat)
    decreases y, 1
  {
    exists ds: seq<Bytes> :: Fields(y, d, ds, l) && FieldPanics(y, ds[|ds| - 1], l)
  }

  lemma TagSplits(d: Bytes)
    requires ReadTag(d).Ok?
    ensures var w, t := ReadVarint(d, 0, 0), ReadTag(d).value;
            w.Ok? && t.wire == w.value.value % 8 && t.wire != 4 && t.rest == w.value.rest
  {
  }

  lemma TagNoPanic(d: Bytes)
    ensures ReadTag(d) != Err(OutOfRange)
  {
    VarintNoPanic(d, 0, 0);
    hide ReadVarint;
  }

  lemma BytesPanic(t: Tag, l: nat)
    ensures ReadBytes(t, l) == Err(OutOfRange) <==> t.wire == 2 && Overlong(t.rest, l)
    ensures ReadBytes(t, l).Ok? ==> t.wire == 2 && |ReadBytes(t, l).value.value| <= |t.rest|
  {
    VarintNoPanic(t.rest, 0, 0);
    hide ReadVarint;
  }

  lemma UnknownPanics(d: Bytes, l: nat)
    requires |d| <= l <= TWO_62 && ReadTag(d).Ok?
    ensures var t := ReadTag(d).value;
            SkipField(d, l) == Err(OutOfRange) <==>
            || (t.wire == 2 && Overlong(t.rest, l) && !Overlong(t.rest, |d|))
            || (t.wire == 3 && GroupPanics(t.rest, |d|))
  {
    hide ReadVarint, Skip, GroupPanics, ReadTag, Overlong;
    TagSplits(d);
    SkipPanics(d);
    var t := ReadTag(d).value;
    if Skip(d).Ok? {
      FarSkip(d, l);
      FarSkip(d, |d|);
    }
    if t.wire == 2 && Overlong(t.rest, l) { OverlongSkips(d, l); }
  }

  lemma ReadsOn(y: Layout, d: Bytes, l: nat)
    requires d != [] && FieldAt(y, d, l).Ok? && Panics(y, FieldAt(y, d, l).value, l)
    ensures Panics(y, d, l)
  {
    hide FieldAt, FieldPanics;
    var ds :| Fields(y, FieldAt(y, d, l).value, ds, l) && FieldPanics(y, ds[|ds| - 1], l);
    var all := [d] + ds;
    assert all[|all| - 1] == ds[|ds| - 1];
    forall i | 0 <= i < |all| - 1 ensures all[i] != [] && FieldAt(y, all[i], l) == Ok(all[i + 1]) {
      if i > 0 { assert ds[i - 1] != [] && FieldAt(y, ds[i - 1], l) == Ok(ds[i]); }
    }
    assert Fields(y, d, all, l);
  }

  lemma ReadOn(y: Layout, d: Bytes, l: nat)
    requires Panics(y, d, l) && !FieldPanics(y, d, l)
    ensures d != [] && FieldAt(y, d, l).Ok? && Panics(y, FieldAt(y, d, l).value, l)
  {
    hide FieldAt, FieldPanics;
    var ds :| Fields(y, d, ds, l) && FieldPanics(y, ds[|ds| - 1], l);
    assert ds[0] != [] && FieldAt(y, ds[0], l) == Ok(ds[1]);
    var rest := ds[1..];
    forall i | 0 <= i < |rest| - 1 ensures rest[i] != [] && FieldAt(y, rest[i], l) == Ok(rest[i + 1]) {
      assert ds[i + 1] != [] && FieldAt(y, ds[i + 1], l) == Ok(ds[i + 2]);
    }
    assert Fields(y, ds[1], rest, l) && rest[|rest| - 1] == ds[|ds| - 1];
  }

  lemma {:induction false} FieldExact(y: Layout, d: Bytes, l: nat)
    requires d != [] && |d| <= l <= TWO_62
    ensures FieldAt(y, d, l) == Err(OutOfRange) <==> FieldPanics(y, d, l)
    decreases y, |d|, 0
  {
    TagNoPanic(d);
    hide ReadVarint, ReadBytes, SkipField, Overlong, GroupPanics, Panics, ReadTag;
    if ReadTag(d).Ok? {
      var t := ReadTag(d).value;
      BytesPanic(t, l);
      if t.num > |y.kinds| {
        UnknownPanics(d, l);
      } else if y.kinds[t.num - 1].Nested? && ReadBytes(t, l).Ok? {
        var b := ReadBytes(t, l).value.value;
        PanicExact(y.kinds[t.num - 1].layout, b, |b|);
      } else if y.kinds[t.num - 1].Number? {
        VarintNoPanic(t.rest, 0, 0);
      }
    }
  }

  /** Reading a message panics exactly at a field that does, after fields that are read or passed over. */
  lemma {:induction false} PanicExact(y: Layout, d: Bytes, l: nat)
    requires |d| <= l <= TWO_62
    ensures Check(y, d, l) == Err(OutOfRange) <==> Panics(y, d, l)
    decreases y, |d|, 1
  {
    assert FieldPanics(y, d, l) ==> d != [];
    hide FieldAt, FieldPanics;
    if d != [] { FieldExact(y, d, l); }
    if FieldPanics(y, d, l) {
      assert Fields(y, d, [d], l);
    } else {
      if d != [] && FieldAt(y, d, l).Ok? { PanicExact(y, FieldAt(y, d, l).value, l); }
      if Check(y, d, l) == Err(OutOfRange) { ReadsOn(y, d, l); }
      if Panics(y, d, l) { ReadOn(y, d, l); }
    }
  }

  /** Unmarshal of an instance state panics on exactly these buffers, whatever it unmarshals into. */
  lemma InstancePanics(m: StoredInstance, d: Bytes)
    requires |d| <= TWO_62
    ensures UnmarshalInstance(m, d, |d|) == Err(OutOfRange) <==> Panics(INSTANCE, d, |d|)
  {
    hide UnmarshalInstance, Check, Panics;
    InstanceAlike(m, d, |d|);
    PanicExact(INSTANCE, d, |d|);
  }

  /** So do the others. */
  lemma PartsPanic(span: Span, cmd: Command, id: InstanceID, ballot: Ballot, data: InstanceData, d: Bytes)
    requires |d| <= TWO_62
    ensures UnmarshalSpan(span, d, |d|) == Err(OutOfRange) <==> Panics(SPAN, d, |d|)
    ensures UnmarshalCommand(cmd, d, |d|) == Err(OutOfRange) <==> Panics(COMMAND, d, |d|)
    ensures UnmarshalId(id, d, |d|) == Err(OutOfRange) <==> Panics(ID, d, |d|)
    ensures UnmarshalBallot(ballot, d, |d|) == Err(OutOfRange) <==> Panics(BALLOT, d, |d|)
    ensures UnmarshalData(data, d, |d|) == Err(OutOfRange) <==> Panics(DATA, d, |d|)
  {
    hide UnmarshalSpan, UnmarshalCommand, UnmarshalId, UnmarshalBallot, UnmarshalData, Check, Panics;
    SpanAlike(span, d, |d|);
    PanicExact(SPAN, d, |d|);
    CommandAlike(cmd, d, |d|);
    PanicExact(COMMAND, d, |d|);
    IdAlike(id, d, |d|);
    PanicExact(ID, d, |d|);
    BallotAlike(ballot, d, |d|);
    PanicExact(BALLOT, d, |d|);
    DataAlike(data, d, |d|);
    PanicExact(DATA, d, |d|);
  }

  /** Such buffers exist: the length of a key that ends just beyond 2^63. */
  lemma KeyPanics(m: Span, v: nat, rest: Bytes)
    requires TWO_63 - 1 - |Varint(v)| <= v < TWO_63
    ensures var d := Varint(10) + (Varint(v) + rest); UnmarshalSpan(m, d, |d|) == Err(OutOfRange)
  {
    hide ReadVarint, Varint;
    var d := Varint(10) + (Varint(v) + rest);
    assert Varint(10) == [10] by { TagByte(10); }
    ReadTagBack(1, 2, Varint(v) + rest);
    VarintRoundTrip(v, rest);
  }
}
