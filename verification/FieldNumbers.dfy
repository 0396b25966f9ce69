/** The wire format of the messages by field number: what each field of a buffer does to a message, whatever stands
    before and after it, and which fields a message is written as (epaxos/epaxospb/epaxos.pb.go). */
module FieldNumbers {
  import opened Keys
  import opened Types
  import opened Wire

  // ----- Varints -----

  /** Seven bits of each byte, the first byte lowest. */
  function Value(d: Bytes): nat {
    if d == [] then 0 else d[0] % 128 + 128 * Value(d[1..])
  }

  /** All bytes but the last have the high bit. */
  predicate Complete(d: Bytes) {
    d != [] && d[|d| - 1] < 128 && forall i :: 0 <= i < |d| - 1 ==> d[i] >= 128
  }

  /** A number is written in digits of seven bits, the lowest first, and no more of them than it needs. */
  lemma {:induction false} VarintDigits(v: nat)
    ensures Value(Varint(v)) == v && Complete(Varint(v))
    ensures |Varint(v)| > 1 ==> Varint(v)[|Varint(v)| - 1] > 0
    decreases v
  {
    if v < 128 {
      assert [v][1..] == [];
    } else {
      VarintDigits(v / 128);
      assert Varint(v)[1..] == Varint(v / 128);
    }
  }

  lemma ModStep(x: nat, y: nat)
    ensures (x % TWO_64 + y) % TWO_64 == (x + y) % TWO_64
  {
    assert x == TWO_64 * (x / TWO_64) + x % TWO_64;
  }

  lemma ValueStep(d: Bytes, k: nat, acc: nat)
    requires d != []
    ensures ((acc + (d[0] % 128) * Pow128(k)) % TWO_64 + Value(d[1..]) * Pow128(k + 1)) % TWO_64 ==
            (acc + Value(d) * Pow128(k)) % TWO_64
  {
    var a, v, p := d[0] % 128, Value(d[1..]), Pow128(k);
    assert Value(d) * p == (a + 128 * v) * p == a * p + v * (128 * p);
    NonNeg(v, k + 1);
    NonNeg(a, k);
    ModStep(acc + a * p, v * Pow128(k + 1));
  }

  lemma {:induction false} ReadsValue(d: Bytes, rest: Bytes, k: nat, acc: nat)
    requires Complete(d) && k + |d| <= 10 && acc < TWO_64
    ensures ReadVarint(d + rest, k, acc) == Ok(Read((acc + Value(d) * Pow128(k)) % TWO_64, rest))
    decreases |d|
  {
    var all := d + rest;
    assert all[0] == d[0] && all[1..] == d[1..] + rest;
    hide Pow128;
    ValueStep(d, k, acc);
    if |d| == 1 {
      assert d[1..] == [] && all[1..] == rest;
      assert Value(d[1..]) * Pow128(k + 1) == 0;
    } else {
      ReadsValue(d[1..], rest, k + 1, (acc + (d[0] % 128) * Pow128(k)) % TWO_64);
    }
  }

  lemma {:induction false} ReadsNothing(d: Bytes, k: nat, acc: nat)
    requires k <= 10 && forall i :: 0 <= i < |d| && k + i < 10 ==> d[i] >= 128
    ensures ReadVarint(d, k, acc) == Err(if k + |d| >= 10 then Overflow else UnexpectedEOF)
    decreases |d|
  {
    if k < 10 && d != [] {
      ReadsNothing(d[1..], k + 1, (acc + (d[0] % 128) * Pow128(k)) % TWO_64);
    }
  }

  /** Reading a number, exactly: at most ten bytes up to the first without the high bit, modulo 2^64, needless digits
      allowed; else the buffer ends too early or the number is too long. */
  lemma VarintExact(d: Bytes, rest: Bytes)
    ensures Complete(d) && |d| <= 10 ==> ReadVarint(d + rest, 0, 0) == Ok(Read(Value(d) % TWO_64, rest))
    ensures |d| < 10 && (forall i :: 0 <= i < |d| ==> d[i] >= 128) ==> ReadVarint(d, 0, 0) == Err(UnexpectedEOF)
    ensures |d| == 10 && (forall i :: 0 <= i < 10 ==> d[i] >= 128) ==> ReadVarint(d + rest, 0, 0) == Err(Overflow)
  {
    if Complete(d) && |d| <= 10 { ReadsValue(d, rest, 0, 0); }
    if |d| < 10 && forall i :: 0 <= i < |d| ==> d[i] >= 128 { ReadsNothing(d, 0, 0); }
    if |d| == 10 && forall i :: 0 <= i < 10 ==> d[i] >= 128 { ReadsNothing(d + rest, 0, 0); }
  }

  // ----- Reading one field -----

  /** A 32-bit integer keeps the low bits, as a two's complement number. */
  lemma Int32Exact(v: nat)
    ensures -TWO_31 <= Int32(v) < TWO_31 && (v - Int32(v)) % TWO_32 == 0
  {
  }

  lemma SmallNumber(num: nat)
    requires num < TWO_31
    ensures Int32(num) == num
  {
  }

  lemma FieldTag(f: Field, rest: Bytes)
    requires FieldFits(f)
    ensures ReadTag(Encode(f) + rest) == Ok(Tag(f.num, WireOf(f), Payload(f) + rest))
  {
    assert WireOf(f) != 4;
    hide Varint, ReadVarint, FieldFits, Encode, Payload, WireOf, Int32;
    TagThen(f, rest);
    FieldNum(f);
    SmallNumber(f.num);
  }

  lemma FieldNumber(f: Field, rest: Bytes)
    requires FieldFits(f)
    ensures ReadNum(Tag(f.num, WireOf(f), Payload(f) + rest)) ==
            if f.VarintField? then Ok(Read(f.v, rest)) else Err(WrongWireType)
  {
    FieldValue(f);
    hide Varint, ReadVarint, FieldFits, EncodeAll;
    if f.VarintField? { VarintRoundTrip(f.v, rest); }
  }

  lemma FieldContents(f: Field, rest: Bytes, l: nat)
    requires |Encode(f)| + |rest| <= l < TWO_63
    ensures ReadBytes(Tag(f.num, WireOf(f), Payload(f) + rest), l) ==
            if f.DelimitedField? then Ok(Read(f.b, rest)) else Err(WrongWireType)
  {
    hide Varint, ReadVarint, EncodeAll;
    if f.DelimitedField? {
      assert Payload(f) + rest == Varint(|f.b|) + (f.b + rest);
      VarintRoundTrip(|f.b|, f.b + rest);
      assert (f.b + rest)[..|f.b|] == f.b && (f.b + rest)[|f.b|..] == rest;
    }
  }

  /** What the reading functions make of the field f. */
  lemma ReadField(f: Field, rest: Bytes, l: nat)
    requires FieldFits(f) && |Encode(f)| + |rest| <= l < TWO_63
    ensures Encode(f) + rest != [] && ReadTag(Encode(f) + rest).Ok?
    ensures var t := ReadTag(Encode(f) + rest).value;
            && t.num == f.num
            && ReadNum(t) == (if f.VarintField? then Ok(Read(f.v, rest)) else Err(WrongWireType))
            && ReadBytes(t, l) == (if f.DelimitedField? then Ok(Read(f.b, rest)) else Err(WrongWireType))
    ensures SkipField(Encode(f) + rest, l) == Ok(rest)
  {
    hide ReadTag, ReadNum, ReadBytes, SkipField, FieldFits, Encode, Payload, WireOf;
    SkipUnknown(f, rest, l);
    FieldTag(f, rest);
    FieldNumber(f, rest);
    FieldContents(f, rest, l);
  }

  lemma IdField(m: InstanceID, f: Field, rest: Bytes, l: nat)
    requires FieldFits(f) && |Encode(f)| + |rest| <= l < TWO_63
    ensures UnmarshalId(m, Encode(f) + rest, l) ==
            match f.num {
              case 1 => if f.VarintField? then UnmarshalId(m.(replica := f.v), rest, l) else Err(WrongWireType)
              case 2 => if f.VarintField? then UnmarshalId(m.(num := f.v), rest, l) else Err(WrongWireType)
              case _ => UnmarshalId(m, rest, l)
            }
  {
    ReadField(f, rest, l);
    hide ReadTag, ReadNum, ReadBytes, SkipField, FieldFits, Encode;
  }

  lemma BallotField(m: Ballot, f: Field, rest: Bytes, l: nat)
    requires FieldFits(f) && |Encode(f)| + |rest| <= l < TWO_63
    ensures UnmarshalBallot(m, Encode(f) + rest, l) ==
            match f.num {
              case 1 => if f.VarintField? then UnmarshalBallot(m.(epoch := f.v), rest, l) else Err(WrongWireType)
              case 2 => if f.VarintField? then UnmarshalBallot(m.(number := f.v), rest, l) else Err(WrongWireType)
              case 3 => if f.VarintField? then UnmarshalBallot(m.(replica := f.v), rest, l) else Err(WrongWireType)
              case _ => UnmarshalBallot(m, rest, l)
            }
  {
    ReadField(f, rest, l);
    hide ReadTag, ReadNum, ReadBytes, SkipField, FieldFits, Encode;
  }

  lemma SpanField(m: Span, f: Field, rest: Bytes, l: nat)
    requires FieldFits(f) && |Encode(f)| + |rest| <= l < TWO_63
    ensures UnmarshalSpan(m, Encode(f) + rest, l) ==
            match f.num {
              case 1 => if f.DelimitedField? then UnmarshalSpan(m.(key := f.b), rest, l) else Err(WrongWireType)
              case 2 => if f.DelimitedField? then UnmarshalSpan(m.(endKey := f.b), rest, l) else Err(WrongWireType)
              case _ => UnmarshalSpan(m, rest, l)
            }
  {
    ReadField(f, rest, l);
    hide ReadTag, ReadNum, ReadBytes, SkipField, FieldFits, Encode;
  }

  lemma CommandField(m: Command, f: Field, rest: Bytes, l: nat)
    requires FieldFits(f) && |Encode(f)| + |rest| <= l < TWO_63
    ensures UnmarshalCommand(m, Encode(f) + rest, l) ==
            match f.num {
              case 1 => if f.VarintField? then UnmarshalCommand(m.(id := f.v), rest, l) else Err(WrongWireType)
              case 2 =>
                if !f.DelimitedField? then Err(WrongWireType) else
                  var span :- UnmarshalSpan(m.span, f.b, |f.b|);
                  UnmarshalCommand(m.(span := span), rest, l)
              case 3 =>
                if f.VarintField? then UnmarshalCommand(m.(writing := f.v != 0), rest, l) else Err(WrongWireType)
              case 4 => if f.DelimitedField? then UnmarshalCommand(m.(data := f.b), rest, l) else Err(WrongWireType)
              case _ => UnmarshalCommand(m, rest, l)
            }
  {
    ReadField(f, rest, l);
    hide ReadTag, ReadNum, ReadBytes, SkipField, FieldFits, Encode, UnmarshalSpan;
  }

  lemma DataField(m: InstanceData, f: Field, rest: Bytes, l: nat)
    requires FieldFits(f) && |Encode(f)| + |rest| <= l < TWO_63
    ensures UnmarshalData(m, Encode(f) + rest, l) ==
            match f.num {
              case 1 =>
                if !f.DelimitedField? then Err(WrongWireType) else
                  var cmd :- UnmarshalCommand(if m.cmd.Some? then m.cmd.value else NO_COMMAND, f.b, |f.b|);
                  UnmarshalData(m.(cmd := Some(cmd)), rest, l)
              case 2 => if f.VarintField? then UnmarshalData(m.(seqNum := f.v), rest, l) else Err(WrongWireType)
              case 3 =>
                if !f.DelimitedField? then Err(WrongWireType) else
                  var id :- UnmarshalId(NO_ID, f.b, |f.b|);
                  UnmarshalData(m.(deps := m.deps + [id]), rest, l)
              case _ => UnmarshalData(m, rest, l)
            }
  {
    ReadField(f, rest, l);
    hide ReadTag, ReadNum, ReadBytes, SkipField, FieldFits, Encode, UnmarshalCommand, UnmarshalId;
  }

  lemma InstanceField(m: StoredInstance, f: Field, rest: Bytes, l: nat)
    requires FieldFits(f) && |Encode(f)| + |rest| <= l < TWO_63
    ensures UnmarshalInstance(m, Encode(f) + rest, l) ==
            match f.num {
              case 1 =>
                if !f.DelimitedField? then Err(WrongWireType) else
                  var id :- UnmarshalId(m.id, f.b, |f.b|);
                  UnmarshalInstance(m.(id := id), rest, l)
              case 2 =>
                if f.VarintField? then UnmarshalInstance(m.(status := Int32(f.v)), rest, l) else Err(WrongWireType)
              case 3 =>
                if !f.DelimitedField? then Err(WrongWireType) else
                  var data :- UnmarshalData(m.data, f.b, |f.b|);
                  UnmarshalInstance(m.(data := data), rest, l)
              case 4 =>
                if !f.DelimitedField? then Err(WrongWireType) else
                  var ballot :- UnmarshalBallot(if m.ballot.Some? then m.ballot.value else NO_BALLOT, f.b, |f.b|);
                  UnmarshalInstance(m.(ballot := Some(ballot)), rest, l)
              case _ => UnmarshalInstance(m, rest, l)
            }
  {
    ReadField(f, rest, l);
    hide ReadTag, ReadNum, ReadBytes, SkipField, FieldFits, Encode, UnmarshalId, UnmarshalData, UnmarshalBallot;
  }

  /** A field number of zero or below, and the end of a group that was not begun, are errors of every message. */
  lemma BadTag(w: nat, rest: Bytes)
    requires w < TWO_64 && (w % 8 == 4 || Int32(w / 8) <= 0)
    ensures ReadTag(Varint(w) + rest) == Err(if w % 8 == 4 then EndGroup else IllegalTag)
  {
    VarintRoundTrip(w, rest);
    hide Varint, ReadVarint;
  }

  // ----- Written fields -----

  function NumList(num: nat, v: nat): seq<Field> {
    if v == 0 then [] else [VarintField(num, v)]
  }

  function BytesList(num: nat, b: Bytes): seq<Field> {
    if b == [] then [] else [DelimitedField(num, b)]
  }

  function SpanList(m: Span): seq<Field> {
    BytesList(1, m.key) + BytesList(2, m.endKey)
  }

  function CommandList(m: Command): seq<Field> {
    NumList(1, m.id) + [DelimitedField(2, EncodeAll(SpanList(m.span)))]
    + (if m.writing then [VarintField(3, 1)] else []) + BytesList(4, m.data)
  }

  function IdList(m: InstanceID): seq<Field> {
    NumList(1, m.replica) + NumList(2, m.num)
  }

  function BallotList(m: Ballot): seq<Field> {
    NumList(1, m.epoch) + NumList(2, m.number) + NumList(3, m.replica)
  }

  function DepsList(deps: seq<InstanceID>): seq<Field> {
    if deps == [] then [] else [DelimitedField(3, EncodeAll(IdList(deps[0])))] + DepsList(deps[1..])
  }

  function DataList(m: InstanceData): seq<Field> {
    (if m.cmd.Some? then [DelimitedField(1, EncodeAll(CommandList(m.cmd.value)))] else [])
    + NumList(2, m.seqNum) + DepsList(m.deps)
  }

  /** A negative status is written as the 64-bit number with the same bits. */
  function InstanceList(m: StoredInstance): seq<Field>
    requires -TWO_31 <= m.status < TWO_31
  {
    [DelimitedField(1, EncodeAll(IdList(m.id)))]
    + NumList(2, if m.status >= 0 then m.status else m.status + TWO_64)
    + [DelimitedField(3, EncodeAll(DataList(m.data)))]
    + (if m.ballot.Some? then [DelimitedField(4, EncodeAll(BallotList(m.ballot.value)))] else [])
  }

  lemma {:induction false} EncodeJoin(a: seq<Field>, b: seq<Field>)
    ensures EncodeAll(a + b) == EncodeAll(a) + EncodeAll(b)
  {
    hide Encode;
    if a == [] {
      assert a + b == b;
    } else {
      assert (a + b)[1..] == a[1..] + b;
      EncodeJoin(a[1..], b);
    }
  }

  lemma EncodeNone()
    ensures EncodeAll([]) == []
  {
  }

  lemma EncodeOne(f: Field)
    ensures EncodeAll([f]) == Encode(f)
  {
    hide Encode;
    assert [f][1..] == [];
  }

  lemma NumWritten(num: nat, v: nat)
    ensures NumField(num, v) == EncodeAll(NumList(num, v))
  {
    if v != 0 { EncodeOne(VarintField(num, v)); }
  }

  lemma BytesWritten(num: nat, b: Bytes)
    ensures BytesField(num, b) == EncodeAll([DelimitedField(num, b)])
    ensures OptBytesField(num, b) == EncodeAll(BytesList(num, b))
  {
    EncodeOne(DelimitedField(num, b));
    assert Varint(8 * num + 2) + Varint(|b|) + b == Varint(8 * num + 2) + (Varint(|b|) + b);
  }

  lemma SpanWritten(m: Span)
    ensures MarshalSpan(m) == EncodeAll(SpanList(m))
  {
    hide OptBytesField, EncodeAll, BytesList;
    BytesWritten(1, m.key);
    BytesWritten(2, m.endKey);
    EncodeJoin(BytesList(1, m.key), BytesList(2, m.endKey));
  }

  lemma CommandWritten(m: Command)
    ensures MarshalCommand(m) == EncodeAll(CommandList(m))
  {
    hide OptBytesField, BytesField, NumField, EncodeAll, BytesList, MarshalSpan, SpanList;
    SpanWritten(m.span);
    var a, b := NumList(1, m.id), [DelimitedField(2, EncodeAll(SpanList(m.span)))];
    var w := if m.writing then [VarintField(3, 1)] else [];
    assert w == NumList(3, if m.writing then 1 else 0);
    hide NumList;
    NumWritten(1, m.id);
    BytesWritten(2, MarshalSpan(m.span));
    NumWritten(3, if m.writing then 1 else 0);
    BytesWritten(4, m.data);
    EncodeJoin(a, b);
    EncodeJoin(a + b, w);
    EncodeJoin(a + b + w, BytesList(4, m.data));
  }

  lemma IdWritten(m: InstanceID)
    ensures MarshalId(m) == EncodeAll(IdList(m))
  {
    hide NumField, EncodeAll, NumList;
    NumWritten(1, m.replica);
    NumWritten(2, m.num);
    EncodeJoin(NumList(1, m.replica), NumList(2, m.num));
  }

  lemma BallotWritten(m: Ballot)
    ensures MarshalBallot(m) == EncodeAll(BallotList(m))
  {
    hide NumField, EncodeAll, NumList;
    NumWritten(1, m.epoch);
    NumWritten(2, m.number);
    NumWritten(3, m.replica);
    EncodeJoin(NumList(1, m.epoch), NumList(2, m.number));
    EncodeJoin(NumList(1, m.epoch) + NumList(2, m.number), NumList(3, m.replica));
  }

  lemma {:induction false} DepsWritten(deps: seq<InstanceID>)
    ensures MarshalDeps(deps) == EncodeAll(DepsList(deps))
  {
    hide BytesField, MarshalId, IdList;
    if deps != [] {
      IdWritten(deps[0]);
      DepsWritten(deps[1..]);
      var head := [DelimitedField(3, EncodeAll(IdList(deps[0])))];
      BytesWritten(3, MarshalId(deps[0]));
      EncodeJoin(head, DepsList(deps[1..]));
    }
  }

  lemma DataWritten(m: InstanceData)
    ensures MarshalData(m) == EncodeAll(DataList(m))
  {
    var a := if m.cmd.Some? then [DelimitedField(1, EncodeAll(CommandList(m.cmd.value)))] else [];
    var d1 := if m.cmd.Some? then BytesField(1, MarshalCommand(m.cmd.value)) else [];
    assert d1 == EncodeAll(a) by {
      if m.cmd.Some? {
        CommandWritten(m.cmd.value);
        BytesWritten(1, MarshalCommand(m.cmd.value));
      }
    }
    hide NumField, BytesField, EncodeAll, NumList, MarshalCommand, MarshalDeps, DepsList, CommandList;
    NumWritten(2, m.seqNum);
    DepsWritten(m.deps);
    EncodeJoin(a, NumList(2, m.seqNum));
    EncodeJoin(a + NumList(2, m.seqNum), DepsList(m.deps));
  }

  lemma EncodeFour(a: seq<Field>, b: seq<Field>, c: seq<Field>, d: seq<Field>)
    ensures EncodeAll(a + b + c + d) == EncodeAll(a) + EncodeAll(b) + EncodeAll(c) + EncodeAll(d)
  {
    hide EncodeAll;
    EncodeJoin(a, b);
    EncodeJoin(a + b, c);
    EncodeJoin(a + b + c, d);
  }

  lemma StatusBits(v: int)
    requires -TWO_31 <= v < TWO_31
    ensures Uint64(v) == if v >= 0 then v else v + TWO_64
  {
  }

  /** An instance state is written as these fields, in the order of their numbers; zero numbers and empty byte fields
      are left out, nested messages are not. */
  lemma InstanceWritten(m: StoredInstance)
    requires -TWO_31 <= m.status < TWO_31
    ensures MarshalInstance(m) == EncodeAll(InstanceList(m))
  {
    hide NumField, BytesField, EncodeAll, NumList, MarshalId, MarshalData, MarshalBallot, IdList, DataList, BallotList,
      Uint64;
    StatusBits(m.status);
    IdWritten(m.id);
    BytesWritten(1, MarshalId(m.id));
    NumWritten(2, Uint64(m.status));
    DataWritten(m.data);
    BytesWritten(3, MarshalData(m.data));
    var d := if m.ballot.Some? then [DelimitedField(4, EncodeAll(BallotList(m.ballot.value)))] else [];
    assert EncodeAll(d) == if m.ballot.Some? then BytesField(4, MarshalBallot(m.ballot.value)) else [] by {
      if m.ballot.Some? {
        BallotWritten(m.ballot.value);
        BytesWritten(4, MarshalBallot(m.ballot.value));
      } else {
        EncodeNone();
      }
    }
    EncodeFour([DelimitedField(1, EncodeAll(IdList(m.id)))], NumList(2, Uint64(m.status)),
               [DelimitedField(3, EncodeAll(DataList(m.data)))], d);
  }
}
