/** The Protocol Buffers encoding of instance states, as functions on byte
    sequences (epaxos/epaxospb/epaxos.pb.go). */
module Wire {
  import opened Keys
  import opened Types

  type Bytes = seq<byte>

  /** The last is no error that Unmarshal returns: the runtime panics on an index that wrapped around. */
  datatype WireError =
    | Overflow | UnexpectedEOF | InvalidLength | EndGroup | IllegalTag | WrongWireType | IllegalWireType | OutOfRange

  datatype Result<+T> = Ok(value: T) | Err(error: WireError) {
    predicate IsFailure() { Err? }
    function PropagateFailure<U>(): Result<U>
      requires Err?
    {
      Err(error)
    }
    function Extract(): T
      requires Ok?
    {
      value
    }
  }

  const TWO_31: int := 0x8000_0000
  const TWO_32: nat := 0x1_0000_0000
  const TWO_63: nat := 0x8000_0000_0000_0000
  const TWO_64: nat := 0x1_0000_0000_0000_0000

  // ----- Varints -----

  function Varint(v: nat): Bytes {
    if v < 128 then [v] else [v % 128 + 128] + Varint(v / 128)
  }

  function Pow128(k: nat): nat {
    if k == 0 then 1 else 128 * Pow128(k - 1)
  }

  /** A value and what follows it. */
  datatype Read<+T> = Read(value: T, rest: Bytes)

  /** The reading loop after k bytes with the accumulator acc, which holds 64 bits. */
  function ReadVarint(d: Bytes, k: nat, acc: nat): (r: Result<Read<nat>>)
    ensures r.Ok? ==> |r.value.rest| < |d| && (acc < TWO_64 ==> r.value.value < TWO_64)
    decreases |d|
  {
    if k >= 10 then Err(Overflow)
    else if d == [] then Err(UnexpectedEOF)
    else
      var acc' := (acc + (d[0] % 128) * Pow128(k)) % TWO_64;
      if d[0] < 128 then Ok(Read(acc', d[1..])) else ReadVarint(d[1..], k + 1, acc')
  }

  lemma TagByte(v: nat)
    requires v < 128
    ensures Varint(v) == [v]
  {
  }

  lemma {:induction false} VarintSize(v: nat, n: nat)
    requires n > 0 && v < Pow128(n)
    ensures 1 <= |Varint(v)| <= n
  {
    if v >= 128 {
      assert Pow128(n) == 128 * Pow128(n - 1);
      assert Pow128(1) == 128;
      VarintSize(v / 128, n - 1);
    }
  }

  lemma TenBytes(v: nat)
    requires v < TWO_64
    ensures 1 <= |Varint(v)| <= 10
  {
    assert Pow128(10) == 0x40_0000_0000_0000_0000 by {
      assert Pow128(2) == 0x4000;
      assert Pow128(4) == 0x1000_0000;
      assert Pow128(6) == 0x400_0000_0000;
      assert Pow128(8) == 0x100_0000_0000_0000;
    }
    VarintSize(v, 10);
  }

  lemma SplitVarint(v: nat, k: nat, acc: nat)
    ensures (acc + (v % 128) * Pow128(k)) + (v / 128) * Pow128(k + 1) == acc + v * Pow128(k)
  {
    var p, q, r := Pow128(k), v / 128, v % 128;
    assert v == 128 * q + r;
    assert v * p == (128 * q + r) * p == 128 * q * p + r * p;
    assert q * Pow128(k + 1) == q * (128 * p) == 128 * q * p;
  }

  /** One turn of the reading loop, as long as the value fits 64 bits. */
  lemma ReadOne(d: Bytes, k: nat, acc: nat)
    requires d != [] && k < 10 && acc + (d[0] % 128) * Pow128(k) < TWO_64
    ensures var acc' := acc + (d[0] % 128) * Pow128(k);
            ReadVarint(d, k, acc) == if d[0] < 128 then Ok(Read(acc', d[1..])) else ReadVarint(d[1..], k + 1, acc')
  {
  }

  lemma NonNeg(a: nat, k: nat)
    ensures a * Pow128(k) >= 0
  {
  }

  lemma {:induction false} ReadVarintBack(v: nat, k: nat, acc: nat, rest: Bytes)
    requires acc + v * Pow128(k) < TWO_64 && k + |Varint(v)| <= 10
    ensures ReadVarint(Varint(v) + rest, k, acc) == Ok(Read(acc + v * Pow128(k), rest))
    decreases v
  {
    var d := Varint(v) + rest;
    assert |Varint(v)| > 0;
    hide ReadVarint, Pow128;
    SplitVarint(v, k, acc);
    NonNeg(v / 128, k + 1);
    if v < 128 {
      assert d[0] == v && d[1..] == rest;
      ReadOne(d, k, acc);
    } else {
      assert d[0] == v % 128 + 128 && d[1..] == Varint(v / 128) + rest;
      ReadOne(d, k, acc);
      ReadVarintBack(v / 128, k + 1, acc + (v % 128) * Pow128(k), rest);
    }
  }

  /** Varint round trip over all 64-bit values. */
  lemma VarintRoundTrip(v: nat, rest: Bytes)
    requires v < TWO_64
    ensures ReadVarint(Varint(v) + rest, 0, 0) == Ok(Read(v, rest))
  {
    TenBytes(v);
    ReadVarintBack(v, 0, 0, rest);
  }

  // ----- Fields -----

  /** A field number with its wire type: 0 for a varint, 2 for length-delimited bytes. */
  datatype Tag = Tag(num: nat, wire: nat, rest: Bytes)

  function Int32(v: nat): int {
    var w := v % TWO_32;
    if w < TWO_31 then w else w - TWO_32
  }

  function ReadTag(d: Bytes): (r: Result<Tag>)
    ensures r.Ok? ==> |r.value.rest| < |d| && r.value.num > 0
  {
    var w :- ReadVarint(d, 0, 0);
    var num := Int32(w.value / 8);
    if w.value % 8 == 4 then Err(EndGroup)
    else if num <= 0 then Err(IllegalTag)
    else Ok(Tag(num, w.value % 8, w.rest))
  }

  function ReadNum(t: Tag): (r: Result<Read<nat>>)
    ensures r.Ok? ==> |r.value.rest| < |t.rest| && r.value.value < TWO_64
  {
    if t.wire != 0 then Err(WrongWireType) else ReadVarint(t.rest, 0, 0)
  }

  /** The contents of a length-delimited field in a buffer of l bytes. The index after it is a signed 64-bit number. */
  function ReadBytes(t: Tag, l: nat): (r: Result<Read<Bytes>>)
    ensures r.Ok? ==> |r.value.rest| < |t.rest|
  {
    if t.wire != 2 then Err(WrongWireType) else
      var len :- ReadVarint(t.rest, 0, 0);
      if len.value >= TWO_63 then Err(InvalidLength)
      else if l - |len.rest| + len.value >= TWO_63 then Err(OutOfRange)
      else if len.value > |len.rest| then Err(UnexpectedEOF)
      else Ok(Read(len.rest[..len.value], len.rest[len.value..]))
  }

  function NumField(num: nat, v: nat): Bytes {
    if v == 0 then [] else Varint(8 * num) + Varint(v)
  }

  function BytesField(num: nat, b: Bytes): Bytes {
    Varint(8 * num + 2) + Varint(|b|) + b
  }

  function OptBytesField(num: nat, b: Bytes): Bytes {
    if b == [] then [] else BytesField(num, b)
  }

  lemma ReadTagBack(num: nat, wire: nat, rest: Bytes)
    requires 0 < num < 16 && wire in {0, 2}
    ensures ReadTag(Varint(8 * num + wire) + rest) == Ok(Tag(num, wire, rest))
  {
    hide Varint, ReadVarint;
    VarintRoundTrip(8 * num + wire, rest);
    assert (8 * num + wire) / 8 == num && (8 * num + wire) % 8 == wire;
  }

  lemma NumFieldBack(num: nat, v: nat, rest: Bytes)
    requires 0 < num < 16 && 0 < v < TWO_64
    ensures var d := NumField(num, v) + rest;
            d != [] && ReadTag(d).Ok? && ReadTag(d).value.num == num && ReadNum(ReadTag(d).value) == Ok(Read(v, rest))
  {
    hide ReadVarint, Varint;
    assert NumField(num, v) + rest == Varint(8 * num + 0) + (Varint(v) + rest);
    ReadTagBack(num, 0, Varint(v) + rest);
    VarintRoundTrip(v, rest);
    TenBytes(v);
  }

  lemma BytesFieldBack(num: nat, b: Bytes, rest: Bytes, l: nat)
    requires 0 < num < 16 && |BytesField(num, b)| + |rest| <= l < TWO_63
    ensures var d := BytesField(num, b) + rest;
            d != [] && ReadTag(d).Ok? && ReadTag(d).value.num == num
            && ReadBytes(ReadTag(d).value, l) == Ok(Read(b, rest))
  {
    hide ReadVarint, Varint;
    var tail := Varint(|b|) + (b + rest);
    assert BytesField(num, b) + rest == Varint(8 * num + 2) + tail;
    ReadTagBack(num, 2, tail);
    VarintRoundTrip(|b|, b + rest);
    assert (b + rest)[..|b|] == b && (b + rest)[|b|..] == rest;
    TenBytes(|b|);
  }

  // ----- Unknown fields -----

  /** How many bytes the field at the start of d takes, which may be more than d has. Indexes are signed 64-bit
      numbers in the source: what is 2^63 or more here is negative there. */
  function Skip(d: Bytes): (r: Result<nat>)
    ensures r.Ok? ==> r.value > 0
    decreases |d|, 0
  {
    var w :- ReadVarint(d, 0, 0);
    var used := |d| - |w.rest|;
    match w.value % 8
    case 0 => var v :- ReadVarint(w.rest, 0, 0); Ok(|d| - |v.rest|)
    case 1 => Ok(used + 8)
    case 2 =>
      var len :- ReadVarint(w.rest, 0, 0);
      if len.value >= TWO_63 then Err(InvalidLength) else Ok(|d| - |len.rest| + len.value)
    case 3 => var n :- SkipGroup(w.rest, |d|); Ok(used + n)
    case 4 => Ok(used)
    case 5 => Ok(used + 4)
    case _ => Err(IllegalWireType)
  }

  /** The fields of a group up to and including its end tag; d is the end of a buffer of l bytes. */
  function SkipGroup(d: Bytes, l: nat): (r: Result<nat>)
    decreases |d|, 1
  {
    var inner :- ReadVarint(d, 0, 0);
    if inner.value % 8 == 4 then Ok(|d| - |inner.rest|) else
      var n :- Skip(d);
      if l - |d| + n >= TWO_63 then Err(OutOfRange)
      else if n > |d| then Err(UnexpectedEOF)
      else
        var m :- SkipGroup(d[n..], l);
        Ok(n + m)
  }

  /** What follows the field at the start of d, the end of a buffer of l bytes. */
  function SkipField(d: Bytes, l: nat): (r: Result<Bytes>)
    ensures r.Ok? ==> |r.value| < |d| || d == []
  {
    var n :- Skip(d);
    if n >= TWO_63 then Err(InvalidLength)
    else if l - |d| + n >= TWO_63 then Err(OutOfRange)
    else if n > |d| then Err(UnexpectedEOF)
    else Ok(d[n..])
  }

  // ----- Messages -----

  datatype Ballot = Ballot(epoch: nat, number: nat, replica: ReplicaID)

  datatype InstanceData = InstanceData(cmd: Option<Command>, seqNum: nat, deps: seq<InstanceID>)

  /** The status is a 32-bit integer, which Unmarshal does not check against the declared values. */
  datatype StoredInstance = StoredInstance(id: InstanceID, status: int, data: InstanceData, ballot: Option<Ballot>)

  const NO_SPAN := Span([], [])
  const NO_COMMAND := Command(0, NO_SPAN, false, [])
  const NO_ID := InstanceID(0, 0)
  const NO_BALLOT := Ballot(0, 0, 0)
  const NO_DATA := InstanceData(None, 0, [])
  const NO_INSTANCE := StoredInstance(NO_ID, 0, NO_DATA, None)

  function MarshalSpan(m: Span): Bytes {
    OptBytesField(1, m.key) + OptBytesField(2, m.endKey)
  }

  function MarshalCommand(m: Command): Bytes {
    NumField(1, m.id) + BytesField(2, MarshalSpan(m.span)) + NumField(3, if m.writing then 1 else 0)
    + OptBytesField(4, m.data)
  }

  function MarshalId(m: InstanceID): Bytes {
    NumField(1, m.replica) + NumField(2, m.num)
  }

  function MarshalBallot(m: Ballot): Bytes {
    NumField(1, m.epoch) + NumField(2, m.number) + NumField(3, m.replica)
  }

  function MarshalDeps(deps: seq<InstanceID>): Bytes {
    if deps == [] then [] else BytesField(3, MarshalId(deps[0])) + MarshalDeps(deps[1..])
  }

  function MarshalData(m: InstanceData): Bytes {
    (if m.cmd.Some? then BytesField(1, MarshalCommand(m.cmd.value)) else []) + NumField(2, m.seqNum)
    + MarshalDeps(m.deps)
  }

  /** The conversion of a 32-bit integer to 64 bits without a sign. */
  function Uint64(v: int): nat {
    v % TWO_64
  }

  function MarshalInstance(m: StoredInstance): Bytes {
    BytesField(1, MarshalId(m.id)) + NumField(2, Uint64(m.status)) + BytesField(3, MarshalData(m.data))
    + (if m.ballot.Some? then BytesField(4, MarshalBallot(m.ballot.value)) else [])
  }

  /** Unmarshal of Span merges the fields in d, the end of a buffer of l bytes, into m. */
  function UnmarshalSpan(m: Span, d: Bytes, l: nat): Result<Span>
    decreases |d|
  {
    if d == [] then Ok(m) else
      var t :- ReadTag(d);
      match t.num
      case 1 => var b :- ReadBytes(t, l); UnmarshalSpan(m.(key := b.value), b.rest, l)
      case 2 => var b :- ReadBytes(t, l); UnmarshalSpan(m.(endKey := b.value), b.rest, l)
      case _ => var rest :- SkipField(d, l); UnmarshalSpan(m, rest, l)
  }

  function UnmarshalCommand(m: Command, d: Bytes, l: nat): Result<Command>
    decreases |d|
  {
    if d == [] then Ok(m) else
      var t :- ReadTag(d);
      match t.num
      case 1 => var v :- ReadNum(t); UnmarshalCommand(m.(id := v.value), v.rest, l)
      case 2 =>
        var b :- ReadBytes(t, l);
        var span :- UnmarshalSpan(m.span, b.value, |b.value|);
        UnmarshalCommand(m.(span := span), b.rest, l)
      case 3 => var v :- ReadNum(t); UnmarshalCommand(m.(writing := v.value != 0), v.rest, l)
      case 4 => var b :- ReadBytes(t, l); UnmarshalCommand(m.(data := b.value), b.rest, l)
      case _ => var rest :- SkipField(d, l); UnmarshalCommand(m, rest, l)
  }

  function UnmarshalId(m: InstanceID, d: Bytes, l: nat): Result<InstanceID>
    decreases |d|
  {
    if d == [] then Ok(m) else
      var t :- ReadTag(d);
      match t.num
      case 1 => var v :- ReadNum(t); UnmarshalId(m.(replica := v.value), v.rest, l)
      case 2 => var v :- ReadNum(t); UnmarshalId(m.(num := v.value), v.rest, l)
      case _ => var rest :- SkipField(d, l); UnmarshalId(m, rest, l)
  }

  function UnmarshalBallot(m: Ballot, d: Bytes, l: nat): Result<Ballot>
    decreases |d|
  {
    if d == [] then Ok(m) else
      var t :- ReadTag(d);
      match t.num
      case 1 => var v :- ReadNum(t); UnmarshalBallot(m.(epoch := v.value), v.rest, l)
      case 2 => var v :- ReadNum(t); UnmarshalBallot(m.(number := v.value), v.rest, l)
      case 3 => var v :- ReadNum(t); UnmarshalBallot(m.(replica := v.value), v.rest, l)
      case _ => var rest :- SkipField(d, l); UnmarshalBallot(m, rest, l)
  }

  function UnmarshalData(m: InstanceData, d: Bytes, l: nat): Result<InstanceData>
    decreases |d|
  {
    if d == [] then Ok(m) else
      var t :- ReadTag(d);
      match t.num
      case 1 =>
        var b :- ReadBytes(t, l);
        var cmd :- UnmarshalCommand(if m.cmd.Some? then m.cmd.value else NO_COMMAND, b.value, |b.value|);
        UnmarshalData(m.(cmd := Some(cmd)), b.rest, l)
      case 2 => var v :- ReadNum(t); UnmarshalData(m.(seqNum := v.value), v.rest, l)
      case 3 =>
        var b :- ReadBytes(t, l);
        var id :- UnmarshalId(NO_ID, b.value, |b.value|);
        UnmarshalData(m.(deps := m.deps + [id]), b.rest, l)
      case _ => var rest :- SkipField(d, l); UnmarshalData(m, rest, l)
  }

  function UnmarshalInstance(m: StoredInstance, d: Bytes, l: nat): Result<StoredInstance>
    decreases |d|
  {
    if d == [] then Ok(m) else
      var t :- ReadTag(d);
      match t.num
      case 1 =>
        var b :- ReadBytes(t, l);
        var id :- UnmarshalId(m.id, b.value, |b.value|);
        UnmarshalInstance(m.(id := id), b.rest, l)
      case 2 => var v :- ReadNum(t); UnmarshalInstance(m.(status := Int32(v.value)), v.rest, l)
      case 3 =>
        var b :- ReadBytes(t, l);
        var data :- UnmarshalData(m.data, b.value, |b.value|);
        UnmarshalInstance(m.(data := data), b.rest, l)
      case 4 =>
        var b :- ReadBytes(t, l);
        var ballot :- UnmarshalBallot(if m.ballot.Some? then m.ballot.value else NO_BALLOT, b.value, |b.value|);
        UnmarshalInstance(m.(ballot := Some(ballot)), b.rest, l)
      case _ => var rest :- SkipField(d, l); UnmarshalInstance(m, rest, l)
  }

  // ----- Round trips -----

  /** The numbers of a value fit their 64-bit fields and its encoding can be addressed. */
  predicate IdFits(m: InstanceID) {
    m.replica < TWO_64 && m.num < TWO_64
  }

  predicate CommandFits(m: Command) {
    m.id < TWO_64 && |MarshalCommand(m)| < TWO_63
  }

  predicate DataFits(m: InstanceData) {
    && (m.cmd.Some? ==> CommandFits(m.cmd.value)) && m.seqNum < TWO_64 && (forall d :: d in m.deps ==> IdFits(d))
    && |MarshalData(m)| < TWO_63
  }

  predicate BallotFits(m: Ballot) {
    m.epoch < TWO_64 && m.number < TWO_64 && m.replica < TWO_64
  }

  predicate InstanceFits(m: StoredInstance) {
    && IdFits(m.id) && -TWO_31 <= m.status < TWO_31 && DataFits(m.data)
    && (m.ballot.Some? ==> BallotFits(m.ballot.value)) && |MarshalInstance(m)| < TWO_63
  }

  lemma SpanRoundTrip(m: Span)
    requires |MarshalSpan(m)| < TWO_63
    ensures UnmarshalSpan(NO_SPAN, MarshalSpan(m), |MarshalSpan(m)|) == Ok(m)
  {
    hide ReadTag, ReadBytes, BytesField;
    var m1 := Span(m.key, []);
    var rest, l := OptBytesField(2, m.endKey), |MarshalSpan(m)|;
    if m.endKey != [] {
      BytesFieldBack(2, m.endKey, [], l);
      assert rest + [] == rest;
    }
    assert UnmarshalSpan(m1, rest, l) == Ok(m);
    if m.key != [] {
      BytesFieldBack(1, m.key, rest, l);
      assert MarshalSpan(m) == BytesField(1, m.key) + rest;
    } else {
      assert MarshalSpan(m) == rest;
    }
  }

  /** Reading the fields of a command back, one at a time. */
  lemma CommandFields(m: Command, v: nat, b: Bytes, rest: Bytes, l: nat)
    requires v < TWO_64 && l < TWO_63
    ensures v != 0 ==> UnmarshalCommand(m, NumField(1, v) + rest, l) == UnmarshalCommand(m.(id := v), rest, l)
    ensures |BytesField(2, b)| + |rest| <= l && UnmarshalSpan(m.span, b, |b|).Ok? ==>
              UnmarshalCommand(m, BytesField(2, b) + rest, l) ==
              UnmarshalCommand(m.(span := UnmarshalSpan(m.span, b, |b|).value), rest, l)
    ensures v != 0 ==> UnmarshalCommand(m, NumField(3, v) + rest, l) == UnmarshalCommand(m.(writing := true), rest, l)
    ensures |BytesField(4, b)| + |rest| <= l ==>
              UnmarshalCommand(m, BytesField(4, b) + rest, l) == UnmarshalCommand(m.(data := b), rest, l)
  {
    hide ReadTag, ReadBytes, ReadNum, BytesField, NumField, UnmarshalSpan;
    if v != 0 {
      NumFieldBack(1, v, rest);
      NumFieldBack(3, v, rest);
    }
    if |BytesField(2, b)| + |rest| <= l { BytesFieldBack(2, b, rest, l); }
    if |BytesField(4, b)| + |rest| <= l { BytesFieldBack(4, b, rest, l); }
  }

  lemma SpanSize(m: Command)
    ensures |MarshalSpan(m.span)| <= |MarshalCommand(m)|
  {
  }

  lemma ZeroField(num: nat)
    ensures NumField(num, 0) == []
  {
  }

  lemma CommandDone(m: Command, l: nat)
    ensures UnmarshalCommand(m, [], l) == Ok(m)
  {
  }

  /** The last two fields of a command. */
  lemma CommandEnd(m: Command, writing: bool, data: Bytes, l: nat)
    requires !m.writing && m.data == [] && |OptBytesField(4, data)| <= l < TWO_63
    ensures UnmarshalCommand(m, NumField(3, if writing then 1 else 0) + OptBytesField(4, data), l) ==
            Ok(m.(writing := writing, data := data))
  {
    hide UnmarshalCommand, BytesField, NumField;
    var w := if writing then 1 else 0;
    var d4 := OptBytesField(4, data);
    var m3 := m.(writing := writing);
    CommandFields(m, w, [], d4, l);
    CommandFields(m3, 0, data, [], l);
    CommandDone(m.(writing := writing, data := data), l);
    assert d4 + [] == d4;
    ZeroField(3);
    assert [] + d4 == d4;
  }

  lemma CommandRoundTrip(m: Command)
    requires CommandFits(m)
    ensures UnmarshalCommand(NO_COMMAND, MarshalCommand(m), |MarshalCommand(m)|) == Ok(m)
  {
    hide UnmarshalCommand, BytesField, NumField, OptBytesField, MarshalSpan, UnmarshalSpan;
    SpanSize(m);
    SpanRoundTrip(m.span);
    var d3 := NumField(3, if m.writing then 1 else 0) + OptBytesField(4, m.data);
    var d2 := BytesField(2, MarshalSpan(m.span)) + d3;
    assert MarshalCommand(m) == NumField(1, m.id) + d2;
    var m1, l := NO_COMMAND.(id := m.id), |MarshalCommand(m)|;
    CommandFields(NO_COMMAND, m.id, [], d2, l);
    CommandFields(m1, 0, MarshalSpan(m.span), d3, l);
    CommandEnd(m1.(span := m.span), m.writing, m.data, l);
    ZeroField(1);
    assert [] + d2 == d2;
  }

  lemma IdRoundTrip(m: InstanceID)
    requires IdFits(m)
    ensures UnmarshalId(NO_ID, MarshalId(m), |MarshalId(m)|) == Ok(m)
  {
    hide ReadTag, ReadNum;
    var m1, rest := InstanceID(m.replica, 0), NumField(2, m.num);
    if m.num != 0 {
      NumFieldBack(2, m.num, []);
      assert rest + [] == rest;
    }
    assert UnmarshalId(m1, rest, |MarshalId(m)|) == Ok(m);
    if m.replica != 0 {
      NumFieldBack(1, m.replica, rest);
    } else {
      assert MarshalId(m) == rest;
    }
  }

  lemma BallotRoundTrip(m: Ballot)
    requires BallotFits(m)
    ensures UnmarshalBallot(NO_BALLOT, MarshalBallot(m), |MarshalBallot(m)|) == Ok(m)
  {
    hide ReadTag, ReadNum;
    var d3, l := NumField(3, m.replica), |MarshalBallot(m)|;
    var d2 := NumField(2, m.number) + d3;
    assert MarshalBallot(m) == NumField(1, m.epoch) + d2;
    if m.replica != 0 {
      NumFieldBack(3, m.replica, []);
      assert d3 + [] == d3;
    }
    assert UnmarshalBallot(Ballot(m.epoch, m.number, 0), d3, l) == Ok(m);
    if m.number != 0 { NumFieldBack(2, m.number, d3); } else { assert d2 == d3; }
    assert UnmarshalBallot(Ballot(m.epoch, 0, 0), d2, l) == Ok(m);
    if m.epoch != 0 { NumFieldBack(1, m.epoch, d2); } else { assert MarshalBallot(m) == d2; }
  }

  lemma {:induction false} DepsRoundTrip(m: InstanceData, deps: seq<InstanceID>, l: nat)
    requires (forall d :: d in deps ==> IdFits(d)) && |MarshalDeps(deps)| <= l < TWO_63
    ensures UnmarshalData(m, MarshalDeps(deps), l) == Ok(m.(deps := m.deps + deps))
    decreases deps
  {
    hide ReadTag, ReadNum, ReadBytes, BytesField, UnmarshalId, MarshalId;
    if deps == [] {
      assert m.deps + deps == m.deps;
    } else {
      IdRoundTrip(deps[0]);
      BytesFieldBack(3, MarshalId(deps[0]), MarshalDeps(deps[1..]), l);
      DepsRoundTrip(m.(deps := m.deps + [deps[0]]), deps[1..], l);
      assert m.deps + [deps[0]] + deps[1..] == m.deps + deps;
    }
  }

  lemma DataRoundTrip(m: InstanceData)
    requires DataFits(m)
    ensures UnmarshalData(NO_DATA, MarshalData(m), |MarshalData(m)|) == Ok(m)
  {
    hide ReadTag, ReadNum, ReadBytes, BytesField, UnmarshalCommand, MarshalCommand, MarshalDeps, NumField;
    var l := |MarshalData(m)|;
    var d3 := MarshalDeps(m.deps);
    var d2 := NumField(2, m.seqNum) + d3;
    var m1 := NO_DATA.(cmd := m.cmd);
    var m2 := m1.(seqNum := m.seqNum);
    DepsRoundTrip(m2, m.deps, l);
    assert m2.(deps := m2.deps + m.deps) == m;
    if m.seqNum != 0 { NumFieldBack(2, m.seqNum, d3); } else { assert d2 == d3 by { ZeroField(2); } }
    assert UnmarshalData(m1, d2, l) == Ok(m);
    if m.cmd.Some? {
      CommandRoundTrip(m.cmd.value);
      assert MarshalData(m) == BytesField(1, MarshalCommand(m.cmd.value)) + d2;
      BytesFieldBack(1, MarshalCommand(m.cmd.value), d2, l);
    } else {
      assert MarshalData(m) == d2;
    }
  }

  lemma StatusBack(v: int)
    requires -TWO_31 <= v < TWO_31
    ensures Int32(Uint64(v)) == v && (Uint64(v) == 0 <==> v == 0)
  {
  }

  /** Codec round trip: decoding the encoding of an instance state returns it. */
  lemma InstanceRoundTrip(m: StoredInstance)
    requires InstanceFits(m)
    ensures UnmarshalInstance(NO_INSTANCE, MarshalInstance(m), |MarshalInstance(m)|) == Ok(m)
  {
    hide ReadTag, ReadNum, ReadBytes, BytesField, UnmarshalData, MarshalData, UnmarshalId, MarshalId, UnmarshalBallot,
         MarshalBallot, NumField;
    var d4 := if m.ballot.Some? then BytesField(4, MarshalBallot(m.ballot.value)) else [];
    var d3 := BytesField(3, MarshalData(m.data)) + d4;
    var d2 := NumField(2, Uint64(m.status)) + d3;
    assert MarshalInstance(m) == BytesField(1, MarshalId(m.id)) + d2;
    var m1, l := NO_INSTANCE.(id := m.id), |MarshalInstance(m)|;
    var m2 := m1.(status := m.status);
    var m3 := m2.(data := m.data);
    if m.ballot.Some? {
      BallotRoundTrip(m.ballot.value);
      BytesFieldBack(4, MarshalBallot(m.ballot.value), [], l);
      assert d4 + [] == d4;
    }
    assert UnmarshalInstance(m3, d4, l) == Ok(m);
    DataRoundTrip(m.data);
    BytesFieldBack(3, MarshalData(m.data), d4, l);
    assert UnmarshalInstance(m2, d3, l) == Ok(m);
    StatusBack(m.status);
    if m.status != 0 { NumFieldBack(2, Uint64(m.status), d3); } else { assert d2 == d3 by { ZeroField(2); } }
    assert UnmarshalInstance(m1, d2, l) == Ok(m);
    IdRoundTrip(m.id);
    BytesFieldBack(1, MarshalId(m.id), d2, l);
  }

  // ----- Fields that a later version may add -----

  /** A field of any number and wire type; b is the contents of a length-delimited or fixed-size field. */
  datatype Field =
    | VarintField(num: nat, v: nat)
    | Fixed64Field(num: nat, b: Bytes)
    | DelimitedField(num: nat, b: Bytes)
    | GroupField(num: nat, fields: seq<Field>)
    | Fixed32Field(num: nat, b: Bytes)

  /** A field as the wire format of Protocol Buffers lays it out. */
  function Encode(f: Field): Bytes {
    match f
    case VarintField(num, v) => Varint(8 * num) + Varint(v)
    case Fixed64Field(num, b) => Varint(8 * num + 1) + b
    case DelimitedField(num, b) => Varint(8 * num + 2) + (Varint(|b|) + b)
    case GroupField(num, fields) => Varint(8 * num + 3) + (EncodeAll(fields) + Varint(8 * num + 4))
    case Fixed32Field(num, b) => Varint(8 * num + 5) + b
  }

  function EncodeAll(fields: seq<Field>): Bytes {
    if fields == [] then [] else Encode(fields[0]) + EncodeAll(fields[1..])
  }

  predicate FieldFits(f: Field) {
    && 0 < f.num < TWO_31
    && match f
       case VarintField(_, v) => v < TWO_64
       case Fixed64Field(_, b) => |b| == 8
       case DelimitedField(_, _) => true
       case GroupField(_, fields) => forall g :: g in fields ==> FieldFits(g)
       case Fixed32Field(_, b) => |b| == 4
  }

  function WireOf(f: Field): nat {
    match f
    case VarintField(_, _) => 0
    case Fixed64Field(_, _) => 1
    case DelimitedField(_, _) => 2
    case GroupField(_, _) => 3
    case Fixed32Field(_, _) => 5
  }

  /** What follows the tag of a field. */
  function Payload(f: Field): Bytes {
    match f
    case VarintField(_, v) => Varint(v)
    case Fixed64Field(_, b) => b
    case DelimitedField(_, b) => Varint(|b|) + b
    case GroupField(num, fields) => EncodeAll(fields) + Varint(8 * num + 4)
    case Fixed32Field(_, b) => b
  }

  lemma FieldNum(f: Field)
    requires FieldFits(f)
    ensures 0 < f.num < TWO_31
  {
  }

  lemma TagThen(f: Field, rest: Bytes)
    requires FieldFits(f)
    ensures Encode(f) + rest == Varint(8 * f.num + WireOf(f)) + (Payload(f) + rest)
    ensures ReadVarint(Encode(f) + rest, 0, 0) == Ok(Read(8 * f.num + WireOf(f), Payload(f) + rest))
    ensures (8 * f.num + WireOf(f)) % 8 == WireOf(f) && (8 * f.num + WireOf(f)) / 8 == f.num
  {
    hide Varint, ReadVarint, FieldFits, EncodeAll;
    assert f.num < TWO_31 by { FieldNum(f); }
    assert Encode(f) == Varint(8 * f.num + WireOf(f)) + Payload(f);
    assert Encode(f) + rest == Varint(8 * f.num + WireOf(f)) + (Payload(f) + rest);
    VarintRoundTrip(8 * f.num + WireOf(f), Payload(f) + rest);
  }

  lemma FieldValue(f: Field)
    requires FieldFits(f)
    ensures f.VarintField? ==> f.v < TWO_64
    ensures f.Fixed64Field? ==> |f.b| == 8
    ensures f.Fixed32Field? ==> |f.b| == 4
  {
  }

  lemma GroupFits(f: Field)
    requires FieldFits(f) && f.GroupField?
    ensures 0 < f.num < TWO_31 && forall g :: g in f.fields ==> FieldFits(g)
  {
  }

  /** skipEpaxos consumes exactly one field, whatever follows it. */
  lemma {:induction false} SkipExact(f: Field, rest: Bytes)
    requires FieldFits(f) && |Encode(f)| < TWO_63
    ensures Skip(Encode(f) + rest) == Ok(|Encode(f)|)
    decreases f, 0
  {
    hide Varint, ReadVarint, FieldFits, EncodeAll, SkipGroup;
    TagThen(f, rest);
    var d := Encode(f) + rest;
    assert |d| == |Encode(f)| + |rest|;
    match f
    case VarintField(num, v) =>
      assert v < TWO_64 by { FieldValue(f); }
      VarintRoundTrip(v, rest);
    case DelimitedField(num, b) =>
      assert Payload(f) + rest == Varint(|b|) + (b + rest);
      VarintRoundTrip(|b|, b + rest);
    case GroupField(num, fields) =>
      GroupFits(f);
      assert Payload(f) + rest == EncodeAll(fields) + (Varint(8 * num + 4) + rest);
      SkipGroupExact(num, fields, rest, |Varint(8 * num + 3)|);
    case Fixed64Field(num, b) => FieldValue(f);
    case Fixed32Field(num, b) => FieldValue(f);
  }

  /** The fields of a group start after used bytes of the buffer. */
  lemma {:induction false} SkipGroupExact(num: nat, fields: seq<Field>, rest: Bytes, used: nat)
    requires 0 < num < TWO_31 && (forall g :: g in fields ==> FieldFits(g)) && used + |EncodeAll(fields)| < TWO_63
    ensures var d := EncodeAll(fields) + (Varint(8 * num + 4) + rest);
            SkipGroup(d, used + |d|) == Ok(|EncodeAll(fields)| + |Varint(8 * num + 4)|)
    decreases fields, 1
  {
    hide Varint, ReadVarint, FieldFits, Skip, Encode;
    var end := Varint(8 * num + 4) + rest;
    if fields == [] {
      assert EncodeAll(fields) + end == end;
      VarintRoundTrip(8 * num + 4, rest);
    } else {
      var tail := EncodeAll(fields[1..]) + end;
      var d := EncodeAll(fields) + end;
      assert d == Encode(fields[0]) + tail;
      TagThen(fields[0], tail);
      SkipExact(fields[0], tail);
      assert d[|Encode(fields[0])|..] == tail;
      SkipGroupExact(num, fields[1..], rest, used + |Encode(fields[0])|);
    }
  }

  lemma SkipUnknown(f: Field, rest: Bytes, l: nat)
    requires FieldFits(f) && |Encode(f)| + |rest| <= l < TWO_63
    ensures var d := Encode(f) + rest;
            d != [] && ReadTag(d).Ok? && ReadTag(d).value.num == f.num && SkipField(d, l) == Ok(rest)
  {
    hide Varint, ReadVarint, Skip, Encode;
    FieldNum(f);
    hide FieldFits;
    TagThen(f, rest);
    SkipExact(f, rest);
    var d := Encode(f) + rest;
    assert d[|Encode(f)|..] == rest;
  }

  /** Fields with numbers that a message does not know are ignored, wherever they stand. */
  lemma UnknownIgnored(f: Field, rest: Bytes, m: StoredInstance, span: Span, cmd: Command, id: InstanceID,
                       ballot: Ballot, data: InstanceData, l: nat)
    requires FieldFits(f) && |Encode(f)| + |rest| <= l < TWO_63
    ensures f.num > 2 ==> UnmarshalSpan(span, Encode(f) + rest, l) == UnmarshalSpan(span, rest, l)
    ensures f.num > 2 ==> UnmarshalId(id, Encode(f) + rest, l) == UnmarshalId(id, rest, l)
    ensures f.num > 3 ==> UnmarshalBallot(ballot, Encode(f) + rest, l) == UnmarshalBallot(ballot, rest, l)
    ensures f.num > 3 ==> UnmarshalData(data, Encode(f) + rest, l) == UnmarshalData(data, rest, l)
    ensures f.num > 4 ==> UnmarshalCommand(cmd, Encode(f) + rest, l) == UnmarshalCommand(cmd, rest, l)
    ensures f.num > 4 ==> UnmarshalInstance(m, Encode(f) + rest, l) == UnmarshalInstance(m, rest, l)
  {
    SkipUnknown(f, rest, l);
    hide Skip, ReadTag, Encode, FieldFits, SkipField;
  }
}
