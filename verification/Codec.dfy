/** Size, MarshalTo and Unmarshal as the generated code runs them: a buffer
    written with a moving offset, and loops that advance an index
    (epaxos/epaxospb/epaxos.pb.go). */
module Codec {
  import opened Keys
  import opened Types
  import opened Wire

  // ----- Sizes -----

  method SovVarint(x: nat) returns (n: nat)
    ensures n == |Varint(x)|
  {
    n := 1;
    var v: nat := x / 128;
    while v != 0
      invariant n + (if v == 0 then 0 else |Varint(v)|) == |Varint(x)|
      decreases v
    {
      n := n + 1;
      v := v / 128;
    }
  }

  method SizeNum(num: nat, v: nat) returns (n: nat)
    requires num < 16
    ensures n == |NumField(num, v)|
  {
    n := 0;
    if v != 0 {
      TagByte(8 * num);
      var l := SovVarint(v);
      n := 1 + l;
    }
  }

  /** The size of a length-delimited field with l bytes. */
  method SizeBytes(num: nat, l: nat) returns (n: nat)
    requires num < 16 && 8 * num + 2 < 128
    ensures forall b: Bytes :: |b| == l ==> n == |BytesField(num, b)|
  {
    TagByte(8 * num + 2);
    var s := SovVarint(l);
    n := 1 + l + s;
  }

  method SizeSpan(m: Span) returns (n: nat)
    ensures n == |MarshalSpan(m)|
  {
    hide BytesField;
    n := 0;
    if |m.key| > 0 {
      var s := SizeBytes(1, |m.key|);
      n := n + s;
    }
    if |m.endKey| > 0 {
      var s := SizeBytes(2, |m.endKey|);
      n := n + s;
    }
  }

  method SizeCommand(m: Command) returns (n: nat)
    ensures n == |MarshalCommand(m)|
  {
    hide BytesField, NumField, MarshalSpan;
    n := SizeNum(1, m.id);
    var l := SizeSpan(m.span);
    var s := SizeBytes(2, l);
    n := n + s;
    var w := SizeNum(3, if m.writing then 1 else 0);
    n := n + w;
    if |m.data| > 0 {
      s := SizeBytes(4, |m.data|);
      n := n + s;
    }
  }

  method SizeId(m: InstanceID) returns (n: nat)
    ensures n == |MarshalId(m)|
  {
    var a := SizeNum(1, m.replica);
    var b := SizeNum(2, m.num);
    n := a + b;
  }

  method SizeBallot(m: Ballot) returns (n: nat)
    ensures n == |MarshalBallot(m)|
  {
    var a := SizeNum(1, m.epoch);
    var b := SizeNum(2, m.number);
    var c := SizeNum(3, m.replica);
    n := a + b + c;
  }

  lemma {:induction false} DepsSnoc(deps: seq<InstanceID>, d: InstanceID)
    ensures MarshalDeps(deps + [d]) == MarshalDeps(deps) + BytesField(3, MarshalId(d))
  {
    hide BytesField, MarshalId;
    if deps == [] {
      assert [d][1..] == [];
    } else {
      assert (deps + [d])[1..] == deps[1..] + [d];
      DepsSnoc(deps[1..], d);
    }
  }

  method SizeData(m: InstanceData) returns (n: nat)
    ensures n == |MarshalData(m)|
  {
    hide BytesField, NumField, MarshalCommand, MarshalId;
    n := 0;
    if m.cmd.Some? {
      var l := SizeCommand(m.cmd.value);
      n := SizeBytes(1, l);
    }
    var s := SizeNum(2, m.seqNum);
    n := n + s;
    ghost var n0 := n;
    for k := 0 to |m.deps|
      invariant n == n0 + |MarshalDeps(m.deps[..k])|
    {
      DepsSnoc(m.deps[..k], m.deps[k]);
      assert m.deps[..k + 1] == m.deps[..k] + [m.deps[k]];
      var l := SizeId(m.deps[k]);
      s := SizeBytes(3, l);
      n := n + s;
    }
    assert m.deps[..|m.deps|] == m.deps;
  }

  method SizeInstance(m: StoredInstance) returns (n: nat)
    ensures n == |MarshalInstance(m)|
  {
    hide BytesField, NumField, MarshalData, MarshalId, MarshalBallot;
    var l := SizeId(m.id);
    n := SizeBytes(1, l);
    var s := SizeNum(2, Uint64(m.status));
    n := n + s;
    l := SizeData(m.data);
    s := SizeBytes(3, l);
    n := n + s;
    if m.ballot.Some? {
      l := SizeBallot(m.ballot.value);
      s := SizeBytes(4, l);
      n := n + s;
    }
  }

  // ----- Writing -----

  /** The buffer was x and is now y: what was before offset i is still there, followed by b up to offset j. */
  ghost predicate Wrote(x: Bytes, y: Bytes, i: nat, j: nat, b: Bytes) {
    && j == i + |b| && j <= |x| && |y| == |x|
    && y[..j] == x[..i] + b
  }

  lemma Assoc(p: Bytes, a: Bytes, b: Bytes)
    ensures p + a + b == p + (a + b)
  {
  }

  method WriteByte(dAtA: array<byte>, i: nat, b: byte)
    requires i < dAtA.Length
    modifies dAtA
    ensures Wrote(old(dAtA[..]), dAtA[..], i, i + 1, [b])
  {
    dAtA[i] := b;
  }

  method Copy(dAtA: array<byte>, i: nat, b: Bytes) returns (j: nat)
    requires i + |b| <= dAtA.Length
    modifies dAtA
    ensures Wrote(old(dAtA[..]), dAtA[..], i, j, b)
  {
    j := i;
    for k := 0 to |b|
      invariant j == i + k && dAtA[..j] == old(dAtA[..i]) + b[..k]
    {
      WriteByte(dAtA, j, b[k]);
      Assoc(old(dAtA[..i]), b[..k], [b[k]]);
      assert b[..k + 1] == b[..k] + [b[k]];
      j := j + 1;
    }
    assert b[..|b|] == b;
  }

  /** encodeVarintEpaxos */
  method EncodeVarint(dAtA: array<byte>, offset: nat, v: nat) returns (i: nat)
    requires offset + |Varint(v)| <= dAtA.Length
    modifies dAtA
    ensures Wrote(old(dAtA[..]), dAtA[..], offset, i, Varint(v))
  {
    i := offset;
    var w: nat := v;
    ghost var done: Bytes := [];
    while w >= 128
      invariant done + Varint(w) == Varint(v) && i == offset + |done|
      invariant dAtA[..i] == old(dAtA[..offset]) + done
      decreases w
    {
      ghost var b: Bytes := [w % 128 + 128];
      WriteByte(dAtA, i, w % 128 + 128);
      Assoc(old(dAtA[..offset]), done, b);
      Assoc(done, b, Varint(w / 128));
      done := done + b;
      w := w / 128;
      i := i + 1;
    }
    WriteByte(dAtA, i, w);
    Assoc(old(dAtA[..offset]), done, [w]);
    i := i + 1;
  }

  method WriteNum(dAtA: array<byte>, i: nat, num: nat, v: nat) returns (j: nat)
    requires num < 16 && i + |NumField(num, v)| <= dAtA.Length
    modifies dAtA
    ensures Wrote(old(dAtA[..]), dAtA[..], i, j, NumField(num, v))
  {
    hide Varint;
    j := i;
    if v != 0 {
      TagByte(8 * num);
      WriteByte(dAtA, i, 8 * num);
      j := EncodeVarint(dAtA, i + 1, v);
      Assoc(old(dAtA[..i]), [8 * num], Varint(v));
    }
  }

  /** The tag and the length that precede l bytes. */
  function Header(num: nat, l: nat): Bytes {
    Varint(8 * num + 2) + Varint(l)
  }

  lemma HeaderThen(num: nat, b: Bytes)
    ensures BytesField(num, b) == Header(num, |b|) + b
  {
  }

  method WriteHeader(dAtA: array<byte>, i: nat, num: nat, l: nat) returns (j: nat)
    requires 8 * num + 2 < 128 && i + |Header(num, l)| <= dAtA.Length
    modifies dAtA
    ensures Wrote(old(dAtA[..]), dAtA[..], i, j, Header(num, l))
  {
    hide Varint;
    TagByte(8 * num + 2);
    WriteByte(dAtA, i, 8 * num + 2);
    j := EncodeVarint(dAtA, i + 1, l);
    Assoc(old(dAtA[..i]), [8 * num + 2], Varint(l));
  }

  method WriteBytes(dAtA: array<byte>, i: nat, num: nat, b: Bytes) returns (j: nat)
    requires 8 * num + 2 < 128 && i + |OptBytesField(num, b)| <= dAtA.Length
    modifies dAtA
    ensures Wrote(old(dAtA[..]), dAtA[..], i, j, OptBytesField(num, b))
  {
    hide Header, BytesField;
    j := i;
    if |b| > 0 {
      HeaderThen(num, b);
      j := WriteHeader(dAtA, i, num, |b|);
      j := Copy(dAtA, j, b);
      Assoc(old(dAtA[..i]), Header(num, |b|), b);
    }
  }

  method MarshalToSpan(dAtA: array<byte>, i: nat, m: Span) returns (j: nat)
    requires i + |MarshalSpan(m)| <= dAtA.Length
    modifies dAtA
    ensures Wrote(old(dAtA[..]), dAtA[..], i, j, MarshalSpan(m))
  {
    hide OptBytesField;
    j := WriteBytes(dAtA, i, 1, m.key);
    j := WriteBytes(dAtA, j, 2, m.endKey);
    Assoc(old(dAtA[..i]), OptBytesField(1, m.key), OptBytesField(2, m.endKey));
  }

  method WriteSpan(dAtA: array<byte>, i: nat, num: nat, m: Span) returns (j: nat)
    requires 8 * num + 2 < 128 && i + |BytesField(num, MarshalSpan(m))| <= dAtA.Length
    modifies dAtA
    ensures Wrote(old(dAtA[..]), dAtA[..], i, j, BytesField(num, MarshalSpan(m)))
  {
    hide BytesField, MarshalSpan, Header;
    HeaderThen(num, MarshalSpan(m));
    var l := SizeSpan(m);
    j := WriteHeader(dAtA, i, num, l);
    j := MarshalToSpan(dAtA, j, m);
    Assoc(old(dAtA[..i]), Header(num, l), MarshalSpan(m));
  }

  method MarshalToCommand(dAtA: array<byte>, i: nat, m: Command) returns (j: nat)
    requires i + |MarshalCommand(m)| <= dAtA.Length
    modifies dAtA
    ensures Wrote(old(dAtA[..]), dAtA[..], i, j, MarshalCommand(m))
  {
    hide OptBytesField, NumField, BytesField, MarshalSpan;
    ghost var p := dAtA[..i];
    ghost var a, b := NumField(1, m.id), BytesField(2, MarshalSpan(m.span));
    ghost var c := NumField(3, if m.writing then 1 else 0);
    j := WriteNum(dAtA, i, 1, m.id);
    j := WriteSpan(dAtA, j, 2, m.span);
    Assoc(p, a, b);
    j := WriteNum(dAtA, j, 3, if m.writing then 1 else 0);
    Assoc(p, a + b, c);
    j := WriteBytes(dAtA, j, 4, m.data);
    Assoc(p, a + b + c, OptBytesField(4, m.data));
  }

  method MarshalToId(dAtA: array<byte>, i: nat, m: InstanceID) returns (j: nat)
    requires i + |MarshalId(m)| <= dAtA.Length
    modifies dAtA
    ensures Wrote(old(dAtA[..]), dAtA[..], i, j, MarshalId(m))
  {
    hide NumField;
    j := WriteNum(dAtA, i, 1, m.replica);
    j := WriteNum(dAtA, j, 2, m.num);
    Assoc(old(dAtA[..i]), NumField(1, m.replica), NumField(2, m.num));
  }

  method WriteId(dAtA: array<byte>, i: nat, num: nat, m: InstanceID) returns (j: nat)
    requires 8 * num + 2 < 128 && i + |BytesField(num, MarshalId(m))| <= dAtA.Length
    modifies dAtA
    ensures Wrote(old(dAtA[..]), dAtA[..], i, j, BytesField(num, MarshalId(m)))
  {
    hide BytesField, MarshalId, Header;
    HeaderThen(num, MarshalId(m));
    var l := SizeId(m);
    j := WriteHeader(dAtA, i, num, l);
    j := MarshalToId(dAtA, j, m);
    Assoc(old(dAtA[..i]), Header(num, l), MarshalId(m));
  }

  method MarshalToBallot(dAtA: array<byte>, i: nat, m: Ballot) returns (j: nat)
    requires i + |MarshalBallot(m)| <= dAtA.Length
    modifies dAtA
    ensures Wrote(old(dAtA[..]), dAtA[..], i, j, MarshalBallot(m))
  {
    hide NumField;
    ghost var p := dAtA[..i];
    j := WriteNum(dAtA, i, 1, m.epoch);
    j := WriteNum(dAtA, j, 2, m.number);
    Assoc(p, NumField(1, m.epoch), NumField(2, m.number));
    j := WriteNum(dAtA, j, 3, m.replica);
    Assoc(p, NumField(1, m.epoch) + NumField(2, m.number), NumField(3, m.replica));
  }

  method WriteBallot(dAtA: array<byte>, i: nat, num: nat, m: Ballot) returns (j: nat)
    requires 8 * num + 2 < 128 && i + |BytesField(num, MarshalBallot(m))| <= dAtA.Length
    modifies dAtA
    ensures Wrote(old(dAtA[..]), dAtA[..], i, j, BytesField(num, MarshalBallot(m)))
  {
    hide BytesField, MarshalBallot, Header;
    HeaderThen(num, MarshalBallot(m));
    var l := SizeBallot(m);
    j := WriteHeader(dAtA, i, num, l);
    j := MarshalToBallot(dAtA, j, m);
    Assoc(old(dAtA[..i]), Header(num, l), MarshalBallot(m));
  }

  method WriteCommand(dAtA: array<byte>, i: nat, num: nat, m: Command) returns (j: nat)
    requires 8 * num + 2 < 128 && i + |BytesField(num, MarshalCommand(m))| <= dAtA.Length
    modifies dAtA
    ensures Wrote(old(dAtA[..]), dAtA[..], i, j, BytesField(num, MarshalCommand(m)))
  {
    hide BytesField, MarshalCommand, Header;
    HeaderThen(num, MarshalCommand(m));
    var l := SizeCommand(m);
    j := WriteHeader(dAtA, i, num, l);
    j := MarshalToCommand(dAtA, j, m);
    Assoc(old(dAtA[..i]), Header(num, l), MarshalCommand(m));
  }

  lemma {:induction false} DepsPrefix(deps: seq<InstanceID>, k: nat)
    requires k <= |deps|
    ensures |MarshalDeps(deps[..k])| <= |MarshalDeps(deps)|
    decreases |deps| - k
  {
    hide BytesField, MarshalId;
    if k < |deps| {
      DepsSnoc(deps[..k], deps[k]);
      assert deps[..k + 1] == deps[..k] + [deps[k]];
      DepsPrefix(deps, k + 1);
    } else {
      assert deps[..k] == deps;
    }
  }

  /** The loop of MarshalTo over the dependencies. */
  method MarshalToDeps(dAtA: array<byte>, i: nat, deps: seq<InstanceID>) returns (j: nat)
    requires i + |MarshalDeps(deps)| <= dAtA.Length
    modifies dAtA
    ensures Wrote(old(dAtA[..]), dAtA[..], i, j, MarshalDeps(deps))
  {
    hide BytesField, MarshalId;
    ghost var p := dAtA[..i];
    j := i;
    for k := 0 to |deps|
      invariant j == i + |MarshalDeps(deps[..k])| <= dAtA.Length && dAtA[..j] == p + MarshalDeps(deps[..k])
    {
      DepsSnoc(deps[..k], deps[k]);
      assert deps[..k + 1] == deps[..k] + [deps[k]];
      DepsPrefix(deps, k + 1);
      j := WriteId(dAtA, j, 3, deps[k]);
      Assoc(p, MarshalDeps(deps[..k]), BytesField(3, MarshalId(deps[k])));
    }
    assert deps[..|deps|] == deps;
  }

  method MarshalToData(dAtA: array<byte>, i: nat, m: InstanceData) returns (j: nat)
    requires i + |MarshalData(m)| <= dAtA.Length
    modifies dAtA
    ensures Wrote(old(dAtA[..]), dAtA[..], i, j, MarshalData(m))
  {
    hide NumField, BytesField, MarshalCommand, MarshalDeps;
    ghost var p := dAtA[..i];
    ghost var a: Bytes := if m.cmd.Some? then BytesField(1, MarshalCommand(m.cmd.value)) else [];
    j := i;
    if m.cmd.Some? {
      j := WriteCommand(dAtA, i, 1, m.cmd.value);
    }
    assert dAtA[..j] == p + a;
    j := WriteNum(dAtA, j, 2, m.seqNum);
    Assoc(p, a, NumField(2, m.seqNum));
    j := MarshalToDeps(dAtA, j, m.deps);
    Assoc(p, a + NumField(2, m.seqNum), MarshalDeps(m.deps));
  }

  method WriteData(dAtA: array<byte>, i: nat, num: nat, m: InstanceData) returns (j: nat)
    requires 8 * num + 2 < 128 && i + |BytesField(num, MarshalData(m))| <= dAtA.Length
    modifies dAtA
    ensures Wrote(old(dAtA[..]), dAtA[..], i, j, BytesField(num, MarshalData(m)))
  {
    hide BytesField, MarshalData, Header;
    HeaderThen(num, MarshalData(m));
    var l := SizeData(m);
    j := WriteHeader(dAtA, i, num, l);
    j := MarshalToData(dAtA, j, m);
    Assoc(old(dAtA[..i]), Header(num, l), MarshalData(m));
  }

  method MarshalToInstance(dAtA: array<byte>, i: nat, m: StoredInstance) returns (j: nat)
    requires i + |MarshalInstance(m)| <= dAtA.Length
    modifies dAtA
    ensures Wrote(old(dAtA[..]), dAtA[..], i, j, MarshalInstance(m))
  {
    hide NumField, BytesField, MarshalData, MarshalId, MarshalBallot;
    ghost var p := dAtA[..i];
    ghost var a, b := BytesField(1, MarshalId(m.id)), NumField(2, Uint64(m.status));
    ghost var c := BytesField(3, MarshalData(m.data));
    ghost var d: Bytes := if m.ballot.Some? then BytesField(4, MarshalBallot(m.ballot.value)) else [];
    assert MarshalInstance(m) == a + b + c + d;
    hide MarshalInstance;
    j := WriteId(dAtA, i, 1, m.id);
    j := WriteNum(dAtA, j, 2, Uint64(m.status));
    Assoc(p, a, b);
    j := WriteData(dAtA, j, 3, m.data);
    Assoc(p, a + b, c);
    if m.ballot.Some? {
      j := WriteBallot(dAtA, j, 4, m.ballot.value);
    }
    Assoc(p, a + b + c, d);
  }

  /** Marshal: a buffer of exactly Size bytes, completely written. */
  method Marshal(m: StoredInstance) returns (dAtA: array<byte>)
    ensures fresh(dAtA) && dAtA[..] == MarshalInstance(m)
  {
    var size := SizeInstance(m);
    dAtA := new byte[size];
    var n := MarshalToInstance(dAtA, 0, m);
    assert dAtA[..n] == dAtA[..];
  }

  // ----- Reading -----

  /** The loop that reads a varint at index i. */
  method DecodeVarint(dAtA: Bytes, i: nat) returns (r: Result<nat>, j: nat)
    requires i <= |dAtA|
    ensures i <= j <= |dAtA|
    ensures match ReadVarint(dAtA[i..], 0, 0)
            case Err(e) => r == Err(e)
            case Ok(read) => r == Ok(read.value) && read.rest == dAtA[j..] && i < j
  {
    j := i;
    var v: nat, k: nat := 0, 0;
    while true
      invariant i <= j <= |dAtA| && k <= 10 && v < TWO_64
      invariant ReadVarint(dAtA[i..], 0, 0) == ReadVarint(dAtA[j..], k, v)
      decreases 10 - k
    {
      if k >= 10 {
        return Err(Overflow), j;
      }
      if j >= |dAtA| {
        return Err(UnexpectedEOF), j;
      }
      var b := dAtA[j];
      assert dAtA[j..][1..] == dAtA[j + 1..];
      j := j + 1;
      v := (v + (b % 128) * Pow128(k)) % TWO_64;
      if b < 128 {
        return Ok(v), j;
      }
      k := k + 1;
    }
  }

  /** The tag at index i; the rest of the buffer starts at j. */
  method DecodeTag(dAtA: Bytes, i: nat) returns (r: Result<Tag>, j: nat)
    requires i <= |dAtA|
    ensures i <= j <= |dAtA|
    ensures r == ReadTag(dAtA[i..]) && (r.Ok? ==> r.value.rest == dAtA[j..] && i < j)
  {
    hide ReadVarint;
    var w;
    w, j := DecodeVarint(dAtA, i);
    if w.Err? {
      return Err(w.error), j;
    }
    var num := Int32(w.value / 8);
    if w.value % 8 == 4 {
      return Err(EndGroup), j;
    }
    if num <= 0 {
      return Err(IllegalTag), j;
    }
    return Ok(Tag(num, w.value % 8, dAtA[j..])), j;
  }

  method DecodeNum(dAtA: Bytes, t: Tag, i: nat) returns (r: Result<nat>, j: nat)
    requires i <= |dAtA| && t.rest == dAtA[i..]
    ensures i <= j <= |dAtA|
    ensures match ReadNum(t)
            case Err(e) => r == Err(e)
            case Ok(read) => r == Ok(read.value) && read.rest == dAtA[j..]
  {
    hide ReadVarint;
    if t.wire != 0 {
      return Err(WrongWireType), i;
    }
    r, j := DecodeVarint(dAtA, i);
  }

  method DecodeBytes(dAtA: Bytes, t: Tag, i: nat) returns (r: Result<Bytes>, j: nat)
    requires i <= |dAtA| && t.rest == dAtA[i..]
    ensures i <= j <= |dAtA|
    ensures match ReadBytes(t, |dAtA|)
            case Err(e) => r == Err(e)
            case Ok(read) => r == Ok(read.value) && read.rest == dAtA[j..]
  {
    hide ReadVarint;
    if t.wire != 2 {
      return Err(WrongWireType), i;
    }
    var len;
    len, j := DecodeVarint(dAtA, i);
    if len.Err? {
      return Err(len.error), j;
    }
    if len.value >= TWO_63 {
      return Err(InvalidLength), j;
    }
    if j + len.value >= TWO_63 {
      return Err(OutOfRange), j;
    }
    if j + len.value > |dAtA| {
      return Err(UnexpectedEOF), j;
    }
    assert dAtA[j..][..len.value] == dAtA[j..j + len.value];
    assert dAtA[j..][len.value..] == dAtA[j + len.value..];
    return Ok(dAtA[j..j + len.value]), j + len.value;
  }

  /** skipEpaxos */
  method SkipEpaxos(dAtA: Bytes) returns (r: Result<nat>)
    ensures r == Skip(dAtA)
    decreases |dAtA|, 0
  {
    hide ReadVarint;
    assert dAtA[0..] == dAtA;
    var wire, i := DecodeVarint(dAtA, 0);
    if wire.Err? { return Err(wire.error); }
    match wire.value % 8
    case 0 =>
      var v;
      v, i := DecodeVarint(dAtA, i);
      return if v.Err? then Err(v.error) else Ok(i);
    case 1 => return Ok(i + 8);
    case 2 =>
      var len;
      len, i := DecodeVarint(dAtA, i);
      if len.Err? { return Err(len.error); }
      return if len.value >= TWO_63 then Err(InvalidLength) else Ok(i + len.value);
    case 3 => r := SkipToEnd(dAtA, i);
    case 4 => return Ok(i);
    case 5 => return Ok(i + 4);
    case _ => return Err(IllegalWireType);
  }

  /** The loop of skipEpaxos over the fields of the group that starts at index i0. */
  method SkipToEnd(dAtA: Bytes, i0: nat) returns (r: Result<nat>)
    requires 0 < i0 <= |dAtA|
    ensures match SkipGroup(dAtA[i0..], |dAtA|)
            case Err(e) => r == Err(e)
            case Ok(n) => r == Ok(i0 + n)
    decreases |dAtA| - i0, 1
  {
    hide ReadVarint, Skip;
    var i := i0;
    while true
      invariant i0 <= i <= |dAtA|
      invariant match SkipGroup(dAtA[i0..], |dAtA|)
                case Err(e) => SkipGroup(dAtA[i..], |dAtA|) == Err(e)
                case Ok(n) => SkipGroup(dAtA[i..], |dAtA|).Ok? && i0 + n == i + SkipGroup(dAtA[i..], |dAtA|).value
      decreases |dAtA| - i
    {
      var start := i;
      var inner;
      inner, i := DecodeVarint(dAtA, start);
      if inner.Err? { return Err(inner.error); }
      if inner.value % 8 == 4 { return Ok(i); }
      var next := SkipEpaxos(dAtA[start..]);
      if next.Err? { return Err(next.error); }
      if start + next.value >= TWO_63 { return Err(OutOfRange); }
      if start + next.value > |dAtA| { return Err(UnexpectedEOF); }
      assert dAtA[start..][next.value..] == dAtA[start + next.value..];
      i := start + next.value;
    }
  }

  /** What an Unmarshal does with a field it does not know, which starts at index i. */
  method PassOver(dAtA: Bytes, i: nat) returns (r: Result<nat>)
    requires i < |dAtA|
    ensures match SkipField(dAtA[i..], |dAtA|)
            case Err(e) => r == Err(e)
            case Ok(rest) => r.Ok? && i < r.value <= |dAtA| && rest == dAtA[r.value..]
  {
    hide Skip;
    var skippy := SkipEpaxos(dAtA[i..]);
    if skippy.Err? { return Err(skippy.error); }
    if skippy.value >= TWO_63 { return Err(InvalidLength); }
    if i + skippy.value >= TWO_63 { return Err(OutOfRange); }
    if i + skippy.value > |dAtA| { return Err(UnexpectedEOF); }
    assert dAtA[i..][skippy.value..] == dAtA[i + skippy.value..];
    return Ok(i + skippy.value);
  }

  method DecodeSpan(m0: Span, dAtA: Bytes) returns (r: Result<Span>)
    ensures r == UnmarshalSpan(m0, dAtA, |dAtA|)
  {
    hide ReadTag, ReadBytes, SkipField;
    var m, i := m0, 0;
    assert dAtA[0..] == dAtA;
    while i < |dAtA|
      invariant i <= |dAtA| && UnmarshalSpan(m, dAtA[i..], |dAtA|) == UnmarshalSpan(m0, dAtA, |dAtA|)
      decreases |dAtA| - i
    {
      var t, b;
      var preIndex := i;
      t, i := DecodeTag(dAtA, i);
      if t.Err? { return Err(t.error); }
      if t.value.num in {1, 2} {
        b, i := DecodeBytes(dAtA, t.value, i);
        if b.Err? { return Err(b.error); }
        m := if t.value.num == 1 then m.(key := b.value) else m.(endKey := b.value);
      } else {
        var rest := PassOver(dAtA, preIndex);
        if rest.Err? { return Err(rest.error); }
        i := rest.value;
      }
    }
    return Ok(m);
  }

  method DecodeId(m0: InstanceID, dAtA: Bytes) returns (r: Result<InstanceID>)
    ensures r == UnmarshalId(m0, dAtA, |dAtA|)
  {
    hide ReadTag, ReadNum, SkipField;
    var m, i := m0, 0;
    assert dAtA[0..] == dAtA;
    while i < |dAtA|
      invariant i <= |dAtA| && UnmarshalId(m, dAtA[i..], |dAtA|) == UnmarshalId(m0, dAtA, |dAtA|)
      decreases |dAtA| - i
    {
      var t, v;
      var preIndex := i;
      t, i := DecodeTag(dAtA, i);
      if t.Err? { return Err(t.error); }
      if t.value.num in {1, 2} {
        v, i := DecodeNum(dAtA, t.value, i);
        if v.Err? { return Err(v.error); }
        m := if t.value.num == 1 then m.(replica := v.value) else m.(num := v.value);
      } else {
        var rest := PassOver(dAtA, preIndex);
        if rest.Err? { return Err(rest.error); }
        i := rest.value;
      }
    }
    return Ok(m);
  }

  method DecodeBallot(m0: Ballot, dAtA: Bytes) returns (r: Result<Ballot>)
    ensures r == UnmarshalBallot(m0, dAtA, |dAtA|)
  {
    hide ReadTag, ReadNum, SkipField;
    var m, i := m0, 0;
    assert dAtA[0..] == dAtA;
    while i < |dAtA|
      invariant i <= |dAtA| && UnmarshalBallot(m, dAtA[i..], |dAtA|) == UnmarshalBallot(m0, dAtA, |dAtA|)
      decreases |dAtA| - i
    {
      var t, v;
      var preIndex := i;
      t, i := DecodeTag(dAtA, i);
      if t.Err? { return Err(t.error); }
      if t.value.num in {1, 2, 3} {
        v, i := DecodeNum(dAtA, t.value, i);
        if v.Err? { return Err(v.error); }
        m := if t.value.num == 1 then m.(epoch := v.value)
             else if t.value.num == 2 then m.(number := v.value)
             else m.(replica := v.value);
      } else {
        var rest := PassOver(dAtA, preIndex);
        if rest.Err? { return Err(rest.error); }
        i := rest.value;
      }
    }
    return Ok(m);
  }

  method DecodeCommand(m0: Command, dAtA: Bytes) returns (r: Result<Command>)
    ensures r == UnmarshalCommand(m0, dAtA, |dAtA|)
  {
    hide ReadTag, ReadNum, ReadBytes, SkipField, UnmarshalSpan;
    var m, i := m0, 0;
    assert dAtA[0..] == dAtA;
    while i < |dAtA|
      invariant i <= |dAtA| && UnmarshalCommand(m, dAtA[i..], |dAtA|) == UnmarshalCommand(m0, dAtA, |dAtA|)
      decreases |dAtA| - i
    {
      var t;
      var preIndex := i;
      t, i := DecodeTag(dAtA, i);
      if t.Err? { return Err(t.error); }
      var num := t.value.num;
      if num == 1 || num == 3 {
        var v;
        v, i := DecodeNum(dAtA, t.value, i);
        if v.Err? { return Err(v.error); }
        m := if num == 1 then m.(id := v.value) else m.(writing := v.value != 0);
      } else if num == 2 || num == 4 {
        var b;
        b, i := DecodeBytes(dAtA, t.value, i);
        if b.Err? { return Err(b.error); }
        if num == 4 {
          m := m.(data := b.value);
        } else {
          var span := DecodeSpan(m.span, b.value);
          if span.Err? { return Err(span.error); }
          m := m.(span := span.value);
        }
      } else {
        var rest := PassOver(dAtA, preIndex);
        if rest.Err? { return Err(rest.error); }
        i := rest.value;
      }
    }
    return Ok(m);
  }

  method DecodeData(m0: InstanceData, dAtA: Bytes) returns (r: Result<InstanceData>)
    ensures r == UnmarshalData(m0, dAtA, |dAtA|)
  {
    hide ReadTag, ReadNum, ReadBytes, SkipField, UnmarshalCommand, UnmarshalId;
    var m, i := m0, 0;
    assert dAtA[0..] == dAtA;
    while i < |dAtA|
      invariant i <= |dAtA| && UnmarshalData(m, dAtA[i..], |dAtA|) == UnmarshalData(m0, dAtA, |dAtA|)
      decreases |dAtA| - i
    {
      var t;
      var preIndex := i;
      t, i := DecodeTag(dAtA, i);
      if t.Err? { return Err(t.error); }
      var num := t.value.num;
      if num == 2 {
        var v;
        v, i := DecodeNum(dAtA, t.value, i);
        if v.Err? { return Err(v.error); }
        m := m.(seqNum := v.value);
      } else if num == 1 || num == 3 {
        var b;
        b, i := DecodeBytes(dAtA, t.value, i);
        if b.Err? { return Err(b.error); }
        if num == 1 {
          var cmd := DecodeCommand(if m.cmd.Some? then m.cmd.value else NO_COMMAND, b.value);
          if cmd.Err? { return Err(cmd.error); }
          m := m.(cmd := Some(cmd.value));
        } else {
          var id := DecodeId(NO_ID, b.value);
          if id.Err? { return Err(id.error); }
          m := m.(deps := m.deps + [id.value]);
        }
      } else {
        var rest := PassOver(dAtA, preIndex);
        if rest.Err? { return Err(rest.error); }
        i := rest.value;
      }
    }
    return Ok(m);
  }

  method DecodeInstance(m0: StoredInstance, dAtA: Bytes) returns (r: Result<StoredInstance>)
    ensures r == UnmarshalInstance(m0, dAtA, |dAtA|)
  {
    hide ReadTag, ReadNum, ReadBytes, SkipField, UnmarshalData, UnmarshalId, UnmarshalBallot;
    var m, i := m0, 0;
    assert dAtA[0..] == dAtA;
    while i < |dAtA|
      invariant i <= |dAtA| && UnmarshalInstance(m, dAtA[i..], |dAtA|) == UnmarshalInstance(m0, dAtA, |dAtA|)
      decreases |dAtA| - i
    {
      var t;
      var preIndex := i;
      t, i := DecodeTag(dAtA, i);
      if t.Err? { return Err(t.error); }
      var num := t.value.num;
      if num == 2 {
        var v;
        v, i := DecodeNum(dAtA, t.value, i);
        if v.Err? { return Err(v.error); }
        m := m.(status := Int32(v.value));
      } else if num == 1 || num == 3 || num == 4 {
        var b;
        b, i := DecodeBytes(dAtA, t.value, i);
        if b.Err? { return Err(b.error); }
        if num == 1 {
          var id := DecodeId(m.id, b.value);
          if id.Err? { return Err(id.error); }
          m := m.(id := id.value);
        } else if num == 3 {
          var data := DecodeData(m.data, b.value);
          if data.Err? { return Err(data.error); }
          m := m.(data := data.value);
        } else {
          var ballot := DecodeBallot(if m.ballot.Some? then m.ballot.value else NO_BALLOT, b.value);
          if ballot.Err? { return Err(ballot.error); }
          m := m.(ballot := Some(ballot.value));
        }
      } else {
        var rest := PassOver(dAtA, preIndex);
        if rest.Err? { return Err(rest.error); }
        i := rest.value;
      }
    }
    return Ok(m);
  }

  /** Marshal followed by Unmarshal into a fresh value. */
  method SaveAndLoad(m: StoredInstance) returns (r: Result<StoredInstance>)
    requires InstanceFits(m)
    ensures r == Ok(m)
  {
    var dAtA := Marshal(m);
    InstanceRoundTrip(m);
    r := DecodeInstance(NO_INSTANCE, dAtA[..]);
  }
}
