/** Keys, spans and commands, and when two commands interfere
    (epaxos/epaxospb/command.go and rangeForCmd of epaxos/command.go). */
module Keys {

  type byte = b: int | 0 <= b < 256

  /** Keys are immutable byte strings, ordered as bytes.Compare orders them. */
  type Key = seq<byte>

  predicate Lt(a: Key, b: Key) {
    if b == [] then false
    else if a == [] then true
    else if a[0] != b[0] then a[0] < b[0]
    else Lt(a[1..], b[1..])
  }

  predicate Le(a: Key, b: Key) {
    a == b || Lt(a, b)
  }

  lemma LtIrrefl(a: Key)
    ensures !Lt(a, a)
  {
  }

  lemma {:induction false} LtTrans(a: Key, b: Key, c: Key)
    requires Lt(a, b) && Lt(b, c)
    ensures Lt(a, c)
  {
    if a != [] && a[0] == b[0] == c[0] { LtTrans(a[1..], b[1..], c[1..]); }
  }

  lemma {:induction false} LtTotal(a: Key, b: Key)
    ensures Lt(a, b) || a == b || Lt(b, a)
  {
    if a != [] && b != [] && a[0] == b[0] {
      LtTotal(a[1..], b[1..]);
      assert a == [a[0]] + a[1..] && b == [b[0]] + b[1..];
    }
  }

  lemma LtAsym(a: Key, b: Key)
    requires Lt(a, b)
    ensures !Lt(b, a) && a != b
  {
    LtIrrefl(a);
    if Lt(b, a) { LtTrans(a, b, a); }
  }

  /** Comparisons chain. */
  lemma LeLtTrans(a: Key, b: Key, c: Key)
    requires Le(a, b) && Lt(b, c)
    ensures Lt(a, c)
  {
    if a != b { LtTrans(a, b, c); }
  }

  lemma LtLeTrans(a: Key, b: Key, c: Key)
    requires Lt(a, b) && Le(b, c)
    ensures Lt(a, c)
  {
    if b != c { LtTrans(a, b, c); }
  }

  lemma LeTrans(a: Key, b: Key, c: Key)
    requires Le(a, b) && Le(b, c)
    ensures Le(a, c)
  {
    if a != b { LtLeTrans(a, b, c); }
  }

  lemma NotLt(a: Key, b: Key)
    ensures !Lt(a, b) <==> Le(b, a)
  {
    LtTotal(a, b);
    LtIrrefl(a);
    if Lt(a, b) { LtAsym(a, b); }
  }

  /** k followed by a zero byte is the immediate successor of k. */
  lemma {:induction false} NextKey(k: Key, x: Key)
    ensures Lt(x, k + [0]) <==> Le(x, k)
  {
    var n := k + [0];
    if k != [] {
      assert n[1..] == k[1..] + [0];
      if x != [] && x[0] == k[0] {
        NextKey(k[1..], x[1..]);
        assert x == [x[0]] + x[1..] && k == [k[0]] + k[1..];
      }
    } else if x != [] {
      assert n[0] == 0 && n[1..] == [];
    }
  }

  // ----- Ranges -----

  /** Half-open: start included, end excluded. */
  datatype Range = Range(start: Key, end: Key)

  predicate InRange(r: Range, k: Key) {
    Le(r.start, k) && Lt(k, r.end)
  }

  predicate NonEmpty(r: Range) {
    Lt(r.start, r.end)
  }

  lemma StartInRange(r: Range)
    requires NonEmpty(r)
    ensures InRange(r, r.start)
  {
  }

  ghost predicate ShareKey(r: Range, s: Range) {
    exists k :: InRange(r, k) && InRange(s, k)
  }

  function MaxKey(a: Key, b: Key): (m: Key)
    ensures Le(a, m) && Le(b, m) && (m == a || m == b)
  {
    NotLt(a, b);
    if Lt(a, b) then b else a
  }

  /** Ranges share a key exactly when each starts before the other ends. */
  lemma ShareIff(r: Range, s: Range)
    requires NonEmpty(r) && NonEmpty(s)
    ensures ShareKey(r, s) <==> Lt(r.start, s.end) && Lt(s.start, r.end)
  {
    if ShareKey(r, s) {
      var k :| InRange(r, k) && InRange(s, k);
      LeLtTrans(r.start, k, s.end);
      LeLtTrans(s.start, k, r.end);
    }
    if Lt(r.start, s.end) && Lt(s.start, r.end) {
      var k := MaxKey(r.start, s.start);
      assert InRange(r, k) && InRange(s, k);
    }
  }

  // ----- Commands -----

  /** endKey is empty when the span is the single key. */
  datatype Span = Span(key: Key, endKey: Key)

  datatype Command = Command(id: nat, span: Span, writing: bool, data: seq<byte>)

  predicate WellFormed(s: Span) {
    s.endKey == [] || Lt(s.key, s.endKey)
  }

  /** Span.Overlaps, branch by branch. */
  predicate Overlaps(s: Span, o: Span) {
    if s.endKey == [] && o.endKey == [] then s.key == o.key
    else if s.endKey == [] then Le(o.key, s.key) && Lt(s.key, o.endKey)
    else if o.endKey == [] then Le(s.key, o.key) && Lt(o.key, s.endKey)
    else Lt(o.key, s.endKey) && Lt(s.key, o.endKey)
  }

  /** rangeForCmd */
  function RangeOf(s: Span): Range {
    Range(s.key, if s.endKey == [] then s.key + [0] else s.endKey)
  }

  lemma RangeOfNonEmpty(s: Span)
    ensures WellFormed(s) <==> NonEmpty(RangeOf(s))
  {
    NextKey(s.key, s.key);
  }

  /** The four branches decide whether the ranges share a key. */
  lemma OverlapsIffShare(s: Span, o: Span)
    requires WellFormed(s) && WellFormed(o)
    ensures Overlaps(s, o) <==> ShareKey(RangeOf(s), RangeOf(o))
  {
    RangeOfNonEmpty(s);
    RangeOfNonEmpty(o);
    ShareIff(RangeOf(s), RangeOf(o));
    NextKey(s.key, o.key);
    NextKey(o.key, s.key);
    LtTotal(s.key, o.key);
    if Lt(s.key, o.key) { LtAsym(s.key, o.key); }
    if Lt(o.key, s.key) { LtAsym(o.key, s.key); }
  }

  /** The test is exact for a span, against every well-formed one, precisely
      when the span is itself well formed. */
  lemma OverlapsExact(s: Span)
    ensures WellFormed(s) <==>
              forall o :: WellFormed(o) ==> (Overlaps(s, o) <==> ShareKey(RangeOf(s), RangeOf(o)))
  {
    if WellFormed(s) {
      forall o | WellFormed(o) ensures Overlaps(s, o) <==> ShareKey(RangeOf(s), RangeOf(o)) {
        OverlapsIffShare(s, o);
      }
    } else {
      // The span is inverted, so its range is empty; yet the span of all keys up to s.key "overlaps" it.
      var o := Span([], s.key + [0]);
      NextKey(s.key, s.key);
      NextKey(s.key, []);
      assert WellFormed(o) && Overlaps(s, o);
      forall k | InRange(RangeOf(s), k) ensures false {
        LeLtTrans(s.key, k, s.endKey);
      }
    }
  }

  lemma OverlapsSym(s: Span, o: Span)
    ensures Overlaps(s, o) <==> Overlaps(o, s)
  {
  }

  predicate Interferes(c: Command, o: Command) {
    (c.writing || o.writing) && Overlaps(c.span, o.span)
  }

  /** The single key, or the keys from the start up to the end. */
  predicate HasKey(s: Span, k: Key) {
    if s.endKey == [] then k == s.key else Le(s.key, k) && Lt(k, s.endKey)
  }

  lemma RangeKeys(s: Span, k: Key)
    ensures InRange(RangeOf(s), k) <==> HasKey(s, k)
  {
    NextKey(s.key, k);
    NotLt(s.key, k);
    NotLt(k, s.key);
  }

  /** Two commands interfere exactly when one of them writes and they have a key in common. */
  lemma InterferesExact(c: Command, o: Command)
    requires WellFormed(c.span) && WellFormed(o.span)
    ensures Interferes(c, o) <==> (c.writing || o.writing) && exists k :: HasKey(c.span, k) && HasKey(o.span, k)
  {
    OverlapsIffShare(c.span, o.span);
    hide Overlaps, RangeOf, InRange;
    forall k ensures InRange(RangeOf(c.span), k) <==> HasKey(c.span, k) { RangeKeys(c.span, k); }
    forall k ensures InRange(RangeOf(o.span), k) <==> HasKey(o.span, k) { RangeKeys(o.span, k); }
  }

  lemma InterferesSym(c: Command, o: Command)
    ensures Interferes(c, o) <==> Interferes(o, c)
  {
    OverlapsSym(c.span, o.span);
  }
}
