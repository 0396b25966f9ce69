/** Dependency slices: sorted, without repetition (depSliceFromMap and
    unionDepSlices of epaxos/instance.go, InstanceIDs of epaxos/epaxospb/command.go). */
module DepSlices {
  import opened Types
  import opened Graphs

  predicate Less(a: InstanceID, b: InstanceID) {
    if a.replica != b.replica then a.replica < b.replica else a.num < b.num
  }

  /** Strictly increasing, so also free of repetition. */
  ghost predicate Sorted(s: seq<InstanceID>) {
    forall i, j :: 0 <= i < j < |s| ==> Less(s[i], s[j])
  }

  /** By replica, and by slot within a replica. */
  lemma SortedBySlot(s: seq<InstanceID>, i: nat, j: nat)
    requires Sorted(s) && i < j < |s|
    ensures s[i].replica < s[j].replica || (s[i].replica == s[j].replica && s[i].num < s[j].num)
  {
  }

  predicate IsLeast(ids: set<InstanceID>, x: InstanceID) {
    x in ids && forall y :: y in ids ==> x == y || Less(x, y)
  }

  lemma {:induction false} LeastExists(ids: set<InstanceID>)
    requires ids != {}
    ensures exists x :: IsLeast(ids, x)
  {
    var y :| y in ids;
    var rest := ids - {y};
    assert forall z :: z in ids ==> z == y || z in rest;
    if rest == {} {
      assert IsLeast(ids, y);
    } else {
      LeastExists(rest);
      var m :| IsLeast(rest, m);
      assert IsLeast(ids, if Less(y, m) then y else m);
    }
  }

  /** The one sorted slice with the given elements. */
  ghost function Slice(ids: set<InstanceID>): seq<InstanceID> {
    if ids == {} then [] else
      LeastExists(ids);
      var x :| IsLeast(ids, x);
      [x] + Slice(ids - {x})
  }

  lemma ConsLeast(x: InstanceID, t: seq<InstanceID>, ids: set<InstanceID>)
    requires Sorted(t) && IsLeast(ids, x) && Elems(t) == ids - {x}
    ensures Sorted([x] + t) && Elems([x] + t) == ids
  {
    assert Elems([x] + t) == {x} + Elems(t);
    forall j | 0 <= j < |t| ensures Less(x, t[j]) { assert t[j] in Elems(t); }
  }

  lemma {:induction false} SliceIds(ids: set<InstanceID>)
    ensures Elems(Slice(ids)) == ids && Sorted(Slice(ids)) && |Slice(ids)| == |ids|
  {
    if ids != {} {
      LeastExists(ids);
      var x :| IsLeast(ids, x) && Slice(ids) == [x] + Slice(ids - {x});
      SliceIds(ids - {x});
      hide Slice;
      ConsLeast(x, Slice(ids - {x}), ids);
    }
  }

  lemma EmptyIds(s: seq<InstanceID>)
    ensures s == [] <==> Elems(s) == {}
  {
    if s != [] { assert s[0] in Elems(s); }
  }

  lemma SameFirst(s: seq<InstanceID>, t: seq<InstanceID>)
    requires Sorted(s) && Sorted(t) && Elems(s) == Elems(t) && s != [] && t != []
    ensures s[0] == t[0]
  {
    assert s[0] in Elems(t) && t[0] in Elems(s);
    var i :| 0 <= i < |s| && s[i] == t[0];
    var j :| 0 <= j < |t| && t[j] == s[0];
  }

  lemma TailIds(s: seq<InstanceID>)
    requires Sorted(s) && s != []
    ensures Elems(s[1..]) == Elems(s) - {s[0]} && Sorted(s[1..])
  {
    assert s == [s[0]] + s[1..];
  }

  /** Sorted slices with the same elements are equal. */
  lemma {:induction false} SortedUnique(s: seq<InstanceID>, t: seq<InstanceID>)
    requires Sorted(s) && Sorted(t) && Elems(s) == Elems(t)
    ensures s == t
  {
    EmptyIds(s);
    EmptyIds(t);
    if s != [] {
      SameFirst(s, t);
      TailIds(s);
      TailIds(t);
      SortedUnique(s[1..], t[1..]);
      assert s == [s[0]] + s[1..] && t == [t[0]] + t[1..];
    }
  }

  lemma SliceOfIds(s: seq<InstanceID>)
    requires Sorted(s)
    ensures Slice(Elems(s)) == s && |s| == |Elems(s)|
  {
    SliceIds(Elems(s));
    SortedUnique(s, Slice(Elems(s)));
  }

  lemma {:induction false} SubsetEq(a: set<InstanceID>, b: set<InstanceID>)
    requires a <= b && |a| == |b|
    ensures a == b
  {
    if a != {} {
      var x :| x in a;
      SubsetEq(a - {x}, b - {x});
      assert a == a - {x} + {x} && b == b - {x} + {x};
    } else {
      assert b == {};
    }
  }

  /** Comparing lengths decides whether a superset of a slice added anything. */
  lemma LengthDecides(s: seq<InstanceID>, ids: set<InstanceID>)
    requires Sorted(s) && Elems(s) <= ids
    ensures |Slice(ids)| == |s| <==> ids == Elems(s)
    ensures |Slice(ids)| == |s| <==> Slice(ids) == s
  {
    SliceOfIds(s);
    SliceIds(ids);
    if |ids| == |Elems(s)| { SubsetEq(Elems(s), ids); }
  }
}
