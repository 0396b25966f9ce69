/** What survives a restart (epaxos/storage.go, initStorage of epaxos/epaxos.go). */
module Restart {
  import opened Types
  import opened Graphs
  import opened Replicas
  import opened Local
  import opened System
  import opened Safety

  /** Persisted instances of the replica itself are complete; of the others, only executed ones are persisted. */
  predicate StoredOK(me: ReplicaID, id: InstanceID, st: InstanceState) {
    if id.replica == me then OwnOK(st) && id.num > 0 else st.status == Executed
  }

  /** While the instances in left are still to be loaded. */
  ghost predicate LoadingEntry(me: ReplicaID, rep: Replica, stored: map<InstanceID, InstanceState>,
                               left: seq<InstanceID>, id: InstanceID) {
    if id in left then
      && id !in rep.log && id !in rep.timers && id !in rep.vertices
      && id in stored && id in rep.storage && rep.storage[id] == stored[id]
      && StoredOK(me, id, stored[id])
    else
      && LocalEntry(me, rep, id)
      && (id in rep.log <==> id in stored)
      && (id in stored && id in rep.log ==> StoredOK(me, id, stored[id]) && Advances(stored[id], rep.log[id].st))
  }

  ghost predicate Loading(me: ReplicaID, rep: Replica, stored: map<InstanceID, InstanceState>, left: seq<InstanceID>) {
    forall id :: LoadingEntry(me, rep, stored, left, id)
  }

  /** A message that the leader of a persisted instance repeats. */
  ghost predicate Repeats(c: Config, me: ReplicaID, stored: map<InstanceID, InstanceState>, m: Message) {
    && m.id in stored && m.id.replica == me && Rank(stored[m.id].status) in {1, 2, 3}
    && m in Broadcast(c.nodes, me, m.id, Announcement(stored[m.id]))
  }

  lemma StartLoading(me: ReplicaID, rep: Replica, order: seq<InstanceID>)
    requires LocalSafe(me, rep) && forall id :: id in order <==> id in rep.storage
    ensures Loading(me, Rebooted(rep.storage), rep.storage, order)
  {
    forall id ensures LoadingEntry(me, Rebooted(rep.storage), rep.storage, order, id) {
      assert LocalEntry(me, rep, id);
    }
  }

  /** Loading one instance never fails. */
  lemma LoadOneLoads(c: Config, me: ReplicaID, rep: Replica, stored: map<InstanceID, InstanceState>,
                     left: seq<InstanceID>)
    requires Loading(me, rep, stored, left) && left != [] && NoDup(left) && left[0] in stored
    ensures var o := LoadOne(c, me, rep, left[0], stored[left[0]]);
            o.Done? && Loading(me, o.rep, stored, left[1..])
  {
    var id := left[0];
    assert LoadingEntry(me, rep, stored, left, id);
    var o := LoadOne(c, me, rep, id, stored[id]);
    assert o.Done?;
    forall x ensures LoadingEntry(me, o.rep, stored, left[1..], x) {
      assert LoadingEntry(me, rep, stored, left, x);
      assert x in left <==> x == id || x in left[1..];
      assert id !in left[1..];
    }
  }

  lemma LoadOneRepeats(c: Config, me: ReplicaID, rep: Replica, stored: map<InstanceID, InstanceState>, id: InstanceID,
                       m: Message)
    requires id in stored && LoadOne(c, me, rep, id, stored[id]).Done?
    requires m in LoadOne(c, me, rep, id, stored[id]).out
    ensures Repeats(c, me, stored, m)
  {
    BroadcastIn(c.nodes, me, id, Announcement(stored[id]), m);
  }

  lemma LoadingVertex(me: ReplicaID, rep: Replica, stored: map<InstanceID, InstanceState>, left: seq<InstanceID>,
                      id: InstanceID)
    requires Loading(me, rep, stored, left) && id in rep.vertices
    ensures id in rep.log && rep.log[id].st.status == Committed && rep.log[id].st.cmd.Some? && id !in left
  {
    assert LoadingEntry(me, rep, stored, left, id);
  }

  lemma ExecuteLoads(me: ReplicaID, rep: Replica, stored: map<InstanceID, InstanceState>, left: seq<InstanceID>,
                     ex: seq<InstanceID>)
    requires Loading(me, rep, stored, left) && forall id :: id in ex ==> id in rep.vertices
    ensures var o := ExecuteAll(rep, ex); o.Done? && Loading(me, o.rep, stored, left)
  {
    forall id | id in ex
      ensures id in rep.log && rep.log[id].st.status == Committed && rep.log[id].st.cmd.Some? && id !in left
    {
      LoadingVertex(me, rep, stored, left, id);
    }
    var rep' := ExecuteAll(rep, ex).rep;
    forall id ensures LoadingEntry(me, rep', stored, left, id) {
      assert LoadingEntry(me, rep, stored, left, id);
    }
  }

  /** Loading the instances in order, while those in left are still to come. */
  lemma {:induction false} LoadsPart(c: Config, me: ReplicaID, rep: Replica, stored: map<InstanceID, InstanceState>,
                                     order: seq<InstanceID>, left: seq<InstanceID>, runs: seq<seq<InstanceID>>,
                                     rep': Replica, out: seq<Message>)
    requires |runs| == |order| && (forall id :: id in order ==> id in stored) && NoDup(order + left)
    requires Loading(me, rep, stored, order + left) && Loads(c, me, rep, stored, order, runs, rep', out)
    ensures Loading(me, rep', stored, left)
    ensures forall m :: m in out ==> Repeats(c, me, stored, m)
    decreases |order|
  {
    hide Loading, LoadOne, ExecuteAll, MayRun, Repeats;
    if order != [] {
      assert (order + left)[1..] == order[1..] + left;
      LoadOneLoads(c, me, rep, stored, order + left);
      var o := LoadOne(c, me, rep, order[0], stored[order[0]]);
      if o.run { RunVertices(o.rep, runs[0]); }
      ExecuteLoads(me, o.rep, stored, order[1..] + left, runs[0]);
      var rep2 := ExecuteAll(o.rep, runs[0]).rep;
      assert forall id :: id in order[1..] ==> id in order;
      LoadsPart(c, me, rep2, stored, order[1..], left, runs[1..], rep', out[|o.out|..]);
      forall m | m in out ensures Repeats(c, me, stored, m) {
        assert out == o.out + out[|o.out|..];
        if m in o.out { LoadOneRepeats(c, me, rep, stored, order[0], m); }
      }
    } else {
      assert order + left == left;
    }
  }

  lemma LoadsSafe(c: Config, me: ReplicaID, rep: Replica, stored: map<InstanceID, InstanceState>,
                  order: seq<InstanceID>, runs: seq<seq<InstanceID>>, rep': Replica, out: seq<Message>)
    requires |runs| == |order| && (forall id :: id in order ==> id in stored) && NoDup(order)
    requires Loading(me, rep, stored, order) && Loads(c, me, rep, stored, order, runs, rep', out)
    ensures Loading(me, rep', stored, [])
    ensures forall m :: m in out ==> Repeats(c, me, stored, m)
  {
    hide Loading, Loads, Repeats;
    assert order + [] == order;
    LoadsPart(c, me, rep, stored, order, [], runs, rep', out);
  }

  lemma LoadedLocal(me: ReplicaID, rep: Replica, stored: map<InstanceID, InstanceState>)
    requires Loading(me, rep, stored, [])
    ensures LocalSafe(me, rep)
    ensures forall id :: id in rep.log <==> id in stored
    ensures forall id :: id in stored && id in rep.log ==>
        StoredOK(me, id, stored[id]) && Advances(stored[id], rep.log[id].st)
  {
    forall id ensures LocalEntry(me, rep, id) && (id in rep.log <==> id in stored) {
      assert LoadingEntry(me, rep, stored, [], id);
    }
    forall id | id in stored && id in rep.log
      ensures StoredOK(me, id, stored[id]) && Advances(stored[id], rep.log[id].st)
    {
      assert LoadingEntry(me, rep, stored, [], id);
    }
  }

  lemma StoredLead(stored: InstanceState, a: InstanceState, b: InstanceState)
    requires Persisted(stored, a) && Advances(stored, b)
    ensures LeadStep(a, b)
  {
  }

  lemma RestartKeeps(s: Sys, r: ReplicaID, rep: Replica)
    requires r in s.reps && LocalSafe(r, s.reps[r]) && Loading(r, rep, s.reps[r].storage, [])
    ensures OwnKeeps(s, r, rep)
  {
    var old', stored := s.reps[r], s.reps[r].storage;
    LoadedLocal(r, rep, stored);
    hide Loading, LeadStep, Advances, Persisted, StoredOK;
    forall id: InstanceID | id.replica == r && id in old'.log
      ensures id in rep.log && LeadStep(old'.log[id].st, rep.log[id].st)
    {
      assert LocalEntry(r, old', id);
      StoredLead(stored[id], old'.log[id].st, rep.log[id].st);
    }
  }

  lemma RestartAgrees(s: Sys, s': Sys, r: ReplicaID, rep: Replica, id: InstanceID)
    requires r in s.reps && LocalSafe(r, s.reps[r]) && Loading(r, rep, s.reps[r].storage, []) && id in rep.log
    requires id in s.reps[r].log ==> Agrees(s', id, s.reps[r].log[id].st)
    requires s'.reps == s.reps[r := rep]
    ensures Agrees(s', id, rep.log[id].st)
  {
    LoadedLocal(r, rep, s.reps[r].storage);
    hide Loading;
    assert LocalEntry(r, s.reps[r], id);
    if id.replica == r { OwnAgrees(s', id); }
  }

  lemma RepeatSafe(c: Config, s: Sys, r: ReplicaID, rep: Replica, stored: map<InstanceID, InstanceState>, m: Message)
    requires (forall q :: q in s.reps <==> q in c.nodes) && r in s.reps && s.reps[r] == rep
    requires (forall id :: id in rep.log <==> id in stored) && Repeats(c, r, stored, m)
    requires forall id :: id in stored && id in rep.log ==> Advances(stored[id], rep.log[id].st)
    ensures PacketSafe(s, Packet(r, m))
  {
    hide PacketSafe, Broadcast;
    AdvancesLead(stored[m.id], rep.log[m.id].st);
    AnnouncementSafe(c, s, m.id, stored[m.id], m);
  }

  lemma RestartSafe(c: Config, s: Sys, s': Sys, r: ReplicaID, order: seq<InstanceID>, runs: seq<seq<InstanceID>>)
    requires Safe(c, s) && r in s.reps && Restarts(c, s, r, order, runs, s')
    ensures Safe(c, s') && Keep(s, s')
  {
    hide LocalSafe, Loads, Loading, Agrees, PacketSafe, Keep, OwnKeeps, Repeats, LeadStep;
    var stored := s.reps[r].storage;
    var rep, out :| Loads(c, r, Rebooted(stored), stored, order, runs, rep, out)
                    && s' == Put(s, r, rep, out).(crashed := s.crashed - {r});
    StartLoading(r, s.reps[r], order);
    LoadsSafe(c, r, Rebooted(stored), stored, order, runs, rep, out);
    LoadedLocal(r, rep, stored);
    RestartKeeps(s, r, rep);
    assert Moves(s, s', r, rep, out);
    MoveKeeps(s, s', r, rep, out);
    forall id | id in rep.log ensures Agrees(s', id, rep.log[id].st) {
      if id in s.reps[r].log { AgreesKeeps(s, s', id, s.reps[r].log[id].st); }
      RestartAgrees(s, s', r, rep, id);
    }
    forall m | m in out ensures PacketSafe(s', Packet(r, m)) {
      RepeatSafe(c, s', r, rep, stored, m);
    }
    MoveSafe(c, s, s', r, rep, out);
  }
}
