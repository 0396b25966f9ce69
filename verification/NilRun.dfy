/** A run without duplication, loss of state or restarts that ends in a crash: a replica that was not among the first
    to answer meets an instance by its Accept, ignores the late PreAccept, and dereferences nil when it proposes. */
module NilRun {
  import opened Keys
  import opened Types
  import opened Scan
  import opened Visits
  import opened Replicas
  import opened System
  import opened NilCommands
  import opened Faults
  import opened SlowPath

  const CLEAN := Faulty({}, {})

  /** Replica 4, which knows no more than the Accept. */
  const STRANGER := EMPTY.(log := map[Slot(1) := FromState(InstanceState(Accepted, None, 1, []))])

  lemma Meets()
    ensures Replicas.Step(FIVE, 4, EMPTY, Message(4, Slot(1), Accept(1, []))) ==
            Done(STRANGER, [Message(1, Slot(1), AcceptOK)], false)
    ensures Replicas.Step(FIVE, 4, STRANGER, Message(4, Slot(1), Pre(1))) == Done(STRANGER, [], false)
  {
    hide ScanAll;
    var o := Replicas.Step(FIVE, 4, EMPTY, Message(4, Slot(1), Accept(1, [])));
    assert o.rep.log == STRANGER.log;
  }

  lemma Dies()
    ensures OnRequest(FIVE, 4, STRANGER, Write(4)) == Panicked(NilCommand)
  {
    var log, any := STRANGER.log, InstanceID(0, 0);
    assert FreeKey(log, Write(4), any, Slot(1), [7]);
    assert NilAhead(log, FIVE.nodes, Write(4), any, Slot(1));
    RequestPanics(FIVE, 4, STRANGER, Write(4));
    hide ScanAll;
  }

  // ----- The run -----

  /** Replica 4 accepts, and ignores the PreAccept that comes late. */
  lemma MetLate() returns (s: Sys, i: nat)
    ensures Reached(FIVE, CLEAN, s) && s.crashed == {} && 4 in s.reps && s.reps[4] == STRANGER
    ensures i < |s.sent| && i in s.delivered && s.sent[i].msg == Message(4, Slot(1), Pre(1))
  {
    hide Reached, Replicas.Step, Packets, Asked, Voted;
    Start(FIVE, CLEAN);
    var s0, late, _, _, j := Asks(CLEAN, Initial(FIVE), 1, 2, 3, 4);
    i := late;
    Meets();
    Delivered(FIVE, CLEAN, s0, j, STRANGER, [Message(1, Slot(1), AcceptOK)], false, [], STRANGER);
    var s1 := Put(s0.(delivered := s0.delivered + {j}), 4, STRANGER, [Message(1, Slot(1), AcceptOK)]);
    Delivered(FIVE, CLEAN, s1, i, STRANGER, [], false, [], STRANGER);
    s := Put(s1.(delivered := s1.delivered + {i}), 4, STRANGER, []);
  }

  /** A request that crashes the replica which receives it, in the last step of a run. */
  ghost predicate CrashesLast(c: Config, states: seq<Sys>, steps: seq<System.Step>, r: ReplicaID, cmd: Command) {
    && IsCrashStopRun(c, states, steps) && |steps| > 0 && steps[|steps| - 1] == RequestStep(r, cmd)
    && r in states[|steps| - 1].reps && OnRequest(c, r, states[|steps| - 1].reps[r], cmd) == Panicked(NilCommand)
    && states[|steps| - 1].crashed == {} && states[|steps|].crashed == {r}
  }

  /** Replica 4 was handed the PreAccept of the instance that it has no command for. */
  ghost predicate HandedLate(s: Sys) {
    exists i :: i in s.delivered && i < |s.sent| && s.sent[i].msg == Message(4, Slot(1), Pre(1))
  }

  lemma CrashStep(s: Sys)
    requires Up(s, 4) && s.reps[4] == STRANGER
    ensures Next(FIVE, s, RequestStep(4, Write(4)), Crash(s, 4))
  {
    hide OnRequest;
    Dies();
  }

  /** Some run in which every packet is delivered at most once and nobody restarts ends in a crash. */
  lemma NilCommandCrashes()
    ensures exists states: seq<Sys>, steps: seq<System.Step> ::
              CrashesLast(FIVE, states, steps, 4, Write(4)) && HandedLate(states[|states| - 1])
  {
    hide OnRequest, Next;
    var s, i := MetLate();
    var states: seq<Sys>, steps: seq<System.Step> :| EndsIn(FIVE, CLEAN, states, steps, s);
    Dies();
    var s' := Crash(s, 4);
    CrashStep(s);
    RunExtends(FIVE, states, steps, RequestStep(4, Write(4)), s');
    var states', steps' := states + [s'], steps + [RequestStep(4, Write(4))];
    forall n | 0 <= n < |steps'| ensures !steps'[n].RedeliverStep? && !steps'[n].RestartStep? {
      if n < |steps| { assert Permitted(states[n], steps[n], CLEAN); }
    }
    assert CrashesLast(FIVE, states', steps', 4, Write(4));
    assert HandedLate(s');
  }
}
