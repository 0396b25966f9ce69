/** Which faults the interference theorem tolerates: exactly repeated packets that follow the PreAccept round, and
    restarts that lose no vote. */
module Limits {
  import opened Keys
  import opened Types
  import opened Graphs
  import opened Replicas
  import opened System
  import opened Runs
  import opened Commits
  import opened SameLeaders
  import opened Faults
  import opened Redelivery
  import opened Losses

  /** Of any two decided instances that interfere, one reaches the other. */
  ghost predicate AllLinked(s: Sys) {
    forall a, x, seqA, depsA, b, y, seqB, depsB ::
      a != b && Decided(s, a, Some(x), seqA, depsA) && Decided(s, b, Some(y), seqB, depsB) && Interferes(x, y)
      ==> Linked(s, a, seqA, depsA, b, seqB, depsB)
  }

  /** Repeating packets of these forms, and restarts that lose these things, do not defeat the interference theorem. */
  ghost predicate Tolerated(again: set<Form>, lost: set<Loss>) {
    forall c: Config, states: seq<Sys>, steps: seq<System.Step>, k: nat ::
      IsLimitedRun(c, states, steps, again, lost) && k < |states| ==> AllLinked(states[k])
  }

  lemma StricterRun(c: Config, states: seq<Sys>, steps: seq<System.Step>, again: set<Form>)
    requires again <= LATE && IsLimitedRun(c, states, steps, again, {})
    ensures IsVoteOnceRun(c, states, steps)
  {
    hide Next, LosesOnly;
    forall k | 0 <= k < |steps| ensures Limited(states[k], steps[k], LATE, {}) {
      assert Limited(states[k], steps[k], again, {});
    }
  }

  lemma AllLinkedAt(c: Config, states: seq<Sys>, steps: seq<System.Step>, k: nat)
    requires IsVoteOnceRun(c, states, steps) && k < |states|
    ensures AllLinked(states[k])
  {
    hide IsVoteOnceRun, Decided, Interferes, Linked;
    var s := states[k];
    forall a, x, seqA, depsA, b, y, seqB, depsB
      | a != b && Decided(s, a, Some(x), seqA, depsA) && Decided(s, b, Some(y), seqB, depsB) && Interferes(x, y)
      ensures Linked(s, a, seqA, depsA, b, seqB, depsB)
    {
      InterferenceTheorem(c, states, steps, k, a, b, x, seqA, depsA, y, seqB, depsB);
    }
  }

  lemma Tolerates(again: set<Form>)
    requires again <= LATE
    ensures Tolerated(again, {})
  {
    hide AllLinked, IsLimitedRun, IsVoteOnceRun;
    forall c: Config, states: seq<Sys>, steps: seq<System.Step>, k: nat
      | IsLimitedRun(c, states, steps, again, {}) && k < |states|
      ensures AllLinked(states[k])
    {
      StricterRun(c, states, steps, again);
      AllLinkedAt(c, states, steps, k);
    }
  }

  lemma NotLinked(s: Sys, a: InstanceID, b: InstanceID)
    requires Unrelated(s, a, b)
    ensures !AllLinked(s)
  {
    hide Reach, LeaderGraph, Decided, Interferes;
    var x, seqA, depsA, y, seqB, depsB :|
      Interferes(x, y) && Decided(s, a, Some(x), seqA, depsA) && Decided(s, b, Some(y), seqB, depsB);
    assert !Linked(s, a, seqA, depsA, b, seqB, depsB);
  }

  lemma MoreFaults(s: Sys, step: System.Step, given: Faulty, again: set<Form>, lost: set<Loss>)
    requires Permitted(s, step, given) && given.again <= again && given.lost <= lost
    ensures Limited(s, step, again, lost)
  {
  }

  lemma Defeats(c: Config, given: Faulty, s: Sys, a: InstanceID, b: InstanceID, again: set<Form>, lost: set<Loss>)
    requires given.again <= again && given.lost <= lost && Reached(c, given, s) && Unrelated(s, a, b)
    ensures !Tolerated(again, lost)
  {
    hide Next, Unrelated, AllLinked, Limited, Permitted;
    var states: seq<Sys>, steps: seq<System.Step> :| EndsIn(c, given, states, steps, s);
    forall k | 0 <= k < |steps| ensures Limited(states[k], steps[k], again, lost) {
      MoreFaults(states[k], steps[k], given, again, lost);
    }
    assert IsLimitedRun(c, states, steps, again, lost);
    NotLinked(s, a, b);
  }

  lemma RepeatDefeats(f: Form, again: set<Form>, lost: set<Loss>)
    requires f in again && f !in LATE
    ensures !Tolerated(again, lost)
  {
    hide Reached, Unrelated, Tolerated;
    match f
    case PreAcceptForm =>
      var s := RepeatedPreAccepts();
      Defeats(FIVE, Faulty({f}, {}), s, Slot(1), Slot(3), again, lost);
    case PreAcceptOKForm =>
      var s := RepeatedOKs();
      Defeats(FIVE, Faulty({f}, {}), s, Slot(1), Slot(3), again, lost);
    case PreAcceptReplyForm =>
      var s := RepeatedReplies();
      Defeats(FIVE, Faulty({f}, {}), s, Slot(1), Slot(3), again, lost);
  }

  lemma LossDefeats(loss: Loss, again: set<Form>, lost: set<Loss>)
    requires loss in lost
    ensures !Tolerated(again, lost)
  {
    hide Reached, Unrelated, Tolerated;
    match loss
    case PreAcceptedVote =>
      var s := LostPreAccepted();
      Defeats(THREE, VOTE, s, Slot(1), Slot(3), again, lost);
    case AcceptedVote =>
      var s := LostAccepted();
      Defeats(FIVE, TAKEN, s, Slot(1), Slot(3), again, lost);
    case CommittedVote =>
      var s := LostCommitted();
      Defeats(THREE, COMMIT, s, SECOND, Slot(3), again, lost);
    case OwnTally =>
      var s := LostTally();
      Defeats(FIVE, TALLY, s, Slot(1), Slot(3), again, lost);
  }

  /** The interference theorem holds in all runs in which only packets of the given forms are delivered more than once,
      and restarts lose nothing but the given things, if and only if those forms are Accept, AcceptOK and Commit and
      restarts lose nothing: a replica restarts only when every foreign instance whose command it knows has executed
      and no own one is pre-accepted. */
  lemma InterferenceExact(again: set<Form>, lost: set<Loss>)
    ensures Tolerated(again, lost) <==> again <= LATE && lost == {}
  {
    hide Tolerated;
    if !(again <= LATE) {
      var f :| f in again && f !in LATE;
      RepeatDefeats(f, again, lost);
    } else if lost != {} {
      var loss :| loss in lost;
      LossDefeats(loss, again, lost);
    } else {
      Tolerates(again);
    }
  }
}
