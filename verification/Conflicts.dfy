/** Read conflicts over whole runs: exactly when the phases of the heads stay apart, and exactly when a bank counts a
    conflict. */
module Conflicts {
  import opened Types
  import opened Spec
  import opened Runs
  import opened SimpleBuffer
  import opened HeapShape
  import opened Ledger
  import opened Scheduler
  import opened Cycle
  import opened Guard
  import opened Phases
  import opened Waiting
  import opened Delivery

  /** At every clock edge of the run the packets that are put in service find their phases free. */
  ghost predicate PhaseSafeRun(s: State, acts: seq<Action>)
    requires Bounded(s)
    decreases acts
  {
    acts != [] ==> (acts[0].Clock? ==> PhaseSafe(s)) && PhaseSafeRun(Do(s, acts[0]), acts[1..])
  }

  /** The heads are in distinct phases in every state of the run. */
  ghost predicate AlwaysDistinct(s: State, acts: seq<Action>)
    requires Bounded(s)
    decreases acts
  {
    PhasesDistinct(s) && (acts != [] ==> AlwaysDistinct(Do(s, acts[0]), acts[1..]))
  }

  /** At every clock edge of the run no two heads that are due need the same bank. */
  ghost predicate CalmRun(s: State, acts: seq<Action>)
    requires Bounded(s)
    decreases acts
  {
    acts != [] ==> (acts[0].Clock? ==> Calm(s)) && CalmRun(Do(s, acts[0]), acts[1..])
  }

  lemma ReceiveKeepsPhases(s: State, id: int)
    requires Idle(s) && Safe(s, Receive(id))
    ensures var r := RcvFrom(s, 0x1000, id);
      && Bounded(s) && Idle(r) && (PhasesDistinct(s) <==> PhasesDistinct(r))
      && Tally(r.history, AnyConflict) == Tally(s.history, AnyConflict)
  {
    hide Heap, Depths, Legal, Replay, Tally, Timed, Settled;
    ReceiveKeepsWaiting(s, id, 0, 0);
    TallySnoc(s.history, Received(id));
  }

  /** Over whole runs: the phases stay distinct exactly when every packet put in service finds its phase free. */
  lemma {:induction false} AlwaysDistinctIff(s: State, acts: seq<Action>)
    requires Idle(s) && Guarded(s, acts) && PhasesDistinct(s)
    ensures AlwaysDistinct(s, acts) <==> PhaseSafeRun(s, acts)
    decreases acts
  {
    hide Idle, NextOf, Process, RcvFrom, PhaseSafe, PhasesDistinct, Bounded;
    if acts != [] {
      IdleIsBounded(s);
      var r, rest := Do(s, acts[0]), acts[1..];
      match acts[0] {
        case Receive(id) => ReceiveKeepsPhases(s, id);
        case Clock =>
          PhasesStayDistinctIff(s);
          ClockKeepsIdle(s);
      }
      if PhasesDistinct(r) { AlwaysDistinctIff(r, rest); }
    }
  }

  /** Distinct phases are enough for a run without conflicts, in any number of banks. */
  lemma {:induction false} DistinctIsCalm(s: State, acts: seq<Action>)
    requires Bounded(s) && AlwaysDistinct(s, acts)
    ensures CalmRun(s, acts)
    decreases acts
  {
    hide NextOf, Process, RcvFrom, Calm, Bounded;
    if acts != [] {
      BoundedAfter(s, acts[0]);
      DistinctIsCalm(Do(s, acts[0]), acts[1..]);
      PhasesGiveOneDue(s);
      OneDueIsCalm(s);
    }
  }

  /** A run counts no read conflict exactly when at none of its clock edges two heads that are due need the same
      bank. */
  lemma {:induction false} ConflictsIff(s: State, acts: seq<Action>)
    requires Idle(s) && Guarded(s, acts)
    ensures Tally(Run(s, acts).history, AnyConflict) == Tally(s.history, AnyConflict) <==> CalmRun(s, acts)
    decreases acts
  {
    hide Idle, NextOf, Process, RcvFrom, Calm, PhasesDistinct, Bounded, Tally;
    if acts != [] {
      IdleIsBounded(s);
      var r, rest := Do(s, acts[0]), acts[1..];
      match acts[0] {
        case Receive(id) => ReceiveKeepsPhases(s, id);
        case Clock =>
          ConflictIff(s);
          ClockKeepsIdle(s);
      }
      ConflictsIff(r, rest);
      TallyGrows(r.history, Run(r, rest).history, AnyConflict);
    }
  }

  /** For every guarded run from the constructor on, with any number of banks: all counters of conflicts are 0 exactly
      when at no clock edge two heads that are due need the same bank. */
  lemma NoConflictIff(bankNum: int, sliceNum: int, acts: seq<Action>)
    requires bankNum >= 1 && sliceNum >= 1 && Guarded(Init(bankNum, sliceNum), acts)
    ensures var s := Run(Init(bankNum, sliceNum), acts);
      && |s.bankConflictVec| == bankNum
      && ((forall b :: 0 <= b < bankNum ==> s.bankConflictVec[b].readConflictCnt == 0)
          <==> CalmRun(Init(bankNum, sliceNum), acts))
  {
    hide Idle, Tally, Run, Guarded, CalmRun, PacketLedger, Sum, LinkInRange, ConflictSum;
    var i := Init(bankNum, sliceNum);
    var s := Run(i, acts);
    InitIsIdle(bankNum, sliceNum);
    ConflictsIff(i, acts);
    InitIsAudited(bankNum, sliceNum, 0);
    RunKeepsAudited(i, acts, 0);
    ConflictSumIsZero(s.bankConflictVec);
    assert Tally(i.history, AnyConflict) == 0 by { NoEvents(AnyConflict); }
  }

  /** A guarded run from the constructor on whose packets find their phases free counts no conflict in any bank. */
  lemma PhaseSafeRunHasNoConflict(bankNum: int, sliceNum: int, acts: seq<Action>, b: int)
    requires 0 <= b < bankNum && sliceNum >= 1
    requires Guarded(Init(bankNum, sliceNum), acts) && PhaseSafeRun(Init(bankNum, sliceNum), acts)
    ensures var s := Run(Init(bankNum, sliceNum), acts);
      b < |s.bankConflictVec| && s.bankConflictVec[b].readConflictCnt == 0
  {
    hide Idle, Run, Guarded, PhaseSafeRun, AlwaysDistinct, CalmRun;
    var i := Init(bankNum, sliceNum);
    InitIsIdle(bankNum, sliceNum);
    AlwaysDistinctIff(i, acts);
    DistinctIsCalm(i, acts);
    NoConflictIff(bankNum, sliceNum, acts);
  }
}
