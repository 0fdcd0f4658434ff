/** The writer spreads slices evenly over the banks. */
module Balance {
  import opened Types
  import opened Spec
  import opened SimpleBuffer
  import opened HeapShape
  import opened Refinement
  import opened Ledger
  import opened Scheduler
  import opened Cycle
  import opened Guard
  import opened Allocation

  /** The deepest and the shallowest bank differ by at most one. */
  ghost predicate Even(deep: seq<int>) {
    forall i, j :: 0 <= i < |deep| && 0 <= j < |deep| ==> deep[i] <= deep[j] + 1
  }

  lemma WriteKeepsEven(s: State)
    requires Linked(s) && FlagsClear(s) && Even(s.bankDeepVec)
    ensures Even(Write(s).bankDeepVec)
  {
    hide Heap, Depths, Legal, Replay, Put, FirstFree, LinkInRange, Scan;
    if s.encodeQue != [] {
      assert s.(writeCnt := 1) == s;
      if candidate :| 0 <= candidate < s.bankNum && Open(s, candidate) {
        WriteGoesToDeepestOpenBank(s, candidate);
      } else {
        NothingOpen(s);
      }
    }
  }

  lemma NothingOpen(s: State)
    requires Linked(s) && FlagsClear(s) && forall b :: 0 <= b < s.bankNum ==> !Open(s, b)
    ensures Target(s).slot == s.sliceNum
  {
    hide Heap, Legal, Replay, Scan, Target;
    assert !Open(s, 0);
    CountFreeRange(s.encodeVec[0]);
    DropsIff(s);
  }

  lemma {:induction false} FillLoopKeepsDepths(s: State, d: int)
    requires |s.decodeQueHead| + |s.decodeQue| >= LINK_NUM
    ensures var r := FillLoop(s, d);
      r.bankDeepVec == s.bankDeepVec && r.readBankIdVec == s.readBankIdVec
      && Tally(r.history, AnyRelease) == Tally(s.history, AnyRelease)
    decreases LINK_NUM - |s.decodeQueHead|
  {
    hide Bounded, Tally;
    if |s.decodeQueHead| < LINK_NUM {
      TallySnoc(s.history, PutInService(s.decodeQue[0]));
      FillLoopKeepsDepths(StartService(s, d), d + 1);
    }
  }

  lemma VisitKeepsDepths(s: State, i: int)
    requires Bounded(s) && 0 <= i < |s.decodeQueHead|
    ensures var r := Visit(s, i).s;
      (r.bankDeepVec == s.bankDeepVec && r.readBankIdVec == s.readBankIdVec)
      || Tally(r.history, AnyRelease) > Tally(s.history, AnyRelease)
  {
    hide Tally, Put, LinkInRange;
    var id := s.decodeQueHead[i];
    if id in s.queueMap {
      var l := Loc(s.queueMap[id].bankId, s.queueMap[id].sliceId);
      TallySnoc(s.history, ReadRelease(id, l));
      TallySnoc(s.history + [ReadRelease(id, l)], DecodeErase(id));
    }
  }

  lemma {:induction false} HeadLoopKeepsDepths(s: State, i: int, erased: bool)
    requires Bounded(s) && 0 <= i <= |s.decodeQueHead| && (erased ==> |s.decodeQueHead| < LINK_NUM)
    ensures var r := HeadLoop(s, i, erased).s;
      Tally(r.history, AnyRelease) == Tally(s.history, AnyRelease) ==>
      r.bankDeepVec == s.bankDeepVec && r.readBankIdVec == s.readBankIdVec
    decreases |s.decodeQueHead| - i
  {
    hide Tally, Visit, LinkInRange;
    if i < |s.decodeQueHead| {
      var v := Visit(s, i);
      VisitKeepsDepths(s, i);
      var w := HeadLoop(v.s, if v.erased then i else i + 1, erased || v.erased);
      HeadLoopKeepsDepths(v.s, if v.erased then i else i + 1, erased || v.erased);
      TallyGrows(s.history, v.s.history, AnyRelease);
      TallyGrows(v.s.history, w.s.history, AnyRelease);
    }
  }

  lemma ClockKeepsEven(s: State)
    requires Idle(s) && Even(s.bankDeepVec)
    requires Tally(Process(s).history, AnyRelease) == Tally(s.history, AnyRelease)
    ensures Even(Process(s).bankDeepVec)
  {
    hide Heap, Depths, Legal, Replay, Tally, Timed, HeadLoop, Write, LinkInRange, Even;
    var f := Fill(s);
    if |s.decodeQue| > LINK_NUM { FillLoopKeepsDepths(s, 1); }
    HeadLoopKeepsDepths(f, 0, false);
    var v := HeadLoop(f, 0, false);
    var r := Refill(v.s, v.erased);
    TallyGrows(f.history, v.s.history, AnyRelease);
    TallyGrows(v.s.history, r.history, AnyRelease);
    TallyGrows(r.history, Write(r).history, AnyRelease);
    ReadSideKeepsLinked(s);
    WriteKeepsEven(r);
  }

  /** For any number of banks: over a run without releases from equal depths, the deepest and the shallowest bank
      never differ by more than one. */
  lemma {:induction false} BanksStayEven(s: State, acts: seq<Action>)
    requires Idle(s) && Guarded(s, acts) && Even(s.bankDeepVec)
    requires Tally(Run(s, acts).history, AnyRelease) == Tally(s.history, AnyRelease)
    ensures Even(Run(s, acts).bankDeepVec)
    decreases acts
  {
    hide Heap, Depths, Legal, Replay, Tally, Process, Even, ReadSide, LinkInRange;
    if acts != [] {
      var r := Do(s, acts[0]);
      TallyGrows(s.history, r.history, AnyRelease);
      TallyGrows(r.history, Run(r, acts[1..]).history, AnyRelease);
      match acts[0] {
        case Receive(id) => ReceiveKeepsIdle(s, id);
        case Clock =>
          ClockKeepsIdle(s);
          ClockKeepsEven(s);
      }
      BanksStayEven(r, acts[1..]);
    }
  }
}
