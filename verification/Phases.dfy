/** Heads whose reads fall into different cycles modulo 4 never meet. */
module Phases {
  import opened Types
  import opened Spec
  import opened SimpleBuffer
  import opened HeapShape
  import opened Refinement
  import opened Ledger
  import opened Scheduler
  import opened Cycle
  import opened Lists

  /** In how many cycles head h reads. */
  function NextOf(s: State, h: int): int {
    if h in s.queueMap then Next(s.queueMap[h]) else 0
  }

  /** No two heads have their next reads a multiple of 4 cycles apart. */
  ghost predicate PhasesDistinct(s: State) {
    forall a, b :: a in s.decodeQueHead && b in s.decodeQueHead && a != b ==> NextOf(s, a) % 4 != NextOf(s, b) % 4
  }

  ghost predicate OneDue(s: State) {
    forall a, b :: a in s.decodeQueHead && b in s.decodeQueHead && NextOf(s, a) == 1 && NextOf(s, b) == 1 ==> a == b
  }

  /** The number of heads from list position k on that read in the coming cycle. */
  function DueFrom(s: State, k: nat): nat
    requires k <= |s.decodeQueHead|
    decreases |s.decodeQueHead| - k
  {
    if k == |s.decodeQueHead| then 0
    else (if NextOf(s, s.decodeQueHead[k]) == 1 then 1 else 0) + DueFrom(s, k + 1)
  }

  lemma VisitIsCounted(s: State, i: int)
    requires Linked(s) && Timed(s) && 0 <= i < |s.decodeQueHead| && s.decodeQueHead[i] in s.queueMap
    ensures var d, h := Decide(s, s.decodeQueHead[i]), Visit(s, i).s.history;
      && Tally(h, AnyRelease) == Tally(s.history, AnyRelease) + (if d == Wins then 1 else 0)
      && Tally(h, AnyConflict) == Tally(s.history, AnyConflict) + (if d == Loses then 1 else 0)
  {
    hide Linked, Tally, Put;
    var id := s.decodeQueHead[i];
    TickCounts(s.queueMap[id]);
    var l := Loc(s.queueMap[id].bankId, s.queueMap[id].sliceId);
    TallySnoc(s.history, ReadConflict(id, l));
    TallySnoc(s.history, ReadRelease(id, l));
    TallySnoc(s.history + [ReadRelease(id, l)], DecodeErase(id));
  }

  /** Head id is due, and so is a head in front of it that needs the same bank. */
  ghost predicate Beaten(o: State, id: int) {
    id in o.queueMap && NextOf(o, id) == 1 && exists q :: q in Ahead(o.decodeQueHead, id) && Contends(o, q, id)
  }

  /** The number of heads from list position k on that are due and find their bank taken. */
  ghost function BeatenFrom(o: State, k: nat): nat
    requires k <= |o.decodeQueHead|
    decreases |o.decodeQueHead| - k
  {
    if k == |o.decodeQueHead| then 0
    else (if Beaten(o, o.decodeQueHead[k]) then 1 else 0) + BeatenFrom(o, k + 1)
  }

  lemma BeatenLoses(o: State, s: State, i: int)
    requires LoopInv(o, s, i) && i < |s.decodeQueHead|
    ensures var id := s.decodeQueHead[i];
      && id in s.queueMap
      && (Decide(s, id) == Loses <==> Beaten(o, id))
      && (Decide(s, id) == Wins <==> NextOf(o, id) == 1 && !Beaten(o, id))
  {
    hide Heap, Depths, Legal, Replay, Visit, InOrder, SeenUpTo, LinkInRange, ChainOf, Flagged, SameFrom;
    var id, p := s.decodeQueHead[i], Done(o, s, i);
    LoopAt(o, s, i);
    FlagTells(o, s, i);
    assert TimerOk(s.queueMap[id]);
    if s.readBankIdVec[s.queueMap[id].bankId] == 1 {
      var k :| Winner(o, s, k, p, s.queueMap[id].bankId);
      AheadHas(o.decodeQueHead, k, p);
      assert Contends(o, o.decodeQueHead[k], id);
    }
  }

  lemma StepIsCounted(o: State, s: State, i: int)
    requires LoopInv(o, s, i) && i < |s.decodeQueHead|
    ensures 0 <= Done(o, s, i) < |o.decodeQueHead|
    ensures var t, u, id := s.history, Visit(s, i).s.history, o.decodeQueHead[Done(o, s, i)];
      && Tally(u, AnyConflict) == Tally(t, AnyConflict) + (if Beaten(o, id) then 1 else 0)
      && Tally(u, AnyRelease) + Tally(u, AnyConflict) ==
           Tally(t, AnyRelease) + Tally(t, AnyConflict) + (if NextOf(o, id) == 1 then 1 else 0)
  {
    hide Heap, Depths, Legal, Replay, Tally, Visit, InOrder, SeenUpTo, Flagged, LinkInRange, ChainOf, SameFrom;
    LoopAt(o, s, i);
    VisitIsCounted(s, i);
    BeatenLoses(o, s, i);
  }

  /** The head loop counts a conflict for every due head that finds its bank taken, and a release for every other due
      head. */
  lemma {:induction false} LoopIsCounted(o: State, s: State, i: int, erased: bool)
    requires LoopInv(o, s, i) && (erased <==> |s.decodeQueHead| < |o.decodeQueHead|)
    ensures erased ==> |s.decodeQueHead| < LINK_NUM
    ensures var t, u := s.history, HeadLoop(s, i, erased).s.history;
      && Tally(u, AnyConflict) == Tally(t, AnyConflict) + BeatenFrom(o, Done(o, s, i))
      && Tally(u, AnyRelease) + Tally(u, AnyConflict) ==
           Tally(t, AnyRelease) + Tally(t, AnyConflict) + DueFrom(o, Done(o, s, i))
    decreases |s.decodeQueHead| - i
  {
    hide Heap, Depths, Legal, Replay, Tally, Visit, InOrder, SeenUpTo, SameFrom, Flagged, Timed, NextOf, Beaten;
    if i < |s.decodeQueHead| {
      StepIsCounted(o, s, i);
      LoopInvStep(o, s, i);
      var v := Visit(s, i);
      LoopIsCounted(o, v.s, if v.erased then i else i + 1, erased || v.erased);
    }
  }

  // ---- Conflicts exactly ----

  /** Heads a and b are both due and need the same bank. */
  ghost predicate Clash(s: State, a: int, b: int) {
    && a in s.decodeQueHead && b in s.decodeQueHead && a != b && a in s.queueMap && b in s.queueMap
    && NextOf(s, a) == 1 && NextOf(s, b) == 1 && s.queueMap[a].bankId == s.queueMap[b].bankId
  }

  /** No two heads that are due need the same bank. */
  ghost predicate Calm(s: State) {
    forall a, b :: !Clash(s, a, b)
  }

  lemma {:induction false} BeatenIsCounted(o: State, k: nat, j: nat)
    requires k <= j < |o.decodeQueHead| && Beaten(o, o.decodeQueHead[j])
    ensures BeatenFrom(o, k) > 0
    decreases j - k
  {
    hide Beaten;
    if k < j { BeatenIsCounted(o, k + 1, j); }
  }

  lemma {:induction false} NoneBeaten(o: State, k: nat)
    requires k <= |o.decodeQueHead| && forall j :: k <= j < |o.decodeQueHead| ==> !Beaten(o, o.decodeQueHead[j])
    ensures BeatenFrom(o, k) == 0
    decreases |o.decodeQueHead| - k
  {
    hide Beaten;
    if k < |o.decodeQueHead| { NoneBeaten(o, k + 1); }
  }

  lemma ClashBeats(o: State, j: nat, k: nat)
    requires NoDup(o.decodeQueHead) && j < k < |o.decodeQueHead|
    requires Clash(o, o.decodeQueHead[j], o.decodeQueHead[k])
    ensures Beaten(o, o.decodeQueHead[k])
  {
    hide NoDup, Next;
    AheadHas(o.decodeQueHead, j, k);
    assert Contends(o, o.decodeQueHead[j], o.decodeQueHead[k]);
  }

  lemma BeatenClashes(o: State, h: int)
    requires h in o.decodeQueHead && Beaten(o, h)
    ensures !Calm(o)
  {
    hide Next;
    AheadIn(o.decodeQueHead, h);
    var q :| q in Ahead(o.decodeQueHead, h) && Contends(o, q, h);
    assert Clash(o, q, h);
  }

  lemma NoneBeatenIff(o: State)
    requires NoDup(o.decodeQueHead)
    ensures BeatenFrom(o, 0) == 0 <==> Calm(o)
  {
    hide Beaten, NoDup;
    if Calm(o) {
      forall j | 0 <= j < |o.decodeQueHead| ensures !Beaten(o, o.decodeQueHead[j]) {
        if Beaten(o, o.decodeQueHead[j]) { BeatenClashes(o, o.decodeQueHead[j]); }
      }
      NoneBeaten(o, 0);
    } else {
      var a, b :| Clash(o, a, b);
      var j :| 0 <= j < |o.decodeQueHead| && o.decodeQueHead[j] == a;
      var k :| 0 <= k < |o.decodeQueHead| && o.decodeQueHead[k] == b;
      if j < k {
        ClashBeats(o, j, k);
        BeatenIsCounted(o, 0, k);
      } else {
        ClashBeats(o, k, j);
        BeatenIsCounted(o, 0, j);
      }
    }
  }

  // ---- Counting over one clock edge ----

  lemma {:induction false} FillLoopIsNotCounted(s: State, d: int, k: Kind)
    requires |s.decodeQueHead| + |s.decodeQue| >= LINK_NUM && k in {AnyRelease, AnyConflict}
    ensures Tally(FillLoop(s, d).history, k) == Tally(s.history, k)
    decreases LINK_NUM - |s.decodeQueHead|
  {
    hide Tally, Bounded;
    if |s.decodeQueHead| < LINK_NUM {
      TallySnoc(s.history, PutInService(s.decodeQue[0]));
      FillLoopIsNotCounted(StartService(s, d), d + 1, k);
    }
  }

  lemma PlaceSliceIsNotCounted(x: State, k: Kind)
    requires Bounded(x) && x.encodeQue != [] && k in {AnyRelease, AnyConflict}
    ensures Tally(PlaceSlice(x).history, k) == Tally(x.history, k)
  {
    hide Tally, LinkInRange, Put, FirstFree;
    TallySnoc(x.history, WriteAllocate(x.encodeQue[0], Target(x)));
    TallySnoc(x.history, WriteSkip(x.encodeQue[0]));
  }

  lemma WriteIsNotCounted(x: State, k: Kind)
    requires Bounded(x) && k in {AnyRelease, AnyConflict}
    ensures Tally(Write(x).history, k) == Tally(x.history, k)
  {
    hide Tally, LinkInRange, PlaceSlice;
    if x.encodeQue != [] {
      var y := x.(writeCnt := 1);
      PlaceSliceIsNotCounted(y, k);
      TallySnoc(PlaceSlice(y).history, WriteDone(x.encodeQue[0]));
    }
  }

  lemma FinishIsNotCounted(v: Visited, k: Kind)
    requires Bounded(v.s) && (v.erased ==> |v.s.decodeQueHead| < LINK_NUM) && k in {AnyRelease, AnyConflict}
    ensures Tally(Finish(v).history, k) == Tally(v.s.history, k)
  {
    hide Tally, LinkInRange, Write;
    if v.s.decodeQue != [] { TallySnoc(v.s.history, PutInService(v.s.decodeQue[0])); }
    WriteIsNotCounted(Refill(v.s, v.erased), k);
  }

  lemma ProcessIsCounted(s: State)
    requires Idle(s)
    ensures var t, u := s.history, Process(s).history;
      && Tally(u, AnyRelease) + Tally(u, AnyConflict) ==
           Tally(t, AnyRelease) + Tally(t, AnyConflict) + DueFrom(Fill(s), 0)
      && Tally(u, AnyConflict) == Tally(t, AnyConflict) + BeatenFrom(Fill(s), 0)
  {
    hide Heap, Depths, Legal, Replay, Tally, Timed, Filled, SeenUpTo, Flagged, SameFrom, Beaten, Finish, HeadLoop;
    hide StartService;
    var f := Fill(s);
    FillFills(s);
    if |s.decodeQue| > LINK_NUM {
      FillLoopIsNotCounted(s, 1, AnyRelease);
      FillLoopIsNotCounted(s, 1, AnyConflict);
    }
    LoopStarts(f);
    LoopIsCounted(f, f, 0, false);
    ProcessFinishes(s);
    FinishIsNotCounted(HeadLoop(f, 0, false), AnyRelease);
    FinishIsNotCounted(HeadLoop(f, 0, false), AnyConflict);
  }

  // ---- Keeping the phases apart ----

  lemma NextIsPositive(s: State, h: int)
    requires Linked(s) && Timed(s) && h in s.decodeQueHead
    ensures h in s.queueMap && NextOf(s, h) >= 1
  {
    hide Heap, Depths, Legal, Replay;
    LinkedHeads(s);
  }

  lemma PhasesGiveOneDue(s: State)
    requires PhasesDistinct(s)
    ensures OneDue(s)
  {}

  lemma NewcomerNext(s: State, f: State, i: nat)
    requires FilledQueues(s, f) && FilledTimers(s, f, 1) && i < |f.decodeQueHead| - |s.decodeQueHead|
    requires s.decodeQue[i] in s.queueMap
    ensures f.decodeQueHead[|s.decodeQueHead| + i] == s.decodeQue[i]
    ensures NextOf(f, s.decodeQue[i]) == i + READ_DELAY
  {
    hide Replay;
  }

  lemma WaitsAt(s: State, i: nat)
    requires Linked(s) && i < |s.decodeQue|
    ensures s.decodeQue[i] in s.queueMap && s.decodeQue[i] !in s.decodeQueHead
  {
    hide Linked;
    WaitingPackets(s);
    var id := s.decodeQue[i];
    assert id in s.decodeQue;
  }

  lemma OldNext(s: State, f: State, h: int)
    requires FilledTimers(s, f, 1) && h in s.queueMap && h !in s.decodeQue
    ensures NextOf(f, h) == NextOf(s, h)
  {
    OthersKeepTimers(s, f, 1, h);
  }

  lemma FillNexts(s: State)
    requires Idle(s)
    ensures var f, m, n := Fill(s), |s.decodeQueHead|, |Fill(s).decodeQueHead|;
      && n == (if |s.decodeQue| > LINK_NUM then LINK_NUM else m)
      && m <= n && f.decodeQueHead[..m] == s.decodeQueHead && n - m <= |s.decodeQue|
      && (forall h :: h in s.decodeQueHead ==> NextOf(f, h) == NextOf(s, h) && h in s.queueMap)
      && (forall k :: m <= k < n ==> f.decodeQueHead[k] == s.decodeQue[k - m] && f.decodeQueHead[k] !in s.decodeQueHead)
      && (forall k :: m <= k < n ==> NextOf(f, f.decodeQueHead[k]) == k - m + 4)
  {
    hide Linked, Timed, Fill, NoDup, Replay, FilledTimers, NextOf;
    IdleIsBounded(s);
    var f, m, n := Fill(s), |s.decodeQueHead|, |Fill(s).decodeQueHead|;
    FillFills(s);
    LinkedHeads(s);
    WaitingPackets(s);
    forall k | m <= k < n ensures f.decodeQueHead[k] == s.decodeQue[k - m]
      ensures f.decodeQueHead[k] !in s.decodeQueHead && NextOf(f, f.decodeQueHead[k]) == k - m + 4
    {
      WaitsAt(s, k - m);
      NewcomerNext(s, f, k - m);
    }
    forall h | h in s.decodeQueHead ensures NextOf(f, h) == NextOf(s, h) { OldNext(s, f, h); }
  }

  lemma FillKeepsPlaces(s: State)
    requires Idle(s)
    ensures forall h :: h in s.decodeQueHead ==>
      h in s.queueMap && h in Fill(s).queueMap && h in Fill(s).decodeQueHead && Fill(s).queueMap[h] == s.queueMap[h]
  {
    hide Linked, Timed, Fill, NoDup, Replay;
    IdleIsBounded(s);
    FillFills(s);
    LinkedHeads(s);
    forall h | h in s.decodeQueHead ensures Fill(s).queueMap[h] == s.queueMap[h] { OthersKeepTimers(s, Fill(s), 1, h); }
  }

  /** A newcomer is not due yet. */
  lemma DueWasHead(s: State, h: int)
    requires Idle(s) && h in Fill(s).decodeQueHead && NextOf(Fill(s), h) < READ_DELAY
    ensures h in s.decodeQueHead && NextOf(s, h) == NextOf(Fill(s), h)
  {
    hide Idle, Fill, NextOf;
    FillNexts(s);
    var f, m := Fill(s), |s.decodeQueHead|;
    var k :| 0 <= k < |f.decodeQueHead| && f.decodeQueHead[k] == h;
    if k < m { assert f.decodeQueHead[..m][k] == h; }
  }

  lemma FillOneDue(s: State)
    requires Idle(s) && OneDue(s)
    ensures OneDue(Fill(s))
  {
    hide Idle, Fill, NextOf;
    var f := Fill(s);
    forall a, b | a in f.decodeQueHead && b in f.decodeQueHead && NextOf(f, a) == 1 && NextOf(f, b) == 1
      ensures a == b
    {
      DueWasHead(s, a);
      DueWasHead(s, b);
    }
  }

  lemma FillKeepsClash(s: State, a: int, b: int)
    requires Idle(s)
    ensures Clash(Fill(s), a, b) <==> Clash(s, a, b)
  {
    hide Idle, Fill, NextOf;
    FillKeepsPlaces(s);
    FillNexts(s);
    if Clash(Fill(s), a, b) {
      DueWasHead(s, a);
      DueWasHead(s, b);
    }
  }

  /** A clock edge counts no read conflict exactly when no two heads that are due need the same bank. */
  lemma ConflictIff(s: State)
    requires Idle(s)
    ensures Tally(Process(s).history, AnyConflict) >= Tally(s.history, AnyConflict)
    ensures Tally(Process(s).history, AnyConflict) == Tally(s.history, AnyConflict) <==> Calm(s)
  {
    hide Idle, Fill, NextOf, Tally, Process, Clash, Linked;
    IdleIsBounded(s);
    FillFills(s);
    LinkedHeads(Fill(s));
    ProcessIsCounted(s);
    NoneBeatenIff(Fill(s));
    forall a, b ensures Clash(Fill(s), a, b) <==> Clash(s, a, b) { FillKeepsClash(s, a, b); }
  }

  lemma OneDueIsCalm(s: State)
    requires OneDue(s)
    ensures Calm(s)
  {}

  /** With one head due at most, every due head releases a slice. */
  lemma OneDueIsCounted(s: State)
    requires Idle(s) && OneDue(s)
    ensures Tally(Process(s).history, AnyConflict) == Tally(s.history, AnyConflict)
    ensures Tally(Process(s).history, AnyRelease) == Tally(s.history, AnyRelease) + DueFrom(Fill(s), 0)
  {
    hide Idle, Fill, NextOf, Tally, Process, Calm;
    OneDueIsCalm(s);
    ConflictIff(s);
    ProcessIsCounted(s);
  }

  lemma TwoPhases(s: State, a: int, b: int)
    requires PhasesDistinct(s) && a in s.decodeQueHead && b in s.decodeQueHead && a != b
    ensures NextOf(s, a) % 4 != NextOf(s, b) % 4
  {}

  lemma NewcomersPhases(s: State, h: int)
    requires Idle(s) && PhasesDistinct(Fill(s)) && |s.decodeQue| > LINK_NUM && h in s.decodeQueHead
    ensures NextOf(s, h) % 4 >= LINK_NUM - |s.decodeQueHead|
  {
    hide Idle, Fill, NextOf, PhasesDistinct;
    FillNexts(s);
    var f, m, r := Fill(s), |s.decodeQueHead|, NextOf(s, h) % 4;
    assert h in f.decodeQueHead[..m];
    if m + r < LINK_NUM { TwoPhases(f, h, f.decodeQueHead[m + r]); }
  }

  /** Filling keeps the phases distinct exactly when no head is in the phase of a newcomer: the k-th newcomer (from
      0) reads in k + 4 cycles. */
  lemma FillPhasesIff(s: State)
    requires Idle(s) && PhasesDistinct(s)
    ensures PhasesDistinct(Fill(s)) <==>
      (|s.decodeQue| > LINK_NUM ==>
        forall h :: h in s.decodeQueHead ==> NextOf(s, h) % 4 >= LINK_NUM - |s.decodeQueHead|)
  {
    hide Idle, Fill, NextOf;
    FillNexts(s);
    if |s.decodeQue| > LINK_NUM && PhasesDistinct(Fill(s)) {
      forall h | h in s.decodeQueHead ensures NextOf(s, h) % 4 >= LINK_NUM - |s.decodeQueHead| {
        NewcomersPhases(s, h);
      }
    }
  }

  /** A head that is still there has moved one cycle closer to its next read, modulo 4; one that was erased was due. */
  lemma OneDueMoves(f: State, r: State, h: int)
    requires OneDue(f) && Seen(f, r, h) && h in f.decodeQueHead
    requires forall q :: q in Ahead(f.decodeQueHead, h) ==> q in f.decodeQueHead && q != h
    ensures h in r.decodeQueHead ==> h in r.queueMap && NextOf(r, h) % 4 == (NextOf(f, h) - 1) % 4
    ensures h in r.decodeQueHead && NextOf(f, h) > 1 ==> NextOf(r, h) == NextOf(f, h) - 1
    ensures h in r.decodeQueHead && NextOf(f, h) == 1 ==> NextOf(r, h) == READ_DELAY
    ensures h !in r.decodeQueHead ==> NextOf(f, h) == 1
  {
    hide ChainOf, Next;
    assert forall q :: q in Ahead(f.decodeQueHead, h) && q in f.queueMap && Moved(f, r, q, Wins) ==> NextOf(f, q) == 1;
  }

  lemma ProcessMoves(s: State, h: int)
    requires Idle(s) && OneDue(Fill(s)) && h in Fill(s).decodeQueHead
    ensures var f, r := Fill(s), Process(s);
      && (h in r.decodeQueHead ==> NextOf(r, h) == (if NextOf(f, h) == 1 then READ_DELAY else NextOf(f, h) - 1))
      && (h !in r.decodeQueHead ==> NextOf(f, h) == 1)
      && NextOf(f, h) >= 1
  {
    hide Heap, Depths, Legal, Replay, Timed, Filled, Seen, Process, Fill, Ahead;
    var f := Fill(s);
    FillFills(s);
    ProcessSees(s, h);
    LinkedHeads(f);
    var k :| 0 <= k < |f.decodeQueHead| && f.decodeQueHead[k] == h;
    AheadOnly(f.decodeQueHead, k);
    OneDueMoves(f, Process(s), h);
    NextIsPositive(f, h);
  }

  /** The heads after a clock edge are heads of the filled list, and at most one newcomer that took the place of an
      erased head. */
  lemma ProcessHeads(s: State)
    requires Idle(s)
    ensures var f, r := Fill(s), Process(s);
      var v := HeadLoop(f, 0, false);
      && v.s.decodeQue == f.decodeQue && InOrder(f, v.s) && NoDup(v.s.decodeQueHead)
      && (v.erased <==> |v.s.decodeQueHead| < |f.decodeQueHead|) && |v.s.decodeQueHead| <= |f.decodeQueHead|
      && (if v.erased && f.decodeQue != [] then
            && r.decodeQueHead == v.s.decodeQueHead + [f.decodeQue[0]]
            && f.decodeQue[0] !in f.decodeQueHead
            && f.decodeQue[0] in r.queueMap
            && r.queueMap[f.decodeQue[0]].delay == 4 - |r.decodeQueHead| && r.queueMap[f.decodeQue[0]].counter == 4
            && NextOf(r, f.decodeQue[0]) == Next(QueueInfo(0, 0, READ_DELAY, 3 - |v.s.decodeQueHead|))
          else r.decodeQueHead == v.s.decodeQueHead)
  {
    hide Heap, Depths, Legal, Replay, Filled, SeenUpTo, Flagged, SameFrom, HeadLoop, Fill, Write;
    var f := Fill(s);
    FillFills(s);
    HeadLoopSees(f);
    HeadLoopSparesQueues(f, 0, false);
    ProcessFinishes(s);
    var v := HeadLoop(f, 0, false);
    LinkedHeads(v.s);
    WaitingPackets(v.s);
    WaitingPackets(f);
    var r := Refill(v.s, v.erased);
    if v.erased && f.decodeQue != [] {
      var id := f.decodeQue[0];
      StartServiceFills(v.s, 3 - |v.s.decodeQueHead|);
      assert v.s.decodeQue[..1] == [id];
      LinkedHeads(r);
      WriteSpares(r, id);
    }
    WriteSparesHeads(r);
  }

  lemma ErasedLeavesOne(s: State)
    requires Idle(s) && OneDue(Fill(s)) && HeadLoop(Fill(s), 0, false).erased
    ensures |HeadLoop(Fill(s), 0, false).s.decodeQueHead| == |Fill(s).decodeQueHead| - 1
    ensures exists e :: e in Fill(s).decodeQueHead && e !in Process(s).decodeQueHead && NextOf(Fill(s), e) == 1
  {
    hide Idle, Fill, HeadLoop, Process, NextOf, Linked;
    IdleIsBounded(s);
    var f, v := Fill(s), HeadLoop(Fill(s), 0, false);
    FillFills(s);
    LinkedHeads(f);
    ProcessHeads(s);
    forall h | h in f.decodeQueHead && h !in v.s.decodeQueHead
      ensures h !in Process(s).decodeQueHead && NextOf(f, h) == 1
    {
      ProcessMoves(s, h);
    }
    if e :| e in f.decodeQueHead && e !in v.s.decodeQueHead {
      LossOfOne(f.decodeQueHead, v.s.decodeQueHead, e);
    } else {
      DistinctCount(f.decodeQueHead);
      DistinctCount(v.s.decodeQueHead);
      assert forall h :: h in f.decodeQueHead ==> h in v.s.decodeQueHead;
      SubsetCount(set h | h in f.decodeQueHead, set h | h in v.s.decodeQueHead);
    }
  }

  /** A head that leaves was due with one slice left, and a due head with one slice left leaves. */
  lemma LastSliceLeaves(s: State, h: int)
    requires Idle(s) && OneDue(s) && h in s.decodeQueHead
    ensures h !in Process(s).decodeQueHead <==> NextOf(s, h) == 1 && |ChainOf(s, h)| == 1
  {
    hide Heap, Depths, Legal, Replay, Timed, Process, Fill, Ahead, TimerOk;
    var f, r := Fill(s), Process(s);
    FillFills(s);
    FillOneDue(s);
    FillKeepsPlaces(s);
    ProcessSees(s, h);
    LinkedHeads(f);
    AheadIn(f.decodeQueHead, h);
    assert forall q :: q in Ahead(f.decodeQueHead, h) ==> !Contends(f, q, h) || NextOf(f, h) != 1;
    assert |ChainOf(f, h)| >= 1;
  }

  /** What a newcomer that took the place of an erased head finds: the heads that stayed, one fewer than before. */
  lemma NewcomerNextOf(s: State, h: int)
    requires Idle(s) && OneDue(s) && h in Process(s).decodeQueHead && h !in Fill(s).decodeQueHead
    ensures Fill(s).decodeQue != [] && h == Fill(s).decodeQue[0]
    ensures NextOf(Process(s), h) == match |Fill(s).decodeQueHead| case 1 => 6 case 2 => 5 case _ => 4
    ensures exists e :: e in Fill(s).decodeQueHead && e !in Process(s).decodeQueHead && NextOf(Fill(s), e) == 1
  {
    hide Idle, Fill, HeadLoop, Process, NextOf;
    FillOneDue(s);
    IdleIsBounded(s);
    ProcessHeads(s);
    ErasedLeavesOne(s);
  }

  /** If some head leaves and a packet waits, the packet takes its place. */
  lemma NewcomerArrives(s: State, e: int)
    requires Idle(s) && OneDue(s) && Fill(s).decodeQue != []
    requires e in Fill(s).decodeQueHead && e !in Process(s).decodeQueHead
    ensures Fill(s).decodeQue[0] in Process(s).decodeQueHead && Fill(s).decodeQue[0] !in Fill(s).decodeQueHead
  {
    hide Idle, Fill, HeadLoop, Process, NextOf, Linked;
    FillOneDue(s);
    IdleIsBounded(s);
    ProcessHeads(s);
    var f, v := Fill(s), HeadLoop(Fill(s), 0, false);
    FillFills(s);
    LinkedHeads(f);
    if !v.erased { LossIsShorter(f.decodeQueHead, v.s.decodeQueHead, e); }
  }

  lemma StayerPhase(s: State, h: int)
    requires Idle(s) && OneDue(s) && h in Process(s).decodeQueHead && h in Fill(s).decodeQueHead
    ensures NextOf(Process(s), h) % 4 == (NextOf(Fill(s), h) - 1) % 4
  {
    hide Idle, Fill, Process, NextOf;
    FillOneDue(s);
    ProcessMoves(s, h);
  }

  lemma PreviousPhase(x: int, y: int)
    ensures (x - 1) % 4 == (y - 1) % 4 <==> x % 4 == y % 4
  {}

  /** The refill of a list that loses one of two heads gives a delay of 2: the newcomer reads in the phase of the
      head that stays if that one has 2 cycles to go, modulo 4. */
  ghost predicate RefillCollides(s: State, a: int, b: int) {
    && |s.decodeQueHead| == 2 && 0 < |s.decodeQue| <= LINK_NUM
    && a in s.decodeQueHead && b in s.decodeQueHead && a != b
    && NextOf(s, a) == 1 && |ChainOf(s, a)| == 1 && NextOf(s, b) % 4 == 2
  }

  ghost predicate FillSafe(s: State) {
    |s.decodeQue| > LINK_NUM ==>
      forall h :: h in s.decodeQueHead ==> NextOf(s, h) % 4 >= LINK_NUM - |s.decodeQueHead|
  }

  /** The packets that the coming clock edge puts in service find their phases free. */
  ghost predicate PhaseSafe(s: State) {
    FillSafe(s) && forall a, b :: !RefillCollides(s, a, b)
  }

  lemma SafeStayers(s: State, a: int, b: int)
    requires Idle(s) && PhasesDistinct(s) && FillSafe(s) && a != b
    requires a in Process(s).decodeQueHead && b in Process(s).decodeQueHead
    requires a in Fill(s).decodeQueHead && b in Fill(s).decodeQueHead
    ensures NextOf(Process(s), a) % 4 != NextOf(Process(s), b) % 4
  {
    hide Idle, Fill, Process, NextOf;
    FillPhasesIff(s);
    PhasesGiveOneDue(s);
    TwoPhases(Fill(s), a, b);
    StayerPhase(s, a);
    StayerPhase(s, b);
    PreviousPhase(NextOf(Fill(s), a), NextOf(Fill(s), b));
  }

  lemma SafeNewcomer(s: State, a: int, b: int)
    requires Idle(s) && PhasesDistinct(s) && PhaseSafe(s) && a != b
    requires a in Process(s).decodeQueHead && b in Process(s).decodeQueHead
    requires a in Fill(s).decodeQueHead && b !in Fill(s).decodeQueHead
    ensures NextOf(Process(s), a) % 4 != NextOf(Process(s), b) % 4
  {
    hide Idle, Fill, Process, NextOf, ChainOf, RefillCollides, PhasesDistinct;
    IdleIsBounded(s);
    FillPhasesIff(s);
    PhasesGiveOneDue(s);
    StayerPhase(s, a);
    NewcomerNextOf(s, b);
    var f := Fill(s);
    var e :| e in f.decodeQueHead && e !in Process(s).decodeQueHead && NextOf(f, e) == 1;
    TwoPhases(f, a, e);
    PreviousPhase(NextOf(f, a), 1);
    NotAlone(f.decodeQueHead, a, e);
    if |f.decodeQueHead| == 2 { SafeRefill(s, e, a); }
  }

  lemma NotAlone(h: seq<int>, a: int, e: int)
    requires a in h && e in h && a != e
    ensures |h| >= 2
  {}

  lemma SafeRefill(s: State, e: int, b: int)
    requires Idle(s) && PhasesDistinct(s) && PhaseSafe(s) && e != b
    requires e in Fill(s).decodeQueHead && e !in Process(s).decodeQueHead && b in Fill(s).decodeQueHead
    requires |Fill(s).decodeQueHead| == 2 && Fill(s).decodeQue != []
    ensures NextOf(Fill(s), b) % 4 != 2
  {
    hide Idle, HeadLoop, Process, NextOf, ChainOf, Bounded;
    PhasesGiveOneDue(s);
    FillFills(s);
    assert Fill(s) == s;
    LastSliceLeaves(s, e);
    assert !RefillCollides(s, e, b);
  }

  lemma OneNewcomer(s: State, a: int, b: int)
    requires Idle(s) && OneDue(s)
    requires a in Process(s).decodeQueHead && b in Process(s).decodeQueHead
    ensures a in Fill(s).decodeQueHead || b in Fill(s).decodeQueHead || a == b
  {
    hide Idle, Fill, HeadLoop, Process, NextOf;
    if a !in Fill(s).decodeQueHead && b !in Fill(s).decodeQueHead {
      NewcomerNextOf(s, a);
      NewcomerNextOf(s, b);
    }
  }

  lemma FillLeavesWaiting(s: State)
    requires Idle(s) && |s.decodeQue| > LINK_NUM
    ensures |Fill(s).decodeQue| == |s.decodeQue| + |s.decodeQueHead| - LINK_NUM
  {
    hide Linked, Timed, Fill;
    FillFills(s);
  }

  lemma SamePhase(s: State, a: int, b: int)
    requires a in s.decodeQueHead && b in s.decodeQueHead && a != b && NextOf(s, a) % 4 == NextOf(s, b) % 4
    ensures !PhasesDistinct(s)
  {}

  /** A collision made by filling outlives the cycle: if the old head leaves, its replacement reads in the phase of the
      newcomer that collided with it. */
  lemma FillCollisionStays(s: State, h: int)
    requires Idle(s) && PhasesDistinct(s) && |s.decodeQue| > LINK_NUM
    requires h in s.decodeQueHead && NextOf(s, h) % 4 < LINK_NUM - |s.decodeQueHead|
    ensures !PhasesDistinct(Process(s))
  {
    hide Idle, Fill, HeadLoop, Process, NextOf, Linked, PhasesDistinct, Filled;
    IdleIsBounded(s);
    PhasesGiveOneDue(s);
    FillOneDue(s);
    FillNexts(s);
    FillFills(s);
    FillLeavesWaiting(s);
    var f, r, k := Fill(s), Process(s), NextOf(s, h) % 4;
    var q := f.decodeQueHead[|s.decodeQueHead| + k];
    assert q in f.decodeQueHead && NextOf(f, q) == k + 4;
    assert h in f.decodeQueHead[..|s.decodeQueHead|];
    ProcessMoves(s, q);
    ProcessMoves(s, h);
    if h in r.decodeQueHead {
      StayerPhase(s, h);
      StayerPhase(s, q);
      SamePhase(r, h, q);
    } else {
      NewcomerArrives(s, h);
      NewcomerNextOf(s, f.decodeQue[0]);
      SamePhase(r, f.decodeQue[0], q);
    }
  }

  lemma RefillCollisionStays(s: State, a: int, b: int)
    requires Idle(s) && PhasesDistinct(s) && RefillCollides(s, a, b)
    ensures !PhasesDistinct(Process(s))
  {
    hide Idle, HeadLoop, Process, NextOf, ChainOf, Bounded;
    PhasesGiveOneDue(s);
    FillOneDue(s);
    assert Fill(s) == s;
    LastSliceLeaves(s, a);
    LastSliceLeaves(s, b);
    StayerPhase(s, b);
    NewcomerArrives(s, a);
    NewcomerNextOf(s, s.decodeQue[0]);
  }

  /** The exact law of the phases: heads in distinct phases are in distinct phases after the clock edge exactly when
      the packets that it puts in service find their phases free. */
  lemma PhasesStayDistinctIff(s: State)
    requires Idle(s) && PhasesDistinct(s)
    ensures PhasesDistinct(Process(s)) <==> PhaseSafe(s)
  {
    hide Idle, Fill, HeadLoop, Process, NextOf, RefillCollides;
    IdleIsBounded(s);
    var f, r := Fill(s), Process(s);
    PhasesGiveOneDue(s);
    if PhaseSafe(s) {
      forall a, b | a in r.decodeQueHead && b in r.decodeQueHead && a != b
        ensures NextOf(r, a) % 4 != NextOf(r, b) % 4
      {
        OneNewcomer(s, a, b);
        if a !in f.decodeQueHead {
          SafeNewcomer(s, b, a);
        } else if b !in f.decodeQueHead {
          SafeNewcomer(s, a, b);
        } else {
          SafeStayers(s, a, b);
        }
      }
    } else if FillSafe(s) {
      var a, b :| RefillCollides(s, a, b);
      RefillCollisionStays(s, a, b);
    } else {
      var h :| h in s.decodeQueHead && NextOf(s, h) % 4 < LINK_NUM - |s.decodeQueHead|;
      FillCollisionStays(s, h);
    }
  }

  /** With nothing in service and fewer than 5 packets waiting the read side does nothing. */
  lemma EmptyServiceGoesOn(b: State)
    requires Idle(b) && b.decodeQueHead == [] && |b.decodeQue| <= LINK_NUM
    ensures ReadSide(b) == b
    ensures Process(b).decodeQueHead == []
    ensures Tally(Process(b).history, AnyConflict) == Tally(b.history, AnyConflict)
  {
    hide Linked, Timed, Settled, Write, Tally, Put;
    IdleIsBounded(b);
    WriteSparesHeads(b);
    assert HeadLoop(b, 0, false) == Visited(b, false);
    FinishIsNotCounted(Visited(b, false), AnyConflict);
  }
}
