/** What the read side of a clock edge leaves alone, and what the write that follows adds. */
module ReadSideLaws {
  import opened Types
  import opened Spec
  import opened SimpleBuffer
  import opened HeapShape
  import opened Refinement
  import opened Ledger
  import opened Scheduler
  import opened Cycle
  import opened Occupancy

  /** Since history t nothing was received, stored or skipped. */
  ghost predicate Quiet(t: seq<Event>, u: seq<Event>) {
    && IdsReceived(u) == IdsReceived(t)
    && Tally(u, AnyAllocation) == Tally(t, AnyAllocation) && Tally(u, AnySkip) == Tally(t, AnySkip)
  }

  lemma QuietSnoc(t: seq<Event>, u: seq<Event>, e: Event)
    requires Quiet(t, u) && !e.Received? && !e.WriteAllocate? && !e.WriteSkip?
    ensures Quiet(t, u + [e])
  {
    TallySnoc(u, e);
    assert (u + [e])[..|u|] == u;
  }

  lemma {:induction false} FillLoopIsQuiet(t: seq<Event>, s: State, d: int)
    requires Quiet(t, s.history) && |s.decodeQueHead| + |s.decodeQue| >= LINK_NUM
    ensures Quiet(t, FillLoop(s, d).history)
    decreases LINK_NUM - |s.decodeQueHead|
  {
    hide Quiet, Bounded;
    if |s.decodeQueHead| < LINK_NUM {
      QuietSnoc(t, s.history, PutInService(s.decodeQue[0]));
      FillLoopIsQuiet(t, StartService(s, d), d + 1);
    }
  }

  lemma VisitIsQuiet(t: seq<Event>, s: State, i: int)
    requires Bounded(s) && 0 <= i < |s.decodeQueHead| && Quiet(t, s.history)
    ensures Quiet(t, Visit(s, i).s.history)
  {
    hide Quiet, Put, LinkInRange;
    var id := s.decodeQueHead[i];
    if id in s.queueMap {
      var l := Loc(s.queueMap[id].bankId, s.queueMap[id].sliceId);
      QuietSnoc(t, s.history, ReadConflict(id, l));
      QuietSnoc(t, s.history, ReadRelease(id, l));
      QuietSnoc(t, s.history + [ReadRelease(id, l)], DecodeErase(id));
    }
  }

  lemma {:induction false} HeadLoopIsQuiet(t: seq<Event>, s: State, i: int, erased: bool)
    requires Bounded(s) && 0 <= i <= |s.decodeQueHead| && (erased ==> |s.decodeQueHead| < LINK_NUM)
    requires Quiet(t, s.history)
    ensures Quiet(t, HeadLoop(s, i, erased).s.history)
    decreases |s.decodeQueHead| - i
  {
    hide Quiet, Visit, LinkInRange;
    if i < |s.decodeQueHead| {
      VisitIsQuiet(t, s, i);
      var v := Visit(s, i);
      HeadLoopIsQuiet(t, v.s, if v.erased then i else i + 1, erased || v.erased);
    }
  }

  lemma ReadSideIsQuiet(s: State)
    requires Bounded(s)
    ensures Quiet(s.history, ReadSide(s).history)
    ensures ReadSide(s).encodeQue == s.encodeQue && ReadSide(s).writeSliceNum == s.writeSliceNum
    ensures ReadSide(s).writeCnt == s.writeCnt && ReadSide(s).lastBankId == s.lastBankId
  {
    hide Quiet, HeadLoop, LinkInRange;
    assert Quiet(s.history, s.history) by { QuietStart(s.history); }
    if |s.decodeQue| > LINK_NUM {
      FillLoopIsQuiet(s.history, s, 1);
      FillLoopKeepsWriter(s, 1);
    }
    var f := Fill(s);
    HeadLoopIsQuiet(s.history, f, 0, false);
    HeadLoopSparesQueues(f, 0, false);
    var v := HeadLoop(f, 0, false);
    if v.erased && v.s.decodeQue != [] { QuietSnoc(s.history, v.s.history, PutInService(v.s.decodeQue[0])); }
  }

  lemma QuietStart(t: seq<Event>)
    ensures Quiet(t, t)
  {}

  lemma {:induction false} FillLoopKeepsWriter(s: State, d: int)
    requires |s.decodeQueHead| + |s.decodeQue| >= LINK_NUM
    ensures FillLoop(s, d).encodeQue == s.encodeQue && FillLoop(s, d).writeSliceNum == s.writeSliceNum
    ensures FillLoop(s, d).writeCnt == s.writeCnt && FillLoop(s, d).lastBankId == s.lastBankId
    decreases LINK_NUM - |s.decodeQueHead|
  {
    hide Bounded;
    if |s.decodeQueHead| < LINK_NUM { FillLoopKeepsWriter(StartService(s, d), d + 1); }
  }

  // ---- Waiting packets stay whole ----

  lemma {:induction false} HeadLoopSparesWaiting(s: State, i: int, erased: bool, q: int)
    requires Linked(s) && 0 <= i <= |s.decodeQueHead| && (erased ==> |s.decodeQueHead| < LINK_NUM)
    requires q !in s.decodeQueHead
    ensures q !in HeadLoop(s, i, erased).s.decodeQueHead
    ensures ChainOf(HeadLoop(s, i, erased).s, q) == ChainOf(s, q)
    decreases |s.decodeQueHead| - i
  {
    hide Heap, Depths, Legal, Replay, Visit, ChainOf, Pointers, LinkInRange;
    if i < |s.decodeQueHead| {
      var v := Visit(s, i);
      VisitKeepsLinked(s, i);
      VisitSpares(s, i, q);
      HeadLoopSparesWaiting(v.s, if v.erased then i else i + 1, erased || v.erased, q);
    }
  }

  lemma ReadSideSparesWaiting(s: State, q: int)
    requires Idle(s) && (q in Fill(s).decodeQue || q in s.encodeQue)
    ensures ChainOf(ReadSide(s), q) == ChainOf(s, q)
  {
    hide Heap, Depths, Legal, Replay, Timed, HeadLoop, Fill, Bounded, Pointers, Short, WriterAt, LoopInv;
    var f := Fill(s);
    FillFills(s);
    HeadLoopSees(f);
    HeadLoopKeepsLinked(f, 0, false);
    var v := HeadLoop(f, 0, false);
    WaitingPackets(f);
    LinkedHeads(f);
    HeadLoopSparesWaiting(f, 0, false, q);
    if v.erased && v.s.decodeQue != [] { StartServiceKeepsLinked(v.s, 4 - (|v.s.decodeQueHead| + 1)); }
  }

  lemma ReadSideShrinksQueue(s: State)
    requires Idle(s)
    ensures forall q :: q in ReadSide(s).decodeQue ==> q in Fill(s).decodeQue && q in s.decodeQue
  {
    hide Linked, Timed, HeadLoop, Fill, Bounded;
    IdleIsBounded(s);
    var f := Fill(s);
    FillFills(s);
    HeadLoopSparesQueues(f, 0, false);
  }

  lemma ReadSideKeepsWhole(s: State)
    requires Idle(s) && Whole(s)
    ensures Whole(ReadSide(s))
  {
    hide Heap, Depths, Legal, Replay, Timed, ReadSide, Fill, Bounded, Pointers, Short, WriterAt;
    ReadSideKeepsLinked(s);
    ReadSideIsQuiet(s);
    ReadSideShrinksQueue(s);
    var r := ReadSide(s);
    forall q | q in r.decodeQue || q in s.encodeQue ensures ChainOf(r, q) == ChainOf(s, q) {
      ReadSideSparesWaiting(s, q);
    }
    assert s.encodeQue != [] ==> ChainOf(r, s.encodeQue[0]) == ChainOf(s, s.encodeQue[0]);
  }

  // ---- A write that finds room ----

  /** The write of one slice into a free slot, counted; the sixteenth one hands the packet over. */
  lemma WriteStores(x: State)
    requires Linked(x) && x.encodeQue != [] && Target(x).slot < x.sliceNum
    ensures var w := Write(x);
      && IdsReceived(w.history) == IdsReceived(x.history)
      && Tally(w.history, AnyAllocation) == Tally(x.history, AnyAllocation) + 1
      && Tally(w.history, AnySkip) == Tally(x.history, AnySkip)
      && Tally(w.history, AnyRelease) == Tally(x.history, AnyRelease)
      && (if x.writeSliceNum == 1
          then w.writeSliceNum == PACKET_SLICES && w.encodeQue == x.encodeQue[1..]
               && w.decodeQue == x.decodeQue + [x.encodeQue[0]]
          else w.writeSliceNum == x.writeSliceNum - 1 && w.encodeQue == x.encodeQue && w.decodeQue == x.decodeQue)
  {
    hide Heap, Depths, Legal, Replay, Tally, IdsReceived, LinkInRange, Put, FirstFree, Pointers, Short;
    var id, l := x.encodeQue[0], Target(x);
    assert x.(writeCnt := 1) == x;
    Stores(x.history, WriteAllocate(id, l));
    Stores(PlaceSlice(x).history, WriteDone(id));
  }

  lemma Stores(t: seq<Event>, e: Event)
    requires e.WriteAllocate? || e.WriteDone?
    ensures IdsReceived(t + [e]) == IdsReceived(t)
    ensures forall k :: k in {AnyAllocation, AnySkip, AnyRelease} ==>
      Tally(t + [e], k) == Tally(t, k) + if k == AnyAllocation && e.WriteAllocate? then 1 else 0
  {
    TallySnoc(t, e);
    assert (t + [e])[..|t|] == t;
  }

  lemma WriteKeepsWhole(x: State)
    requires Linked(x) && Whole(x) && x.encodeQue != [] && Target(x).slot < x.sliceNum
    ensures Linked(Write(x)) && Whole(Write(x))
  {
    hide Heap, Depths, Legal, Replay, LinkInRange, Put, FirstFree, Pointers, Short, Exclusive;
    var id, l, b := x.encodeQue[0], Target(x), Replay(x.history);
    assert x.(writeCnt := 1) == x;
    WriteKeepsLinked(x);
    LegalIsSound(x.history);
    ReplaySnoc(x.history, WriteAllocate(id, l));
    var p := PlaceSlice(x);
    ReplaySnoc(p.history, WriteDone(id));
    forall q | q in x.decodeQue ensures q != id { LiveOnce(b, q); }
    if x.writeSliceNum == 1 && b.inbox[1..] != [] { NextPacketIsEmpty(b); }
  }

  lemma NextPacketIsEmpty(b: Buffer)
    requires Sound(b) && |b.inbox| > 1
    ensures b.inbox[1] !in b.chain && b.inbox[1] != b.inbox[0]
  {
    var k := |b.service| + |b.ready|;
    assert Live(b)[k] == b.inbox[0] && Live(b)[k + 1] == b.inbox[1];
    LiveOnce(b, b.inbox[1]);
  }
}
