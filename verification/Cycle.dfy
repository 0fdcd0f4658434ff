/** What one clock edge does to each packet in service. */
module Cycle {
  import opened Types
  import opened Spec
  import opened SimpleBuffer
  import opened HeapShape
  import opened Refinement
  import opened Scheduler

  ghost predicate FlagsClear(s: State) {
    forall b :: 0 <= b < |s.readBankIdVec| ==> s.readBankIdVec[b] == 0
  }

  ghost predicate Settled(s: State) {
    forall id :: id in s.queueMap ==> s.queueMap[id].delay < READ_DELAY
  }

  /** What holds between two clock edges: the state represents a simple buffer, the timers are in range and no bank
      is marked as read. */
  ghost predicate Idle(s: State) {
    Linked(s) && Timed(s) && FlagsClear(s) && Settled(s)
  }

  lemma IdleIsBounded(s: State)
    requires Idle(s)
    ensures Bounded(s) && Linked(s)
  {}

  // ---- Filling ----

  /** f is s with the first packets of decode_que put in service; the k-th newcomer (from 0) has delay k + d. */
  ghost predicate Filled(s: State, f: State, d: int) {
    FilledQueues(s, f) && FilledTimers(s, f, d)
  }

  ghost predicate FilledQueues(s: State, f: State) {
    var n := |f.decodeQueHead| - |s.decodeQueHead|;
    && 0 <= n <= |s.decodeQue|
    && f.decodeQueHead == s.decodeQueHead + s.decodeQue[..n] && f.decodeQue == s.decodeQue[n..]
    && f.encodeQue == s.encodeQue && f.readBankIdVec == s.readBankIdVec && f.bankDeepVec == s.bankDeepVec
    && Replay(f.history).chain == Replay(s.history).chain
  }

  ghost predicate FilledTimers(s: State, f: State, d: int) {
    var n := |f.decodeQueHead| - |s.decodeQueHead|;
    && 0 <= n <= |s.decodeQue| && f.queueMap.Keys == s.queueMap.Keys
    && (forall k :: 0 <= k < n && s.decodeQue[k] in f.queueMap ==>
          f.queueMap[s.decodeQue[k]].delay == k + d && f.queueMap[s.decodeQue[k]].counter == READ_DELAY)
    && (forall id :: id in s.queueMap && id !in s.decodeQue[..n] ==> f.queueMap[id] == s.queueMap[id])
  }

  lemma WaitingPackets(s: State)
    requires Linked(s)
    ensures NoDup(s.decodeQue)
    ensures forall id :: id in s.decodeQue ==> id in s.queueMap && id !in s.decodeQueHead && id !in s.encodeQue
  {
    hide Heap, Depths, Legal, Replay, Exclusive;
    var b := Replay(s.history);
    LegalIsSound(s.history);
    var m := |b.service|;
    assert Live(b)[m..m + |b.ready|] == b.ready;
    forall id | id in b.ready ensures id in b.chain && id !in b.service && id !in b.inbox { LiveOnce(b, id); }
  }

  lemma StartServiceFills(s: State, d: int)
    requires Linked(s) && Timed(s) && s.decodeQue != [] && |s.decodeQueHead| < LINK_NUM && 0 <= d <= READ_DELAY
    ensures var r := StartService(s, d); Linked(r) && Timed(r) && Filled(s, r, d)
  {
    hide Heap, Depths, Legal, Replay;
    StartServiceKeepsLinked(s, d);
    WaitingPackets(s);
    assert s.decodeQue[..1] == [s.decodeQue[0]];
  }

  lemma NothingFilled(s: State, d: int)
    ensures Filled(s, s, d)
  {}

  lemma FilledQueuesThen(s: State, r: State, f: State)
    requires FilledQueues(s, r) && FilledQueues(r, f) && |r.decodeQueHead| == |s.decodeQueHead| + 1
    ensures FilledQueues(s, f) && |s.decodeQue| > 0 && r.decodeQue == s.decodeQue[1..]
  {
    hide Replay;
    var q, n := s.decodeQue, |f.decodeQueHead| - |s.decodeQueHead|;
    assert r.decodeQue == q[1..];
    assert q[..n] == q[..1] + r.decodeQue[..n - 1];
  }

  lemma OthersKeepTimers(r: State, f: State, d: int, id: int)
    requires FilledTimers(r, f, d) && id in r.queueMap && id !in r.decodeQue
    ensures f.queueMap[id] == r.queueMap[id]
  {
    var n := |f.decodeQueHead| - |r.decodeQueHead|;
    assert id !in r.decodeQue[..n];
  }

  lemma FilledTimersThen(s: State, r: State, f: State, d: int)
    requires FilledTimers(s, r, d) && FilledTimers(r, f, d + 1) && |r.decodeQueHead| == |s.decodeQueHead| + 1
    requires NoDup(s.decodeQue) && s.decodeQue != [] && r.decodeQue == s.decodeQue[1..]
    ensures FilledTimers(s, f, d)
  {
    hide NoDup;
    var q, n := s.decodeQue, |f.decodeQueHead| - |s.decodeQueHead|;
    SplitAt(q, 0);
    assert q[..1] == [q[0]];
    assert q[..n] == [q[0]] + r.decodeQue[..n - 1];
    forall k | 0 <= k < n && q[k] in f.queueMap
      ensures f.queueMap[q[k]].delay == k + d && f.queueMap[q[k]].counter == READ_DELAY
    {
      if k > 0 {
        assert q[k] == r.decodeQue[k - 1];
      } else {
        assert r.queueMap[q[0]].delay == 0 + d;
        OthersKeepTimers(r, f, d + 1, q[0]);
      }
    }
  }

  lemma FilledThen(s: State, r: State, f: State, d: int)
    requires Filled(s, r, d) && Filled(r, f, d + 1) && |r.decodeQueHead| == |s.decodeQueHead| + 1
    requires NoDup(s.decodeQue)
    ensures Filled(s, f, d)
  {
    hide FilledQueues, FilledTimers;
    FilledQueuesThen(s, r, f);
    FilledTimersThen(s, r, f, d);
  }

  lemma {:induction false} FillLoopFills(s: State, d: int)
    requires Linked(s) && Timed(s) && |s.decodeQueHead| + |s.decodeQue| >= LINK_NUM
    requires 1 <= d && d + LINK_NUM - |s.decodeQueHead| <= READ_DELAY + 1
    ensures Linked(FillLoop(s, d)) && Timed(FillLoop(s, d)) && Filled(s, FillLoop(s, d), d)
    ensures |FillLoop(s, d).decodeQueHead| == LINK_NUM
    decreases LINK_NUM - |s.decodeQueHead|
  {
    hide Heap, Depths, Legal, Replay, Timed, Filled;
    if |s.decodeQueHead| < LINK_NUM {
      var r := StartService(s, d);
      StartServiceFills(s, d);
      WaitingPackets(s);
      FillLoopFills(r, d + 1);
      FilledThen(s, r, FillLoop(r, d + 1), d);
    } else {
      NothingFilled(s, d);
    }
  }

  lemma FillFills(s: State)
    requires Idle(s)
    ensures Linked(Fill(s)) && Timed(Fill(s)) && FlagsClear(Fill(s)) && Filled(s, Fill(s), 1)
    ensures |Fill(s).decodeQueHead| == if |s.decodeQue| > LINK_NUM then LINK_NUM else |s.decodeQueHead|
  {
    hide Heap, Depths, Legal, Replay;
    if |s.decodeQue| > LINK_NUM { FillLoopFills(s, 1); }
  }

  // ---- After the head loop: refill, write, clear ----

  lemma {:induction false} AheadAppend(h: seq<int>, t: seq<int>, id: int)
    requires id in h
    ensures Ahead(h + t, id) == Ahead(h, id)
  {
    if h[0] != id {
      AheadAppend(h[1..], t, id);
      assert (h + t)[1..] == h[1..] + t;
    }
  }

  lemma RefillSpares(x: State, erased: bool, h: int)
    requires Bounded(x) && (erased ==> |x.decodeQueHead| < LINK_NUM) && h !in x.decodeQue
    ensures SameFor(x, Refill(x, erased), h)
  {
    hide Legal, Replay;
    if erased && x.decodeQue != [] { ReplaySnoc(x.history, PutInService(x.decodeQue[0])); }
  }

  lemma PlaceSliceSpares(x: State, h: int)
    requires Bounded(x) && h !in x.encodeQue && x.encodeQue != []
    ensures SameFor(x, PlaceSlice(x), h) && PlaceSlice(x).decodeQueHead == x.decodeQueHead
  {
    hide Legal, Replay, FirstFree, Put, LinkInRange;
    ReplaySnoc(x.history, WriteAllocate(x.encodeQue[0], Target(x)));
    ReplaySnoc(x.history, WriteSkip(x.encodeQue[0]));
  }

  lemma WriteSpares(x: State, h: int)
    requires Bounded(x) && h !in x.encodeQue
    ensures SameFor(x, Write(x), h) && Write(x).decodeQueHead == x.decodeQueHead
  {
    hide Legal, Replay, PlaceSlice, LinkInRange;
    if x.encodeQue != [] {
      var y := x.(writeCnt := 1);
      PlaceSliceSpares(y, h);
      ReplaySnoc(PlaceSlice(y).history, WriteDone(x.encodeQue[0]));
    }
  }

  lemma WriteSparesHeads(x: State)
    requires Bounded(x)
    ensures Write(x).decodeQueHead == x.decodeQueHead
  {
    hide FirstFree, Put, LinkInRange;
  }

  /** The part of process() after the head loop. */
  function Finish(v: Visited): State
    requires Bounded(v.s) && (v.erased ==> |v.s.decodeQueHead| < LINK_NUM)
  {
    ClearFlags(Write(Refill(v.s, v.erased)))
  }

  lemma FinishSpares(v: Visited, h: int)
    requires Bounded(v.s) && (v.erased ==> |v.s.decodeQueHead| < LINK_NUM)
    requires h !in v.s.decodeQue && h !in v.s.encodeQue
    ensures SameFor(v.s, Finish(v), h)
    ensures h in v.s.decodeQueHead ==> Ahead(Finish(v).decodeQueHead, h) == Ahead(v.s.decodeQueHead, h)
  {
    hide Write, Replay, LinkInRange;
    var r := Refill(v.s, v.erased);
    RefillSpares(v.s, v.erased, h);
    WriteSpares(r, h);
    assert SameFor(r, Write(r), h);
    if h in v.s.decodeQueHead && v.s.decodeQue != [] { AheadAppend(v.s.decodeQueHead, [v.s.decodeQue[0]], h); }
  }

  lemma RefillKeepsTimed(v: Visited)
    requires Linked(v.s) && Timed(v.s) && Settled(v.s) && (v.erased ==> |v.s.decodeQueHead| < LINK_NUM)
    ensures var r := Refill(v.s, v.erased); Linked(r) && Timed(r) && Settled(r)
  {
    hide Heap, Depths, Legal, Replay;
    if v.erased && v.s.decodeQue != [] {
      StartServiceFills(v.s, 4 - (|v.s.decodeQueHead| + 1));
      WaitingPackets(v.s);
    }
  }

  lemma WriteKeepsTimed(x: State)
    requires Linked(x) && Timed(x) && Settled(x)
    ensures Timed(Write(x)) && Settled(Write(x))
  {
    hide Heap, Depths, Legal, Replay, FirstFree, Put;
    LinkedHeads(x);
  }

  // ---- The clock edge ----

  lemma LoopStarts(f: State)
    requires Linked(f) && Timed(f) && FlagsClear(f)
    ensures LoopInv(f, f, 0)
  {
    hide Heap, Depths, Legal, Replay, Timed;
  }

  lemma HeadLoopSees(f: State)
    requires Linked(f) && Timed(f) && FlagsClear(f)
    ensures var v := HeadLoop(f, 0, false);
      LoopInv(f, v.s, |v.s.decodeQueHead|) && (v.erased <==> |v.s.decodeQueHead| < |f.decodeQueHead|)
  {
    LoopStarts(f);
    LoopInvHolds(f, f, 0, false);
  }

  lemma LoopSettles(f: State, r: State)
    requires LoopInv(f, r, |r.decodeQueHead|)
    ensures Settled(r)
  {
    hide Heap, Depths, Legal, Replay, Moved, Flagged, SameFrom, Ahead;
    forall id | id in r.queueMap ensures r.queueMap[id].delay < READ_DELAY {
      if id in r.decodeQueHead {
        var k :| 0 <= k < |f.decodeQueHead| && f.decodeQueHead[k] == id;
        assert Seen(f, r, f.decodeQueHead[k]);
      }
    }
  }

  /** The head loop leaves the waiting packets alone. */
  lemma {:induction false} HeadLoopSparesQueues(s: State, i: int, erased: bool)
    requires Bounded(s) && 0 <= i <= |s.decodeQueHead| && (erased ==> |s.decodeQueHead| < LINK_NUM)
    ensures var r := HeadLoop(s, i, erased).s;
      r.decodeQue == s.decodeQue && r.encodeQue == s.encodeQue
      && r.writeSliceNum == s.writeSliceNum && r.writeCnt == s.writeCnt
      && r.lastBankId == s.lastBankId && r.lastSliceId == s.lastSliceId
    decreases |s.decodeQueHead| - i
  {
    hide LinkInRange, Put;
    if i < |s.decodeQueHead| {
      var v := Visit(s, i);
      HeadLoopSparesQueues(v.s, if v.erased then i else i + 1, erased || v.erased);
    }
  }

  lemma ProcessFinishes(s: State)
    requires Bounded(s)
    ensures var v := HeadLoop(Fill(s), 0, false);
      Process(s) == Finish(v) && ReadSide(s) == Refill(v.s, v.erased)
  {}

  lemma FinishKeepsSeen(f: State, v: Visited, h: int)
    requires Linked(f) && LoopInv(f, v.s, |v.s.decodeQueHead|) && (v.erased ==> |v.s.decodeQueHead| < LINK_NUM)
    requires v.s.decodeQue == f.decodeQue && v.s.encodeQue == f.encodeQue && h in f.decodeQueHead
    ensures Seen(f, Finish(v), h)
    ensures h in Finish(v).decodeQueHead ==> Ahead(Finish(v).decodeQueHead, h) <= Ahead(f.decodeQueHead, h)
  {
    hide Heap, Depths, Legal, Replay, Timed, Seen, Ahead, Finish, SameFrom, Flagged;
    LinkedHeads(f);
    var r := Finish(v);
    forall q | q in f.decodeQueHead ensures SameFor(v.s, r, q) { FinishSpares(v, q); }
    FinishSpares(v, h);
    var k :| 0 <= k < |f.decodeQueHead| && f.decodeQueHead[k] == h;
    AheadOnly(f.decodeQueHead, k);
    SeenIsKept(f, v.s, r, h);
  }

  /** A clock edge settles the fate of every head of the filled list and keeps the order of those that stay. */
  lemma ProcessSees(s: State, h: int)
    requires Idle(s) && h in Fill(s).decodeQueHead
    ensures var f, r := Fill(s), Process(s);
      && Seen(f, r, h)
      && (h in r.decodeQueHead ==> Ahead(r.decodeQueHead, h) <= Ahead(f.decodeQueHead, h))
  {
    hide Heap, Depths, Legal, Replay, Timed, Filled, Seen, Ahead, Finish, HeadLoop, Fill, Process, LoopInv;
    var f := Fill(s);
    FillFills(s);
    HeadLoopSees(f);
    HeadLoopSparesQueues(f, 0, false);
    ProcessFinishes(s);
    FinishKeepsSeen(f, HeadLoop(f, 0, false), h);
  }

  /** A clock edge that loses no packet keeps the buffer idle. */
  lemma ProcessKeepsIdle(s: State)
    requires Idle(s) && !LosesPacket(ReadSide(s))
    ensures Idle(Process(s))
  {
    hide Heap, Depths, Legal, Replay, Timed, Filled, HeadLoop, Fill, Refill, Write, SeenUpTo, Flagged, SameFrom;
    var f := Fill(s);
    FillFills(s);
    HeadLoopSees(f);
    var v := HeadLoop(f, 0, false);
    LoopSettles(f, v.s);
    RefillKeepsTimed(v);
    WriteKeepsTimed(Refill(v.s, v.erased));
    ClockKeepsLinked(s);
    ProcessFinishes(s);
    ClearKeepsTimed(Write(Refill(v.s, v.erased)));
  }

  lemma ClearKeepsTimed(x: State)
    requires Bounded(x) && Timed(x) && Settled(x)
    ensures Timed(ClearFlags(x)) && Settled(ClearFlags(x)) && FlagsClear(ClearFlags(x))
  {}
}
