/** What one clock edge makes of every entry of queue_map, member by member. */
module Entries {
  import opened Types
  import opened Spec
  import opened SimpleBuffer
  import opened HeapShape
  import opened Refinement
  import opened Scheduler
  import opened Cycle
  import opened Guard
  import opened Phases
  import opened ReadSideLaws
  import opened Departures

  /** What becomes of head id in the coming clock edge. */
  ghost function Fate(o: State, id: int): Outcome {
    if NextOf(o, id) > 1 then Waits else if Beaten(o, id) then Loses else Wins
  }

  ghost predicate Fated(o: State, r: State, id: int) {
    id in o.queueMap && EntryMoved(o, r, id, Fate(o, id))
  }

  // ---- The head loop ----

  lemma EntryIsKept(o: State, s: State, r: State, id: int)
    requires Fated(o, s, id) && SameFor(s, r, id)
    ensures Fated(o, r, id)
  {
    hide ChainOf, Beaten;
  }

  lemma EntryFromSame(o: State, s: State, r: State, id: int, d: Outcome)
    requires id in o.queueMap && id in s.queueMap && SameFor(o, s, id) && EntryMoved(s, r, id, d)
    ensures EntryMoved(o, r, id, d)
  {
    hide ChainOf;
  }

  ghost predicate FatedUpTo(o: State, s: State, n: int)
    requires n <= |o.decodeQueHead|
  {
    forall k :: 0 <= k < n ==> Fated(o, s, o.decodeQueHead[k])
  }

  lemma StepFates(o: State, s: State, i: int)
    requires LoopInv(o, s, i) && i < |s.decodeQueHead| && FatedUpTo(o, s, Done(o, s, i))
    ensures Done(o, s, i) + 1 <= |o.decodeQueHead| && FatedUpTo(o, Visit(s, i).s, Done(o, s, i) + 1)
  {
    hide Heap, Depths, Legal, Replay, Visit, InOrder, SeenUpTo, Flagged, LinkInRange, ChainOf, EntryMoved, MemoryMoved;
    hide SameFor, Moved, Beaten;
    var p, id, r := Done(o, s, i), s.decodeQueHead[i], Visit(s, i).s;
    LoopAt(o, s, i);
    LinkedHeads(s);
    BeatenLoses(o, s, i);
    VisitMoves(s, i);
    NextIsPositive(s, id);
    assert SameFor(o, s, o.decodeQueHead[p]);
    NextStays(o, s, id);
    EntryFromSame(o, s, r, id, Decide(s, id));
    forall k | 0 <= k < p ensures Fated(o, r, o.decodeQueHead[k]) {
      VisitSpares(s, i, o.decodeQueHead[k]);
      EntryIsKept(o, s, r, o.decodeQueHead[k]);
    }
  }

  lemma NextStays(o: State, s: State, id: int)
    requires SameFor(o, s, id) && id in s.queueMap
    ensures NextOf(o, id) == NextOf(s, id)
  {
    hide ChainOf;
  }

  lemma {:induction false} LoopFates(o: State, s: State, i: int, erased: bool)
    requires LoopInv(o, s, i) && (erased <==> |s.decodeQueHead| < |o.decodeQueHead|)
    requires FatedUpTo(o, s, Done(o, s, i))
    ensures erased ==> |s.decodeQueHead| < LINK_NUM
    ensures var v := HeadLoop(s, i, erased).s; FatedUpTo(o, v, |o.decodeQueHead|)
    decreases |s.decodeQueHead| - i
  {
    hide Heap, Depths, Legal, Replay, Visit, InOrder, SeenUpTo, SameFrom, Flagged, Timed, Fated;
    if i < |s.decodeQueHead| {
      StepFates(o, s, i);
      LoopInvStep(o, s, i);
      var v := Visit(s, i);
      LoopFates(o, v.s, if v.erased then i else i + 1, erased || v.erased);
    }
  }

  // ---- The clock edge ----

  /** The entry of a head after a clock edge, by its fate. */
  lemma HeadEntry(s: State, h: int)
    requires Idle(s) && h in Fill(s).decodeQueHead
    ensures Fated(Fill(s), Process(s), h)
  {
    hide Heap, Depths, Legal, Replay, Timed, Filled, Finish, HeadLoop, Fill, Process, LoopInv, Fated, SameFor;
    hide FilledQueues;
    var f := Fill(s);
    FillFills(s);
    LoopStarts(f);
    StartsUnfated(f);
    LoopFates(f, f, 0, false);
    HeadLoopSparesQueues(f, 0, false);
    ProcessFinishes(s);
    LinkedHeads(f);
    var v := HeadLoop(f, 0, false);
    FinishSpares(v, h);
    var k :| 0 <= k < |f.decodeQueHead| && f.decodeQueHead[k] == h;
    EntryIsKept(f, v.s, Process(s), h);
  }

  lemma StartsUnfated(f: State)
    ensures Done(f, f, 0) == 0 && FatedUpTo(f, f, 0)
  {}

  /** The entry of packet id: it points to the packet's first stored slice, with counter 4 and the given delay. */
  ghost predicate Fresh(s: State, id: int, delay: int) {
    var c := ChainOf(s, id);
    c != [] && id in s.queueMap && s.queueMap[id] == QueueInfo(c[0].bank, c[0].slot, 4, delay)
  }

  lemma FreshByTimers(s: State, id: int)
    requires Linked(s) && id in s.queueMap && s.queueMap[id].counter == 4
    ensures Fresh(s, id, s.queueMap[id].delay)
  {
    hide Heap, Depths, Legal, Replay;
    ReleasesFirst(s, id);
  }

  lemma FillerEntry(s: State, k: int)
    requires Idle(s) && |s.decodeQueHead| <= k < |Fill(s).decodeQueHead|
    ensures Fresh(Fill(s), Fill(s).decodeQueHead[k], k - |s.decodeQueHead| + 1)
  {
    hide Linked, Timed, Settled, Fill, Fresh, NextOf;
    IdleIsBounded(s);
    FillFills(s);
    FillNexts(s);
    WaitsAt(s, k - |s.decodeQueHead|);
    FreshByTimers(Fill(s), Fill(s).decodeQueHead[k]);
  }

  lemma OtherEntry(s: State, id: int)
    requires Idle(s) && id in s.queueMap && (id in s.decodeQueHead || id !in Fill(s).decodeQueHead)
    ensures id in Fill(s).queueMap && Fill(s).queueMap[id] == s.queueMap[id]
  {
    hide Linked, Timed, Settled, Fill;
    IdleIsBounded(s);
    FillFills(s);
    LinkedHeads(s);
    var n := |Fill(s).decodeQueHead| - |s.decodeQueHead|;
    assert forall q :: q in s.decodeQue[..n] ==> q in Fill(s).decodeQueHead && q in s.decodeQue;
  }

  /** Filling: the k-th packet put in service (from 1) gets delay k, and no other entry changes. */
  lemma FillEntries(s: State)
    requires Idle(s)
    ensures forall k :: |s.decodeQueHead| <= k < |Fill(s).decodeQueHead| ==>
      Fresh(Fill(s), Fill(s).decodeQueHead[k], k - |s.decodeQueHead| + 1)
    ensures forall id :: id in s.queueMap && (id in s.decodeQueHead || id !in Fill(s).decodeQueHead) ==>
      id in Fill(s).queueMap && Fill(s).queueMap[id] == s.queueMap[id]
  {
    hide Idle, Fill, Fresh;
    forall k | |s.decodeQueHead| <= k < |Fill(s).decodeQueHead|
      ensures Fresh(Fill(s), Fill(s).decodeQueHead[k], k - |s.decodeQueHead| + 1)
    {
      FillerEntry(s, k);
    }
    forall id | id in s.queueMap && (id in s.decodeQueHead || id !in Fill(s).decodeQueHead)
      ensures id in Fill(s).queueMap && Fill(s).queueMap[id] == s.queueMap[id]
    {
      OtherEntry(s, id);
    }
  }

  lemma NewcomerTimers(s: State, z: int)
    requires Idle(s) && z in Process(s).decodeQueHead && z !in Fill(s).decodeQueHead
    ensures var r := Process(s);
      z in r.queueMap && r.queueMap[z].delay == 4 - |r.decodeQueHead| && r.queueMap[z].counter == 4
  {
    hide Idle, Fill, HeadLoop, Process, NextOf, NoDup, Ahead;
    IdleIsBounded(s);
    ProcessHeads(s);
    var v := HeadLoop(Fill(s), 0, false).s.decodeQueHead;
    assert z !in v;
    assert v + [Fill(s).decodeQue[0]] == Process(s).decodeQueHead;
  }

  /** A packet that takes the place of a head gets delay 4 less the length of the list that it joins. */
  lemma NewcomerEntry(s: State, z: int)
    requires Idle(s) && Idle(Process(s)) && z in Process(s).decodeQueHead && z !in Fill(s).decodeQueHead
    ensures Fresh(Process(s), z, 4 - |Process(s).decodeQueHead|)
  {
    hide Idle, Fill, Process, ChainOf, Linked;
    IdleIsBounded(s);
    IdleIsBounded(Process(s));
    NewcomerTimers(s, z);
    FreshByTimers(Process(s), z);
  }

  /** A packet that waits, or is being written and has a stored slice, is ready to be read at once. */
  lemma WaitingEntry(s: State, id: int)
    requires Idle(s) && id in s.queueMap && id !in s.decodeQueHead
    ensures Fresh(s, id, 0)
  {
    hide Linked, Fresh;
    FreshByTimers(s, id);
  }

  /** queue_map after a clock edge that loses no packet, entry by entry: heads by their fate, the packet that takes the
      place of a head, and all others. */
  lemma EntriesAfter(s: State, id: int)
    requires Idle(s) && Safe(s, Clock)
    ensures var f, r := Fill(s), Process(s);
      && Idle(r)
      && (id in f.decodeQueHead ==> Fated(f, r, id))
      && (id in r.decodeQueHead && id !in f.decodeQueHead ==> Fresh(r, id, 4 - |r.decodeQueHead|))
      && (id in r.queueMap && id !in r.decodeQueHead ==> Fresh(r, id, 0))
  {
    hide Idle, Fill, Process, Fated, Fresh, LosesNext;
    IdleIsBounded(s);
    ClockKeepsIdle(s);
    var f, r := Fill(s), Process(s);
    if id in f.decodeQueHead { HeadEntry(s, id); }
    if id in r.decodeQueHead && id !in f.decodeQueHead { NewcomerEntry(s, id); }
    if id in r.queueMap && id !in r.decodeQueHead { WaitingEntry(r, id); }
  }
}
