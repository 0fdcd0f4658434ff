/** The source A, the buffer B and their composition TOP with 2 banks of 128 slices: at every clock edge either of the
    two processes may run first. */
module ClosedSystem {
  import opened Types
  import opened Spec
  import opened SimpleBuffer
  import opened HeapShape
  import opened Refinement
  import opened Ledger
  import opened Scheduler
  import opened Cycle
  import opened Guard
  import opened Phases
  import opened Occupancy
  import opened Allocation
  import opened ReadSideLaws
  import opened Delivery

  const BANK_NUM := 2
  const SLICE_NUM := 128

  /** The members of A. */
  datatype Source = Source(encode: int, cnt: int, queueId: int, decodeQue: seq<int>)

  datatype System = System(a: Source, b: State)

  /** A::process() with the two messages it may send (bank.cpp:36-69). */
  function SourceEdge(y: System): (r: System)
    requires Bounded(y.b)
    ensures Bounded(r.b)
  {
    var cnt, id := y.a.cnt + 1, y.a.queueId + 1;
    var encode := if cnt == 2 then 1 else y.a.encode;
    var b := if encode != 0 then RcvFrom(y.b, 0x1000, id) else y.b;
    var q := if encode != 0 then y.a.decodeQue + [id] else y.a.decodeQue;
    if q != [] then System(Source(encode, cnt, id, q[1..]), RcvFrom(b, 0x2000, q[0]))
    else System(Source(encode, cnt, id, q), b)
  }

  function BufferEdge(y: System): (r: System)
    requires Bounded(y.b)
    ensures Bounded(r.b)
  {
    y.(b := Process(y.b))
  }

  /** One clock edge of TOP. */
  function Edge(y: System, sourceFirst: bool): (r: System)
    requires Bounded(y.b)
    ensures Bounded(r.b)
  {
    if sourceFirst then BufferEdge(SourceEdge(y)) else SourceEdge(BufferEdge(y))
  }

  const START := System(Source(0, 0, 0, []), Init(BANK_NUM, SLICE_NUM))

  /** The system after one more clock edge for each element of orders, which says who runs first. */
  function Edges(y: System, orders: seq<bool>): (r: System)
    requires Bounded(y.b)
    ensures Bounded(r.b)
    decreases orders
  {
    if orders == [] then y else Edges(Edge(y, orders[0]), orders[1..])
  }

  function SystemRun(orders: seq<bool>): (y: System)
    ensures Bounded(y.b)
  {
    Edges(START, orders)
  }

  // ---- The invariant ----

  /** A after n clock edges. */
  ghost predicate SourceAt(a: Source, n: nat) {
    a == Source(if n >= 2 then 1 else 0, n, n, [])
  }

  /** How many packets A has sent after n clock edges: ids 2, 3, 4, ... from the second edge on. */
  function Sent(n: nat): nat {
    if n >= 2 then n - 1 else 0
  }

  ghost predicate ReceivedInOrder(t: seq<Event>, d: nat) {
    |IdsReceived(t)| == d && forall i :: 0 <= i < d ==> IdsReceived(t)[i] == i + 2
  }

  /** w slices have been written and d packets received, and w - d is lag or lag + 1; or nothing has happened. */
  predicate InStep(w: int, d: int, lag: int) {
    (d == 0 && w == 0) || lag <= w - d <= lag + 1
  }

  ghost predicate Stocked(b: State, d: nat, lag: int, pid: int) {
    && Idle(b) && Audited(b, pid) && Whole(b)
    && b.bankNum == BANK_NUM && b.sliceNum == SLICE_NUM
    && ReceivedInOrder(b.history, d)
    && Tally(b.history, AnySkip) == 0 && Tally(b.history, AnyConflict) == 0
    && |b.encodeQue| <= d
    && Tally(b.history, AnyAllocation) == PACKET_SLICES * (d - |b.encodeQue|) + PACKET_SLICES - b.writeSliceNum
    && InStep(Tally(b.history, AnyAllocation), d, lag)
  }

  /** Before the first fill. */
  ghost predicate Warm(b: State) {
    && b.decodeQueHead == [] && |b.decodeQue| <= LINK_NUM + 1
    && (|b.decodeQue| == LINK_NUM + 1 ==> b.writeSliceNum == PACKET_SLICES)
    && Tally(b.history, AnyRelease) == 0 && IdsServed(b.history) == []
  }

  /** All four heads in service, in distinct phases; the first of them reads in at least lag + 1 cycles, and before
      the first release they read in the order of their ids. */
  ghost predicate Serving(b: State, lag: nat) {
    && |b.decodeQueHead| == LINK_NUM && PhasesDistinct(b)
    && (forall h :: h in b.decodeQueHead ==> lag + 1 <= NextOf(b, h) <= lag + 4)
    && Tally(b.history, AnyAllocation) - Tally(b.history, AnyRelease) == 83 - lag
    && (lag > 0 ==> Tally(b.history, AnyRelease) == 0)
    && (lag > 0 ==> forall h :: h in b.decodeQueHead ==> NextOf(b, h) == lag + h - 1)
  }

  // ---- The heads over one clock edge ----

  lemma DueAmongFour(f: State, lo: nat)
    requires |f.decodeQueHead| == LINK_NUM && NoDup(f.decodeQueHead) && PhasesDistinct(f) && lo >= 1
    requires forall h :: h in f.decodeQueHead ==> lo <= NextOf(f, h) <= lo + 3
    ensures DueFrom(f, 0) == if lo == 1 then 1 else 0
  {
    hide NextOf;
    var q := f.decodeQueHead;
    assert DueFrom(f, 4) == 0;
    assert DueFrom(f, 3) == if NextOf(f, q[3]) == 1 then 1 else 0;
    assert DueFrom(f, 2) == (if NextOf(f, q[2]) == 1 then 1 else 0) + DueFrom(f, 3);
    assert DueFrom(f, 1) == (if NextOf(f, q[1]) == 1 then 1 else 0) + DueFrom(f, 2);
    assert q[0] in q && q[1] in q && q[2] in q && q[3] in q;
  }

  /** With four heads in distinct phases and a waiting packet, a clock edge keeps four heads in distinct phases, one
      cycle further on; it releases exactly one slice if the first read is due, and none otherwise. */
  lemma FourHeadsGoOn(s: State, lo: nat)
    requires Idle(s) && PhasesDistinct(s) && lo >= 1
    requires |s.decodeQueHead| == 0 || |s.decodeQueHead| == LINK_NUM
    requires |Fill(s).decodeQueHead| == LINK_NUM && Fill(s).decodeQue != []
    requires forall h :: h in Fill(s).decodeQueHead ==> lo <= NextOf(Fill(s), h) <= lo + 3
    ensures var r, m := Process(s), if lo == 1 then 1 else lo - 1;
      && |r.decodeQueHead| == LINK_NUM && PhasesDistinct(r)
      && (forall h :: h in r.decodeQueHead ==> m <= NextOf(r, h) <= m + 3)
      && Tally(r.history, AnyConflict) == Tally(s.history, AnyConflict)
      && Tally(r.history, AnyRelease) == Tally(s.history, AnyRelease) + (if lo == 1 then 1 else 0)
      && (lo > 1 ==> forall h :: h in r.decodeQueHead ==>
            h in Fill(s).decodeQueHead && NextOf(r, h) == NextOf(Fill(s), h) - 1)
  {
    hide Idle, Fill, Process, NextOf, Tally, HeadLoop, Linked, Filled, DueFrom;
    IdleIsBounded(s);
    var f, r := Fill(s), Process(s);
    FillFills(s);
    LinkedHeads(f);
    FillNexts(s);
    assert forall h :: h in s.decodeQueHead ==> NextOf(s, h) % 4 >= 0;
    PhasesGiveOneDue(s);
    FillOneDue(s);
    FillPhasesIff(s);
    OneDueIsCounted(s);
    PhasesStayDistinctIff(s);
    DueAmongFour(f, lo);
    ProcessHeads(s);
    var v := HeadLoop(f, 0, false);
    if v.erased { ErasedLeavesOne(s); }
    forall h | h in r.decodeQueHead
      ensures var m := if lo == 1 then 1 else lo - 1; m <= NextOf(r, h) <= m + 3
      ensures lo > 1 ==> h in f.decodeQueHead && NextOf(r, h) == NextOf(f, h) - 1
    {
      if h in f.decodeQueHead { ProcessMoves(s, h); }
    }
  }

  // ---- The buffer over one clock edge ----

  lemma ServingHasWaiting(b: State)
    requires Idle(b) && Whole(b) && |b.decodeQueHead| == LINK_NUM && b.writeSliceNum >= 1
    requires Tally(b.history, AnyAllocation) - Tally(b.history, AnyRelease) >= 80
    ensures b.decodeQue != []
  {
    hide Legal, Replay, Heap, Depths, Tally, Total;
    StockByPackets(b);
  }

  lemma WarmStock(b: State)
    requires Idle(b) && Whole(b) && Warm(b)
    ensures Tally(b.history, AnyAllocation) == PACKET_SLICES * |b.decodeQue| + PACKET_SLICES - b.writeSliceNum
  {
    hide Legal, Replay, Heap, Depths, Tally;
    StockByPackets(b);
  }

  /** The read side and the write of one clock edge, for a buffer that stores at most 83 slices before the write and
      has a packet to write. */
  lemma WriterGoesOn(b: State, d: nat, lag: int, pid: int)
    requires Stocked(b, d, lag, pid) && b.encodeQue != []
    requires Tally(b.history, AnyAllocation) - Tally(b.history, AnyRelease) <= 83
    ensures var r := Process(b);
      && Idle(r) && Audited(r, pid) && Whole(r) && ReceivedInOrder(r.history, d)
      && Tally(r.history, AnySkip) == 0 && r.bankNum == BANK_NUM && r.sliceNum == SLICE_NUM
      && Tally(r.history, AnyAllocation) == Tally(b.history, AnyAllocation) + 1
      && Tally(r.history, AnyRelease) == Tally(ReadSide(b).history, AnyRelease)
      && (if b.writeSliceNum == 1
          then r.writeSliceNum == PACKET_SLICES && r.encodeQue == b.encodeQue[1..]
               && r.decodeQue == ReadSide(b).decodeQue + [b.encodeQue[0]]
          else r.writeSliceNum == b.writeSliceNum - 1 && r.encodeQue == b.encodeQue
               && r.decodeQue == ReadSide(b).decodeQue)
  {
    hide Legal, Replay, Heap, Depths, Tally, Timed, ReadSide, Write, Occupied, Sum, IdsReceived;
    var x := ReadSide(b);
    ReadSideKeepsLinked(b);
    ReadSideKeepsWhole(b);
    ReadSideIsQuiet(b);
    ReadSideKeepsBooks(b.history, b, pid);
    TallyGrows(b.history, x.history, AnyRelease);
    OccupiedByEvents(x);
    SmallStockHasRoom(x);
    WriteStores(x);
    WriteKeepsWhole(x);
    WriteKeepsLinked(x);
    ProcessKeepsIdle(b);
    ProcessKeepsBooks(b, pid);
  }

  ghost predicate Staged(b: State) {
    Warm(b) || Serving(b, 0) || Serving(b, 1) || Serving(b, 2)
  }

  /** Once A has sent a packet there is always one to write. */
  lemma SomethingToWrite(b: State, d: nat, lag: int, pid: int)
    requires Stocked(b, d, lag, pid) && lag <= -1
    ensures d >= 1 <==> b.encodeQue != []
    ensures d == 0 ==> Tally(b.history, AnyAllocation) == 0
  {
    hide Idle, Whole, Tally, ReceivedInOrder, BankLedger;
  }

  /** Before the first packet arrives nothing happens. */
  lemma NothingHappens(b: State)
    requires Idle(b) && Warm(b) && b.encodeQue == [] && |b.decodeQue| <= LINK_NUM
    ensures Process(b) == b
  {
    hide Linked, Timed, Settled;
    IdleIsBounded(b);
    assert seq(b.bankNum, _ => 0) == b.readBankIdVec;
  }

  lemma WarmEdge(b: State, d: nat, lag: int, pid: int)
    requires Stocked(b, d, lag, pid) && lag <= -1 && Warm(b) && b.encodeQue != []
    ensures Staged(Process(b))
    ensures Tally(Process(b).history, AnyConflict) == Tally(b.history, AnyConflict)
  {
    hide Idle, Whole, Tally, ReceivedInOrder, BankLedger, PhasesDistinct, Process, ReadSide, Fill, NextOf;
    IdleIsBounded(b);
    WarmStock(b);
    WriterGoesOn(b, d, lag, pid);
    FirstIdsHere(b, d, lag, pid);
    if |b.decodeQue| <= LINK_NUM {
      EmptyServiceGoesOn(b);
      WriteServesNone(b);
    } else {
      FirstFill(b);
      assert Serving(Process(b), 2);
    }
  }

  /** Before the first fill the waiting packets are the first that A sent. */
  lemma FirstIds(b: State, d: nat)
    requires Linked(b) && IdsServed(b.history) == [] && ReceivedInOrder(b.history, d)
    ensures forall k :: 0 <= k < |b.decodeQue| ==> b.decodeQue[k] == k + 2
  {
    hide Heap, Depths, Legal, Replay, IdsReceived, IdsServed, Pointers;
    ServedInArrivalOrder(b.history);
    assert IdsReceived(b.history)[..|b.decodeQue|] == b.decodeQue;
  }

  lemma FirstIdsHere(b: State, d: nat, lag: int, pid: int)
    requires Stocked(b, d, lag, pid) && Warm(b)
    ensures forall k :: 0 <= k < |b.decodeQue| ==> b.decodeQue[k] == k + 2
  {
    hide Whole, Tally, BankLedger, ReceivedInOrder;
    FirstIds(b, d);
  }

  lemma WriteServesNone(b: State)
    requires Bounded(b) && ReadSide(b) == b
    ensures IdsServed(Process(b).history) == IdsServed(b.history)
  {
    hide ReadSide, IdsServed, Target, Put, LinkInRange;
    var y := b.(writeCnt := 1);
    if b.encodeQue != [] {
      NothingServed(b.history, WriteAllocate(b.encodeQue[0], Target(y)));
      NothingServed(b.history, WriteSkip(b.encodeQue[0]));
      NothingServed(PlaceSlice(y).history, WriteDone(b.encodeQue[0]));
    }
  }

  lemma NothingServed(t: seq<Event>, e: Event)
    requires !e.PutInService?
    ensures IdsServed(t + [e]) == IdsServed(t)
  {
    assert (t + [e])[..|t|] == t;
  }

  lemma FirstFill(b: State)
    requires Idle(b) && b.decodeQueHead == [] && |b.decodeQue| == LINK_NUM + 1
    requires forall k :: 0 <= k < |b.decodeQue| ==> b.decodeQue[k] == k + 2
    ensures var r := Process(b);
      && |r.decodeQueHead| == LINK_NUM && PhasesDistinct(r)
      && (forall h :: h in r.decodeQueHead ==> 3 <= NextOf(r, h) <= 6 && NextOf(r, h) == h + 1)
      && Tally(r.history, AnyConflict) == Tally(b.history, AnyConflict)
      && Tally(r.history, AnyRelease) == Tally(b.history, AnyRelease)
  {
    hide Idle, Tally, Process, Fill, NextOf, Linked, HeadLoop;
    IdleIsBounded(b);
    FillFills(b);
    FillNexts(b);
    var f := Fill(b);
    forall h | h in f.decodeQueHead ensures 4 <= NextOf(f, h) <= 7 && NextOf(f, h) == h + 2 {
      var k :| 0 <= k < |f.decodeQueHead| && f.decodeQueHead[k] == h;
    }
    FourHeadsGoOn(b, 4);
  }

  lemma ServingEdge(b: State, d: nat, lag: int, pid: int, ahead: nat)
    requires Stocked(b, d, lag, pid) && lag <= -1 && b.encodeQue != [] && Serving(b, ahead) && ahead <= 2
    ensures Serving(Process(b), if ahead == 0 then 0 else ahead - 1)
    ensures Tally(Process(b).history, AnyConflict) == Tally(b.history, AnyConflict)
    ensures Tally(Process(b).history, AnyRelease) ==
      Tally(b.history, AnyRelease) + if ahead == 0 then 1 else 0
  {
    hide Idle, Whole, Tally, ReceivedInOrder, BankLedger, PhasesDistinct, Process, ReadSide, Fill, NextOf, Linked;
    IdleIsBounded(b);
    WriterGoesOn(b, d, lag, pid);
    ServingHasWaiting(b);
    FillFills(b);
    FillNexts(b);
    var f := Fill(b);
    assert f.decodeQueHead[..|b.decodeQueHead|] == f.decodeQueHead;
    FourHeadsGoOn(b, ahead + 1);
  }

  lemma BufferEdgeKeepsStocked(y: State, d: nat, lag: int, pid: int)
    requires Stocked(y, d, lag, pid) && -2 <= lag <= -1 && Staged(y)
    ensures Stocked(Process(y), d, lag + 1, pid) && Staged(Process(y))
  {
    hide Idle, Whole, Tally, ReceivedInOrder, BankLedger, PhasesDistinct, Process, ReadSide, Fill, NextOf, Linked;
    IdleIsBounded(y);
    SomethingToWrite(y, d, lag, pid);
    if d == 0 {
      WarmStock(y);
      NothingHappens(y);
    } else {
      if Warm(y) {
        WarmStock(y);
        WarmEdge(y, d, lag, pid);
      } else {
        var ahead := if Serving(y, 0) then 0 else if Serving(y, 1) then 1 else 2;
        ServingEdge(y, d, lag, pid, ahead);
      }
      WriterGoesOn(y, d, lag, pid);
    }
  }

  // ---- The source over one clock edge ----

  lemma ReceiveKeepsStocked(b: State, d: nat, lag: int, pid: int)
    requires Stocked(b, d, lag, pid) && -1 <= lag <= 0 && Staged(b)
    ensures var r := RcvFrom(b, 0x1000, d + 2); Stocked(r, d + 1, lag - 1, pid) && Staged(r)
  {
    hide Linked, Timed, Settled, Tally, BankLedger, NextOf, IdsReceived, LinkInRange, Replay, Bounded, Whole;
    var e, r := Received(d + 2), RcvFrom(b, 0x1000, d + 2);
    IdleIsBounded(b);
    forall id | id in b.encodeQue || id in b.decodeQue || id in b.decodeQueHead ensures id != d + 2 {
      LiveWasReceived(b, id);
    }
    ReceiveKeepsStill(b, d + 2);
    ReceiveKeepsBooks(b.history, b, pid, d + 2);
    TallySnoc(b.history, e);
    NothingServed(b.history, e);
    assert IdsReceived(r.history) == IdsReceived(b.history) + [d + 2] by { ReceivedSnoc(b.history, d + 2); }
  }

  lemma ReceiveKeepsStill(b: State, id: int)
    requires Idle(b) && Safe(b, Receive(id))
    ensures var r := RcvFrom(b, 0x1000, id); Idle(r) && (Whole(b) ==> Whole(r))
    ensures forall h :: NextOf(RcvFrom(b, 0x1000, id), h) == NextOf(b, h)
  {
    hide Heap, Depths, Legal, Replay;
    ReceiveKeepsLinked(b, id);
    ReplaySnoc(b.history, Received(id));
  }

  // ---- The invariant holds in every reachable state ----

  ghost predicate SystemInv(y: System, n: nat, pid: int) {
    SourceAt(y.a, n) && Stocked(y.b, Sent(n), -1, pid) && Staged(y.b)
  }

  lemma SourceEdgeSends(y: System, n: nat, lag: int, pid: int)
    requires SourceAt(y.a, n) && Stocked(y.b, Sent(n), lag, pid) && -1 <= lag <= 0 && Staged(y.b)
    ensures var r := SourceEdge(y);
      SourceAt(r.a, n + 1) && Stocked(r.b, Sent(n + 1), lag - 1, pid) && Staged(r.b)
  {
    hide Idle, Whole, Tally, BankLedger, NextOf, Staged, Linked, ReceivedInOrder;
    IdleIsBounded(y.b);
    if n + 1 >= 2 { ReceiveKeepsStocked(y.b, Sent(n), lag, pid); }
  }

  lemma EdgeKeepsInv(y: System, n: nat, sourceFirst: bool, pid: int)
    requires SystemInv(y, n, pid)
    ensures Bounded(y.b) && SystemInv(Edge(y, sourceFirst), n + 1, pid)
  {
    hide Stocked, Staged, Bounded, Process, SourceEdge, SourceAt, Sent, Extends;
    StockedIsBounded(y.b, Sent(n), -1, pid);
    if sourceFirst {
      SourceEdgeSends(y, n, -1, pid);
      BufferEdgeKeepsStocked(SourceEdge(y).b, Sent(n + 1), -2, pid);
    } else {
      BufferEdgeKeepsStocked(y.b, Sent(n), -1, pid);
      SourceEdgeSends(BufferEdge(y), n, 0, pid);
    }
  }

  lemma StockedIsBounded(b: State, d: nat, lag: int, pid: int)
    requires Stocked(b, d, lag, pid)
    ensures Bounded(b) && Idle(b)
  {}

  lemma StartHolds(pid: int)
    ensures SystemInv(START, 0, pid)
  {
    InitIsLinked(BANK_NUM, SLICE_NUM);
    var b := START.b;
    SumOfEqual(b.bankDeepVec, SLICE_NUM);
    ConflictSumIsZero(b.bankConflictVec);
    assert IdsReceived(b.history) == [];
    hide CountFree, Sum, ConflictSum;
    assert Idle(b);
  }

  lemma {:induction false} EdgesKeepInv(y: System, n: nat, orders: seq<bool>, pid: int)
    requires SystemInv(y, n, pid)
    ensures Bounded(y.b) && SystemInv(Edges(y, orders), n + |orders|, pid)
    decreases orders
  {
    hide SystemInv, Edge;
    SystemIsBounded(y, n, pid);
    if orders != [] {
      EdgeKeepsInv(y, n, orders[0], pid);
      EdgesKeepInv(Edge(y, orders[0]), n + 1, orders[1..], pid);
    }
  }

  lemma SystemIsBounded(y: System, n: nat, pid: int)
    requires SystemInv(y, n, pid)
    ensures Bounded(y.b) && Idle(y.b) && Linked(y.b)
  {}

  lemma RunKeepsInv(orders: seq<bool>, pid: int)
    ensures SystemInv(SystemRun(orders), |orders|, pid)
  {
    hide SystemInv, Edges;
    StartHolds(pid);
    EdgesKeepInv(START, 0, orders, pid);
  }

  // ---- Theorems about the closed system ----

  /** In every reachable state, whoever runs first at each edge: no read conflict has ever been counted. */
  lemma NoConflictEver(orders: seq<bool>, bank: int)
    requires 0 <= bank < BANK_NUM
    ensures var b := SystemRun(orders).b;
      |b.bankConflictVec| == BANK_NUM && b.bankConflictVec[bank].readConflictCnt == 0
  {
    hide Idle, Tally, Whole, Staged, ReceivedInOrder, Edges;
    RunKeepsInv(orders, 0);
    StockedIsBounded(SystemRun(orders).b, Sent(|orders|), -1, 0);
    ConflictsInBank(SystemRun(orders).b.history, bank);
  }

  lemma StageStock(b: State, d: nat, lag: int, pid: int)
    requires Stocked(b, d, lag, pid) && Staged(b)
    ensures Occupied(b.encodeVec) == Tally(b.history, AnyAllocation) - Tally(b.history, AnyRelease) <= 83
    ensures Tally(b.history, AnyAllocation) >= 83 ==> Serving(b, 0)
    ensures Serving(b, 0) ==> Occupied(b.encodeVec) == 83
  {
    hide Tally, Legal, Replay, Heap, Depths, Timed, PhasesDistinct, NextOf, Sum, Occupied, IdsReceived;
    OccupiedByEvents(b);
    if Warm(b) { WarmStock(b); }
  }

  /** In every reachable state at most 83 slices are stored and none has been dropped; from the 85th clock edge on
      exactly 83 are stored. */
  lemma OccupancyBound(orders: seq<bool>)
    ensures var b := SystemRun(orders).b;
      && Occupied(b.encodeVec) <= 83 && Tally(b.history, AnySkip) == 0
      && (|orders| >= 85 ==> Occupied(b.encodeVec) == 83)
  {
    hide Idle, Tally, Whole, Staged, ReceivedInOrder, Edges, Serving, Occupied;
    RunKeepsInv(orders, 0);
    StageStock(SystemRun(orders).b, Sent(|orders|), -1, 0);
  }

  /** The same told by the depths: from the 85th clock edge on the two banks have 173 free slots together. */
  lemma FreeSlotsInTime(orders: seq<bool>)
    requires |orders| >= 85
    ensures var b := SystemRun(orders).b; |b.bankDeepVec| == 2 && b.bankDeepVec[0] + b.bankDeepVec[1] == 173
  {
    hide Tally, Whole, Staged, ReceivedInOrder, Edges, Serving, Occupied, Heap, Legal, Replay, Timed;
    RunKeepsInv(orders, 0);
    OccupancyBound(orders);
    var b := SystemRun(orders).b;
    SystemIsBounded(SystemRun(orders), |orders|, 0);
    OccupiedByDepths(b.encodeVec, b.bankDeepVec, SLICE_NUM);
    SumOfTwo(b.bankDeepVec);
  }

  /** The stage after one clock edge, and what it released. */
  lemma EdgeStage(y: System, n: nat, sourceFirst: bool, ahead: nat)
    requires SystemInv(y, n, 0) && Serving(y.b, ahead) && ahead <= 2
    ensures Bounded(y.b)
    ensures var r := Edge(y, sourceFirst);
      && Serving(r.b, if ahead == 0 then 0 else ahead - 1)
      && Tally(r.b.history, AnyRelease) == Tally(y.b.history, AnyRelease) + if ahead == 0 then 1 else 0
  {
    hide Stocked, Serving, Process, RcvFrom, Tally, Staged;
    StockedIsBounded(y.b, Sent(n), -1, 0);
    if sourceFirst {
      SourceEdgeSends(y, n, -1, 0);
      SourceKeepsServing(y, ahead);
      var x := SourceEdge(y).b;
      ServingHasInput(x, Sent(n + 1), -2, ahead);
      ServingEdge(x, Sent(n + 1), -2, 0, ahead);
    } else {
      ServingHasInput(y.b, Sent(n), -1, ahead);
      ServingEdge(y.b, Sent(n), -1, 0, ahead);
      SourceKeepsServing(BufferEdge(y), if ahead == 0 then 0 else ahead - 1);
    }
  }

  lemma ServingHasInput(b: State, d: nat, lag: int, ahead: nat)
    requires Stocked(b, d, lag, 0) && lag <= -1 && Serving(b, ahead) && ahead <= 2
    ensures b.encodeQue != []
  {
    hide Idle, Whole, Tally, ReceivedInOrder, BankLedger, PhasesDistinct, NextOf;
    SomethingToWrite(b, d, lag, 0);
  }

  lemma SourceKeepsServing(y: System, ahead: nat)
    requires Bounded(y.b) && Serving(y.b, ahead)
    ensures Serving(SourceEdge(y).b, ahead)
    ensures Tally(SourceEdge(y).b.history, AnyRelease) == Tally(y.b.history, AnyRelease)
  {
    hide Tally, LinkInRange;
    TallySnoc(y.b.history, Received(y.a.queueId + 1));
  }

  lemma {:induction false} ServingSettles(y: System, n: nat, later: seq<bool>, ahead: nat)
    requires SystemInv(y, n, 0) && Serving(y.b, ahead) && ahead <= 2 && |later| >= ahead
    ensures Bounded(y.b) && Serving(Edges(y, later).b, 0)
    decreases later
  {
    hide SystemInv, Serving, Edge;
    SystemIsBounded(y, n, 0);
    if later != [] {
      EdgeStage(y, n, later[0], ahead);
      EdgeKeepsInv(y, n, later[0], 0);
      ServingSettles(Edge(y, later[0]), n + 1, later[1..], if ahead == 0 then 0 else ahead - 1);
    }
  }

  ghost function Lag(b: State): nat {
    if Serving(b, 0) then 0 else if Serving(b, 1) then 1 else 2
  }

  lemma HeadsMeanServing(y: System, n: nat)
    requires SystemInv(y, n, 0) && y.b.decodeQueHead != []
    ensures Serving(y.b, Lag(y.b))
  {
    hide Stocked, Serving;
  }

  lemma SteadyEdge(y: System, n: nat, sourceFirst: bool)
    requires SystemInv(y, n, 0) && Serving(y.b, 0)
    ensures Bounded(y.b) && Occupied(y.b.encodeVec) == 83
    ensures Tally(Edge(y, sourceFirst).b.history, AnyRelease) == Tally(y.b.history, AnyRelease) + 1
  {
    hide Stocked, Serving, Edge, Occupied, Tally;
    StageStock(y.b, Sent(n), -1, 0);
    EdgeStage(y, n, sourceFirst, 0);
  }

  /** From two clock edges after the first fill on, for ever: 83 slices are stored at the end of each cycle, and each
      further clock edge releases exactly one slice. */
  lemma OneSlicePerEdge(orders: seq<bool>, later: seq<bool>, sourceFirst: bool)
    requires SystemRun(orders).b.decodeQueHead != [] && |later| >= 2
    ensures var y := Edges(SystemRun(orders), later);
      && Occupied(y.b.encodeVec) == 83
      && Tally(Edge(y, sourceFirst).b.history, AnyRelease) == Tally(y.b.history, AnyRelease) + 1
  {
    hide SystemInv, Serving, Edge, Edges, Occupied, Tally, Lag, Bounded;
    var y0, n := SystemRun(orders), |orders|;
    RunKeepsInv(orders, 0);
    HeadsMeanServing(y0, n);
    assert Lag(y0.b) <= 2 by { LagIsSmall(y0.b); }
    ServingSettles(y0, n, later, Lag(y0.b));
    EdgesKeepInv(y0, n, later, 0);
    SteadyEdge(Edges(y0, later), n + |later|, sourceFirst);
  }

  lemma LagIsSmall(b: State)
    ensures Lag(b) <= 2
  {}

  // ---- What has been written and released by when ----

  /** Once a packet has arrived, each clock edge of the buffer stores one slice. */
  lemma BufferEdgeStores(b: State, d: nat, lag: int)
    requires Stocked(b, d, lag, 0) && -2 <= lag <= -1 && Staged(b)
    ensures Bounded(b)
    ensures Tally(Process(b).history, AnyAllocation) == Tally(b.history, AnyAllocation) + if d >= 1 then 1 else 0
  {
    hide Idle, Whole, Tally, ReceivedInOrder, BankLedger, Process, Staged, Linked;
    StockedIsBounded(b, d, lag, 0);
    SomethingToWrite(b, d, lag, 0);
    StageStock(b, d, lag, 0);
    if d == 0 { NothingStored(b); } else { WriterGoesOn(b, d, lag, 0); }
  }

  lemma NothingStored(b: State)
    requires Idle(b) && b.encodeQue == []
    ensures Tally(Process(b).history, AnyAllocation) == Tally(b.history, AnyAllocation)
  {
    hide Linked, Timed, Settled, Process, Tally, NoRoom;
    SliceIsDroppedIff(b);
  }

  lemma SourceStoresNothing(y: System)
    requires Bounded(y.b)
    ensures Tally(SourceEdge(y).b.history, AnyAllocation) == Tally(y.b.history, AnyAllocation)
  {
    hide Tally, LinkInRange;
    TallySnoc(y.b.history, Received(y.a.queueId + 1));
  }

  /** One clock edge after n others stores a slice exactly when a packet has arrived before the buffer runs: from the
      third edge on, and at the second if the source runs first. */
  lemma EdgeStores(y: System, n: nat, sourceFirst: bool)
    requires SystemInv(y, n, 0)
    ensures Bounded(y.b)
    ensures Tally(Edge(y, sourceFirst).b.history, AnyAllocation) ==
      Tally(y.b.history, AnyAllocation) + if n >= 2 || (n == 1 && sourceFirst) then 1 else 0
  {
    hide Stocked, Staged, Process, SourceEdge, SourceAt, Tally, Extends;
    StockedIsBounded(y.b, Sent(n), -1, 0);
    SourceStoresNothing(y);
    if sourceFirst {
      SourceEdgeSends(y, n, -1, 0);
      BufferEdgeStores(SourceEdge(y).b, Sent(n + 1), -2);
    } else {
      BufferEdgeStores(y.b, Sent(n), -1);
      SourceStoresNothing(BufferEdge(y));
    }
  }

  lemma {:induction false} EdgesStore(y: System, n: nat, later: seq<bool>)
    requires SystemInv(y, n, 0) && n >= 2
    ensures Bounded(y.b)
    ensures Tally(Edges(y, later).b.history, AnyAllocation) == Tally(y.b.history, AnyAllocation) + |later|
    decreases later
  {
    hide SystemInv, Edge, Tally;
    SystemIsBounded(y, n, 0);
    if later != [] {
      EdgeStores(y, n, later[0]);
      EdgeKeepsInv(y, n, later[0], 0);
      EdgesStore(Edge(y, later[0]), n + 1, later[1..]);
    }
  }

  /** How many slices have been written after the clock edges of orders: one for each edge from the third on, and one
      more if the source ran first at the second edge, at which the first packet arrives. */
  function Written(orders: seq<bool>): int
    requires |orders| >= 2
  {
    |orders| - 2 + if orders[1] then 1 else 0
  }

  lemma WrittenFrom(x: System, orders: seq<bool>)
    requires SystemInv(x, 0, 0) && Bounded(x.b) && |orders| >= 2
    ensures Tally(Edges(x, orders).b.history, AnyAllocation) ==
      Tally(x.b.history, AnyAllocation) + Written(orders)
  {
    hide SystemInv, Edge, Edges, Tally, Bounded, Extends;
    EdgeStores(x, 0, orders[0]);
    EdgeKeepsInv(x, 0, orders[0], 0);
    var y := Edge(x, orders[0]);
    EdgeStores(y, 1, orders[1]);
    EdgeKeepsInv(y, 1, orders[1], 0);
    EdgesStore(Edge(y, orders[1]), 2, orders[2..]);
    FirstEdge(x, orders);
    FirstEdge(y, orders[1..]);
    assert orders[1..][0] == orders[1] && orders[1..][1..] == orders[2..];
  }

  lemma WrittenByTime(orders: seq<bool>)
    requires |orders| >= 2
    ensures Tally(SystemRun(orders).b.history, AnyAllocation) == Written(orders)
  {
    hide SystemInv, Edges, Tally, Written;
    StartHolds(0);
    WrittenFrom(START, orders);
    assert Tally(START.b.history, AnyAllocation) == 0 by { NothingYet(); }
  }

  lemma FirstEdge(y: System, orders: seq<bool>)
    requires Bounded(y.b) && orders != []
    ensures Edges(y, orders) == Edges(Edge(y, orders[0]), orders[1..])
  {}

  lemma NothingYet()
    ensures Tally(START.b.history, AnyAllocation) == 0
  {}

  /** After n >= 85 clock edges n - 85 or n - 84 slices have been released: who ran first at the second edge decides
      which. */
  lemma ReleasedByTime(orders: seq<bool>)
    requires |orders| >= 85
    ensures Tally(SystemRun(orders).b.history, AnyRelease) == |orders| - 85 + if orders[1] then 1 else 0
  {
    hide Idle, Tally, Whole, Staged, ReceivedInOrder, Edges, Occupied;
    RunKeepsInv(orders, 0);
    StageStock(SystemRun(orders).b, Sent(|orders|), -1, 0);
    WrittenByTime(orders);
  }

  /** The free slots at any time: 256 less the slices written, and from the 83rd one on 173 for ever. */
  lemma FreeSlotsByTime(orders: seq<bool>)
    requires |orders| >= 2
    ensures var b, w := SystemRun(orders).b, Written(orders);
      |b.bankDeepVec| == 2 && b.bankDeepVec[0] + b.bankDeepVec[1] == 256 - if w < 83 then w else 83
  {
    hide Tally, Whole, ReceivedInOrder, Edges, Occupied, Heap, Legal, Replay, Timed, NextOf, PhasesDistinct, IdsServed;
    RunKeepsInv(orders, 0);
    var b := SystemRun(orders).b;
    SystemIsBounded(SystemRun(orders), |orders|, 0);
    StageStock(b, Sent(|orders|), -1, 0);
    WrittenByTime(orders);
    OccupiedByDepths(b.encodeVec, b.bankDeepVec, SLICE_NUM);
    SumOfTwo(b.bankDeepVec);
  }

  // ---- Reads and writes do not meet in a bank ----

  lemma {:induction false} TwoBanksOfReleases(t: seq<Event>, u: seq<Event>)
    requires t <= u
    ensures Tally(u, ReleasedIn(0)) - Tally(t, ReleasedIn(0)) + Tally(u, ReleasedIn(1)) - Tally(t, ReleasedIn(1))
      <= Tally(u, AnyRelease) - Tally(t, AnyRelease)
    decreases u
  {
    if t != u { TwoBanksOfReleases(t, u[..|u| - 1]); }
  }

  lemma WriteAvoidsReadHere(b: State, d: nat, lag: int, pid: int)
    requires Stocked(b, d, lag, pid) && lag <= -1 && Staged(b) && b.encodeQue != []
    ensures var x := ReadSide(b); x.readBankIdVec[Target(x).bank] == 0 && Target(x).slot < x.sliceNum
  {
    hide Whole, Tally, ReceivedInOrder, PhasesDistinct, Process, ReadSide, Fill, NextOf, Target, Occupied, Sum;
    hide Legal, Replay, Heap, Depths, Timed;
    var x := ReadSide(b);
    ReleasesAtMostOne(b, d, lag, pid);
    ReadSideKeepsLinked(b);
    ReadSideIsQuiet(b);
    ReadSideKeepsBooks(b.history, b, pid);
    TwoBanksOfReleases(b.history, x.history);
    TallyGrows(b.history, x.history, AnyRelease);
    StageStock(b, d, lag, pid);
    OccupiedByEvents(x);
    BothBanksHaveRoom(x, 0);
    BothBanksHaveRoom(x, 1);
    var free := if x.readBankIdVec[0] == 0 then 0 else 1;
    assert Open(x, free);
    WriteGoesToDeepestOpenBank(x, free);
    assert Open(x, Target(x).bank);
  }

  lemma BothBanksHaveRoom(x: State, bank: nat)
    requires Linked(x) && bank < x.bankNum && Occupied(x.encodeVec) < x.sliceNum
    ensures x.bankDeepVec[bank] > 0
  {
    hide Heap, Legal, Replay, CountFree, Occupied;
    OccupiedAtLeast(x.encodeVec, bank);
  }

  lemma ReleasesAtMostOne(b: State, d: nat, lag: int, pid: int)
    requires Stocked(b, d, lag, pid) && lag <= -1 && Staged(b) && b.encodeQue != []
    ensures Tally(ReadSide(b).history, AnyRelease) <= Tally(b.history, AnyRelease) + 1
  {
    hide Idle, Whole, Tally, ReceivedInOrder, BankLedger, PhasesDistinct, Process, ReadSide, Fill, NextOf;
    IdleIsBounded(b);
    if Warm(b) {
      WarmStock(b);
      FirstIdsHere(b, d, lag, pid);
      if |b.decodeQue| <= LINK_NUM { EmptyServiceGoesOn(b); } else { FirstFill(b); }
    } else {
      ServingEdge(b, d, lag, pid, if Serving(b, 0) then 0 else if Serving(b, 1) then 1 else 2);
    }
    StageStock(b, d, lag, pid);
    WriterGoesOn(b, d, lag, pid);
  }

  /** At no clock edge does the writer use the bank that is read in that cycle, whoever runs first. */
  lemma WriteAvoidsRead(orders: seq<bool>, sourceFirst: bool)
    ensures var y := SystemRun(orders);
      var b := if sourceFirst then SourceEdge(y).b else y.b;
      b.encodeQue != [] ==>
        var x := ReadSide(b); x.readBankIdVec[Target(x).bank] == 0 && Target(x).slot < x.sliceNum
  {
    hide Stocked, Staged, Edges, ReadSide, Target;
    RunKeepsInv(orders, 0);
    var y := SystemRun(orders);
    var b := if sourceFirst then SourceEdge(y).b else y.b;
    if b.encodeQue != [] {
      if sourceFirst {
        SourceEdgeSends(y, |orders|, -1, 0);
        WriteAvoidsReadHere(b, Sent(|orders| + 1), -2, 0);
      } else {
        WriteAvoidsReadHere(b, Sent(|orders|), -1, 0);
      }
    }
  }
}
