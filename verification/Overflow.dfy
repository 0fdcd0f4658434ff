/** Why the guard of the refinement is needed in small buffers: a full buffer loses a whole packet. */
module Overflow {
  import opened Types
  import opened Spec
  import opened Runs
  import opened SimpleBuffer
  import opened HeapShape
  import opened Refinement
  import opened Scheduler
  import opened Cycle
  import opened Guard
  import opened Phases
  import opened Balance
  import opened Delivery
  import opened Ledger
  import opened Occupancy
  import opened PacketLength

  /** Nothing is in service or about to be, a packet is being written, and no bank has a free slot. */
  ghost predicate Full(s: State) {
    && Idle(s) && s.decodeQueHead == [] && |s.decodeQue| <= LINK_NUM && s.encodeQue != []
    && forall b :: 0 <= b < s.bankNum ==> s.bankDeepVec[b] == 0
  }

  lemma FullEdge(s: State)
    requires Full(s)
    ensures LosesNext(s) <==> s.writeSliceNum == 1 && s.lastBankId == -1
    ensures s.writeSliceNum > 1 ==>
      Process(s) == s.(writeSliceNum := s.writeSliceNum - 1, history := s.history + [WriteSkip(s.encodeQue[0])])
    ensures s.writeSliceNum == 1 ==> var r := Process(s);
      && r.writeSliceNum == PACKET_SLICES && r.lastBankId == -1 && r.decodeQueHead == []
      && r.encodeQue == s.encodeQue[1..] && r.decodeQue == s.decodeQue + [s.encodeQue[0]]
      && r.bankDeepVec == s.bankDeepVec && r.bankNum == s.bankNum
  {
    hide Heap, Depths, Legal, Replay, Timed, Settled, LinkInRange, Target, HeadLoop, Fill, Refill;
    EmptyServiceGoesOn(s);
    NothingOpen(s);
    assert s.(writeCnt := 1) == s;
    assert seq(s.bankNum, _ => 0) == s.readBankIdVec;
  }

  /** A packet of which nothing is stored is lost when its last slices meet a full buffer. */
  lemma {:induction false} FullBufferLosesPacket(s: State, n: nat)
    requires Full(s) && s.lastBankId == -1 && s.writeSliceNum == n
    ensures !Guarded(s, Ticks(n))
    decreases n
  {
    hide Idle, Process, LosesNext, ReadSide, Linked;
    WritingIsInRange(s);
    FullEdge(s);
    assert Ticks(n)[0] == Clock && Ticks(n)[1..] == Ticks(n - 1);
    if n > 1 {
      ClockKeepsIdle(s);
      FullBufferLosesPacket(Process(s), n - 1);
    }
  }

  lemma WritingIsInRange(s: State)
    requires Idle(s)
    ensures Bounded(s) && 1 <= s.writeSliceNum <= PACKET_SLICES
  {}

  /** A packet with a stored slice moves on, shorter, when the rest of it meets a full buffer. */
  lemma {:induction false} FullBufferCutsPacket(s: State, n: nat)
    requires Full(s) && s.lastBankId != -1 && s.writeSliceNum == n
    ensures Guarded(s, Ticks(n))
    ensures var r := Run(s, Ticks(n));
      && Idle(r) && r.writeSliceNum == PACKET_SLICES && r.lastBankId == -1 && r.decodeQueHead == []
      && r.encodeQue == s.encodeQue[1..] && r.decodeQue == s.decodeQue + [s.encodeQue[0]]
      && r.bankDeepVec == s.bankDeepVec && r.bankNum == s.bankNum
    decreases n
  {
    hide Idle, Process, LosesNext, ReadSide, Linked;
    WritingIsInRange(s);
    FullEdge(s);
    ClockKeepsIdle(s);
    assert Ticks(n)[0] == Clock && Ticks(n)[1..] == Ticks(n - 1);
    if n > 1 { FullBufferCutsPacket(Process(s), n - 1); }
  }

  // ---- Small buffers overflow ----

  lemma {:induction false} SumIsZero(d: seq<int>)
    requires forall b :: 0 <= b < |d| ==> d[b] >= 0
    ensures Sum(d) >= 0
    ensures Sum(d) == 0 <==> forall b :: 0 <= b < |d| ==> d[b] == 0
  {
    if d != [] {
      var u := d[..|d| - 1];
      SumIsZero(u);
      assert forall b :: 0 <= b < |u| ==> u[b] == d[b];
    }
  }

  /** Five packets have arrived at a buffer of k slots, and n slices of them have been stored or dropped: the first k
      are stored.  Nothing has been released. */
  ghost predicate Pouring(s: State, k: int, n: int) {
    && Idle(s) && Audited(s, 0) && s.decodeQueHead == [] && s.bankNum * s.sliceNum == k
    && s.decodeQue + s.encodeQue == [1, 2, 3, 4, 5]
    && 1 <= s.writeSliceNum <= PACKET_SLICES && (s.encodeQue == [] ==> s.writeSliceNum == PACKET_SLICES)
    && n == PACKET_SLICES * |s.decodeQue| + PACKET_SLICES - s.writeSliceNum
    && Tally(s.history, AnyAllocation) == (if n < k then n else k) && Tally(s.history, AnyRelease) == 0
    && Tally(s.history, AnySkip) == (if n < k then 0 else n - k)
    && (s.writeSliceNum < PACKET_SLICES ==> s.lastBankId != -1)
  }

  lemma PouringRoom(s: State, k: int, n: int)
    requires Pouring(s, k, n)
    ensures Bounded(s) && (NoRoom(s) <==> n >= k)
    ensures n >= k ==> forall b :: 0 <= b < s.bankNum ==> s.bankDeepVec[b] == 0
  {
    hide Heap, Depths, Legal, Replay, Timed, Settled, Tally, Sum, PacketLedger, LinkInRange, ConflictSum;
    forall b | 0 <= b < s.bankNum ensures s.bankDeepVec[b] >= 0 { DepthIsNatural(s, b); }
    SumIsZero(s.bankDeepVec);
    assert forall b :: !ReadsNext(s, b);
  }

  /** One slice of the front packet, stored or dropped. */
  lemma PourQueues(s: State)
    requires Idle(s) && s.encodeQue != [] && ReadSide(s) == s
    ensures var r := Process(s);
      && (if s.writeSliceNum == 1
          then r.writeSliceNum == PACKET_SLICES && r.encodeQue == s.encodeQue[1..]
               && r.decodeQue == s.decodeQue + [s.encodeQue[0]]
          else r.writeSliceNum == s.writeSliceNum - 1 && r.encodeQue == s.encodeQue && r.decodeQue == s.decodeQue
               && (NoRoom(s) ==> r.lastBankId == s.lastBankId) && (!NoRoom(s) ==> r.lastBankId != -1))
      && r.bankNum == s.bankNum && r.sliceNum == s.sliceNum
  {
    hide Heap, Depths, Legal, Replay, Timed, Settled, ReadSide, NoRoom, Target, Put, LinkInRange, Pointers, Short;
    NoRoomTells(s);
    assert s.(writeCnt := 1) == s;
  }

  lemma PourTallies(s: State)
    requires Idle(s) && ReadSide(s) == s
    ensures Tally(Process(s).history, AnyRelease) == Tally(s.history, AnyRelease)
  {
    hide Linked, Timed, Settled, ReadSide, Write, Tally;
    IdleIsBounded(s);
    WriteIsNotCounted(s, AnyRelease);
  }

  lemma PouringEdge(s: State, k: int, n: int)
    requires Pouring(s, k, n) && n < 80 && (n % PACKET_SLICES == 0 ==> n < k)
    ensures Bounded(s) && Safe(s, Clock) && Pouring(Process(s), k, n + 1)
  {
    hide Linked, Timed, Settled, Tally, BankLedger, PacketLedger, Process, ReadSide, NoRoom;
    PouringRoom(s, k, n);
    assert s.encodeQue != [] by { assert |s.decodeQue + s.encodeQue| == 5; }
    var e, rest := s.encodeQue[0], s.encodeQue[1..];
    assert s.encodeQue == [e] + rest && s.decodeQue + [e] + rest == s.decodeQue + s.encodeQue;
    EmptyServiceGoesOn(s);
    SliceIsDroppedIff(s);
    PourQueues(s);
    PourTallies(s);
    LastIsCounted(s, n);
    ClockKeepsIdle(s);
    ProcessKeepsBooks(s, 0);
  }

  lemma LastIsCounted(s: State, n: int)
    requires 1 <= s.writeSliceNum <= PACKET_SLICES
    requires n == PACKET_SLICES * |s.decodeQue| + PACKET_SLICES - s.writeSliceNum
    ensures s.writeSliceNum == PACKET_SLICES <==> n % PACKET_SLICES == 0
  {}

  lemma {:induction false} PouringGoesOn(s: State, k: int, n: int, m: nat)
    requires Pouring(s, k, n) && n + m <= 80
    requires forall i :: n <= i < n + m && i % PACKET_SLICES == 0 ==> i < k
    ensures Bounded(s) && Guarded(s, Ticks(m)) && Pouring(Run(s, Ticks(m)), k, n + m)
    decreases m
  {
    hide Pouring, Process, Bounded, LosesNext;
    PouringIsBounded(s, k, n);
    if m > 0 {
      PouringEdge(s, k, n);
      PouringGoesOn(Process(s), k, n + 1, m - 1);
      TickOnce(s, m - 1);
      assert Ticks(m)[0] == Clock && Ticks(m)[1..] == Ticks(m - 1);
    } else {
      NoTicks(s);
    }
  }

  lemma PouringIsBounded(s: State, k: int, n: int)
    requires Pouring(s, k, n)
    ensures Bounded(s)
  {}

  lemma PouringStarts(bankNum: int, sliceNum: int)
    requires bankNum >= 1 && sliceNum >= 1
    ensures Pouring(Run(Init(bankNum, sliceNum), FIRST_FIVE), bankNum * sliceNum, 0)
  {
    hide Idle, Audited, Run, Whole;
    assert bankNum * sliceNum >= 1;
    FivePackets(bankNum, sliceNum);
    assert [] + [1, 2, 3, 4, 5] == [1, 2, 3, 4, 5];
    var h := [Received(1), Received(2), Received(3), Received(4), Received(5)];
    ArrivalsStoreNothing(h);
  }

  lemma {:induction false} ArrivalsStoreNothing(t: seq<Event>)
    requires forall i :: 0 <= i < |t| ==> t[i].Received?
    ensures Tally(t, AnyAllocation) == Tally(t, AnyRelease) == Tally(t, AnySkip) == 0
  {
    if t != [] { ArrivalsStoreNothing(t[..|t| - 1]); }
  }

  /** When all slots are taken and a packet begins, that packet is lost. */
  lemma PouringLoses(s: State, k: int, n: int)
    requires Pouring(s, k, n) && k <= n <= 64 && n % PACKET_SLICES == 0
    ensures Bounded(s) && !Guarded(s, Ticks(PACKET_SLICES))
  {
    hide Linked, Timed, Settled, Tally, BankLedger, PacketLedger, Guarded, Ticks;
    PouringRoom(s, k, n);
    LastIsCounted(s, n);
    assert s.encodeQue != [] by { assert |s.decodeQue + s.encodeQue| == 5; }
    NothingWritten(s);
    FullBufferLosesPacket(s, PACKET_SLICES);
  }

  lemma NothingWritten(s: State)
    requires Idle(s) && s.writeSliceNum == PACKET_SLICES
    ensures s.lastBankId == -1
  {
    hide Heap, Depths, Legal, Replay, Timed, Settled;
  }

  /** A buffer of at most 64 slots loses a whole packet when five arrive together: this run is not one of the simple
      buffer. */
  lemma LostPacketRun(bankNum: int, sliceNum: int)
    requires bankNum >= 1 && sliceNum >= 1 && bankNum * sliceNum <= 64
    ensures var i, acts := Init(bankNum, sliceNum), FIRST_FIVE + Ticks(80);
      !Guarded(i, acts) && !Legal(Run(i, acts).history)
  {
    hide Idle, Legal, Process, Run, Guarded, Linked, Init, Pouring, Ticks;
    var i, k := Init(bankNum, sliceNum), bankNum * sliceNum;
    var s := Run(i, FIRST_FIVE);
    PouringStarts(bankNum, sliceNum);
    var n := (k + 15) / 16 * 16;
    PouringGoesOn(s, k, 0, n);
    var u := Run(s, Ticks(n));
    PouringLoses(u, k, n);
    TicksOfBoth(n, 16);
    TicksOfBoth(n + 16, 64 - n);
    GuardedOfBoth(s, Ticks(n), Ticks(16));
    GuardedOfBoth(s, Ticks(n + 16), Ticks(64 - n));
    GuardedOfBoth(i, FIRST_FIVE, Ticks(80));
    RunIsSimpleBuffer(bankNum, sliceNum, FIRST_FIVE + Ticks(80));
  }

  /** A buffer of fewer than 80 slots drops a slice when five packets arrive together. */
  lemma DroppedSliceRun(bankNum: int, sliceNum: int)
    requires bankNum >= 1 && sliceNum >= 1 && bankNum * sliceNum < 80
    ensures Tally(Run(Init(bankNum, sliceNum), FIRST_FIVE + Ticks(80)).history, AnySkip) > 0
  {
    hide Idle, Process, Run, Init, Ticks, Tally, NoRoom, Linked, BankLedger, PacketLedger;
    var i, k := Init(bankNum, sliceNum), bankNum * sliceNum;
    assert k >= 1;
    var s := Run(i, FIRST_FIVE);
    PouringStarts(bankNum, sliceNum);
    PouringGoesOn(s, k, 0, k);
    var u := Run(s, Ticks(k));
    PouringRoom(u, k, k);
    assert u.encodeQue != [] by { assert |u.decodeQue + u.encodeQue| == 5; }
    SliceIsDroppedIff(u);
    TickOnce(u, 79 - k);
    TicksOfBoth(k, 80 - k);
    RunOfBoth(s, Ticks(k), Ticks(80 - k));
    RunOfBoth(i, FIRST_FIVE, Ticks(80));
    TallyGrows(Process(u).history, Run(Process(u), Ticks(79 - k)).history, AnySkip);
  }
}
