/** A run of the buffer that the code builds, 2 banks of 128 slots, that counts a read conflict although nothing is
    dropped and every packet is new: the refill of a service list that has run down to two heads puts a packet in the
    phase of the head that stays, and later both have their next slices in the same bank. */
module ConflictRun {
  import opened Types
  import opened Spec
  import opened Runs
  import opened SimpleBuffer
  import opened HeapShape
  import opened Refinement
  import opened Ledger
  import opened Scheduler
  import opened Cycle
  import opened Guard
  import opened Phases
  import opened Allocation
  import opened Occupancy
  import opened ReadSideLaws
  import opened Waiting
  import opened Departures
  import opened Delivery
  import opened PacketLength
  import opened Capacity
  import opened Lists

  // ---- Chains and their banks ----

  /** Slice i of c is in bank 0 or 1, as i + o is even or odd. */
  ghost predicate Striped(c: seq<Loc>, o: int) {
    forall i :: 0 <= i < |c| ==> c[i].bank == (i + o) % 2
  }

  /** The slices that are left of a packet whose 16 slices were written to banks 0, 1, 0, 1 and so on. */
  ghost predicate Stripes(c: seq<Loc>) {
    Striped(c, |c|)
  }

  /** The slices from number o on of a packet whose first three slices were written to banks 0, 1, 1. */
  ghost predicate Sixth(c: seq<Loc>, o: int) {
    forall i :: 0 <= i < |c| ==>
      && (i + o == 0 ==> c[i].bank == 0)
      && (i + o == 1 || i + o == 2 ==> c[i].bank == 1)
  }

  lemma TailStripes(c: seq<Loc>)
    requires Stripes(c) && c != []
    ensures Stripes(c[1..])
  {}

  lemma SixthTail(c: seq<Loc>, o: int)
    requires Sixth(c, o) && c != []
    ensures Sixth(c[1..], o + 1)
  {}

  lemma HeadBank(s: State, h: int)
    requires Linked(s) && h in s.queueMap
    ensures ChainOf(s, h) != [] && ChainOf(s, h)[0].bank == s.queueMap[h].bankId
  {
    hide Heap, Depths, Legal, Replay;
  }

  /** The write appends its slice to the chain of the front packet and takes a slot from its bank. */
  lemma WriteChains(x: State, q: int)
    requires Linked(x) && x.encodeQue != [] && Target(x).slot < x.sliceNum
    ensures ChainOf(Write(x), q) == ChainOf(x, q) + if q == x.encodeQue[0] then [Target(x)] else []
    ensures var b := Target(x).bank; Write(x).bankDeepVec == x.bankDeepVec[b := x.bankDeepVec[b] - 1]
  {
    hide Heap, Depths, Legal, Replay, LinkInRange, Put, FirstFree, Pointers, Short;
    var id, l := x.encodeQue[0], Target(x);
    assert x.(writeCnt := 1) == x;
    ReplaySnoc(x.history, WriteAllocate(id, l));
    ReplaySnoc(PlaceSlice(x).history, WriteDone(id));
  }

  lemma ProcessChains(s: State, q: int)
    requires Idle(s) && s.encodeQue != [] && !NoRoom(s) && (q in Fill(s).decodeQue || q in s.encodeQue)
    ensures ChainOf(Process(s), q) == ChainOf(s, q) + if q == s.encodeQue[0] then [Target(ReadSide(s))] else []
  {
    hide Heap, Depths, Legal, Replay, Timed, Settled, ReadSide, Write, ChainOf, LinkInRange, Fill, Target, NoRoom;
    ReadSideSparesWaiting(s, q);
    ReadSideIsQuiet(s);
    NoRoomTells(s);
    WriteChains(ReadSide(s), q);
    ClearKeepsChains(Write(ReadSide(s)), q);
  }

  /** When one of two banks is read and the other one is not full, the write goes to the other one. */
  lemma WritesBeside(s: State, b: int)
    requires Idle(s) && s.bankNum == 2 && 0 <= b < 2 && s.bankDeepVec[1 - b] > 0
    requires ReadsNext(s, b) && !ReadsNext(s, 1 - b)
    ensures Target(ReadSide(s)).bank == 1 - b
  {
    hide Heap, Depths, Legal, Replay, Timed, Settled, ReadSide, Target, LinkInRange, ReadsNext;
    var x := ReadSide(s);
    ReadSideKeepsLinked(s);
    ReadSideDeepens(s);
    BanksReadIff(s, b);
    BanksReadIff(s, 1 - b);
    assert Open(x, 1 - b) && !Open(x, b);
    WriteGoesToDeepestOpenBank(x, 1 - b);
  }

  // ---- One clock edge of a buffer with room ----

  /** Two banks of 128 slots with few packets inside, none of which has lost a slice. */
  ghost predicate Base(s: State) {
    && Idle(s) && Whole(s) && Audited(s, 0) && s.bankNum == 2 && s.sliceNum == 128
    && PacketsInside(s) <= 8
  }

  lemma BaseHasRoom(s: State)
    requires Base(s) && s.encodeQue != []
    ensures !NoRoom(s) && s.bankDeepVec[0] > 0 && s.bankDeepVec[1] > 0
  {
    hide Legal, Replay, Heap, Depths, Tally, Timed, Settled, Sum, NoRoom, ConflictSum, Whole, Occupied;
    FewPacketsHaveRoom(s);
    StockIsBounded(s);
    OccupiedByEvents(s);
    BankHasRoom(s, 0);
    BankHasRoom(s, 1);
  }

  lemma BankHasRoom(s: State, b: int)
    requires Linked(s) && 0 <= b < s.bankNum && Occupied(s.encodeVec) < s.sliceNum
    ensures s.bankDeepVec[b] > 0
  {
    hide Heap, Legal, Replay, CountFree, Occupied;
    OccupiedAtLeast(s.encodeVec, b);
  }

  lemma BaseEdge(s: State)
    requires Base(s)
    ensures var r := Process(s);
      && Wrote(s, r, ReadSide(s).decodeQue)
      && Idle(r) && Whole(r) && Audited(r, 0) && r.bankNum == 2 && r.sliceNum == 128
  {
    hide Linked, Tally, Timed, ReadSide, Write, Sum, NoRoom, ConflictSum, Whole, Process;
    IdleIsBounded(s);
    if s.encodeQue != [] { BaseHasRoom(s); }
    RoomyEdge(s);
    ProcessKeepsBooks(s, 0);
  }

  // ---- The heads over one clock edge ----

  /** The packets in service are those with ids lo to hi. */
  ghost predicate HeadsAre(s: State, lo: int, hi: int) {
    |s.decodeQueHead| == hi - lo + 1 && forall h :: h in s.decodeQueHead <==> lo <= h <= hi
  }

  lemma FewWaiting(s: State)
    requires |s.decodeQue| <= LINK_NUM
    ensures Fill(s) == s
  {}

  /** A clock edge without a conflict in which no head leaves. */
  lemma QuietEdge(s: State)
    requires Idle(s) && Calm(s) && |s.decodeQue| <= LINK_NUM
    requires forall h :: h in s.decodeQueHead ==> TimeLeft(s, h) > 1
    ensures |Process(s).decodeQueHead| == |s.decodeQueHead|
    ensures forall h :: h in Process(s).decodeQueHead <==> h in s.decodeQueHead
    ensures ReadSide(s).decodeQue == s.decodeQue
  {
    hide Idle, Fill, HeadLoop, Process, NextOf, TimeLeft, Calm, Linked;
    IdleIsBounded(s);
    FewWaiting(s);
    LinkedHeads(s);
    ProcessHeads(s);
    ProcessFinishes(s);
    forall h | h in s.decodeQueHead ensures h in Process(s).decodeQueHead { TimeShrinks(s, h); }
    var v := HeadLoop(s, 0, false).s.decodeQueHead;
    DistinctCount(s.decodeQueHead);
    DistinctCount(v);
    SubsetCount(set h | h in s.decodeQueHead, set h | h in v);
  }

  /** A clock edge in which head e leaves. */
  lemma LeavingEdge(s: State, e: int)
    requires Idle(s) && OneDue(s) && |s.decodeQue| <= LINK_NUM && e in s.decodeQueHead && TimeLeft(s, e) == 1
    requires forall h :: h in s.decodeQueHead && h != e ==> TimeLeft(s, h) > 1
    ensures s.decodeQue == [] ==>
      && |Process(s).decodeQueHead| == |s.decodeQueHead| - 1
      && (forall h :: h in Process(s).decodeQueHead <==> h in s.decodeQueHead && h != e)
      && ReadSide(s).decodeQue == []
    ensures s.decodeQue != [] ==> var z := s.decodeQue[0];
      && |Process(s).decodeQueHead| == |s.decodeQueHead|
      && (forall h :: h in Process(s).decodeQueHead <==> (h in s.decodeQueHead && h != e) || h == z)
      && ReadSide(s).decodeQue == s.decodeQue[1..] && z !in s.decodeQueHead
      && NextOf(Process(s), z) == match |s.decodeQueHead| case 1 => 6 case 2 => 5 case _ => 4
  {
    hide Idle, Fill, HeadLoop, Process, NextOf, TimeLeft, OneDue, Linked;
    IdleIsBounded(s);
    FewWaiting(s);
    FillOneDue(s);
    OneDueIsCalm(s);
    LinkedHeads(s);
    ProcessHeads(s);
    ProcessFinishes(s);
    forall h | h in s.decodeQueHead ensures h in Process(s).decodeQueHead <==> h != e { TimeShrinks(s, h); }
    var v := HeadLoop(s, 0, false);
    if !v.erased { LossIsShorter(s.decodeQueHead, v.s.decodeQueHead, e); }
    ErasedLeavesOne(s);
    if s.decodeQue != [] {
      NewcomerArrives(s, e);
      NewcomerNextOf(s, s.decodeQue[0]);
      assert v.s.decodeQue == s.decodeQue;
      assert forall h :: h in Process(s).decodeQueHead ==> h in s.decodeQueHead || h == s.decodeQue[0];
    } else {
      assert forall h :: h in Process(s).decodeQueHead ==> h in s.decodeQueHead;
    }
  }

  /** When a head that leaves in t cycles reads next. */
  function NextAt(t: int): int {
    if t > 64 then t - 60 else (t - 1) % 4 + 1
  }

  /** Head h leaves in t cycles if it meets no conflict, and has not met one. */
  ghost predicate OnTime(s: State, h: int, t: int) {
    h in s.decodeQueHead && TimeLeft(s, h) == t && NextOf(s, h) == NextAt(t)
  }

  lemma TimeStep(s: State, h: int, t: int)
    requires Idle(s) && Calm(s) && |s.decodeQue| <= LINK_NUM && OnTime(s, h, t) && 1 < t <= 66
    ensures OnTime(Process(s), h, t - 1)
    ensures ChainOf(Process(s), h) == if NextAt(t) == 1 then ChainOf(s, h)[1..] else ChainOf(s, h)
  {
    hide Idle, Fill, Process, NextOf, TimeLeft, Calm, ChainOf;
    FewWaiting(s);
    TimeShrinks(s, h);
  }

  lemma TimeStepStripes(s: State, h: int, t: int)
    requires Idle(s) && Calm(s) && |s.decodeQue| <= LINK_NUM && OnTime(s, h, t) && 1 < t <= 66
    requires Stripes(ChainOf(s, h))
    ensures OnTime(Process(s), h, t - 1) && Stripes(ChainOf(Process(s), h))
  {
    hide Idle, Fill, Process, Calm, ChainOf, Stripes, TimeLeft, NextOf;
    HasSlice(s, h, t);
    TimeStep(s, h, t);
    TailStripes(ChainOf(s, h));
  }

  lemma HasSlice(s: State, h: int, t: int)
    requires OnTime(s, h, t) && Idle(s) && t <= 66
    ensures ChainOf(s, h) != [] && 4 * |ChainOf(s, h)| == t - NextAt(t) + 4
  {
    hide Idle, NextOf, ChainOf, NextAt;
    HeadsAreDue(s, h);
  }

  lemma TimeAndPhase(s: State, h: int)
    ensures TimeLeft(s, h) % 4 == NextOf(s, h) % 4
  {
    hide NextOf, ChainOf;
  }

  /** Heads whose times to their leaving differ modulo 4. */
  lemma ApartByTime(s: State)
    requires forall a, b :: a in s.decodeQueHead && b in s.decodeQueHead && a != b ==>
      TimeLeft(s, a) % 4 != TimeLeft(s, b) % 4
    ensures OneDue(s) && Calm(s)
  {
    hide TimeLeft, NextOf;
    forall a, b | a in s.decodeQueHead && b in s.decodeQueHead && NextOf(s, a) == 1 && NextOf(s, b) == 1
      ensures a == b
    {
      TimeAndPhase(s, a);
      TimeAndPhase(s, b);
    }
    OneDueIsCalm(s);
  }

  // ---- Warming up ----

  /** n slices of the first five packets are written, to banks 0 and 1 in turn. */
  ghost predicate WarmAt(s: State, n: int) {
    && Base(s) && s.decodeQueHead == [] && s.decodeQue + s.encodeQue == [1, 2, 3, 4, 5]
    && 1 <= s.writeSliceNum <= PACKET_SLICES
    && n == PACKET_SLICES * |s.decodeQue| + PACKET_SLICES - s.writeSliceNum
    && (s.encodeQue == [] ==> s.writeSliceNum == PACKET_SLICES)
    && s.bankDeepVec == [128 - (n + 1) / 2, 128 - n / 2]
    && (forall q :: q in s.decodeQue ==> Striped(ChainOf(s, q), 0))
    && (s.encodeQue != [] ==> Striped(ChainOf(s, s.encodeQue[0]), 0))
  }

  lemma WarmTarget(s: State, n: int)
    requires WarmAt(s, n) && n < 80
    ensures Target(s).bank == n % 2 && Target(s).slot < s.sliceNum
  {
    hide Heap, Depths, Legal, Replay, Timed, Settled, Target, Whole, Audited, LinkInRange, Striped, ChainOf;
    assert Open(s, 0) && Open(s, 1);
    WriteGoesToDeepestOpenBank(s, 0);
  }

  lemma PartialLength(s: State)
    requires Idle(s) && Whole(s) && s.encodeQue != []
    ensures |ChainOf(s, s.encodeQue[0])| == PACKET_SLICES - s.writeSliceNum
  {
    hide Heap, Depths, Legal, Replay, Timed;
  }

  lemma StripedAppend(c: seq<Loc>, l: Loc)
    requires Striped(c, 0) && l.bank == |c| % 2
    ensures Striped(c + [l], 0)
  {}

  lemma WarmWrites(s: State, n: int)
    requires WarmAt(s, n) && n < 80
    ensures s.encodeQue != [] && Bounded(s) && Linked(s) && ReadSide(s) == s && |s.decodeQue| <= LINK_NUM
    ensures Process(s).decodeQueHead == []
  {
    hide Whole, Audited, ReadSide, Striped, ChainOf, Linked, Timed, Settled;
    IdleIsBounded(s);
    assert s.encodeQue != [] by { assert |s.decodeQue + s.encodeQue| == 5; }
    EmptyServiceGoesOn(s);
  }

  lemma WarmDepths(s: State, n: int)
    requires WarmAt(s, n) && n < 80 && Bounded(s)
    ensures Process(s).bankDeepVec == [128 - (n + 2) / 2, 128 - (n + 1) / 2]
  {
    hide Idle, Whole, Audited, Write, ReadSide, Target, Striped, ChainOf, Linked;
    WarmWrites(s, n);
    WarmTarget(s, n);
    WriteChains(s, 0);
  }

  lemma WarmChain(s: State, n: int, q: int)
    requires WarmAt(s, n) && n < 80 && Bounded(s) && s.encodeQue != [] && (q in s.decodeQue || q == s.encodeQue[0])
    ensures Striped(ChainOf(Process(s), q), 0)
  {
    hide Idle, Whole, Audited, Write, ReadSide, Target, Striped, ChainOf, Linked;
    WarmWrites(s, n);
    WarmTarget(s, n);
    WriteChains(s, q);
    ClearKeepsChains(Write(s), q);
    if q == s.encodeQue[0] {
      PartialLength(s);
      StripedAppend(ChainOf(s, q), Target(s));
    } else {
      assert ChainOf(s, q) + [] == ChainOf(s, q);
    }
  }

  lemma NothingStriped(c: seq<Loc>)
    requires |c| == 0
    ensures Striped(c, 0)
  {}

  lemma WarmLists(s: State, n: int)
    requires WarmAt(s, n) && n < 80
    ensures Bounded(s) && s.encodeQue != []
    ensures var e, r := s.encodeQue[0], Process(s);
      && Base(r) && r.decodeQue + r.encodeQue == [1, 2, 3, 4, 5] && r.decodeQueHead == []
      && 1 <= r.writeSliceNum <= PACKET_SLICES && (r.encodeQue == [] ==> r.writeSliceNum == PACKET_SLICES)
      && n + 1 == PACKET_SLICES * |r.decodeQue| + PACKET_SLICES - r.writeSliceNum
      && (forall q :: q in r.decodeQue ==> q in s.decodeQue || q == e)
      && (r.encodeQue != [] && r.writeSliceNum < PACKET_SLICES ==> r.encodeQue[0] == e)
  {
    hide Idle, Whole, Audited, Process, ReadSide, ChainOf, Striped;
    WarmWrites(s, n);
    BaseEdge(s);
    var e, rest := s.encodeQue[0], s.encodeQue[1..];
    assert s.encodeQue == [e] + rest;
    assert s.decodeQue + [e] + rest == s.decodeQue + s.encodeQue;
  }

  lemma WarmAtEdge(s: State, n: int)
    requires WarmAt(s, n) && n < 80
    ensures Bounded(s) && WarmAt(Process(s), n + 1)
  {
    hide Idle, Whole, Audited, Process, ReadSide, ChainOf, Striped;
    WarmLists(s, n);
    var r := Process(s);
    forall q | q in s.decodeQue || q == s.encodeQue[0] ensures Striped(ChainOf(r, q), 0) { WarmChain(s, n, q); }
    WarmDepths(s, n);
    if r.encodeQue != [] && r.writeSliceNum == PACKET_SLICES {
      PartialLength(r);
      NothingStriped(ChainOf(r, r.encodeQue[0]));
    }
  }

  lemma {:induction false} WarmsUp(s: State, n: int)
    requires WarmAt(s, n) && n <= 80
    ensures Bounded(s) && WarmAt(Run(s, Ticks(80 - n)), 80)
    decreases 80 - n
  {
    hide WarmAt, Process, Bounded;
    WarmIsBounded(s, n);
    if n < 80 {
      WarmAtEdge(s, n);
      WarmsUp(Process(s), n + 1);
      assert Ticks(80 - n)[0] == Clock && Ticks(80 - n)[1..] == Ticks(80 - (n + 1));
    }
  }

  lemma WarmIsBounded(s: State, n: int)
    requires WarmAt(s, n)
    ensures Bounded(s)
  {}

  // ---- Four packets in service, one waiting ----

  ghost predicate FourAt(s: State, t: int, h: int) {
    OnTime(s, h, t + h - 1) && Stripes(ChainOf(s, h))
  }

  ghost predicate Four(s: State, t: int) {
    && Base(s) && HeadsAre(s, 1, 4) && s.decodeQue == [5] && Striped(ChainOf(s, 5), 0)
    && FoursAt(s, t)
  }

  ghost predicate FoursAt(s: State, t: int) {
    forall h :: 1 <= h <= 4 ==> FourAt(s, t, h)
  }

  lemma FillsFour(s: State)
    requires WarmAt(s, 80)
    ensures Bounded(s) && s.decodeQue == [1, 2, 3, 4, 5] && s.encodeQue == []
    ensures HeadsAre(Fill(s), 1, 4) && Fill(s).decodeQue == [5]
    ensures forall h :: 1 <= h <= 4 ==>
      TimeLeft(Fill(s), h) == h + 63 && NextOf(Fill(s), h) == h + 3 && Stripes(ChainOf(Fill(s), h))
  {
    hide Idle, Whole, Audited, Fill, TimeLeft, NextOf, ChainOf, Striped;
    IdleIsBounded(s);
    assert s.decodeQue == [1, 2, 3, 4, 5] by { assert |s.decodeQue + s.encodeQue| == 5; }
    FillLeavesFifth(s);
    forall h | 1 <= h <= 4
      ensures TimeLeft(Fill(s), h) == h + 63 && NextOf(Fill(s), h) == h + 3 && Stripes(ChainOf(Fill(s), h))
    {
      FilledHead(s, h);
      StripesOfWhole(ChainOf(s, h));
    }
  }

  lemma StripesOfWhole(c: seq<Loc>)
    requires |c| == PACKET_SLICES && Striped(c, 0)
    ensures Stripes(c)
  {}

  lemma FilledHead(s: State, h: int)
    requires Idle(s) && Whole(s) && s.decodeQueHead == [] && s.decodeQue == [1, 2, 3, 4, 5] && 1 <= h <= 4
    ensures TimeLeft(Fill(s), h) == h + 63 && NextOf(Fill(s), h) == h + 3
    ensures ChainOf(Fill(s), h) == ChainOf(s, h) && |ChainOf(s, h)| == PACKET_SLICES
  {
    hide Linked, Timed, Settled, Fill, NextOf, FilledTimers, Whole;
    IdleIsBounded(s);
    FillFills(s);
    FillNexts(s);
    assert Fill(s).decodeQueHead[h - 1] == s.decodeQue[h - 1] == h;
    WaitingChain(s, h);
  }

  lemma FillLeavesFifth(s: State)
    requires Idle(s) && s.decodeQueHead == [] && s.decodeQue == [1, 2, 3, 4, 5]
    ensures Fill(s).decodeQueHead == [1, 2, 3, 4] && Fill(s).decodeQue == [5]
  {
    hide Linked, Timed, Settled, Fill, FilledTimers;
    FillFills(s);
  }

  /** A head that is not due yet only counts down. */
  lemma FilledStep(s: State, h: int)
    requires Idle(s) && Calm(s) && h in Fill(s).decodeQueHead
    requires NextOf(Fill(s), h) > 1 && TimeLeft(Fill(s), h) > 1
    ensures h in Process(s).decodeQueHead && TimeLeft(Process(s), h) == TimeLeft(Fill(s), h) - 1
    ensures NextOf(Process(s), h) == NextOf(Fill(s), h) - 1 && ChainOf(Process(s), h) == ChainOf(Fill(s), h)
  {
    hide Idle, Fill, Process, NextOf, TimeLeft, Calm, ChainOf;
    TimeShrinks(s, h);
  }

  lemma NoHeadIsCalm(s: State)
    requires s.decodeQueHead == []
    ensures OneDue(s) && Calm(s)
  {}

  lemma FillsAt(s: State)
    requires WarmAt(s, 80)
    ensures Four(Process(s), 63) && Process(s).encodeQue == [] && Process(s).writeSliceNum == PACKET_SLICES
  {
    hide Idle, Whole, Audited, Process, ReadSide, Fill, TimeLeft, NextOf, HeadLoop, OneDue, Calm, ChainOf, Striped;
    FillsFour(s);
    var f, r := Fill(s), Process(s);
    BaseEdge(s);
    NoHeadIsCalm(s);
    FillOneDue(s);
    forall h | h in f.decodeQueHead ensures h in r.decodeQueHead { FilledStep(s, h); }
    forall h | 1 <= h <= 4 ensures FourAt(r, 63, h) { FilledStep(s, h); }
    ProcessHeads(s);
    ProcessFinishes(s);
    if HeadLoop(f, 0, false).erased { ErasedLeavesOne(s); }
    assert forall h :: h in r.decodeQueHead ==> h in f.decodeQueHead;
    assert FoursAt(r, 63);
    NewcomerChain(s, 5);
  }

  lemma FourIsApart(s: State, t: int)
    requires Four(s, t)
    ensures Bounded(s) && Idle(s) && OneDue(s) && Calm(s)
  {
    hide Whole, Audited, NextOf, TimeLeft, Linked, Timed, Settled, ChainOf, Striped, OneDue, Calm;
    IdleIsBounded(s);
    assert FourAt(s, t, 1) && FourAt(s, t, 2) && FourAt(s, t, 3) && FourAt(s, t, 4);
    ApartByTime(s);
  }

  /** A clock edge in which no head leaves, whether or not a slice is written. */
  lemma FourHeads(s: State, t: int)
    requires Four(s, t) && 2 <= t <= 63
    ensures Bounded(s)
    ensures var r := Process(s);
      HeadsAre(r, 1, 4) && ReadSide(s).decodeQue == [5] && FoursAt(r, t - 1)
  {
    hide Idle, Whole, Audited, Process, ReadSide, TimeLeft, NextOf, OneDue, Calm, ChainOf, Striped;
    FourIsApart(s, t);
    forall h | h in s.decodeQueHead ensures TimeLeft(s, h) > 1 { assert FourAt(s, t, h); }
    QuietEdge(s);
    var u := t - 1;
    forall h | 1 <= h <= 4 ensures FourAt(Process(s), u, h) {
      assert FourAt(s, t, h);
      TimeStepStripes(s, h, t + h - 1);
    }
  }

  lemma FourEdge(s: State, t: int)
    requires Four(s, t) && 2 <= t <= 63 && s.encodeQue == [] && s.writeSliceNum == PACKET_SLICES
    ensures var r := Process(s); Four(r, t - 1) && r.encodeQue == [] && r.writeSliceNum == PACKET_SLICES
  {
    hide Idle, Whole, Audited, Process, ReadSide, ChainOf, Striped, HeadsAre, FoursAt;
    FourIsApart(s, t);
    FourHeads(s, t);
    BaseEdge(s);
    FewWaiting(s);
    NewcomerChain(s, 5);
    FourInside(Process(s));
  }

  lemma FourInside(s: State)
    requires HeadsAre(s, 1, 4)
    ensures |s.decodeQueHead| == 4
  {}

  lemma {:induction false} FourGoOn(s: State, t: int, m: nat)
    requires Four(s, t) && m < t <= 63 && s.encodeQue == [] && s.writeSliceNum == PACKET_SLICES
    ensures Bounded(s)
    ensures var r := Run(s, Ticks(m)); Four(r, t - m) && r.encodeQue == [] && r.writeSliceNum == PACKET_SLICES
    decreases m
  {
    hide Four, Process, Bounded;
    assert Bounded(s) by { FourIsApart(s, t); }
    if m > 0 {
      FourEdge(s, t);
      FourGoOn(Process(s), t - 1, m - 1);
      TickOnce(s, m - 1);
    } else {
      NoTicks(s);
    }
  }

  // ---- The sixth packet is written ----

  /** n slices of packet 6 are written, the first three of them to banks 0, 1, 1. */
  ghost predicate Writing(s: State, n: int) {
    s.encodeQue == [6] && s.writeSliceNum == PACKET_SLICES - n && Sixth(ChainOf(s, 6), 0)
  }

  lemma SixthArrives(s: State, t: int)
    requires Four(s, t) && s.encodeQue == [] && s.writeSliceNum == PACKET_SLICES
    ensures Bounded(s)
    ensures var r := RcvFrom(s, 0x1000, 6); Four(r, t) && Writing(r, 0)
  {
    hide Whole, Audited, NextOf, Linked, Timed, Settled, ChainOf, Striped;
    IdleIsBounded(s);
    ReceiveKeepsWhole(s, 6);
    ReceiveKeepsAudited(s, 0, 6);
    var r := RcvFrom(s, 0x1000, 6);
    forall h ensures ChainOf(r, h) == ChainOf(s, h) && (FourAt(s, t, h) ==> FourAt(r, t, h)) {
      ReceiveKeepsWaiting(s, 6, h, 0);
    }
    PartialLength(r);
  }

  /** The one head that is due reads bank b, and the slice goes to the other bank. */
  lemma DueHeadReads(s: State, t: int, h: int, b: int)
    requires Four(s, t) && 10 <= t <= 14 && 1 <= h <= 4 && (t + h - 1) % 4 == 1 && b == (t + h + 2) / 4 % 2
    requires s.encodeQue != []
    ensures Target(ReadSide(s)).bank == 1 - b
  {
    hide Whole, Audited, Linked, Timed, Settled, ReadSide, Target, NextOf, TimeLeft, ChainOf, OneDue, Calm;
    FourIsApart(s, t);
    assert FourAt(s, t, 1) && FourAt(s, t, 2) && FourAt(s, t, 3) && FourAt(s, t, 4);
    BaseHasRoom(s);
    LinkedHeads(s);
    forall g | g in s.decodeQueHead && g != h ensures NextOf(s, g) != 1 {}
    HasSlice(s, h, t + h - 1);
    HeadBank(s, h);
    DueIs(s, h);
    assert DueIn(s, h, b);
    forall g | g in s.decodeQueHead ensures !DueIn(s, g, 1 - b) { if g != h { DueIs(s, g); } }
    WritesBeside(s, b);
  }

  lemma DueIs(s: State, h: int)
    requires h in s.queueMap
    ensures Next(s.queueMap[h]) == NextOf(s, h)
  {}

  lemma SixthAppend(c: seq<Loc>, l: Loc)
    requires Sixth(c, 0) && (|c| == 0 ==> l.bank == 0) && (1 <= |c| <= 2 ==> l.bank == 1)
    ensures Sixth(c + [l], 0)
  {}

  lemma SixthWrites(s: State, n: int)
    requires Base(s) && Writing(s, n)
    requires (n == 0 ==> Target(ReadSide(s)).bank == 0) && (1 <= n <= 2 ==> Target(ReadSide(s)).bank == 1)
    ensures Bounded(s) && Sixth(ChainOf(Process(s), 6), 0)
  {
    hide Idle, Whole, Audited, Process, ReadSide, ChainOf, Sixth, Target, NoRoom;
    IdleIsBounded(s);
    BaseHasRoom(s);
    PartialLength(s);
    ProcessChains(s, 6);
    SixthAppend(ChainOf(s, 6), Target(ReadSide(s)));
  }

  lemma SixthTarget(s: State, n: int)
    requires Four(s, 14 - n) && Writing(s, n) && 0 <= n <= 2
    ensures Bounded(s) && Target(ReadSide(s)).bank == if n == 0 then 0 else 1
  {
    hide Four, Target, ReadSide, Sixth;
    FourIsApart(s, 14 - n);
    if n == 0 {
      DueHeadReads(s, 14, 4, 1);
    } else if n == 1 {
      DueHeadReads(s, 13, 1, 0);
    } else {
      DueHeadReads(s, 12, 2, 0);
    }
  }

  lemma SixthEdge(s: State, n: int)
    requires Four(s, 14 - n) && Writing(s, n) && 0 <= n <= 12
    ensures Bounded(s) && Four(Process(s), 13 - n) && Writing(Process(s), n + 1)
  {
    hide Idle, Whole, Audited, Process, ReadSide, ChainOf, Striped, HeadsAre, FoursAt, Sixth, Target;
    FourIsApart(s, 14 - n);
    FourHeads(s, 14 - n);
    BaseEdge(s);
    FewWaiting(s);
    NewcomerChain(s, 5);
    FourInside(Process(s));
    if n <= 2 { SixthTarget(s, n); }
    SixthWrites(s, n);
  }

  lemma {:induction false} SixthGoesOn(s: State, n: int)
    requires Four(s, 14 - n) && Writing(s, n) && 0 <= n <= 13
    ensures Bounded(s)
    ensures var r := Run(s, Ticks(13 - n)); Four(r, 1) && Writing(r, 13)
    decreases 13 - n
  {
    hide Four, Writing, Process, Bounded;
    assert Bounded(s) by { FourIsApart(s, 14 - n); }
    if n < 13 {
      SixthEdge(s, n);
      SixthGoesOn(Process(s), n + 1);
      TickOnce(s, 12 - n);
    } else {
      NoTicks(s);
    }
  }

  // ---- Running down ----

  /** The packets in service, with ids lo to hi, and those waiting. */
  ghost predicate Holding(s: State, lo: int, hi: int, waiting: seq<int>) {
    Base(s) && HeadsAre(s, lo, hi) && s.decodeQue == waiting
  }

  lemma Enters(s: State, z: int)
    requires Idle(s) && Whole(s) && |s.decodeQue| <= LINK_NUM && z in s.decodeQue
    ensures TimeLeft(Process(s), z) == NextOf(Process(s), z) + 60 && ChainOf(Process(s), z) == ChainOf(s, z)
    ensures |ChainOf(s, z)| == PACKET_SLICES
  {
    hide Idle, Whole, Process, NextOf, ChainOf;
    FewWaiting(s);
    NewcomerTime(s, z);
    NewcomerChain(s, z);
    WaitingChain(s, z);
  }

  lemma FirstLeaves(s: State)
    requires Four(s, 1) && Writing(s, 13)
    ensures var r := Process(s);
      && Holding(r, 2, 5, []) && Writing(r, 14) && OnTime(r, 5, 64) && Stripes(ChainOf(r, 5))
      && OnTime(r, 2, 1) && OnTime(r, 3, 2) && OnTime(r, 4, 3)
  {
    hide Idle, Whole, Audited, Process, ReadSide, TimeLeft, NextOf, OneDue, Calm, ChainOf, Striped, Sixth, Target;
    FourIsApart(s, 1);
    assert FourAt(s, 1, 1) && FourAt(s, 1, 2) && FourAt(s, 1, 3) && FourAt(s, 1, 4);
    BaseEdge(s);
    LeavingEdge(s, 1);
    TimeStep(s, 2, 2);
    TimeStep(s, 3, 3);
    TimeStep(s, 4, 4);
    Enters(s, 5);
    StripesOfWhole(ChainOf(s, 5));
    SixthWrites(s, 13);
  }

  lemma SecondLeaves(s: State)
    requires Holding(s, 2, 5, []) && Writing(s, 14) && OnTime(s, 5, 64) && Stripes(ChainOf(s, 5))
    requires OnTime(s, 2, 1) && OnTime(s, 3, 2) && OnTime(s, 4, 3)
    ensures var r := Process(s);
      && Holding(r, 3, 5, []) && Writing(r, 15) && OnTime(r, 5, 63) && Stripes(ChainOf(r, 5))
      && OnTime(r, 3, 1) && OnTime(r, 4, 2)
  {
    hide Idle, Whole, Audited, Process, ReadSide, TimeLeft, NextOf, OneDue, Calm, ChainOf, Striped, Sixth, Target;
    IdleIsBounded(s);
    ApartByTime(s);
    BaseEdge(s);
    LeavingEdge(s, 2);
    TimeStep(s, 3, 2);
    TimeStep(s, 4, 3);
    TimeStepStripes(s, 5, 64);
    SixthWrites(s, 14);
  }

  lemma ThirdLeaves(s: State)
    requires Holding(s, 3, 5, []) && Writing(s, 15) && OnTime(s, 5, 63) && Stripes(ChainOf(s, 5))
    requires OnTime(s, 3, 1) && OnTime(s, 4, 2)
    ensures var r := Process(s);
      && Holding(r, 4, 5, [6]) && r.encodeQue == [] && OnTime(r, 5, 62) && Stripes(ChainOf(r, 5))
      && OnTime(r, 4, 1) && Sixth(ChainOf(r, 6), 0)
  {
    hide Idle, Whole, Audited, Process, ReadSide, TimeLeft, NextOf, OneDue, Calm, ChainOf, Striped, Sixth, Target;
    IdleIsBounded(s);
    ApartByTime(s);
    BaseEdge(s);
    LeavingEdge(s, 3);
    TimeStep(s, 4, 2);
    TimeStepStripes(s, 5, 63);
    SixthWrites(s, 15);
    assert [6][1..] == [] && ReadSide(s).decodeQue + [6] == [6];
  }

  /** Packet 6 takes the place of packet 4 with a delay of 2, in the phase of packet 5. */
  lemma FourthLeaves(s: State)
    requires Holding(s, 4, 5, [6]) && s.encodeQue == [] && OnTime(s, 5, 62) && Stripes(ChainOf(s, 5))
    requires OnTime(s, 4, 1) && Sixth(ChainOf(s, 6), 0)
    ensures Two(Process(s), 61)
  {
    hide Idle, Whole, Audited, Process, ReadSide, TimeLeft, NextOf, OneDue, Calm, ChainOf, Striped, Sixth;
    IdleIsBounded(s);
    ApartByTime(s);
    BaseEdge(s);
    LeavingEdge(s, 4);
    TimeStepStripes(s, 5, 62);
    Enters(s, 6);
  }

  // ---- Two packets in the same phase ----

  ghost predicate Two(s: State, t: int) {
    && Holding(s, 5, 6, []) && s.encodeQue == [] && OnTime(s, 5, t) && OnTime(s, 6, t + 4)
    && Stripes(ChainOf(s, 5)) && Sixth(ChainOf(s, 6), PACKET_SLICES - |ChainOf(s, 6)|)
  }

  /** The banks in which packets 5 and 6 have their next slices. */
  lemma TwoBanks(s: State, t: int)
    requires Two(s, t) && t in {49, 53, 57}
    ensures 5 in s.queueMap && 6 in s.queueMap
    ensures s.queueMap[5].bankId == (if t == 53 then 0 else 1) && s.queueMap[6].bankId == (if t == 57 then 0 else 1)
  {
    hide Whole, Audited, Linked, Timed, Settled, TimeLeft, NextOf, ChainOf;
    IdleIsBounded(s);
    LinkedHeads(s);
    HasSlice(s, 5, t);
    HasSlice(s, 6, t + 4);
    HeadBank(s, 5);
    HeadBank(s, 6);
  }

  lemma BothDue(t: int)
    requires 50 <= t <= 61 && NextAt(t) == 1 && NextAt(t + 4) == 1
    ensures t == 53 || t == 57
  {}

  lemma TwoClash(s: State, t: int, a: int, b: int)
    requires HeadsAre(s, 5, 6) && OnTime(s, 5, t) && OnTime(s, 6, t + 4) && Clash(s, a, b)
    ensures NextAt(t) == 1 && NextAt(t + 4) == 1 && Clash(s, 5, 6)
  {
    hide TimeLeft, NextOf, NextAt;
    assert (a == 5 && b == 6) || (a == 6 && b == 5);
  }

  lemma TwoAreCalm(s: State, t: int)
    requires Two(s, t) && 50 <= t <= 61
    ensures Bounded(s) && Idle(s) && Calm(s)
  {
    hide Idle, Whole, Audited, TimeLeft, NextOf, ChainOf, Stripes, Sixth, OnTime, HeadsAre, NextAt, Clash;
    IdleIsBounded(s);
    if a, b :| Clash(s, a, b) {
      TwoClash(s, t, a, b);
      BothDue(t);
      TwoBanks(s, t);
      assert s.queueMap[5].bankId == s.queueMap[6].bankId by { ClashMeets(s, 5, 6); }
    }
  }

  lemma ClashMeets(s: State, a: int, b: int)
    requires Clash(s, a, b)
    ensures a in s.queueMap && b in s.queueMap && s.queueMap[a].bankId == s.queueMap[b].bankId
  {}

  lemma TwoEdge(s: State, t: int)
    requires Two(s, t) && 50 <= t <= 61
    ensures Bounded(s) && Two(Process(s), t - 1)
  {
    hide Idle, Whole, Audited, Process, ReadSide, TimeLeft, NextOf, Calm, ChainOf, Stripes, Sixth;
    TwoAreCalm(s, t);
    BaseEdge(s);
    QuietEdge(s);
    TimeStepStripes(s, 5, t);
    TimeStep(s, 6, t + 4);
    HasSlice(s, 6, t + 4);
    SixthTail(ChainOf(s, 6), PACKET_SLICES - |ChainOf(s, 6)|);
  }

  /** Packets 5 and 6 are due together and need the same bank. */
  lemma TwoMeet(s: State)
    requires Two(s, 49)
    ensures Bounded(s) && Tally(Process(s).history, AnyConflict) > Tally(s.history, AnyConflict)
    ensures Audited(Process(s), 0) && Process(s).bankNum == 2
  {
    hide Idle, Whole, Audited, Process, TimeLeft, NextOf, Tally, ChainOf, Stripes, Sixth;
    IdleIsBounded(s);
    BaseEdge(s);
    ConflictIff(s);
    TwoBanks(s, 49);
    assert Clash(s, 5, 6);
  }

  lemma {:induction false} TwoGoOn(s: State, t: int)
    requires Two(s, t) && 49 <= t <= 61
    ensures Bounded(s)
    ensures var r := Run(s, Ticks(t - 48)); r.bankNum == 2 && Audited(r, 0) && Tally(r.history, AnyConflict) > 0
    decreases t
  {
    hide Two, Process, Tally, Audited, Bounded;
    if t == 49 {
      TwoMeet(s);
      NoTicks(Process(s));
    } else {
      TwoEdge(s, t);
      TwoGoOn(Process(s), t - 1);
    }
    TickOnce(s, t - 49);
  }

  lemma RunsDown(s: State)
    requires Four(s, 1) && Writing(s, 13)
    ensures Bounded(s)
    ensures var r := Run(s, Ticks(17)); r.bankNum == 2 && Audited(r, 0) && Tally(r.history, AnyConflict) > 0
  {
    hide Four, Holding, OnTime, Writing, Two, Process, Tally, Run, Ticks, Audited, Bounded, Stripes, Sixth;
    FourIsApart(s, 1);
    var a := Process(s);
    FirstLeaves(s);
    SecondLeaves(a);
    var b := Process(a);
    ThirdLeaves(b);
    var c := Process(b);
    FourthLeaves(c);
    TwoGoOn(Process(c), 61);
    TickOnce(s, 16);
    TickOnce(a, 15);
    TickOnce(b, 14);
    TickOnce(c, 13);
  }

  // ---- The whole run ----

  lemma FivePacketsArrive()
    ensures WarmAt(Run(Init(2, 128), FIRST_FIVE), 0)
  {
    hide Idle, Whole, Audited, Bounded, ChainOf, Striped, Run;
    FivePackets(2, 128);
    var s := Run(Init(2, 128), FIRST_FIVE);
    PartialLength(s);
    NothingStriped(ChainOf(s, 1));
    assert s.bankDeepVec == [128, 128];
  }

  lemma ArrivalsOfSix()
    ensures Arrivals(FIRST_FIVE + Ticks(130) + [Receive(6)] + Ticks(30)) == [1, 2, 3, 4, 5, 6]
  {
    hide Ticks;
    NoArrivals(130);
    NoArrivals(30);
    ArrivalsOfBoth(FIRST_FIVE + Ticks(130) + [Receive(6)], Ticks(30));
    ArrivalsOfBoth(FIRST_FIVE + Ticks(130), [Receive(6)]);
    ArrivalsOfBoth(FIRST_FIVE, Ticks(130));
    assert Arrivals([Receive(6)]) == [6];
    ArrivalsOfFive();
  }

  lemma FourFromWarm(s: State)
    requires WarmAt(s, 0)
    ensures Bounded(s)
    ensures var r := Run(s, Ticks(130)); Four(r, 14) && r.encodeQue == [] && r.writeSliceNum == PACKET_SLICES
  {
    hide Ticks, Run, WarmAt, Four, Process, Bounded;
    WarmsUp(s, 0);
    var w := Run(s, Ticks(80));
    WarmIsBounded(w, 80);
    FillsAt(w);
    FourGoOn(Process(w), 63, 49);
    TickOnce(w, 49);
    TicksOfBoth(80, 50);
    RunOfBoth(s, Ticks(80), Ticks(50));
  }

  lemma FourInService()
    ensures var s := Run(Init(2, 128), FIRST_FIVE + Ticks(130));
      Four(s, 14) && s.encodeQue == [] && s.writeSliceNum == PACKET_SLICES
  {
    hide Ticks, Run, WarmAt, Four, Init, Bounded;
    FivePacketsArrive();
    FourFromWarm(Run(Init(2, 128), FIRST_FIVE));
    RunOfBoth(Init(2, 128), FIRST_FIVE, Ticks(130));
  }

  /** The buffer of the code, 2 banks of 128 slots: five packets arrive before the first clock edge, a sixth after 130
      edges.  All ids differ, no slice is dropped, and after 160 edges a read conflict has been counted. */
  lemma ConflictHappens()
    ensures var acts := FIRST_FIVE + Ticks(130) + [Receive(6)] + Ticks(30);
      var s := Run(Init(2, 128), acts);
      && NoDup(Arrivals(acts)) && Guarded(Init(2, 128), acts) && Tally(s.history, AnySkip) == 0
      && |s.bankConflictVec| == 2
      && s.bankConflictVec[0].readConflictCnt + s.bankConflictVec[1].readConflictCnt > 0
  {
    hide Ticks, Run, Four, Writing, Process, Init, Bounded, RcvFrom, Tally, Guarded, Arrivals, Legal, Audited;
    var i, a := Init(2, 128), FIRST_FIVE + Ticks(130);
    ArrivalsOfSix();
    DistinctArrivalsLoseNothing(2, 128, a + [Receive(6)] + Ticks(30));
    FourInService();
    var s := Run(i, a);
    SixthArrives(s, 14);
    var r := RcvFrom(s, 0x1000, 6);
    RunOfOne(s, Receive(6));
    RunOfBoth(i, a, [Receive(6)]);
    SixthGoesOn(r, 0);
    var q := Run(r, Ticks(13));
    RunsDown(q);
    TicksOfBoth(13, 17);
    RunOfBoth(r, Ticks(13), Ticks(17));
    RunOfBoth(i, a + [Receive(6)], Ticks(30));
    TwoBanksCount(Run(q, Ticks(17)));
  }

  lemma TwoBanksCount(s: State)
    requires Audited(s, 0) && s.bankNum == 2 && Tally(s.history, AnyConflict) > 0
    ensures |s.bankConflictVec| == 2
    ensures s.bankConflictVec[0].readConflictCnt + s.bankConflictVec[1].readConflictCnt > 0
  {
    hide Tally, Sum, LinkInRange, PacketLedger;
    var v := s.bankConflictVec;
    assert v[..1][..0] == [];
    assert ConflictSum(v[..1]) == ConflictSum(v[..1][..0]) + v[0].readConflictCnt;
    assert ConflictSum(v) == ConflictSum(v[..1]) + v[1].readConflictCnt;
  }
}
