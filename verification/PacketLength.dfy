/** How many slices a packet inside the buffer has, and when all of them find room. */
module PacketLength {
  import opened Types
  import opened Spec
  import opened Runs
  import opened SimpleBuffer
  import opened HeapShape
  import opened Refinement
  import opened Ledger
  import opened Scheduler
  import opened Cycle
  import opened Guard
  import opened Occupancy
  import opened ReadSideLaws
  import opened Delivery

  // ---- Few packets find room ----

  function PacketsInside(s: State): nat {
    |s.decodeQueHead| + |s.decodeQue| + |s.encodeQue|
  }

  lemma StockIsBounded(s: State)
    requires Linked(s) && s.encodeQue != []
    ensures Tally(s.history, AnyAllocation) - Tally(s.history, AnyRelease) < PACKET_SLICES * PacketsInside(s)
  {
    hide Heap, Depths, Legal, Replay, Tally, Total, Pointers, Exclusive, LinkInRange;
    var b := Replay(s.history);
    LegalIsSound(s.history);
    TotalByEvents(s.history);
    TotalOfBoth(b.chain, b.service + b.ready, b.inbox);
    TotalOfInbox(b);
    TotalIsBounded(b.chain, b.service + b.ready);
  }

  /** A bank as large as all packets inside together has room for the coming slice. */
  lemma FewPacketsHaveRoom(s: State)
    requires Linked(s) && BankLedger(s) && s.encodeQue != [] && PACKET_SLICES * PacketsInside(s) <= s.sliceNum
    ensures !NoRoom(s)
  {
    hide Heap, Legal, Replay, Tally, Occupied, CountFree, ReadsNext, Sum, Total;
    StockIsBounded(s);
    OccupiedByEvents(s);
    OccupiedAtLeast(s.encodeVec, 0);
  }

  lemma {:induction false} LiveIsReceived(t: seq<Event>)
    requires Legal(t)
    ensures |Live(Replay(t))| <= |IdsReceived(t)|
  {
    if t != [] { LiveIsReceived(t[..|t| - 1]); }
  }

  lemma InsideWasReceived(s: State)
    requires Linked(s)
    ensures PacketsInside(s) <= |IdsReceived(s.history)|
    ensures forall id :: Inside(s, id) ==> id in IdsReceived(s.history)
  {
    hide Heap, Depths, Replay, Legal, Tally, IdsReceived, Pointers;
    LiveIsReceived(s.history);
    forall id | Inside(s, id) ensures id in IdsReceived(s.history) { LiveWasReceived(s, id); }
  }

  lemma ClockReceivesNothing(s: State)
    requires Idle(s)
    ensures IdsReceived(Process(s).history) == IdsReceived(s.history)
  {
    hide Linked, Timed, Settled, ReadSide, IdsReceived, Target, Put, LinkInRange;
    IdleIsBounded(s);
    ReadSideIsQuiet(s);
    var x := ReadSide(s);
    var y := x.(writeCnt := 1);
    if x.encodeQue != [] {
      NothingReceived(y.history, WriteAllocate(x.encodeQue[0], Target(y)));
      NothingReceived(y.history, WriteSkip(x.encodeQue[0]));
      NothingReceived(PlaceSlice(y).history, WriteDone(x.encodeQue[0]));
    }
  }

  lemma NothingReceived(t: seq<Event>, e: Event)
    requires !e.Received?
    ensures IdsReceived(t + [e]) == IdsReceived(t)
  {
    assert (t + [e])[..|t|] == t;
  }

  lemma {:induction false} ArrivalsFit(s: State, acts: seq<Action>)
    requires Idle(s) && Audited(s, 0)
    requires NoDup(IdsReceived(s.history) + Arrivals(acts))
    requires PACKET_SLICES * |IdsReceived(s.history) + Arrivals(acts)| <= s.sliceNum
    ensures Guarded(s, acts)
    ensures Tally(Run(s, acts).history, AnySkip) == Tally(s.history, AnySkip)
    decreases acts
  {
    hide Idle, Linked, Process, Tally, NoRoom, BankLedger, PacketLedger, IdsReceived, NoDup, LinkInRange;
    IdleIsLinked(s);
    if acts != [] {
      var r, rest := Do(s, acts[0]), acts[1..];
      InsideWasReceived(s);
      match acts[0] {
        case Receive(id) =>
          assert Arrivals(acts) == [id] + Arrivals(rest);
          ReceivedIsNew(IdsReceived(s.history), Arrivals(acts), id);
          ReceiveKeepsIdle(s, id);
          ReceiveKeepsAudited(s, 0, id);
          ReceivedSnoc(s.history, id);
          TallySnoc(s.history, Received(id));
          assert IdsReceived(r.history) + Arrivals(rest) == IdsReceived(s.history) + Arrivals(acts);
        case Clock =>
          assert Arrivals(acts) == Arrivals(rest);
          if s.encodeQue != [] { FewPacketsHaveRoom(s); }
          SliceIsDroppedIff(s);
          ClockKeepsIdle(s);
          ProcessKeepsBooks(s, 0);
          ClockReceivesNothing(s);
      }
      ArrivalsFit(r, rest);
    }
  }

  lemma ReceivedIsNew(past: seq<int>, coming: seq<int>, id: int)
    requires NoDup(past + coming) && coming != [] && coming[0] == id
    ensures id !in past
  {
    assert (past + coming)[|past|] == id;
    assert forall k :: 0 <= k < |past| ==> (past + coming)[k] == past[k];
  }

  /** On arrivals alone: if the ids of all packets that arrive differ and one bank could hold all their slices, the run
      is a history of the simple buffer and no slice is ever dropped. */
  lemma FewArrivalsLoseNothing(bankNum: int, sliceNum: int, acts: seq<Action>)
    requires bankNum >= 1 && sliceNum >= 1
    requires NoDup(Arrivals(acts)) && PACKET_SLICES * |Arrivals(acts)| <= sliceNum
    ensures var i := Init(bankNum, sliceNum);
      Guarded(i, acts) && Legal(Run(i, acts).history) && Tally(Run(i, acts).history, AnySkip) == 0
  {
    hide Idle, Legal, Guarded, Run, Tally, Audited;
    var i := Init(bankNum, sliceNum);
    InitIsIdle(bankNum, sliceNum);
    InitIsAudited(bankNum, sliceNum, 0);
    assert IdsReceived(i.history) + Arrivals(acts) == Arrivals(acts);
    ArrivalsFit(i, acts);
    RunIsSimpleBuffer(bankNum, sliceNum, acts);
    assert Tally(i.history, AnySkip) == 0 by { NoEvents(AnySkip); }
  }

  // ---- Packets of full length ----

  /** No packet arrives that is inside already, and every slice finds room. */
  ghost predicate Roomy(s: State, acts: seq<Action>)
    requires Bounded(s)
    decreases acts
  {
    acts != [] ==>
      && (match acts[0] case Receive(id) => !Inside(s, id) case Clock => s.encodeQue != [] ==> !NoRoom(s))
      && Roomy(Do(s, acts[0]), acts[1..])
  }

  lemma RoomyClock(s: State)
    requires Idle(s) && Whole(s) && (s.encodeQue != [] ==> !NoRoom(s))
    ensures Whole(Process(s))
  {
    hide Heap, Depths, Legal, Replay, Timed, Settled, ReadSide, NoRoom, Target, Put, Partial;
    ReadSideKeepsWhole(s);
    ReadSideIsQuiet(s);
    NoRoomTells(s);
    if s.encodeQue != [] { WriteKeepsWhole(ReadSide(s)); }
  }

  /** The writer's part of a clock edge: one slice of the front packet is stored; q is decode_que before the write. */
  ghost predicate Wrote(s: State, r: State, q: seq<int>) {
    if s.encodeQue == [] then r.encodeQue == [] && r.decodeQue == q && r.writeSliceNum == s.writeSliceNum
    else if s.writeSliceNum == 1 then
      r.encodeQue == s.encodeQue[1..] && r.decodeQue == q + [s.encodeQue[0]] && r.writeSliceNum == PACKET_SLICES
    else r.encodeQue == s.encodeQue && r.decodeQue == q && r.writeSliceNum == s.writeSliceNum - 1
  }

  /** A clock edge whose slice finds room. */
  lemma RoomyEdge(s: State)
    requires Idle(s) && Whole(s) && (s.encodeQue != [] ==> !NoRoom(s))
    ensures var r := Process(s); Idle(r) && Whole(r) && Wrote(s, r, ReadSide(s).decodeQue)
  {
    hide Legal, Replay, Heap, Depths, Tally, Timed, Settled, ReadSide, Write, IdsReceived, NoRoom, Target, LinkInRange;
    hide Whole;
    ReadSideIsQuiet(s);
    if s.encodeQue != [] {
      NoRoomTells(s);
      WriteStores(ReadSide(s));
    }
    RoomyClock(s);
    ClockKeepsIdle(s);
    WriteNothing(s);
  }

  lemma WriteNothing(s: State)
    requires Bounded(s)
    ensures ReadSide(s).encodeQue == [] ==> Write(ReadSide(s)) == ReadSide(s)
    ensures var r, w := Process(s), Write(ReadSide(s));
      && r.encodeQue == w.encodeQue && r.decodeQue == w.decodeQue && r.writeSliceNum == w.writeSliceNum
      && r.decodeQueHead == w.decodeQueHead
  {
    hide ReadSide, LinkInRange;
  }

  lemma WaitingChain(s: State, z: int)
    requires Whole(s) && z in s.decodeQue
    ensures |ChainOf(s, z)| == PACKET_SLICES
  {}

  /** For any arrivals, as long as every slice finds room: every waiting packet has 16 slices, and a packet of which
      write_slice_num slices are still to come has 16 - write_slice_num. */
  lemma {:induction false} RoomyRunKeepsWhole(s: State, acts: seq<Action>)
    requires Idle(s) && Whole(s) && Roomy(s, acts)
    ensures Guarded(s, acts) && Idle(Run(s, acts)) && Whole(Run(s, acts))
    decreases acts
  {
    hide Idle, Whole, Process, RcvFrom, NoRoom;
    IdleIsBounded(s);
    if acts != [] {
      match acts[0] {
        case Receive(id) => ReceiveKeepsWhole(s, id);
        case Clock =>
          RoomyClock(s);
          ClockKeepsIdle(s);
      }
      RoomyRunKeepsWhole(Do(s, acts[0]), acts[1..]);
    }
  }

  lemma ReceiveKeepsWhole(s: State, id: int)
    requires Idle(s) && Whole(s) && !Inside(s, id)
    ensures Idle(RcvFrom(s, 0x1000, id)) && Whole(RcvFrom(s, 0x1000, id))
  {
    hide Heap, Depths, Legal, Replay;
    ReceiveKeepsIdle(s, id);
    ReplaySnoc(s.history, Received(id));
    LegalIsSound(s.history);
  }

  lemma Arrives(s: State, id: int, rest: seq<Action>)
    requires Idle(s) && Whole(s) && Audited(s, 0) && !Inside(s, id)
    ensures Bounded(s)
    ensures var r := RcvFrom(s, 0x1000, id);
      Idle(r) && Whole(r) && Audited(r, 0) && Run(s, [Receive(id)] + rest) == Run(r, rest)
  {
    hide Idle, Whole, Audited, LinkInRange;
    IdleIsBounded(s);
    ReceiveKeepsWhole(s, id);
    ReceiveKeepsAudited(s, 0, id);
    assert ([Receive(id)] + rest)[1..] == rest;
  }

  /** Five packets arrive at a new buffer. */
  lemma FivePackets(bankNum: int, sliceNum: int)
    requires bankNum >= 1 && sliceNum >= 1
    ensures var i := Init(bankNum, sliceNum);
      var s := Run(i, FIRST_FIVE);
      && Idle(s) && Whole(s) && Audited(s, 0)
      && s == i.(encodeQue := [1, 2, 3, 4, 5],
                 history := [Received(1), Received(2), Received(3), Received(4), Received(5)])
  {
    hide Idle, Whole, Audited, Bounded, Run;
    var i := Init(bankNum, sliceNum);
    InitIsIdle(bankNum, sliceNum);
    InitIsAudited(bankNum, sliceNum, 0);
    InitIsWhole(bankNum, sliceNum);
    var q2, q3 := [Receive(2), Receive(3), Receive(4), Receive(5)], [Receive(3), Receive(4), Receive(5)];
    var q4 := [Receive(4), Receive(5)];
    assert FIRST_FIVE == [Receive(1)] + q2 && q2 == [Receive(2)] + q3 && q3 == [Receive(3)] + q4;
    assert q4 == [Receive(4)] + [Receive(5)] && [Receive(5)] == [Receive(5)] + [];
    Arrives(i, 1, q2);
    var a := RcvFrom(i, 0x1000, 1);
    Arrives(a, 2, q3);
    var b := RcvFrom(a, 0x1000, 2);
    Arrives(b, 3, q4);
    var c := RcvFrom(b, 0x1000, 3);
    Arrives(c, 4, [Receive(5)]);
    var d := RcvFrom(c, 0x1000, 4);
    Arrives(d, 5, []);
    NothingArrives(RcvFrom(d, 0x1000, 5));
  }

  lemma NothingArrives(s: State)
    requires Bounded(s)
    ensures Run(s, []) == s
  {}

  lemma InitIsWhole(bankNum: int, sliceNum: int)
    requires bankNum >= 1 && sliceNum >= 1
    ensures Whole(Init(bankNum, sliceNum))
  {}

  /** The members of the writer tell the slices that are stored: both are -1 exactly when all 16 are still to come. */
  lemma LastMembersTell(s: State)
    requires Linked(s) && Whole(s)
    ensures s.lastBankId == -1 <==> s.writeSliceNum == PACKET_SLICES
    ensures s.lastSliceId == -1 <==> s.writeSliceNum == PACKET_SLICES
  {
    LastIsTail(s, 0);
  }

  // ---- Packets of any length ----

  lemma {:induction false} ReceivedIsCounted(t: seq<Event>, id: int)
    ensures Tally(t, ReceivedOf(id)) == multiset(IdsReceived(t))[id]
  {
    if t != [] { ReceivedIsCounted(t[..|t| - 1], id); }
  }

  lemma {:induction false} ReleasedWasServed(t: seq<Event>, id: int)
    requires Legal(t)
    ensures SlotsReleased(t, id) != [] || id in Replay(t).service ==> id in IdsServed(t)
  {
    if t != [] { ReleasedWasServed(t[..|t| - 1], id); }
  }

  /** A packet that was received once and waits has not been served before. */
  lemma WaitingIsUntouched(s: State, id: int)
    requires Linked(s) && Tally(s.history, ReceivedOf(id)) == 1 && (id in s.decodeQue || id in s.encodeQue)
    ensures SlotsReleased(s.history, id) == []
  {
    hide Heap, Depths, Legal, Replay, Tally, IdsReceived, IdsServed, SlotsReleased, Pointers;
    ServedInArrivalOrder(s.history);
    ReceivedIsCounted(s.history, id);
    ReleasedWasServed(s.history, id);
  }

  /** A packet that was received once and is inside the buffer has as many slices, stored or released, as were written
      of it and not dropped. */
  lemma PacketLengths(s: State, id: int)
    requires Linked(s) && PacketLedger(s, id) && Tally(s.history, ReceivedOf(id)) == 1
    ensures var dropped, stored := Tally(s.history, SkippedOf(id)), |ChainOf(s, id)|;
      && (id in s.decodeQue ==> stored == PACKET_SLICES - dropped)
      && (s.encodeQue != [] && id == s.encodeQue[0] ==> stored == PACKET_SLICES - s.writeSliceNum - dropped)
      && (id in s.decodeQueHead ==> |SlotsReleased(s.history, id)| + stored == PACKET_SLICES - dropped)
  {
    hide Heap, Depths, Legal, Replay, Tally, SlotsWritten, SlotsReleased, Pointers;
    ReleasedInWriteOrder(s.history, id);
    WrittenByEvents(s.history, id);
    LinkedHeads(s);
    WaitingPackets(s);
    if id in s.decodeQue || id in s.encodeQue { WaitingIsUntouched(s, id); }
  }

  /** The same over runs from the constructor on. */
  lemma PacketLengthsInRuns(bankNum: int, sliceNum: int, acts: seq<Action>, id: int)
    requires bankNum >= 1 && sliceNum >= 1 && Guarded(Init(bankNum, sliceNum), acts)
    ensures var s := Run(Init(bankNum, sliceNum), acts);
      var dropped, stored := Tally(s.history, SkippedOf(id)), |ChainOf(s, id)|;
      Tally(s.history, ReceivedOf(id)) == 1 ==>
        && (id in s.decodeQue ==> stored == PACKET_SLICES - dropped)
        && (s.encodeQue != [] && id == s.encodeQue[0] ==> stored == PACKET_SLICES - s.writeSliceNum - dropped)
        && (id in s.decodeQueHead ==> |SlotsReleased(s.history, id)| + stored == PACKET_SLICES - dropped)
  {
    hide Idle, Tally, ChainOf, Init, Run, SlotsReleased, Guarded, Linked, PacketLedger, BankLedger;
    var s := Run(Init(bankNum, sliceNum), acts);
    RunIsSimpleBuffer(bankNum, sliceNum, acts);
    IdleIsLinked(s);
    InitIsAudited(bankNum, sliceNum, id);
    RunKeepsAudited(Init(bankNum, sliceNum), acts, id);
    if Tally(s.history, ReceivedOf(id)) == 1 { PacketLengths(s, id); }
  }
}
