/** What a run must respect to be one of the simple buffer, told by the state before each action. */
module Guard {
  import opened Types
  import opened Spec
  import opened Runs
  import opened SimpleBuffer
  import opened HeapShape
  import opened Refinement
  import opened Ledger
  import opened Scheduler
  import opened Cycle
  import opened Phases
  import opened Allocation
  import opened ReadSideLaws

  // ---- The banks that the coming clock edge reads ----

  ghost predicate DueIn(f: State, h: int, b: int) {
    h in f.queueMap && Next(f.queueMap[h]) == 1 && f.queueMap[h].bankId == b
  }

  /** Some head is due and has its next slice in bank b. */
  ghost predicate ReadsNext(s: State, b: int) {
    exists h :: h in s.decodeQueHead && DueIn(s, h, b)
  }

  lemma FlagsTell(f: State, x: State, b: int)
    requires Flagged(f, x, |f.decodeQueHead|) && 0 <= b < |x.readBankIdVec|
    ensures x.readBankIdVec[b] == 1 <==> ReadsNext(f, b)
  {
    hide Next, ChainOf;
    if x.readBankIdVec[b] == 1 {
      var n := |f.decodeQueHead|;
      var k :| Winner(f, x, k, n, b);
      assert f.decodeQueHead[k] in f.decodeQueHead && DueIn(f, f.decodeQueHead[k], b);
    }
    if h :| h in f.decodeQueHead && DueIn(f, h, b) {
      var k :| 0 <= k < |f.decodeQueHead| && f.decodeQueHead[k] == h;
      assert MarkedIfDue(f, x, f.decodeQueHead[k]);
    }
  }

  lemma FillKeepsReads(s: State, b: int)
    requires Idle(s)
    ensures ReadsNext(Fill(s), b) <==> ReadsNext(s, b)
  {
    hide Idle, Fill, Next;
    FillKeepsPlaces(s);
    if h :| h in Fill(s).decodeQueHead && DueIn(Fill(s), h, b) {
      DueWasHead(s, h);
      assert DueIn(s, h, b);
    }
    if h :| h in s.decodeQueHead && DueIn(s, h, b) { assert DueIn(Fill(s), h, b); }
  }

  /** The banks that are read in a cycle are those in which some due head has its next slice. */
  lemma BanksReadIff(s: State, b: int)
    requires Idle(s) && 0 <= b < s.bankNum
    ensures ReadSide(s).readBankIdVec[b] == 1 <==> ReadsNext(s, b)
  {
    hide Linked, Timed, Settled, Filled, HeadLoop, Fill, Next, SeenUpTo, SameFrom, InOrder, Flagged, LinkInRange;
    hide ReadsNext;
    IdleIsBounded(s);
    FillFills(s);
    HeadLoopSees(Fill(s));
    ProcessFinishes(s);
    FlagsTell(Fill(s), HeadLoop(Fill(s), 0, false).s, b);
    FillKeepsReads(s, b);
  }

  // ---- The depths that the writer finds ----

  /** Each bank's depth has grown by its flag. */
  ghost predicate DeeperByFlags(deep: seq<int>, x: State) {
    && |deep| == |x.bankDeepVec| == |x.readBankIdVec|
    && forall b :: 0 <= b < |deep| ==> 0 <= x.readBankIdVec[b] <= 1 && x.bankDeepVec[b] == deep[b] + x.readBankIdVec[b]
  }

  lemma VisitDeepens(deep: seq<int>, s: State, i: int)
    requires Bounded(s) && 0 <= i < |s.decodeQueHead| && DeeperByFlags(deep, s)
    ensures DeeperByFlags(deep, Visit(s, i).s)
  {
    hide Put, LinkInRange;
  }

  lemma {:induction false} HeadLoopDeepens(deep: seq<int>, s: State, i: int, erased: bool)
    requires Bounded(s) && 0 <= i <= |s.decodeQueHead| && (erased ==> |s.decodeQueHead| < LINK_NUM)
    requires DeeperByFlags(deep, s)
    ensures DeeperByFlags(deep, HeadLoop(s, i, erased).s)
    decreases |s.decodeQueHead| - i
  {
    hide DeeperByFlags, Visit, LinkInRange;
    if i < |s.decodeQueHead| {
      var v := Visit(s, i);
      VisitDeepens(deep, s, i);
      HeadLoopDeepens(deep, v.s, if v.erased then i else i + 1, erased || v.erased);
    }
  }

  lemma ReadSideDeepens(s: State)
    requires Idle(s)
    ensures DeeperByFlags(s.bankDeepVec, ReadSide(s))
  {
    hide Linked, Timed, Settled, HeadLoop, Fill, LinkInRange;
    IdleIsBounded(s);
    FillFills(s);
    HeadLoopDeepens(s.bankDeepVec, Fill(s), 0, false);
  }

  // ---- When the coming clock edge drops its slice ----

  /** The coming clock edge does not read bank 0, and every bank that it does not read is full. */
  ghost predicate NoRoom(s: State)
    requires Bounded(s)
  {
    !ReadsNext(s, 0) && forall b :: 0 <= b < s.bankNum && !ReadsNext(s, b) ==> s.bankDeepVec[b] == 0
  }

  lemma NoRoomTells(s: State)
    requires Idle(s)
    ensures var x := ReadSide(s);
      Linked(x) && x.sliceNum == s.sliceNum && (Target(x).slot == x.sliceNum <==> NoRoom(s))
  {
    hide Heap, Depths, Legal, Replay, Timed, ReadSide, Target, LinkInRange, ReadsNext;
    var x := ReadSide(s);
    ReadSideKeepsLinked(s);
    ReadSideDeepens(s);
    DropsIff(x);
    forall b | 0 <= b < s.bankNum
      ensures s.bankDeepVec[b] >= 0 && (Open(x, b) <==> !ReadsNext(s, b) && s.bankDeepVec[b] > 0)
      ensures x.readBankIdVec[b] == 1 <==> ReadsNext(s, b)
    {
      DepthIsNatural(s, b);
      BanksReadIff(s, b);
    }
  }

  lemma DepthIsNatural(s: State, b: int)
    requires Linked(s) && 0 <= b < s.bankNum
    ensures s.bankDeepVec[b] >= 0
  {
    hide Heap, Legal, Replay, CountFree;
  }

  lemma WriteIsBooked(x: State)
    requires Linked(x)
    ensures var t, u, drops := x.history, Write(x).history, Target(x).slot == x.sliceNum;
      && Tally(u, AnySkip) == Tally(t, AnySkip) + (if x.encodeQue != [] && drops then 1 else 0)
      && Tally(u, AnyAllocation) == Tally(t, AnyAllocation) + (if x.encodeQue != [] && !drops then 1 else 0)
  {
    hide Heap, Depths, Legal, Replay, Tally, Target, Put, LinkInRange, Pointers, Short;
    if x.encodeQue != [] {
      assert x.(writeCnt := 1) == x;
      var id, l := x.encodeQue[0], Target(x);
      TallySnoc(x.history, WriteAllocate(id, l));
      TallySnoc(x.history, WriteSkip(id));
      TallySnoc(PlaceSlice(x).history, WriteDone(id));
    }
  }

  /** A clock edge with a packet to write drops its slice exactly when bank 0 is not read in it and every bank that is
      not read is full; otherwise it stores the slice. */
  lemma SliceIsDroppedIff(s: State)
    requires Idle(s)
    ensures var t, u := s.history, Process(s).history;
      && Tally(u, AnySkip) == Tally(t, AnySkip) + (if s.encodeQue != [] && NoRoom(s) then 1 else 0)
      && Tally(u, AnyAllocation) == Tally(t, AnyAllocation) + (if s.encodeQue != [] && !NoRoom(s) then 1 else 0)
  {
    hide Heap, Depths, Legal, Replay, Tally, Timed, ReadSide, Write, Target, LinkInRange, NoRoom;
    NoRoomTells(s);
    ReadSideIsQuiet(s);
    WriteIsBooked(ReadSide(s));
  }

  // ---- Guarded runs ----

  /** The coming clock edge writes the last slice of a packet of which nothing is stored, and drops it. */
  ghost predicate LosesNext(s: State)
    requires Bounded(s)
  {
    s.encodeQue != [] && s.writeSliceNum == 1 && s.lastBankId == -1 && NoRoom(s)
  }

  /** What an action must respect: a packet that arrives is not inside the buffer already, and a clock edge does not
      lose a whole packet.  Slices may be dropped as long as one of the 16 is stored. */
  ghost predicate Safe(s: State, a: Action)
    requires Bounded(s)
  {
    match a
    case Receive(id) => !Inside(s, id)
    case Clock => !LosesNext(s)
  }

  ghost predicate Guarded(s: State, acts: seq<Action>)
    requires Bounded(s)
    decreases acts
  {
    acts != [] ==> Safe(s, acts[0]) && Guarded(Do(s, acts[0]), acts[1..])
  }

  lemma LosesNextTells(s: State)
    requires Idle(s)
    ensures LosesNext(s) <==> LosesPacket(ReadSide(s))
  {
    hide Heap, Depths, Legal, Replay, Timed, ReadSide, Target, LinkInRange, NoRoom;
    NoRoomTells(s);
    ReadSideIsQuiet(s);
  }

  /** A clock edge keeps the buffer idle, and its history one of the simple buffer, exactly when it loses no packet. */
  lemma ClockKeepsIdle(s: State)
    requires Idle(s)
    ensures Idle(Process(s)) <==> Safe(s, Clock)
    ensures Legal(Process(s).history) <==> Safe(s, Clock)
  {
    hide Legal, Replay, Heap, Depths, Timed, Settled, ReadSide, Process, LosesNext, LosesPacket;
    LosesNextTells(s);
    ClockKeepsLinked(s);
    if Safe(s, Clock) { ProcessKeepsIdle(s); }
  }

  lemma ReceiveKeepsIdle(s: State, id: int)
    requires Idle(s)
    ensures Idle(RcvFrom(s, 0x1000, id)) <==> Safe(s, Receive(id))
    ensures Legal(RcvFrom(s, 0x1000, id).history) <==> Safe(s, Receive(id))
  {
    hide Heap, Depths, Legal, Replay;
    ReceiveKeepsLinked(s, id);
  }

  lemma {:induction false} LegalPrefix(t: seq<Event>, u: seq<Event>)
    requires t <= u && Legal(u)
    ensures Legal(t)
    decreases u
  {
    if t != u { LegalPrefix(t, u[..|u| - 1]); }
  }

  /** From any idle state: a run stays a history of the simple buffer exactly when it is guarded, and is then idle
      again. */
  lemma {:induction false} RunKeepsIdle(s: State, acts: seq<Action>)
    requires Idle(s)
    ensures Legal(Run(s, acts).history) <==> Guarded(s, acts)
    ensures Guarded(s, acts) ==> Idle(Run(s, acts))
    decreases acts
  {
    hide Idle, Process, RcvFrom, Safe, Bounded;
    IdleIsLegal(s);
    if acts != [] {
      var r := Do(s, acts[0]);
      match acts[0] {
        case Receive(id) => ReceiveKeepsIdle(s, id);
        case Clock => ClockKeepsIdle(s);
      }
      if Safe(s, acts[0]) {
        RunKeepsIdle(r, acts[1..]);
      } else if Legal(Run(s, acts).history) {
        LegalPrefix(r.history, Run(r, acts[1..]).history);
      }
    }
  }

  lemma IdleIsLegal(s: State)
    requires Idle(s)
    ensures Bounded(s) && Legal(s.history)
  {}

  lemma {:induction false} GuardedOfBoth(s: State, a: seq<Action>, b: seq<Action>)
    requires Bounded(s)
    ensures Guarded(s, a + b) <==> Guarded(s, a) && Guarded(Run(s, a), b)
    decreases a
  {
    hide Bounded, Process, RcvFrom, Safe;
    if a == [] {
      assert a + b == b;
    } else {
      assert (a + b)[0] == a[0] && (a + b)[1..] == a[1..] + b;
      BoundedAfter(s, a[0]);
      GuardedOfBoth(Do(s, a[0]), a[1..], b);
    }
  }
}
