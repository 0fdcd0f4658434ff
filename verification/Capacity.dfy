/** A buffer with at least 108 slots in each bank, such as the one the code builds, never drops a slice: whatever
    arrives, as long as no packet arrives that is inside already, at most 107 slices are stored. */
module Capacity {
  import opened Types
  import opened Spec
  import opened Runs
  import opened SimpleBuffer
  import opened HeapShape
  import opened Refinement
  import opened Ledger
  import opened Scheduler
  import opened Cycle
  import opened Guard
  import opened Phases
  import opened Occupancy
  import opened ReadSideLaws
  import opened Delivery
  import opened PacketLength
  import opened Waiting
  import opened Departures
  import Load

  // ---- The times of the heads over one clock edge ----

  /** The time of head h after the clock edge, 0 if it leaves. */
  function TimeAfter(r: State, h: int): int {
    if h in r.decodeQueHead then TimeLeft(r, h) else 0
  }

  function TimesOf(s: State, q: seq<int>): (t: seq<int>)
    ensures |t| == |q|
  {
    if q == [] then [] else [TimeLeft(s, q[0])] + TimesOf(s, q[1..])
  }

  function TimesAfter(r: State, q: seq<int>): (t: seq<int>)
    ensures |t| == |q|
  {
    if q == [] then [] else [TimeAfter(r, q[0])] + TimesAfter(r, q[1..])
  }

  /** A head gets one cycle closer to its leaving, or loses its read. */
  lemma SeenTime(f: State, r: State, h: int)
    requires Seen(f, r, h) && h in f.decodeQueHead && |ChainOf(f, h)| >= 1 && NextOf(f, h) >= 1
    ensures TimeLeft(f, h) >= 1
    ensures TimeAfter(r, h) == TimeLeft(f, h) - 1 || Moved(f, r, h, Loses)
    ensures Moved(f, r, h, Loses) ==> TimeAfter(r, h) == TimeLeft(f, h) && TimeLeft(f, h) % 4 == 1
    ensures Moved(f, r, h, Wins) ==> TimeAfter(r, h) == TimeLeft(f, h) - 1 && TimeLeft(f, h) % 4 == 1
  {
    hide ChainOf, Next, Ahead;
  }

  lemma HeadTime(s: State, h: int)
    requires Idle(s) && h in Fill(s).decodeQueHead
    ensures var f, r := Fill(s), Process(s);
      && TimeLeft(f, h) >= 1
      && (TimeAfter(r, h) == TimeLeft(f, h) - 1
          || (TimeAfter(r, h) == TimeLeft(f, h) && TimeLeft(f, h) % 4 == 1
              && exists q :: q in f.decodeQueHead && TimeAfter(r, q) == TimeLeft(f, q) - 1 && TimeLeft(f, q) % 4 == 1))
  {
    hide Heap, Depths, Legal, Replay, Timed, Process, Fill, Ahead, TimerOk, TimeLeft, TimeAfter, NextOf, Seen;
    var f, r := Fill(s), Process(s);
    FillFills(s);
    LinkedHeads(f);
    forall q | q in f.decodeQueHead ensures Seen(f, r, q) && |ChainOf(f, q)| >= 1 && NextOf(f, q) >= 1 {
      ProcessSees(s, q);
      NextIsPositive(f, q);
    }
    SeenTime(f, r, h);
    if TimeAfter(r, h) != TimeLeft(f, h) - 1 {
      var q := WinnerAhead(f, r, h);
      SeenTime(f, r, q);
    }
  }

  lemma WinnerAhead(f: State, r: State, h: int) returns (q: int)
    requires Seen(f, r, h) && Moved(f, r, h, Loses)
    ensures q in f.decodeQueHead && q in f.queueMap && Moved(f, r, q, Wins)
  {
    hide ChainOf, Next;
    AheadIn(f.decodeQueHead, h);
    q :| q in Ahead(f.decodeQueHead, h) && Contends(f, q, h) && q in f.queueMap && Moved(f, r, q, Wins);
  }

  lemma {:induction false} TimesAt(s: State, r: State, q: seq<int>, i: nat)
    requires i < |q|
    ensures TimesOf(s, q)[i] == TimeLeft(s, q[i]) && TimesAfter(r, q)[i] == TimeAfter(r, q[i])
  {
    hide TimeLeft, TimeAfter;
    if i > 0 { TimesAt(s, r, q[1..], i - 1); }
  }

  lemma TimesStep(s: State)
    requires Idle(s)
    requires forall h :: h in Process(s).decodeQueHead ==> 1 <= TimeLeft(Process(s), h) <= 66
    ensures Bounded(s)
    ensures var q := Fill(s).decodeQueHead; Load.Stepped(TimesOf(Fill(s), q), TimesAfter(Process(s), q))
  {
    hide Idle, Fill, Process, TimeLeft, TimesOf, TimesAfter, Linked;
    IdleIsBounded(s);
    var f, r := Fill(s), Process(s);
    FillFills(s);
    AtMostFour(f);
    var q := f.decodeQueHead;
    var t, u := TimesOf(f, q), TimesAfter(r, q);
    forall i | 0 <= i < |q|
      ensures t[i] == TimeLeft(f, q[i]) && u[i] == TimeAfter(r, q[i]) && 0 <= u[i] <= 66
    {
      TimesAt(f, r, q, i);
    }
    forall i | 0 <= i < |q| ensures Load.SteppedAt(t, u, i) {
      HeadTime(s, q[i]);
      if u[i] != t[i] - 1 {
        var w :| w in q && TimeAfter(r, w) == TimeLeft(f, w) - 1 && TimeLeft(f, w) % 4 == 1;
        var j :| 0 <= j < |q| && q[j] == w;
        assert u[j] == t[j] - 1 && t[j] % 4 == 1;
      }
    }
  }

  // ---- The list of heads over one clock edge ----

  /** The elements of q that are in keep, in order. */
  function Stay(q: seq<int>, keep: seq<int>): (r: seq<int>)
    ensures forall h :: h in r <==> h in q && h in keep
  {
    if q == [] then [] else (if q[0] in keep then [q[0]] else []) + Stay(q[1..], keep)
  }

  /** A visit leaves the list alone or takes out the head that it visits. */
  lemma VisitKeepsList(s: State, i: int)
    requires Bounded(s) && 0 <= i < |s.decodeQueHead|
    ensures var v := Visit(s, i);
      v.s.decodeQueHead == if v.erased then s.decodeQueHead[..i] + s.decodeQueHead[i + 1..] else s.decodeQueHead
  {
    hide Put, LinkInRange;
  }

  lemma StayStep(q: seq<int>, i: nat, keep: seq<int>)
    requires i <= |q|
    ensures i == |q| ==> q[..i] + Stay(q[i..], keep) == q
    ensures i < |q| ==> Stay(q[i..], keep) == (if q[i] in keep then [q[i]] else []) + Stay(q[i + 1..], keep)
  {
    if i < |q| { assert q[i..][1..] == q[i + 1..]; }
  }

  lemma StayKept(q: seq<int>, i: nat, r: seq<int>)
    requires i < |q| && r == q[..i + 1] + Stay(q[i + 1..], r)
    ensures r == q[..i] + Stay(q[i..], r)
  {
    hide Stay;
    StayStep(q, i, r);
    assert q[i] in q[..i + 1];
    assert q[..i + 1] == q[..i] + [q[i]];
    assert q[..i] + [q[i]] + Stay(q[i + 1..], r) == q[..i] + ([q[i]] + Stay(q[i + 1..], r));
  }

  lemma StayErased(q: seq<int>, i: nat, w: seq<int>, r: seq<int>)
    requires NoDup(q) && i < |q| && w == q[..i] + q[i + 1..] && r == w[..i] + Stay(w[i..], r)
    ensures r == q[..i] + Stay(q[i..], r)
  {
    hide Stay, NoDup;
    StayStep(q, i, r);
    SplitAt(q, i);
    assert w[..i] == q[..i] && w[i..] == q[i + 1..];
    assert q[i] !in r;
  }

  lemma {:induction false} HeadLoopStays(s: State, i: int, erased: bool)
    requires Bounded(s) && 0 <= i <= |s.decodeQueHead| && (erased ==> |s.decodeQueHead| < LINK_NUM)
    requires NoDup(s.decodeQueHead)
    ensures var q, r := s.decodeQueHead, HeadLoop(s, i, erased).s.decodeQueHead; r == q[..i] + Stay(q[i..], r)
    decreases |s.decodeQueHead| - i
  {
    hide Visit, LinkInRange, NoDup, Stay, Extends;
    var q := s.decodeQueHead;
    var r := HeadLoop(s, i, erased).s.decodeQueHead;
    if i < |q| {
      var v := Visit(s, i);
      VisitKeepsList(s, i);
      if v.erased {
        RemovalKeepsNoDup(q, i);
        HeadLoopStays(v.s, i, true);
        StayErased(q, i, v.s.decodeQueHead, r);
      } else {
        HeadLoopStays(v.s, i + 1, erased);
        StayKept(q, i, r);
      }
    } else {
      StayStep(q, i, r);
    }
  }

  lemma {:induction false} TimesOfBoth(s: State, a: seq<int>, b: seq<int>)
    ensures TimesOf(s, a + b) == TimesOf(s, a) + TimesOf(s, b)
  {
    hide TimeLeft;
    if a == [] {
      assert a + b == b;
    } else {
      assert (a + b)[1..] == a[1..] + b;
      TimesOfBoth(s, a[1..], b);
    }
  }

  lemma TimesOfOne(s: State, z: int)
    ensures TimesOf(s, [z]) == [TimeLeft(s, z)]
  {
    assert [z][1..] == [];
  }

  lemma {:induction false} StayTimes(r: State, q: seq<int>, keep: seq<int>)
    requires forall h :: h in q ==> (h in keep <==> h in r.decodeQueHead)
    requires forall h :: h in r.decodeQueHead ==> TimeLeft(r, h) >= 1
    ensures TimesOf(r, Stay(q, keep)) == Load.Positive(TimesAfter(r, q))
  {
    hide TimeLeft, TimesOf, Load.Positive;
    if q == [] {
      TimesOfBoth(r, [], []);
      Load.NonePositive();
      assert TimesOf(r, []) == [] by { NoTimes(r); }
    } else {
      var rest := Stay(q[1..], keep);
      StayTimes(r, q[1..], keep);
      Load.PositiveCons(TimeAfter(r, q[0]), TimesAfter(r, q[1..]));
      if q[0] in keep {
        TimesOfBoth(r, [q[0]], rest);
        TimesOfOne(r, q[0]);
      } else {
        assert [] + rest == rest;
      }
    }
  }

  lemma NoTimes(s: State)
    ensures TimesOf(s, []) == []
  {}

  /** The slices behind the heads, of packets that wait or are being written. */
  function Stock(s: State): int {
    PACKET_SLICES * |s.decodeQue| + PACKET_SLICES - s.writeSliceNum
  }

  lemma StayersOfProcess(s: State)
    requires Idle(s)
    ensures Bounded(s)
    ensures var q, v, r := Fill(s).decodeQueHead, HeadLoop(Fill(s), 0, false).s.decodeQueHead, Process(s).decodeQueHead;
      v == Stay(q, v) && forall h :: h in q ==> (h in v <==> h in r)
  {
    hide Idle, Fill, HeadLoop, Process, NextOf, Linked, Stay;
    IdleIsBounded(s);
    var f := Fill(s);
    FillFills(s);
    LinkedHeads(f);
    ProcessHeads(s);
    HeadLoopStays(f, 0, false);
    var q := f.decodeQueHead;
    assert q[0..] == q && q[..0] == [];
  }

  /** The times after a clock edge: those that are not up, and that of a packet that took the place of a head. */
  lemma TimesOfProcess(s: State)
    requires Idle(s) && Whole(s)
    requires forall h :: h in Process(s).decodeQueHead ==> TimeLeft(Process(s), h) >= 1
    ensures Bounded(s)
    ensures var f, r := Fill(s), Process(s);
      var t, p := TimesOf(f, f.decodeQueHead), Load.Positive(TimesAfter(r, f.decodeQueHead));
      && TimesOf(r, r.decodeQueHead) ==
           (if |p| < |t| && f.decodeQue != [] then p + [Load.NewTime(|p|)] else p)
      && ReadSide(s).decodeQue == (if |p| < |t| && f.decodeQue != [] then f.decodeQue[1..] else f.decodeQue)
  {
    hide Idle, Fill, HeadLoop, Process, NextOf, TimeLeft, Linked, Whole, Stay, TimesOf, TimesAfter, Load.Positive;
    hide NoDup;
    StayersOfProcess(s);
    var f, r, v := Fill(s), Process(s), HeadLoop(Fill(s), 0, false);
    ProcessHeads(s);
    ProcessFinishes(s);
    StayTimes(r, f.decodeQueHead, v.s.decodeQueHead);
    if v.erased && f.decodeQue != [] {
      var z := f.decodeQue[0];
      NewcomerTime(s, z);
      TimesOfBoth(r, v.s.decodeQueHead, [z]);
      TimesOfOne(r, z);
    }
  }

  lemma NewcomerTime(s: State, z: int)
    requires Idle(s) && Whole(s) && z in Fill(s).decodeQue
    ensures TimeLeft(Process(s), z) == NextOf(Process(s), z) + 60
  {
    hide Idle, Whole, Process, Fill, NextOf, ChainOf;
    FillLeavesTail(s);
    NewcomerChain(s, z);
    WaitingChain(s, z);
  }

  // ---- The invariant ----

  /** No slice has been dropped of what is inside, and the times of the heads fit to the stock behind them. */
  ghost predicate Light(s: State) {
    Idle(s) && Whole(s) && Audited(s, 0) && Load.Balanced(TimesOf(s, s.decodeQueHead), Stock(s))
  }

  lemma WriterInRange(s: State)
    requires Idle(s)
    ensures 1 <= s.writeSliceNum <= PACKET_SLICES && (s.encodeQue == [] ==> s.writeSliceNum == PACKET_SLICES)
  {
    hide Heap, Depths, Legal, Replay, Timed;
  }

  lemma HeadTimeInRange(s: State, h: int)
    requires Idle(s) && h in s.decodeQueHead
    ensures 1 <= TimeLeft(s, h) <= 66 && |ChainOf(s, h)| <= Load.Slices(TimeLeft(s, h))
  {
    hide Idle, NextOf, ChainOf;
    HeadsAreDue(s, h);
    HeadsAreNear(s, h);
  }

  /** Four heads in service leave the filling nothing to do. */
  lemma FullListStays(s: State)
    requires |s.decodeQueHead| == LINK_NUM || |s.decodeQue| <= LINK_NUM
    ensures Fill(s) == s
  {}

  lemma {:induction false} TimesAreKept(s: State, f: State, q: seq<int>)
    requires forall h :: h in q ==> TimeLeft(f, h) == TimeLeft(s, h)
    ensures TimesOf(f, q) == TimesOf(s, q)
  {
    hide TimeLeft;
    if q != [] { TimesAreKept(s, f, q[1..]); }
  }

  lemma FillerTime(s: State, k: nat)
    requires Idle(s) && Whole(s) && |s.decodeQueHead| <= k < |Fill(s).decodeQueHead|
    ensures TimeLeft(Fill(s), Fill(s).decodeQueHead[k]) == k - |s.decodeQueHead| + 64
  {
    hide Linked, Timed, Settled, Fill, NextOf, FilledTimers, Whole;
    IdleIsBounded(s);
    FillFills(s);
    FillNexts(s);
    var z := Fill(s).decodeQueHead[k];
    assert z == s.decodeQue[k - |s.decodeQueHead|];
    WaitingChain(s, z);
  }

  lemma FillTimes(s: State)
    requires Idle(s) && Whole(s) && |s.decodeQueHead| < LINK_NUM && |s.decodeQue| > LINK_NUM
    ensures var f := Fill(s);
      TimesOf(f, f.decodeQueHead) == TimesOf(s, s.decodeQueHead) + Load.Fillers(|s.decodeQueHead|)
  {
    hide Idle, Fill, TimeLeft, TimesOf, NextOf, Whole;
    var f, m := Fill(s), |s.decodeQueHead|;
    FillNexts(s);
    var a, b := f.decodeQueHead[..m], f.decodeQueHead[m..];
    assert f.decodeQueHead == a + b;
    TimesOfBoth(f, a, b);
    forall h | h in s.decodeQueHead ensures TimeLeft(f, h) == TimeLeft(s, h) { FillKeepsTime(s, h); }
    TimesAreKept(s, f, a);
    forall i | 0 <= i < |b| ensures TimesOf(f, b)[i] == i + 64 {
      TimesAt(f, f, b, i);
      FillerTime(s, m + i);
    }
    assert TimesOf(f, b) == Load.Fillers(m);
  }

  lemma FillKeepsLoad(s: State)
    requires Light(s)
    ensures Bounded(s)
    ensures var f := Fill(s);
      && Load.Balanced(TimesOf(f, f.decodeQueHead), Stock(f)) && f.writeSliceNum == s.writeSliceNum
      && (|f.decodeQueHead| < 4 ==> |f.decodeQue| <= LINK_NUM)
  {
    hide Idle, Fill, TimesOf, Whole, Load.Balanced;
    IdleIsBounded(s);
    AtMostFourHeads(s);
    if |s.decodeQueHead| == LINK_NUM || |s.decodeQue| <= LINK_NUM {
      FullListStays(s);
    } else {
      WriterInRange(s);
      FillTimes(s);
      FillLeavesWaiting(s);
      FillFour(s);
      assert Stock(s) <= 80 by { FewHeadsSmallStock(TimesOf(s, s.decodeQueHead), Stock(s)); }
      Load.FillKeepsBalanced(TimesOf(s, s.decodeQueHead));
    }
  }

  lemma AtMostFourHeads(s: State)
    requires Idle(s)
    ensures |s.decodeQueHead| <= LINK_NUM
  {}

  lemma FewHeadsSmallStock(t: seq<int>, n: int)
    requires Load.Balanced(t, n) && |t| < 4
    ensures n <= 80
  {}

  lemma FillFour(s: State)
    requires Idle(s) && |s.decodeQue| > LINK_NUM
    ensures |Fill(s).decodeQueHead| == LINK_NUM && Fill(s).writeSliceNum == s.writeSliceNum
  {
    hide Linked, Timed, Settled, Fill, Filled;
    IdleIsBounded(s);
    FillFills(s);
    FillIsLoop(s);
    FillLoopKeepsWriter(s, 1);
  }

  lemma FillIsLoop(s: State)
    requires Bounded(s) && |s.decodeQue| > LINK_NUM
    ensures Fill(s) == FillLoop(s, 1)
  {}

  // ---- The slices that are stored ----

  lemma {:induction false} TotalByTimes(s: State, q: seq<int>)
    requires Idle(s) && forall h :: h in q ==> h in s.decodeQueHead
    ensures Total(Replay(s.history).chain, q) <= Load.SlicesOf(TimesOf(s, q))
  {
    hide Idle, TimeLeft, Replay, Load.Slices;
    if q != [] {
      var a, z := q[..|q| - 1], q[|q| - 1];
      TotalByTimes(s, a);
      HeadTimeInRange(s, z);
      assert q == a + [z];
      TimesOfBoth(s, a, [z]);
      TimesOfOne(s, z);
      SlicesOfSnoc(TimesOf(s, a), TimeLeft(s, z));
    }
  }

  lemma {:induction false} SlicesOfSnoc(t: seq<int>, x: int)
    ensures Load.SlicesOf(t + [x]) == Load.SlicesOf(t) + Load.Slices(x)
  {
    hide Load.Slices;
    if t == [] {
      assert t + [x] == [x] && [x][1..] == [];
    } else {
      assert (t + [x])[1..] == t[1..] + [x];
      SlicesOfSnoc(t[1..], x);
    }
  }

  /** At most 107 slices are stored. */
  lemma LightStock(s: State)
    requires Light(s)
    ensures Occupied(s.encodeVec) == Tally(s.history, AnyAllocation) - Tally(s.history, AnyRelease) <= 107
  {
    hide Heap, Depths, Legal, Timed, Tally, Total, Occupied, TimeLeft, TimesOf, Load.Balanced, Load.SlicesOf, Sum;
    hide ConflictSum, PacketLedger;
    StockByPackets(s);
    OccupiedByEvents(s);
    TotalByTimes(s, s.decodeQueHead);
    Load.BalancedStock(TimesOf(s, s.decodeQueHead), Stock(s));
  }

  lemma LightHasRoom(s: State)
    requires Light(s) && s.sliceNum >= 108
    ensures !NoRoom(s)
  {
    hide Heap, Legal, Replay, Timed, Tally, Occupied, CountFree, ReadsNext, Sum, TimesOf, Load.Balanced, Whole;
    LightStock(s);
    OccupiedAtLeast(s.encodeVec, 0);
  }

  // ---- Clock edges and messages keep it ----

  lemma ClockKeepsLoad(s: State)
    requires Light(s) && Idle(Process(s))
    requires Wrote(s, Process(s), ReadSide(s).decodeQue)
    ensures Load.Balanced(TimesOf(Process(s), Process(s).decodeQueHead), Stock(Process(s)))
  {
    hide Idle, Whole, Audited, Fill, Process, ReadSide, TimeLeft, TimesOf, TimesAfter, Load.Balanced, Load.Positive;
    hide Load.Stepped;
    WriterInRange(s);
    FillKeepsLoad(s);
    var f, r := Fill(s), Process(s);
    forall h | h in r.decodeQueHead ensures 1 <= TimeLeft(r, h) <= 66 { HeadTimeInRange(r, h); }
    TimesStep(s);
    TimesOfProcess(s);
    var t, u := TimesOf(f, f.decodeQueHead), TimesAfter(r, f.decodeQueHead);
    var w := if s.encodeQue == [] then 0 else 1;
    Load.CycleKeepsBalanced(t, u, Stock(f), w);
    assert Stock(r) == Load.Behind(t, Load.Positive(u), Stock(f)) + w;
  }

  lemma ClockKeepsLight(s: State)
    requires Light(s) && s.sliceNum >= 108
    ensures Safe(s, Clock) && Light(Process(s)) && Process(s).sliceNum == s.sliceNum
    ensures Tally(Process(s).history, AnySkip) == Tally(s.history, AnySkip)
  {
    hide Linked, Timed, Settled, Whole, BankLedger, PacketLedger, Process, NoRoom, ReadSide, TimesOf, Load.Balanced;
    hide Tally;
    IdleIsBounded(s);
    LightHasRoom(s);
    RoomyEdge(s);
    ProcessKeepsBooks(s, 0);
    ClockKeepsLoad(s);
    SliceIsDroppedIff(s);
  }

  lemma ReceiveKeepsLight(s: State, id: int)
    requires Light(s) && !Inside(s, id)
    ensures var r := RcvFrom(s, 0x1000, id); Light(r) && Tally(r.history, AnySkip) == Tally(s.history, AnySkip)
  {
    hide Linked, Timed, Settled, Whole, BankLedger, PacketLedger, TimesOf, Load.Balanced, Tally, TimeLeft;
    ReceiveKeepsWhole(s, id);
    ReceiveKeepsAudited(s, 0, id);
    TallySnoc(s.history, Received(id));
    var r := RcvFrom(s, 0x1000, id);
    forall h | h in s.decodeQueHead ensures TimeLeft(r, h) == TimeLeft(s, h) { ReceiveKeepsTime(s, id, h); }
    TimesAreKept(s, r, s.decodeQueHead);
  }

  // ---- Whole runs ----

  /** No packet of the run arrives while one with its id is inside. */
  ghost predicate NewIds(s: State, acts: seq<Action>)
    requires Bounded(s)
    decreases acts
  {
    acts != [] ==>
      && (match acts[0] case Receive(id) => !Inside(s, id) case Clock => true)
      && NewIds(Do(s, acts[0]), acts[1..])
  }

  lemma {:induction false} RunKeepsLight(s: State, acts: seq<Action>)
    requires Light(s) && s.sliceNum >= 108 && NewIds(s, acts)
    ensures Guarded(s, acts) && Light(Run(s, acts))
    ensures Tally(Run(s, acts).history, AnySkip) == Tally(s.history, AnySkip)
    decreases acts
  {
    hide Idle, Whole, Audited, Process, TimesOf, Load.Balanced, Tally, LosesNext;
    IdleIsBounded(s);
    if acts != [] {
      match acts[0] {
        case Receive(id) => ReceiveKeepsLight(s, id);
        case Clock => ClockKeepsLight(s);
      }
      RunKeepsLight(Do(s, acts[0]), acts[1..]);
    }
  }

  lemma InitIsLight(bankNum: int, sliceNum: int)
    requires bankNum >= 1 && sliceNum >= 1
    ensures Light(Init(bankNum, sliceNum))
  {
    hide Idle, Audited;
    InitIsIdle(bankNum, sliceNum);
    InitIsAudited(bankNum, sliceNum, 0);
    assert Replay([]) == EMPTY;
  }

  lemma {:induction false} GuardedIsNew(s: State, acts: seq<Action>)
    requires Bounded(s) && Guarded(s, acts)
    ensures NewIds(s, acts)
    decreases acts
  {
    hide Bounded, Process, LosesNext, RcvFrom;
    if acts != [] {
      BoundedAfter(s, acts[0]);
      GuardedIsNew(Do(s, acts[0]), acts[1..]);
    }
  }

  /** Any number of banks of at least 108 slots, such as the 2 banks of 128 that the code builds, whatever arrives: a
      run is a history of the simple buffer exactly when no packet arrives while one with its id is inside; then no
      slice is dropped and at most 107 are stored. */
  lemma NothingIsDropped(bankNum: int, sliceNum: int, acts: seq<Action>)
    requires bankNum >= 1 && sliceNum >= 108
    ensures var i := Init(bankNum, sliceNum);
      var s := Run(i, acts);
      && (Legal(s.history) <==> NewIds(i, acts)) && (Guarded(i, acts) <==> NewIds(i, acts))
      && (NewIds(i, acts) ==> Idle(s) && Whole(s) && Tally(s.history, AnySkip) == 0 && Occupied(s.encodeVec) <= 107)
  {
    hide Idle, Whole, Legal, Guarded, Run, Tally, Audited, NewIds, Init, TimesOf, Load.Balanced, Occupied;
    var i := Init(bankNum, sliceNum);
    InitIsLight(bankNum, sliceNum);
    RunIsSimpleBuffer(bankNum, sliceNum, acts);
    InitIsNew(bankNum, sliceNum);
    if NewIds(i, acts) {
      RunKeepsLight(i, acts);
      LightStock(Run(i, acts));
    } else if Guarded(i, acts) {
      GuardedIsNew(i, acts);
    }
  }

  /** What the buffer of the code cannot stand: an id that arrives again while its packet is inside. */
  lemma RepeatedIdRun()
    ensures !Legal(Run(Init(2, 128), [Receive(1), Receive(1)]).history)
  {
    hide Legal, Run, Guarded, Occupied, Idle, Whole;
    var acts := [Receive(1), Receive(1)];
    NothingIsDropped(2, 128, acts);
    assert acts[1..] == [Receive(1)];
    assert !NewIds(Do(Init(2, 128), Receive(1)), [Receive(1)]);
  }

  lemma InitIsNew(bankNum: int, sliceNum: int)
    requires bankNum >= 1 && sliceNum >= 1
    ensures var i := Init(bankNum, sliceNum); Bounded(i) && i.sliceNum == sliceNum && Tally(i.history, AnySkip) == 0
  {}

  lemma {:induction false} DistinctAreNew(s: State, acts: seq<Action>)
    requires Light(s) && s.sliceNum >= 108 && NoDup(IdsReceived(s.history) + Arrivals(acts))
    ensures NewIds(s, acts)
    decreases acts
  {
    hide Idle, Linked, Process, Whole, Audited, IdsReceived, NoDup, TimesOf, Load.Balanced, Tally, LosesNext, Bounded;
    IdleIsBounded(s);
    if acts != [] {
      var r, rest := Do(s, acts[0]), acts[1..];
      InsideWasReceived(s);
      match acts[0] {
        case Receive(id) =>
          assert Arrivals(acts) == [id] + Arrivals(rest);
          ReceivedIsNew(IdsReceived(s.history), Arrivals(acts), id);
          ReceiveKeepsLight(s, id);
          ReceivedSnoc(s.history, id);
          assert IdsReceived(r.history) + Arrivals(rest) == IdsReceived(s.history) + Arrivals(acts);
        case Clock =>
          assert Arrivals(acts) == Arrivals(rest);
          ClockKeepsLight(s);
          ClockReceivesNothing(s);
      }
      DistinctAreNew(r, rest);
    }
  }

  /** On arrivals alone: if the ids of all packets that arrive differ, and a bank has 108 slots or as many as all these
      packets have slices, the run is a history of the simple buffer and no slice is ever dropped. */
  lemma DistinctArrivalsLoseNothing(bankNum: int, sliceNum: int, acts: seq<Action>)
    requires bankNum >= 1 && sliceNum >= 1 && NoDup(Arrivals(acts))
    requires sliceNum >= 108 || sliceNum >= PACKET_SLICES * |Arrivals(acts)|
    ensures var i := Init(bankNum, sliceNum);
      Guarded(i, acts) && Legal(Run(i, acts).history) && Tally(Run(i, acts).history, AnySkip) == 0
  {
    hide Idle, Whole, Legal, Guarded, Run, Tally, Audited, NewIds, TimesOf, Load.Balanced, Occupied, NoDup;
    if sliceNum >= 108 {
      var i := Init(bankNum, sliceNum);
      InitIsLight(bankNum, sliceNum);
      assert IdsReceived(i.history) + Arrivals(acts) == Arrivals(acts);
      DistinctAreNew(i, acts);
      NothingIsDropped(bankNum, sliceNum, acts);
    } else {
      FewArrivalsLoseNothing(bankNum, sliceNum, acts);
    }
  }
}
