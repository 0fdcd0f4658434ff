/** Which waiting packets are served, and when. */
module Service {
  import opened Types
  import opened Spec
  import opened Runs
  import opened SimpleBuffer
  import opened HeapShape
  import opened Refinement
  import opened Scheduler
  import opened Cycle
  import opened Guard
  import opened Lists
  import opened Phases
  import opened ReadSideLaws
  import opened Waiting

  /** Packet z is at position p of decode_que. */
  ghost predicate WaitsAs(s: State, z: int, p: int) {
    0 <= p < |s.decodeQue| && s.decodeQue[p] == z
  }

  // ---- One clock edge ----

  lemma WriteAppends(s: State)
    requires Bounded(s)
    ensures ReadSide(s).decodeQue <= Process(s).decodeQue
  {
    hide ReadSide, LinkInRange, Target, Put;
  }

  /** How many waiting packets the coming clock edge puts in service. */
  function Served(s: State): int
    requires Bounded(s)
  {
    var v := HeadLoop(Fill(s), 0, false);
    |Fill(s).decodeQueHead| - |s.decodeQueHead| + if v.erased && Fill(s).decodeQue != [] then 1 else 0
  }

  /** A packet that the filling puts in service stays there. */
  lemma FillServes(s: State, z: int, p: int)
    requires Idle(s) && WaitsAs(s, z, p) && p < |Fill(s).decodeQueHead| - |s.decodeQueHead|
    ensures z in Process(s).decodeQueHead
  {
    hide Idle, HeadLoop, Fill, Process, NextOf;
    FillNexts(s);
    assert Fill(s).decodeQueHead[|s.decodeQueHead| + p] == z;
    NewcomerStays(s, z);
  }

  lemma FillMovesUp(s: State, z: int, p: int)
    requires Idle(s) && WaitsAs(s, z, p)
    ensures var n := |Fill(s).decodeQueHead| - |s.decodeQueHead|; n >= 0 && (p >= n ==> WaitsAs(Fill(s), z, p - n))
  {
    hide Linked, Timed, Settled, Fill, FilledTimers;
    FillFills(s);
  }

  lemma RefillMovesUp(s: State, z: int, q: int)
    requires Idle(s) && WaitsAs(Fill(s), z, q)
    ensures var k := if HeadLoop(Fill(s), 0, false).erased then 1 else 0;
      if q < k then z in Process(s).decodeQueHead else WaitsAs(Process(s), z, q - k)
  {
    hide Idle, HeadLoop, Fill, Process, NextOf, Bounded;
    IdleIsBounded(s);
    ProcessHeads(s);
    ProcessFinishes(s);
    WriteAppends(s);
  }

  /** decode_que moves up by as many packets as are put in service. */
  lemma QueueMovesUp(s: State, z: int, p: int)
    requires Idle(s) && WaitsAs(s, z, p)
    ensures Served(s) >= 0
    ensures if p < Served(s) then z in Process(s).decodeQueHead else WaitsAs(Process(s), z, p - Served(s))
  {
    hide Idle, HeadLoop, Fill, Process;
    IdleIsBounded(s);
    var n := |Fill(s).decodeQueHead| - |s.decodeQueHead|;
    FillMovesUp(s, z, p);
    if p < n { FillServes(s, z, p); } else { RefillMovesUp(s, z, p - n); }
  }

  lemma NewcomerStays(s: State, z: int)
    requires Idle(s) && z in Fill(s).decodeQueHead && NextOf(Fill(s), z) > 1
    ensures z in Process(s).decodeQueHead
  {
    hide Heap, Depths, Legal, Replay, Timed, Fill, Process, Ahead;
    ProcessSees(s, z);
  }

  /** Some packet is in service, or the coming clock edge puts some in service. */
  predicate Awake(s: State) {
    s.decodeQueHead != [] || |s.decodeQue| > LINK_NUM
  }

  /** If a head leaves, the next waiting packet is put in service. */
  lemma LeavingServes(s: State, h: int)
    requires Idle(s) && h in Fill(s).decodeQueHead && h !in Process(s).decodeQueHead && Fill(s).decodeQue != []
    ensures HeadLoop(Fill(s), 0, false).erased && Process(s).decodeQueHead != []
  {
    hide Idle, Fill, HeadLoop, Process, NextOf, Linked;
    IdleIsBounded(s);
    var f, v := Fill(s), HeadLoop(Fill(s), 0, false);
    FillFills(s);
    LinkedHeads(f);
    ProcessHeads(s);
    if !v.erased { LossIsShorter(f.decodeQueHead, v.s.decodeQueHead, h); }
  }

  // ---- Waiting packets are served ----

  /** A packet in service needs at most 114 clock edges. */
  lemma BudgetOfHead(s: State, h: int) returns (m: int)
    requires Idle(s) && h in s.decodeQueHead
    ensures LosesAtMost(s, h, m) && 1 <= Budget(s, h, m) <= 114
  {
    hide Idle, Linked, Rivals, NextOf, ChainOf;
    IdleIsBounded(s);
    LinkedHeads(s);
    HeadsAreDue(s, h);
    HeadsAreNear(s, h);
    AtMostFour(s);
    var p :| 0 <= p < |s.decodeQueHead| && s.decodeQueHead[p] == h;
    PositionBoundsLosses(s, p);
    m := p;
  }

  /** After the first k actions, with at most n clock edges among them, packet z is in service. */
  ghost predicate Enters(s: State, acts: seq<Action>, z: int, n: int, k: int)
    requires Bounded(s)
  {
    0 <= k <= |acts| && Clocks(acts[..k]) <= n && z in Run(s, acts[..k]).decodeQueHead
  }

  lemma EntersLater(s: State, acts: seq<Action>, z: int, n: int, k: int, bound: int)
    requires Bounded(s) && acts != [] && Enters(Do(s, acts[0]), acts[1..], z, n, k)
    requires bound >= n + if acts[0].Clock? then 1 else 0
    ensures Enters(s, acts, z, bound, k + 1)
  {
    hide Run, Clocks, Bounded, Process, RcvFrom;
    PrefixStep(s, acts, k + 1);
  }

  lemma ReceiveKeepsPlace(s: State, id: int)
    requires Idle(s) && Safe(s, Receive(id))
    ensures var r := Do(s, Receive(id));
      Idle(r) && r.decodeQue == s.decodeQue && r.decodeQueHead == s.decodeQueHead
  {
    hide Linked, Timed, Settled;
    ReceiveKeepsIdle(s, id);
  }

  /** Head h leaves within n clock edges, and z moves up whenever a head leaves. */
  lemma {:induction false} ServedOnBudget(s: State, acts: seq<Action>, z: int, p: int, h: int, m: int, n: int,
      bound: int)
    requires Idle(s) && Guarded(s, acts) && WaitsAs(s, z, p)
    requires LosesAtMost(s, h, m) && Budget(s, h, m) <= n && n + 114 * p <= bound <= Clocks(acts)
    ensures exists k :: Enters(s, acts, z, bound, k)
    decreases acts
  {
    hide Idle, ChainOf, LosesAtMost, Budget, Run, Process, Fill, Linked, Extends, Bounded, Enters, WaitsAs, Served;
    IdleIsBounded(s);
    BudgetIsKept(s, h, m);
    PlaceIsNatural(s, z, p);
    var a, rest := acts[0], acts[1..];
    var r := Do(s, a);
    match a {
      case Receive(id) =>
        ReceiveKeepsPlace(s, id);
        PlaceIsKept(s, r, z, p);
        ServedOnBudget(r, rest, z, p, h, m, n, bound);
        var k :| Enters(r, rest, z, bound, k);
        EntersLater(s, acts, z, bound, k, bound);
      case Clock =>
        ClockKeepsIdle(s);
        QueueMovesUp(s, z, p);
        if p < Served(s) {
          EntersNow(s, acts, z, bound);
        } else {
          var q := p - Served(s);
          var g, w, left := h, 0, n - 1;
          if h in r.decodeQueHead {
            w := BudgetShrinks(s, h, m);
          } else {
            SomeoneFollows(s, z, p, h);
            g, left := r.decodeQueHead[0], 114;
            w := BudgetOfHead(r, g);
          }
          ServedOnBudget(r, rest, z, q, g, w, left, bound - 1);
          var k :| Enters(r, rest, z, bound - 1, k);
          EntersLater(s, acts, z, bound - 1, k, bound);
        }
    }
  }

  lemma PlaceIsKept(s: State, r: State, z: int, p: int)
    requires WaitsAs(s, z, p) && r.decodeQue == s.decodeQue
    ensures WaitsAs(r, z, p)
  {}

  lemma PlaceIsNatural(s: State, z: int, p: int)
    requires WaitsAs(s, z, p)
    ensures p >= 0
  {}

  lemma EntersNow(s: State, acts: seq<Action>, z: int, n: int)
    requires Bounded(s) && acts != [] && n >= 1 && z in Do(s, acts[0]).decodeQueHead
    ensures Enters(s, acts, z, n, 1)
  {
    hide Bounded, Process, RcvFrom;
    PrefixStep(s, acts, 1);
  }

  lemma SomeoneFollows(s: State, z: int, p: int, h: int)
    requires Idle(s) && WaitsAs(s, z, p) && p >= Served(s)
    requires h in Fill(s).decodeQueHead && h !in Process(s).decodeQueHead
    ensures Served(s) >= 1 && Process(s).decodeQueHead != []
  {
    hide Linked, Timed, Settled, HeadLoop, Fill, Process, FilledTimers;
    IdleIsBounded(s);
    FillFills(s);
    LeavingServes(s, h);
  }

  /** The first clock edge with more than 4 packets waiting and none in service puts 4 in service. */
  lemma {:induction false} ServedAfterFill(s: State, acts: seq<Action>, z: int, p: int, bound: int)
    requires Idle(s) && Guarded(s, acts) && WaitsAs(s, z, p) && s.decodeQueHead == [] && |s.decodeQue| > LINK_NUM
    requires 114 * (p + 1) <= bound <= Clocks(acts)
    ensures exists k :: Enters(s, acts, z, bound, k)
    decreases acts
  {
    hide Idle, ChainOf, LosesAtMost, Budget, Run, Process, Fill, Linked, Extends, Bounded, Enters, WaitsAs, Served;
    IdleIsBounded(s);
    PlaceIsNatural(s, z, p);
    var a, rest := acts[0], acts[1..];
    var r := Do(s, a);
    match a {
      case Receive(id) =>
        ReceiveKeepsPlace(s, id);
        PlaceIsKept(s, r, z, p);
        ServedAfterFill(r, rest, z, p, bound);
        var k :| Enters(r, rest, z, bound, k);
        EntersLater(s, acts, z, bound, k, bound);
      case Clock =>
        ClockKeepsIdle(s);
        QueueMovesUp(s, z, p);
        FillServesFour(s);
        if p < Served(s) {
          EntersNow(s, acts, z, bound);
        } else {
          var h := r.decodeQueHead[0];
          var m := BudgetOfHead(r, h);
          ServedOnBudget(r, rest, z, p - Served(s), h, m, 114, bound - 1);
          var k :| Enters(r, rest, z, bound - 1, k);
          EntersLater(s, acts, z, bound - 1, k, bound);
        }
    }
  }

  lemma FillServesFour(s: State)
    requires Idle(s) && s.decodeQueHead == [] && |s.decodeQue| > LINK_NUM
    ensures Served(s) >= LINK_NUM && Process(s).decodeQueHead != []
  {
    hide Linked, Timed, Settled, HeadLoop, Fill, Process, FilledTimers, NextOf;
    IdleIsBounded(s);
    FillFills(s);
    FillNexts(s);
    NewcomerStays(s, Fill(s).decodeQueHead[0]);
  }

  /** For any arrivals: once a packet is in service or more than 4 wait, the packet at position p of decode_que is in
      service after at most 114 (p + 1) clock edges. */
  lemma WaitingIsServed(s: State, acts: seq<Action>, p: nat, n: nat)
    requires Idle(s) && Guarded(s, acts) && Awake(s) && p < |s.decodeQue| && 114 * (p + 1) == n <= Clocks(acts)
    ensures exists k :: Enters(s, acts, s.decodeQue[p], n, k)
  {
    hide Idle, Run, Process, Fill, Linked, Extends, Bounded, Enters, Guarded, LosesAtMost, Budget;
    IdleIsBounded(s);
    var z := s.decodeQue[p];
    if s.decodeQueHead != [] {
      var h := s.decodeQueHead[0];
      var m := BudgetOfHead(s, h);
      ServedOnBudget(s, acts, z, p, h, m, 114, n);
    } else {
      ServedAfterFill(s, acts, z, p, n);
    }
  }

  /** ... and is out of the buffer, read to its end, 114 clock edges later. */
  lemma WaitingComesOut(s: State, acts: seq<Action>, p: nat) returns (j: nat, k: nat)
    requires Idle(s) && Guarded(s, acts) && Awake(s) && p < |s.decodeQue| && Clocks(acts) >= 114 * (p + 2)
    ensures j <= k <= |acts| && Clocks(acts[..k]) <= 114 * (p + 2)
    ensures Bounded(s) && s.decodeQue[p] in Run(s, acts[..j]).decodeQueHead
    ensures s.decodeQue[p] !in Run(s, acts[..k]).decodeQueHead
  {
    hide Idle, Run, Process, Fill, Linked, Extends, Bounded, Guarded, Clocks;
    IdleIsBounded(s);
    var z := s.decodeQue[p];
    WaitingIsServed(s, acts, p, 114 * (p + 1));
    j :| Enters(s, acts, z, 114 * (p + 1), j);
    var early, late := acts[..j], acts[j..];
    assert acts == early + late;
    GuardedOfBoth(s, early, late);
    RunKeepsIdle(s, early);
    RunOfBoth(s, early, late);
    var m := Run(s, early);
    PacketLeavesWithin114(m, late, z);
    var i :| Leaves(m, late, z, 114, i);
    k := j + i;
    assert acts[..k] == early + late[..i];
    RunOfBoth(s, early, late[..i]);
  }

  /** With nothing in service, at most 4 packets waiting and nothing to write, a clock edge changes nothing: without
      further arrivals these packets wait for ever. */
  lemma {:induction false} AsleepForEver(s: State, n: nat)
    requires Idle(s) && !Awake(s) && s.encodeQue == []
    ensures Bounded(s) && Run(s, Ticks(n)) == s
    decreases n
  {
    hide Linked, Timed, Settled;
    IdleIsBounded(s);
    if n > 0 {
      EmptyServiceGoesOn(s);
      assert seq(s.bankNum, _ => 0) == s.readBankIdVec;
      TickOnce(s, n - 1);
      AsleepForEver(s, n - 1);
    } else {
      NoTicks(s);
    }
  }

  lemma {:induction false} NothingToLose(s: State, n: nat)
    requires Idle(s) && s.encodeQue == []
    ensures Bounded(s) && Guarded(s, Ticks(n))
    decreases n
  {
    hide Idle, Process, ReadSide, NoRoom, Bounded;
    IdleIsBounded(s);
    if n > 0 {
      ClockKeepsIdle(s);
      ReadSideIsQuiet(s);
      WritesNothing(s);
      NothingToLose(Process(s), n - 1);
      assert Ticks(n)[0] == Clock && Ticks(n)[1..] == Ticks(n - 1);
    }
  }

  lemma WritesNothing(s: State)
    requires Bounded(s) && ReadSide(s).encodeQue == []
    ensures Process(s).encodeQue == []
  {
    hide ReadSide, LinkInRange;
  }

  lemma {:induction false} TicksPrefix(n: nat, k: nat)
    requires k <= |Ticks(n)|
    ensures |Ticks(n)| == n && Clocks(Ticks(n)) == n && k <= n && Ticks(n)[..k] == Ticks(k)
  {
    if k > 0 {
      TicksPrefix(n - 1, k - 1);
    } else if n > 0 {
      TicksPrefix(n - 1, 0);
    }
  }

  /** When arrivals stop: with nothing left to write, the packet at position p of decode_que is put in service exactly
      when some packet is in service or more than 4 wait; then after at most 114 (p + 1) clock edges, otherwise
      never. */
  lemma WhenNothingIsWritten(s: State, p: nat, n: nat, later: nat)
    requires Idle(s) && s.encodeQue == [] && p < |s.decodeQue| && n == 114 * (p + 1) <= later
    ensures Bounded(s)
    ensures Awake(s) <==> exists k :: Enters(s, Ticks(later), s.decodeQue[p], n, k)
    ensures Awake(s) <==> exists k :: Enters(s, Ticks(later), s.decodeQue[p], later, k)
  {
    hide Idle, Run, Process, Linked, Extends, Bounded, Guarded, Clocks, Ticks;
    IdleIsBounded(s);
    var z := s.decodeQue[p];
    TicksPrefix(later, 0);
    if Awake(s) {
      NothingToLose(s, later);
      WaitingIsServed(s, Ticks(later), p, n);
      var k :| Enters(s, Ticks(later), z, n, k);
      assert Enters(s, Ticks(later), z, later, k);
    } else {
      forall k, m | 0 <= k <= |Ticks(later)| ensures !Enters(s, Ticks(later), z, m, k) {
        TicksPrefix(later, k);
        AsleepForEver(s, k);
      }
    }
  }

  // ---- Arrivals stop while packets are still being written ----

  /** How many slices are still to be written of the packets in encode_que. */
  function ToWrite(s: State): int {
    if s.encodeQue == [] then 0 else PACKET_SLICES * (|s.encodeQue| - 1) + s.writeSliceNum
  }

  /** What a clock edge makes of the two lists of packets outside service. */
  lemma ListsMoveOn(s: State)
    requires Idle(s)
    ensures var x, r := ReadSide(s), Process(s);
      if s.encodeQue == [] then r.encodeQue == [] && r.decodeQue == x.decodeQue
      else if s.writeSliceNum == 1 then
        r.encodeQue == s.encodeQue[1..] && r.decodeQue == x.decodeQue + [s.encodeQue[0]]
        && r.writeSliceNum == PACKET_SLICES
      else r.encodeQue == s.encodeQue && r.decodeQue == x.decodeQue && r.writeSliceNum == s.writeSliceNum - 1
  {
    hide Heap, Depths, Legal, Replay, Timed, Settled, ReadSide, Target, Put, LinkInRange, Pointers, Short;
    ReadSideIsQuiet(s);
    assert ReadSide(s).writeCnt == 1;
    assert ReadSide(s).(writeCnt := 1) == ReadSide(s);
  }

  lemma WritingShrinks(s: State)
    requires Idle(s)
    ensures ToWrite(Process(s)) == if s.encodeQue == [] then 0 else ToWrite(s) - 1
    ensures s.encodeQue != [] ==> ToWrite(s) >= 1
    ensures ToWrite(s) <= PACKET_SLICES * |s.encodeQue|
  {
    hide Heap, Depths, Legal, Replay, Timed, Settled, Process;
    ListsMoveOn(s);
  }

  /** Packet z waits or is being written. */
  predicate Queued(s: State, z: int) {
    z in s.decodeQue || z in s.encodeQue
  }

  lemma EdgeKeepsQueued(s: State, z: int)
    requires Idle(s) && Queued(s, z)
    ensures z in Process(s).decodeQueHead || Queued(Process(s), z)
  {
    hide Idle, Process, ReadSide;
    ListsMoveOn(s);
    if z in s.decodeQue {
      var p :| 0 <= p < |s.decodeQue| && s.decodeQue[p] == z;
      QueueMovesUp(s, z, p);
    } else if s.writeSliceNum == 1 {
      assert s.encodeQue == [s.encodeQue[0]] + s.encodeQue[1..];
    }
  }

  lemma EdgeQueuesNoNew(s: State, z: int)
    requires Idle(s) && !Queued(s, z)
    ensures !Queued(Process(s), z)
  {
    hide Idle, Process, ReadSide;
    ListsMoveOn(s);
    ReadSideShrinksQueue(s);
  }

  /** The state after a clock edge of a guarded run of clock edges, and after all of them. */
  lemma FirstTick(s: State, m: nat)
    requires Idle(s) && m > 0 && Guarded(s, Ticks(m))
    ensures Bounded(s) && Idle(Process(s)) && Guarded(Process(s), Ticks(m - 1))
    ensures Run(s, Ticks(m)) == Run(Process(s), Ticks(m - 1))
  {
    hide Idle, Process, LosesNext, Run, Bounded;
    IdleIsBounded(s);
    assert Ticks(m)[0] == Clock && Ticks(m)[1..] == Ticks(m - 1);
    ClockKeepsIdle(s);
    TickOnce(s, m - 1);
  }

  /** After the clock edges that the writer needs nothing is left to write. */
  lemma {:induction false} WritingEnds(s: State, m: nat)
    requires Idle(s) && Guarded(s, Ticks(m)) && m == ToWrite(s)
    ensures m <= PACKET_SLICES * |s.encodeQue|
    ensures Bounded(s) && Idle(Run(s, Ticks(m))) && Run(s, Ticks(m)).encodeQue == []
    decreases m
  {
    hide Idle, Process, Guarded, Run, Ticks;
    IdleIsBounded(s);
    WritingShrinks(s);
    if m > 0 {
      FirstTick(s, m);
      WritingEnds(Process(s), m - 1);
    } else {
      NoTicks(s);
    }
  }

  /** The state after n clock edges. */
  function After(s: State, n: nat): (r: State)
    requires Bounded(s)
    ensures Bounded(r)
  {
    Run(s, Ticks(n))
  }

  /** After the first k of m clock edges packet z is in service. */
  ghost predicate ServedAt(s: State, z: int, m: nat, k: nat)
    requires Bounded(s)
  {
    k <= m && z in After(s, k).decodeQueHead
  }

  /** A packet that waits or is being written does so still, or has been put in service. */
  lemma {:induction false} QueuedOrServed(s: State, z: int, m: nat)
    requires Idle(s) && Guarded(s, Ticks(m)) && Queued(s, z)
    ensures Bounded(s) && (Queued(Run(s, Ticks(m)), z) || exists k: nat :: ServedAt(s, z, m, k))
    decreases m
  {
    hide Idle, Process, Guarded, Run, Ticks, Queued, Bounded;
    IdleIsBounded(s);
    if m > 0 {
      FirstTick(s, m);
      EdgeKeepsQueued(s, z);
      NoTicks(Process(s));
      TickOnce(s, 0);
      if z in Process(s).decodeQueHead {
        assert ServedAt(s, z, m, 1);
      } else {
        QueuedOrServed(Process(s), z, m - 1);
        if !Queued(Run(s, Ticks(m)), z) {
          var k: nat :| ServedAt(Process(s), z, m - 1, k);
          TickOnce(s, k);
          assert ServedAt(s, z, m, k + 1);
        }
      }
    } else {
      NoTicks(s);
    }
  }

  lemma {:induction false} StaysUnqueued(s: State, z: int, m: nat)
    requires Idle(s) && Guarded(s, Ticks(m)) && !Queued(s, z)
    ensures Bounded(s) && !Queued(Run(s, Ticks(m)), z)
    decreases m
  {
    hide Idle, Process, Guarded, Run, Ticks, Queued, Bounded;
    IdleIsBounded(s);
    if m > 0 {
      FirstTick(s, m);
      EdgeQueuesNoNew(s, z);
      StaysUnqueued(Process(s), z, m - 1);
    } else {
      NoTicks(s);
    }
  }

  /** A packet that has been put in service does not wait again. */
  lemma ServedIsNotQueued(s: State, z: int, m: nat, k: nat)
    requires Idle(s) && Guarded(s, Ticks(m)) && Bounded(s) && ServedAt(s, z, m, k)
    ensures !Queued(Run(s, Ticks(m)), z)
  {
    hide Idle, Process, Guarded, Run, Ticks, Linked;
    TicksOfBoth(k, m - k);
    GuardedOfBoth(s, Ticks(k), Ticks(m - k));
    RunOfBoth(s, Ticks(k), Ticks(m - k));
    RunKeepsIdle(s, Ticks(k));
    var u := Run(s, Ticks(k));
    IdleIsBounded(u);
    LinkedHeads(u);
    StaysUnqueued(u, z, m - k);
  }

  /** When arrivals stop in any state: after the m clock edges in which the packets in encode_que are written, nothing
      is left to write, and a packet z that waited or was being written is ever put in service exactly when it has been
      by then, or some packet is in service or more than 4 wait. */
  lemma WhenArrivalsStop(s: State, z: int, m: nat, later: nat)
    requires Idle(s) && Queued(s, z) && m == ToWrite(s) && Guarded(s, Ticks(m))
    requires later >= m + 114 * |Run(s, Ticks(m)).decodeQue|
    ensures var r := Run(s, Ticks(m));
      && Idle(r) && r.encodeQue == []
      && ((exists k: nat :: ServedAt(s, z, later, k)) <==> z !in r.decodeQue || Awake(r))
  {
    hide Idle, Process, Guarded, Run, Ticks, Linked;
    IdleIsBounded(s);
    WritingEnds(s, m);
    QueuedOrServed(s, z, m);
    var r := Run(s, Ticks(m));
    if z !in r.decodeQue {
      var k: nat :| ServedAt(s, z, m, k);
      assert ServedAt(s, z, later, k);
    } else {
      var p :| 0 <= p < |r.decodeQue| && r.decodeQue[p] == z;
      if Awake(r) {
        var j := ServedLater(s, r, z, m, later, p, 114 * (p + 1), later - m);
      } else {
        NeverServed(s, r, z, m, later);
      }
    }
  }

  lemma EntersSoon(r: State, z: int, p: nat, n: nat, rest: nat) returns (k: nat)
    requires Idle(r) && r.encodeQue == [] && Awake(r)
    requires p < |r.decodeQue| && z == r.decodeQue[p] && n == 114 * (p + 1) <= rest
    ensures Bounded(r) && k <= rest && z in After(r, k).decodeQueHead
  {
    hide Idle, Process, Run, Ticks, Linked, Clocks, Awake, Enters, Bounded;
    WhenNothingIsWritten(r, p, n, rest);
    var i :| Enters(r, Ticks(rest), z, n, i);
    EntersAt(r, z, rest, n, i);
    k := i;
  }

  lemma EntersAt(r: State, z: int, rest: nat, n: int, k: int)
    requires Bounded(r) && Enters(r, Ticks(rest), z, n, k)
    ensures 0 <= k <= rest && z in After(r, k).decodeQueHead
  {
    hide Run, Ticks, Bounded;
    TicksPrefix(rest, k);
  }

  lemma AfterMore(s: State, m: nat, k: nat, j: nat)
    requires Bounded(s) && j == m + k
    ensures After(s, j) == After(After(s, m), k)
  {
    hide Bounded, Run, Ticks;
    TicksOfBoth(m, k);
    RunOfBoth(s, Ticks(m), Ticks(k));
  }

  lemma ServedLater(s: State, r: State, z: int, m: nat, later: nat, p: nat, n: nat, rest: nat) returns (j: nat)
    requires Bounded(s) && r == After(s, m) && Idle(r) && r.encodeQue == [] && Awake(r)
    requires p < |r.decodeQue| && z == r.decodeQue[p] && n == 114 * (p + 1) <= rest && later == m + rest
    ensures ServedAt(s, z, later, j)
  {
    hide Idle, After, Awake, Bounded;
    var k := EntersSoon(r, z, p, n, rest);
    j := m + k;
    AfterMore(s, m, k, j);
  }

  lemma NeverServed(s: State, r: State, z: int, m: nat, later: nat)
    requires Idle(s) && Bounded(s) && Guarded(s, Ticks(m)) && r == Run(s, Ticks(m)) && Idle(r) && r.encodeQue == []
    requires !Awake(r) && z in r.decodeQue
    ensures forall k: nat :: !ServedAt(s, z, later, k)
  {
    hide Idle, Process, Run, Ticks, Linked, Guarded;
    forall k: nat ensures !ServedAt(s, z, later, k) {
      if ServedAt(s, z, later, k) {
        if k <= m {
          ServedIsNotQueued(s, z, m, k);
        } else {
          TicksOfBoth(m, k - m);
          RunOfBoth(s, Ticks(m), Ticks(k - m));
          AsleepForEver(r, k - m);
        }
      }
    }
  }
}
