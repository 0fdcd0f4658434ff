/** No packet in service waits for ever: bounds that hold for any arrivals and any number of read conflicts. */
module Waiting {
  import opened Types
  import opened Spec
  import opened Runs
  import opened SimpleBuffer
  import opened HeapShape
  import opened Refinement
  import opened Scheduler
  import opened Cycle
  import opened Guard
  import opened Lists
  import opened Phases

  /** The heads in front of h that may read within n cycles. */
  ghost function Rivals(s: State, h: int, n: int): set<int> {
    set q | q in Ahead(s.decodeQueHead, h) && NextOf(s, q) <= n
  }

  /** Head h can lose at most m reads before it hands over a slice. */
  ghost predicate LosesAtMost(s: State, h: int, m: int) {
    h in s.decodeQueHead && 0 <= m < READ_DELAY && |Rivals(s, h, NextOf(s, h) + m)| <= m
  }

  lemma SeenNext(f: State, r: State, q: int)
    requires Seen(f, r, q) && q in r.decodeQueHead
    ensures NextOf(f, q) > 1 ==> NextOf(r, q) == NextOf(f, q) - 1
    ensures Moved(f, r, q, Wins) ==> NextOf(r, q) == READ_DELAY && NextOf(f, q) == 1
    ensures NextOf(r, q) >= NextOf(f, q) - 1
  {
    hide ChainOf, Next, Ahead;
  }

  /** A head that waits or loses a read is one cycle closer to its slice: a rival that won cannot read again for 4
      cycles. */
  lemma WaitingShrinks(f: State, r: State, h: int, m: int)
    requires Linked(f) && Timed(f) && LosesAtMost(f, h, m)
    requires forall q :: q in f.decodeQueHead ==> Seen(f, r, q)
    requires h in r.decodeQueHead && Ahead(r.decodeQueHead, h) <= Ahead(f.decodeQueHead, h)
    requires h in f.queueMap && !Moved(f, r, h, Wins)
    ensures ChainOf(r, h) == ChainOf(f, h)
    ensures var m' := if NextOf(f, h) > 1 then m else m - 1;
      LosesAtMost(r, h, m') && NextOf(r, h) + m' == NextOf(f, h) + m - 1
  {
    hide Linked, Timed, ChainOf, Next, Ahead;
    NextIsPositive(f, h);
    AheadIn(f.decodeQueHead, h);
    AheadIn(r.decodeQueHead, h);
    assert Seen(f, r, h);
    var n := NextOf(f, h);
    var before := Rivals(f, h, n + m);
    if n > 1 {
      forall q | q in Rivals(r, h, n - 1 + m) ensures q in before { SeenNext(f, r, q); }
      SubsetCount(Rivals(r, h, n - 1 + m), before);
    } else {
      var w :| w in Ahead(f.decodeQueHead, h) && Contends(f, w, h) && w in f.queueMap && Moved(f, r, w, Wins);
      assert w in before;
      forall q | q in Rivals(r, h, m) ensures q in before - {w} { SeenNext(f, r, q); }
      SubsetCount(Rivals(r, h, m), before - {w});
    }
  }

  lemma FillKeepsAhead(s: State, h: int)
    requires Idle(s) && h in s.decodeQueHead
    ensures Ahead(Fill(s).decodeQueHead, h) == Ahead(s.decodeQueHead, h)
    ensures forall q :: q in s.decodeQueHead ==> NextOf(Fill(s), q) == NextOf(s, q)
    ensures ChainOf(Fill(s), h) == ChainOf(s, h) && h in Fill(s).decodeQueHead
  {
    hide Idle, Fill, NextOf, Linked, Timed, FilledTimers;
    var f := Fill(s);
    FillNexts(s);
    FillFills(s);
    AheadAppend(s.decodeQueHead, f.decodeQueHead[|s.decodeQueHead|..], h);
  }

  lemma FillKeepsWaiting(s: State, h: int, m: int)
    requires Idle(s) && LosesAtMost(s, h, m)
    ensures LosesAtMost(Fill(s), h, m) && NextOf(Fill(s), h) == NextOf(s, h)
    ensures ChainOf(Fill(s), h) == ChainOf(s, h)
  {
    hide Idle, Fill, NextOf, ChainOf;
    FillKeepsAhead(s, h);
    AheadIn(s.decodeQueHead, h);
    assert Rivals(Fill(s), h, NextOf(s, h) + m) == Rivals(s, h, NextOf(s, h) + m);
  }

  /** The head at list position p has at most p rivals. */
  lemma PositionBoundsLosses(s: State, p: nat)
    requires p < |s.decodeQueHead| <= LINK_NUM && NoDup(s.decodeQueHead)
    ensures LosesAtMost(s, s.decodeQueHead[p], p)
  {
    var h := s.decodeQueHead;
    AheadOnly(h, p);
    assert NoDup(h[..p]);
    DistinctCount(h[..p]);
    SubsetCount(Rivals(s, h[p], NextOf(s, h[p]) + p), set q | q in h[..p]);
  }

  ghost predicate Won(s: State, r: State, h: int) {
    && ChainOf(s, h) != [] && ChainOf(r, h) == ChainOf(s, h)[1..]
    && if |ChainOf(s, h)| == 1 then h !in r.decodeQueHead
       else LosesAtMost(r, h, READ_DELAY - 1) && NextOf(r, h) == READ_DELAY
  }

  ghost predicate StillWaits(s: State, r: State, h: int, m: int) {
    var m' := if NextOf(s, h) > 1 then m else m - 1;
    ChainOf(r, h) == ChainOf(s, h) && LosesAtMost(r, h, m') && NextOf(r, h) + m' == NextOf(s, h) + m - 1
  }

  /** In one clock edge a head hands over its first slice or gets closer to it; also for a head that is only put in
      service in that cycle. */
  lemma HeadProgresses(s: State, h: int, m: int)
    requires Idle(s) && Safe(s, Clock) && LosesAtMost(Fill(s), h, m)
    ensures Won(Fill(s), Process(s), h) || StillWaits(Fill(s), Process(s), h, m)
  {
    hide Fill, NextOf, Process, Seen, ChainOf, Linked, Timed, Rivals;
    IdleIsBounded(s);
    var f, r := Fill(s), Process(s);
    FillFills(s);
    LinkedHeads(f);
    ClockKeepsIdle(s);
    forall q | q in f.decodeQueHead
      ensures Seen(f, r, q) && (q in r.decodeQueHead ==> Ahead(r.decodeQueHead, q) <= Ahead(f.decodeQueHead, q))
    {
      ProcessSees(s, q);
    }
    if Moved(f, r, h, Wins) {
      WonHead(f, r, h);
    } else {
      StaysUnlessWins(f, r, h);
      WaitingShrinks(f, r, h, m);
    }
  }

  lemma StaysUnlessWins(f: State, r: State, h: int)
    requires Seen(f, r, h) && !Moved(f, r, h, Wins)
    ensures h in r.decodeQueHead
  {}

  lemma WonHead(f: State, r: State, h: int)
    requires h in f.queueMap && Moved(f, r, h, Wins) && Linked(r)
    ensures Won(f, r, h)
  {
    hide Linked, ChainOf, Next;
    LinkedHeads(r);
    if h in r.decodeQueHead {
      var p :| 0 <= p < |r.decodeQueHead| && r.decodeQueHead[p] == h;
      AheadOnly(r.decodeQueHead, p);
      assert NoDup(r.decodeQueHead[..p]);
      DistinctCount(r.decodeQueHead[..p]);
      AtMostFour(r);
      SubsetCount(Rivals(r, h, READ_DELAY + READ_DELAY - 1), set q | q in r.decodeQueHead[..p]);
    }
  }

  lemma AtMostFour(s: State)
    requires Linked(s)
    ensures |s.decodeQueHead| <= LINK_NUM
  {}

  // ---- Over runs ----

  /** After the first k actions, with at most n clock edges among them, head h has handed over its first slice. */
  ghost predicate HandsOver(s: State, acts: seq<Action>, h: int, n: int, k: int)
    requires Bounded(s)
  {
    && 0 <= k <= |acts| && Clocks(acts[..k]) <= n
    && ChainOf(s, h) != [] && ChainOf(Run(s, acts[..k]), h) == ChainOf(s, h)[1..]
  }

  /** After the first k actions, with at most n clock edges among them, packet h is not in service any more. */
  ghost predicate Leaves(s: State, acts: seq<Action>, h: int, n: int, k: int)
    requires Bounded(s)
  {
    0 <= k <= |acts| && Clocks(acts[..k]) <= n && h !in Run(s, acts[..k]).decodeQueHead
  }

  lemma ReceiveKeepsWaiting(s: State, id: int, h: int, m: int)
    requires Idle(s) && Safe(s, Receive(id))
    ensures var r := Do(s, Receive(id));
      && Idle(r) && ChainOf(r, h) == ChainOf(s, h) && NextOf(r, h) == NextOf(s, h)
      && r.decodeQueHead == s.decodeQueHead
      && (LosesAtMost(s, h, m) ==> LosesAtMost(r, h, m))
  {
    hide Heap, Depths, Legal, Replay, LinkInRange, TimerOk;
    ReceiveKeepsLinked(s, id);
    ReplaySnoc(s.history, Received(id));
    var r := Do(s, Receive(id));
    assert Rivals(r, h, NextOf(s, h) + m) == Rivals(s, h, NextOf(s, h) + m);
  }

  /** A head that reads in some cycles and can lose m reads hands over its slice within n clock edges, the sum of the
      two. */
  lemma {:induction false} SliceIsHandedOver(s: State, acts: seq<Action>, h: int, m: int, n: int)
    requires Idle(s) && Guarded(s, acts) && LosesAtMost(s, h, m) && n == NextOf(s, h) + m && Clocks(acts) >= n
    ensures exists k :: HandsOver(s, acts, h, n, k)
    decreases acts
  {
    hide Idle, NextOf, ChainOf, Rivals, Run, Process, Fill, Linked, Extends, LinkInRange, Bounded;
    IdleIsBounded(s);
    HeadsAreDue(s, h);
    var a, rest := acts[0], acts[1..];
    var r := Do(s, a);
    match a {
      case Receive(id) =>
        ReceiveKeepsWaiting(s, id, h, m);
        SliceIsHandedOver(r, rest, h, m, n);
        var k :| HandsOver(r, rest, h, n, k);
        PrefixStep(s, acts, k + 1);
        assert HandsOver(s, acts, h, n, k + 1);
      case Clock =>
        FillKeepsWaiting(s, h, m);
        HeadProgresses(s, h, m);
        ClockKeepsIdle(s);
        if Won(Fill(s), r, h) {
          PrefixStep(s, acts, 1);
          assert HandsOver(s, acts, h, n, 1);
        } else {
          SliceIsHandedOver(r, rest, h, if NextOf(s, h) > 1 then m else m - 1, n - 1);
          var k :| HandsOver(r, rest, h, n - 1, k);
          PrefixStep(s, acts, k + 1);
          assert HandsOver(s, acts, h, n, k + 1);
        }
    }
  }

  /** A head at list position p that reads in n cycles hands over its slice within n + p clock edges. */
  lemma SliceIsHandedOverByPosition(s: State, acts: seq<Action>, p: nat, n: int)
    requires Idle(s) && Guarded(s, acts) && p < |s.decodeQueHead|
    requires n == NextOf(s, s.decodeQueHead[p]) + p && Clocks(acts) >= n
    ensures exists k :: HandsOver(s, acts, s.decodeQueHead[p], n, k)
  {
    hide Heap, Depths, Legal, Replay, Timed;
    LinkedHeads(s);
    PositionBoundsLosses(s, p);
    SliceIsHandedOver(s, acts, s.decodeQueHead[p], p, n);
  }

  lemma HeadsAreDue(s: State, h: int)
    requires Idle(s) && h in s.decodeQueHead
    ensures NextOf(s, h) >= 1 && 1 <= |ChainOf(s, h)| <= PACKET_SLICES
  {
    hide Heap, Depths, Legal, Replay;
    NextIsPositive(s, h);
  }

  /** The time a packet in service still needs at most: its first slice, and 7 cycles for each further one. */
  function Budget(s: State, h: int, m: int): int {
    NextOf(s, h) + m + (2 * READ_DELAY - 1) * (|ChainOf(s, h)| - 1)
  }

  /** One clock edge uses up at least one cycle of the budget. */
  lemma BudgetShrinks(s: State, h: int, m: int) returns (m': int)
    requires Idle(s) && Safe(s, Clock) && LosesAtMost(Fill(s), h, m)
    ensures var f, r := Fill(s), Process(s);
      h !in r.decodeQueHead || (LosesAtMost(r, h, m') && Budget(r, h, m') <= Budget(f, h, m) - 1)
  {
    hide Idle, NextOf, ChainOf, Rivals, Process, Fill, Linked, Bounded;
    IdleIsBounded(s);
    HeadProgresses(s, h, m);
    FillFills(s);
    NextIsPositive(Fill(s), h);
    var f, r := Fill(s), Process(s);
    if Won(f, r, h) {
      m' := READ_DELAY - 1;
    } else {
      m' := if NextOf(f, h) > 1 then m else m - 1;
    }
  }

  lemma BudgetIsKept(s: State, h: int, m: int)
    requires Idle(s) && LosesAtMost(s, h, m)
    ensures Budget(s, h, m) >= 1 && h in s.decodeQueHead && h in Fill(s).decodeQueHead
    ensures Budget(Fill(s), h, m) == Budget(s, h, m) && LosesAtMost(Fill(s), h, m)
    ensures forall id :: Safe(s, Receive(id)) ==> var r := Do(s, Receive(id));
      Idle(r) && LosesAtMost(r, h, m) && Budget(r, h, m) == Budget(s, h, m)
  {
    hide Idle, NextOf, ChainOf, Rivals, Fill, Linked, RcvFrom;
    IdleIsBounded(s);
    HeadsAreDue(s, h);
    FillKeepsWaiting(s, h, m);
    forall id | Safe(s, Receive(id)) ensures var r := Do(s, Receive(id));
      Idle(r) && LosesAtMost(r, h, m) && Budget(r, h, m) == Budget(s, h, m)
    {
      ReceiveKeepsWaiting(s, id, h, m);
    }
  }

  lemma {:induction false} PacketLeavesOnBudget(s: State, acts: seq<Action>, h: int, m: int, n: int)
    requires Idle(s) && Guarded(s, acts) && LosesAtMost(s, h, m) && Budget(s, h, m) <= n <= Clocks(acts)
    ensures exists k :: Leaves(s, acts, h, n, k)
    decreases acts
  {
    hide Idle, NextOf, ChainOf, LosesAtMost, Budget, Run, Process, Fill, Linked, Extends, LinkInRange, Bounded;
    IdleIsBounded(s);
    BudgetIsKept(s, h, m);
    var a, rest := acts[0], acts[1..];
    var r := Do(s, a);
    match a {
      case Receive(id) =>
        PacketLeavesOnBudget(r, rest, h, m, n);
        var k :| Leaves(r, rest, h, n, k);
        PrefixStep(s, acts, k + 1);
        assert Leaves(s, acts, h, n, k + 1);
      case Clock =>
        var m' := BudgetShrinks(s, h, m);
        ClockKeepsIdle(s);
        if h !in r.decodeQueHead {
          PrefixStep(s, acts, 1);
          assert Leaves(s, acts, h, n, 1);
        } else {
          PacketLeavesOnBudget(r, rest, h, m', n - 1);
          var k :| Leaves(r, rest, h, n - 1, k);
          PrefixStep(s, acts, k + 1);
          assert Leaves(s, acts, h, n, k + 1);
        }
    }
  }

  lemma HeadsAreNear(s: State, h: int)
    requires Idle(s) && h in s.decodeQueHead
    ensures NextOf(s, h) <= 6
  {
    hide Heap, Depths, Legal, Replay;
    LinkedHeads(s);
  }

  /** A packet in service is out of decode_que_head after at most 114 clock edges, whatever arrives and however often
      it loses a read: its next read is at most 6 cycles away, 3 losses and 15 more slices at 7 cycles each follow. */
  lemma PacketLeavesWithin114(s: State, acts: seq<Action>, h: int)
    requires Idle(s) && Guarded(s, acts) && h in s.decodeQueHead && Clocks(acts) >= 114
    ensures exists k :: Leaves(s, acts, h, 114, k)
  {
    hide Idle, Linked, Rivals, Run, NextOf, ChainOf, Extends, LinkInRange, Guarded, Clocks, Leaves;
    IdleIsBounded(s);
    LinkedHeads(s);
    HeadsAreDue(s, h);
    HeadsAreNear(s, h);
    var p :| 0 <= p < |s.decodeQueHead| && s.decodeQueHead[p] == h;
    AtMostFour(s);
    PositionBoundsLosses(s, p);
    PacketLeavesOnBudget(s, acts, h, p, 114);
  }
}
