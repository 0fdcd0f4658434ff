/** In the closed system every packet that A sends is read completely and leaves the buffer. */
module ClosedDelivery {
  import opened Types
  import opened Spec
  import opened SimpleBuffer
  import opened HeapShape
  import opened Refinement
  import opened Ledger
  import opened Scheduler
  import opened Cycle
  import opened Guard
  import opened Phases
  import opened Waiting
  import opened Departures
  import opened Occupancy
  import opened ClosedSystem
  import opened Delivery

  // ---- Several clock edges ----

  lemma {:induction false} EdgesOfBoth(y: System, a: seq<bool>, b: seq<bool>)
    requires Bounded(y.b)
    ensures Edges(y, a + b) == Edges(Edges(y, a), b)
    decreases a
  {
    hide LinkInRange, Edge;
    if a == [] {
      assert a + b == b;
    } else {
      assert (a + b)[1..] == a[1..] + b;
      EdgesOfBoth(Edge(y, a[0]), a[1..], b);
    }
  }

  // ---- Reaching service ----

  lemma {:induction false} TotalAtLeast(c: map<int, seq<Loc>>, ids: seq<int>)
    requires forall i :: i in ids ==> Length(c, i) >= 1
    ensures Total(c, ids) >= |ids|
  {
    if ids != [] {
      assert ids[|ids| - 1] in ids;
      TotalAtLeast(c, ids[..|ids| - 1]);
    }
  }

  /** Every packet in service still has a slice. */
  lemma ServiceHasSlices(s: State)
    requires Linked(s)
    ensures Total(Replay(s.history).chain, s.decodeQueHead) >= |s.decodeQueHead|
  {
    hide Heap, Depths, Legal, Replay, Total;
    LinkedHeads(s);
    TotalAtLeast(Replay(s.history).chain, s.decodeQueHead);
  }

  lemma NotWarm(b: State)
    requires Idle(b) && Whole(b) && Staged(b) && 1 <= b.writeSliceNum && Tally(b.history, AnyAllocation) >= 81
    ensures |b.decodeQueHead| == LINK_NUM
    ensures Serving(b, 0) || Serving(b, 1) || Serving(b, 2)
  {
    hide Idle, Whole, Tally, NextOf, PhasesDistinct;
    if Warm(b) { WarmStock(b); }
  }

  /** The k-th packet of A has been put in service after 16 k + 66 clock edges, the first one after 83. */
  lemma PutInServiceInTime(orders: seq<bool>, k: nat)
    requires k >= 1 && |orders| >= PACKET_SLICES * k + 66 && |orders| >= 83
    ensures var t := SystemRun(orders).b.history; |IdsServed(t)| >= k && IdsServed(t)[k - 1] == k + 1
  {
    hide Tally, Legal, Replay, Heap, Depths, Timed, Total, IdsReceived, IdsServed, Edges, NextOf, PhasesDistinct;
    RunKeepsInv(orders, 0);
    var b, d := SystemRun(orders).b, Sent(|orders|);
    NotWarm(b);
    StockByPackets(b);
    ServiceHasSlices(b);
    ServedInArrivalOrder(b.history);
    var served := IdsServed(b.history);
    assert IdsReceived(b.history) == served + b.decodeQue + b.encodeQue;
    assert |served| >= k ==> (served + b.decodeQue + b.encodeQue)[k - 1] == served[k - 1];
  }

  // ---- Leaving ----

  lemma {:induction false} IdsGrow(t: seq<Event>, u: seq<Event>)
    requires t <= u
    ensures IdsReceived(t) <= IdsReceived(u) && IdsServed(t) <= IdsServed(u)
    decreases u
  {
    if t != u { IdsGrow(t, u[..|u| - 1]); }
  }

  lemma {:induction false} ReceivedOnce(t: seq<Event>, id: int)
    requires NoDup(IdsReceived(t))
    ensures Tally(t, ReceivedOf(id)) <= 1
    decreases t
  {
    if t != [] {
      var u := t[..|t| - 1];
      assert IdsReceived(t)[..|IdsReceived(u)|] == IdsReceived(u);
      PrefixNoDup(IdsReceived(t), |IdsReceived(u)|);
      ReceivedOnce(u, id);
      ReceivedByTally(u, id);
      if t[|t| - 1] == Received(id) { assert IdsReceived(t)[|IdsReceived(u)|] == id; }
    }
  }

  lemma {:induction false} SkippedAmongAll(t: seq<Event>, id: int)
    ensures Tally(t, SkippedOf(id)) <= Tally(t, AnySkip)
  {
    if t != [] { SkippedAmongAll(t[..|t| - 1], id); }
  }

  /** A packet that was put in service and has left it was erased. */
  lemma ServedAndGone(m: State, h: int)
    requires Linked(m) && NoDup(IdsReceived(m.history))
    requires h in IdsServed(m.history) && h !in m.decodeQueHead
    ensures Tally(m.history, ErasedOf(h)) >= 1
  {
    hide Heap, Depths, Legal, Replay, Tally, IdsReceived, IdsServed;
    ServedInArrivalOrder(m.history);
    LiveByEvents(m.history, h);
    ReceivedByTally(m.history, h);
    var r, s := IdsReceived(m.history), IdsServed(m.history);
    assert r == s + m.decodeQue + m.encodeQue;
    forall i, j | 0 <= i < |s| && |s| <= j < |r| ensures s[i] != r[j] { assert r[i] == s[i]; }
    assert forall q :: q in m.decodeQue + m.encodeQue ==> q !in s by {
      forall q | q in m.decodeQue + m.encodeQue ensures q !in s {
        var j :| 0 <= j < |m.decodeQue + m.encodeQue| && (m.decodeQue + m.encodeQue)[j] == q;
        assert r[|s| + j] == q;
      }
    }
  }

  /** ... and never comes back, when every packet arrives once. */
  lemma GoneForGood(m: State, z: State, h: int)
    requires Linked(m) && Linked(z) && m.history <= z.history && NoDup(IdsReceived(z.history))
    requires h in IdsServed(m.history) && h !in m.decodeQueHead
    ensures Tally(z.history, ReceivedOf(h)) == 1 && Tally(z.history, ErasedOf(h)) == 1
    ensures h !in z.encodeQue && h !in z.decodeQue && h !in z.decodeQueHead
  {
    hide Heap, Depths, Legal, Replay, Tally, IdsReceived, IdsServed;
    IdsGrow(m.history, z.history);
    assert IdsReceived(z.history)[..|IdsReceived(m.history)|] == IdsReceived(m.history);
    PrefixNoDup(IdsReceived(z.history), |IdsReceived(m.history)|);
    ServedAndGone(m, h);
    TallyGrows(m.history, z.history, ErasedOf(h));
    ReceivedOnce(z.history, h);
    LiveByEvents(z.history, h);
    NotLive(z, h);
  }

  // ---- The time in service ----

  lemma SourceKeepsTime(y: System, n: nat, lag: int, h: int)
    requires SourceAt(y.a, n) && Stocked(y.b, Sent(n), lag, 0) && -1 <= lag <= 0 && Staged(y.b)
    ensures var r := SourceEdge(y).b;
      r.decodeQueHead == y.b.decodeQueHead && TimeLeft(r, h) == TimeLeft(y.b, h)
  {
    hide Idle, Whole, Tally, BankLedger, Staged, ReceivedInOrder, TimeLeft;
    SourceEdgeSends(y, n, lag, 0);
    StockedIsBounded(y.b, Sent(n), lag, 0);
    StockedIsBounded(SourceEdge(y).b, Sent(n + 1), lag - 1, 0);
    ReceiveKeepsIdle(y.b, n + 1);
    if n + 1 >= 2 { ReceiveKeepsTime(y.b, n + 1, h); }
  }

  lemma ServesApart(b: State)
    requires Staged(b) && b.decodeQueHead != []
    ensures OneDue(b)
  {
    hide NextOf, Tally, IdsServed;
  }

  lemma BufferTime(b: State, h: int)
    requires Idle(b) && Staged(b) && h in b.decodeQueHead
    ensures Bounded(b)
    ensures var r := Process(b);
      && TimeLeft(b, h) >= 1 && (h in r.decodeQueHead <==> TimeLeft(b, h) > 1)
      && (h in r.decodeQueHead ==> TimeLeft(r, h) == TimeLeft(b, h) - 1)
  {
    hide Idle, Staged, Process, Fill, TimeLeft;
    IdleIsBounded(b);
    ServesApart(b);
    OneDueIsCalm(b);
    FillKeepsTime(b, h);
    TimeShrinks(b, h);
  }

  /** In the closed system each clock edge takes each head one cycle closer to its leaving, whoever runs first. */
  lemma EdgeTime(y: System, n: nat, sourceFirst: bool, h: int)
    requires SystemInv(y, n, 0) && h in y.b.decodeQueHead
    ensures Bounded(y.b)
    ensures var r := Edge(y, sourceFirst).b;
      && TimeLeft(y.b, h) >= 1 && (h in r.decodeQueHead <==> TimeLeft(y.b, h) > 1)
      && (h in r.decodeQueHead ==> TimeLeft(r, h) == TimeLeft(y.b, h) - 1)
  {
    hide Stocked, Staged, Process, SourceEdge, TimeLeft, SourceAt, Sent, Extends;
    StockedIsBounded(y.b, Sent(n), -1, 0);
    if sourceFirst {
      SourceEdgeSends(y, n, -1, 0);
      SourceKeepsTime(y, n, -1, h);
      StockedIsBounded(SourceEdge(y).b, Sent(n + 1), -2, 0);
      BufferTime(SourceEdge(y).b, h);
    } else {
      BufferTime(y.b, h);
      BufferEdgeKeepsStocked(y.b, Sent(n), -1, 0);
      SourceKeepsTime(BufferEdge(y), n, 0, h);
    }
  }

  lemma TimeIsPositive(b: State, h: int)
    requires Idle(b) && h in b.decodeQueHead
    ensures TimeLeft(b, h) >= 1
  {
    hide Idle, NextOf, ChainOf;
    HeadsAreDue(b, h);
  }

  /** A packet in service is out of it when its time is up. */
  lemma {:induction false} LeavesInTime(y: System, n: nat, later: seq<bool>, h: int) returns (k: nat)
    requires SystemInv(y, n, 0) && h in y.b.decodeQueHead && TimeLeft(y.b, h) <= |later|
    ensures k <= |later| && Bounded(y.b) && h !in Edges(y, later[..k]).b.decodeQueHead
    decreases later
  {
    hide SystemInv, Edge, TimeLeft, Bounded;
    SystemIsBounded(y, n, 0);
    TimeIsPositive(y.b, h);
    EdgeTime(y, n, later[0], h);
    EdgeKeepsInv(y, n, later[0], 0);
    var r, rest := Edge(y, later[0]), later[1..];
    k := 0;
    if h in r.b.decodeQueHead { k := LeavesInTime(r, n + 1, rest, h); }
    k := k + 1;
    assert later[..k][0] == later[0] && later[..k][1..] == rest[..k - 1];
  }

  /** Once the heads have settled, a packet in service leaves within 64 clock edges; after the 83rd edge the first
      packet, whose id is 2, leaves within 63. */
  lemma TimeIsShort(b: State, d: nat, h: int)
    requires Stocked(b, d, -1, 0) && Staged(b) && h in b.decodeQueHead && d >= 82
    ensures d >= 84 ==> TimeLeft(b, h) <= 64
    ensures d == 82 && h == 2 ==> TimeLeft(b, h) <= 63
  {
    hide Idle, Whole, Tally, ReceivedInOrder, BankLedger, PhasesDistinct, NextOf, ChainOf, IdsServed;
    StockedIsBounded(b, d, -1, 0);
    HeadsAreDue(b, h);
  }

  lemma NoEdges(y: System)
    requires Bounded(y.b)
    ensures Edges(y, []) == y
  {}

  lemma {:induction false} EdgesExtend(y: System, orders: seq<bool>)
    requires Bounded(y.b)
    ensures y.b.history <= Edges(y, orders).b.history
    decreases orders
  {
    hide Bounded, Process;
    if orders != [] { EdgesExtend(Edge(y, orders[0]), orders[1..]); }
  }

  /** The k-th packet of A has been in service and has left it at some point. */
  lemma HasLeft(orders: seq<bool>, k: nat) returns (m: State)
    requires k >= 1 && |orders| >= PACKET_SLICES * k + 130
    ensures Linked(m) && m.history <= SystemRun(orders).b.history
    ensures k + 1 in IdsServed(m.history) && k + 1 !in m.decodeQueHead
  {
    hide Edges, SystemInv, Tally, IdsServed, IdsReceived, Linked, TimeLeft, Stocked, Staged, Bounded;
    var n, id := if k == 1 then 83 else PACKET_SLICES * k + 66, k + 1;
    var early, late := orders[..n], orders[n..];
    var y := SystemRun(early);
    assert orders == early + late;
    EdgesOfBoth(START, early, late);
    PutInServiceInTime(early, k);
    RunKeepsInv(early, 0);
    SystemIsBounded(y, n, 0);
    var j := 0;
    if id in y.b.decodeQueHead {
      assert TimeLeft(y.b, id) <= |late| by { InvGivesTime(y, n, id); }
      j := LeavesInTime(y, n, late, id);
    }
    var z := Edges(y, late[..j]);
    assert late[..0] == [] && Edges(y, []) == y by { NoEdges(y); }
    m := z.b;
    EdgesKeepInv(y, n, late[..j], 0);
    SystemIsBounded(z, n + j, 0);
    assert late == late[..j] + late[j..];
    EdgesOfBoth(y, late[..j], late[j..]);
    EdgesExtend(z, late[j..]);
    EdgesExtend(y, late[..j]);
    IdsGrow(y.b.history, m.history);
  }

  lemma InvGivesTime(y: System, n: nat, h: int)
    requires SystemInv(y, n, 0) && h in y.b.decodeQueHead && n >= 83
    ensures n >= 85 ==> TimeLeft(y.b, h) <= 64
    ensures n == 83 && h == 2 ==> TimeLeft(y.b, h) <= 63
  {
    hide Stocked, Staged, TimeLeft;
    TimeIsShort(y.b, Sent(n), h);
  }

  /** Whoever runs first at each edge: after 16 k + 130 clock edges the k-th packet of A, whose id is k + 1, has been
      read completely - its 16 slices were released once each, in the order in which they were written - and has left
      the buffer. */
  lemma EveryPacketIsDelivered(orders: seq<bool>, k: nat)
    requires k >= 1 && |orders| >= PACKET_SLICES * k + 130
    ensures var b, id := SystemRun(orders).b, k + 1;
      && Tally(b.history, ReceivedOf(id)) == 1 && Tally(b.history, ErasedOf(id)) == 1
      && id !in b.encodeQue && id !in b.decodeQue && id !in b.decodeQueHead
      && SlotsReleased(b.history, id) == SlotsWritten(b.history, id)
      && |SlotsReleased(b.history, id)| == PACKET_SLICES
  {
    hide Edges, Tally, Legal, Replay, IdsReceived, IdsServed, SlotsReleased, SlotsWritten, Linked;
    var id, z := k + 1, SystemRun(orders);
    RunKeepsInv(orders, id);
    SystemIsBounded(z, |orders|, id);
    var m := HasLeft(orders, k);
    GoneForGood(m, z.b, id);
    SkippedAmongAll(z.b.history, id);
    DeliveredInFull(z.b, id);
  }
}
