/** When a packet in service leaves, as long as it meets no conflict. */
module Departures {
  import opened Types
  import opened Spec
  import opened SimpleBuffer
  import opened HeapShape
  import opened Refinement
  import opened Scheduler
  import opened Cycle
  import opened Phases
  import opened ReadSideLaws
  import opened Waiting

  /** In how many clock edges head h hands over its last slice, if it meets no conflict: its next slice, and 4 cycles
      for each further one. */
  function TimeLeft(s: State, h: int): int {
    NextOf(s, h) + READ_DELAY * (|ChainOf(s, h)| - 1)
  }

  /** Head h has waited one cycle less, or handed over a slice. */
  ghost predicate Advanced(f: State, r: State, h: int) {
    && ChainOf(f, h) != []
    && ChainOf(r, h) == (if NextOf(f, h) == 1 then ChainOf(f, h)[1..] else ChainOf(f, h))
    && NextOf(r, h) == (if NextOf(f, h) == 1 then READ_DELAY else NextOf(f, h) - 1)
    && TimeLeft(r, h) == TimeLeft(f, h) - 1
  }

  lemma SeenShrinks(f: State, r: State, h: int)
    requires Seen(f, r, h) && h in f.decodeQueHead && |ChainOf(f, h)| >= 1 && NextOf(f, h) >= 1
    requires NextOf(f, h) == 1 ==> forall q :: q in Ahead(f.decodeQueHead, h) ==> !Contends(f, q, h)
    ensures TimeLeft(f, h) >= 1 && (h in r.decodeQueHead <==> TimeLeft(f, h) > 1)
    ensures h in r.decodeQueHead ==> Advanced(f, r, h)
  {
    hide ChainOf, Next, Ahead;
  }

  lemma CalmHasNoRival(f: State, h: int, q: int)
    requires Calm(f) && h in f.decodeQueHead && h in f.queueMap && NextOf(f, h) == 1
    requires q in Ahead(f.decodeQueHead, h)
    ensures !Contends(f, q, h)
  {
    hide Next, Ahead;
    AheadIn(f.decodeQueHead, h);
    assert !Clash(f, q, h);
  }

  /** Without a conflict, a clock edge takes a head one cycle closer to its leaving; it leaves exactly when its time is
      up. */
  lemma TimeShrinks(s: State, h: int)
    requires Idle(s) && Calm(s) && h in Fill(s).decodeQueHead
    ensures var f, r := Fill(s), Process(s);
      && TimeLeft(f, h) >= 1 && (h in r.decodeQueHead <==> TimeLeft(f, h) > 1)
      && (h in r.decodeQueHead ==> Advanced(f, r, h))
  {
    hide Heap, Depths, Legal, Replay, Timed, Process, Fill, Ahead, TimerOk, Seen, TimeLeft, NextOf, Clash, Advanced;
    hide Contends;
    var f, r := Fill(s), Process(s);
    FillFills(s);
    forall a, b ensures Clash(f, a, b) <==> Clash(s, a, b) { FillKeepsClash(s, a, b); }
    ProcessSees(s, h);
    LinkedHeads(f);
    NextIsPositive(f, h);
    if NextOf(f, h) == 1 {
      forall q | q in Ahead(f.decodeQueHead, h) ensures !Contends(f, q, h) { CalmHasNoRival(f, h, q); }
    }
    SeenShrinks(f, r, h);
  }

  lemma FillKeepsTime(s: State, h: int)
    requires Idle(s) && h in s.decodeQueHead
    ensures h in Fill(s).decodeQueHead && TimeLeft(Fill(s), h) == TimeLeft(s, h)
  {
    hide Idle, Fill, NextOf, ChainOf;
    FillKeepsAhead(s, h);
  }

  lemma ReceiveKeepsTime(s: State, id: int, h: int)
    requires Idle(s) && !Inside(s, id)
    ensures TimeLeft(RcvFrom(s, 0x1000, id), h) == TimeLeft(s, h)
  {
    hide Idle, NextOf, ChainOf;
    ReceiveKeepsWaiting(s, id, h, 0);
  }

  // ---- A packet that takes the place of a head ----

  /** A waiting packet keeps its chain while it is put in service. */
  lemma NewcomerChain(s: State, z: int)
    requires Idle(s) && z in Fill(s).decodeQue
    ensures ChainOf(Process(s), z) == ChainOf(s, z)
  {
    hide Heap, Depths, Legal, Replay, Timed, Settled, ReadSide, Write, ChainOf, LinkInRange, Fill;
    FillLeavesTail(s);
    WaitingPackets(s);
    ReadSideSparesWaiting(s, z);
    ReadSideIsQuiet(s);
    WriteSpares(ReadSide(s), z);
    assert SameFor(ReadSide(s), Write(ReadSide(s)), z);
    ClearKeepsChains(Write(ReadSide(s)), z);
  }

  lemma FillLeavesTail(s: State)
    requires Idle(s)
    ensures forall z :: z in Fill(s).decodeQue ==> z in s.decodeQue
  {
    hide Linked, Timed, Settled, Fill, FilledTimers;
    FillFills(s);
  }

  lemma ClearKeepsChains(x: State, z: int)
    requires Bounded(x)
    ensures ChainOf(ClearFlags(x), z) == ChainOf(x, z)
  {}
}
