/** Who reads in a cycle: each bank serves the first due head of the list that needs it. */
module Arbitration {
  import opened Spec
  import opened SimpleBuffer
  import opened HeapShape
  import opened Refinement
  import opened Scheduler
  import opened Cycle
  import opened Phases

  lemma SeenDecides(f: State, r: State, h: int)
    requires Seen(f, r, h) && Next(f.queueMap[h]) >= 1 && ChainOf(f, h) != []
    ensures Next(f.queueMap[h]) > 1 ==> Moved(f, r, h, Waits)
    ensures Next(f.queueMap[h]) == 1 ==>
      if exists q :: q in Ahead(f.decodeQueHead, h) && Contends(f, q, h)
      then Moved(f, r, h, Loses) else Moved(f, r, h, Wins)
  {
    hide ChainOf, Next;
  }

  /** A head that is due hands over its slice exactly when no due head in front of it in decode_que_head has its next
      slice in the same bank; otherwise it tries again in the next cycle. */
  lemma FirstComeFirstServed(s: State, h: int)
    requires Idle(s) && h in Fill(s).decodeQueHead
    ensures var f, r := Fill(s), Process(s);
      && h in f.queueMap
      && (NextOf(f, h) > 1 ==> Moved(f, r, h, Waits))
      && (NextOf(f, h) == 1 ==>
            if exists q :: q in Ahead(f.decodeQueHead, h) && Contends(f, q, h)
            then Moved(f, r, h, Loses) else Moved(f, r, h, Wins))
  {
    hide Idle, Fill, Process, Seen, ChainOf, Linked, Timed, Next;
    IdleIsBounded(s);
    FillFills(s);
    LinkedHeads(Fill(s));
    NextIsPositive(Fill(s), h);
    HeadHasChain(Fill(s), h);
    ProcessSees(s, h);
    SeenDecides(Fill(s), Process(s), h);
  }

  lemma HeadHasChain(s: State, h: int)
    requires Linked(s) && h in s.queueMap
    ensures ChainOf(s, h) != []
  {
    hide Heap, Depths, Legal, Replay;
  }
}
