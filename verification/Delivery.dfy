/** What a user of the buffer gets, over whole runs from the constructor on and for any arrivals. */
module Delivery {
  import opened Types
  import opened Spec
  import opened SimpleBuffer
  import opened HeapShape
  import opened Refinement
  import opened Ledger
  import opened Cycle
  import opened Guard
  import opened Occupancy

  // ---- The counting laws: every run whatsoever ----

  lemma InitIsAudited(bankNum: int, sliceNum: int, pid: int)
    requires bankNum >= 1 && sliceNum >= 1
    ensures Audited(Init(bankNum, sliceNum), pid)
  {
    SumOfEqual(Init(bankNum, sliceNum).bankDeepVec, sliceNum);
    ConflictSumIsZero(Init(bankNum, sliceNum).bankConflictVec);
  }

  lemma {:induction false} RunKeepsAudited(s: State, acts: seq<Action>, pid: int)
    requires Audited(s, pid)
    ensures Audited(Run(s, acts), pid)
    decreases acts
  {
    hide Tally, Sum, LinkInRange, Process, Extends, RcvFrom;
    if acts != [] {
      match acts[0] {
        case Receive(id) => ReceiveKeepsAudited(s, pid, id);
        case Clock => ProcessKeepsBooks(s, pid);
      }
      RunKeepsAudited(Do(s, acts[0]), acts[1..], pid);
    }
  }

  lemma ReceiveKeepsAudited(s: State, pid: int, id: int)
    requires Audited(s, pid)
    ensures Audited(RcvFrom(s, 0x1000, id), pid)
  {
    ReceiveKeepsBooks(s.history, s, pid, id);
  }

  lemma ReceivedSnoc(t: seq<Event>, id: int)
    ensures IdsReceived(t + [Received(id)]) == IdsReceived(t) + [id]
  {
    assert (t + [Received(id)])[..|t|] == t;
  }

  /** Every packet inside the buffer was received. */
  lemma LiveWasReceived(b: State, id: int)
    requires Linked(b) && (id in b.encodeQue || id in b.decodeQue || id in b.decodeQueHead)
    ensures id in IdsReceived(b.history)
  {
    hide Heap, Depths, Replay, Legal, Tally, IdsReceived, Pointers;
    LiveByEvents(b.history, id);
    ReceivedByTally(b.history, id);
  }

  lemma {:induction false} ReceivedByTally(t: seq<Event>, id: int)
    ensures Tally(t, ReceivedOf(id)) > 0 <==> id in IdsReceived(t)
  {
    if t != [] { ReceivedByTally(t[..|t| - 1], id); }
  }

  /** The per-bank ledger: a depth is the bank's size less the slices stored in it and not released, and each read
      attempt is counted once, as a conflict or as a release. */
  lemma BankLedgerHolds(bankNum: int, sliceNum: int, acts: seq<Action>, b: int)
    requires 0 <= b < bankNum && sliceNum >= 1
    ensures var s := Run(Init(bankNum, sliceNum), acts);
      && |s.bankDeepVec| == |s.bankConflictVec| == |s.readBankIdVec| == bankNum
      && s.bankDeepVec[b] == sliceNum - Tally(s.history, AllocatedIn(b))
           + (s.bankConflictVec[b].readCnt - s.bankConflictVec[b].readConflictCnt)
      && s.bankConflictVec[b].readCnt - s.bankConflictVec[b].readConflictCnt == Tally(s.history, ReleasedIn(b))
      && s.bankConflictVec[b].readConflictCnt == Tally(s.history, ConflictIn(b))
      && s.readBankIdVec[b] == 0
  {
    hide Tally, Sum, LinkInRange, Run, PacketLedger;
    InitIsAudited(bankNum, sliceNum, 0);
    RunKeepsAudited(Init(bankNum, sliceNum), acts, 0);
  }

  // ---- Guarded runs ----

  lemma InitIsIdle(bankNum: int, sliceNum: int)
    requires bankNum >= 1 && sliceNum >= 1
    ensures Idle(Init(bankNum, sliceNum))
  {
    InitIsLinked(bankNum, sliceNum);
    hide CountFree;
  }

  /** A run from the constructor on is a history of the simple buffer exactly when no packet arrives that is inside
      already and no packet loses all its slices; the state then represents the simple buffer, with its chains in
      memory, its depths equal to the free slots and its timers in range. */
  lemma RunIsSimpleBuffer(bankNum: int, sliceNum: int, acts: seq<Action>)
    requires bankNum >= 1 && sliceNum >= 1
    ensures var s := Init(bankNum, sliceNum);
      && (Legal(Run(s, acts).history) <==> Guarded(s, acts))
      && (Guarded(s, acts) ==> Idle(Run(s, acts)))
  {
    hide Idle, Legal, Guarded, Init, Run;
    var s := Init(bankNum, sliceNum);
    InitIsIdle(bankNum, sliceNum);
    RunKeepsIdle(s, acts);
  }

  lemma IdleIsLinked(s: State)
    requires Idle(s)
    ensures Linked(s)
  {}

  lemma {:induction false} WrittenByEvents(t: seq<Event>, id: int)
    ensures |SlotsWritten(t, id)| == Tally(t, StoredOf(id))
  {
    if t != [] { WrittenByEvents(t[..|t| - 1], id); }
  }

  /** A packet that is not inside the buffer any more: exactly its stored slices were released, in the order in which
      they were written; 16 for each time it was received, less those that found no room. */
  lemma DeliveredInFull(s: State, id: int)
    requires Linked(s) && PacketLedger(s, id)
    requires id !in s.encodeQue && id !in s.decodeQue && id !in s.decodeQueHead
    ensures SlotsReleased(s.history, id) == SlotsWritten(s.history, id)
    ensures |SlotsReleased(s.history, id)| ==
      PACKET_SLICES * Tally(s.history, ReceivedOf(id)) - Tally(s.history, SkippedOf(id))
  {
    hide Heap, Depths, Tally, Legal, Replay, SlotsWritten, SlotsReleased;
    ReleasedInWriteOrder(s.history, id);
    WrittenByEvents(s.history, id);
    LegalIsSound(s.history);
    assert id !in Replay(s.history).chain;
  }

  /** For every guarded run and every packet that arrives once: it comes out once, whole and in order, exactly when
      none of its writes was dropped. */
  lemma PacketComesOutWhole(bankNum: int, sliceNum: int, acts: seq<Action>, id: int)
    requires bankNum >= 1 && sliceNum >= 1 && Guarded(Init(bankNum, sliceNum), acts)
    ensures var s := Run(Init(bankNum, sliceNum), acts);
      Tally(s.history, ReceivedOf(id)) == 1 && Tally(s.history, ErasedOf(id)) == 1 ==>
        && SlotsReleased(s.history, id) == SlotsWritten(s.history, id)
        && (|SlotsReleased(s.history, id)| == PACKET_SLICES <==> Tally(s.history, SkippedOf(id)) == 0)
  {
    hide Idle, Tally, Legal, Replay, Init, Run, SlotsWritten, SlotsReleased, Guarded;
    var s := Run(Init(bankNum, sliceNum), acts);
    RunIsSimpleBuffer(bankNum, sliceNum, acts);
    IdleIsLinked(s);
    InitIsAudited(bankNum, sliceNum, id);
    RunKeepsAudited(Init(bankNum, sliceNum), acts, id);
    if Tally(s.history, ReceivedOf(id)) == 1 && Tally(s.history, ErasedOf(id)) == 1 {
      LiveByEvents(s.history, id);
      NotLive(s, id);
      DeliveredInFull(s, id);
    }
  }

  lemma NotLive(s: State, id: int)
    requires Linked(s) && id !in Live(Replay(s.history))
    ensures id !in s.encodeQue && id !in s.decodeQue && id !in s.decodeQueHead
  {
    hide Heap, Depths, Legal, Replay;
  }
}
