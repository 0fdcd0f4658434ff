/** What the members of B tell about the packets, in every state of a guarded run. */
module StateLaws {
  import opened Types
  import opened Spec
  import opened SimpleBuffer
  import opened HeapShape
  import opened Refinement
  import opened Scheduler
  import opened Cycle

  /** queue_map has an entry exactly for the packets in service, those waiting for it, and the one being written once
      a slice of it is stored; the entry names the packet's first slice that has not been released. */
  lemma QueueMapIsExact(s: State, id: int)
    requires Linked(s)
    ensures id in s.queueMap <==>
      id in s.decodeQueHead || id in s.decodeQue || (s.encodeQue != [] && id == s.encodeQue[0] && s.lastBankId != -1)
    ensures id in s.queueMap ==>
      var n, written := |SlotsReleased(s.history, id)|, SlotsWritten(s.history, id);
      && n < |written| && SlotsReleased(s.history, id) == written[..n]
      && written[n] == Loc(s.queueMap[id].bankId, s.queueMap[id].sliceId)
  {
    hide Heap, Depths, Legal, Replay, Exclusive, SlotsReleased, SlotsWritten;
    var b := Replay(s.history);
    LegalIsSound(s.history);
    LastIsTail(s, 0);
    ReleasedInWriteOrder(s.history, id);
  }

  /** A slot is in use exactly when it holds a slice that was written and not yet released; it then carries its own
      address, its packet, and the address of the packet's next slice. */
  lemma SlotsAreExact(s: State, l: Loc)
    requires Linked(s) && Has(s.encodeVec, l)
    ensures At(s.encodeVec, l) == Slice(0, -1, -1, -1, -1, -1) <==> !Stored(Replay(s.history), l)
    ensures var chain := Replay(s.history).chain;
      forall id, k :: (id in chain && 0 <= k < |chain[id]| && chain[id][k] == l) ==>
        At(s.encodeVec, l) == Expected(id, chain[id], k)
  {
    hide Depths, Legal, Replay, Pointers, Short, Queues;
    var x, chain := At(s.encodeVec, l), Replay(s.history).chain;
    forall id | id in chain ensures Holds(s.encodeVec, id, chain[id]) {}
    assert x == s.encodeVec[l.bank][l.slot];
  }

  /** A new buffer: every slot is empty, with all its members reset, every bank is as deep as it has slots, no bank is
      marked as read or has counted a read, and the writer has a packet of 16 slices to begin. */
  lemma NewBufferIsEmpty(bankNum: int, sliceNum: int, b: int, j: int)
    requires 0 <= b < bankNum && 0 <= j < sliceNum
    ensures var s := Init(bankNum, sliceNum);
      && |s.encodeVec| == |s.bankDeepVec| == |s.readBankIdVec| == |s.bankConflictVec| == bankNum
      && |s.encodeVec[b]| == sliceNum && s.encodeVec[b][j] == Slice(0, -1, -1, -1, -1, -1)
      && s.bankDeepVec[b] == sliceNum && s.readBankIdVec[b] == 0 && s.bankConflictVec[b] == Bank(0, 0)
      && s.writeCnt == 1 && s.writeSliceNum == 16 && s.lastBankId == -1 && s.lastSliceId == -1
      && s.encodeQue == s.decodeQue == s.decodeQueHead == [] && s.queueMap == map[]
  {}

  /** A depth is the number of free slots of its bank. */
  lemma DepthsAreExact(s: State, b: int)
    requires Linked(s) && 0 <= b < s.bankNum
    ensures s.bankDeepVec[b] == CountFree(s.encodeVec[b]) && 0 <= s.bankDeepVec[b] <= s.sliceNum
  {
    hide Heap, Legal, Replay, CountFree, FirstFree;
    CountFreeRange(s.encodeVec[b]);
  }

  /** Between clock edges a packet in service has a counter of 1 to 4 and a delay of 0 to 3, the counter being 4 while
      the delay is positive; one that waits has its counter at 4 and no delay. */
  lemma TimersInRange(s: State, id: int)
    requires Idle(s) && (id in s.decodeQueHead || id in s.decodeQue)
    ensures id in s.queueMap
    ensures var e := s.queueMap[id];
      && 1 <= e.counter <= 4 && 0 <= e.delay <= 3 && (e.delay > 0 ==> e.counter == 4)
      && (id in s.decodeQue ==> e.counter == 4 && e.delay == 0)
  {
    hide Heap, Depths, Legal, Replay;
    LinkedHeads(s);
    WaitingPackets(s);
  }

  // ---- The order of the packets ----

  /** x is y with some elements left out. */
  predicate Subsequence(x: seq<int>, y: seq<int>)
    decreases y
  {
    x == [] || (y != [] && (
      || (x[|x| - 1] == y[|y| - 1] && Subsequence(x[..|x| - 1], y[..|y| - 1]))
      || Subsequence(x, y[..|y| - 1])))
  }

  lemma {:induction false} SubsequenceWithout(x: seq<int>, y: seq<int>, z: int)
    requires Subsequence(x, y)
    ensures Subsequence(Without(x, z), y)
    decreases y
  {
    if x != [] {
      var p, q, last := x[..|x| - 1], y[..|y| - 1], x[|x| - 1];
      assert x == p + [last];
      WithoutSnoc(p, last, z);
      if Subsequence(x, q) {
        SubsequenceWithout(x, q, z);
      } else {
        SubsequenceWithout(p, q, z);
        var w := Without(p, z);
        assert (w + [last])[..|w|] == w && w + [] == w;
      }
    }
  }

  lemma {:induction false} WithoutSnoc(p: seq<int>, e: int, z: int)
    ensures Without(p + [e], z) == Without(p, z) + if e == z then [] else [e]
  {
    if p != [] {
      assert (p + [e])[1..] == p[1..] + [e];
      WithoutSnoc(p[1..], e, z);
    }
  }

  /** decode_que_head keeps the order in which packets were put in service. */
  lemma {:induction false} ServiceKeepsOrder(t: seq<Event>)
    requires Legal(t)
    ensures Subsequence(Replay(t).service, IdsServed(t))
  {
    if t != [] {
      var u, e := t[..|t| - 1], t[|t| - 1];
      ServiceKeepsOrder(u);
      match e
      case PutInService(id) =>
        assert (Replay(u).service + [id])[..|Replay(u).service|] == Replay(u).service;
        assert (IdsServed(u) + [id])[..|IdsServed(u)|] == IdsServed(u);
      case DecodeErase(id) => SubsequenceWithout(Replay(u).service, IdsServed(u), id);
      case _ =>
    }
  }
}
