/** Every guarded run of the banked buffer is a history of the simple buffer. */
module Refinement {
  import opened Types
  import opened Spec
  import opened SimpleBuffer
  import opened HeapShape

  ghost predicate Queues(s: State, b: Buffer) {
    s.encodeQue == b.inbox && s.decodeQue == b.ready && s.decodeQueHead == b.service
  }

  /** queue_map has one entry per chain and points to its first slice. */
  ghost predicate Pointers(m: map<int, QueueInfo>, chain: map<int, seq<Loc>>) {
    && m.Keys == chain.Keys
    && forall id :: id in m ==> chain[id] != [] && chain[id][0] == Loc(m[id].bankId, m[id].sliceId)
  }

  /** The chain the writer is extending. */
  function Partial(b: Buffer): seq<Loc> {
    if b.inbox == [] then [] else Chain(b, b.inbox[0])
  }

  /** last_bank_id and last_slice_id name the tail of the partly written packet, if one has a stored slice; placed
      is 1 between the storing of a slice and its counting. */
  ghost predicate WriterAt(s: State, b: Buffer, placed: nat) {
    && s.writeCnt == 1 && 1 <= s.writeSliceNum <= PACKET_SLICES
    && (b.inbox == [] ==> s.writeSliceNum == PACKET_SLICES)
    && var c := Partial(b);
       && |c| <= PACKET_SLICES - s.writeSliceNum + placed
       && Loc(s.lastBankId, s.lastSliceId) == if c == [] then Loc(-1, -1) else c[|c| - 1]
  }

  ghost predicate Short(chain: map<int, seq<Loc>>) {
    forall id :: id in chain ==> |chain[id]| <= PACKET_SLICES
  }

  ghost predicate LinkedBut(s: State, placed: nat) {
    && Bounded(s) && Legal(s.history)
    && var b := Replay(s.history);
       && Queues(s, b) && Pointers(s.queueMap, b.chain) && Heap(s.encodeVec, b.chain)
       && Depths(s.encodeVec, s.bankDeepVec) && WriterAt(s, b, placed) && Short(b.chain)
  }

  /** The history is one of the simple buffer, and the state represents the simple buffer it leads to. */
  ghost predicate Linked(s: State) {
    LinkedBut(s, 0)
  }

  /** Packet id is in one of the three lists of packets. */
  predicate Inside(s: State, id: int) {
    id in s.encodeQue || id in s.decodeQue || id in s.decodeQueHead
  }

  lemma ReceiveKeepsLinked(s: State, id: int)
    requires Linked(s)
    ensures Linked(RcvFrom(s, 0x1000, id)) <==> !Inside(s, id)
    ensures Legal(RcvFrom(s, 0x1000, id).history) <==> !Inside(s, id)
  {
    hide Heap, Depths, Legal, Replay, Exclusive;
    ReplaySnoc(s.history, Received(id));
    LegalIsSound(s.history);
  }

  lemma StartServiceKeepsLinked(s: State, delay: int)
    requires Linked(s) && s.decodeQue != [] && |s.decodeQueHead| < LINK_NUM
    ensures Linked(StartService(s, delay))
    ensures Replay(StartService(s, delay).history).chain == Replay(s.history).chain
  {
    var id := s.decodeQue[0];
    ReplaySnoc(s.history, PutInService(id));
    LegalIsSound(s.history);
    assert id in Replay(s.history).ready;
  }

  lemma {:induction false} FillLoopKeepsLinked(s: State, delay: int)
    requires Linked(s) && |s.decodeQueHead| + |s.decodeQue| >= LINK_NUM
    ensures Linked(FillLoop(s, delay))
    decreases LINK_NUM - |s.decodeQueHead|
  {
    if |s.decodeQueHead| < LINK_NUM {
      StartServiceKeepsLinked(s, delay);
      FillLoopKeepsLinked(StartService(s, delay), delay + 1);
    }
  }

  lemma ConflictKeepsLinked(s: State, id: int)
    requires Linked(s) && id in s.decodeQueHead && id in s.queueMap
    ensures Linked(Conflict(s, id))
    ensures Replay(Conflict(s, id).history) == Replay(s.history)
  {
    hide Heap, Depths, Legal, Replay;
    ReplaySnoc(s.history, ReadConflict(id, Loc(s.queueMap[id].bankId, s.queueMap[id].sliceId)));
  }

  lemma ReleasedBuffer(b: Buffer, id: int, i: nat)
    requires Sound(b) && i < |b.service| && b.service[i] == id && b.chain[id] != []
    ensures var e, c := ReadRelease(id, b.chain[id][0]), b.chain[id];
      && Allowed(b, e)
      && Apply(b, e).chain == b.chain[id := c[1..]]
      && (|c| == 1 ==>
            && Allowed(Apply(b, e), DecodeErase(id))
            && Apply(Apply(b, e), DecodeErase(id)) ==
                 b.(service := b.service[..i] + b.service[i + 1..], chain := b.chain - {id}))
  {
    hide Exclusive, Stored;
    assert Live(b)[..|b.service|] == b.service;
    PrefixNoDup(Live(b), |b.service|);
    WithoutIsRemoval(b.service, i);
  }

  lemma ReleasedHeap(s: State, id: int)
    requires Linked(s) && id in s.queueMap
    ensures var b, f := Replay(s.history), Free(s, id);
      var c := b.chain[id];
      && Exclusive(b.chain)
      && Heap(f.encodeVec, b.chain[id := c[1..]]) && Depths(f.encodeVec, f.bankDeepVec)
      && (|c| == 1 ==> Heap(f.encodeVec, b.chain - {id}))
      && At(s.encodeVec, c[0]) == Expected(id, c, 0) && (|c| > 1 ==> Has(s.encodeVec, c[1]))
  {
    hide Heap, Depths, Legal, Replay, Exclusive, LinkInRange, Queues, Short, WriterAt;
    var b := Replay(s.history);
    var c := b.chain[id];
    LegalIsSound(s.history);
    FirstSlice(s.encodeVec, b.chain, id);
    ReleaseKeepsHeap(s.encodeVec, b.chain, id);
    PutKeepsDepths(s.encodeVec, s.bankDeepVec, c[0], FREE_SLICE);
    if |c| == 1 {
      EraseKeepsHeap(Put(s.encodeVec, c[0], FREE_SLICE), b.chain[id := c[1..]], id);
      assert b.chain[id := c[1..]] - {id} == b.chain - {id};
    }
  }

  lemma ReleaseKeepsLinked(s: State, i: int)
    requires Linked(s) && 0 <= i < |s.decodeQueHead| && s.decodeQueHead[i] in s.queueMap
    ensures Linked(Release(s, i).s)
    ensures var b, id := Replay(s.history), s.decodeQueHead[i];
      && (Release(s, i).erased <==> |b.chain[id]| == 1)
      && Replay(Release(s, i).s.history).chain ==
           if |b.chain[id]| == 1 then b.chain - {id} else b.chain[id := b.chain[id][1..]]
  {
    hide Heap, Depths, Legal, Replay, Exclusive, Apply, Allowed, LinkInRange, Put;
    var b, id := Replay(s.history), s.decodeQueHead[i];
    var l := b.chain[id][0];
    LegalIsSound(s.history);
    LiveOnce(b, id);
    ReleasedHeap(s, id);
    ReleasedBuffer(b, id, i);
    ReleaseOnlyTouchesChain(b, ReadRelease(id, l));
    ReplaySnoc(s.history, ReadRelease(id, l));
    ReplaySnoc(s.history + [ReadRelease(id, l)], DecodeErase(id));
  }

  lemma ReleaseOnlyTouchesChain(b: Buffer, e: Event)
    requires e.ReadRelease?
    ensures Apply(b, e) == b.(chain := Apply(b, e).chain)
  {}

  /** Counters and delays are no part of the correspondence. */
  lemma RetimeKeepsLinked(s: State, r: State)
    requires Linked(s) && r == s.(queueMap := r.queueMap) && r.queueMap.Keys == s.queueMap.Keys
    requires forall id :: id in s.queueMap ==>
      r.queueMap[id].bankId == s.queueMap[id].bankId && r.queueMap[id].sliceId == s.queueMap[id].sliceId
    ensures Linked(r)
  {
    hide Heap, Depths, Legal, Replay;
  }

  lemma VisitKeepsLinked(s: State, i: int)
    requires Linked(s) && 0 <= i < |s.decodeQueHead|
    ensures s.decodeQueHead[i] in s.queueMap
    ensures Linked(Visit(s, i).s)
  {
    hide Heap, Depths, Legal, Replay;
    LegalIsSound(s.history);
    var id := s.decodeQueHead[i];
    assert id in Replay(s.history).service;
    var t := Tick(s.queueMap[id]);
    var s' := s.(queueMap := s.queueMap[id := t.info]);
    RetimeKeepsLinked(s, s');
    if t.due {
      if s.readBankIdVec[t.info.bankId] == 1 {
        ConflictKeepsLinked(s', id);
      } else {
        ReleaseKeepsLinked(s', i);
      }
    }
  }

  lemma {:induction false} HeadLoopKeepsLinked(s: State, i: int, erased: bool)
    requires Linked(s) && 0 <= i <= |s.decodeQueHead|
    requires erased ==> |s.decodeQueHead| < LINK_NUM
    ensures Linked(HeadLoop(s, i, erased).s)
    decreases |s.decodeQueHead| - i
  {
    if i < |s.decodeQueHead| {
      VisitKeepsLinked(s, i);
      var v := Visit(s, i);
      HeadLoopKeepsLinked(v.s, if v.erased then i else i + 1, erased || v.erased);
    }
  }

  lemma ReadSideKeepsLinked(s: State)
    requires Linked(s)
    ensures Linked(ReadSide(s))
  {
    hide Heap, Depths, Legal, Replay, Bounded;
    var f := Fill(s);
    if |s.decodeQue| > LINK_NUM { FillLoopKeepsLinked(s, 1); }
    HeadLoopKeepsLinked(f, 0, false);
    var v := HeadLoop(f, 0, false);
    if v.erased && v.s.decodeQue != [] {
      StartServiceKeepsLinked(v.s, 4 - (|v.s.decodeQueHead| + 1));
    }
  }

  // ---- The write ----

  /** The writer's members are both -1 exactly when the packet being written has no stored slice yet. */
  lemma LastIsTail(s: State, placed: nat)
    requires LinkedBut(s, placed)
    ensures Partial(Replay(s.history)) == [] <==> s.lastBankId == -1
    ensures Partial(Replay(s.history)) == [] <==> s.lastSliceId == -1
    ensures s.lastBankId != -1 ==> Has(s.encodeVec, Loc(s.lastBankId, s.lastSliceId))
    ensures s.lastBankId != -1 ==>
      At(s.encodeVec, Loc(s.lastBankId, s.lastSliceId)) == Slice(1, s.lastBankId, s.lastSliceId, -1, -1, s.encodeQue[0])
  {
    hide Depths, Legal, Replay, Pointers;
    var b := Replay(s.history);
    var c := Partial(b);
    if c != [] { assert Holds(s.encodeVec, b.inbox[0], c); }
  }

  lemma AllocateIsAppend(s: State, l: Loc)
    requires Linked(s) && s.encodeQue != []
    requires Has(s.encodeVec, l) && At(s.encodeVec, l).valid == 0
    ensures !Stored(Replay(s.history), l)
    ensures
      var b, id, r := Replay(s.history), s.encodeQue[0], Allocate(s, s.encodeQue[0], l);
      Heap(r.encodeVec, b.chain[id := Chain(b, id) + [l]]) && Depths(r.encodeVec, r.bankDeepVec)
  {
    hide Heap, Depths, Legal, Replay, Exclusive, Pointers, Short, Stored;
    var b, id := Replay(s.history), s.encodeQue[0];
    var c := Chain(b, id);
    LegalIsSound(s.history);
    FreeSlot(s.encodeVec, b, l);
    AppendKeepsHeap(s.encodeVec, b.chain, id, c, l);
    AppendKeepsDepths(s.encodeVec, s.bankDeepVec, id, c, l);
    assert c != [] ==> Has(s.encodeVec, c[|c| - 1]);
    assert Allocate(s, id, l).encodeVec == Append(s.encodeVec, id, c, l);
  }

  lemma AllocateKeepsLinked(s: State, l: Loc)
    requires Linked(s) && s.encodeQue != []
    requires Has(s.encodeVec, l) && At(s.encodeVec, l).valid == 0
    ensures LinkedBut(Allocate(s, s.encodeQue[0], l), 1)
  {
    hide Heap, Depths, Legal, Replay, Exclusive, Stored;
    var b, id := Replay(s.history), s.encodeQue[0];
    var c := Chain(b, id);
    LegalIsSound(s.history);
    LastIsTail(s, 0);
    AllocateIsAppend(s, l);
    ReplaySnoc(s.history, WriteAllocate(id, l));
  }

  /** The next write loses a whole packet: its last slice finds no room and none of the others did. */
  ghost predicate LosesPacket(s: State)
    requires Bounded(s)
  {
    s.encodeQue != [] && s.writeSliceNum == 1 && s.lastBankId == -1 && Target(s).slot == s.sliceNum
  }

  lemma PlaceSliceKeepsLinked(s: State)
    requires Linked(s) && s.encodeQue != []
    ensures LinkedBut(PlaceSlice(s), 1)
    ensures PlaceSlice(s).lastBankId == -1 <==> s.lastBankId == -1 && Target(s).slot == s.sliceNum
  {
    hide Heap, Depths, Legal, Replay, Exclusive;
    var l := Target(s);
    if l.slot < s.sliceNum {
      AllocateKeepsLinked(s, l);
    } else {
      ReplaySnoc(s.history, WriteSkip(s.encodeQue[0]));
    }
  }

  lemma AdvanceWriterKeepsLinked(s: State)
    requires LinkedBut(s, 1) && s.encodeQue != []
    requires s.writeSliceNum == 1 ==> s.lastBankId != -1
    ensures Linked(AdvanceWriter(s))
  {
    hide Heap, Depths, Legal, Replay, Exclusive;
    LegalIsSound(s.history);
    LastIsTail(s, 1);
    var b, id := Replay(s.history), s.encodeQue[0];
    LiveOnce(b, id);
    if s.writeSliceNum == 1 {
      ReplaySnoc(s.history, WriteDone(id));
      var b' := Apply(b, WriteDone(id));
      ApplyKeepsSound(b, WriteDone(id));
      if b'.inbox != [] { LiveOnce(b', b'.inbox[0]); }
    }
  }

  lemma AdvanceWriterLoses(s: State)
    requires LinkedBut(s, 1) && s.encodeQue != []
    requires s.writeSliceNum == 1 && s.lastBankId == -1
    ensures var r := AdvanceWriter(s);
      s.encodeQue[0] in r.decodeQue && s.encodeQue[0] !in r.queueMap && !Legal(r.history)
  {
    hide Heap, Depths, Legal, Replay, Exclusive;
    LegalIsSound(s.history);
    LiveOnce(Replay(s.history), s.encodeQue[0]);
    LastIsTail(s, 1);
    ReplaySnoc(s.history, WriteDone(s.encodeQue[0]));
  }

  lemma WriteKeepsLinked(s: State)
    requires Linked(s)
    ensures Linked(Write(s)) <==> !LosesPacket(s)
    ensures LosesPacket(s) ==> s.encodeQue[0] in Write(s).decodeQue && s.encodeQue[0] !in Write(s).queueMap
    ensures LosesPacket(s) ==> !Legal(Write(s).history)
  {
    hide Heap, Depths, Legal, Replay, Exclusive;
    if s.encodeQue != [] {
      PlaceSliceKeepsLinked(s);
      var p := PlaceSlice(s);
      if LosesPacket(s) {
        AdvanceWriterLoses(p);
      } else {
        AdvanceWriterKeepsLinked(p);
      }
    }
  }

  // ---- The initial state and the clock edge ----

  lemma {:induction false} FreshRowIsFree(n: nat)
    ensures CountFree(seq(n, _ => FREE_SLICE)) == n
  {
    if n > 0 {
      FreshRowIsFree(n - 1);
      assert seq(n, _ => FREE_SLICE)[..n - 1] == seq(n - 1, _ => FREE_SLICE);
    }
  }

  lemma InitIsLinked(bankNum: int, sliceNum: int)
    requires bankNum >= 1 && sliceNum >= 1
    ensures Linked(Init(bankNum, sliceNum))
  {
    FreshRowIsFree(sliceNum);
  }

  lemma ClockKeepsLinked(s: State)
    requires Linked(s)
    ensures Linked(Process(s)) <==> !LosesPacket(ReadSide(s))
    ensures LosesPacket(ReadSide(s)) ==> !Legal(Process(s).history)
  {
    hide Heap, Depths, Replay, Legal, ReadSide, Write;
    var r := ReadSide(s);
    ReadSideKeepsLinked(s);
    WriteKeepsLinked(r);
    var w := Write(r);
    assert Process(s) == w.(readBankIdVec := seq(w.bankNum, _ => 0));
  }
}
