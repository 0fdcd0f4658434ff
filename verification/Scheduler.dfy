/** What the head loop does to the packets in service during one cycle. */
module Scheduler {
  import opened Types
  import opened Spec
  import opened SimpleBuffer
  import opened HeapShape
  import opened Refinement

  /** In how many cycles the countdowns of a head let it read: 1 means in the coming one. */
  function Next(e: QueueInfo): int {
    if e.delay > 0 then e.delay + e.counter - 1 else e.counter
  }

  /** A head's counter is 1 to 4, and is 4 while its delay, at most 4, is positive. */
  predicate TimerOk(e: QueueInfo) {
    1 <= e.counter <= READ_DELAY && 0 <= e.delay <= READ_DELAY && (e.delay > 0 ==> e.counter == READ_DELAY)
  }

  ghost predicate Timed(s: State) {
    forall id :: id in s.queueMap ==>
      TimerOk(s.queueMap[id])
      && (id !in s.decodeQueHead ==> s.queueMap[id].counter == READ_DELAY && s.queueMap[id].delay == 0)
  }

  function ChainOf(s: State, id: int): seq<Loc> {
    Chain(Replay(s.history), id)
  }

  /** What happens to the other heads while head id is visited: nothing. */
  ghost predicate SameFor(s: State, r: State, q: int) {
    && (q in r.queueMap <==> q in s.queueMap)
    && (q in s.queueMap ==> r.queueMap[q] == s.queueMap[q])
    && (q in r.decodeQueHead <==> q in s.decodeQueHead)
    && ChainOf(r, q) == ChainOf(s, q)
  }

  datatype Outcome = Waits | Loses | Wins

  function Decide(s: State, id: int): Outcome
    requires Bounded(s) && id in s.queueMap
  {
    if Next(s.queueMap[id]) > 1 then Waits
    else if s.readBankIdVec[s.queueMap[id].bankId] == 1 then Loses
    else Wins
  }

  /** Head id moved from s to r with outcome o: it waits one cycle less, tries again in the next cycle, or hands over
      the first slice of its chain and then either comes back in 4 cycles or, after the last slice, leaves. */
  ghost predicate Moved(s: State, r: State, id: int, o: Outcome)
    requires id in s.queueMap
  {
    match o
    case Waits => id in r.decodeQueHead && id in r.queueMap && Next(s.queueMap[id]) > 1
      && Next(r.queueMap[id]) == Next(s.queueMap[id]) - 1 && ChainOf(r, id) == ChainOf(s, id)
    case Loses => id in r.decodeQueHead && id in r.queueMap && Next(s.queueMap[id]) == 1
      && Next(r.queueMap[id]) == 1 && ChainOf(r, id) == ChainOf(s, id)
    case Wins =>
      && Next(s.queueMap[id]) == 1 && ChainOf(s, id) != [] && ChainOf(r, id) == ChainOf(s, id)[1..]
      && (if ChainOf(r, id) == [] then id !in r.decodeQueHead
          else id in r.decodeQueHead && id in r.queueMap && Next(r.queueMap[id]) == READ_DELAY)
  }

  /** The entry of head id in queue_map, member by member: a delay is counted down before the counter; a head that loses
      tries again in the next cycle; one that wins points to its next slice, to be read in 4 cycles, or has no entry. */
  ghost predicate EntryMoved(s: State, r: State, id: int, o: Outcome)
    requires id in s.queueMap
  {
    var e, c := s.queueMap[id], ChainOf(s, id);
    match o
    case Waits => id in r.queueMap && r.queueMap[id] ==
      if e.delay > 1 then QueueInfo(e.bankId, e.sliceId, 4, e.delay - 1)
      else QueueInfo(e.bankId, e.sliceId, e.counter - 1, 0)
    case Loses => id in r.queueMap && r.queueMap[id] == QueueInfo(e.bankId, e.sliceId, 1, 0)
    case Wins =>
      if |c| > 1 then id in r.queueMap && r.queueMap[id] == QueueInfo(c[1].bank, c[1].slot, 4, 0)
      else id !in r.queueMap
  }

  /** The memory after head id moved: only a head that wins changes it, by emptying the slot of its first slice. */
  ghost predicate MemoryMoved(s: State, r: State, id: int, o: Outcome) {
    if o == Wins then
      var c := ChainOf(s, id);
      c != [] && Has(s.encodeVec, c[0]) && r.encodeVec == Put(s.encodeVec, c[0], Slice(0, -1, -1, -1, -1, -1))
    else r.encodeVec == s.encodeVec
  }

  lemma TickMovesEntry(e: QueueInfo)
    requires TimerOk(e)
    ensures Tick(e) ==
      if Next(e) == 1 then Ticked(QueueInfo(e.bankId, e.sliceId, 0, 0), true)
      else if e.delay > 1 then Ticked(QueueInfo(e.bankId, e.sliceId, 4, e.delay - 1), false)
      else Ticked(QueueInfo(e.bankId, e.sliceId, e.counter - 1, 0), false)
  {}

  lemma ReleaseMovesEntry(s: State, i: int)
    requires Linked(s) && 0 <= i < |s.decodeQueHead| && s.decodeQueHead[i] in s.queueMap
    ensures EntryMoved(s, Release(s, i).s, s.decodeQueHead[i], Wins)
    ensures MemoryMoved(s, Release(s, i).s, s.decodeQueHead[i], Wins)
  {
    hide Legal, Replay, Depths, LinkInRange, Heap, Put, Exclusive, WriterAt, Short, Queues;
    ReleasedHeap(s, s.decodeQueHead[i]);
    ReleasesFirst(s, s.decodeQueHead[i]);
  }

  lemma ReleasesFirst(s: State, id: int)
    requires Linked(s) && id in s.queueMap
    ensures var c := ChainOf(s, id); c != [] && c[0] == Loc(s.queueMap[id].bankId, s.queueMap[id].sliceId)
  {
    hide Heap, Depths, Legal, Replay;
  }

  lemma RetimedMoves(s: State, s': State, r: State, id: int)
    requires id in s.queueMap && id in s'.queueMap && s'.encodeVec == s.encodeVec && s'.history == s.history
    requires EntryMoved(s', r, id, Wins) && MemoryMoved(s', r, id, Wins)
    ensures EntryMoved(s, r, id, Wins) && MemoryMoved(s, r, id, Wins)
  {}

  lemma VisitMovesEntry(s: State, i: int)
    requires Linked(s) && Timed(s) && 0 <= i < |s.decodeQueHead| && s.decodeQueHead[i] in s.queueMap
    ensures var id := s.decodeQueHead[i];
      EntryMoved(s, Visit(s, i).s, id, Decide(s, id)) && MemoryMoved(s, Visit(s, i).s, id, Decide(s, id))
  {
    hide Legal, Replay, Depths, LinkInRange, Heap, Put, Exclusive, Tick, Release, ChainOf, WriterAt, Short, Queues;
    var id := s.decodeQueHead[i];
    TickMovesEntry(s.queueMap[id]);
    var s' := s.(queueMap := s.queueMap[id := Tick(s.queueMap[id]).info]);
    if Decide(s, id) == Wins {
      RetimeKeepsLinked(s, s');
      ReleaseMovesEntry(s', i);
      RetimedMoves(s, s', Release(s', i).s, id);
    }
  }

  lemma TickCounts(e: QueueInfo)
    requires TimerOk(e)
    ensures Tick(e).due <==> Next(e) == 1
    ensures Tick(e).info.bankId == e.bankId && Tick(e).info.sliceId == e.sliceId
    ensures !Tick(e).due ==> TimerOk(Tick(e).info) && Next(Tick(e).info) == Next(e) - 1
    ensures Tick(e).info.delay < READ_DELAY
    ensures Tick(e).due ==> Tick(e).info.counter == 0 && Tick(e).info.delay == 0
  {}

  lemma VisitMoves(s: State, i: int)
    requires Linked(s) && Timed(s) && 0 <= i < |s.decodeQueHead|
    ensures s.decodeQueHead[i] in s.queueMap
    ensures
      var id, v := s.decodeQueHead[i], Visit(s, i);
      var o := Decide(s, id);
      && Moved(s, v.s, id, o) && EntryMoved(s, v.s, id, o) && MemoryMoved(s, v.s, id, o)
      && (v.erased <==> o == Wins && |ChainOf(s, id)| == 1)
      && (id in v.s.queueMap <==> !v.erased)
      && (id in v.s.queueMap ==> TimerOk(v.s.queueMap[id]) && v.s.queueMap[id].delay < READ_DELAY)
      && (v.s.readBankIdVec ==
            if o == Wins then s.readBankIdVec[s.queueMap[id].bankId := 1] else s.readBankIdVec)
      && (v.s.decodeQueHead ==
            if v.erased then s.decodeQueHead[..i] + s.decodeQueHead[i + 1..] else s.decodeQueHead)
  {
    hide Heap, Depths, Legal, Replay, Exclusive, LinkInRange, EntryMoved, MemoryMoved;
    var id, v := s.decodeQueHead[i], Visit(s, i);
    LegalIsSound(s.history);
    assert id in Replay(s.history).service;
    VisitMovesEntry(s, i);
    TickCounts(s.queueMap[id]);
    var t := Tick(s.queueMap[id]);
    var s' := s.(queueMap := s.queueMap[id := t.info]);
    RetimeKeepsLinked(s, s');
    if Decide(s, id) == Loses {
      ConflictKeepsLinked(s', id);
    } else if Decide(s, id) == Wins {
      ReleaseKeepsLinked(s', i);
      var c := ChainOf(s, id);
      if |c| == 1 {
        assert c[1..] == [];
        assert Live(Replay(s.history))[..|s.decodeQueHead|] == s.decodeQueHead;
        WithoutIsRemoval(s.decodeQueHead, i);
      }
    }
  }

  lemma LinkedHeads(s: State)
    requires Linked(s)
    ensures NoDup(s.decodeQueHead)
    ensures forall h :: h in s.decodeQueHead ==> h in s.queueMap && h !in s.decodeQue && h !in s.encodeQue
  {
    hide Heap, Depths, Legal, Replay, Exclusive;
    var b := Replay(s.history);
    LegalIsSound(s.history);
    assert Live(b)[..|b.service|] == b.service;
    forall h | h in b.service ensures h in b.chain && h !in b.ready && h !in b.inbox { LiveOnce(b, h); }
  }

  lemma ReleaseSpares(s: State, i: int, q: int)
    requires Linked(s) && 0 <= i < |s.decodeQueHead| && q != s.decodeQueHead[i] && s.decodeQueHead[i] in s.queueMap
    ensures SameFor(s, Release(s, i).s, q)
  {
    hide Heap, Depths, Legal, Replay, LinkInRange, Put, Pointers, Short, WriterAt;
    ReleaseKeepsLinked(s, i);
  }

  lemma VisitSpares(s: State, i: int, q: int)
    requires Linked(s) && 0 <= i < |s.decodeQueHead| && q != s.decodeQueHead[i]
    ensures SameFor(s, Visit(s, i).s, q)
  {
    hide Heap, Depths, Legal, Replay, LinkInRange, Put, Release, Tick, Short, WriterAt;
    var id := s.decodeQueHead[i];
    LinkedHeads(s);
    TickKeepsPlace(s.queueMap[id]);
    var t := Tick(s.queueMap[id]);
    var s' := s.(queueMap := s.queueMap[id := t.info]);
    RetimeKeepsLinked(s, s');
    if t.due {
      if s.readBankIdVec[t.info.bankId] == 1 {
        ConflictKeepsLinked(s', id);
      } else {
        ReleaseSpares(s', i, q);
      }
    }
  }

  lemma TickKeepsPlace(e: QueueInfo)
    ensures Tick(e).info.bankId == e.bankId && Tick(e).info.sliceId == e.sliceId
  {}

  lemma VisitKeepsTimed(s: State, i: int)
    requires Linked(s) && Timed(s) && 0 <= i < |s.decodeQueHead|
    ensures Timed(Visit(s, i).s)
  {
    hide Heap, Depths, Legal, Replay, Visit;
    VisitMoves(s, i);
    var r := Visit(s, i).s;
    forall q | q in r.queueMap
      ensures TimerOk(r.queueMap[q])
      ensures q !in r.decodeQueHead ==> r.queueMap[q].counter == READ_DELAY && r.queueMap[q].delay == 0
    {
      if q != s.decodeQueHead[i] { VisitSpares(s, i, q); }
    }
  }

  // ---- The whole loop ----

  /** The heads in front of id. */
  function Ahead(h: seq<int>, id: int): set<int> {
    if h == [] || h[0] == id then {} else {h[0]} + Ahead(h[1..], id)
  }

  lemma {:induction false} AheadWithout(h: seq<int>, x: int, id: int)
    requires id != x
    ensures Ahead(Without(h, x), id) == Ahead(h, id) - {x}
  {
    if h != [] { AheadWithout(h[1..], x, id); }
  }

  lemma {:induction false} AheadHas(h: seq<int>, j: nat, k: nat)
    requires NoDup(h) && j < k < |h|
    ensures h[j] in Ahead(h, h[k])
  {
    if j > 0 { AheadHas(h[1..], j - 1, k - 1); }
  }

  lemma {:induction false} AheadOnly(h: seq<int>, k: nat)
    requires k < |h|
    ensures forall q :: q in Ahead(h, h[k]) ==> q in h[..k]
  {
    if h[0] != h[k] {
      AheadOnly(h[1..], k - 1);
      assert h[..k] == [h[0]] + h[1..][..k - 1];
    }
  }

  lemma {:induction false} AheadIn(h: seq<int>, id: int)
    ensures forall q :: q in Ahead(h, id) ==> q in h && q != id
  {
    if h != [] && h[0] != id { AheadIn(h[1..], id); }
  }

  /** Heads q and id are both due and their next slices are in the same bank. */
  ghost predicate Contends(o: State, q: int, id: int)
    requires id in o.queueMap
  {
    q in o.queueMap && Next(o.queueMap[q]) == 1 && o.queueMap[q].bankId == o.queueMap[id].bankId
  }

  /** What has become of head id of o in r: it waits; or it is due and no head in front of it contends with it, so it
      wins; or one does and has won. */
  ghost predicate Seen(o: State, r: State, id: int) {
    && id in o.queueMap
    && (id in r.queueMap ==> r.queueMap[id].delay < READ_DELAY)
    && (|| Moved(o, r, id, Waits)
        || (Moved(o, r, id, Wins) && forall q :: q in Ahead(o.decodeQueHead, id) ==> !Contends(o, q, id))
        || (Moved(o, r, id, Loses)
            && exists q :: q in Ahead(o.decodeQueHead, id) && Contends(o, q, id) && Moved(o, r, q, Wins)))
  }

  /** How many heads the loop has visited. */
  function Done(o: State, s: State, i: int): int {
    |o.decodeQueHead| - (|s.decodeQueHead| - i)
  }

  ghost predicate SeenUpTo(o: State, s: State, n: int)
    requires n <= |o.decodeQueHead|
  {
    forall k :: 0 <= k < n ==> Seen(o, s, o.decodeQueHead[k])
  }

  ghost predicate SameFrom(o: State, s: State, n: int)
    requires 0 <= n
  {
    forall k :: n <= k < |o.decodeQueHead| ==> SameFor(o, s, o.decodeQueHead[k])
  }

  /** The banks marked as read are those of the due heads among the first n, and one of these has won each. */
  ghost predicate Flagged(o: State, s: State, n: int)
    requires n <= |o.decodeQueHead|
  {
    && (forall b :: 0 <= b < |s.readBankIdVec| && s.readBankIdVec[b] == 1 ==> exists k :: Winner(o, s, k, n, b))
    && (forall k :: 0 <= k < n ==> MarkedIfDue(o, s, o.decodeQueHead[k]))
  }

  ghost predicate MarkedIfDue(o: State, s: State, id: int) {
    && id in o.queueMap && 0 <= o.queueMap[id].bankId < |s.readBankIdVec|
    && (Next(o.queueMap[id]) == 1 ==> s.readBankIdVec[o.queueMap[id].bankId] == 1)
  }

  /** The heads that are left keep their order. */
  ghost predicate InOrder(o: State, s: State) {
    forall h :: h in s.decodeQueHead ==>
      h in o.decodeQueHead && Ahead(s.decodeQueHead, h) <= Ahead(o.decodeQueHead, h)
  }

  /** The loop started in o and is at list position i of s. */
  ghost predicate LoopInv(o: State, s: State, i: int) {
    && Linked(o) && Linked(s) && Timed(s)
    && 0 <= i <= |s.decodeQueHead| <= |o.decodeQueHead|
    && s.decodeQueHead[i..] == o.decodeQueHead[Done(o, s, i)..]
    && SeenUpTo(o, s, Done(o, s, i)) && SameFrom(o, s, Done(o, s, i))
    && Flagged(o, s, Done(o, s, i)) && InOrder(o, s)
  }

  /** The k-th head of o, one of the first n, has read bank b. */
  ghost predicate Winner(o: State, s: State, k: int, n: int, b: int) {
    && 0 <= k < n <= |o.decodeQueHead| && o.decodeQueHead[k] in o.queueMap
    && o.queueMap[o.decodeQueHead[k]].bankId == b && Moved(o, s, o.decodeQueHead[k], Wins)
  }

  lemma SeenIsKept(o: State, s: State, r: State, id: int)
    requires Seen(o, s, id) && SameFor(s, r, id)
    requires forall q :: q in Ahead(o.decodeQueHead, id) ==> SameFor(s, r, q)
    ensures Seen(o, r, id)
  {
    hide ChainOf, Next;
    if !Moved(o, s, id, Waits) && !Moved(o, s, id, Wins) {
      var q :| q in Ahead(o.decodeQueHead, id) && Contends(o, q, id) && q in o.queueMap && Moved(o, s, q, Wins);
      assert Moved(o, r, q, Wins);
    }
  }

  lemma LoopAt(o: State, s: State, i: int)
    requires LoopInv(o, s, i) && i < |s.decodeQueHead|
    ensures o.decodeQueHead[Done(o, s, i)] == s.decodeQueHead[i]
    ensures NoDup(o.decodeQueHead) && s.decodeQueHead[i] in o.queueMap && s.decodeQueHead[i] in s.queueMap
  {
    hide Heap, Depths, Legal, Replay, Timed, SameFrom, SeenUpTo, Flagged, InOrder;
    LinkedHeads(o);
    LinkedHeads(s);
  }

  lemma StepSeenOld(o: State, s: State, i: int, k: int)
    requires LoopInv(o, s, i) && i < |s.decodeQueHead| && 0 <= k < Done(o, s, i)
    ensures Seen(o, Visit(s, i).s, o.decodeQueHead[k])
  {
    hide Heap, Depths, Legal, Replay, Timed, SameFrom, Flagged, InOrder, ChainOf, Moved, Seen, Visit, SameFor;
    LoopAt(o, s, i);
    AheadOnly(o.decodeQueHead, k);
    var r := Visit(s, i).s;
    forall q | q in o.decodeQueHead[..Done(o, s, i)] ensures SameFor(s, r, q) { VisitSpares(s, i, q); }
    SeenIsKept(o, s, r, o.decodeQueHead[k]);
  }

  lemma WinnerIsKept(o: State, s: State, i: int, k: int, b: int)
    requires LoopInv(o, s, i) && i < |s.decodeQueHead| && Winner(o, s, k, Done(o, s, i), b)
    ensures Winner(o, Visit(s, i).s, k, Done(o, s, i) + 1, b)
    ensures o.decodeQueHead[k] in Ahead(o.decodeQueHead, s.decodeQueHead[i])
  {
    hide Heap, Depths, Legal, Replay, Timed, SameFrom, SeenUpTo, Flagged, InOrder, ChainOf, Visit, Next;
    LoopAt(o, s, i);
    AheadHas(o.decodeQueHead, k, Done(o, s, i));
    VisitSpares(s, i, o.decodeQueHead[k]);
  }

  /** What the visited head finds: the flag of its bank tells whether a head in front of it contends. */
  lemma FlagTells(o: State, s: State, i: int)
    requires LoopInv(o, s, i) && i < |s.decodeQueHead|
    ensures var id := s.decodeQueHead[i];
      && id in o.queueMap && id in s.queueMap && SameFor(o, s, id)
      && (s.readBankIdVec[s.queueMap[id].bankId] == 1 ==>
            exists k :: Winner(o, s, k, Done(o, s, i), s.queueMap[id].bankId))
      && (s.readBankIdVec[s.queueMap[id].bankId] != 1 ==>
            forall q :: q in Ahead(o.decodeQueHead, id) ==> !Contends(o, q, id))
  {
    hide Heap, Depths, Legal, Replay, Timed, SeenUpTo, InOrder, ChainOf, Visit, Next, LinkInRange;
    LoopAt(o, s, i);
    var p, id := Done(o, s, i), s.decodeQueHead[i];
    AheadOnly(o.decodeQueHead, p);
    assert SameFor(o, s, o.decodeQueHead[p]);
    forall q | q in Ahead(o.decodeQueHead, id) ensures MarkedIfDue(o, s, q) {
      var k :| 0 <= k < p && o.decodeQueHead[k] == q;
    }
  }

  lemma StepSeenNew(o: State, s: State, i: int)
    requires LoopInv(o, s, i) && i < |s.decodeQueHead|
    ensures Seen(o, Visit(s, i).s, s.decodeQueHead[i])
  {
    hide Heap, Depths, Legal, Replay, Timed, SeenUpTo, Flagged, SameFrom, InOrder, ChainOf, Visit, Next, LinkInRange;
    VisitMoves(s, i);
    FlagTells(o, s, i);
    var p, id, r := Done(o, s, i), s.decodeQueHead[i], Visit(s, i).s;
    var d := Decide(s, id);
    assert Moved(o, r, id, d);
    if d == Loses {
      var k :| Winner(o, s, k, p, s.queueMap[id].bankId);
      WinnerIsKept(o, s, i, k, s.queueMap[id].bankId);
      assert Contends(o, o.decodeQueHead[k], id);
    }
  }

  lemma StepMarked(o: State, s: State, i: int, k: int)
    requires LoopInv(o, s, i) && i < |s.decodeQueHead| && 0 <= k <= Done(o, s, i) < |o.decodeQueHead|
    ensures MarkedIfDue(o, Visit(s, i).s, o.decodeQueHead[k])
  {
    hide Heap, Depths, Legal, Replay, Timed, SeenUpTo, InOrder, ChainOf, Visit, Next, LinkInRange, SameFrom;
    LoopAt(o, s, i);
    VisitMoves(s, i);
    FlagTells(o, s, i);
  }

  lemma StepMoves(o: State, s: State, i: int)
    requires LoopInv(o, s, i) && i < |s.decodeQueHead|
    ensures var id, r := s.decodeQueHead[i], Visit(s, i).s;
      && id in o.queueMap && id in s.queueMap && o.queueMap[id] == s.queueMap[id]
      && Moved(o, r, id, Decide(s, id))
      && (r.readBankIdVec ==
            if Decide(s, id) == Wins then s.readBankIdVec[s.queueMap[id].bankId := 1] else s.readBankIdVec)
  {
    hide Heap, Depths, Legal, Replay, Timed, SeenUpTo, Flagged, InOrder, ChainOf, Visit, Next, LinkInRange;
    LoopAt(o, s, i);
    VisitMoves(s, i);
    assert SameFor(o, s, o.decodeQueHead[Done(o, s, i)]);
  }

  lemma StepFlagged(o: State, s: State, i: int)
    requires LoopInv(o, s, i) && i < |s.decodeQueHead|
    ensures Done(o, s, i) + 1 <= |o.decodeQueHead| && Flagged(o, Visit(s, i).s, Done(o, s, i) + 1)
  {
    hide Linked, Timed, SeenUpTo, InOrder, Moved, Visit, Next, SameFrom, MarkedIfDue, Decide;
    LinkedIsBounded(s);
    LoopAt(o, s, i);
    StepMoves(o, s, i);
    var p, r := Done(o, s, i), Visit(s, i).s;
    var n := p + 1;
    forall b | 0 <= b < |r.readBankIdVec| && r.readBankIdVec[b] == 1 ensures exists k :: Winner(o, r, k, n, b) {
      if s.readBankIdVec[b] == 1 {
        var k :| Winner(o, s, k, p, b);
        WinnerIsKept(o, s, i, k, b);
      } else {
        assert Winner(o, r, p, n, b);
      }
    }
    forall k | 0 <= k < n ensures MarkedIfDue(o, r, o.decodeQueHead[k]) { StepMarked(o, s, i, k); }
  }

  lemma StepInOrder(o: State, s: State, i: int)
    requires LoopInv(o, s, i) && i < |s.decodeQueHead|
    ensures InOrder(o, Visit(s, i).s)
  {
    hide Heap, Depths, Legal, Replay, Timed, SeenUpTo, SameFrom, Flagged, Moved, Visit;
    VisitMoves(s, i);
    LinkedHeads(s);
    var v := Visit(s, i);
    if v.erased {
      WithoutIsRemoval(s.decodeQueHead, i);
      forall h | h in v.s.decodeQueHead ensures Ahead(v.s.decodeQueHead, h) <= Ahead(s.decodeQueHead, h) {
        AheadWithout(s.decodeQueHead, s.decodeQueHead[i], h);
      }
    }
  }

  lemma StepSameFrom(o: State, s: State, i: int)
    requires LoopInv(o, s, i) && i < |s.decodeQueHead|
    ensures SameFrom(o, Visit(s, i).s, Done(o, s, i) + 1)
  {
    hide Heap, Depths, Legal, Replay, Timed, SeenUpTo, Flagged, InOrder, ChainOf, Visit;
    LoopAt(o, s, i);
    forall k | Done(o, s, i) < k < |o.decodeQueHead| ensures SameFor(o, Visit(s, i).s, o.decodeQueHead[k]) {
      VisitSpares(s, i, o.decodeQueHead[k]);
    }
  }

  lemma StepPosition(o: State, s: State, i: int)
    requires LoopInv(o, s, i) && i < |s.decodeQueHead|
    ensures var v := Visit(s, i);
      var j := if v.erased then i else i + 1;
      && 0 <= j <= |v.s.decodeQueHead| <= |o.decodeQueHead| && Done(o, v.s, j) == Done(o, s, i) + 1
      && v.s.decodeQueHead[j..] == o.decodeQueHead[Done(o, s, i) + 1..]
  {
    hide Heap, Depths, Legal, Replay, Timed, Moved, SeenUpTo, SameFrom, Flagged, InOrder, Visit;
    VisitMoves(s, i);
    LoopAt(o, s, i);
    assert s.decodeQueHead[i + 1..] == o.decodeQueHead[Done(o, s, i) + 1..] by {
      assert s.decodeQueHead[i..][1..] == o.decodeQueHead[Done(o, s, i)..][1..];
    }
  }

  lemma LoopInvStep(o: State, s: State, i: int)
    requires LoopInv(o, s, i) && i < |s.decodeQueHead|
    ensures var v := Visit(s, i); LoopInv(o, v.s, if v.erased then i else i + 1)
  {
    hide Linked, Timed, Seen, SameFrom, Flagged, InOrder, Visit;
    assert Bounded(s) by { LinkedIsBounded(s); }
    var p, v := Done(o, s, i), Visit(s, i);
    VisitKeepsLinked(s, i);
    VisitKeepsTimed(s, i);
    LoopAt(o, s, i);
    StepPosition(o, s, i);
    StepSeenNew(o, s, i);
    StepFlagged(o, s, i);
    StepInOrder(o, s, i);
    StepSameFrom(o, s, i);
    forall k | 0 <= k < p ensures Seen(o, v.s, o.decodeQueHead[k]) { StepSeenOld(o, s, i, k); }
  }

  lemma LinkedIsBounded(s: State)
    requires Linked(s)
    ensures Bounded(s)
  {}

  lemma {:induction false} LoopInvHolds(o: State, s: State, i: int, erased: bool)
    requires LoopInv(o, s, i) && (erased <==> |s.decodeQueHead| < |o.decodeQueHead|)
    ensures erased ==> |s.decodeQueHead| < LINK_NUM
    ensures
      var v := HeadLoop(s, i, erased);
      && LoopInv(o, v.s, |v.s.decodeQueHead|)
      && (v.erased <==> |v.s.decodeQueHead| < |o.decodeQueHead|)
    decreases |s.decodeQueHead| - i
  {
    hide Heap, Depths, Legal, Replay, Timed, SameFrom, SeenUpTo, Flagged, InOrder, Visit;
    if i < |s.decodeQueHead| {
      LoopInvStep(o, s, i);
      var v := Visit(s, i);
      LoopInvHolds(o, v.s, if v.erased then i else i + 1, erased || v.erased);
    }
  }
}
