/** How many slices are stored, counted in four ways: in the memory, by the depths, by the events, by the chains. */
module Occupancy {
  import opened Types
  import opened Spec
  import opened SimpleBuffer
  import opened HeapShape
  import opened Refinement
  import opened Ledger

  // ---- In the memory ----

  /** The number of slots in use. */
  function Occupied(mem: Memory): int {
    if mem == [] then 0
    else Occupied(mem[..|mem| - 1]) + |mem[|mem| - 1]| - CountFree(mem[|mem| - 1])
  }

  lemma {:induction false} OccupiedByDepths(mem: Memory, deep: seq<int>, sliceNum: int)
    requires Depths(mem, deep) && forall b :: 0 <= b < |mem| ==> |mem[b]| == sliceNum
    ensures Occupied(mem) == |mem| * sliceNum - Sum(deep)
  {
    if mem != [] { OccupiedByDepths(mem[..|mem| - 1], deep[..|mem| - 1], sliceNum); }
  }

  lemma OccupiedByEvents(s: State)
    requires Linked(s) && BankLedger(s)
    ensures Occupied(s.encodeVec) == Tally(s.history, AnyAllocation) - Tally(s.history, AnyRelease)
  {
    hide Heap, Legal, Replay, Tally, Occupied, Sum;
    OccupiedByDepths(s.encodeVec, s.bankDeepVec, s.sliceNum);
  }

  lemma {:induction false} OccupiedAtLeast(mem: Memory, b: nat)
    requires b < |mem|
    ensures Occupied(mem) >= |mem[b]| - CountFree(mem[b])
  {
    var rest, last := mem[..|mem| - 1], mem[|mem| - 1];
    CountFreeRange(last);
    if b < |rest| { OccupiedAtLeast(rest, b); } else { OccupiedIsNatural(rest); }
  }

  lemma {:induction false} OccupiedIsNatural(mem: Memory)
    ensures Occupied(mem) >= 0
  {
    if mem != [] {
      OccupiedIsNatural(mem[..|mem| - 1]);
      CountFreeRange(mem[|mem| - 1]);
    }
  }

  /** With fewer slices stored than one bank can hold, every write finds a slot, whichever banks are read. */
  lemma SmallStockHasRoom(s: State)
    requires Linked(s) && Occupied(s.encodeVec) < s.sliceNum
    ensures Target(s).slot < s.sliceNum
  {
    hide Heap, Legal, Replay, CountFree, FirstFree, Occupied;
    OccupiedAtLeast(s.encodeVec, Target(s).bank);
    CountFreeRange(s.encodeVec[Target(s).bank]);
  }

  // ---- By the chains ----

  function Length(chain: map<int, seq<Loc>>, id: int): nat {
    if id in chain then |chain[id]| else 0
  }

  function Total(chain: map<int, seq<Loc>>, ids: seq<int>): nat {
    if ids == [] then 0 else Total(chain, ids[..|ids| - 1]) + Length(chain, ids[|ids| - 1])
  }

  lemma {:induction false} TotalOfBoth(chain: map<int, seq<Loc>>, a: seq<int>, b: seq<int>)
    ensures Total(chain, a + b) == Total(chain, a) + Total(chain, b)
  {
    if b == [] {
      assert a + b == a;
    } else {
      TotalOfBoth(chain, a, b[..|b| - 1]);
      assert (a + b)[..|a + b| - 1] == a + b[..|b| - 1];
    }
  }

  lemma {:induction false} TotalElsewhere(c: map<int, seq<Loc>>, d: map<int, seq<Loc>>, ids: seq<int>)
    requires forall i :: i in ids ==> Length(c, i) == Length(d, i)
    ensures Total(c, ids) == Total(d, ids)
  {
    if ids != [] { TotalElsewhere(c, d, ids[..|ids| - 1]); }
  }

  lemma TotalUpdate(c: map<int, seq<Loc>>, ids: seq<int>, id: int, x: seq<Loc>)
    requires NoDup(ids) && id in ids
    ensures Total(c[id := x], ids) == Total(c, ids) - Length(c, id) + |x|
  {
    hide Total;
    var d := c[id := x];
    var k :| 0 <= k < |ids| && ids[k] == id;
    var a, b := ids[..k], ids[k + 1..];
    SplitAt(ids, k);
    TotalOfBoth(c, a + [id], b);
    TotalOfBoth(d, a + [id], b);
    TotalOfBoth(c, a, [id]);
    TotalOfBoth(d, a, [id]);
    TotalElsewhere(c, d, a);
    TotalElsewhere(c, d, b);
    TotalOfOne(c, id);
    TotalOfOne(d, id);
  }

  lemma TotalOfOne(c: map<int, seq<Loc>>, id: int)
    ensures Total(c, [id]) == Length(c, id)
  {
    assert [id][..0] == [];
  }

  lemma TotalWithout(b: Buffer, id: int)
    requires Sound(b) && Allowed(b, DecodeErase(id))
    ensures Total(Apply(b, DecodeErase(id)).chain, Live(Apply(b, DecodeErase(id)))) == Total(b.chain, Live(b))
  {
    hide Total, Exclusive, Live;
    var x, y := EraseSplits(b, id);
    TotalOfBoth(b.chain, x + [id], y);
    TotalOfBoth(b.chain, x, [id]);
    TotalOfBoth(b.chain, x, y);
    TotalOfOne(b.chain, id);
    TotalElsewhere(b.chain, b.chain - {id}, x + y);
  }

  /** What was stored and not yet released is what the chains of the packets inside the buffer hold. */
  lemma {:induction false} TotalByEvents(t: seq<Event>)
    requires Legal(t)
    ensures Total(Replay(t).chain, Live(Replay(t))) == Tally(t, AnyAllocation) - Tally(t, AnyRelease)
  {
    if t != [] {
      var u, e := t[..|t| - 1], t[|t| - 1];
      TotalByEvents(u);
      LegalIsSound(u);
      TotalAfter(Replay(u), e);
    }
  }

  lemma TotalAfter(b: Buffer, e: Event)
    requires Sound(b) && Allowed(b, e)
    ensures Total(Apply(b, e).chain, Live(Apply(b, e))) == Total(b.chain, Live(b))
      + (if e.WriteAllocate? then 1 else 0) - (if e.ReadRelease? then 1 else 0)
  {
    hide Total, Exclusive, Stored, NoDup;
    var d := Apply(b, e);
    match e
    case Received(id) =>
      assert Live(d) == Live(b) + [id];
      TotalOfBoth(b.chain, Live(b), [id]);
      TotalOfOne(b.chain, id);
    case PutInService(id) =>
      assert b.ready == [id] + b.ready[1..];
      assert Live(d) == Live(b);
    case WriteDone(id) =>
      assert b.inbox == [id] + b.inbox[1..];
      assert Live(d) == Live(b);
    case DecodeErase(id) => TotalWithout(b, id);
    case WriteAllocate(id, l) => TotalUpdate(b.chain, Live(b), id, Chain(b, id) + [l]);
    case ReadRelease(id, l) => TotalUpdate(b.chain, Live(b), id, Chain(b, id)[1..]);
    case _ =>
  }

  /** Each reception of a packet id has ended in an erase, or the packet is inside the buffer. */
  lemma {:induction false} LiveByEvents(t: seq<Event>, id: int)
    requires Legal(t)
    ensures Tally(t, ReceivedOf(id)) == Tally(t, ErasedOf(id)) + if id in Live(Replay(t)) then 1 else 0
  {
    if t != [] {
      var u, e := t[..|t| - 1], t[|t| - 1];
      LiveByEvents(u, id);
      LegalIsSound(u);
      hide Apply, Allowed, Live;
      LiveAfter(Replay(u), e, id);
    }
  }

  lemma LiveAfter(b: Buffer, e: Event, id: int)
    requires Sound(b) && Allowed(b, e)
    ensures e == Received(id) ==> id !in Live(b)
    ensures e == DecodeErase(id) ==> id in Live(b)
    ensures id in Live(Apply(b, e)) <==> (id in Live(b) || e == Received(id)) && e != DecodeErase(id)
  {
    hide Exclusive;
    var d := Apply(b, e);
    match e
    case Received(i) => assert Live(d) == Live(b) + [i];
    case PutInService(i) =>
      assert b.ready == [i] + b.ready[1..];
      assert Live(d) == Live(b);
    case WriteDone(i) =>
      assert b.inbox == [i] + b.inbox[1..];
      assert Live(d) == Live(b);
    case DecodeErase(i) => var x, y := EraseSplits(b, i);
    case _ =>
  }

  // ---- Packets of full length ----

  /** No slice of a packet that waits or is being written has been dropped. */
  ghost predicate Whole(s: State) {
    && (forall id :: id in s.decodeQue ==> |Chain(Replay(s.history), id)| == PACKET_SLICES)
    && |Partial(Replay(s.history))| == PACKET_SLICES - s.writeSliceNum
  }

  lemma {:induction false} TotalOfEqual(c: map<int, seq<Loc>>, ids: seq<int>, n: int)
    requires forall i :: i in ids ==> Length(c, i) == n
    ensures Total(c, ids) == |ids| * n
  {
    if ids != [] {
      assert ids[|ids| - 1] in ids;
      TotalOfEqual(c, ids[..|ids| - 1], n);
    }
  }

  lemma {:induction false} TotalIsBounded(c: map<int, seq<Loc>>, ids: seq<int>)
    requires Short(c)
    ensures Total(c, ids) <= |ids| * PACKET_SLICES
  {
    if ids != [] { TotalIsBounded(c, ids[..|ids| - 1]); }
  }

  lemma TotalOfInbox(b: Buffer)
    requires Sound(b)
    ensures Total(b.chain, b.inbox) == |Partial(b)|
  {
    if b.inbox != [] {
      var id, rest := b.inbox[0], b.inbox[1..];
      assert b.inbox == [id] + rest;
      TotalOfBoth(b.chain, [id], rest);
      TotalOfOne(b.chain, id);
      forall i | i in rest ensures Length(b.chain, i) == 0 {
        var k :| 0 <= k < |rest| && rest[k] == i;
        assert Live(b)[|b.service| + |b.ready|] == id && Live(b)[|b.service| + |b.ready| + 1 + k] == i;
        LiveOnce(b, i);
      }
      TotalOfEqual(b.chain, rest, 0);
    }
  }

  /** The stored slices, packet by packet: 16 for each waiting one, those written so far for the one being written,
      and at most 16 for each one in service. */
  lemma StockByPackets(s: State)
    requires Linked(s) && Whole(s)
    ensures var b := Replay(s.history);
      && Tally(s.history, AnyAllocation) - Tally(s.history, AnyRelease) ==
           Total(b.chain, b.service) + PACKET_SLICES * |s.decodeQue| + PACKET_SLICES - s.writeSliceNum
      && Total(b.chain, b.service) <= PACKET_SLICES * |s.decodeQueHead|
  {
    hide Heap, Depths, Legal, Replay, Tally, Total, Pointers, Exclusive, LinkInRange;
    var b := Replay(s.history);
    LegalIsSound(s.history);
    TotalByEvents(s.history);
    TotalOfBoth(b.chain, b.service + b.ready, b.inbox);
    TotalOfBoth(b.chain, b.service, b.ready);
    TotalOfEqual(b.chain, b.ready, PACKET_SLICES);
    TotalOfInbox(b);
    TotalIsBounded(b.chain, b.service);
  }
}
