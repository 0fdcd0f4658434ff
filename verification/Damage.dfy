/** What a lost packet does when it is put in service: it releases the slice of another packet, and the depth of the
    bank grows beyond its size. */
module Damage {
  import opened Types
  import opened Spec
  import opened Runs
  import opened PacketLength
  import opened SimpleBuffer

  const ONLY := Slice(1, 0, 0, -1, -1, 1)

  /** A buffer of one slot, which holds the only stored slice of packet 1; n slices have been written or skipped. */
  ghost predicate Stuck(s: State, n: int) {
    && Bounded(s) && s.bankNum == 1 && s.sliceNum == 1 && s.decodeQueHead == []
    && s.decodeQue + s.encodeQue == [1, 2, 3, 4, 5]
    && 1 <= s.writeSliceNum <= PACKET_SLICES && n == PACKET_SLICES * |s.decodeQue| + PACKET_SLICES - s.writeSliceNum
    && (s.encodeQue == [] ==> s.writeSliceNum == PACKET_SLICES)
    && s.queueMap == map[1 := QueueInfo(0, 0, READ_DELAY, 0)] && s.encodeVec == [[ONLY]]
    && s.bankDeepVec == [0] && s.readBankIdVec == [0] && s.writeCnt == 1
    && Untouched(s.history)
  }

  /** Packet 1 has stored a slice, packet 2 none, and nothing has been released. */
  ghost predicate Untouched(t: seq<Event>) {
    && SlotsWritten(t, 1) == [Loc(0, 0)] && SlotsReleased(t, 1) == []
    && SlotsWritten(t, 2) == [] && SlotsReleased(t, 2) == []
  }

  lemma SlotsSnoc(t: seq<Event>, e: Event, id: int)
    ensures SlotsWritten(t + [e], id) ==
      if e.WriteAllocate? && e.id == id then SlotsWritten(t, id) + [e.loc] else SlotsWritten(t, id)
    ensures SlotsReleased(t + [e], id) ==
      if e.ReadRelease? && e.id == id then SlotsReleased(t, id) + [e.loc] else SlotsReleased(t, id)
  {
    assert (t + [e])[..|t|] == t;
  }

  lemma StaysUntouched(t: seq<Event>, e: Event)
    requires Untouched(t) && !e.WriteAllocate? && !e.ReadRelease?
    ensures Untouched(t + [e])
  {
    hide SlotsWritten, SlotsReleased;
    SlotsSnoc(t, e, 1);
    SlotsSnoc(t, e, 2);
  }

  lemma NoSlot(s: State)
    requires Bounded(s) && s.bankNum == 1 && s.sliceNum == 1
    requires s.encodeVec == [[ONLY]] && s.bankDeepVec == [0] && s.readBankIdVec == [0]
    ensures Target(s) == Loc(0, 1)
  {
    hide LinkInRange;
    assert Scan([0], [0], 1) == Scan([0], [0], 0);
    assert FirstFree([ONLY], 1) == 1;
  }

  lemma StuckEdge(s: State, n: int)
    requires Stuck(s, n) && n < 80
    ensures Stuck(Process(s), n + 1)
  {
    hide Untouched, LinkInRange, Target;
    assert s.encodeQue != [] by { assert |s.decodeQue + s.encodeQue| == 5; }
    assert HeadLoop(s, 0, false) == Visited(s, false);
    assert s.(writeCnt := 1) == s;
    NoSlot(s);
    var id := s.encodeQue[0];
    StaysUntouched(s.history, WriteSkip(id));
    StaysUntouched(s.history + [WriteSkip(id)], WriteDone(id));
    assert s.encodeQue == [id] + s.encodeQue[1..];
    assert seq(1, _ => 0) == [0];
  }

  lemma {:induction false} StaysStuck(s: State, n: int)
    requires Stuck(s, n) && n <= 80
    ensures Bounded(s) && Stuck(Run(s, Ticks(80 - n)), 80)
    decreases 80 - n
  {
    hide Stuck, Process, Bounded;
    StuckIsBounded(s, n);
    if n < 80 {
      StuckEdge(s, n);
      TickOnce(s, 80 - (n + 1));
      StaysStuck(Process(s), n + 1);
    } else {
      NoTicks(s);
    }
  }

  lemma StuckIsBounded(s: State, n: int)
    requires Stuck(s, n)
    ensures Bounded(s)
  {}

  lemma {:induction false} ArrivalsMoveNothing(t: seq<Event>, id: int)
    requires forall k :: 0 <= k < |t| ==> t[k].Received?
    ensures SlotsWritten(t, id) == [] && SlotsReleased(t, id) == []
  {
    if t != [] { ArrivalsMoveNothing(t[..|t| - 1], id); }
  }

  lemma FirstWrite(t: seq<Event>)
    requires forall k :: 0 <= k < |t| ==> t[k].Received?
    ensures Untouched(t + [WriteAllocate(1, Loc(0, 0))])
  {
    hide SlotsWritten, SlotsReleased;
    ArrivalsMoveNothing(t, 1);
    ArrivalsMoveNothing(t, 2);
    SlotsSnoc(t, WriteAllocate(1, Loc(0, 0)), 1);
    SlotsSnoc(t, WriteAllocate(1, Loc(0, 0)), 2);
  }

  lemma FirstSliceFits()
    ensures Stuck(Process(Run(Init(1, 1), FIRST_FIVE)), 1)
  {
    hide Untouched, Run, Target;
    var h := [Received(1), Received(2), Received(3), Received(4), Received(5)];
    var s := Init(1, 1).(encodeQue := [1, 2, 3, 4, 5], history := h);
    assert Run(Init(1, 1), FIRST_FIVE) == s by { FivePackets(1, 1); }
    assert HeadLoop(s, 0, false) == Visited(s, false);
    assert s.(writeCnt := 1) == s;
    OneSlot();
    FirstTarget(s);
    FirstWrite(h);
    assert seq(1, _ => 0) == [0];
    var r := Process(s);
    assert [FREE_SLICE][0 := ONLY] == [ONLY] && [[FREE_SLICE]][0 := [ONLY]] == [[ONLY]];
    assert r.encodeVec == [[ONLY]];
  }

  lemma OneSlot()
    ensures var i := Init(1, 1); i.encodeVec == [[FREE_SLICE]] && i.bankDeepVec == [1] && i.readBankIdVec == [0]
  {
    assert seq(1, _ => FREE_SLICE) == [FREE_SLICE];
    assert Init(1, 1).encodeVec[0] == [FREE_SLICE];
  }

  lemma FirstTarget(s: State)
    requires Bounded(s) && s.bankNum == 1 && s.sliceNum == 1
    requires s.encodeVec == [[FREE_SLICE]] && s.bankDeepVec == [1] && s.readBankIdVec == [0]
    ensures Target(s) == Loc(0, 0)
  {
    hide LinkInRange;
    assert Scan([0], [1], 1) == Pick(0, 1);
    assert FirstFree([FREE_SLICE], 0) == 0;
  }

  // ---- The lost packets in service ----

  /** A buffer of one slot with the given lists, map, slot and depth, and nothing to write. */
  ghost predicate Hurt(s: State, heads: seq<int>, waiting: seq<int>, m: map<int, QueueInfo>, slot: Slice, deep: int) {
    && Bounded(s) && s.bankNum == 1 && s.sliceNum == 1
    && s.decodeQueHead == heads && s.decodeQue == waiting && s.encodeQue == [] && s.queueMap == m
    && s.encodeVec == [[slot]] && s.bankDeepVec == [deep] && s.readBankIdVec == [0]
  }

  lemma ServesLost(s: State)
    requires Stuck(s, 80)
    ensures var f := Fill(s);
      && Hurt(f, [1, 2, 3, 4], [5],
              map[1 := QueueInfo(0, 0, 4, 1), 2 := QueueInfo(0, 0, 0, 2), 3 := QueueInfo(0, 0, 0, 3),
                  4 := QueueInfo(0, 0, 0, 4)], ONLY, 0)
      && Untouched(f.history)
  {
    hide Untouched, LinkInRange;
    assert s.decodeQue == [1, 2, 3, 4, 5] by { assert |s.decodeQue + s.encodeQue| == 5; }
    var a := StartService(s, 1);
    var b := StartService(a, 2);
    var c := StartService(b, 3);
    var d := StartService(c, 4);
    assert FillLoop(d, 5) == d;
    assert FillLoop(c, 4) == d;
    assert FillLoop(b, 3) == d;
    assert FillLoop(a, 2) == d;
    StaysUntouched(s.history, PutInService(1));
    StaysUntouched(a.history, PutInService(2));
    StaysUntouched(b.history, PutInService(3));
    StaysUntouched(c.history, PutInService(4));
  }

  lemma HeadWaits(s: State, i: int, erased: bool)
    requires Bounded(s) && 0 <= i < |s.decodeQueHead| && (erased ==> |s.decodeQueHead| < LINK_NUM)
    requires s.decodeQueHead[i] in s.queueMap && !Tick(s.queueMap[s.decodeQueHead[i]]).due
    ensures var id := s.decodeQueHead[i];
      var r := s.(queueMap := s.queueMap[id := Tick(s.queueMap[id]).info]);
      Bounded(r) && HeadLoop(s, i, erased) == HeadLoop(r, i + 1, erased)
  {}

  lemma LoopEnds(s: State, erased: bool)
    requires Bounded(s) && (erased ==> |s.decodeQueHead| < LINK_NUM)
    ensures HeadLoop(s, |s.decodeQueHead|, erased) == Visited(s, erased)
  {}

  /** Nothing is left to write. */
  lemma ReadOnly(s: State)
    requires Bounded(s) && s.encodeQue == [] && s.bankNum == 1
    requires ReadSide(s).encodeQue == []
    ensures Process(s) == ReadSide(s).(readBankIdVec := [0])
  {
    hide ReadSide, LinkInRange;
    assert seq(1, _ => 0) == [0];
  }

  lemma NoneReads(f: State, m: map<int, QueueInfo>)
    requires m == map[1 := QueueInfo(0, 0, 4, 1), 2 := QueueInfo(0, 0, 0, 2), 3 := QueueInfo(0, 0, 0, 3),
                      4 := QueueInfo(0, 0, 0, 4)]
    requires Hurt(f, [1, 2, 3, 4], [5], m, ONLY, 0)
    ensures var n := map[1 := QueueInfo(0, 0, 3, 0), 2 := QueueInfo(0, 0, 0, 1), 3 := QueueInfo(0, 0, 0, 2),
                         4 := QueueInfo(0, 0, 0, 3)];
      Bounded(f.(queueMap := n)) && HeadLoop(f, 0, false) == Visited(f.(queueMap := n), false)
  {
    hide Bounded, HeadLoop, Extends;
    assert f.queueMap == m;
    HeadWaits(f, 0, false);
    var a := f.(queueMap := m[1 := QueueInfo(0, 0, 3, 0)]);
    HeadWaits(a, 1, false);
    var b := a.(queueMap := a.queueMap[2 := QueueInfo(0, 0, 0, 1)]);
    HeadWaits(b, 2, false);
    var c := b.(queueMap := b.queueMap[3 := QueueInfo(0, 0, 0, 2)]);
    HeadWaits(c, 3, false);
    var d := c.(queueMap := c.queueMap[4 := QueueInfo(0, 0, 0, 3)]);
    LoopEnds(d, false);
    assert d.queueMap == map[1 := QueueInfo(0, 0, 3, 0), 2 := QueueInfo(0, 0, 0, 1), 3 := QueueInfo(0, 0, 0, 2),
                             4 := QueueInfo(0, 0, 0, 3)];
  }

  /** The 81st edge puts packets 1 to 4 in service; none reads yet. */
  lemma Edge81(s: State)
    requires Stuck(s, 80)
    ensures var r := Process(s);
      && Hurt(r, [1, 2, 3, 4], [5],
              map[1 := QueueInfo(0, 0, 3, 0), 2 := QueueInfo(0, 0, 0, 1), 3 := QueueInfo(0, 0, 0, 2),
                  4 := QueueInfo(0, 0, 0, 3)], ONLY, 0)
      && Untouched(r.history)
  {
    hide Untouched, LinkInRange, Fill, HeadLoop, Write, ClearFlags;
    ServesLost(s);
    NoneReads(Fill(s), Fill(s).queueMap);
    ReadOnly(s);
  }

  /** A due head whose entry points to the only slot frees it and leaves. */
  lemma HeadReleases(s: State, i: int, erased: bool)
    requires Bounded(s) && 0 <= i < |s.decodeQueHead| && (erased ==> |s.decodeQueHead| < LINK_NUM)
    requires s.bankNum == 1 && s.sliceNum == 1 && s.readBankIdVec == [0]
    requires s.encodeVec == [[ONLY]] || s.encodeVec == [[FREE_SLICE]]
    requires var id := s.decodeQueHead[i]; id in s.queueMap && s.queueMap[id] == QueueInfo(0, 0, 0, 1)
    ensures var id, r := s.decodeQueHead[i], Visit(s, i).s;
      && Bounded(r) && Visit(s, i).erased
      && r.decodeQueHead == s.decodeQueHead[..i] + s.decodeQueHead[i + 1..] && r.queueMap == s.queueMap - {id}
      && r.bankNum == 1 && r.sliceNum == 1 && r.encodeQue == s.encodeQue && r.decodeQue == s.decodeQue
      && r.encodeVec == [[FREE_SLICE]] && r.bankDeepVec == [s.bankDeepVec[0] + 1] && r.readBankIdVec == [1]
      && r.history == s.history + [ReadRelease(id, Loc(0, 0))] + [DecodeErase(id)]
      && |r.decodeQueHead| < LINK_NUM && HeadLoop(s, i, erased) == HeadLoop(r, i, true)
  {
    hide LinkInRange;
    var id := s.decodeQueHead[i];
    assert Tick(s.queueMap[id]) == Ticked(QueueInfo(0, 0, 0, 0), true);
    assert s.queueMap[id := QueueInfo(0, 0, 0, 0)] - {id} == s.queueMap - {id};
    assert [s.encodeVec[0][0]][0 := FREE_SLICE] == [FREE_SLICE] && s.encodeVec[0 := [FREE_SLICE]] == [[FREE_SLICE]];
    assert [0][0 := 1] == [1] && s.bankDeepVec[0 := s.bankDeepVec[0] + 1] == [s.bankDeepVec[0] + 1];
  }

  lemma SecondReleases(t: seq<Event>)
    requires Untouched(t)
    ensures var u := t + [ReadRelease(2, Loc(0, 0))] + [DecodeErase(2)];
      && SlotsReleased(u, 2) == [Loc(0, 0)] && SlotsWritten(u, 2) == []
      && SlotsWritten(u, 1) == [Loc(0, 0)] && SlotsReleased(u, 1) == []
  {
    hide SlotsWritten, SlotsReleased;
    var e, u := ReadRelease(2, Loc(0, 0)), t + [ReadRelease(2, Loc(0, 0))];
    SlotsSnoc(t, e, 1);
    SlotsSnoc(t, e, 2);
    SlotsSnoc(u, DecodeErase(2), 1);
    SlotsSnoc(u, DecodeErase(2), 2);
  }

  lemma TwoWait(s: State)
    requires Hurt(s.(readBankIdVec := [0]), [1, 3, 4], [5],
      map[1 := QueueInfo(0, 0, 2, 0), 3 := QueueInfo(0, 0, 0, 2), 4 := QueueInfo(0, 0, 0, 3)], FREE_SLICE, 1)
    requires s.readBankIdVec == [1] && Bounded(s)
    ensures var n := map[1 := QueueInfo(0, 0, 2, 0), 3 := QueueInfo(0, 0, 0, 1), 4 := QueueInfo(0, 0, 0, 2)];
      Bounded(s.(queueMap := n)) && HeadLoop(s, 1, true) == Visited(s.(queueMap := n), true)
  {
    hide Bounded, HeadLoop, Extends;
    HeadWaits(s, 1, true);
    var a := s.(queueMap := s.queueMap[3 := QueueInfo(0, 0, 0, 1)]);
    HeadWaits(a, 2, true);
    var b := a.(queueMap := a.queueMap[4 := QueueInfo(0, 0, 0, 2)]);
    LoopEnds(b, true);
    assert b.queueMap == map[1 := QueueInfo(0, 0, 2, 0), 3 := QueueInfo(0, 0, 0, 1), 4 := QueueInfo(0, 0, 0, 2)];
  }

  lemma SecondReads(s: State)
    requires Hurt(s, [1, 2, 3, 4], [5],
      map[1 := QueueInfo(0, 0, 3, 0), 2 := QueueInfo(0, 0, 0, 1), 3 := QueueInfo(0, 0, 0, 2),
          4 := QueueInfo(0, 0, 0, 3)], ONLY, 0)
    ensures var v := HeadLoop(s, 0, false);
      && v.erased && v.s.readBankIdVec == [1]
      && Hurt(v.s.(readBankIdVec := [0]), [1, 3, 4], [5],
              map[1 := QueueInfo(0, 0, 2, 0), 3 := QueueInfo(0, 0, 0, 1), 4 := QueueInfo(0, 0, 0, 2)], FREE_SLICE, 1)
      && v.s.history == s.history + [ReadRelease(2, Loc(0, 0))] + [DecodeErase(2)]
  {
    hide HeadLoop, LinkInRange, Extends, Visit;
    HeadWaits(s, 0, false);
    var a := s.(queueMap := s.queueMap[1 := QueueInfo(0, 0, 2, 0)]);
    HeadReleases(a, 1, false);
    var b := Visit(a, 1).s;
    assert b.decodeQueHead == [1, 3, 4];
    assert b.queueMap == map[1 := QueueInfo(0, 0, 2, 0), 3 := QueueInfo(0, 0, 0, 2), 4 := QueueInfo(0, 0, 0, 3)];
    TwoWait(b);
  }

  /** At the 82nd edge packet 2, of which nothing is stored, releases the slice of packet 1. */
  lemma Edge82(s: State)
    requires Hurt(s, [1, 2, 3, 4], [5],
      map[1 := QueueInfo(0, 0, 3, 0), 2 := QueueInfo(0, 0, 0, 1), 3 := QueueInfo(0, 0, 0, 2),
          4 := QueueInfo(0, 0, 0, 3)], ONLY, 0)
    requires Untouched(s.history)
    ensures var r := Process(s);
      && Hurt(r, [1, 3, 4, 5], [],
              map[1 := QueueInfo(0, 0, 2, 0), 3 := QueueInfo(0, 0, 0, 1), 4 := QueueInfo(0, 0, 0, 2),
                  5 := QueueInfo(0, 0, 0, 0)], FREE_SLICE, 1)
      && SlotsReleased(r.history, 2) == [Loc(0, 0)] && SlotsWritten(r.history, 2) == []
      && SlotsWritten(r.history, 1) == [Loc(0, 0)] && SlotsReleased(r.history, 1) == []
  {
    hide HeadLoop, LinkInRange, Write, Untouched, SlotsReleased, SlotsWritten;
    SecondReads(s);
    SecondReleases(s.history);
    var v := HeadLoop(s, 0, false);
    SlotsSnoc(v.s.history, PutInService(5), 1);
    SlotsSnoc(v.s.history, PutInService(5), 2);
    assert [1, 3, 4] + [5] == [1, 3, 4, 5];
    ReadOnly(s);
  }

  /** At the 83rd edge packet 3 releases the free slot once more. */
  lemma Edge83(s: State)
    requires Hurt(s, [1, 3, 4, 5], [],
      map[1 := QueueInfo(0, 0, 2, 0), 3 := QueueInfo(0, 0, 0, 1), 4 := QueueInfo(0, 0, 0, 2),
          5 := QueueInfo(0, 0, 0, 0)], FREE_SLICE, 1)
    ensures Process(s).bankDeepVec == [2] && Process(s).sliceNum == 1
  {
    hide HeadLoop, LinkInRange, Extends, Visit, Write;
    HeadWaits(s, 0, false);
    var a := s.(queueMap := s.queueMap[1 := QueueInfo(0, 0, 1, 0)]);
    HeadReleases(a, 1, false);
    var b := Visit(a, 1).s;
    assert b.decodeQueHead == [1, 4, 5];
    HeadWaits(b, 1, true);
    var c := b.(queueMap := b.queueMap[4 := QueueInfo(0, 0, 0, 1)]);
    LastConflicts(c);
    ReadOnly(s);
  }

  lemma LastConflicts(c: State)
    requires Bounded(c) && c.decodeQueHead == [1, 4, 5] && c.readBankIdVec == [1]
    requires c.encodeQue == [] && c.decodeQue == []
    requires 5 in c.queueMap && c.queueMap[5] == QueueInfo(0, 0, 0, 0)
    ensures var v := HeadLoop(c, 2, true);
      v.s.bankDeepVec == c.bankDeepVec && v.s.encodeQue == [] && v.s.decodeQue == [] && v.s.sliceNum == c.sliceNum
  {
    hide LinkInRange;
    LoopEnds(Visit(c, 2).s, true);
  }

  /** One bank of one slot, five packets at once: packets 2 to 5 are lost whole.  Packet 2 then releases the slice of
      packet 1, which never comes out, and the depth grows beyond the size of the bank. */
  lemma LostPacketDoesDamage()
    ensures var s := Run(Init(1, 1), FIRST_FIVE + Ticks(82));
      && SlotsWritten(s.history, 1) == [Loc(0, 0)] && SlotsReleased(s.history, 1) == []
      && SlotsWritten(s.history, 2) == [] && SlotsReleased(s.history, 2) == [Loc(0, 0)]
    ensures var s := Run(Init(1, 1), FIRST_FIVE + Ticks(83)); s.bankDeepVec == [2] && s.sliceNum == 1
  {
    hide Bounded, Process, Run, Ticks, Stuck, Init, SlotsReleased, SlotsWritten;
    var i := Init(1, 1);
    var s := Run(i, FIRST_FIVE);
    FirstSliceFits();
    var w := Process(s);
    StaysStuck(w, 1);
    var x := Run(w, Ticks(79));
    StuckIsBounded(x, 80);
    Edge81(x);
    var y := Process(x);
    Edge82(y);
    var z := Process(y);
    Edge83(z);
    TickOnce(s, 79);
    AfterTicks(s, x, 80);
    AfterTicks(s, y, 81);
    AfterTicks(s, z, 82);
    RunOfBoth(i, FIRST_FIVE, Ticks(82));
    RunOfBoth(i, FIRST_FIVE, Ticks(83));
  }

  lemma AfterTicks(s: State, x: State, n: nat)
    requires Bounded(s) && x == Run(s, Ticks(n))
    ensures Run(s, Ticks(n + 1)) == Process(x)
  {
    hide Bounded, Process;
    TicksOfBoth(n, 1);
    RunOfBoth(s, Ticks(n), Ticks(1));
    TickOnce(x, 0);
    NoTicks(Process(x));
  }
}
