/** Class B of bank.cpp with its fields updated in place; each method is proved against the function that specifies
    it. */
module BufferClass {
  import opened Types
  import Spec
  import Cycle
  import Guard

  /** The two-dimensional vector of slices as a value. */
  ghost function Rows(a: array2<Slice>): (r: Memory)
    reads a
    ensures |r| == a.Length0
    ensures forall i :: 0 <= i < a.Length0 ==> |r[i]| == a.Length1
    ensures forall i, j :: 0 <= i < a.Length0 && 0 <= j < a.Length1 ==> r[i][j] == a[i, j]
  {
    seq(a.Length0, i requires 0 <= i < a.Length0 reads a =>
      seq(a.Length1, j requires 0 <= j < a.Length1 reads a => a[i, j]))
  }

  method SetSlice(a: array2<Slice>, l: Loc, x: Slice)
    requires 0 <= l.bank < a.Length0 && 0 <= l.slot < a.Length1
    modifies a
    ensures Rows(a) == Put(old(Rows(a)), l, x)
  {
    ghost var r := Put(Rows(a), l, x);
    a[l.bank, l.slot] := x;
    forall i | 0 <= i < a.Length0 ensures Rows(a)[i] == r[i] {
      assert forall j :: 0 <= j < a.Length1 ==> Rows(a)[i][j] == r[i][j];
    }
  }

  class B {
    const bankNum: int
    const sliceNum: int
    const encodeVec: array2<Slice>
    const bankDeepVec: array<int>
    const readBankIdVec: array<int>
    const bankConflictVec: array<Bank>
    var encodeQue: seq<int>
    var decodeQue: seq<int>
    var decodeQueHead: seq<int>
    var queueMap: map<int, QueueInfo>
    var writeCnt: int
    var writeSliceNum: int
    var lastBankId: int
    var lastSliceId: int
    ghost var history: seq<Event>

    ghost function Parts(): set<object> {
      {this, encodeVec, bankDeepVec, readBankIdVec, bankConflictVec}
    }

    ghost function View(): Spec.State
      reads Parts()
    {
      Spec.State(bankNum, sliceNum, encodeQue, decodeQue, decodeQueHead, queueMap,
                 Rows(encodeVec), bankDeepVec[..], readBankIdVec[..], bankConflictVec[..],
                 writeCnt, writeSliceNum, lastBankId, lastSliceId, history)
    }

    /** The vectors have their sizes and every index that process() uses is in range. */
    ghost predicate Valid()
      reads Parts()
    {
      && bankDeepVec != readBankIdVec
      && encodeVec.Length0 == bankDeepVec.Length == readBankIdVec.Length == bankConflictVec.Length == bankNum
      && encodeVec.Length1 == sliceNum
      && Spec.Bounded(View())
    }

    constructor (bankNum: int, sliceNum: int)
      requires bankNum >= 1 && sliceNum >= 1
      ensures Valid() && fresh(Parts()) && View() == Spec.Init(bankNum, sliceNum)
      ensures forall b, j :: 0 <= b < bankNum && 0 <= j < sliceNum ==> encodeVec[b, j] == Slice(0, -1, -1, -1, -1, -1)
      ensures forall b :: 0 <= b < bankNum ==>
        bankDeepVec[b] == sliceNum && readBankIdVec[b] == 0 && bankConflictVec[b] == Bank(0, 0)
    {
      this.bankNum, this.sliceNum := bankNum, sliceNum;
      encodeQue, decodeQue, decodeQueHead, queueMap := [], [], [], map[];
      writeCnt, writeSliceNum, lastBankId, lastSliceId := 1, PACKET_SLICES, -1, -1;
      encodeVec := new Slice[bankNum, sliceNum]((i, j) => FREE_SLICE);
      bankDeepVec := new int[bankNum](i => sliceNum);
      readBankIdVec := new int[bankNum](i => 0);
      bankConflictVec := new Bank[bankNum](i => Bank(0, 0));
      history := [];
      new;
      var s := Spec.Init(bankNum, sliceNum);
      assert forall i :: 0 <= i < bankNum ==> Rows(encodeVec)[i] == s.encodeVec[i];
      assert Rows(encodeVec) == s.encodeVec;
      assert bankDeepVec[..] == s.bankDeepVec && readBankIdVec[..] == s.readBankIdVec;
      assert bankConflictVec[..] == s.bankConflictVec;
    }

    method RcvFrom(addr: int, id: int)
      requires Valid()
      modifies this`encodeQue, this`history
      ensures Valid() && View() == Spec.RcvFrom(old(View()), addr, id)
      ensures encodeQue == if addr == 0x1000 then old(encodeQue) + [id] else old(encodeQue)
      ensures addr != 0x1000 ==> View() == old(View())
    {
      if addr == 0x1000 {
        encodeQue := encodeQue + [id];
        history := history + [Received(id)];
      }
    }

    /** Puts the next waiting packet in service. */
    method StartService(delay: int)
      requires Valid() && decodeQue != [] && |decodeQueHead| < LINK_NUM
      modifies this`decodeQue, this`decodeQueHead, this`queueMap, this`history
      ensures Valid() && View() == Spec.StartService(old(View()), delay)
    {
      var id := decodeQue[0];
      decodeQueHead := decodeQueHead + [id];
      decodeQue := decodeQue[1..];
      queueMap := queueMap[id := Lookup(queueMap, id).(delay := delay)];
      history := history + [PutInService(id)];
    }

    method Fill()
      requires Valid()
      modifies this`decodeQue, this`decodeQueHead, this`queueMap, this`history
      ensures Valid() && View() == Spec.Fill(old(View()))
    {
      if decodeQue != [] && |decodeQue| > LINK_NUM {
        var delay := 1;
        while |decodeQueHead| < LINK_NUM
          invariant Valid() && |decodeQueHead| + |decodeQue| >= LINK_NUM
          invariant Spec.FillLoop(View(), delay) == Spec.FillLoop(old(View()), 1)
          decreases LINK_NUM - |decodeQueHead|
        {
          StartService(delay);
          delay := delay + 1;
        }
      }
    }

    /** Marks the bank of head id as read and frees the slice under its read pointer. */
    method FreeSlice(id: int)
      requires Valid() && id in queueMap
      modifies this`history, encodeVec, bankDeepVec, readBankIdVec, bankConflictVec
      ensures Valid() && View() == Spec.Free(old(View()), id)
    {
      var bank, slot := queueMap[id].bankId, queueMap[id].sliceId;
      var c := bankConflictVec[bank];
      bankConflictVec[bank] := Bank(c.readConflictCnt, c.readCnt + 1);
      readBankIdVec[bank] := 1;
      SetSlice(encodeVec, Loc(bank, slot), FREE_SLICE);
      bankDeepVec[bank] := bankDeepVec[bank] + 1;
      history := history + [ReadRelease(id, Loc(bank, slot))];
    }

    /** Counts down the delay and the counter of head id; due says that it goes on to read. */
    method TickHead(id: int) returns (due: bool)
      requires Valid() && id in queueMap
      modifies this`queueMap
      ensures Valid() && id in queueMap && due == Spec.Tick(old(queueMap)[id]).due
      ensures View() == old(View()).(queueMap := old(queueMap)[id := Spec.Tick(old(queueMap)[id]).info])
    {
      due := false;
      if queueMap[id].delay > 0 {
        queueMap := queueMap[id := queueMap[id].(delay := queueMap[id].delay - 1)];
        if queueMap[id].delay != 0 {
          return;
        }
      }
      if queueMap[id].counter > 0 {
        queueMap := queueMap[id := queueMap[id].(counter := queueMap[id].counter - 1)];
        if queueMap[id].counter != 0 {
          return;
        }
      }
      due := true;
    }

    method RecordConflict(id: int)
      requires Valid() && id in queueMap
      modifies this`queueMap, this`history, bankConflictVec
      ensures Valid() && View() == Spec.Conflict(old(View()), id)
    {
      var bank, slot := queueMap[id].bankId, queueMap[id].sliceId;
      var c := bankConflictVec[bank];
      bankConflictVec[bank] := Bank(c.readConflictCnt + 1, c.readCnt + 1);
      queueMap := queueMap[id := queueMap[id].(counter := 1)];
      history := history + [ReadConflict(id, Loc(bank, slot))];
    }

    /** Frees the slice of the head at list position i and moves on to the next one of its chain, if any. */
    method ReleaseHead(i: int) returns (erased: bool)
      requires Valid() && 0 <= i < |decodeQueHead| && decodeQueHead[i] in queueMap
      modifies this`decodeQueHead, this`queueMap, this`history
      modifies encodeVec, bankDeepVec, readBankIdVec, bankConflictVec
      ensures Valid() && View() == Spec.Release(old(View()), i).s && erased == Spec.Release(old(View()), i).erased
    {
      hide Put, Spec.LinkInRange;
      ghost var s := View();
      var id := decodeQueHead[i];
      var bank, slot := queueMap[id].bankId, queueMap[id].sliceId;
      var nextBank, nextSlot := encodeVec[bank, slot].nextBankId, encodeVec[bank, slot].nextSliceId;
      FreeSlice(id);
      assert View() == Spec.Free(s, id);
      erased := nextBank == -1 || nextSlot == -1;
      if erased {
        queueMap := queueMap - {id};
        decodeQueHead := decodeQueHead[..i] + decodeQueHead[i + 1..];
        history := history + [DecodeErase(id)];
      } else {
        queueMap := queueMap[id := QueueInfo(nextBank, nextSlot, READ_DELAY, 0)];
      }
      assert View() == Spec.Release(s, i).s;
    }

    /** One round of the loop over the heads. */
    method VisitHead(i: int) returns (erased: bool)
      requires Valid() && 0 <= i < |decodeQueHead|
      modifies this`decodeQueHead, this`queueMap, this`history
      modifies encodeVec, bankDeepVec, readBankIdVec, bankConflictVec
      ensures Valid() && View() == Spec.Visit(old(View()), i).s && erased == Spec.Visit(old(View()), i).erased
    {
      hide Spec.Release, Spec.Conflict, Spec.LinkInRange;
      erased := false;
      var id := decodeQueHead[i];
      if id !in queueMap {
        return;
      }
      var due := TickHead(id);
      if !due {
        return;
      }
      if readBankIdVec[queueMap[id].bankId] == 1 {
        RecordConflict(id);
      } else {
        erased := ReleaseHead(i);
      }
    }

    method ServeHeads() returns (erased: bool)
      requires Valid()
      modifies this`decodeQueHead, this`queueMap, this`history
      modifies encodeVec, bankDeepVec, readBankIdVec, bankConflictVec
      ensures Valid() && erased == Spec.HeadLoop(old(View()), 0, false).erased
      ensures View() == Spec.HeadLoop(old(View()), 0, false).s
    {
      hide Spec.LinkInRange, Spec.Visit, Rows;
      erased := false;
      var i := 0;
      while i != |decodeQueHead|
        invariant Valid() && 0 <= i <= |decodeQueHead| && (erased ==> |decodeQueHead| < LINK_NUM)
        invariant Spec.HeadLoop(View(), i, erased) == Spec.HeadLoop(old(View()), 0, false)
        decreases |decodeQueHead| - i
      {
        var gone := VisitHead(i);
        if gone {
          erased := true;
        } else {
          i := i + 1;
        }
      }
    }

    /** The deepest bank that is not read in this cycle. */
    method PickBank() returns (bank: int)
      requires Valid()
      ensures bank == Spec.SelectBank(View())
    {
      bank := 0;
      var maxDeep := 0;
      for i := 0 to bankNum
        invariant Spec.Pick(bank, maxDeep) == Spec.Scan(readBankIdVec[..], bankDeepVec[..], i)
      {
        if readBankIdVec[i] == 1 {
          continue;
        }
        if bankDeepVec[i] > maxDeep {
          maxDeep := bankDeepVec[i];
          bank := i;
        }
      }
    }

    method FindFreeSlot(bank: int) returns (slot: int)
      requires Valid() && 0 <= bank < bankNum
      ensures slot == Spec.FirstFree(View().encodeVec[bank], 0)
    {
      slot := 0;
      while slot < sliceNum && encodeVec[bank, slot].valid != 0
        invariant 0 <= slot <= sliceNum
        invariant Spec.FirstFree(Rows(encodeVec)[bank], slot) == Spec.FirstFree(Rows(encodeVec)[bank], 0)
      {
        slot := slot + 1;
      }
    }

    /** Fills slot l with a slice of packet id and links the last slice written to it. */
    method StoreSlice(id: int, l: Loc)
      requires Valid() && 0 <= l.bank < bankNum && 0 <= l.slot < sliceNum
      modifies encodeVec
      ensures Rows(encodeVec) == Spec.Allocate(old(View()), id, l).encodeVec
    {
      SetSlice(encodeVec, l, Slice(1, l.bank, l.slot, -1, -1, id));
      if lastBankId != -1 && lastSliceId != -1 {
        SetSlice(encodeVec, Loc(lastBankId, lastSliceId),
                 encodeVec[lastBankId, lastSliceId].(nextBankId := l.bank, nextSliceId := l.slot));
      }
    }

    method Allocate(id: int, l: Loc)
      requires Valid() && 0 <= l.bank < bankNum && 0 <= l.slot < sliceNum
      modifies this`queueMap, this`lastBankId, this`lastSliceId, this`history, encodeVec, bankDeepVec
      ensures Valid() && View() == Spec.Allocate(old(View()), id, l)
    {
      hide Put, Rows, Spec.LinkInRange;
      StoreSlice(id, l);
      if lastBankId == -1 && lastSliceId == -1 {
        queueMap := queueMap[id := QueueInfo(l.bank, l.slot, READ_DELAY, 0)];
      }
      lastBankId, lastSliceId := l.bank, l.slot;
      bankDeepVec[l.bank] := bankDeepVec[l.bank] - 1;
      history := history + [WriteAllocate(id, l)];
    }

    /** Stores one slice of the front packet, if the chosen bank has a free slot. */
    method PlaceSlice()
      requires Valid() && encodeQue != []
      modifies this`queueMap, this`lastBankId, this`lastSliceId, this`history, encodeVec, bankDeepVec
      ensures Valid() && View() == Spec.PlaceSlice(old(View()))
    {
      hide Spec.Allocate, Spec.LinkInRange, Spec.FirstFree, Spec.SelectBank;
      var bank := PickBank();
      var slot := FindFreeSlot(bank);
      if slot < sliceNum {
        Allocate(encodeQue[0], Loc(bank, slot));
      } else {
        history := history + [WriteSkip(encodeQue[0])];
      }
    }

    method AdvanceWriter()
      requires Valid() && encodeQue != []
      modifies this`encodeQue, this`decodeQue, this`history
      modifies this`writeSliceNum, this`lastBankId, this`lastSliceId
      ensures View() == Spec.AdvanceWriter(old(View())) && Valid()
    {
      hide Rows, Spec.LinkInRange;
      writeSliceNum := writeSliceNum - 1;
      if writeSliceNum == 0 {
        var id := encodeQue[0];
        writeSliceNum := PACKET_SLICES;
        encodeQue := encodeQue[1..];
        decodeQue := decodeQue + [id];
        lastBankId, lastSliceId := -1, -1;
        history := history + [WriteDone(id)];
      }
    }

    method Write()
      requires Valid()
      modifies this`encodeQue, this`decodeQue, this`queueMap, this`history
      modifies this`writeCnt, this`writeSliceNum, this`lastBankId, this`lastSliceId, encodeVec, bankDeepVec
      ensures Valid() && View() == Spec.Write(old(View()))
    {
      hide Rows, Spec.PlaceSlice, Spec.AdvanceWriter, Spec.LinkInRange;
      if encodeQue == [] || writeCnt <= 0 {
        return;
      }
      writeCnt := writeCnt - 1;
      if writeCnt != 0 {
        return;
      }
      writeCnt := 1;
      PlaceSlice();
      AdvanceWriter();
    }

    method ClearReadFlags()
      requires Valid()
      modifies readBankIdVec
      ensures Valid() && View() == Spec.ClearFlags(old(View()))
    {
      for i := 0 to bankNum
        invariant forall k :: 0 <= k < i ==> readBankIdVec[k] == 0
      {
        readBankIdVec[i] := 0;
      }
      assert readBankIdVec[..] == seq(bankNum, _ => 0);
    }

    /** The read side of a clock edge. */
    method ReadSlices()
      requires Valid()
      modifies this`decodeQue, this`decodeQueHead, this`queueMap, this`history
      modifies encodeVec, bankDeepVec, readBankIdVec, bankConflictVec
      ensures Valid() && View() == Spec.ReadSide(old(View()))
    {
      hide Spec.Fill, Spec.HeadLoop, Spec.StartService, Spec.LinkInRange, Rows;
      Fill();
      var erased := ServeHeads();
      if erased && decodeQue != [] {
        StartService(4 - (|decodeQueHead| + 1));
      }
    }

    /** One clock edge. */
    method Process()
      requires Valid()
      modifies Parts()
      ensures Valid() && View() == Spec.Process(old(View()))
      ensures Cycle.Idle(old(View())) ==> (Cycle.Idle(View()) <==> !Guard.LosesNext(old(View())))
    {
      hide Cycle.Idle, Guard.LosesNext, Spec.ReadSide, Spec.Write, Spec.ClearFlags, Spec.LinkInRange, Rows;
      ghost var s := View();
      ReadSlices();
      Write();
      ClearReadFlags();
      if Cycle.Idle(s) {
        Guard.ClockKeepsIdle(s);
      }
    }
  }
}
