/** What one call of B::rcv_from or B::process does, as functions on the state of B. */
module Spec {
  import opened Types

  /** The members of B, plus the history of its events. */
  datatype State = State(
    bankNum: int, sliceNum: int,
    encodeQue: seq<int>, decodeQue: seq<int>, decodeQueHead: seq<int>,
    queueMap: map<int, QueueInfo>,
    encodeVec: Memory,
    bankDeepVec: seq<int>,
    readBankIdVec: seq<int>,
    bankConflictVec: seq<Bank>,
    writeCnt: int, writeSliceNum: int, lastBankId: int, lastSliceId: int,
    history: seq<Event>)

  ghost predicate LinkInRange(x: Slice, bankNum: int, sliceNum: int) {
    x.nextBankId == -1 || x.nextSliceId == -1 || (0 <= x.nextBankId < bankNum && 0 <= x.nextSliceId < sliceNum)
  }

  /** Every index that process() will use is in range, and 4 - decode_que_head.size() does not wrap. */
  ghost predicate Bounded(s: State) {
    && s.bankNum >= 1 && s.sliceNum >= 1
    && |s.encodeVec| == |s.bankDeepVec| == |s.readBankIdVec| == |s.bankConflictVec| == s.bankNum
    && (forall b :: 0 <= b < s.bankNum ==> |s.encodeVec[b]| == s.sliceNum)
    && (forall b, j :: 0 <= b < s.bankNum && 0 <= j < s.sliceNum ==>
          LinkInRange(s.encodeVec[b][j], s.bankNum, s.sliceNum))
    && (forall id :: id in s.queueMap ==>
          0 <= s.queueMap[id].bankId < s.bankNum && 0 <= s.queueMap[id].sliceId < s.sliceNum)
    && (s.lastBankId == -1 || s.lastSliceId == -1 || (0 <= s.lastBankId < s.bankNum && 0 <= s.lastSliceId < s.sliceNum))
    && |s.decodeQueHead| <= LINK_NUM
  }

  /** r comes after s: same banks, longer history. */
  predicate Extends(r: State, s: State) {
    s.history <= r.history && r.bankNum == s.bankNum && r.sliceNum == s.sliceNum
  }

  // ---- The constructor (bank.cpp:98-126) ----

  function Init(bankNum: int, sliceNum: int): (s: State)
    requires bankNum >= 1 && sliceNum >= 1
    ensures Bounded(s)
  {
    State(bankNum, sliceNum, [], [], [], map[],
          seq(bankNum, _ => seq(sliceNum, _ => FREE_SLICE)),
          seq(bankNum, _ => sliceNum), seq(bankNum, _ => 0), seq(bankNum, _ => Bank(0, 0)),
          1, PACKET_SLICES, -1, -1, [])
  }

  // ---- rcv_from (bank.cpp:324-335) ----

  function RcvFrom(s: State, addr: int, id: int): (r: State)
    ensures Bounded(s) ==> Bounded(r)
    ensures Extends(r, s)
  {
    if addr == 0x1000 then s.(encodeQue := s.encodeQue + [id], history := s.history + [Received(id)])
    else s
  }

  // ---- Filling decode_que_head (bank.cpp:170-179 and 248-253) ----

  /** Moves the front of decode_que to the end of decode_que_head. */
  function StartService(s: State, delay: int): (r: State)
    requires s.decodeQue != []
    ensures Bounded(s) && |s.decodeQueHead| < LINK_NUM ==> Bounded(r)
    ensures Extends(r, s)
  {
    var id := s.decodeQue[0];
    s.(decodeQueHead := s.decodeQueHead + [id],
       decodeQue := s.decodeQue[1..],
       queueMap := s.queueMap[id := Lookup(s.queueMap, id).(delay := delay)],
       history := s.history + [PutInService(id)])
  }

  function FillLoop(s: State, delay: int): (r: State)
    requires |s.decodeQueHead| + |s.decodeQue| >= LINK_NUM
    ensures Bounded(s) ==> Bounded(r)
    ensures Extends(r, s)
    decreases LINK_NUM - |s.decodeQueHead|
  {
    if |s.decodeQueHead| < LINK_NUM then FillLoop(StartService(s, delay), delay + 1) else s
  }

  function Fill(s: State): (r: State)
    ensures Bounded(s) ==> Bounded(r)
    ensures Extends(r, s)
  {
    if |s.decodeQue| > LINK_NUM then FillLoop(s, 1) else s
  }

  function Refill(s: State, erased: bool): (r: State)
    requires Bounded(s)
    requires erased ==> |s.decodeQueHead| < LINK_NUM
    ensures Bounded(r)
    ensures Extends(r, s)
  {
    if erased && s.decodeQue != [] then StartService(s, 4 - (|s.decodeQueHead| + 1)) else s
  }

  // ---- The head loop (bank.cpp:183-246) ----

  datatype Ticked = Ticked(info: QueueInfo, due: bool)

  /** The two countdowns of a head; due says that the head goes on to read (bank.cpp:190-207). */
  function Tick(e: QueueInfo): Ticked {
    if e.delay > 0 && e.delay - 1 != 0 then Ticked(e.(delay := e.delay - 1), false)
    else
      var f := if e.delay > 0 then e.(delay := 0) else e;
      if f.counter > 0 && f.counter - 1 != 0 then Ticked(f.(counter := f.counter - 1), false)
      else Ticked(if f.counter > 0 then f.(counter := 0) else f, true)
  }

  datatype Visited = Visited(s: State, erased: bool)

  /** A second read of a bank in one cycle: counted, and tried again in the next cycle (bank.cpp:214-220). */
  function Conflict(s: State, id: int): (r: State)
    requires Bounded(s) && id in s.queueMap
    ensures Bounded(r)
    ensures Extends(r, s)
  {
    var e := s.queueMap[id];
    var c := s.bankConflictVec[e.bankId];
    s.(bankConflictVec := s.bankConflictVec[e.bankId := Bank(c.readConflictCnt + 1, c.readCnt + 1)],
       queueMap := s.queueMap[id := e.(counter := 1)],
       history := s.history + [ReadConflict(id, Loc(e.bankId, e.sliceId))])
  }

  /** Frees the slice under the read pointer and marks its bank as read (bank.cpp:212, 221-231). */
  function Free(s: State, id: int): (r: State)
    requires Bounded(s) && id in s.queueMap
    ensures Bounded(r)
    ensures Extends(r, s)
  {
    var e := s.queueMap[id];
    var l := Loc(e.bankId, e.sliceId);
    var c := s.bankConflictVec[l.bank];
    s.(bankConflictVec := s.bankConflictVec[l.bank := Bank(c.readConflictCnt, c.readCnt + 1)],
       readBankIdVec := s.readBankIdVec[l.bank := 1],
       encodeVec := Put(s.encodeVec, l, FREE_SLICE),
       bankDeepVec := s.bankDeepVec[l.bank := s.bankDeepVec[l.bank] + 1],
       history := s.history + [ReadRelease(id, l)])
  }

  /** A read that wins its bank (bank.cpp:221-245). */
  function Release(s: State, i: int): (v: Visited)
    requires Bounded(s) && 0 <= i < |s.decodeQueHead| && s.decodeQueHead[i] in s.queueMap
    ensures Bounded(v.s)
    ensures |v.s.decodeQueHead| == |s.decodeQueHead| - if v.erased then 1 else 0
    ensures Extends(v.s, s)
  {
    var id := s.decodeQueHead[i];
    var x := s.encodeVec[s.queueMap[id].bankId][s.queueMap[id].sliceId];
    assert LinkInRange(x, s.bankNum, s.sliceNum);
    var f := Free(s, id);
    if x.nextBankId == -1 || x.nextSliceId == -1 then
      Visited(f.(queueMap := f.queueMap - {id},
                 decodeQueHead := f.decodeQueHead[..i] + f.decodeQueHead[i + 1..],
                 history := f.history + [DecodeErase(id)]), true)
    else
      Visited(f.(queueMap := f.queueMap[id := QueueInfo(x.nextBankId, x.nextSliceId, READ_DELAY, 0)]), false)
  }

  /** One round of the head loop, at list position i. */
  function Visit(s: State, i: int): (v: Visited)
    requires Bounded(s) && 0 <= i < |s.decodeQueHead|
    ensures Bounded(v.s)
    ensures |v.s.decodeQueHead| == |s.decodeQueHead| - if v.erased then 1 else 0
    ensures Extends(v.s, s)
  {
    var id := s.decodeQueHead[i];
    if id !in s.queueMap then Visited(s, false)
    else
      var t := Tick(s.queueMap[id]);
      var s' := s.(queueMap := s.queueMap[id := t.info]);
      if !t.due then Visited(s', false)
      else if s.readBankIdVec[t.info.bankId] == 1 then Visited(Conflict(s', id), false)
      else Release(s', i)
  }

  function HeadLoop(s: State, i: int, erased: bool): (v: Visited)
    requires Bounded(s) && 0 <= i <= |s.decodeQueHead|
    requires erased ==> |s.decodeQueHead| < LINK_NUM
    ensures Bounded(v.s)
    ensures v.erased ==> |v.s.decodeQueHead| < LINK_NUM
    ensures Extends(v.s, s)
    decreases |s.decodeQueHead| - i
  {
    if i == |s.decodeQueHead| then Visited(s, erased)
    else
      var v := Visit(s, i);
      HeadLoop(v.s, if v.erased then i else i + 1, erased || v.erased)
  }

  // ---- The writer (bank.cpp:255-317) ----

  datatype Pick = Pick(bank: int, deep: int)

  /** The scan for the deepest bank not read in this cycle, over the first n banks (bank.cpp:266-277). */
  function Scan(read: seq<int>, deep: seq<int>, n: nat): (p: Pick)
    requires n <= |read| == |deep|
    ensures 0 <= p.bank && (p.bank < n || p.bank == 0)
  {
    if n == 0 then Pick(0, 0)
    else
      var p := Scan(read, deep, n - 1);
      if read[n - 1] != 1 && deep[n - 1] > p.deep then Pick(n - 1, deep[n - 1]) else p
  }

  function SelectBank(s: State): (b: int)
    requires Bounded(s)
    ensures 0 <= b < s.bankNum
  {
    Scan(s.readBankIdVec, s.bankDeepVec, s.bankNum).bank
  }

  /** The lowest free slot from j on, or the length of the row (bank.cpp:279-280). */
  function FirstFree(row: seq<Slice>, j: nat): (r: nat)
    requires j <= |row|
    ensures j <= r <= |row|
    ensures r < |row| ==> row[r].valid == 0
    ensures forall k :: j <= k < r ==> row[k].valid != 0
    decreases |row| - j
  {
    if j == |row| || row[j].valid == 0 then j else FirstFree(row, j + 1)
  }

  /** Stores a slice of packet id in the free slot l and links it to the writer's chain (bank.cpp:281-300). */
  function Allocate(s: State, id: int, l: Loc): (r: State)
    requires Bounded(s) && Has(s.encodeVec, l)
    ensures Bounded(r)
    ensures Extends(r, s)
  {
    var mem := Put(s.encodeVec, l, Slice(1, l.bank, l.slot, -1, -1, id));
    var last := Loc(s.lastBankId, s.lastSliceId);
    s.(encodeVec :=
         if last.bank != -1 && last.slot != -1
         then Put(mem, last, At(mem, last).(nextBankId := l.bank, nextSliceId := l.slot)) else mem,
       queueMap :=
         if last.bank == -1 && last.slot == -1
         then s.queueMap[id := QueueInfo(l.bank, l.slot, READ_DELAY, 0)] else s.queueMap,
       lastBankId := l.bank, lastSliceId := l.slot,
       bankDeepVec := s.bankDeepVec[l.bank := s.bankDeepVec[l.bank] - 1],
       history := s.history + [WriteAllocate(id, l)])
  }

  /** Counts a slice as written, stored or not; after 16 the packet moves on (bank.cpp:306-313). */
  function AdvanceWriter(s: State): (r: State)
    requires s.encodeQue != []
    ensures r.readBankIdVec == s.readBankIdVec
    ensures Bounded(s) ==> Bounded(r)
    ensures Extends(r, s)
  {
    if s.writeSliceNum - 1 != 0 then s.(writeSliceNum := s.writeSliceNum - 1)
    else
      var id := s.encodeQue[0];
      s.(writeSliceNum := PACKET_SLICES,
         encodeQue := s.encodeQue[1..], decodeQue := s.decodeQue + [id],
         lastBankId := -1, lastSliceId := -1,
         history := s.history + [WriteDone(id)])
  }

  /** Where the next slice goes; the slot is slice_num when the chosen bank is full. */
  function Target(s: State): (l: Loc)
    requires Bounded(s)
    ensures 0 <= l.bank < s.bankNum && 0 <= l.slot <= s.sliceNum
  {
    var b := SelectBank(s);
    Loc(b, FirstFree(s.encodeVec[b], 0))
  }

  function PlaceSlice(s: State): (r: State)
    requires Bounded(s) && s.encodeQue != []
    ensures Bounded(r) && r.encodeQue == s.encodeQue && r.writeSliceNum == s.writeSliceNum && r.writeCnt == s.writeCnt
    ensures r.readBankIdVec == s.readBankIdVec
    ensures Extends(r, s)
  {
    var l := Target(s);
    if l.slot < s.sliceNum then Allocate(s, s.encodeQue[0], l)
    else s.(history := s.history + [WriteSkip(s.encodeQue[0])])
  }

  function Write(s: State): (r: State)
    requires Bounded(s)
    ensures Bounded(r) && r.readBankIdVec == s.readBankIdVec
    ensures Extends(r, s)
  {
    if s.encodeQue == [] || s.writeCnt <= 0 then s
    else if s.writeCnt - 1 != 0 then s.(writeCnt := s.writeCnt - 1)
    else AdvanceWriter(PlaceSlice(s.(writeCnt := 1)))
  }

  // ---- process (bank.cpp:169-322) ----

  function ClearFlags(s: State): (r: State)
    requires Bounded(s)
    ensures Bounded(r)
    ensures Extends(r, s)
  {
    s.(readBankIdVec := seq(s.bankNum, _ => 0))
  }

  /** The state after the read side of one process() call, before its write. */
  function ReadSide(s: State): (r: State)
    requires Bounded(s)
    ensures Bounded(r)
    ensures Extends(r, s)
  {
    var v := HeadLoop(Fill(s), 0, false);
    Refill(v.s, v.erased)
  }

  function Process(s: State): (r: State)
    requires Bounded(s)
    ensures Bounded(r)
    ensures Extends(r, s)
  {
    ClearFlags(Write(ReadSide(s)))
  }

  // ---- Runs ----

  /** A delivered message, or a clock edge seen by B. */
  datatype Action = Receive(id: int) | Clock

  function Do(s: State, a: Action): (r: State)
    requires Bounded(s)
    ensures Bounded(r)
    ensures Extends(r, s)
  {
    match a
    case Receive(id) => RcvFrom(s, 0x1000, id)
    case Clock => Process(s)
  }

  function Run(s: State, acts: seq<Action>): (r: State)
    requires Bounded(s)
    ensures Bounded(r)
    ensures Extends(r, s)
    decreases acts
  {
    if acts == [] then s else Run(Do(s, acts[0]), acts[1..])
  }
}
