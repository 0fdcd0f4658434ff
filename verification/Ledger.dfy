/** Counting laws that hold in every run, whatever arrives and whether or not slices are dropped. */
module Ledger {
  import opened Types
  import opened Spec

  /** What an event is counted as. */
  datatype Kind =
    | AllocatedIn(bank: int) | ReleasedIn(bank: int) | ConflictIn(bank: int)
    | AnyAllocation | AnyRelease | AnyConflict | AnySkip
    | ReceivedOf(id: int) | StoredOf(id: int) | SkippedOf(id: int) | DoneOf(id: int) | ErasedOf(id: int)

  predicate Matches(e: Event, k: Kind) {
    match k
    case AllocatedIn(b) => e.WriteAllocate? && e.loc.bank == b
    case ReleasedIn(b) => e.ReadRelease? && e.loc.bank == b
    case ConflictIn(b) => e.ReadConflict? && e.loc.bank == b
    case AnyAllocation => e.WriteAllocate?
    case AnyRelease => e.ReadRelease?
    case AnyConflict => e.ReadConflict?
    case AnySkip => e.WriteSkip?
    case ReceivedOf(id) => e == Received(id)
    case StoredOf(id) => e.WriteAllocate? && e.id == id
    case SkippedOf(id) => e == WriteSkip(id)
    case DoneOf(id) => e == WriteDone(id)
    case ErasedOf(id) => e == DecodeErase(id)
  }

  function Tally(t: seq<Event>, k: Kind): nat {
    if t == [] then 0 else Tally(t[..|t| - 1], k) + if Matches(t[|t| - 1], k) then 1 else 0
  }

  lemma NoEvents(k: Kind)
    ensures Tally([], k) == 0
  {}

  lemma TallySnoc(t: seq<Event>, e: Event)
    ensures forall k :: Tally(t + [e], k) == Tally(t, k) + if Matches(e, k) then 1 else 0
  {
    assert (t + [e])[..|t|] == t;
  }

  lemma {:induction false} TallyGrows(t: seq<Event>, u: seq<Event>, k: Kind)
    requires t <= u
    ensures Tally(t, k) <= Tally(u, k)
    decreases u
  {
    if t != u { TallyGrows(t, u[..|u| - 1], k); }
  }

  lemma {:induction false} ConflictsInBank(t: seq<Event>, b: int)
    ensures Tally(t, ConflictIn(b)) <= Tally(t, AnyConflict)
  {
    if t != [] { ConflictsInBank(t[..|t| - 1], b); }
  }

  function Sum(s: seq<int>): int {
    if s == [] then 0 else Sum(s[..|s| - 1]) + s[|s| - 1]
  }

  lemma {:induction false} SumUpdate(s: seq<int>, i: nat, v: int)
    requires i < |s|
    ensures Sum(s[i := v]) == Sum(s) - s[i] + v
  {
    var u := s[i := v];
    if i < |s| - 1 {
      SumUpdate(s[..|s| - 1], i, v);
      assert u[..|s| - 1] == s[..|s| - 1][i := v];
    } else {
      assert u[..|s| - 1] == s[..|s| - 1];
    }
  }

  lemma SumOfTwo(s: seq<int>)
    requires |s| == 2
    ensures Sum(s) == s[0] + s[1]
  {
    assert Sum(s[..1]) == Sum(s[..1][..0]) + s[0];
  }

  lemma {:induction false} SumOfEqual(s: seq<int>, v: int)
    requires forall i :: 0 <= i < |s| ==> s[i] == v
    ensures Sum(s) == |s| * v
  {
    if s != [] { SumOfEqual(s[..|s| - 1], v); }
  }

  /** The read conflicts counted in all banks together. */
  function ConflictSum(v: seq<Bank>): int {
    if v == [] then 0 else ConflictSum(v[..|v| - 1]) + v[|v| - 1].readConflictCnt
  }

  lemma {:induction false} ConflictSumUpdate(v: seq<Bank>, i: nat, c: Bank)
    requires i < |v|
    ensures ConflictSum(v[i := c]) == ConflictSum(v) - v[i].readConflictCnt + c.readConflictCnt
  {
    var u := v[i := c];
    if i < |v| - 1 {
      ConflictSumUpdate(v[..|v| - 1], i, c);
      assert u[..|v| - 1] == v[..|v| - 1][i := c];
    } else {
      assert u[..|v| - 1] == v[..|v| - 1];
    }
  }

  lemma {:induction false} ConflictSumIsZero(v: seq<Bank>)
    requires forall b :: 0 <= b < |v| ==> v[b].readConflictCnt >= 0
    ensures ConflictSum(v) >= 0
    ensures ConflictSum(v) == 0 <==> forall b :: 0 <= b < |v| ==> v[b].readConflictCnt == 0
  {
    if v != [] {
      var u := v[..|v| - 1];
      ConflictSumIsZero(u);
      assert forall b :: 0 <= b < |u| ==> u[b] == v[b];
    }
  }

  /** Each bank's depth and statistics as sums over the history, and all depths and all conflicts together. */
  ghost predicate BankLedger(s: State)
    requires Bounded(s)
  {
    && (forall b :: 0 <= b < s.bankNum ==>
          && s.bankDeepVec[b] ==
               s.sliceNum - Tally(s.history, AllocatedIn(b)) + Tally(s.history, ReleasedIn(b))
          && s.bankConflictVec[b].readConflictCnt == Tally(s.history, ConflictIn(b))
          && s.bankConflictVec[b].readCnt == Tally(s.history, ConflictIn(b)) + Tally(s.history, ReleasedIn(b)))
    && Sum(s.bankDeepVec) ==
         s.bankNum * s.sliceNum - Tally(s.history, AnyAllocation) + Tally(s.history, AnyRelease)
    && ConflictSum(s.bankConflictVec) == Tally(s.history, AnyConflict)
  }

  /** For packet id: received once per finished packet and per waiting one; slices stored or skipped are 16 per
      finished packet plus those counted so far for the packet being written. */
  ghost predicate PacketLedger(s: State, id: int) {
    && s.writeCnt == 1 && 1 <= s.writeSliceNum <= PACKET_SLICES
    && (s.encodeQue == [] ==> s.writeSliceNum == PACKET_SLICES)
    && Tally(s.history, ReceivedOf(id)) == Tally(s.history, DoneOf(id)) + multiset(s.encodeQue)[id]
    && Tally(s.history, StoredOf(id)) + Tally(s.history, SkippedOf(id)) ==
         PACKET_SLICES * Tally(s.history, DoneOf(id))
         + if s.encodeQue != [] && s.encodeQue[0] == id then PACKET_SLICES - s.writeSliceNum else 0
  }

  /** Since history t, every bank has released at most one slice, and its flag tells which ones did. */
  ghost predicate Ports(t: seq<Event>, s: State)
    requires Bounded(s)
  {
    forall b :: 0 <= b < s.bankNum ==>
      && 0 <= s.readBankIdVec[b] <= 1
      && Tally(s.history, ReleasedIn(b)) == Tally(t, ReleasedIn(b)) + s.readBankIdVec[b]
  }

  ghost predicate Books(t: seq<Event>, s: State, pid: int) {
    Bounded(s) && BankLedger(s) && PacketLedger(s, pid) && Ports(t, s)
  }

  lemma ReceiveKeepsBooks(t: seq<Event>, s: State, pid: int, id: int)
    requires Books(t, s, pid)
    ensures Books(t, RcvFrom(s, 0x1000, id), pid)
  {
    hide Tally, LinkInRange, ConflictSum, Sum;
    TallySnoc(s.history, Received(id));
  }

  lemma StartServiceKeepsBooks(t: seq<Event>, s: State, pid: int, delay: int)
    requires Books(t, s, pid) && s.decodeQue != [] && |s.decodeQueHead| < LINK_NUM
    ensures Books(t, StartService(s, delay), pid)
  {
    hide Tally, LinkInRange, Bounded, ConflictSum, Sum;
    TallySnoc(s.history, PutInService(s.decodeQue[0]));
  }

  lemma {:induction false} FillLoopKeepsBooks(t: seq<Event>, s: State, pid: int, delay: int)
    requires Books(t, s, pid) && |s.decodeQueHead| + |s.decodeQue| >= LINK_NUM
    ensures Books(t, FillLoop(s, delay), pid)
    decreases LINK_NUM - |s.decodeQueHead|
  {
    hide Tally, Books;
    if |s.decodeQueHead| < LINK_NUM {
      StartServiceKeepsBooks(t, s, pid, delay);
      FillLoopKeepsBooks(t, StartService(s, delay), pid, delay + 1);
    }
  }

  lemma ConflictKeepsBooks(t: seq<Event>, s: State, pid: int, id: int)
    requires Books(t, s, pid) && id in s.queueMap
    ensures Books(t, Conflict(s, id), pid)
  {
    hide Tally, LinkInRange, ConflictSum;
    var b := s.queueMap[id].bankId;
    var c := s.bankConflictVec[b];
    ConflictSumUpdate(s.bankConflictVec, b, Bank(c.readConflictCnt + 1, c.readCnt + 1));
    TallySnoc(s.history, ReadConflict(id, Loc(s.queueMap[id].bankId, s.queueMap[id].sliceId)));
  }

  lemma FreeKeepsBooks(t: seq<Event>, s: State, pid: int, id: int)
    requires Books(t, s, pid) && id in s.queueMap && s.readBankIdVec[s.queueMap[id].bankId] != 1
    ensures Books(t, Free(s, id), pid)
  {
    hide Tally, LinkInRange, Sum, ConflictSum;
    var b := s.queueMap[id].bankId;
    var c := s.bankConflictVec[b];
    ConflictSumUpdate(s.bankConflictVec, b, Bank(c.readConflictCnt, c.readCnt + 1));
    SumUpdate(s.bankDeepVec, b, s.bankDeepVec[b] + 1);
    TallySnoc(s.history, ReadRelease(id, Loc(s.queueMap[id].bankId, s.queueMap[id].sliceId)));
  }

  /** The books do not depend on the queues of the read side; an erase is not counted. */
  lemma ReadQueuesAreNotBooked(t: seq<Event>, s: State, r: State, pid: int)
    requires Books(t, s, pid) && Bounded(r)
    requires r == s.(queueMap := r.queueMap, decodeQueHead := r.decodeQueHead, history := r.history)
    requires r.history == s.history || exists id :: r.history == s.history + [DecodeErase(id)]
    ensures Books(t, r, pid)
  {
    hide Tally, LinkInRange, ConflictSum, Sum;
    if r.history != s.history {
      var id :| r.history == s.history + [DecodeErase(id)];
      TallySnoc(s.history, DecodeErase(id));
    }
  }

  lemma VisitKeepsBooks(t: seq<Event>, s: State, pid: int, i: int)
    requires Books(t, s, pid) && 0 <= i < |s.decodeQueHead|
    ensures Books(t, Visit(s, i).s, pid)
  {
    hide Tally, LinkInRange, BankLedger, PacketLedger, Ports;
    var id := s.decodeQueHead[i];
    if id in s.queueMap {
      var k := Tick(s.queueMap[id]);
      var s' := s.(queueMap := s.queueMap[id := k.info]);
      ReadQueuesAreNotBooked(t, s, s', pid);
      if k.due && s.readBankIdVec[k.info.bankId] == 1 {
        ConflictKeepsBooks(t, s', pid, id);
      } else if k.due {
        FreeKeepsBooks(t, s', pid, id);
        ReadQueuesAreNotBooked(t, Free(s', id), Release(s', i).s, pid);
      }
    }
  }

  lemma {:induction false} HeadLoopKeepsBooks(t: seq<Event>, s: State, pid: int, i: int, erased: bool)
    requires Books(t, s, pid) && 0 <= i <= |s.decodeQueHead|
    requires erased ==> |s.decodeQueHead| < LINK_NUM
    ensures Books(t, HeadLoop(s, i, erased).s, pid)
    decreases |s.decodeQueHead| - i
  {
    hide Visit, Tally, BankLedger, PacketLedger, Ports;
    if i < |s.decodeQueHead| {
      VisitKeepsBooks(t, s, pid, i);
      var v := Visit(s, i);
      HeadLoopKeepsBooks(t, v.s, pid, if v.erased then i else i + 1, erased || v.erased);
    }
  }

  lemma ReadSideKeepsBooks(t: seq<Event>, s: State, pid: int)
    requires Books(t, s, pid)
    ensures Books(t, ReadSide(s), pid)
  {
    hide HeadLoop, FillLoop, StartService, Tally, BankLedger, PacketLedger, Ports;
    if |s.decodeQue| > LINK_NUM { FillLoopKeepsBooks(t, s, pid, 1); }
    HeadLoopKeepsBooks(t, Fill(s), pid, 0, false);
    var v := HeadLoop(Fill(s), 0, false);
    if v.erased && v.s.decodeQue != [] {
      StartServiceKeepsBooks(t, v.s, pid, 4 - (|v.s.decodeQueHead| + 1));
    }
  }

  lemma AllocateKeepsPorts(t: seq<Event>, s: State, id: int, l: Loc)
    requires Bounded(s) && Ports(t, s) && Has(s.encodeVec, l)
    ensures Ports(t, Allocate(s, id, l))
  {
    hide Tally, LinkInRange, Put;
    TallySnoc(s.history, WriteAllocate(id, l));
  }

  lemma AllocateKeepsLedger(s: State, id: int, l: Loc)
    requires Bounded(s) && BankLedger(s) && Has(s.encodeVec, l)
    ensures BankLedger(Allocate(s, id, l))
  {
    hide Tally, LinkInRange, Put, Sum, ConflictSum;
    SumUpdate(s.bankDeepVec, l.bank, s.bankDeepVec[l.bank] - 1);
    TallySnoc(s.history, WriteAllocate(id, l));
  }

  lemma SkipKeepsBanks(t: seq<Event>, s: State, e: Event)
    requires Bounded(s) && BankLedger(s) && Ports(t, s) && (e.WriteSkip? || e.WriteDone?)
    ensures var r := s.(history := s.history + [e]); BankLedger(r) && Ports(t, r)
  {
    hide Tally, LinkInRange, ConflictSum, Sum;
    TallySnoc(s.history, e);
  }

  lemma WriteKeepsBanks(t: seq<Event>, s: State)
    requires Bounded(s) && BankLedger(s) && Ports(t, s) && s.writeCnt == 1
    ensures BankLedger(Write(s)) && Ports(t, Write(s))
  {
    hide Tally, LinkInRange, Allocate, FirstFree, Put, ConflictSum, Sum;
    if s.encodeQue != [] {
      assert s.(writeCnt := 1) == s;
      var id, l := s.encodeQue[0], Target(s);
      if l.slot < s.sliceNum {
        AllocateKeepsLedger(s, id, l);
        AllocateKeepsPorts(t, s, id, l);
      } else {
        SkipKeepsBanks(t, s, WriteSkip(id));
      }
      SkipKeepsBanks(t, PlaceSlice(s), WriteDone(id));
    }
  }

  lemma PlaceSliceIsCounted(s: State, id: int)
    requires Bounded(s) && s.encodeQue != []
    ensures var h := PlaceSlice(s).history;
      && Tally(h, StoredOf(id)) + Tally(h, SkippedOf(id)) ==
           Tally(s.history, StoredOf(id)) + Tally(s.history, SkippedOf(id)) + (if id == s.encodeQue[0] then 1 else 0)
      && Tally(h, DoneOf(id)) == Tally(s.history, DoneOf(id))
      && Tally(h, ReceivedOf(id)) == Tally(s.history, ReceivedOf(id))
  {
    hide Tally, LinkInRange, FirstFree, Put, ConflictSum, Sum;
    TallySnoc(s.history, WriteAllocate(s.encodeQue[0], Target(s)));
    TallySnoc(s.history, WriteSkip(s.encodeQue[0]));
  }

  lemma FrontLeaves(q: seq<int>, id: int)
    requires q != []
    ensures multiset(q)[id] == multiset(q[1..])[id] + if q[0] == id then 1 else 0
  {
    assert q == [q[0]] + q[1..];
  }

  lemma AdvanceIsCounted(p: State, id: int)
    requires p.encodeQue != [] && p.writeCnt == 1 && 1 <= p.writeSliceNum <= PACKET_SLICES
    requires Tally(p.history, ReceivedOf(id)) == Tally(p.history, DoneOf(id)) + multiset(p.encodeQue)[id]
    requires Tally(p.history, StoredOf(id)) + Tally(p.history, SkippedOf(id)) ==
      PACKET_SLICES * Tally(p.history, DoneOf(id))
      + if p.encodeQue[0] == id then PACKET_SLICES - p.writeSliceNum + 1 else 0
    ensures PacketLedger(AdvanceWriter(p), id)
  {
    hide Tally, Bounded;
    TallySnoc(p.history, WriteDone(p.encodeQue[0]));
    FrontLeaves(p.encodeQue, id);
  }

  lemma WriteKeepsPacketLedger(s: State, id: int)
    requires Bounded(s) && PacketLedger(s, id) && s.encodeQue != []
    ensures PacketLedger(Write(s), id)
  {
    hide Tally, Bounded, PlaceSlice, AdvanceWriter;
    assert s.(writeCnt := 1) == s;
    PlaceSliceIsCounted(s, id);
    AdvanceIsCounted(PlaceSlice(s), id);
  }

  lemma WriteKeepsBooks(t: seq<Event>, s: State, pid: int)
    requires Books(t, s, pid)
    ensures Books(t, Write(s), pid)
  {
    WriteKeepsBanks(t, s);
    if s.encodeQue != [] { WriteKeepsPacketLedger(s, pid); }
  }

  // ---- Over runs ----

  ghost predicate Audited(s: State, pid: int) {
    Bounded(s) && BankLedger(s) && PacketLedger(s, pid) && forall b :: 0 <= b < s.bankNum ==> s.readBankIdVec[b] == 0
  }

  /** In one process() call each bank releases at most one slice, the flags tell the writer exactly which banks did,
      and they are all clear again afterwards. */
  lemma ProcessKeepsBooks(s: State, pid: int)
    requires Audited(s, pid)
    ensures Audited(Process(s), pid)
    ensures forall b :: 0 <= b < s.bankNum ==>
      && 0 <= ReadSide(s).readBankIdVec[b] <= 1
      && Tally(ReadSide(s).history, ReleasedIn(b)) == Tally(s.history, ReleasedIn(b)) + ReadSide(s).readBankIdVec[b]
      && Tally(Process(s).history, ReleasedIn(b)) == Tally(ReadSide(s).history, ReleasedIn(b))
  {
    hide Tally, Sum, LinkInRange, ReadSide, Write;
    var t := s.history;
    ReadSideKeepsBooks(t, s, pid);
    var r := ReadSide(s);
    WriteKeepsBooks(t, r, pid);
  }
}
