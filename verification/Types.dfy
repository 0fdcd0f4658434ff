/** The values handled by the banked slice buffer of bank.cpp. */
module Types {

  // decode_link_num, the member delay, and the initial write_slice_num (bank.cpp:98).
  const LINK_NUM := 4
  const READ_DELAY := 4
  const PACKET_SLICES := 16

  /** A slot of a bank. */
  datatype Loc = Loc(bank: int, slot: int)

  datatype Slice = Slice(valid: int, bankId: int, sliceId: int, nextBankId: int, nextSliceId: int, queueId: int)

  const FREE_SLICE := Slice(0, -1, -1, -1, -1, -1)

  datatype QueueInfo = QueueInfo(bankId: int, sliceId: int, counter: int, delay: int)

  /** The statistics of one bank. */
  datatype Bank = Bank(readConflictCnt: int, readCnt: int)

  /** What the buffer does that an observer can tell apart.  The source prints a line for Received, ReadConflict,
      ReadRelease, DecodeErase and WriteAllocate; the other three happen silently. */
  datatype Event =
    | Received(id: int)
    | PutInService(id: int)
    | ReadConflict(id: int, loc: Loc)
    | ReadRelease(id: int, loc: Loc)
    | DecodeErase(id: int)
    | WriteAllocate(id: int, loc: Loc)
    | WriteSkip(id: int)
    | WriteDone(id: int)

  type Memory = seq<seq<Slice>>

  predicate Has(mem: Memory, l: Loc) {
    0 <= l.bank < |mem| && 0 <= l.slot < |mem[l.bank]|
  }

  function At(mem: Memory, l: Loc): Slice
    requires Has(mem, l)
  {
    mem[l.bank][l.slot]
  }

  /** The memory with one slice overwritten. */
  function Put(mem: Memory, l: Loc, x: Slice): (r: Memory)
    requires Has(mem, l)
    ensures |r| == |mem|
    ensures forall b :: 0 <= b < |mem| ==> |r[b]| == |mem[b]|
    ensures At(r, l) == x
    ensures forall b, j :: 0 <= b < |mem| && 0 <= j < |mem[b]| && Loc(b, j) != l ==> r[b][j] == mem[b][j]
    ensures forall b :: 0 <= b < |mem| && b != l.bank ==> r[b] == mem[b]
  {
    mem[l.bank := mem[l.bank][l.slot := x]]
  }

  /** The entry that std::map::operator[] finds or creates. */
  function Lookup(m: map<int, QueueInfo>, id: int): QueueInfo {
    if id in m then m[id] else QueueInfo(0, 0, 0, 0)
  }

  ghost predicate NoDup<T>(s: seq<T>) {
    forall i, j :: 0 <= i < j < |s| ==> s[i] != s[j]
  }
}
