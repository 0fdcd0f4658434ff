/** Where the writer puts a slice. */
module Allocation {
  import opened Types
  import opened Spec
  import opened SimpleBuffer
  import opened HeapShape
  import opened Refinement

  /** Bank b has a free slot and is not read in this cycle. */
  ghost predicate Open(s: State, b: int)
    requires Bounded(s) && 0 <= b < s.bankNum
  {
    s.readBankIdVec[b] != 1 && s.bankDeepVec[b] > 0
  }

  lemma {:induction false} ScanPicksDeepest(read: seq<int>, deep: seq<int>, n: nat)
    requires n <= |read| == |deep|
    ensures var p := Scan(read, deep, n);
      if exists b :: 0 <= b < n && read[b] != 1 && deep[b] > 0 then
        && p.bank < n && read[p.bank] != 1 && deep[p.bank] == p.deep > 0
        && (forall b :: 0 <= b < n && read[b] != 1 ==> deep[b] <= p.deep)
        && (forall b :: 0 <= b < p.bank && read[b] != 1 ==> deep[b] < p.deep)
      else p == Pick(0, 0)
  {
    if n > 0 { ScanPicksDeepest(read, deep, n - 1); }
  }

  /** If some bank is open, the write goes to the lowest-numbered deepest open bank, into its lowest free slot: it is
      not dropped and does not share a bank with a read. */
  lemma WriteGoesToDeepestOpenBank(s: State, candidate: int)
    requires Linked(s) && 0 <= candidate < s.bankNum && Open(s, candidate)
    ensures var l := Target(s);
      && Open(s, l.bank) && l.slot < s.sliceNum
      && (forall b :: 0 <= b < s.bankNum && s.readBankIdVec[b] != 1 ==> s.bankDeepVec[b] <= s.bankDeepVec[l.bank])
      && (forall b :: 0 <= b < l.bank && s.readBankIdVec[b] != 1 ==> s.bankDeepVec[b] < s.bankDeepVec[l.bank])
      && s.encodeVec[l.bank][l.slot].valid == 0
      && (forall j :: 0 <= j < l.slot ==> s.encodeVec[l.bank][j].valid == 1)
  {
    hide Replay, Legal;
    ScanPicksDeepest(s.readBankIdVec, s.bankDeepVec, s.bankNum);
    var l := Target(s);
    CountFreeRange(s.encodeVec[l.bank]);
    forall j | 0 <= j < l.slot ensures s.encodeVec[l.bank][j].valid == 1 {
      ValidIsOne(s, Loc(l.bank, j));
    }
  }

  lemma ValidIsOne(s: State, l: Loc)
    requires Linked(s) && Has(s.encodeVec, l)
    ensures s.encodeVec[l.bank][l.slot].valid == 0 || s.encodeVec[l.bank][l.slot].valid == 1
  {
    hide Replay, Legal, CountFree;
    var x, chain := s.encodeVec[l.bank][l.slot], Replay(s.history).chain;
    if x != FREE_SLICE {
      assert Holds(s.encodeVec, x.queueId, chain[x.queueId]);
    }
  }

  /** A slice is dropped exactly when no bank is open and bank 0, the fallback, is full. */
  lemma DropsIff(s: State)
    requires Linked(s)
    ensures Target(s).slot == s.sliceNum <==>
      s.bankDeepVec[0] == 0 && forall b :: 0 <= b < s.bankNum ==> !Open(s, b)
  {
    hide Replay, Legal, Heap;
    ScanPicksDeepest(s.readBankIdVec, s.bankDeepVec, s.bankNum);
    var l := Target(s);
    CountFreeRange(s.encodeVec[l.bank]);
    if b :| 0 <= b < s.bankNum && Open(s, b) {
      assert Open(s, l.bank);
    } else {
      assert forall b :: 0 <= b < s.bankNum && s.readBankIdVec[b] != 1 ==> s.bankDeepVec[b] <= 0 by {
        forall b | 0 <= b < s.bankNum && s.readBankIdVec[b] != 1 ensures s.bankDeepVec[b] <= 0 {
          assert !Open(s, b);
        }
      }
    }
  }
}
