/** The memory of the banked buffer holds exactly the chains of the simple buffer. */
module HeapShape {
  import opened Types
  import opened Spec
  import opened SimpleBuffer

  /** The slice that must sit at position k of chain c of packet id. */
  function Expected(id: int, c: seq<Loc>, k: nat): Slice
    requires k < |c|
  {
    if k + 1 < |c| then Slice(1, c[k].bank, c[k].slot, c[k + 1].bank, c[k + 1].slot, id)
    else Slice(1, c[k].bank, c[k].slot, -1, -1, id)
  }

  ghost predicate Holds(mem: Memory, id: int, c: seq<Loc>) {
    forall k :: 0 <= k < |c| ==> Has(mem, c[k]) && At(mem, c[k]) == Expected(id, c, k)
  }

  /** Every slot is either free with all members reset, or belongs to a chain. */
  ghost predicate Covered(mem: Memory, chain: map<int, seq<Loc>>) {
    forall b, j :: 0 <= b < |mem| && 0 <= j < |mem[b]| ==>
      mem[b][j] == FREE_SLICE || (mem[b][j].queueId in chain && Loc(b, j) in chain[mem[b][j].queueId])
  }

  ghost predicate Heap(mem: Memory, chain: map<int, seq<Loc>>) {
    && (forall id :: id in chain ==> Holds(mem, id, chain[id]))
    && Covered(mem, chain)
  }

  lemma FirstSlice(mem: Memory, chain: map<int, seq<Loc>>, id: int)
    requires Heap(mem, chain) && id in chain && chain[id] != []
    ensures Has(mem, chain[id][0]) && At(mem, chain[id][0]) == Expected(id, chain[id], 0)
    ensures |chain[id]| > 1 ==> Has(mem, chain[id][1])
  {
    assert Holds(mem, id, chain[id]);
  }

  lemma ReleaseShortens(mem: Memory, id: int, c: seq<Loc>)
    requires Holds(mem, id, c) && NoDup(c) && c != []
    ensures Has(mem, c[0]) && Holds(Put(mem, c[0], FREE_SLICE), id, c[1..])
  {
    var d := c[1..];
    assert forall k :: 0 <= k < |d| ==> d[k] == c[k + 1] && Expected(id, d, k) == Expected(id, c, k + 1);
  }

  lemma ReleaseKeepsHeap(mem: Memory, chain: map<int, seq<Loc>>, id: int)
    requires Heap(mem, chain) && Exclusive(chain) && id in chain && chain[id] != []
    ensures Has(mem, chain[id][0])
    ensures Heap(Put(mem, chain[id][0], FREE_SLICE), chain[id := chain[id][1..]])
  {
    var c := chain[id];
    var l, d := c[0], c[1..];
    ReleaseShortens(mem, id, c);
    var mem', chain' := Put(mem, l, FREE_SLICE), chain[id := d];
    forall i | i in chain && i != id ensures Holds(mem', i, chain[i]) {
      assert Holds(mem, i, chain[i]);
    }
    forall b, j | 0 <= b < |mem| && 0 <= j < |mem[b]| && mem'[b][j] != FREE_SLICE
      ensures mem'[b][j].queueId in chain' && Loc(b, j) in chain'[mem'[b][j].queueId]
    {
      assert mem'[b][j] == mem[b][j];
      assert Loc(b, j) in c ==> Loc(b, j) in d by { assert c == [l] + d; }
    }
  }

  /** The memory after storing a slice of packet id in slot l and linking the last slice of chain c to it. */
  function Append(mem: Memory, id: int, c: seq<Loc>, l: Loc): (r: Memory)
    requires Has(mem, l) && (c != [] ==> Has(mem, c[|c| - 1]) && c[|c| - 1] != l)
    ensures |r| == |mem| && forall b :: 0 <= b < |mem| ==> |r[b]| == |mem[b]|
    ensures At(r, l) == Slice(1, l.bank, l.slot, -1, -1, id)
    ensures c != [] ==>
      At(r, c[|c| - 1]) == At(mem, c[|c| - 1]).(nextBankId := l.bank, nextSliceId := l.slot)
    ensures forall b, j ::
      (0 <= b < |mem| && 0 <= j < |mem[b]| && Loc(b, j) != l && (c == [] || Loc(b, j) != c[|c| - 1])) ==>
      r[b][j] == mem[b][j]
  {
    var m := Put(mem, l, Slice(1, l.bank, l.slot, -1, -1, id));
    if c == [] then m
    else
      var last := c[|c| - 1];
      Put(m, last, At(m, last).(nextBankId := l.bank, nextSliceId := l.slot))
  }

  lemma AppendKeepsOthers(mem: Memory, chain: map<int, seq<Loc>>, id: int, l: Loc, i: int)
    requires Heap(mem, chain) && Has(mem, l) && At(mem, l) == FREE_SLICE
    requires i in chain && i != id
    ensures var c := if id in chain then chain[id] else [];
      (c != [] ==> Has(mem, c[|c| - 1])) && Holds(Append(mem, id, c, l), i, chain[i])
  {
    assert Holds(mem, i, chain[i]);
    assert id in chain ==> Holds(mem, id, chain[id]);
  }

  lemma AppendExtends(mem: Memory, id: int, c: seq<Loc>, l: Loc)
    requires Holds(mem, id, c) && NoDup(c) && Has(mem, l) && At(mem, l) == FREE_SLICE
    ensures Holds(Append(mem, id, c, l), id, c + [l])
  {
    var r, d := Append(mem, id, c, l), c + [l];
    forall k | 0 <= k < |d| ensures Has(r, d[k]) && At(r, d[k]) == Expected(id, d, k) {
      if k < |c| { assert At(mem, c[k]) == Expected(id, c, k); }
    }
  }

  lemma AppendCovers(mem: Memory, chain: map<int, seq<Loc>>, id: int, c: seq<Loc>, l: Loc)
    requires Covered(mem, chain) && Holds(mem, id, c) && Has(mem, l) && At(mem, l) == FREE_SLICE
    requires c == if id in chain then chain[id] else []
    ensures Covered(Append(mem, id, c, l), chain[id := c + [l]])
  {
    var r, chain' := Append(mem, id, c, l), chain[id := c + [l]];
    forall b, j | 0 <= b < |mem| && 0 <= j < |mem[b]| && r[b][j] != FREE_SLICE
      ensures r[b][j].queueId in chain' && Loc(b, j) in chain'[r[b][j].queueId]
    {
      assert (c + [l])[|c|] == l;
      if Loc(b, j) != l {
        assert r[b][j].queueId == mem[b][j].queueId;
        assert mem[b][j] != FREE_SLICE;
        assert Loc(b, j) in chain[mem[b][j].queueId];
      }
    }
  }

  lemma AppendKeepsHeap(mem: Memory, chain: map<int, seq<Loc>>, id: int, c: seq<Loc>, l: Loc)
    requires Heap(mem, chain) && Exclusive(chain) && Has(mem, l) && At(mem, l) == FREE_SLICE
    requires c == if id in chain then chain[id] else []
    ensures Holds(mem, id, c)
    ensures Heap(Append(mem, id, c, l), chain[id := c + [l]])
  {
    assert id in chain ==> Holds(mem, id, chain[id]) && NoDup(chain[id]);
    AppendExtends(mem, id, c, l);
    AppendCovers(mem, chain, id, c, l);
    forall i | i in chain && i != id ensures Holds(Append(mem, id, c, l), i, chain[i]) {
      AppendKeepsOthers(mem, chain, id, l, i);
    }
  }

  lemma FreeSlot(mem: Memory, b: Buffer, l: Loc)
    requires Heap(mem, b.chain) && Has(mem, l) && At(mem, l).valid == 0
    ensures At(mem, l) == FREE_SLICE && !Stored(b, l)
  {
    forall id | id in b.chain ensures l !in b.chain[id] {
      assert Holds(mem, id, b.chain[id]);
    }
    assert mem[l.bank][l.slot] == At(mem, l);
  }

  lemma EraseKeepsHeap(mem: Memory, chain: map<int, seq<Loc>>, id: int)
    requires Heap(mem, chain) && id in chain && chain[id] == []
    ensures Heap(mem, chain - {id})
  {}

  // ---- Free slots and the depth counters ----

  function CountFree(row: seq<Slice>): nat {
    if row == [] then 0 else CountFree(row[..|row| - 1]) + if row[|row| - 1].valid == 0 then 1 else 0
  }

  lemma {:induction false} CountFreeUpdate(row: seq<Slice>, j: nat, x: Slice)
    requires j < |row|
    ensures CountFree(row[j := x]) ==
      CountFree(row) - (if row[j].valid == 0 then 1 else 0) + if x.valid == 0 then 1 else 0
  {
    var u := row[j := x];
    if j == |row| - 1 {
      assert u[..|u| - 1] == row[..|row| - 1];
    } else {
      assert u[..|u| - 1] == row[..|row| - 1][j := x];
      CountFreeUpdate(row[..|row| - 1], j, x);
    }
  }

  lemma {:induction false} CountFreeRange(row: seq<Slice>)
    ensures CountFree(row) <= |row|
    ensures CountFree(row) == 0 <==> FirstFree(row, 0) == |row|
  {
    if row != [] {
      CountFreeRange(row[..|row| - 1]);
      assert row == row[..|row| - 1] + [row[|row| - 1]];
      FirstFreePrefix(row, 0);
    }
  }

  lemma {:induction false} FirstFreePrefix(row: seq<Slice>, j: nat)
    requires row != [] && j < |row|
    ensures FirstFree(row, j) == |row| <==>
      FirstFree(row[..|row| - 1], j) == |row| - 1 && row[|row| - 1].valid != 0
    decreases |row| - j
  {
    if j < |row| - 1 && row[j].valid != 0 { FirstFreePrefix(row, j + 1); }
  }

  /** bank_deep_vec counts the free slots of each bank. */
  ghost predicate Depths(mem: Memory, deep: seq<int>) {
    |mem| == |deep| && forall b :: 0 <= b < |mem| ==> deep[b] == CountFree(mem[b])
  }

  lemma PutKeepsDepths(mem: Memory, deep: seq<int>, l: Loc, x: Slice)
    requires Depths(mem, deep) && Has(mem, l)
    ensures Depths(Put(mem, l, x), deep[l.bank := deep[l.bank]
      - (if At(mem, l).valid == 0 then 1 else 0) + if x.valid == 0 then 1 else 0])
  {
    CountFreeUpdate(mem[l.bank], l.slot, x);
  }

  lemma AppendKeepsDepths(mem: Memory, deep: seq<int>, id: int, c: seq<Loc>, l: Loc)
    requires Depths(mem, deep) && Has(mem, l) && At(mem, l) == FREE_SLICE && Holds(mem, id, c)
    ensures Depths(Append(mem, id, c, l), deep[l.bank := deep[l.bank] - 1])
  {
    var m := Put(mem, l, Slice(1, l.bank, l.slot, -1, -1, id));
    PutKeepsDepths(mem, deep, l, Slice(1, l.bank, l.slot, -1, -1, id));
    if c != [] {
      var last := c[|c| - 1];
      assert At(m, last).valid == 1;
      PutKeepsDepths(m, deep[l.bank := deep[l.bank] - 1], last,
                     At(m, last).(nextBankId := l.bank, nextSliceId := l.slot));
    }
  }
}
