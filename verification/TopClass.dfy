/** Classes A and TOP of bank.cpp. */
module TopClass {
  import opened Types
  import opened BufferClass
  import ClosedSystem
  import Cycle
  import Guard
  import Spec

  class A {
    const tx: B
    var encode: int
    var cnt: int
    var queueId: int
    var decodeQue: seq<int>

    function View(): ClosedSystem.Source
      reads this
    {
      ClosedSystem.Source(encode, cnt, queueId, decodeQue)
    }

    constructor (tx: B)
      ensures this.tx == tx && View() == ClosedSystem.START.a
    {
      this.tx := tx;
      encode, cnt, queueId, decodeQue := 0, 0, 0, [];
    }

    /** One clock edge: from the second one on, a new packet id is sent to B. */
    method Process()
      requires tx.Valid()
      modifies this, tx`encodeQue, tx`history
      ensures tx.Valid()
      ensures ClosedSystem.System(View(), tx.View()) ==
        ClosedSystem.SourceEdge(old(ClosedSystem.System(View(), tx.View())))
    {
      hide Spec.Bounded, Rows;
      cnt := cnt + 1;
      queueId := queueId + 1;
      if cnt == 2 {
        encode := 1;
      }
      if encode != 0 {
        tx.RcvFrom(0x1000, queueId);
        decodeQue := decodeQue + [queueId];
      }
      if decodeQue != [] {
        var id := decodeQue[0];
        decodeQue := decodeQue[1..];
        tx.RcvFrom(0x2000, id);
      }
    }
  }

  class Top {
    const a: A
    const b: B

    ghost predicate Valid()
      reads this, a, b, b.Parts()
    {
      a.tx == b && b.Valid()
    }

    ghost function View(): ClosedSystem.System
      reads this, a, b, b.Parts()
    {
      ClosedSystem.System(a.View(), b.View())
    }

    constructor ()
      ensures Valid() && View() == ClosedSystem.START && fresh(a) && fresh(b.Parts())
    {
      var buffer := new B(ClosedSystem.BANK_NUM, ClosedSystem.SLICE_NUM);
      a := new A(buffer);
      b := buffer;
    }

    /** One clock edge, at which either process may run first. */
    method ClockEdge(sourceFirst: bool)
      requires Valid()
      modifies a, b.Parts()
      ensures Valid() && View() == ClosedSystem.Edge(old(View()), sourceFirst)
    {
      hide Spec.Bounded, Spec.Process, Rows, Cycle.Idle, Guard.LosesNext, ClosedSystem.SourceEdge;
      if sourceFirst {
        a.Process();
        b.Process();
      } else {
        b.Process();
        a.Process();
      }
    }

    /** A simulation from the initial state: one clock edge for each element of orders, which says who runs first.
        It counts no read conflict.  One slice is written at each edge from the third on, and at the second if the
        source runs first there; from the 83rd slice on 83 are stored. */
    method Simulate(orders: seq<bool>)
      requires Valid() && View() == ClosedSystem.START
      modifies a, b.Parts()
      ensures Valid() && View() == ClosedSystem.SystemRun(orders)
      ensures forall i :: 0 <= i < b.bankConflictVec.Length ==> b.bankConflictVec[i].readConflictCnt == 0
      ensures b.bankDeepVec.Length == 2
      ensures |orders| >= 2 ==>
        var written := |orders| - 2 + if orders[1] then 1 else 0;
        b.bankDeepVec[0] + b.bankDeepVec[1] == 256 - if written < 83 then written else 83
    {
      for n := 0 to |orders|
        invariant Valid()
        invariant ClosedSystem.Edges(View(), orders[n..]) == ClosedSystem.SystemRun(orders)
      {
        ClockEdge(orders[n]);
        assert orders[n..][0] == orders[n] && orders[n..][1..] == orders[n + 1..];
      }
      assert orders[|orders|..] == [];
      forall i | 0 <= i < b.bankConflictVec.Length ensures b.bankConflictVec[i].readConflictCnt == 0 {
        ClosedSystem.NoConflictEver(orders, i);
        assert b.View().bankConflictVec[i] == b.bankConflictVec[i];
      }
      ClosedSystem.NoConflictEver(orders, 0);
      assert b.View().bankDeepVec == b.bankDeepVec[..];
      if |orders| >= 2 { ClosedSystem.FreeSlotsByTime(orders); }
    }
  }
}
