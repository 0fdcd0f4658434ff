/** What an id that is twice in service leads to: a head without an entry in queue_map, which keeps its place for
    ever. */
module Blocked {
  import opened Types
  import opened Spec
  import opened Runs

  /** Head h has no entry in queue_map and no packet with its id is coming. */
  ghost predicate Stranded(s: State, h: int) {
    h in s.decodeQueHead && h !in s.queueMap && h !in s.decodeQue && h !in s.encodeQue
  }

  /** When the last slice of a packet is released while its id is in service a second time, the other head is
      stranded. */
  lemma SecondIsStranded(s: State, i: int, j: int)
    requires Bounded(s) && 0 <= i < |s.decodeQueHead| && 0 <= j < |s.decodeQueHead| && i != j
    requires var h := s.decodeQueHead[i];
      s.decodeQueHead[j] == h && h in s.queueMap && h !in s.decodeQue && h !in s.encodeQue
    requires Visit(s, i).erased
    ensures Stranded(Visit(s, i).s, s.decodeQueHead[i])
  {
    hide Put, LinkInRange;
    var q := s.decodeQueHead;
    var r := q[..i] + q[i + 1..];
    assert r[if j < i then j else j - 1] == q[j];
  }

  lemma {:induction false} FillLoopKeepsStranded(s: State, d: int, h: int)
    requires Stranded(s, h) && |s.decodeQueHead| + |s.decodeQue| >= LINK_NUM
    ensures Stranded(FillLoop(s, d), h)
    decreases LINK_NUM - |s.decodeQueHead|
  {
    hide Bounded;
    if |s.decodeQueHead| < LINK_NUM { FillLoopKeepsStranded(StartService(s, d), d + 1, h); }
  }

  lemma VisitKeepsStranded(s: State, i: int, h: int)
    requires Bounded(s) && 0 <= i < |s.decodeQueHead| && Stranded(s, h)
    ensures Stranded(Visit(s, i).s, h)
  {
    hide Put, LinkInRange;
    var q := s.decodeQueHead;
    var j :| 0 <= j < |q| && q[j] == h;
    if i != j { assert (q[..i] + q[i + 1..])[if j < i then j else j - 1] == h; }
  }

  lemma {:induction false} HeadLoopKeepsStranded(s: State, i: int, erased: bool, h: int)
    requires Bounded(s) && 0 <= i <= |s.decodeQueHead| && (erased ==> |s.decodeQueHead| < LINK_NUM) && Stranded(s, h)
    ensures Stranded(HeadLoop(s, i, erased).s, h)
    decreases |s.decodeQueHead| - i
  {
    hide Visit, LinkInRange, Stranded;
    if i < |s.decodeQueHead| {
      var v := Visit(s, i);
      VisitKeepsStranded(s, i, h);
      HeadLoopKeepsStranded(v.s, if v.erased then i else i + 1, erased || v.erased, h);
    }
  }

  lemma WriteKeepsStranded(x: State, h: int)
    requires Bounded(x) && Stranded(x, h)
    ensures Stranded(ClearFlags(Write(x)), h)
  {
    hide Put, LinkInRange, Target;
  }

  lemma ClockKeepsStranded(s: State, h: int)
    requires Bounded(s) && Stranded(s, h)
    ensures Stranded(Process(s), h)
  {
    hide HeadLoop, Write, LinkInRange, Stranded;
    var f := Fill(s);
    if |s.decodeQue| > LINK_NUM { FillLoopKeepsStranded(s, 1, h); }
    HeadLoopKeepsStranded(f, 0, false, h);
    RefillKeepsStranded(HeadLoop(f, 0, false), h);
    WriteKeepsStranded(ReadSide(s), h);
  }

  lemma RefillKeepsStranded(v: Visited, h: int)
    requires Bounded(v.s) && (v.erased ==> |v.s.decodeQueHead| < LINK_NUM) && Stranded(v.s, h)
    ensures Stranded(Refill(v.s, v.erased), h)
  {
    hide LinkInRange;
  }

  /** A stranded head keeps one of the four places for ever, whatever else arrives. */
  lemma {:induction false} StrandedForEver(s: State, acts: seq<Action>, h: int)
    requires Bounded(s) && Stranded(s, h) && h !in Arrivals(acts)
    ensures Stranded(Run(s, acts), h)
    decreases acts
  {
    hide Bounded, Process, Stranded;
    if acts != [] {
      BoundedAfter(s, acts[0]);
      match acts[0] {
        case Receive(id) => assert Stranded(Do(s, acts[0]), h) by { ReceiveKeepsStranded(s, id, h); }
        case Clock => ClockKeepsStranded(s, h);
      }
      StrandedForEver(Do(s, acts[0]), acts[1..], h);
    }
  }

  lemma ReceiveKeepsStranded(s: State, id: int, h: int)
    requires Stranded(s, h) && id != h
    ensures Stranded(RcvFrom(s, 0x1000, id), h)
  {}
}
