/** Runs: sequences of messages and clock edges, in parts. */
module Runs {
  import opened Spec

  /** The number of clock edges of a run. */
  function Clocks(acts: seq<Action>): nat {
    if acts == [] then 0 else (if acts[0].Clock? then 1 else 0) + Clocks(acts[1..])
  }

  /** n clock edges. */
  function Ticks(n: nat): seq<Action> {
    if n == 0 then [] else [Clock] + Ticks(n - 1)
  }

  /** The ids of the packets that arrive in a run. */
  function Arrivals(acts: seq<Action>): seq<int> {
    if acts == [] then []
    else (match acts[0] case Receive(id) => [id] case Clock => []) + Arrivals(acts[1..])
  }

  /** Five packets. */
  const FIRST_FIVE := [Receive(1), Receive(2), Receive(3), Receive(4), Receive(5)]

  lemma BoundedAfter(s: State, a: Action)
    requires Bounded(s)
    ensures Bounded(Do(s, a))
  {}

  lemma {:induction false} RunOfBoth(s: State, a: seq<Action>, b: seq<Action>)
    requires Bounded(s)
    ensures Run(s, a + b) == Run(Run(s, a), b)
    ensures Clocks(a + b) == Clocks(a) + Clocks(b)
    decreases a
  {
    hide Bounded, Process, RcvFrom;
    if a == [] {
      assert a + b == b;
    } else {
      assert (a + b)[0] == a[0] && (a + b)[1..] == a[1..] + b;
      BoundedAfter(s, a[0]);
      RunOfBoth(Do(s, a[0]), a[1..], b);
    }
  }

  lemma RunOfOne(s: State, c: Action)
    requires Bounded(s)
    ensures Run(s, [c]) == Do(s, c)
    ensures Clocks([c]) == if c.Clock? then 1 else 0
  {
    hide LinkInRange, Process, Extends, RcvFrom;
    assert [c][1..] == [];
  }

  lemma PrefixStep(s: State, acts: seq<Action>, k: nat)
    requires Bounded(s) && 0 < k <= |acts|
    ensures Run(s, acts[..k]) == Run(Do(s, acts[0]), acts[1..][..k - 1])
    ensures Clocks(acts[..k]) == Clocks(acts[1..][..k - 1]) + if acts[0].Clock? then 1 else 0
    ensures k == 1 ==> Run(s, acts[..k]) == Do(s, acts[0]) && Clocks(acts[..k]) <= 1
  {
    assert acts[..k][1..] == acts[1..][..k - 1];
  }

  lemma TickOnce(s: State, n: nat)
    requires Bounded(s)
    ensures Run(s, Ticks(n + 1)) == Run(Process(s), Ticks(n))
  {
    hide Bounded, Process;
    assert Ticks(n + 1)[0] == Clock && Ticks(n + 1)[1..] == Ticks(n);
  }

  lemma NoTicks(s: State)
    requires Bounded(s)
    ensures Run(s, Ticks(0)) == s
  {}

  lemma {:induction false} TicksOfBoth(a: nat, b: nat)
    ensures Ticks(a + b) == Ticks(a) + Ticks(b)
  {
    if a > 0 { TicksOfBoth(a - 1, b); }
  }

  lemma {:induction false} ArrivalsOfBoth(a: seq<Action>, b: seq<Action>)
    ensures Arrivals(a + b) == Arrivals(a) + Arrivals(b)
  {
    if a == [] {
      assert a + b == b;
    } else {
      assert (a + b)[0] == a[0] && (a + b)[1..] == a[1..] + b;
      ArrivalsOfBoth(a[1..], b);
    }
  }

  lemma {:induction false} NoArrivals(n: nat)
    ensures Arrivals(Ticks(n)) == []
  {
    if n > 0 { NoArrivals(n - 1); }
  }

  lemma ArrivalsOfFive()
    ensures Arrivals(FIRST_FIVE) == [1, 2, 3, 4, 5]
  {
    assert Arrivals([Receive(5)]) == [5];
    assert Arrivals([Receive(4), Receive(5)]) == [4] + Arrivals([Receive(5)]);
    assert Arrivals([Receive(3), Receive(4), Receive(5)]) == [3] + Arrivals([Receive(4), Receive(5)]);
    assert FIRST_FIVE[1..] == [Receive(2), Receive(3), Receive(4), Receive(5)];
    assert FIRST_FIVE[1..][1..] == [Receive(3), Receive(4), Receive(5)];
  }
}
