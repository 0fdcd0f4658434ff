/** The simple buffer that the banked buffer is compared with: packets queue up, each packet has one list of stored
    slices, slices leave a list at its front.  It has no banks' ports, links, counters or maps of free slots.
    A history is one of the simple buffer when every event is allowed where it happens. */
module SimpleBuffer {
  import opened Types

  /** chain[id] lists the slots that hold the not yet released slices of packet id, oldest first. */
  datatype Buffer = Buffer(inbox: seq<int>, ready: seq<int>, service: seq<int>, chain: map<int, seq<Loc>>)

  const EMPTY := Buffer([], [], [], map[])

  ghost predicate Stored(b: Buffer, l: Loc) {
    exists id :: id in b.chain && l in b.chain[id]
  }

  function Chain(b: Buffer, id: int): seq<Loc> {
    if id in b.chain then b.chain[id] else []
  }

  /** All packets inside the buffer, oldest stage first. */
  function Live(b: Buffer): seq<int> {
    b.service + b.ready + b.inbox
  }

  function Without(s: seq<int>, x: int): (r: seq<int>)
    ensures |r| <= |s|
    ensures forall y :: y in r <==> y in s && y != x
  {
    if s == [] then [] else if s[0] == x then Without(s[1..], x) else [s[0]] + Without(s[1..], x)
  }

  /** Is the event allowed in buffer b? */
  ghost predicate Allowed(b: Buffer, e: Event) {
    match e
    case Received(id) => id !in Live(b)
    case PutInService(id) => |b.service| < LINK_NUM && b.ready != [] && b.ready[0] == id
    case ReadConflict(id, l) => id in b.service && Chain(b, id) != [] && Chain(b, id)[0] == l
    case ReadRelease(id, l) => id in b.service && Chain(b, id) != [] && Chain(b, id)[0] == l
    case DecodeErase(id) => id in b.service && id in b.chain && b.chain[id] == []
    case WriteAllocate(id, l) => b.inbox != [] && b.inbox[0] == id && !Stored(b, l)
    case WriteSkip(id) => b.inbox != [] && b.inbox[0] == id
    case WriteDone(id) => b.inbox != [] && b.inbox[0] == id && Chain(b, id) != []
  }

  function Apply(b: Buffer, e: Event): Buffer {
    match e
    case Received(id) => b.(inbox := b.inbox + [id])
    case PutInService(id) => b.(ready := if b.ready == [] then [] else b.ready[1..], service := b.service + [id])
    case ReadConflict(id, l) => b
    case ReadRelease(id, l) => b.(chain := b.chain[id := if Chain(b, id) == [] then [] else Chain(b, id)[1..]])
    case DecodeErase(id) => b.(chain := b.chain - {id}, service := Without(b.service, id))
    case WriteAllocate(id, l) => b.(chain := b.chain[id := Chain(b, id) + [l]])
    case WriteSkip(id) => b
    case WriteDone(id) => b.(inbox := if b.inbox == [] then [] else b.inbox[1..], ready := b.ready + [id])
  }

  /** The buffer after history t. */
  function Replay(t: seq<Event>): Buffer {
    if t == [] then EMPTY else Apply(Replay(t[..|t| - 1]), t[|t| - 1])
  }

  /** Every event of t was allowed when it happened: t is a history of the simple buffer. */
  ghost predicate Legal(t: seq<Event>) {
    t != [] ==> Legal(t[..|t| - 1]) && Allowed(Replay(t[..|t| - 1]), t[|t| - 1])
  }

  lemma ReplaySnoc(t: seq<Event>, e: Event)
    ensures Replay(t + [e]) == Apply(Replay(t), e)
    ensures Legal(t + [e]) <==> Legal(t) && Allowed(Replay(t), e)
  {
    assert (t + [e])[..|t|] == t;
  }

  // ---- What every history of the simple buffer satisfies ----

  function SlotsWritten(t: seq<Event>, id: int): seq<Loc> {
    if t == [] then [] else
      var r := SlotsWritten(t[..|t| - 1], id);
      match t[|t| - 1]
      case WriteAllocate(i, l) => if i == id then r + [l] else r
      case _ => r
  }

  function SlotsReleased(t: seq<Event>, id: int): seq<Loc> {
    if t == [] then [] else
      var r := SlotsReleased(t[..|t| - 1], id);
      match t[|t| - 1]
      case ReadRelease(i, l) => if i == id then r + [l] else r
      case _ => r
  }

  function IdsReceived(t: seq<Event>): seq<int> {
    if t == [] then [] else
      var r := IdsReceived(t[..|t| - 1]);
      match t[|t| - 1] case Received(i) => r + [i] case _ => r
  }

  function IdsServed(t: seq<Event>): seq<int> {
    if t == [] then [] else
      var r := IdsServed(t[..|t| - 1]);
      match t[|t| - 1] case PutInService(i) => r + [i] case _ => r
  }

  /** First in, first out per packet: what has been released is what was written, less the slices still stored. */
  lemma {:induction false} ReleasedInWriteOrder(t: seq<Event>, id: int)
    requires Legal(t)
    ensures SlotsWritten(t, id) == SlotsReleased(t, id) + Chain(Replay(t), id)
  {
    if t != [] {
      var u, e := t[..|t| - 1], t[|t| - 1];
      ReleasedInWriteOrder(u, id);
      var c := Chain(Replay(u), id);
      match e
      case ReadRelease(i, l) => if i == id { assert c == [l] + c[1..]; }
      case _ =>
    }
  }

  /** First in, first out across packets. */
  lemma {:induction false} ServedInArrivalOrder(t: seq<Event>)
    requires Legal(t)
    ensures IdsReceived(t) == IdsServed(t) + Replay(t).ready + Replay(t).inbox
  {
    if t != [] {
      var u, e := t[..|t| - 1], t[|t| - 1];
      ServedInArrivalOrder(u);
      var b := Replay(u);
      match e
      case PutInService(id) => assert b.ready == [id] + b.ready[1..];
      case WriteDone(id) => assert b.inbox == [id] + b.inbox[1..];
      case _ =>
    }
  }

  // ---- The invariant of the simple buffer ----

  ghost predicate Exclusive(chain: map<int, seq<Loc>>) {
    && (forall id :: id in chain ==> NoDup(chain[id]))
    && (forall id, other, i, j ::
          (id in chain && other in chain && id != other && 0 <= i < |chain[id]| && 0 <= j < |chain[other]|) ==>
          chain[id][i] != chain[other][j])
  }

  /** Packets are pairwise distinct, slots too, and exactly the packets whose first slice is stored have a chain. */
  ghost predicate Sound(b: Buffer) {
    && NoDup(Live(b))
    && |b.service| <= LINK_NUM
    && Exclusive(b.chain)
    && (forall id :: id in b.service || id in b.ready ==> id in b.chain)
    && (forall id :: id in b.ready ==> b.chain[id] != [])
    && (forall id :: id in b.chain ==> id in b.service || id in b.ready || (b.inbox != [] && id == b.inbox[0]))
  }

  lemma {:induction false} WithoutIsRemoval(s: seq<int>, i: nat)
    requires NoDup(s) && i < |s|
    ensures Without(s, s[i]) == s[..i] + s[i + 1..]
  {
    if i == 0 {
      WithoutAbsent(s[1..], s[0]);
    } else {
      WithoutIsRemoval(s[1..], i - 1);
      assert [s[0]] + (s[1..][..i - 1] + s[1..][i..]) == s[..i] + s[i + 1..];
    }
  }

  lemma {:induction false} WithoutAbsent(s: seq<int>, x: int)
    requires x !in s
    ensures Without(s, x) == s
  {
    if s != [] { WithoutAbsent(s[1..], x); }
  }

  lemma LiveOnce(b: Buffer, id: int)
    requires NoDup(Live(b))
    ensures id in b.service ==> id !in b.ready && id !in b.inbox
    ensures id in b.ready ==> id !in b.inbox
  {
    var live, m, n := Live(b), |b.service|, |b.service| + |b.ready|;
    assert forall k :: 0 <= k < m ==> b.service[k] == live[k];
    assert forall k :: 0 <= k < |b.ready| ==> b.ready[k] == live[m + k];
    assert forall k :: 0 <= k < |b.inbox| ==> b.inbox[k] == live[n + k];
  }

  lemma RemovalKeepsNoDup(s: seq<int>, i: nat)
    requires NoDup(s) && i < |s|
    ensures NoDup(s[..i] + s[i + 1..])
  {
    var r := s[..i] + s[i + 1..];
    assert forall k :: 0 <= k < |r| ==> r[k] == s[if k < i then k else k + 1];
  }

  lemma SplitAt(s: seq<int>, i: nat)
    requires NoDup(s) && i < |s|
    ensures s == s[..i] + [s[i]] + s[i + 1..]
    ensures s[i] !in s[..i] && s[i] !in s[i + 1..]
  {}

  lemma PrefixNoDup(s: seq<int>, n: nat)
    requires NoDup(s) && n <= |s|
    ensures NoDup(s[..n])
  {}

  lemma RemovalInPrefix(s: seq<int>, t: seq<int>, i: nat)
    requires i < |s|
    ensures (s[..i] + s[i + 1..]) + t == (s + t)[..i] + (s + t)[i + 1..]
  {}

  lemma EraseSplits(b: Buffer, id: int) returns (x: seq<int>, y: seq<int>)
    requires NoDup(Live(b)) && id in b.service
    ensures Live(b) == x + [id] + y && Live(Apply(b, DecodeErase(id))) == x + y
    ensures id !in x && id !in y
  {
    hide NoDup;
    var s, live := b.service, Live(b);
    assert live[..|s|] == s;
    PrefixNoDup(live, |s|);
    var i :| 0 <= i < |s| && s[i] == id;
    WithoutIsRemoval(s, i);
    SplitAt(live, i);
    x, y := live[..i], live[i + 1..];
    EraseSplitsHere(b, id, i);
  }

  lemma EraseSplitsHere(b: Buffer, id: int, i: nat)
    requires i < |b.service| && Without(b.service, id) == b.service[..i] + b.service[i + 1..]
    ensures Live(Apply(b, DecodeErase(id))) == Live(b)[..i] + Live(b)[i + 1..]
  {
    hide Without;
    var t := b.ready + b.inbox;
    assert Live(b) == b.service + t;
    RemovalInPrefix(b.service, t, i);
    assert Live(Apply(b, DecodeErase(id))) == Without(b.service, id) + t;
  }

  lemma EraseKeepsLive(b: Buffer, id: int)
    requires NoDup(Live(b)) && id in b.service
    ensures NoDup(Live(Apply(b, DecodeErase(id))))
  {
    var x, y := EraseSplits(b, id);
    assert x + y == Live(b)[..|x|] + Live(b)[|x| + 1..];
    RemovalKeepsNoDup(Live(b), |x|);
  }

  lemma ApplyKeepsLive(b: Buffer, e: Event)
    requires NoDup(Live(b)) && Allowed(b, e)
    ensures NoDup(Live(Apply(b, e)))
  {
    var c := Apply(b, e);
    match e
    case Received(id) =>
      assert Live(c) == Live(b) + [id];
    case PutInService(id) =>
      assert b.ready == [id] + b.ready[1..];
      assert Live(c) == Live(b);
    case WriteDone(id) =>
      assert b.inbox == [id] + b.inbox[1..];
      assert Live(c) == Live(b);
    case DecodeErase(id) =>
      EraseKeepsLive(b, id);
    case _ =>
  }

  lemma ApplyKeepsExclusive(b: Buffer, e: Event)
    requires Exclusive(b.chain) && Allowed(b, e)
    ensures Exclusive(Apply(b, e).chain)
  {}

  lemma ApplyKeepsSound(b: Buffer, e: Event)
    requires Sound(b) && Allowed(b, e)
    ensures Sound(Apply(b, e))
  {
    ApplyKeepsLive(b, e);
    ApplyKeepsExclusive(b, e);
    LiveOnce(b, e.id);
  }

  lemma {:induction false} LegalIsSound(t: seq<Event>)
    requires Legal(t)
    ensures Sound(Replay(t))
  {
    if t != [] {
      LegalIsSound(t[..|t| - 1]);
      ApplyKeepsSound(Replay(t[..|t| - 1]), t[|t| - 1]);
    }
  }
}
