/** The load that the packets in service and those waiting put on a buffer that drops nothing: a bound on the times of
    the heads and the stock behind them that every clock edge keeps, whichever heads lose their reads. */
module Load {

  // ---- The bound ----

  function Below(x: int, y: int): int {
    if y < x then 1 else 0
  }

  /** How many consecutive phases just before that of x the times p, q and r occupy. */
  function Shifts(x: int, p: int, q: int, r: int): int {
    var a, b, c := (x - p) % 4, (x - q) % 4, (x - r) % 4;
    if a != 1 && b != 1 && c != 1 then 0
    else if a != 2 && b != 2 && c != 2 then 1
    else if a != 3 && b != 3 && c != 3 then 2
    else 3
  }

  /** Time x of one of four heads, the others having times p, q and r, fits to a stock of n slices behind them. */
  predicate FitsFour(x: int, p: int, q: int, r: int, n: int) {
    x + n <= 80 + 16 * (Below(x, p) + Below(x, q) + Below(x, r)) + Shifts(x, p, q, r)
  }

  predicate Four(a: int, b: int, c: int, d: int, n: int) {
    FitsFour(a, b, c, d, n) && FitsFour(b, a, c, d, n) && FitsFour(c, a, b, d, n) && FitsFour(d, a, b, c, n)
  }

  predicate FitsThree(x: int, p: int, q: int, n: int) {
    x + n <= 96 + 16 * (Below(x, p) + Below(x, q)) + Shifts(x, p, q, q)
  }

  predicate Three(a: int, b: int, c: int, n: int) {
    n <= 80 && FitsThree(a, b, c, n) && FitsThree(b, a, c, n) && FitsThree(c, a, b, n)
  }

  /** The earlier head of two, at time a, and the later one, at time b. */
  predicate Pair(a: int, b: int, n: int) {
    var d := (b - a) % 4;
    && a + n <= (if d == 2 then 113 else if d == 3 then 115 else 114)
    && b + n <= (if d == 0 || d == 3 then 129 else 130)
  }

  predicate Two(a: int, b: int, n: int) {
    n <= 80 && if a <= b then Pair(a, b, n) else Pair(b, a, n)
  }

  predicate One(a: int, n: int) {
    n <= 80 && a + n <= 130
  }

  // ---- One cycle ----

  /** The time of a head after a cycle in which it loses its read, or does not. */
  function Later(x: int, lost: bool): int {
    if lost then x else x - 1
  }

  /** Heads that lose are due, and so is one that does not lose. */
  predicate Lost(a: int, la: bool, b: int, lb: bool, c: int, lc: bool, d: int, ld: bool) {
    && (la ==> a % 4 == 1) && (lb ==> b % 4 == 1) && (lc ==> c % 4 == 1) && (ld ==> d % 4 == 1)
    && (la || lb || lc || ld ==>
          (!la && a % 4 == 1) || (!lb && b % 4 == 1) || (!lc && c % 4 == 1) || (!ld && d % 4 == 1))
  }

  lemma LaterIs(x: int, lx: bool)
    ensures Later(x, lx) == x - if lx then 0 else 1
  {}

  /** How far a head is behind another one, modulo 4, after the cycle. */
  lemma Gap(x: int, lx: bool, p: int, lp: bool)
    ensures (Later(x, lx) - Later(p, lp)) % 4 ==
      if lx == lp then (x - p) % 4 else if lx then (x - p + 1) % 4 else (x - p - 1) % 4
  {}

  lemma Follows(k: int)
    ensures (k + 1) % 4 == if k % 4 == 3 then 0 else k % 4 + 1
    ensures (k - 1) % 4 == if k % 4 == 0 then 3 else k % 4 - 1
  {}

  lemma Gaps(x: int, lx: bool, p: int, lp: bool)
    requires (lx ==> x % 4 == 1) && (lp ==> p % 4 == 1)
    ensures var g, h := (x - p) % 4, (Later(x, lx) - Later(p, lp)) % 4;
      && 0 <= g <= 3 && 0 <= h <= 3
      && (lx == lp ==> h == g)
      && (lx && !lp ==> h == if g == 3 then 0 else g + 1)
      && (!lx && lp ==> h == if g == 0 then 3 else g - 1)
      && (x % 4 == 1 && p % 4 == 1 ==> g == 0)
      && (x % 4 == 1 ==> (g == 0 <==> p % 4 == 1))
      && (p % 4 == 1 ==> (g == 0 <==> x % 4 == 1))
  {
    Gap(x, lx, p, lp);
    Follows(x - p);
  }

  /** A head that loses moves up behind the one that won. */
  lemma ShiftsGrow(a: int, la: bool, b: int, lb: bool, c: int, lc: bool, d: int, ld: bool)
    requires Lost(a, la, b, lb, c, lc, d, ld)
    ensures Shifts(Later(a, la), Later(b, lb), Later(c, lc), Later(d, ld)) >= Shifts(a, b, c, d) + if la then 1 else 0
  {
    hide Later;
    Gaps(a, la, b, lb);
    Gaps(a, la, c, lc);
    Gaps(a, la, d, ld);
    Gaps(b, lb, c, lc);
    Gaps(b, lb, d, ld);
    Gaps(c, lc, d, ld);
  }

  /** Heads in the same phase have the same phases before them. */
  lemma SameShifts(a: int, b: int, c: int, d: int)
    requires a == b
    ensures Shifts(a, b, c, d) == Shifts(b, a, c, d)
  {}

  lemma SwapShifts(a: int, b: int, c: int, d: int)
    ensures Shifts(a, b, c, d) == Shifts(a, c, b, d) == Shifts(a, c, d, b)
  {}

  lemma LostInAnyOrder(a: int, la: bool, b: int, lb: bool, c: int, lc: bool, d: int, ld: bool)
    requires Lost(a, la, b, lb, c, lc, d, ld)
    ensures Lost(b, lb, a, la, c, lc, d, ld) && Lost(c, lc, a, la, b, lb, d, ld)
    ensures Lost(d, ld, a, la, b, lb, c, lc)
  {}

  lemma StaysFour(a: int, la: bool, b: int, lb: bool, c: int, lc: bool, d: int, ld: bool, n: int, w: int)
    requires Four(a, b, c, d, n) && Lost(a, la, b, lb, c, lc, d, ld) && 0 <= w <= 1
    ensures FitsFour(Later(a, la), Later(b, lb), Later(c, lc), Later(d, ld), n + w)
  {
    hide Shifts, Later, Lost;
    LaterIs(a, la);
    LaterIs(b, lb);
    LaterIs(c, lc);
    LaterIs(d, ld);
    LostInAnyOrder(a, la, b, lb, c, lc, d, ld);
    ShiftsGrow(a, la, b, lb, c, lc, d, ld);
    ShiftsGrow(b, lb, a, la, c, lc, d, ld);
    ShiftsGrow(c, lc, a, la, b, lb, d, ld);
    ShiftsGrow(d, ld, a, la, b, lb, c, lc);
    var x, p, q, r := Later(a, la), Later(b, lb), Later(c, lc), Later(d, ld);
    SwapShifts(x, p, q, r);
    if x == p || x == q || x == r {
      SwapShifts(p, x, q, r);
      SwapShifts(q, x, p, r);
      SwapShifts(r, x, p, q);
      if x == p { SameShifts(x, p, q, r); }
      if x == q { SameShifts(x, q, p, r); }
      if x == r { SameShifts(x, r, p, q); }
    } else {
      assert Below(x, p) >= Below(a, b) && Below(x, q) >= Below(a, c) && Below(x, r) >= Below(a, d);
    }
  }

  lemma StaysThree(a: int, la: bool, b: int, lb: bool, c: int, lc: bool, n: int, w: int)
    requires Three(a, b, c, n) && Lost(a, la, b, lb, c, lc, c, lc) && 0 <= w <= 1
    ensures FitsThree(Later(a, la), Later(b, lb), Later(c, lc), n + w)
  {
    hide Shifts, Later;
    LaterIs(a, la);
    LaterIs(b, lb);
    LaterIs(c, lc);
    var x, p, q := Later(a, la), Later(b, lb), Later(c, lc);
    ShiftsGrow(a, la, b, lb, c, lc, c, lc);
    ShiftsGrow(b, lb, a, la, c, lc, c, lc);
    ShiftsGrow(c, lc, a, la, b, lb, b, lb);
    SameThree(x, p, q);
    SameThree(x, q, p);
  }

  lemma SameThree(a: int, b: int, c: int)
    ensures Shifts(a, b, c, c) == Shifts(a, c, b, b)
    ensures a == b ==> Shifts(a, b, c, c) == Shifts(b, a, c, c)
  {}

  lemma StaysTwo(a: int, la: bool, b: int, lb: bool, n: int, w: int)
    requires Two(a, b, n) && Lost(a, la, b, lb, b, lb, b, lb) && 0 <= w <= 1 && n + w <= 80
    ensures Two(Later(a, la), Later(b, lb), n + w)
  {
    Gaps(a, la, b, lb);
    Gaps(b, lb, a, la);
  }

  // ---- Heads that leave, replaced by one waiting packet ----

  /** A time of 64 or more is in a phase after the one that the leaving head had. */
  lemma ShiftsAbove(x: int, p: int, q: int)
    requires 64 <= x <= 66
    ensures Shifts(x, 0, p, q) <= Shifts(0, x, p, q) + x - 64
  {}

  lemma SixtyFourIsZero(x: int)
    ensures (x - 64) % 4 == (x - 0) % 4 && (64 - x) % 4 == (0 - x) % 4
  {}

  lemma PhaseOfNewcomer(x: int, p: int, q: int)
    ensures Shifts(x, p, q, 64) == Shifts(x, 0, p, q) && Shifts(64, x, p, q) == Shifts(0, x, p, q)
  {
    SixtyFourIsZero(x);
    SixtyFourIsZero(p);
    SixtyFourIsZero(q);
  }

  lemma OneLeavesFour(b: int, c: int, d: int, m: int)
    requires Four(0, b, c, d, m) && 1 <= b <= 66 && 1 <= c <= 66 && 1 <= d <= 66
    ensures Four(b, c, d, 64, m - 16)
  {
    hide Shifts;
    PhaseOfNewcomer(b, c, d);
    PhaseOfNewcomer(c, b, d);
    PhaseOfNewcomer(d, b, c);
    SwapShifts(0, b, c, d);
    SwapShifts(0, c, b, d);
    SwapShifts(0, d, b, c);
    if b >= 64 { ShiftsAbove(b, c, d); }
    if c >= 64 { ShiftsAbove(c, b, d); }
    if d >= 64 { ShiftsAbove(d, b, c); }
  }

  lemma TwoLeaveFour(c: int, d: int, m: int)
    requires Four(0, 0, c, d, m) && 1 <= c <= 66 && 1 <= d <= 66
    ensures Three(c, d, 64, m - 16)
  {
  }

  lemma ThreeLeaveFour(d: int, m: int)
    requires Four(0, 0, 0, d, m) && 1 <= d <= 66
    ensures Two(d, 65, m - 16)
  {}

  lemma AllLeaveFour(m: int)
    requires Four(0, 0, 0, 0, m)
    ensures One(66, m - 16)
  {}

  lemma OneLeavesThree(b: int, c: int, m: int)
    requires Three(0, b, c, m) && 1 <= b <= 66 && 1 <= c <= 66
    ensures Three(b, c, 64, m - 16)
  {}

  lemma TwoLeaveThree(c: int, m: int)
    requires Three(0, 0, c, m) && 1 <= c <= 66
    ensures Two(c, 65, m - 16)
  {}

  lemma OneLeavesTwo(b: int, m: int)
    requires Two(0, b, m) && 1 <= b <= 66
    ensures Two(b, 65, m - 16)
  {}

  lemma NoneWaits(a: int, b: int, c: int, m: int)
    requires a <= 66 && b <= 66 && c <= 66 && m <= 16
    ensures Three(a, b, c, m) && Two(a, b, m) && One(a, m)
  {}

  // ---- Filling ----

  lemma FillsThree(a: int, b: int, c: int)
    requires Three(a, b, c, 80)
    ensures Four(a, b, c, 64, 64)
  {}

  lemma FillsTwo(a: int, b: int)
    requires Two(a, b, 80)
    ensures Four(a, b, 64, 65, 48)
  {}

  lemma FillsOne(a: int)
    requires One(a, 80)
    ensures Four(a, 64, 65, 66, 32)
  {}

  lemma FillsNone()
    ensures Four(64, 65, 66, 67, 16)
  {}

  // ---- The stock ----

  /** The slices of a head that leaves in x cycles, at most 16. */
  function Slices(x: int): int {
    if x <= 64 then (x + 3) / 4 else 16
  }

  /** The largest number that is congruent to n modulo 4 and at most k plus what x lacks to a multiple of 4. */
  function Excess(x: int, k: int, n: int): int {
    var m := k + (0 - x) % 4;
    m - (m - n) % 4
  }

  lemma SlicesOfHead(x: int, k: int, n: int, bound: int)
    requires x + n <= bound + k && bound % 4 == 0
    ensures 4 * Slices(x) + n <= bound + Excess(x, k, n)
  {
    var pad := (0 - x) % 4;
    assert (x + pad) % 4 == 0 && 4 * Slices(x) <= x + pad;
    Quarter(x, pad, k, n, bound);
  }

  lemma Quarter(x: int, pad: int, k: int, n: int, bound: int)
    requires x + n <= bound + k && bound % 4 == 0 && (x + pad) % 4 == 0
    ensures x + pad + n <= bound + k + pad - (k + pad - n) % 4
  {}

  /** Time x, p, q or r is in phase k. */
  predicate Holds(k: int, p: int, q: int, r: int) {
    p % 4 == k || q % 4 == k || r % 4 == k
  }

  lemma ShiftsNeed(x: int, p: int, q: int, r: int)
    ensures 0 <= Shifts(x, p, q, r) <= 3
    ensures x % 4 == 1 ==>
      && (Shifts(x, p, q, r) >= 1 ==> Holds(0, p, q, r)) && (Shifts(x, p, q, r) >= 2 ==> Holds(3, p, q, r))
      && (Shifts(x, p, q, r) >= 3 ==> Holds(2, p, q, r))
    ensures x % 4 == 2 ==>
      && (Shifts(x, p, q, r) >= 2 ==> Holds(0, p, q, r)) && (Shifts(x, p, q, r) >= 3 ==> Holds(3, p, q, r))
    ensures x % 4 == 3 ==> Shifts(x, p, q, r) >= 3 ==> Holds(0, p, q, r)
  {}

  lemma ExcessIs(x: int, k: int, n: int)
    requires 0 <= k <= 3
    ensures var m, e, v := k + (0 - x) % 4, Excess(x, k, n), n % 4;
      && e == (if m >= v + 4 then v + 4 else if m >= v then v else v - 4)
      && (0 - x) % 4 == (if x % 4 == 0 then 0 else 4 - x % 4)
  {}

  /** When the excess of a head is large, other heads are in phases in which it is small. */
  lemma ExcessNeeds(x: int, p: int, q: int, r: int, n: int)
    ensures var e, v := Excess(x, Shifts(x, p, q, r), n), n % 4;
      && e <= (if v == 3 then 3 else v + 4)
      && (v == 2 && e > 2 ==> x % 4 == 1 && Holds(0, p, q, r) && Holds(2, p, q, r) && Holds(3, p, q, r))
      && (v == 1 && e > 1 ==> 1 <= x % 4 <= 2 && Holds(0, p, q, r) && Holds(3, p, q, r))
      && (v == 0 && e > 0 ==> x % 4 != 0 && Holds(0, p, q, r))
  {
    hide Shifts, Excess, Holds;
    ShiftsNeed(x, p, q, r);
    ExcessIs(x, Shifts(x, p, q, r), n);
  }

  lemma Excesses(a: int, b: int, c: int, d: int, n: int)
    ensures Excess(a, Shifts(a, b, c, d), n) + Excess(b, Shifts(b, a, c, d), n)
      + Excess(c, Shifts(c, a, b, d), n) + Excess(d, Shifts(d, a, b, c), n) <= 12
  {
    hide Shifts, Excess;
    ExcessNeeds(a, b, c, d, n);
    ExcessNeeds(b, a, c, d, n);
    ExcessNeeds(c, a, b, d, n);
    ExcessNeeds(d, a, b, c, n);
  }

  lemma StockOfFour(a: int, b: int, c: int, d: int, n: int)
    requires Four(a, b, c, d, n) && n >= 0
    ensures Slices(a) + Slices(b) + Slices(c) + Slices(d) + n <= 107
  {
    hide Shifts, Excess, Slices;
    SlicesOfHead(a, Shifts(a, b, c, d), n, 80 + 16 * (Below(a, b) + Below(a, c) + Below(a, d)));
    SlicesOfHead(b, Shifts(b, a, c, d), n, 80 + 16 * (Below(b, a) + Below(b, c) + Below(b, d)));
    SlicesOfHead(c, Shifts(c, a, b, d), n, 80 + 16 * (Below(c, a) + Below(c, b) + Below(c, d)));
    SlicesOfHead(d, Shifts(d, a, b, c), n, 80 + 16 * (Below(d, a) + Below(d, b) + Below(d, c)));
    Excesses(a, b, c, d, n);
  }

  lemma StockOfThree(a: int, b: int, c: int, n: int)
    requires Three(a, b, c, n) && n >= 0
    ensures Slices(a) + Slices(b) + Slices(c) + n <= 107
  {}

  lemma StockOfTwo(a: int, b: int, n: int)
    requires Two(a, b, n) && n >= 0
    ensures Slices(a) + Slices(b) + n <= 107
  {}

  // ---- Lists of heads ----

  /** Heads with times t and a stock of n slices behind them. */
  predicate Balanced(t: seq<int>, n: int) {
    if |t| == 0 then n <= 80
    else if |t| == 1 then One(t[0], n)
    else if |t| == 2 then Two(t[0], t[1], n)
    else if |t| == 3 then Three(t[0], t[1], t[2], n)
    else |t| == 4 && Four(t[0], t[1], t[2], t[3], n)
  }

  /** The times that are not up. */
  function Positive(t: seq<int>): (r: seq<int>)
    ensures |r| <= |t|
  {
    if t == [] then [] else (if t[0] > 0 then [t[0]] else []) + Positive(t[1..])
  }

  /** The time of a packet that takes the place of a head when k heads are left. */
  function NewTime(k: int): int {
    if k >= 2 then 64 else if k == 1 then 65 else 66
  }

  function Kept(x: int): seq<int> {
    if x > 0 then [x] else []
  }

  lemma PositiveCons(x: int, t: seq<int>)
    ensures Positive([x] + t) == Kept(x) + Positive(t)
  {
    assert ([x] + t)[1..] == t;
  }

  lemma PositiveOfFour(a: int, b: int, c: int, d: int)
    ensures Positive([a, b, c, d]) == Kept(a) + (Kept(b) + (Kept(c) + Kept(d)))
    ensures Positive([a, b, c]) == Kept(a) + (Kept(b) + Kept(c))
    ensures Positive([a, b]) == Kept(a) + Kept(b)
    ensures Positive([a]) == Kept(a)
  {
    hide Positive, Kept;
    assert Positive([]) == [] by { NonePositive(); }
    PositiveCons(d, []);
    PositiveCons(c, [d]);
    PositiveCons(b, [c, d]);
    PositiveCons(a, [b, c, d]);
    PositiveCons(c, []);
    PositiveCons(b, [c]);
    PositiveCons(a, [b, c]);
    PositiveCons(b, []);
    PositiveCons(a, [b]);
    PositiveCons(a, []);
    assert [a] + [b, c, d] == [a, b, c, d] && [b] + [c, d] == [b, c, d] && [c] + [d] == [c, d] && [d] + [] == [d];
    assert [a] + [b, c] == [a, b, c] && [b] + [c] == [b, c] && [c] + [] == [c];
    assert [a] + [b] == [a, b] && [b] + [] == [b] && [a] + [] == [a];
    assert Kept(d) + [] == Kept(d) && Kept(c) + [] == Kept(c) && Kept(b) + [] == Kept(b) && Kept(a) + [] == Kept(a);
  }

  lemma NonePositive()
    ensures Positive([]) == []
  {}

  lemma FourInAnyOrder(a: int, b: int, c: int, d: int, m: int)
    requires Four(a, b, c, d, m)
    ensures Four(b, a, c, d, m) && Four(c, a, b, d, m) && Four(d, a, b, c, m)
    ensures Four(a, c, b, d, m) && Four(a, d, b, c, m) && Four(b, c, a, d, m)
    ensures Four(b, d, a, c, m) && Four(c, d, a, b, m)
    ensures Four(a, b, d, c, m) && Four(a, c, d, b, m) && Four(b, c, d, a, m)
  {
    hide Shifts, Below;
    SwapShifts(a, b, c, d);
    SwapShifts(a, b, d, c);
    SwapShifts(a, c, d, b);
    SwapShifts(b, a, c, d);
    SwapShifts(b, a, d, c);
    SwapShifts(b, c, d, a);
    SwapShifts(c, a, b, d);
    SwapShifts(c, a, d, b);
    SwapShifts(c, b, d, a);
    SwapShifts(d, a, b, c);
    SwapShifts(d, a, c, b);
    SwapShifts(d, b, c, a);
  }

  lemma LeaveFour(a: int, b: int, c: int, d: int, m: int)
    requires Four(a, b, c, d, m) && 0 <= a <= 66 && 0 <= b <= 66 && 0 <= c <= 66 && 0 <= d <= 66
    ensures var r := Positive([a, b, c, d]); |r| < 4 ==> Balanced(r + [NewTime(|r|)], m - 16)
  {
    hide Four, Three, Two, One, Positive;
    PositiveOfFour(a, b, c, d);
    FourInAnyOrder(a, b, c, d, m);
    if a == 0 && b == 0 && c == 0 && d == 0 {
      AllLeaveFour(m);
    } else if a == 0 && b == 0 && c == 0 {
      ThreeLeaveFour(d, m);
    } else if a == 0 && b == 0 && d == 0 {
      ThreeLeaveFour(c, m);
    } else if a == 0 && c == 0 && d == 0 {
      ThreeLeaveFour(b, m);
    } else if b == 0 && c == 0 && d == 0 {
      ThreeLeaveFour(a, m);
    } else {
      FewLeaveFour(a, b, c, d, m);
    }
  }

  lemma FewLeaveFour(a: int, b: int, c: int, d: int, m: int)
    requires Four(a, b, c, d, m) && 0 <= a <= 66 && 0 <= b <= 66 && 0 <= c <= 66 && 0 <= d <= 66
    ensures var r := Positive([a, b, c, d]); 2 <= |r| < 4 ==> Balanced(r + [NewTime(|r|)], m - 16)
  {
    hide Four, Three, Two, One, Positive;
    PositiveOfFour(a, b, c, d);
    FourInAnyOrder(a, b, c, d, m);
    if a == 0 && b == 0 && c > 0 && d > 0 {
      TwoLeaveFour(c, d, m);
    } else if a == 0 && c == 0 && b > 0 && d > 0 {
      TwoLeaveFour(b, d, m);
    } else if a == 0 && d == 0 && b > 0 && c > 0 {
      TwoLeaveFour(b, c, m);
    } else if b == 0 && c == 0 && a > 0 && d > 0 {
      TwoLeaveFour(a, d, m);
    } else if b == 0 && d == 0 && a > 0 && c > 0 {
      TwoLeaveFour(a, c, m);
    } else if c == 0 && d == 0 && a > 0 && b > 0 {
      TwoLeaveFour(a, b, m);
    } else if a == 0 && b > 0 && c > 0 && d > 0 {
      OneLeavesFour(b, c, d, m);
    } else if b == 0 && a > 0 && c > 0 && d > 0 {
      OneLeavesFour(a, c, d, m);
    } else if c == 0 && a > 0 && b > 0 && d > 0 {
      OneLeavesFour(a, b, d, m);
    } else if d == 0 && a > 0 && b > 0 && c > 0 {
      OneLeavesFour(a, b, c, m);
    }
  }

  lemma ThreeInAnyOrder(a: int, b: int, c: int, m: int)
    requires Three(a, b, c, m)
    ensures Three(b, a, c, m) && Three(c, a, b, m) && Three(a, c, b, m) && Three(b, c, a, m)
  {
    hide Shifts, Below;
    SameThree(a, b, c);
    SameThree(b, a, c);
    SameThree(c, a, b);
  }

  lemma LeaveThree(a: int, b: int, c: int, m: int)
    requires Three(a, b, c, m) && 0 <= a <= 66 && 0 <= b <= 66 && 0 <= c <= 66
    ensures var r := Positive([a, b, c]); |r| < 3 ==> Balanced(r + [NewTime(|r|)], m - 16)
  {
    hide Three, Two, Positive;
    PositiveOfFour(a, b, c, 0);
    ThreeInAnyOrder(a, b, c, m);
    if a == 0 && b == 0 && c > 0 {
      TwoLeaveThree(c, m);
    } else if a == 0 && c == 0 && b > 0 {
      TwoLeaveThree(b, m);
    } else if b == 0 && c == 0 && a > 0 {
      TwoLeaveThree(a, m);
    } else if a == 0 && b > 0 && c > 0 {
      OneLeavesThree(b, c, m);
    } else if b == 0 && a > 0 && c > 0 {
      OneLeavesThree(a, c, m);
    } else if c == 0 && a > 0 && b > 0 {
      OneLeavesThree(a, b, m);
    } else if a == 0 {
      assert m <= 80 by { ThreeIsSmall(a, b, c, m); }
    }
  }

  lemma ThreeIsSmall(a: int, b: int, c: int, m: int)
    requires Three(a, b, c, m)
    ensures m <= 80
  {}

  lemma LeaveTwo(a: int, b: int, m: int)
    requires Two(a, b, m) && 0 <= a <= 66 && 0 <= b <= 66
    ensures var r := Positive([a, b]); |r| < 2 ==> Balanced(r + [NewTime(|r|)], m - 16)
  {
    hide Positive;
    PositiveOfFour(a, b, 0, 0);
    if a == 0 && b > 0 {
      OneLeavesTwo(b, m);
    } else if b == 0 && a > 0 {
      OneLeavesTwo(a, m);
    }
  }

  lemma LeaveOne(a: int, m: int)
    requires One(a, m) && 0 <= a <= 66
    ensures var r := Positive([a]); |r| < 1 ==> Balanced(r + [NewTime(|r|)], m - 16)
  {
    PositiveOfFour(a, 0, 0, 0);
  }

  // ---- A cycle of the list ----

  /** What a cycle makes of time i of t: one less, or the same if the head is due and loses to another due head. */
  predicate SteppedAt(t: seq<int>, u: seq<int>, i: int)
    requires |u| == |t| && 0 <= i < |t|
  {
    || u[i] == t[i] - 1
    || (u[i] == t[i] && t[i] % 4 == 1 && exists j :: 0 <= j < |t| && u[j] == t[j] - 1 && t[j] % 4 == 1)
  }

  /** t and u are the times before and after a cycle; 0 is the time of a head that leaves. */
  predicate Stepped(t: seq<int>, u: seq<int>) {
    && |u| == |t| <= 4
    && (forall i :: 0 <= i < |t| ==> SteppedAt(t, u, i))
    && (forall i :: 0 <= i < |t| ==> 0 <= u[i] <= 66)
  }

  /** The list after a cycle, with the packet that has taken the place of a head, if one left and one waited. */
  function Replaced(t: seq<int>, r: seq<int>, n: int): seq<int> {
    if |r| < |t| && n >= 16 then r + [NewTime(|r|)] else r
  }

  function Behind(t: seq<int>, r: seq<int>, n: int): int {
    if |r| < |t| && n >= 16 then n - 16 else n
  }

  lemma NoneLeaves(t: seq<int>)
    requires |t| <= 4 && |Positive(t)| == |t|
    ensures Positive(t) == t
    decreases t
  {
    if t != [] {
      NoneLeaves(t[1..]);
      assert t == [t[0]] + t[1..];
    }
  }

  lemma StepsOfFour(t: seq<int>, u: seq<int>, n: int, w: int)
    requires |t| == 4 && Stepped(t, u) && Balanced(t, n) && 0 <= w <= 1
    ensures |u| == 4 && Four(u[0], u[1], u[2], u[3], n + w)
  {
    hide FitsFour, Three, Two;
    var a, b, c, d := t[0], t[1], t[2], t[3];
    var la, lb, lc, ld := u[0] == a, u[1] == b, u[2] == c, u[3] == d;
    assert SteppedAt(t, u, 0) && SteppedAt(t, u, 1) && SteppedAt(t, u, 2) && SteppedAt(t, u, 3);
    assert Lost(a, la, b, lb, c, lc, d, ld);
    FourInAnyOrder(a, b, c, d, n);
    StaysFour(a, la, b, lb, c, lc, d, ld, n, w);
    StaysFour(b, lb, a, la, c, lc, d, ld, n, w);
    StaysFour(c, lc, a, la, b, lb, d, ld, n, w);
    StaysFour(d, ld, a, la, b, lb, c, lc, n, w);
  }

  lemma StepsOfThree(t: seq<int>, u: seq<int>, n: int, w: int)
    requires |t| == 3 && Stepped(t, u) && Balanced(t, n) && 0 <= w <= 1 && n + w <= 80
    ensures |u| == 3 && Three(u[0], u[1], u[2], n + w)
  {
    hide FitsThree, Four, Two;
    var a, b, c := t[0], t[1], t[2];
    var la, lb, lc := u[0] == a, u[1] == b, u[2] == c;
    assert SteppedAt(t, u, 0) && SteppedAt(t, u, 1) && SteppedAt(t, u, 2);
    assert Lost(a, la, b, lb, c, lc, c, lc);
    ThreeInAnyOrder(a, b, c, n);
    StaysThree(a, la, b, lb, c, lc, n, w);
    StaysThree(b, lb, a, la, c, lc, n, w);
    StaysThree(c, lc, a, la, b, lb, n, w);
  }

  lemma StepsOfTwo(t: seq<int>, u: seq<int>, n: int, w: int)
    requires |t| == 2 && Stepped(t, u) && Balanced(t, n) && 0 <= w <= 1 && n + w <= 80
    ensures |u| == 2 && Two(u[0], u[1], n + w)
  {
    hide Two;
    var a, b := t[0], t[1];
    assert SteppedAt(t, u, 0) && SteppedAt(t, u, 1);
    StaysTwo(a, u[0] == a, b, u[1] == b, n, w);
  }

  lemma StepsOfOne(t: seq<int>, u: seq<int>, n: int, w: int)
    requires |t| == 1 && Stepped(t, u) && Balanced(t, n) && 0 <= w <= 1 && n + w <= 80
    ensures |u| == 1 && One(u[0], n + w)
  {
    assert SteppedAt(t, u, 0);
  }

  /** Few slices behind the heads fit to any times. */
  lemma SmallStock(r: seq<int>, m: int)
    requires |r| <= 3 && m <= 16 && forall i :: 0 <= i < |r| ==> r[i] <= 66
    ensures Balanced(r, m)
  {
    hide Three, Two, One;
    NoneWaits(if |r| > 0 then r[0] else 0, if |r| > 1 then r[1] else 0, if |r| > 2 then r[2] else 0, m);
  }

  lemma PositiveInRange(t: seq<int>)
    requires forall i :: 0 <= i < |t| ==> t[i] <= 66
    ensures forall i :: 0 <= i < |Positive(t)| ==> Positive(t)[i] <= 66
  {}

  /** Whichever heads lose, a cycle keeps the bound; w is the slice that is written in it, if any. */
  lemma CycleKeepsBalanced(t: seq<int>, u: seq<int>, n: int, w: int)
    requires Stepped(t, u) && Balanced(t, n) && 0 <= w <= 1 && (|t| < 4 ==> n + w <= 80)
    ensures var r := Positive(u); Balanced(Replaced(t, r, n), Behind(t, r, n) + w)
  {
    hide Four, Three, Two, Positive, SteppedAt;
    var r := Positive(u);
    PositiveInRange(u);
    if |t| == 4 {
      StepsOfFour(t, u, n, w);
      assert u == [u[0], u[1], u[2], u[3]];
      LeaveFour(u[0], u[1], u[2], u[3], n + w);
    } else if |t| == 3 {
      StepsOfThree(t, u, n, w);
      assert u == [u[0], u[1], u[2]];
      LeaveThree(u[0], u[1], u[2], n + w);
    } else if |t| == 2 {
      StepsOfTwo(t, u, n, w);
      assert u == [u[0], u[1]];
      LeaveTwo(u[0], u[1], n + w);
    } else if |t| == 1 {
      StepsOfOne(t, u, n, w);
      assert u == [u[0]];
      LeaveOne(u[0], n + w);
    }
    if |r| == |t| { NoneLeaves(u); } else if n < 16 { SmallStock(r, n + w); }
  }

  // ---- Filling the list, and its stock ----

  /** The times of the packets that fill a list of k heads. */
  function Fillers(k: nat): seq<int>
    requires k <= 4
  {
    [64, 65, 66, 67][..4 - k]
  }

  /** A list of fewer than four heads is filled when five packets wait. */
  lemma FillKeepsBalanced(t: seq<int>)
    requires |t| < 4 && Balanced(t, 80)
    ensures Balanced(t + Fillers(|t|), 16 * (|t| + 1))
  {
    hide Four, Three, Two, One;
    if |t| == 3 {
      FillsThree(t[0], t[1], t[2]);
    } else if |t| == 2 {
      FillsTwo(t[0], t[1]);
    } else if |t| == 1 {
      FillsOne(t[0]);
    } else {
      FillsNone();
    }
  }

  function SlicesOf(t: seq<int>): int {
    if t == [] then 0 else Slices(t[0]) + SlicesOf(t[1..])
  }

  lemma SlicesOfLists(t: seq<int>)
    requires |t| <= 4
    ensures |t| == 1 ==> SlicesOf(t) == Slices(t[0])
    ensures |t| == 2 ==> SlicesOf(t) == Slices(t[0]) + Slices(t[1])
    ensures |t| == 3 ==> SlicesOf(t) == Slices(t[0]) + Slices(t[1]) + Slices(t[2])
    ensures |t| == 4 ==> SlicesOf(t) == Slices(t[0]) + Slices(t[1]) + Slices(t[2]) + Slices(t[3])
  {
    hide Slices;
    if t != [] { SlicesOfLists(t[1..]); }
  }

  /** The bound allows at most 107 stored slices. */
  lemma BalancedStock(t: seq<int>, n: int)
    requires Balanced(t, n) && n >= 0
    ensures SlicesOf(t) + n <= 107
  {
    hide Four, Three, Two;
    SlicesOfLists(t);
    if |t| == 4 {
      StockOfFour(t[0], t[1], t[2], t[3], n);
    } else if |t| == 3 {
      StockOfThree(t[0], t[1], t[2], n);
    } else if |t| == 2 {
      StockOfTwo(t[0], t[1], n);
    }
  }
}
