/** Memory thresholds derived from the host's RAM; percentages and gibibytes are reals. */
module HostMemory {

  function RMax(a: real, b: real): real {
    if a < b then b else a
  }

  function RMin(a: real, b: real): real {
    if a < b then a else b
  }

  function TotalGb(bytes: int): real {
    bytes as real / 1073741824.0
  }

  /** RAM kept free for the rest of the machine. */
  function ReservedFreeGb(total: real): real {
    if total <= 8.0 then 1.25
    else if total <= 16.0 then 1.5
    else RMax(2.0, total * 0.08)
  }

  function ReserveBased(total: real): real {
    100.0 * (1.0 - ReservedFreeGb(total) / RMax(total, 0.1))
  }

  function DynamicYield(bytes: int, cap: real): real {
    if bytes <= 0 then cap
    else RMax(65.0, RMin(cap, ReserveBased(TotalGb(bytes))))
  }

  function DynamicRecover(bytes: int, recover: real, gap: real, cap: real): real {
    RMax(40.0, RMin(recover, DynamicYield(bytes, cap) - gap))
  }

  function BudgetScale(bytes: int): real {
    if bytes <= 0 then 1.0 else RMax(0.5, RMin(1.0, TotalGb(bytes) / 12.0))
  }

  function HeavyProcessMb(bytes: int): real {
    RMax(512.0, TotalGb(bytes) * 1024.0 * 0.08)
  }

  // ----- The thresholds themselves -----

  /** The recovery threshold is the greatest percentage that exceeds neither the configured one nor the
      yield threshold less the gap, but at least 40. */
  lemma RecoverIsGreatest(bytes: int, recover: real, gap: real, cap: real, p: real)
    ensures var q := DynamicRecover(bytes, recover, gap, cap);
      && q >= 40.0
      && (q > 40.0 ==> q <= recover && q <= DynamicYield(bytes, cap) - gap)
      && (p <= recover && p <= DynamicYield(bytes, cap) - gap ==> p <= q)
  {
  }

  /** The yield threshold of a host of x GiB leaves free what the size calls for: 1.25 GiB up to 8, 1.5 up
      to 16, beyond that 8 percent but at least 2 GiB, unless the configured percentage asks for more
      or 65 percent of the memory are not in use yet. Without a size it is the configured one. */
  lemma YieldLeavesFree(bytes: int, cap: real)
    requires cap >= 50.0
    ensures bytes <= 0 ==> DynamicYield(bytes, cap) == cap
    ensures bytes > 0 ==>
      var x := bytes as real / 1073741824.0; var used := x * DynamicYield(bytes, cap) / 100.0;
      var free := if x <= 8.0 then 1.25 else if x <= 16.0 then 1.5 else if x <= 25.0 then 2.0 else x * 0.08;
      && (used == x - free || used == x * cap / 100.0 || used == x * 0.65)
      && used >= x * 0.65
      && (used > x * 0.65 ==> used <= x - free && used <= x * cap / 100.0)
  {
    if bytes > 0 {
      YieldGbIs(bytes, cap);
    }
  }

  /** Token budgets shrink in proportion to the memory below 12 GiB, to no less than one half. */
  lemma ScaleIs(bytes: int)
    ensures BudgetScale(bytes) == 1.0 <==> bytes <= 0 || bytes >= 12884901888
    ensures BudgetScale(bytes) == 0.5 <==> 0 < bytes <= 6442450944
    ensures 6442450944 <= bytes <= 12884901888 ==> BudgetScale(bytes) * 12884901888.0 == bytes as real
  {
  }

  /** For every host and every valid configuration recovery lies strictly below yielding, by at
      least the configured gap or 10 points. */
  lemma RecoverBelowYield(bytes: int, recover: real, gap: real, cap: real)
    requires 50.0 <= cap <= 99.0 && 2.0 <= gap <= 30.0
    ensures DynamicYield(bytes, cap) - DynamicRecover(bytes, recover, gap, cap) >= RMin(gap, 10.0)
    ensures DynamicRecover(bytes, recover, gap, cap) < DynamicYield(bytes, cap)
  {
    assert DynamicYield(bytes, cap) >= 50.0;
  }

  /** The full configured gap, which the operations manual promises always, is kept exactly when
      the yield threshold less the gap does not fall under the 40 percent floor. */
  lemma FullGapIff(bytes: int, recover: real, gap: real, cap: real)
    ensures DynamicYield(bytes, cap) - DynamicRecover(bytes, recover, gap, cap) >= gap
       <==> DynamicYield(bytes, cap) - gap >= 40.0
  {
    var y := DynamicYield(bytes, cap);
    assert DynamicRecover(bytes, recover, gap, cap) >= 40.0;
  }

  lemma FullGapCanBeMissed()
    ensures DynamicYield(17179869184, 65.0) - DynamicRecover(17179869184, 60.0, 30.0, 65.0) == 25.0
  {
    assert TotalGb(17179869184) == 16.0;
  }

  /** The configured percentage is documented as an upper cap; it is one exactly when it is at
      least 65 or the host size is unknown. */
  lemma CapIsUpperBoundIff(bytes: int, cap: real)
    ensures DynamicYield(bytes, cap) <= cap <==> bytes <= 0 || cap >= 65.0
  {
  }

  lemma QuotientFalls(r: real, m: real, n: real)
    requires r >= 0.0 && 0.0 < m <= n
    ensures r / n <= r / m
  {
    var q := r / n;
    assert q * m <= q * n == r;
  }

  lemma CrossMultiply(r: real, m: real, s: real, n: real)
    requires m > 0.0 && n > 0.0
    ensures s / n <= r / m <==> s * m <= r * n
  {
    var p, q := r / m, s / n;
    assert r * n == p * (m * n) && s * m == q * (m * n) by {
      assert p * m == r && q * n == s;
    }
    Ordered(q, p, m * n);
  }

  lemma Ordered(a: real, b: real, k: real)
    requires k > 0.0
    ensures a <= b <==> a * k <= b * k
  {
  }

  /** Two hosts on either side of a jump of the reserve, too close for the larger one to make up for it. */
  predicate CrossesStep(x: real, y: real) {
    (x <= 8.0 < y <= 16.0 && 5.0 * y < 6.0 * x) || (8.0 < x <= 16.0 < y && 3.0 * y < 4.0 * x)
  }

  lemma SameBand(x: real, y: real)
    requires 0.0 < x <= y && (y <= 8.0 || (8.0 < x && y <= 16.0) || 16.0 < x)
    ensures ReserveBased(x) <= ReserveBased(y)
  {
    var m, n := RMax(x, 0.1), RMax(y, 0.1);
    if y <= 8.0 {
      QuotientFalls(1.25, m, n);
    } else if y <= 16.0 {
      QuotientFalls(1.5, m, n);
    } else if y <= 25.0 {
      QuotientFalls(2.0, m, n);
    } else {
      assert ReservedFreeGb(y) / y == 0.08;
      if x <= 25.0 {
        QuotientFalls(2.0, x, 25.0);
        assert ReservedFreeGb(x) / x >= 0.08;
      } else {
        assert ReservedFreeGb(x) / x == 0.08;
      }
    }
  }

  lemma AcrossEight(x: real, y: real)
    requires 0.0 < x <= 8.0 < y <= 16.0
    ensures ReserveBased(x) <= ReserveBased(y) <==> !CrossesStep(x, y)
  {
    CrossMultiply(1.25, RMax(x, 0.1), 1.5, y);
  }

  lemma AcrossSixteen(x: real, y: real)
    requires 8.0 < x <= 16.0 < y
    ensures ReserveBased(x) <= ReserveBased(y) <==> !CrossesStep(x, y)
  {
    if y <= 25.0 {
      CrossMultiply(1.5, x, 2.0, y);
    } else {
      assert ReservedFreeGb(y) / y == 0.08;
      QuotientFalls(1.5, x, 16.0);
    }
  }

  lemma AcrossBoth(x: real, y: real)
    requires 0.0 < x <= 8.0 && 16.0 < y
    ensures ReserveBased(x) <= ReserveBased(y)
  {
    QuotientFalls(1.25, RMax(x, 0.1), 8.0);
    if y <= 25.0 {
      QuotientFalls(2.0, 16.0, y);
    } else {
      assert ReservedFreeGb(y) / y == 0.08;
    }
  }

  lemma ReserveIff(x: real, y: real)
    requires 0.0 < x <= y
    ensures ReserveBased(x) <= ReserveBased(y) <==> !CrossesStep(x, y)
  {
    if x <= 8.0 && 16.0 < y {
      AcrossBoth(x, y);
    } else if x <= 8.0 < y {
      AcrossEight(x, y);
    } else if x <= 16.0 < y {
      AcrossSixteen(x, y);
    } else {
      SameBand(x, y);
    }
  }

  lemma CrossingShows(x: real, y: real)
    requires 0.0 < x <= y && CrossesStep(x, y)
    ensures 65.0 <= ReserveBased(y) <= 99.0
  {
    QuotientFalls(ReservedFreeGb(y), 8.0, y);
    CrossMultiply(1.0, 100.0, ReservedFreeGb(y), y);
  }

  /** A larger host yields no earlier than a smaller one, whatever the configured percentage, exactly
      unless the two lie close together across the 8 or the 16 GiB step. */
  lemma LargerHostToleratesMoreIff(a: int, b: int)
    requires 0 < a <= b
    ensures (forall cap :: 50.0 <= cap <= 99.0 ==> DynamicYield(a, cap) <= DynamicYield(b, cap))
       <==> !CrossesStep(TotalGb(a), TotalGb(b))
  {
    var x, y := TotalGb(a), TotalGb(b);
    assert 0.0 < x <= y;
    ReserveIff(x, y);
    if CrossesStep(x, y) {
      CrossingShows(x, y);
      assert !(DynamicYield(a, 99.0) <= DynamicYield(b, 99.0));
    }
  }

  /** A 9 GiB host yields at a lower percentage than an 8 GiB one. */
  lemma LargerHostMayYieldEarlier()
    ensures DynamicYield(9663676416, 85.0) < DynamicYield(8589934592, 85.0)
  {
    assert TotalGb(9663676416) == 9.0 && TotalGb(8589934592) == 8.0;
  }

  // ----- Absolute memory -----

  function PercentOf(x: real, percent: real): real {
    x * percent / 100.0
  }

  /** The memory in use, in GiB, at which the host yields. */
  function YieldGb(bytes: int, cap: real): real {
    PercentOf(TotalGb(bytes), DynamicYield(bytes, cap))
  }

  /** The same as a function of the size: the reserve is left free, between the two percentages. */
  function KeptGb(x: real, cap: real): real {
    RMax(x * 0.65, RMin(x * cap / 100.0, x - ReservedFreeGb(x)))
  }

  /** What the reserve-based percentage p of a host of x GiB means in GiB. */
  predicate LeavesReserve(x: real, p: real) {
    if x >= 0.1 then x * p == 100.0 * (x - ReservedFreeGb(x)) else p < 0.0
  }

  lemma ReserveBasedLeaves(x: real)
    requires x > 0.0
    ensures LeavesReserve(x, ReserveBased(x))
  {
    var r, m := ReservedFreeGb(x), RMax(x, 0.1);
    assert (r / m) * m == r;
    if x >= 0.1 {
      assert x * ReserveBased(x) == 100.0 * (x - (r / m) * x);
    } else {
      assert r / m == 12.5;
    }
  }

  lemma ScaledClamp(x: real, cap: real, p: real)
    requires x > 0.0
    ensures x * RMax(65.0, RMin(cap, p)) == RMax(x * 65.0, RMin(x * cap, x * p))
  {
    var m := RMin(cap, p);
    Ordered(cap, p, x);
    assert x * m == RMin(x * cap, x * p) by {
      assert x * cap == cap * x && x * p == p * x;
      if cap < p {
        assert m == cap;
      } else {
        assert m == p;
      }
    }
    Ordered(65.0, m, x);
    assert x * 65.0 == 65.0 * x && x * m == m * x;
    if 65.0 < m {
      assert RMax(65.0, m) == m;
    } else {
      assert RMax(65.0, m) == 65.0;
    }
  }

  lemma HundredthClamp(a: real, b: real, c: real)
    ensures RMax(a, RMin(b, c)) / 100.0 == RMax(a / 100.0, RMin(b / 100.0, c / 100.0))
  {
  }

  function Clamp(cap: real, p: real): real {
    RMax(65.0, RMin(cap, p))
  }

  lemma ClampKeeps(x: real, cap: real, p: real)
    requires x > 0.0 && cap >= 50.0 && LeavesReserve(x, p)
    ensures PercentOf(x, Clamp(cap, p)) == KeptGb(x, cap)
  {
    if x < 0.1 {
      assert Clamp(cap, p) == 65.0 && KeptGb(x, cap) == x * 0.65;
    } else {
      ScaledClamp(x, cap, p);
      HundredthClamp(x * 65.0, x * cap, x * p);
    }
  }

  lemma DynamicIsClamp(bytes: int, cap: real) returns (p: real)
    requires bytes > 0
    ensures DynamicYield(bytes, cap) == Clamp(cap, p) && LeavesReserve(TotalGb(bytes), p)
  {
    p := ReserveBased(TotalGb(bytes));
    ReserveBasedLeaves(TotalGb(bytes));
  }

  lemma YieldGbIs(bytes: int, cap: real)
    requires bytes > 0 && cap >= 50.0
    ensures YieldGb(bytes, cap) == KeptGb(TotalGb(bytes), cap)
  {
    var p := DynamicIsClamp(bytes, cap);
    ClampKeeps(TotalGb(bytes), cap, p);
  }

  /** Two hosts on either side of a jump of the reserve whose sizes differ by less than the jump. */
  predicate WithinJump(x: real, y: real) {
    (x <= 8.0 < y && y < x + 0.25) || (x <= 16.0 < y && y < x + 0.5)
  }

  lemma LeftoverIff(x: real, y: real)
    requires 0.0 < x <= y
    ensures x - ReservedFreeGb(x) <= y - ReservedFreeGb(y) <==> !WithinJump(x, y)
  {
  }

  lemma KeptRises(x: real, y: real, cap: real)
    requires 0.0 < x <= y && cap > 0.0 && x - ReservedFreeGb(x) <= y - ReservedFreeGb(y)
    ensures KeptGb(x, cap) <= KeptGb(y, cap)
  {
    Ordered(x, y, cap);
    ClampRises(x * 0.65, x * cap / 100.0, x - ReservedFreeGb(x), y * 0.65, y * cap / 100.0, y - ReservedFreeGb(y));
  }

  lemma ClampRises(a: real, b: real, c: real, a': real, b': real, c': real)
    requires a <= a' && b <= b' && c <= c'
    ensures RMax(a, RMin(b, c)) <= RMax(a', RMin(b', c'))
  {
  }

  lemma JumpShows(x: real, y: real)
    requires 0.0 < x <= y && WithinJump(x, y)
    ensures KeptGb(y, 99.0) < KeptGb(x, 99.0)
  {
    LeftoverIff(x, y);
    assert KeptGb(x, 99.0) == x - ReservedFreeGb(x);
    assert KeptGb(y, 99.0) == y - ReservedFreeGb(y);
  }

  /** A larger host never yields at less memory in use than a smaller one, whatever the configured
      percentage, exactly unless the two lie on either side of a jump of the reserve, at 8 or at
      16 GiB, and differ by less than the jump. */
  lemma LargerHostKeepsMoreIff(a: int, b: int)
    requires 0 < a <= b
    ensures (forall cap :: 50.0 <= cap <= 99.0 ==> YieldGb(a, cap) <= YieldGb(b, cap))
       <==> !WithinJump(TotalGb(a), TotalGb(b))
  {
    var x, y := TotalGb(a), TotalGb(b);
    assert 0.0 < x <= y;
    LeftoverIff(x, y);
    if WithinJump(x, y) {
      JumpShows(x, y);
      YieldGbIs(a, 99.0);
      YieldGbIs(b, 99.0);
      assert !(YieldGb(a, 99.0) <= YieldGb(b, 99.0));
    } else {
      forall cap | 50.0 <= cap <= 99.0 ensures YieldGb(a, cap) <= YieldGb(b, cap) {
        YieldGbIs(a, cap);
        YieldGbIs(b, cap);
        KeptRises(x, y, cap);
      }
    }
  }

  /** A host of 8.125 GiB yields at less memory in use than one of 8 GiB. */
  lemma LargerHostMayKeepLess()
    ensures YieldGb(8724152320, 85.0) < YieldGb(8589934592, 85.0)
  {
    assert TotalGb(8724152320) == 8.125 && TotalGb(8589934592) == 8.0;
    YieldGbIs(8724152320, 85.0);
    YieldGbIs(8589934592, 85.0);
  }
}
