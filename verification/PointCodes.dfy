/** Point-code prefix ranges: the 24-bit arithmetic of asp_routes.go and of the two
    helpers it borrows from ssnm.go. A shift by n is n halvings or doublings, so every
    fact below is linear arithmetic by induction on the number of bits. */
module PointCodes {

  const POINT_CODE_BITS: nat := 24
  /** 2^24: one past the largest point code (the source masks with 0x00ffffff). */
  const POINT_CODE_LIMIT: nat := 0x100_0000

  function ShiftRight(x: nat, n: nat): nat {
    if n == 0 then x else ShiftRight(x / 2, n - 1)
  }

  function ShiftLeft(x: nat, n: nat): nat {
    if n == 0 then x else 2 * ShiftLeft(x, n - 1)
  }

  /** A point code with `mask` wildcarded low-order bits. */
  datatype Range = Range(pc: nat, mask: nat)

  /** q and the range agree on every bit above the wildcarded ones. */
  predicate Contains(r: Range, q: nat) {
    ShiftRight(q, r.mask) == ShiftRight(r.pc, r.mask)
  }

  /** The point code is within 24 bits and its wildcarded bits are clear. */
  predicate Aligned(r: Range) {
    && r.mask <= POINT_CODE_BITS
    && r.pc < POINT_CODE_LIMIT
    && ShiftLeft(ShiftRight(r.pc, r.mask), r.mask) == r.pc
  }

  /** s lies within r. */
  predicate Inside(s: Range, r: Range) {
    s.mask <= r.mask && Contains(r, s.pc)
  }

  /** The half of r selected by one more bit. The wildcarded bits of an aligned range are
      clear, so the source's pc | branch << (mask - 1) is this sum. */
  function Child(r: Range, branch: nat): Range
    requires r.mask > 0 && branch <= 1
  {
    Range(r.pc + ShiftLeft(branch, r.mask - 1), r.mask - 1)
  }

  /** The bit of pc that chooses between the halves of a range of the given mask. */
  function Branch(pc: nat, mask: nat): (b: nat)
    requires mask > 0
    ensures b <= 1
  {
    ShiftRight(pc, mask - 1) % 2
  }

  // ---- ssnm.go:514-528 ----

  function EffectiveMask(mask: nat): nat {
    if mask > POINT_CODE_BITS then POINT_CODE_BITS else mask
  }

  /** The point code with everything below the mask cleared, within 24 bits. */
  function Prefix(pc: nat, mask: nat): nat {
    var effective := EffectiveMask(mask);
    if effective == POINT_CODE_BITS then 0
    else ShiftLeft(ShiftRight(pc % POINT_CODE_LIMIT, effective), effective)
  }

  // ---- asp_routes.go:1413-1442 ----

  predicate RangeCovers(stored: Range, r: Range) {
    && EffectiveMask(stored.mask) >= EffectiveMask(r.mask)
    && Prefix(stored.pc, stored.mask) == Prefix(r.pc, stored.mask)
  }

  predicate RangesOverlap(first: Range, second: Range) {
    RangeCovers(first, second) || RangeCovers(second, first)
  }

  datatype Intersection = NoOverlap | Overlap(range: Range)

  /** The part of one route a reported range names. */
  function RouteIntersection(route: Range, pc: nat, mask: nat): Intersection {
    var statusMask := EffectiveMask(mask);
    var status := Range(Prefix(pc, statusMask), statusMask);
    if !RangesOverlap(route, status) then NoOverlap
    else if route.mask <= statusMask then Overlap(route)
    else Overlap(status)
  }

  // ---- Shifts ----

  lemma {:induction false} ShiftRightSum(x: nat, i: nat, j: nat)
    ensures ShiftRight(x, i + j) == ShiftRight(ShiftRight(x, i), j)
  {
    if i > 0 {
      ShiftRightSum(x / 2, i - 1, j);
      assert i + j - 1 == (i - 1) + j;
    }
  }

  lemma {:induction false} ShiftRightLast(x: nat, n: nat)
    requires n > 0
    ensures ShiftRight(x, n) == ShiftRight(x, n - 1) / 2
  {
    ShiftRightSum(x, n - 1, 1);
    assert ShiftRight(ShiftRight(x, n - 1), 1) == ShiftRight(ShiftRight(x, n - 1) / 2, 0);
  }

  /** Adding below the n-th bit is undone by shifting n bits away. */
  lemma {:induction false} ShiftLeftRight(x: nat, low: nat, n: nat)
    requires low < ShiftLeft(1, n)
    ensures ShiftRight(ShiftLeft(x, n) + low, n) == x
  {
    if n > 0 {
      assert (ShiftLeft(x, n) + low) / 2 == ShiftLeft(x, n - 1) + low / 2;
      ShiftLeftRight(x, low / 2, n - 1);
    }
  }

  lemma {:induction false} ShiftLeftSum(x: nat, y: nat, n: nat)
    ensures ShiftLeft(x + y, n) == ShiftLeft(x, n) + ShiftLeft(y, n)
  {
    if n > 0 { ShiftLeftSum(x, y, n - 1); }
  }

  lemma {:induction false} ShiftLeftDouble(x: nat, n: nat)
    ensures ShiftLeft(2 * x, n) == 2 * ShiftLeft(x, n)
  {
    if n > 0 { ShiftLeftDouble(x, n - 1); }
  }

  lemma {:induction false} ShiftLeftPositive(x: nat, n: nat)
    ensures x > 0 ==> ShiftLeft(x, n) > 0
    ensures x == 0 ==> ShiftLeft(x, n) == 0
  {
    if n > 0 { ShiftLeftPositive(x, n - 1); }
  }

  /** Division with remainder by 2^n, in shifts. */
  lemma {:induction false} ShiftRightBounds(x: nat, n: nat)
    ensures ShiftLeft(ShiftRight(x, n), n) <= x < ShiftLeft(ShiftRight(x, n), n) + ShiftLeft(1, n)
  {
    if n > 0 {
      ShiftRightBounds(x / 2, n - 1);
    }
  }

  lemma {:induction false} ShiftRightMonotone(x: nat, y: nat, n: nat)
    requires x <= y
    ensures ShiftRight(x, n) <= ShiftRight(y, n)
  {
    if n > 0 { ShiftRightMonotone(x / 2, y / 2, n - 1); }
  }

  /** An aligned range is the interval of 2^mask point codes from its own. */
  lemma ContainsIsInterval(r: Range, q: nat)
    requires Aligned(r)
    ensures Contains(r, q) <==> r.pc <= q < r.pc + ShiftLeft(1, r.mask)
  {
    ShiftRightBounds(q, r.mask);
    if r.pc <= q < r.pc + ShiftLeft(1, r.mask) {
      ShiftLeftRight(ShiftRight(r.pc, r.mask), q - r.pc, r.mask);
    }
  }

  lemma LimitIsPower()
    ensures ShiftLeft(1, POINT_CODE_BITS) == POINT_CODE_LIMIT
  {
    assert ShiftLeft(1, 8) == 0x100;
    assert ShiftLeft(1, 12) == 0x1000;
    assert ShiftLeft(1, 16) == 0x1_0000;
    assert ShiftLeft(1, 20) == 0x10_0000;
  }

  lemma WithinLimit(x: nat)
    ensures x < POINT_CODE_LIMIT <==> ShiftRight(x, POINT_CODE_BITS) == 0
  {
    ShiftRightBounds(x, POINT_CODE_BITS);
    LimitIsPower();
    ShiftLeftPositive(ShiftRight(x, POINT_CODE_BITS), POINT_CODE_BITS);
    if ShiftRight(x, POINT_CODE_BITS) > 0 {
      ShiftLeftSum(1, ShiftRight(x, POINT_CODE_BITS) - 1, POINT_CODE_BITS);
    }
  }

  // ---- Laminar structure of ranges ----

  /** Agreement above a lower bit implies agreement above a higher one. */
  lemma AgreeAbove(x: nat, y: nat, low: nat, high: nat)
    requires low <= high && ShiftRight(x, low) == ShiftRight(y, low)
    ensures ShiftRight(x, high) == ShiftRight(y, high)
  {
    ShiftRightSum(x, low, high - low);
    ShiftRightSum(y, low, high - low);
  }

  lemma InsideContains(s: Range, r: Range, q: nat)
    requires Inside(s, r) && Contains(s, q)
    ensures Contains(r, q)
  {
    AgreeAbove(q, s.pc, s.mask, r.mask);
  }

  /** Two ranges sharing a point code are nested. */
  lemma SharedPointNests(s: Range, r: Range, q: nat)
    requires s.mask <= r.mask && Contains(s, q) && Contains(r, q)
    ensures Inside(s, r)
    ensures s.mask == r.mask && Aligned(s) && Aligned(r) ==> s == r
  {
    AgreeAbove(q, s.pc, s.mask, r.mask);
  }

  lemma InsideTransitive(a: Range, b: Range, c: Range)
    requires Inside(a, b) && Inside(b, c)
    ensures Inside(a, c)
  {
    InsideContains(b, c, a.pc);
  }

  /** The half of an aligned range named by a branch, as bits. */
  lemma ChildBits(r: Range, branch: nat)
    requires Aligned(r) && r.mask > 0 && branch <= 1
    ensures ShiftRight(Child(r, branch).pc, r.mask - 1) == 2 * ShiftRight(r.pc, r.mask) + branch
    ensures Aligned(Child(r, branch)) && Inside(Child(r, branch), r)
  {
    var m, top := r.mask - 1, ShiftRight(r.pc, r.mask);
    ShiftLeftDouble(top, m);
    ShiftLeftSum(2 * top, branch, m);
    var bits := 2 * top + branch;
    assert Child(r, branch).pc == ShiftLeft(bits, m);
    ShiftLeftPositive(1, m);
    ShiftLeftRight(bits, 0, m);
    ShiftRightLast(Child(r, branch).pc, r.mask);
    assert Inside(Child(r, branch), r);
    WithinLimit(r.pc);
    AgreeAbove(Child(r, branch).pc, r.pc, r.mask, POINT_CODE_BITS);
    WithinLimit(Child(r, branch).pc);
  }

  /** The branch bit of a point code names the one half that holds it. */
  lemma BranchSelects(r: Range, q: nat, branch: nat)
    requires Aligned(r) && r.mask > 0 && branch <= 1
    ensures Contains(Child(r, branch), q) <==> Contains(r, q) && Branch(q, r.mask) == branch
  {
    hide ShiftRight, ShiftLeft, Aligned, Inside;
    ChildBits(r, branch);
    ShiftRightLast(q, r.mask);
  }

  /** A strictly smaller range inside r lies inside the half its branch bit names, only. */
  lemma BranchNarrows(r: Range, s: Range, branch: nat)
    requires Aligned(r) && r.mask > 0 && branch <= 1 && s.mask < r.mask
    ensures Inside(s, Child(r, branch)) <==> Inside(s, r) && Branch(s.pc, r.mask) == branch
  {
    BranchSelects(r, s.pc, branch);
  }

  // ---- Meaning of the report arithmetic ----

  /** The point codes a reported (pc, mask) pair names: both agree above the capped mask. */
  ghost predicate Reported(pc: nat, mask: nat, q: nat) {
    && q < POINT_CODE_LIMIT
    && ShiftRight(q, EffectiveMask(mask)) == ShiftRight(pc % POINT_CODE_LIMIT, EffectiveMask(mask))
  }

  lemma PrefixRange(pc: nat, mask: nat)
    ensures Aligned(Range(Prefix(pc, mask), EffectiveMask(mask)))
    ensures ShiftRight(Prefix(pc, mask), EffectiveMask(mask))
         == ShiftRight(pc % POINT_CODE_LIMIT, EffectiveMask(mask))
  {
    var m, code := EffectiveMask(mask), pc % POINT_CODE_LIMIT;
    if m == POINT_CODE_BITS {
      WithinLimit(code);
      WithinLimit(0);
      ShiftLeftPositive(0, m);
    } else {
      ShiftLeftPositive(1, m);
      ShiftLeftRight(ShiftRight(code, m), 0, m);
      ShiftRightBounds(code, m);
    }
  }

  lemma CoversIsInside(stored: Range, r: Range)
    requires Aligned(stored) && Aligned(r)
    ensures RangeCovers(stored, r) <==> Inside(r, stored)
  {
    PrefixRange(stored.pc, stored.mask);
    PrefixRange(r.pc, stored.mask);
  }

  /** asp_routes.go:1413-1426. The intersection of a route with a report is exact: it exists
      when some point code is in both, it is an aligned range inside the route, and its point
      codes are those of the route that the report names. */
  lemma IntersectionExact(route: Range, pc: nat, mask: nat)
    requires Aligned(route)
    ensures var i := RouteIntersection(route, pc, mask);
            && (i.NoOverlap? <==> !exists q :: Contains(route, q) && Reported(pc, mask, q))
            && (i.Overlap? ==>
                  && Aligned(i.range) && Inside(i.range, route)
                  && forall q :: Contains(i.range, q) <==> Contains(route, q) && Reported(pc, mask, q))
  {
    var statusMask := EffectiveMask(mask);
    var status := Range(Prefix(pc, statusMask), statusMask);
    assert EffectiveMask(statusMask) == statusMask && Prefix(pc, statusMask) == Prefix(pc, mask);
    PrefixRange(pc, mask);
    CoversIsInside(route, status);
    CoversIsInside(status, route);
    forall q | Contains(route, q)
      ensures Reported(pc, mask, q) <==> Contains(status, q)
    {
      WithinLimit(route.pc);
      AgreeAbove(q, route.pc, route.mask, POINT_CODE_BITS);
      WithinLimit(q);
    }
    var i := RouteIntersection(route, pc, mask);
    if i.NoOverlap? {
      forall q ensures !(Contains(route, q) && Reported(pc, mask, q)) {
        if Contains(route, q) && Contains(status, q) {
          if status.mask <= route.mask { SharedPointNests(status, route, q); }
          else { SharedPointNests(route, status, q); }
        }
      }
    } else if route.mask <= statusMask {
      assert Contains(route, route.pc);
      if Inside(status, route) { SharedPointNests(route, status, status.pc); }
      forall q | Contains(route, q) ensures Contains(status, q) {
        InsideContains(route, status, q);
      }
    } else {
      assert Contains(status, status.pc);
      forall q | Contains(status, q) ensures Contains(route, q) {
        InsideContains(status, route, q);
      }
    }
  }
}
