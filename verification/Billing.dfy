/** Credit pricing and the split of a debit into its included and overage parts
    (internal/billing/billing.go). */
module Billing {

  const MAX_INT64: int := 0x7FFF_FFFF_FFFF_FFFF

  /** A 64-bit signed machine integer: Dafny refuses any operation that leaves the range. */
  newtype int64 = x: int | -MAX_INT64 - 1 <= x <= MAX_INT64

  const UNIT_BPS: int64 := 10000

  // ---------------------------------------------------------------- pricing

  /** The overflow guard of the pricing function. */
  predicate Guarded(base: int64, bps: int64)
    requires 0 < bps
  {
    base > ((MAX_INT64 - 9999) as int64) / bps
  }

  lemma QuotientBound(n: int, d: int, k: int)
    requires 0 < d
    ensures k > n / d <==> k * d > n
  {
    var q := n / d;
    assert q * d <= n < (q + 1) * d;
    if k <= q {
      assert k * d <= q * d by { MulMono(k, q, d); }
    } else {
      assert (q + 1) * d <= k * d by { MulMono(q + 1, k, d); }
    }
  }

  lemma MulMono(a: int, b: int, d: int)
    requires a <= b && 0 <= d
    ensures a * d <= b * d
  {
    assert 0 <= (b - a) * d;
  }

  /** The guard is exact: it fires if and only if base * bps + 9999 does not fit in 64 bits. */
  lemma GuardIsExact(base: int64, bps: int64)
    requires 0 < bps
    ensures Guarded(base, bps) <==> base as int * bps as int + 9999 > MAX_INT64
  {
    QuotientBound(MAX_INT64 - 9999, bps as int, base as int);
  }

  /** Applies the pricing multiplier. Every intermediate value is checked to fit in 64 bits. */
  function PricedCredits(base: int64, bps: int64): (r: int64)
    ensures 0 <= r
    ensures r == 0 <==> base <= 0
  {
    if base <= 0 then 0
    else if bps <= 0 then base
    else if bps == UNIT_BPS then base
    else if Guarded(base, bps) then MAX_INT64 as int64
    else
      GuardIsExact(base, bps);
      assert 0 < base as int * bps as int by { MulMono(1, base as int, bps as int); }
      (base * bps + 9999) / 10000
  }

  /** The multiplier that is actually applied. */
  function EffectiveBps(bps: int64): (r: int64)
    ensures 0 < r
  {
    if bps <= 0 then UNIT_BPS else bps
  }

  /** The price saturates. Never at the unit multiplier, which is answered before the guard. */
  predicate Saturates(base: int64, bps: int64)
  {
    0 < base && EffectiveBps(bps) != UNIT_BPS
    && base as int * EffectiveBps(bps) as int + 9999 > MAX_INT64
  }

  /** r is the least number of credits that covers base * bps / 10000. */
  predicate IsCeiling(r: int, base: int, bps: int) {
    r * 10000 >= base * bps && (r - 1) * 10000 < base * bps
  }

  /** Outside saturation the price is the exact ceiling; inside, it is the largest 64-bit value. */
  lemma PriceIsCeilingOrSaturated(base: int64, bps: int64)
    requires 0 < base
    ensures if Saturates(base, bps) then PricedCredits(base, bps) as int == MAX_INT64
            else IsCeiling(PricedCredits(base, bps) as int, base as int, EffectiveBps(bps) as int)
  {
    if 0 < bps {
      GuardIsExact(base, bps);
    }
  }

  lemma CeilingMonotone(r1: int, n1: int, r2: int, n2: int)
    requires IsCeiling(r1, n1, 1) && IsCeiling(r2, n2, 1) && n1 <= n2
    ensures r1 <= r2
  {
  }

  lemma CeilingOfProduct(r: int, base: int, bps: int)
    ensures IsCeiling(r, base, bps) <==> IsCeiling(r, base * bps, 1)
  {
  }

  /** A larger base never costs less, saturation included. */
  lemma PriceMonotoneInBase(b1: int64, b2: int64, bps: int64)
    requires b1 <= b2
    ensures PricedCredits(b1, bps) <= PricedCredits(b2, bps)
  {
    if 0 < b1 {
      var m := EffectiveBps(bps) as int;
      PriceIsCeilingOrSaturated(b1, bps);
      PriceIsCeilingOrSaturated(b2, bps);
      MulMono(b1 as int, b2 as int, m);
      if !Saturates(b2, bps) {
        CeilingOfProduct(PricedCredits(b1, bps) as int, b1 as int, m);
        CeilingOfProduct(PricedCredits(b2, bps) as int, b2 as int, m);
        CeilingMonotone(PricedCredits(b1, bps) as int, b1 as int * m, PricedCredits(b2, bps) as int, b2 as int * m);
      }
    }
  }

  /** The price is NOT monotone in the multiplier: a discount on a very large base saturates,
      while the unit multiplier is answered exactly. */
  lemma DiscountCanCostMore()
    ensures PricedCredits(1_000_000_000_000_000, 9999) > PricedCredits(1_000_000_000_000_000, 10000)
  {
  }

  /** Exactly when raising a positive multiplier never lowers the price: always, except that a
      saturating discount may not be compared with the unit multiplier on a smaller-than-maximal base. */
  lemma PriceMonotoneInMultiplierIff(base: int64, m1: int64, m2: int64)
    requires 0 < m1 <= m2
    ensures PricedCredits(base, m1) <= PricedCredits(base, m2)
       <==> !(m1 < UNIT_BPS == m2 && Saturates(base, m1) && base as int < MAX_INT64)
  {
    if 0 < base {
      PriceIsCeilingOrSaturated(base, m1);
      PriceIsCeilingOrSaturated(base, m2);
      assert base as int * m1 as int <= base as int * m2 as int by { MulMono(m1 as int, m2 as int, base as int); }
      if m2 == UNIT_BPS {
        assert PricedCredits(base, m2) == base;
      }
      if !Saturates(base, m1) && !Saturates(base, m2) {
        CeilingOfProduct(PricedCredits(base, m1) as int, base as int, m1 as int);
        CeilingOfProduct(PricedCredits(base, m2) as int, base as int, m2 as int);
        CeilingMonotone(PricedCredits(base, m1) as int, base as int * m1 as int,
                        PricedCredits(base, m2) as int, base as int * m2 as int);
      }
    }
  }

  // ---------------------------------------------------------------- included / overage split

  function Min(a: int, b: int): int { if a <= b then a else b }

  /** Credits used beyond the allowance. */
  function Over(included: int, used: int): int { used - Min(included, used) }

  datatype Parts = Parts(included: int, overage: int)

  function PartsForDebit(included: int, used: int, delta: int): Parts {
    var remaining := included - used;
    if remaining <= 0 then Parts(0, delta)
    else if remaining >= delta then Parts(delta, 0)
    else Parts(remaining, delta - remaining)
  }

  /** The split charges as overage exactly the growth of usage beyond the allowance. */
  lemma PartsAreExact(included: int, used: int, delta: nat)
    ensures var p := PartsForDebit(included, used, delta);
            && p.included + p.overage == delta && 0 <= p.included && 0 <= p.overage
            && p.included == Min(included, used + delta) - Min(included, used)
            && p.overage == Over(included, used + delta) - Over(included, used)
  {
  }

  /** A split computed from a stale (smaller) usage never overstates overage, and is exact
      whenever the debit still fits the allowance at commit time. */
  lemma StaleSplit(included: int, seen: int, used: int, delta: nat)
    requires seen <= used
    ensures PartsForDebit(included, seen, delta).overage <= PartsForDebit(included, used, delta).overage
    ensures used + delta <= included ==> PartsForDebit(included, seen, delta) == PartsForDebit(included, used, delta)
  {
  }

  function Sum(xs: seq<int>): int { if |xs| == 0 then 0 else xs[0] + Sum(xs[1..]) }

  /** The parts recorded by a serial run of debits, each reading the usage left by the one before. */
  function SerialParts(included: int, used: int, debits: seq<nat>): (ps: seq<Parts>)
    ensures |ps| == |debits|
    decreases debits
  {
    if |debits| == 0 then []
    else [PartsForDebit(included, used, debits[0])] + SerialParts(included, used + debits[0], debits[1..])
  }

  function IncludedTotal(ps: seq<Parts>): int { if |ps| == 0 then 0 else ps[0].included + IncludedTotal(ps[1..]) }
  function OverageTotal(ps: seq<Parts>): int { if |ps| == 0 then 0 else ps[0].overage + OverageTotal(ps[1..]) }

  /** Over any serial run the included parts sum to min(included, end) - min(included, start),
      and the overage parts to the rest. */
  lemma {:induction false} SerialRunSplit(included: int, used: int, debits: seq<nat>)
    ensures var end := used + Sum(debits);
            var ps := SerialParts(included, used, debits);
            && IncludedTotal(ps) == Min(included, end) - Min(included, used)
            && OverageTotal(ps) == Over(included, end) - Over(included, used)
    decreases debits
  {
    if |debits| > 0 {
      var p := PartsForDebit(included, used, debits[0]);
      var rest := SerialParts(included, used + debits[0], debits[1..]);
      SerialRunSplit(included, used + debits[0], debits[1..]);
      assert SerialParts(included, used, debits)[0] == p && SerialParts(included, used, debits)[1..] == rest;
    }
  }

  datatype BillingType = Unbilled | IncludedOnly | OverageOnly | Mixed

  function TypeFromParts(p: Parts): (t: BillingType)
  {
    if p.included > 0 && p.overage > 0 then Mixed
    else if p.overage > 0 then OverageOnly
    else if p.included > 0 then IncludedOnly
    else Unbilled
  }

  /** The recorded type says on which side of the allowance the debit fell. */
  lemma TypeMeaning(included: int, used: int, delta: nat)
    requires 0 < delta
    ensures var t := TypeFromParts(PartsForDebit(included, used, delta));
            && (t == IncludedOnly <==> used + delta <= included)
            && (t == OverageOnly <==> included <= used)
            && (t == Mixed <==> used < included < used + delta)
            && t != Unbilled
  {
  }
}
