// Evenly spaced sampling in hierarchy.py: position round(slot * last / (limit - 1)).
module Sampling {
  // Python's round on the quotient p / q, taken exactly: ties go to the even side.
  function RoundHalfEven(p: nat, q: nat): nat
    requires q >= 1
  {
    var floor, rest := p / q, p % q;
    if 2 * rest < q || (2 * rest == q && floor % 2 == 0) then floor else floor + 1
  }

  function SlotIndex(slot: nat, n: nat, limit: nat): nat
    requires n >= 1 && limit >= 2
  {
    RoundHalfEven(slot * (n - 1), limit - 1)
  }

  // r is an integer nearest to p / q, and the even one when two are nearest.
  ghost predicate IsNearest(p: nat, q: nat, r: nat) {
    && 2 * (q * r) <= 2 * p + q && 2 * p <= 2 * (q * r) + q
    && (2 * (q * r) == 2 * p + q || 2 * p == 2 * (q * r) + q ==> r % 2 == 0)
  }

  lemma {:induction false} RoundIsNearest(p: nat, q: nat)
    requires q >= 1
    ensures IsNearest(p, q, RoundHalfEven(p, q))
  {
    var floor := p / q;
    assert p == q * floor + p % q;
    assert q * (floor + 1) == q * floor + q;
  }

  lemma {:induction false} Multiples(q: nat, low: nat, high: nat)
    requires low < high
    ensures q * low + q <= q * high
  {
    assert q * high == q * low + q * (high - low);
    assert q * (high - low) == q + q * (high - low - 1);
  }

  // No other integer is nearest and even, so rounding is exactly that.
  lemma {:induction false} NearestIsRound(p: nat, q: nat, r: nat)
    requires q >= 1 && IsNearest(p, q, r)
    ensures r == RoundHalfEven(p, q)
  {
    RoundIsNearest(p, q);
    var s := RoundHalfEven(p, q);
    hide RoundHalfEven;
    if r != s {
      var low, high := if r < s then r else s, if r < s then s else r;
      Multiples(q, low, high);
      if high > low + 1 {
        Multiples(q, low + 1, high);
        Multiples(q, low, low + 1);
      }
    }
  }

  // Rounding two quotients that lie more than one apart.
  lemma {:induction false} NearestSpread(q: nat, p: nat, last: nat, a: nat, b: nat)
    requires last > q >= 1 && IsNearest(p, q, a) && IsNearest(p + last, q, b)
    ensures a < b <= a + last / q + 1
  {
    if b <= a {
      if b < a {
        Multiples(q, b, a);
      }
      assert false;
    }
    var most := last / q + 1;
    assert q * most > last by {
      assert q * most == q * (last / q) + q;
    }
    assert q * (a + most) == q * a + q * most;
    if b > a + most {
      Multiples(q, a + most, b);
      assert false;
    }
  }

  // With more items than slots: neighbouring slots are at least one position and
  // at most the floor of the even spacing plus one position apart.
  lemma {:induction false} SlotGap(slot: nat, n: nat, limit: nat)
    requires n > limit >= 2 && slot + 1 < limit
    ensures SlotIndex(slot, n, limit) < SlotIndex(slot + 1, n, limit)
    ensures SlotIndex(slot + 1, n, limit) <= SlotIndex(slot, n, limit) + (n - 1) / (limit - 1) + 1
  {
    hide RoundHalfEven;
    OneMore(slot, n - 1);
    RoundingGap(slot * (n - 1), n - 1, (slot + 1) * (n - 1), limit - 1);
  }

  lemma {:induction false} OneMore(slot: nat, last: nat)
    ensures (slot + 1) * last == slot * last + last
  {
  }

  lemma {:induction false} RoundingGap(p: nat, last: nat, next: nat, q: nat)
    requires last > q >= 1 && next == p + last
    ensures RoundHalfEven(p, q) < RoundHalfEven(next, q) <= RoundHalfEven(p, q) + last / q + 1
  {
    RoundIsNearest(p, q);
    RoundIsNearest(next, q);
    hide RoundHalfEven, IsNearest;
    NearestSpread(q, p, last, RoundHalfEven(p, q), RoundHalfEven(next, q));
  }

  lemma {:induction false} SlotEnds(n: nat, limit: nat)
    requires n > limit >= 2
    ensures SlotIndex(0, n, limit) == 0 && SlotIndex(limit - 1, n, limit) == n - 1
  {
    NearestIsRound(0, limit - 1, 0);
    NearestIsRound((limit - 1) * (n - 1), limit - 1, n - 1);
  }

  lemma {:induction false} SlotsAscend(i: nat, j: nat, n: nat, limit: nat)
    requires n > limit >= 2 && i < j < limit
    ensures SlotIndex(i, n, limit) < SlotIndex(j, n, limit)
  {
    SlotGap(j - 1, n, limit);
    if i + 1 < j {
      SlotsAscend(i, j - 1, n, limit);
    }
  }

  // Sampling more than `limit` items takes `limit` positions in strictly ascending
  // order, from the first item to the last, and nowhere further apart than the
  // floor of the even spacing plus one.
  lemma {:induction false} SamplingIsEven(n: nat, limit: nat)
    requires n > limit >= 2
    ensures SlotIndex(0, n, limit) == 0 && SlotIndex(limit - 1, n, limit) == n - 1
    ensures forall i, j :: 0 <= i < j < limit ==> SlotIndex(i, n, limit) < SlotIndex(j, n, limit)
    ensures forall i :: 0 <= i < limit - 1 ==>
              SlotIndex(i + 1, n, limit) <= SlotIndex(i, n, limit) + (n - 1) / (limit - 1) + 1
    ensures forall i :: 0 <= i < limit ==> SlotIndex(i, n, limit) < n
  {
    SlotEnds(n, limit);
    forall i, j | 0 <= i < j < limit
      ensures SlotIndex(i, n, limit) < SlotIndex(j, n, limit)
    {
      SlotsAscend(i, j, n, limit);
    }
    forall i | 0 <= i < limit - 1
      ensures SlotIndex(i + 1, n, limit) <= SlotIndex(i, n, limit) + (n - 1) / (limit - 1) + 1
    {
      SlotGap(i, n, limit);
    }
  }
}
