// Python's range(0, len, step) and the slices it is used to cut.
module Ranges {
  type Positive = n: nat | n >= 1 witness 1

  // The i-th value of range(0, len, step), and how many values that range has.
  function Start(i: nat, step: nat): nat {
    if i == 0 then 0 else Start(i - 1, step) + step
  }

  function Minus(a: nat, b: nat): nat {
    if a < b then 0 else a - b
  }

  function UpTo(a: nat, b: nat): nat {
    if a < b then a else b
  }

  function Count(len: nat, step: nat): nat
    requires step >= 1
  {
    if len == 0 then 0 else 1 + Count(Minus(len, step), step)
  }

  lemma {:induction false} CountReaches(len: nat, step: nat)
    requires step >= 1
    ensures Start(Count(len, step), step) >= len
    ensures len > 0 ==> Start(Count(len, step) - 1, step) < len
  {
    if len > 0 {
      CountReaches(Minus(len, step), step);
    }
  }

  lemma {:induction false} StartBelow(i: nat, j: nat, step: nat)
    requires i < j
    ensures Start(i, step) + step <= Start(j, step)
  {
    if i + 1 < j {
      StartBelow(i, j - 1, step);
    }
  }

  lemma {:induction false} StartIsProduct(i: nat, step: nat)
    ensures Start(i, step) == i * step
  {
    if i > 0 {
      StartIsProduct(i - 1, step);
    }
  }

  ghost predicate Inside(i: nat, step: nat, len: nat) {
    Start(i, step) < len
  }

  lemma {:induction false} StartsInside(len: nat, step: nat)
    requires step >= 1
    ensures forall i :: 0 <= i < Count(len, step) ==> Inside(i, step, len)
    ensures len <= Start(Count(len, step), step) == Count(len, step) * step < len + step
  {
    var n := Count(len, step);
    CountReaches(len, step);
    StartIsProduct(n, step);
    forall i | 0 <= i < n
      ensures Inside(i, step, len)
    {
      if i < n - 1 {
        StartBelow(i, n - 1, step);
      }
    }
  }

  // s[start : start + size], which Python cuts off at the end.
  function Slice<T>(s: seq<T>, start: nat, size: nat): (slice: seq<T>)
    ensures |slice| == if Minus(|s|, start) < size then Minus(|s|, start) else size
  {
    if start >= |s| then []
    else if start + size <= |s| then s[start..start + size]
    else s[start..]
  }
}
