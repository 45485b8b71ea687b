// Totals over the workers of a crawl: what one worker contributes is given by
// a function, and the lemmas say how a total moves when workers change.
module Tally {
  function Sum<W>(f: W -> nat, ws: seq<W>): nat {
    if ws == [] then 0 else Sum(f, ws[..|ws| - 1]) + f(ws[|ws| - 1])
  }

  function Pool<W, U>(f: W -> multiset<U>, ws: seq<W>): multiset<U> {
    if ws == [] then multiset{} else Pool(f, ws[..|ws| - 1]) + f(ws[|ws| - 1])
  }

  lemma {:induction false} SumUpdate<W>(f: W -> nat, ws: seq<W>, i: nat, w: W)
    requires i < |ws|
    ensures Sum(f, ws[i := w]) + f(ws[i]) == Sum(f, ws) + f(w)
  {
    var last := |ws| - 1;
    if i < last {
      SumUpdate(f, ws[..last], i, w);
      assert ws[i := w][..last] == ws[..last][i := w];
    } else {
      assert ws[i := w][..last] == ws[..last];
    }
  }

  lemma {:induction false} PoolUpdate<W, U>(f: W -> multiset<U>, ws: seq<W>, i: nat, w: W)
    requires i < |ws|
    ensures Pool(f, ws[i := w]) + f(ws[i]) == Pool(f, ws) + f(w)
  {
    var last := |ws| - 1;
    if i < last {
      PoolUpdate(f, ws[..last], i, w);
      assert ws[i := w][..last] == ws[..last][i := w];
      var others, moved := Pool(f, ws[..last]), Pool(f, ws[..last][i := w]);
      assert (moved + f(ws[last])) + f(ws[i]) == (moved + f(ws[i])) + f(ws[last]);
      assert (others + f(ws[last])) + f(w) == (others + f(w)) + f(ws[last]);
    } else {
      assert ws[i := w][..last] == ws[..last];
      assert (Pool(f, ws[..last]) + f(w)) + f(ws[i]) == (Pool(f, ws[..last]) + f(ws[i])) + f(w);
    }
  }

  lemma {:induction false} PoolKept<W, U>(f: W -> multiset<U>, ws: seq<W>, i: nat, w: W)
    requires i < |ws| && f(w) == f(ws[i])
    ensures Pool(f, ws[i := w]) == Pool(f, ws)
  {
    PoolUpdate(f, ws, i, w);
    Cancel(Pool(f, ws[i := w]), Pool(f, ws), f(w));
  }

  lemma {:induction false} PoolGives<W, U>(f: W -> multiset<U>, ws: seq<W>, i: nat, w: W, m: multiset<U>)
    requires i < |ws| && f(ws[i]) == f(w) + m
    ensures Pool(f, ws[i := w]) + m == Pool(f, ws)
  {
    PoolUpdate(f, ws, i, w);
    assert Pool(f, ws[i := w]) + (f(w) + m) == (Pool(f, ws[i := w]) + m) + f(w);
    Cancel(Pool(f, ws[i := w]) + m, Pool(f, ws), f(w));
  }

  lemma {:induction false} PoolGains<W, U>(f: W -> multiset<U>, ws: seq<W>, i: nat, w: W, m: multiset<U>)
    requires i < |ws| && f(w) == f(ws[i]) + m
    ensures Pool(f, ws[i := w]) == Pool(f, ws) + m
  {
    PoolUpdate(f, ws, i, w);
    assert Pool(f, ws) + (f(ws[i]) + m) == (Pool(f, ws) + m) + f(ws[i]);
    Cancel(Pool(f, ws[i := w]), Pool(f, ws) + m, f(ws[i]));
  }

  lemma {:induction false} Cancel<U>(a: multiset<U>, b: multiset<U>, c: multiset<U>)
    requires a + c == b + c
    ensures a == b
  {
    assert (a + c) - c == a && (b + c) - c == b;
  }

  lemma {:induction false} NothingLeft<U>(a: multiset<U>, b: multiset<U>, c: multiset<U>)
    requires a + b + c == multiset{}
    ensures a == b == c == multiset{}
  {
    assert a <= a + b + c && b <= a + b + c && c <= a + b + c;
  }

  lemma {:induction false} SumSame<W>(f: W -> nat, ws: seq<W>, vs: seq<W>)
    requires |ws| == |vs| && forall i :: 0 <= i < |ws| ==> f(ws[i]) == f(vs[i])
    ensures Sum(f, ws) == Sum(f, vs)
  {
    if ws == [] {
    } else {
      SumSame(f, ws[..|ws| - 1], vs[..|vs| - 1]);
    }
  }

  lemma {:induction false} PoolSame<W, U>(f: W -> multiset<U>, ws: seq<W>, vs: seq<W>)
    requires |ws| == |vs| && forall i :: 0 <= i < |ws| ==> f(ws[i]) == f(vs[i])
    ensures Pool(f, ws) == Pool(f, vs)
  {
    if ws == [] {
    } else {
      PoolSame(f, ws[..|ws| - 1], vs[..|vs| - 1]);
    }
  }

  lemma {:induction false} SumCovers<W>(f: W -> nat, ws: seq<W>, i: nat)
    requires i < |ws|
    ensures f(ws[i]) <= Sum(f, ws)
  {
    if i < |ws| - 1 {
      SumCovers(f, ws[..|ws| - 1], i);
    }
  }

  lemma {:induction false} PoolCovers<W, U>(f: W -> multiset<U>, ws: seq<W>, i: nat)
    requires i < |ws|
    ensures f(ws[i]) <= Pool(f, ws)
  {
    if i < |ws| - 1 {
      PoolCovers(f, ws[..|ws| - 1], i);
    }
  }

  lemma {:induction false} SumZero<W>(f: W -> nat, ws: seq<W>)
    requires forall i :: 0 <= i < |ws| ==> f(ws[i]) == 0
    ensures Sum(f, ws) == 0
  {
    if ws == [] {
    } else {
      SumZero(f, ws[..|ws| - 1]);
    }
  }

  lemma {:induction false} PoolEmpty<W, U>(f: W -> multiset<U>, ws: seq<W>)
    requires forall i :: 0 <= i < |ws| ==> f(ws[i]) == multiset{}
    ensures Pool(f, ws) == multiset{}
  {
    if ws == [] {
    } else {
      PoolEmpty(f, ws[..|ws| - 1]);
    }
  }
}
