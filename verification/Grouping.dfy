// Cutting a list into consecutive groups, each opened by a marked element.
module Grouping {
  // The marked positions among the first k.
  function Cuts(opens: seq<bool>, k: nat): (cuts: seq<nat>)
    requires k <= |opens|
    ensures |cuts| <= k
  {
    if k == 0 then [] else Cuts(opens, k - 1) + if opens[k - 1] then [k - 1] else []
  }

  // Group j takes the positions from its own cut to the next one.
  function CutAfter(cuts: seq<nat>, j: nat, k: nat): nat {
    if j + 1 < |cuts| then cuts[j + 1] else k
  }

  // Every group holds an element.
  ghost predicate Groups(cuts: seq<nat>, k: nat) {
    forall j :: 0 <= j < |cuts| ==> cuts[j] < CutAfter(cuts, j, k) <= k
  }

  lemma {:induction false} GroupsSnoc(cuts: seq<nat>, k: nat)
    requires Groups(cuts, k)
    ensures Groups(cuts + [k], k + 1) && Groups(cuts, k + 1)
    ensures forall j :: 0 <= j < |cuts| ==> CutAfter(cuts + [k], j, k + 1) == CutAfter(cuts, j, k)
    ensures forall j :: 0 <= j < |cuts| - 1 ==> CutAfter(cuts, j, k + 1) == CutAfter(cuts, j, k)
  {
    forall j | 0 <= j < |cuts|
      ensures cuts[j] < CutAfter(cuts, j, k + 1) <= k + 1
    {
      assert cuts[j] < CutAfter(cuts, j, k);
    }
  }

  // The cuts ascend, and every group holds an element.
  lemma {:induction false} CutsGroup(opens: seq<bool>, k: nat)
    requires k <= |opens|
    ensures Groups(Cuts(opens, k), k)
  {
    if k > 0 {
      CutsGroup(opens, k - 1);
      GroupsSnoc(Cuts(opens, k - 1), k - 1);
    }
  }

  // The cuts are exactly the marked positions.
  lemma {:induction false} CutsAreMarks(opens: seq<bool>, k: nat)
    requires k <= |opens|
    ensures forall i: nat :: i in Cuts(opens, k) <==> i < k && opens[i]
    ensures k > 0 && opens[0] ==> Cuts(opens, k) != [] && Cuts(opens, k)[0] == 0
  {
    if k > 0 {
      CutsAreMarks(opens, k - 1);
    }
  }

  lemma {:induction false} CutsAscend(cuts: seq<nat>, i: nat, j: nat, k: nat)
    requires Groups(cuts, k) && i < j < |cuts|
    ensures cuts[i] < cuts[j]
  {
    assert cuts[j - 1] < CutAfter(cuts, j - 1, k);
    if i + 1 < j {
      CutsAscend(cuts, i, j - 1, k);
    }
  }

  lemma {:induction false} NoCutInside(cuts: seq<nat>, k: nat, j: nat, i: nat)
    requires Groups(cuts, k) && j < |cuts| && cuts[j] < i < CutAfter(cuts, j, k)
    ensures i !in cuts
  {
    forall m | 0 <= m < |cuts|
      ensures cuts[m] != i
    {
      if m < j {
        CutsAscend(cuts, m, j, k);
      } else if m > j + 1 {
        CutsAscend(cuts, j + 1, m, k);
      }
    }
  }

  // A group is opened by its first element, and only that element is marked.
  lemma {:induction false} MarksOpenGroups(opens: seq<bool>, k: nat, cuts: seq<nat>, j: nat)
    requires k <= |opens| && cuts == Cuts(opens, k) && j < |cuts|
    ensures cuts[j] < CutAfter(cuts, j, k) <= k && opens[cuts[j]]
    ensures forall i :: cuts[j] < i < CutAfter(cuts, j, k) ==> !opens[i]
  {
    CutsAreMarks(opens, k);
    CutsGroup(opens, k);
    hide Cuts;
    assert cuts[j] in cuts;
    forall i | cuts[j] < i < CutAfter(cuts, j, k)
      ensures !opens[i]
    {
      NoCutInside(cuts, k, j, i);
    }
  }
}
