// urlQueue of services/mapper/main.go: a slice with a moving head that is
// compacted now and then.  Every method is one critical section under the lock.
module UrlQueue {
  import opened Wrappers
  import opened Frontier

  const COMPACT_ABOVE := 4096

  class URLQueue<T(==)> {
    var items: seq<Option<T>>
    var head: nat
    var outstanding: int
    var closed: bool

    // How many pops took an item, and how many items compaction has copied.
    ghost var pops: nat
    ghost var copied: nat

    ghost predicate Valid()
      reads this
    {
      && head <= |items|
      && (forall k :: 0 <= k < head ==> items[k] == None)
      && (forall k :: head <= k < |items| ==> items[k].Some?)
      && 0 <= outstanding
      // The consumed prefix is short, or shorter than the live part.
      && (head <= COMPACT_ABOVE || head < |items| - head)
      // Copying is paid for by the pops that moved the head since the last compaction.
      && copied + head <= pops
    }

    // The abstract queue that the slice stands for.
    ghost function View(): Queue<T>
      reads this
      requires Valid()
    {
      Queue(Live(items, head), outstanding, closed)
    }

    constructor ()
      ensures Valid() && View() == EmptyQueue()
      ensures pops == 0 && copied == 0
    {
      items, head, outstanding, closed := [], 0, 0, false;
      pops, copied := 0, 0;
    }

    method Push(x: T) returns (ok: bool)
      requires Valid()
      modifies this
      ensures Valid() && View() == Pushed(old(View()), x)
      ensures ok == !old(closed)
      ensures pops == old(pops) && copied == old(copied)
    {
      if !closed {
        items := items + [Some(x)];
        outstanding := outstanding + 1;
        assert Live(items, head) == old(Live(items, head)) + [x];
        return true;
      }
      return false;
    }

    // One pass through the loop of `pop`.
    method TryPop() returns (r: Popped<T>)
      requires Valid()
      modifies this
      ensures Valid() && View() == AfterPop(old(View()))
      ensures r == PopDecision(old(View()))
      ensures pops == old(pops) + (if r.Took? then 1 else 0)
    {
      ghost var before := Live(items, head);
      if head >= |items| && !closed {
        return MustWait;
      }
      if head >= |items| {
        return Drained;
      }
      var x := items[head].value;
      assert x == before[0];
      items := items[head := None];
      head := head + 1;
      pops := pops + 1;
      assert Live(items, head) == before[1..];
      if head > COMPACT_ABOVE && head * 2 >= |items| {
        copied := copied + (|items| - head);
        assert Live(items[head..], 0) == before[1..];
        items := items[head..];
        head := 0;
      }
      return Took(x);
    }

    method Close()
      requires Valid()
      modifies this`closed
      ensures Valid() && View() == ClosedQueue(old(View()))
    {
      closed := true;
    }

    method Done()
      requires Valid()
      modifies this`outstanding, this`closed
      ensures Valid() && View() == AfterDone(old(View()))
    {
      if outstanding > 0 {
        outstanding := outstanding - 1;
      }
      if outstanding == 0 {
        closed := true;
      }
    }
  }

  function Live<T>(items: seq<Option<T>>, head: nat): (live: seq<T>)
    requires head <= |items|
    requires forall k :: head <= k < |items| ==> items[k].Some?
    ensures |live| == |items| - head
    ensures forall k :: 0 <= k < |live| ==> items[head + k] == Some(live[k])
  {
    seq(|items| - head, k requires 0 <= k < |items| - head => items[head + k].value)
  }

  // One call of a history; the items it hands out, if any.
  method Perform<T(==)>(q: URLQueue<T>, call: Call<T>) returns (taken: seq<T>)
    requires q.Valid()
    modifies q
    ensures q.Valid() && q.View() == AfterCall(old(q.View()), call)
    ensures taken == Taken(old(q.View()), call)
    ensures q.pops == old(q.pops) + |taken|
  {
    taken := [];
    match call {
      case CallPush(x) => var _ := q.Push(x);
      case CallPop =>
        var r := q.TryPop();
        if r.Took? {
          taken := [r.item];
        }
      case CallClose => q.Close();
      case CallDone => q.Done();
    }
  }

  // Any history of calls, run on the slice: the items handed out are those of
  // the abstract queue, and compaction never copies more items than were popped.
  method Replay<T(==)>(q: URLQueue<T>, calls: seq<Call<T>>) returns (taken: seq<T>)
    requires q.Valid()
    modifies q
    ensures q.Valid() && q.View() == AfterCalls(old(q.View()), calls)
    ensures taken == TakenBy(old(q.View()), calls)
    ensures q.pops == old(q.pops) + |taken|
    ensures q.copied + q.head <= q.pops
    ensures q.head <= 4096 || q.head < |q.items| - q.head
  {
    ghost var start := q.View();
    taken := [];
    for k := 0 to |calls|
      invariant q.Valid()
      invariant AfterCalls(q.View(), calls[k..]) == AfterCalls(start, calls)
      invariant taken + TakenBy(q.View(), calls[k..]) == TakenBy(start, calls)
      invariant q.pops == old(q.pops) + |taken|
    {
      assert calls[k..][0] == calls[k] && calls[k..][1..] == calls[k + 1..];
      ghost var before := q.View();
      var more := Perform(q, calls[k]);
      assert TakenBy(before, calls[k..]) == more + TakenBy(q.View(), calls[k + 1..]);
      taken := taken + more;
    }
  }
}
