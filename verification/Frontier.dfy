// The crawl frontier of services/mapper/main.go: what one critical section of
// push, pop, close and done does to an abstract first-in first-out queue.
module Frontier {

  // `items` are the URLs waiting to be popped, oldest first.  `outstanding`
  // counts the URLs pushed for which `done` has not been called yet.
  datatype Queue<T> = Queue(items: seq<T>, outstanding: int, closed: bool)

  // What one pass through the loop in `pop` decides while it holds the lock.
  // `MustWait` is the call to `cond.Wait`, which gives the lock up.
  datatype Popped<T> = Took(item: T) | Drained | MustWait

  function EmptyQueue<T>(): Queue<T> {
    Queue([], 0, false)
  }

  function Pushed<T>(q: Queue<T>, x: T): Queue<T> {
    if q.closed then q else q.(items := q.items + [x], outstanding := q.outstanding + 1)
  }

  function PopDecision<T>(q: Queue<T>): Popped<T> {
    if q.items != [] then Took(q.items[0]) else if q.closed then Drained else MustWait
  }

  function AfterPop<T>(q: Queue<T>): Queue<T> {
    if q.items != [] then q.(items := q.items[1..]) else q
  }

  function ClosedQueue<T>(q: Queue<T>): Queue<T> {
    q.(closed := true)
  }

  // `done` also wakes every sleeper when it brings the count to zero.
  function AfterDone<T>(q: Queue<T>): Queue<T> {
    var left := if q.outstanding > 0 then q.outstanding - 1 else q.outstanding;
    q.(outstanding := left, closed := q.closed || left == 0)
  }

  // A history of critical sections, in the order the lock was granted.
  datatype Call<T> = CallPush(x: T) | CallPop | CallClose | CallDone

  function AfterCall<T>(q: Queue<T>, call: Call<T>): Queue<T> {
    match call
    case CallPush(x) => Pushed(q, x)
    case CallPop => AfterPop(q)
    case CallClose => ClosedQueue(q)
    case CallDone => AfterDone(q)
  }

  function AfterCalls<T>(q: Queue<T>, calls: seq<Call<T>>): Queue<T>
    decreases |calls|
  {
    if calls == [] then q else AfterCalls(AfterCall(q, calls[0]), calls[1..])
  }

  function Taken<T>(q: Queue<T>, call: Call<T>): seq<T> {
    if call.CallPop? && q.items != [] then [q.items[0]] else []
  }

  function Accepted<T>(q: Queue<T>, call: Call<T>): seq<T> {
    if call.CallPush? && !q.closed then [call.x] else []
  }

  // The items handed out by the pops of a history, in order.
  function TakenBy<T>(q: Queue<T>, calls: seq<Call<T>>): seq<T>
    decreases |calls|
  {
    if calls == [] then [] else Taken(q, calls[0]) + TakenBy(AfterCall(q, calls[0]), calls[1..])
  }

  // The items accepted by the pushes of a history, in order.
  function AcceptedBy<T>(q: Queue<T>, calls: seq<Call<T>>): seq<T>
    decreases |calls|
  {
    if calls == [] then [] else Accepted(q, calls[0]) + AcceptedBy(AfterCall(q, calls[0]), calls[1..])
  }

  // First in, first out: whatever the history, the items taken followed by the
  // items still waiting are the initial items followed by the accepted ones.
  lemma {:induction false} FirstInFirstOut<T>(q: Queue<T>, calls: seq<Call<T>>)
    ensures TakenBy(q, calls) + AfterCalls(q, calls).items == q.items + AcceptedBy(q, calls)
    decreases |calls|
  {
    if calls == [] {
    } else {
      var next, rest := AfterCall(q, calls[0]), calls[1..];
      FirstInFirstOut(next, rest);
      OneCall(q, calls[0]);
      Splice(Taken(q, calls[0]), TakenBy(next, rest), AfterCalls(next, rest).items,
             next.items, AcceptedBy(next, rest), q.items, Accepted(q, calls[0]));
    }
  }

  lemma {:induction false} OneCall<T>(q: Queue<T>, call: Call<T>)
    ensures Taken(q, call) + AfterCall(q, call).items == q.items + Accepted(q, call)
  {
    match call
    case CallPush(x) =>
    case CallPop =>
    case CallClose =>
    case CallDone =>
  }

  lemma {:induction false} Splice<T>(taken: seq<T>, later: seq<T>, end: seq<T>, mid: seq<T>, added: seq<T>,
                                     start: seq<T>, first: seq<T>)
    requires later + end == mid + added
    requires taken + mid == start + first
    ensures (taken + later) + end == start + (first + added)
  {
    assert (taken + later) + end == taken + (later + end);
    assert (taken + mid) + added == taken + (mid + added);
    assert (start + first) + added == start + (first + added);
  }

  // A closed queue stays closed, so nothing is accepted after the first refusal.
  lemma {:induction false} ClosedAcceptsNothing<T>(q: Queue<T>, calls: seq<Call<T>>)
    requires q.closed
    ensures AfterCalls(q, calls).closed
    ensures AcceptedBy(q, calls) == []
    decreases |calls|
  {
    if calls == [] {
    } else {
      ClosedAcceptsNothing(AfterCall(q, calls[0]), calls[1..]);
    }
  }
}
