// flushParseRequests of services/mapper/main.go: records read from a channel
// are pushed onto the output queue in batches, one RPUSH call a batch.
module OutputWriter {
  // One RPUSH.  The batch is forgotten afterwards whether Redis took it or not.
  datatype Rpush<T> = Rpush(items: seq<T>, ok: bool)

  datatype Writer<T> = Writer(batch: seq<T>, calls: seq<Rpush<T>>)

  function NewWriter<T>(): Writer<T> {
    Writer([], [])
  }

  function Flushed<T>(w: Writer<T>, ok: bool): Writer<T> {
    if w.batch == [] then w else Writer([], w.calls + [Rpush(w.batch, ok)])
  }

  function Received<T>(w: Writer<T>, record: T, batchSize: nat, ok: bool): Writer<T> {
    var fuller := w.(batch := w.batch + [record]);
    if |fuller.batch| >= batchSize then Flushed(fuller, ok) else fuller
  }

  // The writer after the first n records; `ok(k)` says whether Redis would take
  // a batch completed by record k.
  function AfterRecords<T>(records: seq<T>, n: nat, batchSize: nat, ok: nat -> bool): Writer<T>
    requires n <= |records|
  {
    if n == 0 then NewWriter()
    else Received(AfterRecords(records, n - 1, batchSize, ok), records[n - 1], batchSize, ok(n - 1))
  }

  // What every call carried, and what reached the queue.
  function Attempted<T>(calls: seq<Rpush<T>>): seq<T> {
    if calls == [] then [] else Attempted(calls[..|calls| - 1]) + calls[|calls| - 1].items
  }

  function Delivered<T>(calls: seq<Rpush<T>>): seq<T> {
    if calls == [] then []
    else
      var last := calls[|calls| - 1];
      Delivered(calls[..|calls| - 1]) + if last.ok then last.items else []
  }

  lemma {:induction false} DeliveredSnoc<T>(calls: seq<Rpush<T>>, call: Rpush<T>)
    ensures Delivered(calls + [call]) == Delivered(calls) + if call.ok then call.items else []
    ensures Attempted(calls + [call]) == Attempted(calls) + call.items
  {
    assert (calls + [call])[..|calls|] == calls;
  }

  ghost predicate FullBatches<T>(calls: seq<Rpush<T>>, batchSize: nat) {
    forall k :: 0 <= k < |calls| ==> |calls[k].items| == if batchSize == 0 then 1 else batchSize
  }

  // What holds of the writer between two records: its calls and its batch carry
  // the records read so far, and no batch waits longer than it must.
  ghost predicate Carries<T>(w: Writer<T>, records: seq<T>, batchSize: nat) {
    && Attempted(w.calls) + w.batch == records
    && (w.batch == [] || |w.batch| < batchSize)
    && FullBatches(w.calls, batchSize)
  }

  lemma {:induction false} ReceivedCarries<T>(w: Writer<T>, records: seq<T>, record: T, batchSize: nat, ok: bool)
    requires Carries(w, records, batchSize)
    ensures Carries(Received(w, record, batchSize, ok), records + [record], batchSize)
  {
    var fuller, out := w.batch + [record], Received(w, record, batchSize, ok);
    assert |fuller| == |w.batch| + 1;
    assert Attempted(w.calls) + fuller == records + [record] by {
      assert Attempted(w.calls) + fuller == (Attempted(w.calls) + w.batch) + [record];
    }
    if |fuller| >= batchSize {
      DeliveredSnoc(w.calls, Rpush(fuller, ok));
      assert out == Writer([], w.calls + [Rpush(fuller, ok)]);
      assert Attempted(out.calls) + [] == Attempted(out.calls);
    } else {
      assert out == Writer(fuller, w.calls);
    }
  }

  // Batching loses and repeats nothing, and fills every batch it pushes early.
  lemma {:induction false} BatchesCoverRecords<T>(records: seq<T>, n: nat, batchSize: nat, ok: nat -> bool)
    requires n <= |records|
    ensures Carries(AfterRecords(records, n, batchSize, ok), records[..n], batchSize)
  {
    if n == 0 {
      assert records[..0] == [];
    } else {
      BatchesCoverRecords(records, n - 1, batchSize, ok);
      ReceivedCarries(AfterRecords(records, n - 1, batchSize, ok), records[..n - 1], records[n - 1], batchSize,
                      ok(n - 1));
      assert records[..n] == records[..n - 1] + [records[n - 1]];
    }
  }

  lemma {:induction false} AllDelivered<T>(calls: seq<Rpush<T>>)
    ensures (forall k :: 0 <= k < |calls| ==> calls[k].ok) ==> Delivered(calls) == Attempted(calls)
  {
    if calls == [] {
    } else {
      AllDelivered(calls[..|calls| - 1]);
    }
  }

  // Calls that carry exactly the records, in order, in full batches but the last.
  ghost predicate CarryAll<T>(calls: seq<Rpush<T>>, records: seq<T>, batchSize: nat) {
    && Attempted(calls) == records
    && (forall k :: 0 <= k < |calls| ==> 0 < |calls[k].items|)
    && (forall k :: 0 <= k < |calls| - 1 ==> |calls[k].items| == if batchSize == 0 then 1 else batchSize)
    && ((forall k :: 0 <= k < |calls| ==> calls[k].ok) ==> Delivered(calls) == records)
  }

  lemma {:induction false} FlushCarriesAll<T>(w: Writer<T>, records: seq<T>, batchSize: nat, ok: bool)
    requires Carries(w, records, batchSize)
    ensures CarryAll(Flushed(w, ok).calls, records, batchSize)
  {
    var calls := Flushed(w, ok).calls;
    if w.batch != [] {
      DeliveredSnoc(w.calls, Rpush(w.batch, ok));
    } else {
      assert Attempted(w.calls) + [] == Attempted(w.calls);
    }
    AllDelivered(calls);
  }

  // The loop of the writer goroutine; the channel is closed after `records`.
  method FlushParseRequests<T>(records: seq<T>, batchSize: nat, ok: nat -> bool) returns (calls: seq<Rpush<T>>)
    ensures calls == Flushed(AfterRecords(records, |records|, batchSize, ok), ok(|records|)).calls
    ensures CarryAll(calls, records, batchSize)
  {
    calls := [];
    var batch: seq<T> := [];
    for k := 0 to |records|
      invariant Writer(batch, calls) == AfterRecords(records, k, batchSize, ok)
    {
      batch := batch + [records[k]];
      if |batch| >= batchSize {
        calls := calls + [Rpush(batch, ok(k))];
        batch := [];
      }
    }
    assert records[..|records|] == records;
    BatchesCoverRecords(records, |records|, batchSize, ok);
    FlushCarriesAll(Writer(batch, calls), records, batchSize, ok(|records|));
    if batch != [] {
      calls := calls + [Rpush(batch, ok(|records|))];
    }
  }
}
