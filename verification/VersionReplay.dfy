// Histories of calls on the store: what they answer and leave behind is what the
// sequence of their transactions does.
module VersionReplay {
  import opened Wrappers
  import opened VersionStore
  import opened VersionFacts

  datatype Call = CallSave(page: Page, fate: Fate)
                | CallRecord(url: string, urlHash: string, domain: string, message: string, now: int, fate: Fate)
                | OtherService(urls: map<Key, nat>)

  datatype Reply = SaveReply(result: Option<Saved>) | RecordReply(ok: bool) | NoReply

  // The transaction that a call and its answer amount to: it is committed when the
  // caller is told so, and may be when COMMIT fails.
  predicate Follows(call: Call, reply: Reply, op: Op) {
    match call
    case CallSave(page, fate) =>
      && reply.SaveReply? && (fate.Commits? ==> reply.result.Some?)
      && if reply.result.Some? || fate == CommitFails(true) then op == Save(page) else op.RolledBack?
    case CallRecord(url, urlHash, domain, message, now, fate) =>
      && reply.RecordReply? && (fate.Commits? ==> reply.ok)
      && if reply.ok || fate == CommitFails(true) then op == Record(url, urlHash, domain, message, now)
         else op.RolledBack?
    case OtherService(urls) => reply.NoReply? && op == Mapped(urls)
  }

  // The answers are those of the transactions, each at its place in the sequence.
  predicate Replayed(env: Env, calls: seq<Call>, replies: seq<Reply>, ops: seq<Op>) {
    && |ops| == |replies| == |calls|
    && (forall i :: 0 <= i < |calls| ==> Follows(calls[i], replies[i], ops[i]))
    && (forall i :: 0 <= i < |calls| ==> Truthful(env, replies[i], ops, i))
  }

  predicate Truthful(env: Env, reply: Reply, ops: seq<Op>, i: nat)
    requires i < |ops|
  {
    reply.SaveReply? && reply.result.Some? ==> ops[i].Save? && reply.result.value == ResultAt(env, ops, i)
  }

  // Later transactions do not change what earlier ones did.
  lemma {:induction false} EarlierStates(env: Env, ops: seq<Op>, op: Op, n: nat)
    requires n <= |ops|
    ensures AfterOps(env, ops + [op], n) == AfterOps(env, ops, n)
  {
    hide After;
    if n > 0 {
      EarlierStates(env, ops, op, n - 1);
    }
  }

  lemma {:induction false} NextReply(env: Env, calls: seq<Call>, replies: seq<Reply>, ops: seq<Op>, call: Call,
                                     reply: Reply, op: Op)
    requires Replayed(env, calls, replies, ops) && Follows(call, reply, op)
    requires reply.SaveReply? && reply.result.Some? ==>
               var st := AfterOps(env, ops, |ops|);
               reply.result.value == Result(env, st.tables, st.counters, call.page)
    ensures Replayed(env, calls + [call], replies + [reply], ops + [op])
    ensures AfterOps(env, ops + [op], |ops| + 1) == After(env, AfterOps(env, ops, |ops|), op)
  {
    hide Follows, After, Result, Truthful;
    EarlierStates(env, ops, op, |ops|);
    LastReply(env, ops, call, reply, op);
    forall i | 0 <= i < |ops|
      ensures Truthful(env, replies[i], ops + [op], i)
    {
      EarlierReplies(env, ops, op, replies[i], i);
    }
  }

  lemma {:induction false} LastReply(env: Env, ops: seq<Op>, call: Call, reply: Reply, op: Op)
    requires Follows(call, reply, op)
    requires reply.SaveReply? && reply.result.Some? ==>
               var st := AfterOps(env, ops, |ops|);
               reply.result.value == Result(env, st.tables, st.counters, call.page)
    ensures Truthful(env, reply, ops + [op], |ops|)
  {
    EarlierStates(env, ops, op, |ops|);
  }

  lemma {:induction false} EarlierReplies(env: Env, ops: seq<Op>, op: Op, reply: Reply, i: nat)
    requires i < |ops| && Truthful(env, reply, ops, i)
    ensures Truthful(env, reply, ops + [op], i)
  {
    EarlierStates(env, ops, op, i);
  }

  // The answer is that all went well.
  predicate IsTold(reply: Reply) {
    match reply
    case SaveReply(result) => result.Some?
    case RecordReply(ok) => ok
    case NoReply => true
  }

  method Perform(store: Store, call: Call) returns (reply: Reply, ghost op: Op)
    modifies store
    ensures Follows(call, reply, op)
    ensures State(store.tables, store.counters)
         == After(store.env, State(old(store.tables), old(store.counters)), op)
    ensures reply.SaveReply? && reply.result.Some? ==>
              reply.result.value == Result(store.env, old(store.tables), old(store.counters), call.page)
  {
    hide AfterSave, AfterError, Result, CountersAfter;
    ghost var c0 := store.counters;
    match call {
      case CallSave(page, fate) =>
        var result := store.SaveParsedPage(page, fate);
        reply, op := SaveReply(result), Save(page);
      case CallRecord(url, urlHash, domain, message, now, fate) =>
        var ok := store.RecordParseError(url, urlHash, domain, message, now, fate);
        reply, op := RecordReply(ok), Record(url, urlHash, domain, message, now);
      case OtherService(urls) =>
        store.UrlsChange(urls);
        reply, op := NoReply, Mapped(urls);
    }
    if !IsTold(reply) && call.fate != CommitFails(true) {
      var c := store.counters;
      op := RolledBack(c.domain - c0.domain, c.document - c0.document, c.version - c0.version);
    }
  }

  // Any history of calls on a new store, wherever its transactions fail.
  method Replay(store: Store, calls: seq<Call>) returns (replies: seq<Reply>, ghost ops: seq<Op>)
    requires State(store.tables, store.counters) == Start()
    modifies store
    ensures Replayed(store.env, calls, replies, ops)
    ensures State(store.tables, store.counters) == AfterOps(store.env, ops, |ops|)
  {
    hide Follows, After, Result;
    replies, ops := [], [];
    for k := 0 to |calls|
      invariant Replayed(store.env, calls[..k], replies, ops)
      invariant State(store.tables, store.counters) == AfterOps(store.env, ops, k)
    {
      var reply;
      ghost var op;
      reply, op := Perform(store, calls[k]);
      NextReply(store.env, calls[..k], replies, ops, calls[k], reply, op);
      assert calls[..k + 1] == calls[..k] + [calls[k]];
      replies, ops := replies + [reply], ops + [op];
    }
    assert calls[..|calls|] == calls;
  }

  ghost predicate SavesHashed(calls: seq<Call>, hash: string -> string) {
    forall i :: 0 <= i < |calls| && calls[i].CallSave? ==> IsHashed(calls[i].page, hash)
  }

  // A caller who is told that a page changed was told so exactly because the save
  // of its URL that took effect before this one had other content.
  lemma {:induction false} RepliesAreTruthful(env: Env, calls: seq<Call>, replies: seq<Reply>, ops: seq<Op>, i: nat,
                                              hash: string -> string)
    requires Replayed(env, calls, replies, ops) && SavesHashed(calls, hash)
    requires i < |calls| && calls[i].CallSave? && replies[i].SaveReply? && replies[i].result.Some?
    ensures SoundState(AfterOps(env, ops, |ops|), hash)
    ensures var page := calls[i].page;
            replies[i].result.value.changed <==>
            LastSaved(ops, i, page.domain, page.urlHash) != Some(page.contentHash)
  {
    assert AllHashed(ops, hash) by {
      forall j | 0 <= j < |ops| && ops[j].Save?
        ensures IsHashed(ops[j].page, hash)
      {
        assert Follows(calls[j], replies[j], ops[j]);
      }
    }
    assert Follows(calls[i], replies[i], ops[i]) && Truthful(env, replies[i], ops, i);
    OpsKeepSound(env, ops, |ops|, hash);
    ChangedMeansDifferent(env, ops, i, hash);
  }
}
