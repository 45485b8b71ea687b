// What holds of the document and version tables over any sequence of saves,
// recorded errors and rolled-back transactions.
module VersionFacts {
  import opened Wrappers
  import opened VersionStore

  ghost predicate DomainsOk(domains: map<string, nat>, next: nat) {
    && (forall d :: d in domains ==> domains[d] < next)
    && (forall d, e :: d in domains && e in domains && domains[d] == domains[e] ==> d == e)
  }

  ghost predicate DocumentsOk(documents: map<Key, Document>, c: Counters) {
    && (forall k :: k in documents ==> documents[k].id < c.document && k.domainId < c.domain)
    && (forall k, l :: k in documents && l in documents && documents[k].id == documents[l].id ==> k == l)
  }

  // A version's text hashes to the hash it is kept under.
  ghost predicate VersionsOk(versions: map<VersionKey, Version>, c: Counters, hash: string -> string) {
    && (forall v :: v in versions ==> versions[v].id < c.version && v.documentId < c.document)
    && (forall v :: v in versions ==> hash(versions[v].markdown) == v.contentHash)
    && (forall v, w :: v in versions && w in versions && versions[v].id == versions[w].id ==> v == w)
  }

  // A document's latest version is a version of it under its latest hash.
  ghost predicate LatestOk(document: Document, versions: map<VersionKey, Version>) {
    match document.latestHash
    case None => document.latestVersion == None
    case Some(h) =>
      VersionKey(document.id, h) in versions && document.latestVersion == Some(versions[VersionKey(document.id, h)].id)
  }

  ghost predicate Sound(t: Tables, c: Counters, hash: string -> string) {
    && DomainsOk(t.domains, c.domain) && DocumentsOk(t.documents, c) && VersionsOk(t.versions, c, hash)
    && AllLatestOk(t)
  }

  lemma {:induction false} DomainKeeps(domains: map<string, nat>, next: nat, domain: string, id: nat)
    requires DomainsOk(domains, next) && id == if domain in domains then domains[domain] else next
    ensures DomainsOk(domains[domain := id], next + 1) && id < next + 1
  {
  }

  lemma {:induction false} DocumentKeeps(documents: map<Key, Document>, c: Counters, key: Key, document: Document,
                                         later: Counters)
    requires DocumentsOk(documents, c) && key.domainId < later.domain
    requires document.id == if key in documents then documents[key].id else c.document
    requires c.domain <= later.domain && c.document < later.document
    ensures DocumentsOk(documents[key := document], later)
  {
  }

  lemma {:induction false} VersionKeeps(versions: map<VersionKey, Version>, c: Counters, hash: string -> string,
                                        v: VersionKey, version: Version, later: Counters)
    requires VersionsOk(versions, c, hash) && v.documentId < later.document && hash(version.markdown) == v.contentHash
    requires version.id == if v in versions then versions[v].id else c.version
    requires c.document <= later.document && c.version < later.version
    ensures VersionsOk(versions[v := version], later, hash)
  {
  }

  // A page whose content hash is the hash of its text, and not empty.
  ghost predicate IsHashed(page: Page, hash: string -> string) {
    page.contentHash == hash(page.markdown) && page.contentHash != ""
  }

  ghost predicate AllLatestOk(t: Tables) {
    forall k :: k in t.documents ==> LatestOk(t.documents[k], t.versions)
  }

  lemma {:induction false} LatestSurvives(document: Document, versions: map<VersionKey, Version>, v: VersionKey,
                                          version: Version)
    requires LatestOk(document, versions) && (v in versions ==> version.id == versions[v].id)
    ensures LatestOk(document, versions[v := version])
  {
  }

  lemma {:induction false} SavedRowId(env: Env, t: Tables, c: Counters, page: Page)
    ensures var key := KeyOf(t, c, page);
            SavedRow(env, t, c, page).id == RowOf(env, t, c, page).id ==
            if key in t.documents then t.documents[key].id else c.document
  {
  }

  lemma {:induction false} SaveKeepsLatest(env: Env, t: Tables, c: Counters, page: Page)
    requires AllLatestOk(t)
    ensures AllLatestOk(AfterSave(env, t, c, page))
  {
    var key, row, after := KeyOf(t, c, page), RowOf(env, t, c, page), AfterSave(env, t, c, page);
    var v, version := VersionKey(row.id, page.contentHash), VersionOf(env, t, c, page);
    forall k | k in after.documents
      ensures LatestOk(after.documents[k], after.versions)
    {
      if k != key {
        LatestSurvives(t.documents[k], t.versions, v, version);
      }
    }
  }

  lemma {:induction false} SaveKeepsDocuments(env: Env, t: Tables, c: Counters, page: Page)
    requires DomainsOk(t.domains, c.domain) && DocumentsOk(t.documents, c)
    ensures var after, later := AfterSave(env, t, c, page), CountersAfter(c, Result(env, t, c, page));
            DomainsOk(after.domains, later.domain) && DocumentsOk(after.documents, later)
  {
    SavedRowId(env, t, c, page);
    hide SavedRow, RowOf, SavedVersions;
    var key := KeyOf(t, c, page);
    DomainKeeps(t.domains, c.domain, page.domain, key.domainId);
    DocumentKeeps(t.documents, c, key, SavedRow(env, t, c, page), CountersAfter(c, Result(env, t, c, page)));
  }

  lemma {:induction false} SaveKeepsVersions(env: Env, t: Tables, c: Counters, page: Page, hash: string -> string)
    requires DocumentsOk(t.documents, c) && VersionsOk(t.versions, c, hash) && IsHashed(page, hash)
    ensures VersionsOk(AfterSave(env, t, c, page).versions, CountersAfter(c, Result(env, t, c, page)), hash)
  {
    var row := RowOf(env, t, c, page);
    var v, version := VersionKey(row.id, page.contentHash), VersionOf(env, t, c, page);
    if ContentChanged(row.latestHash, page.contentHash) {
      VersionKeeps(t.versions, c, hash, v, version, CountersAfter(c, Result(env, t, c, page)));
    }
  }

  lemma {:induction false} SaveKeepsSound(env: Env, t: Tables, c: Counters, page: Page, hash: string -> string)
    requires Sound(t, c, hash) && IsHashed(page, hash)
    ensures Sound(AfterSave(env, t, c, page), CountersAfter(c, Result(env, t, c, page)), hash)
  {
    hide AfterSave, Result, CountersAfter;
    SaveKeepsDocuments(env, t, c, page);
    SaveKeepsVersions(env, t, c, page, hash);
    SaveKeepsLatest(env, t, c, page);
  }

  lemma {:induction false} ErrorKeepsSound(t: Tables, c: Counters, url: string, urlHash: string, domain: string,
                                           message: string, now: int, hash: string -> string)
    requires Sound(t, c, hash)
    ensures Sound(AfterError(t, c, url, urlHash, domain, message, now), c.(domain := c.domain + 1), hash)
  {
    var key := Key(DomainId(t, c, domain), urlHash);
    DomainKeeps(t.domains, c.domain, domain, key.domainId);
  }

  // One transaction: a committed save, a committed error record, a change of the
  // urls table by another service, or anything that was rolled back after taking
  // some ids.
  datatype Op = Save(page: Page)
              | Record(url: string, urlHash: string, domain: string, message: string, now: int)
              | Mapped(urls: map<Key, nat>)
              | RolledBack(domains: nat, documents: nat, versions: nat)

  datatype State = State(tables: Tables, counters: Counters)

  function After(env: Env, st: State, op: Op): State {
    match op
    case Save(page) =>
      State(AfterSave(env, st.tables, st.counters, page),
            CountersAfter(st.counters, Result(env, st.tables, st.counters, page)))
    case Record(url, urlHash, domain, message, now) =>
      State(AfterError(st.tables, st.counters, url, urlHash, domain, message, now),
            st.counters.(domain := st.counters.domain + 1))
    case Mapped(urls) =>
      State(st.tables.(urls := urls), st.counters)
    case RolledBack(d, e, v) =>
      State(st.tables, Counters(st.counters.domain + d, st.counters.document + e, st.counters.version + v))
  }

  function Start(): State {
    State(Tables(map[], map[], map[], map[], map[], []), Counters(1, 1, 1))
  }

  // The state after the first n transactions.
  function AfterOps(env: Env, ops: seq<Op>, n: nat): State
    requires n <= |ops|
  {
    if n == 0 then Start() else After(env, AfterOps(env, ops, n - 1), ops[n - 1])
  }

  ghost predicate AllHashed(ops: seq<Op>, hash: string -> string) {
    forall i :: 0 <= i < |ops| && ops[i].Save? ==> IsHashed(ops[i].page, hash)
  }

  ghost predicate SoundState(st: State, hash: string -> string) {
    Sound(st.tables, st.counters, hash)
  }

  lemma {:induction false} OpKeepsSound(env: Env, st: State, op: Op, hash: string -> string)
    requires SoundState(st, hash) && (op.Save? ==> IsHashed(op.page, hash))
    ensures SoundState(After(env, st, op), hash)
  {
    hide AfterSave, AfterError, Result, CountersAfter, AllLatestOk, DomainsOk, DocumentsOk, VersionsOk, IsHashed;
    match op
    case Save(page) => SaveKeepsSound(env, st.tables, st.counters, page, hash);
    case Record(url, urlHash, domain, message, now) =>
      ErrorKeepsSound(st.tables, st.counters, url, urlHash, domain, message, now, hash);
    case Mapped(urls) => UrlsKeepSound(st.tables, st.counters, hash, urls);
    case RolledBack(_, _, _) => MoreIdsKeepSound(st.tables, st.counters, hash, After(env, st, op).counters);
  }

  lemma {:induction false} UrlsKeepSound(t: Tables, c: Counters, hash: string -> string, urls: map<Key, nat>)
    requires Sound(t, c, hash)
    ensures Sound(t.(urls := urls), c, hash)
  {
  }

  lemma {:induction false} MoreIdsKeepSound(t: Tables, c: Counters, hash: string -> string, later: Counters)
    requires Sound(t, c, hash) && Ahead(c, later)
    ensures Sound(t, later, hash)
  {
  }

  // The tables are sound after any sequence of transactions.
  lemma {:induction false} OpsKeepSound(env: Env, ops: seq<Op>, n: nat, hash: string -> string)
    requires AllHashed(ops, hash) && n <= |ops|
    ensures SoundState(AfterOps(env, ops, n), hash)
  {
    hide After;
    if n > 0 {
      OpsKeepSound(env, ops, n - 1, hash);
      OpKeepsSound(env, AfterOps(env, ops, n - 1), ops[n - 1], hash);
    }
  }

  // The document of a URL, if it was ever saved: its latest hash and its id.
  function DocumentAt(t: Tables, domain: string, urlHash: string): Option<Document> {
    if domain in t.domains then Lookup(t.documents, Key(t.domains[domain], urlHash)) else None
  }

  function LatestHash(t: Tables, domain: string, urlHash: string): Option<string> {
    match DocumentAt(t, domain, urlHash) case None => None case Some(document) => document.latestHash
  }

  predicate SavesTo(op: Op, domain: string, urlHash: string) {
    op.Save? && op.page.domain == domain && op.page.urlHash == urlHash
  }

  // The last save of a URL among the first n transactions, and its content hash.
  function LastSave(ops: seq<Op>, n: nat, domain: string, urlHash: string): Option<Page>
    requires n <= |ops|
  {
    if n == 0 then None
    else if SavesTo(ops[n - 1], domain, urlHash) then Some(ops[n - 1].page)
    else LastSave(ops, n - 1, domain, urlHash)
  }

  function LastSaved(ops: seq<Op>, n: nat, domain: string, urlHash: string): Option<string>
    requires n <= |ops|
  {
    match LastSave(ops, n, domain, urlHash) case None => None case Some(page) => Some(page.contentHash)
  }

  lemma {:induction false} SavedRowHash(env: Env, t: Tables, c: Counters, page: Page)
    requires page.contentHash != ""
    ensures SavedRow(env, t, c, page).latestHash == Some(page.contentHash)
  {
  }

  // Where a URL's document is found after a save.
  lemma {:induction false} SaveSetsDocument(env: Env, t: Tables, c: Counters, page: Page, domain: string,
                                            urlHash: string)
    requires DomainsOk(t.domains, c.domain) && DocumentsOk(t.documents, c)
    ensures DocumentAt(AfterSave(env, t, c, page), domain, urlHash) ==
            if page.domain == domain && page.urlHash == urlHash then Some(SavedRow(env, t, c, page))
            else DocumentAt(t, domain, urlHash)
  {
    hide SavedRow, RowOf, SavedVersions;
  }

  lemma {:induction false} SaveSetsLatest(env: Env, t: Tables, c: Counters, page: Page, domain: string,
                                          urlHash: string, hash: string -> string)
    requires Sound(t, c, hash) && page.contentHash != ""
    ensures LatestHash(AfterSave(env, t, c, page), domain, urlHash) ==
            if page.domain == domain && page.urlHash == urlHash then Some(page.contentHash)
            else LatestHash(t, domain, urlHash)
  {
    SaveSetsDocument(env, t, c, page, domain, urlHash);
    SavedRowHash(env, t, c, page);
    hide AfterSave, SavedRow, Sound, DocumentAt;
  }

  lemma {:induction false} OpSetsLatest(env: Env, st: State, op: Op, domain: string, urlHash: string,
                                        hash: string -> string)
    requires SoundState(st, hash) && (op.Save? ==> IsHashed(op.page, hash))
    ensures LatestHash(After(env, st, op).tables, domain, urlHash) ==
            if SavesTo(op, domain, urlHash) then Some(op.page.contentHash) else LatestHash(st.tables, domain, urlHash)
  {
    match op
    case Save(page) =>
      SaveSetsLatest(env, st.tables, st.counters, page, domain, urlHash, hash);
      hide LatestHash, AfterSave, Result, Sound;
    case Record(_, _, _, _, _) =>
      hide LatestOk;
    case Mapped(_) =>
    case RolledBack(_, _, _) =>
  }

  lemma {:induction false} TransactionSetsLatest(env: Env, ops: seq<Op>, n: nat, domain: string, urlHash: string,
                                                 hash: string -> string)
    requires AllHashed(ops, hash) && n < |ops|
    ensures LatestHash(AfterOps(env, ops, n + 1).tables, domain, urlHash) ==
            if SavesTo(ops[n], domain, urlHash) then Some(ops[n].page.contentHash)
            else LatestHash(AfterOps(env, ops, n).tables, domain, urlHash)
  {
    OpsKeepSound(env, ops, n, hash);
    hide LatestHash, After, Sound, IsHashed;
    OpSetsLatest(env, AfterOps(env, ops, n), ops[n], domain, urlHash, hash);
  }

  lemma {:induction false} NothingSaved(env: Env, ops: seq<Op>, domain: string, urlHash: string)
    ensures LatestHash(AfterOps(env, ops, 0).tables, domain, urlHash) == None
  {
  }

  // The latest hash in the tables is that of the last committed save.
  lemma {:induction false} LatestIsLastSaved(env: Env, ops: seq<Op>, n: nat, domain: string, urlHash: string,
                                             hash: string -> string)
    requires AllHashed(ops, hash) && n <= |ops|
    ensures LatestHash(AfterOps(env, ops, n).tables, domain, urlHash) == LastSaved(ops, n, domain, urlHash)
  {
    hide LatestHash, AfterOps;
    if n == 0 {
      NothingSaved(env, ops, domain, urlHash);
    } else {
      LatestIsLastSaved(env, ops, n - 1, domain, urlHash, hash);
      TransactionSetsLatest(env, ops, n - 1, domain, urlHash, hash);
    }
  }

  predicate RecordsTo(op: Op, domain: string, urlHash: string) {
    op.Record? && op.domain == domain && op.urlHash == urlHash
  }

  // The last error recorded for a URL since its last save.
  function ErrorSince(ops: seq<Op>, n: nat, domain: string, urlHash: string): Option<string>
    requires n <= |ops|
  {
    if n == 0 || SavesTo(ops[n - 1], domain, urlHash) then None
    else if RecordsTo(ops[n - 1], domain, urlHash) then Some(ops[n - 1].message)
    else ErrorSince(ops, n - 1, domain, urlHash)
  }

  ghost predicate ErrorIs(t: Tables, domain: string, urlHash: string, error: Option<string>) {
    match DocumentAt(t, domain, urlHash) case None => true case Some(document) => document.error == error
  }

  lemma {:induction false} SavedRowIsClean(env: Env, t: Tables, c: Counters, page: Page)
    ensures SavedRow(env, t, c, page).error == None
  {
  }

  lemma {:induction false} ErrorSetsDocument(t: Tables, c: Counters, op: Op, domain: string, urlHash: string)
    requires DomainsOk(t.domains, c.domain) && DocumentsOk(t.documents, c) && op.Record?
    ensures var after := AfterError(t, c, op.url, op.urlHash, op.domain, op.message, op.now);
            DocumentAt(after, domain, urlHash) ==
            match DocumentAt(t, domain, urlHash)
            case None => None
            case Some(document) =>
              if RecordsTo(op, domain, urlHash) then Some(document.(error := Some(op.message), parsedAt := op.now))
              else Some(document)
  {
  }

  lemma {:induction false} OpSetsError(env: Env, st: State, op: Op, domain: string, urlHash: string,
                                       hash: string -> string, error: Option<string>)
    requires SoundState(st, hash) && ErrorIs(st.tables, domain, urlHash, error)
    ensures ErrorIs(After(env, st, op).tables, domain, urlHash,
                    if SavesTo(op, domain, urlHash) then None
                    else if RecordsTo(op, domain, urlHash) then Some(op.message) else error)
  {
    if op.Save? {
      SaveSetsDocument(env, st.tables, st.counters, op.page, domain, urlHash);
      SavedRowIsClean(env, st.tables, st.counters, op.page);
    } else if op.Record? {
      ErrorSetsDocument(st.tables, st.counters, op, domain, urlHash);
    }
    hide DocumentAt, AfterSave, AfterError, SavedRow, SoundState;
  }

  lemma {:induction false} NoDocumentYet(env: Env, ops: seq<Op>, domain: string, urlHash: string)
    ensures ErrorIs(AfterOps(env, ops, 0).tables, domain, urlHash, None)
  {
  }

  // A document carries the last error recorded since its last save, and no other.
  lemma {:induction false} ErrorIsCurrent(env: Env, ops: seq<Op>, n: nat, domain: string, urlHash: string,
                                          hash: string -> string)
    requires AllHashed(ops, hash) && n <= |ops|
    ensures ErrorIs(AfterOps(env, ops, n).tables, domain, urlHash, ErrorSince(ops, n, domain, urlHash))
  {
    hide After, ErrorIs, SoundState;
    if n == 0 {
      NoDocumentYet(env, ops, domain, urlHash);
    } else {
      ErrorIsCurrent(env, ops, n - 1, domain, urlHash, hash);
      OpsKeepSound(env, ops, n - 1, hash);
      OpSetsError(env, AfterOps(env, ops, n - 1), ops[n - 1], domain, urlHash, hash,
                  ErrorSince(ops, n - 1, domain, urlHash));
    }
  }

  // What the i-th transaction reports, when it is a save.
  function ResultAt(env: Env, ops: seq<Op>, i: nat): Saved
    requires i < |ops| && ops[i].Save?
  {
    var st := AfterOps(env, ops, i);
    Result(env, st.tables, st.counters, ops[i].page)
  }

  // A save reports a change exactly when its hash is not that of the URL's
  // previous save.
  lemma {:induction false} ChangedMeansDifferent(env: Env, ops: seq<Op>, i: nat, hash: string -> string)
    requires AllHashed(ops, hash) && i < |ops| && ops[i].Save?
    ensures ResultAt(env, ops, i).changed <==>
            LastSaved(ops, i, ops[i].page.domain, ops[i].page.urlHash) != Some(ops[i].page.contentHash)
  {
    var page, st := ops[i].page, AfterOps(env, ops, i);
    LatestIsLastSaved(env, ops, i, page.domain, page.urlHash, hash);
    OpsKeepSound(env, ops, i, hash);
    assert IsHashed(page, hash);
    hide AfterOps, LastSaved;
    ChangedMeansNotLatest(env, st.tables, st.counters, page, hash);
  }

  lemma {:induction false} ChangedMeansNotLatest(env: Env, t: Tables, c: Counters, page: Page, hash: string -> string)
    requires Sound(t, c, hash) && page.contentHash != ""
    ensures Result(env, t, c, page).changed <==> LatestHash(t, page.domain, page.urlHash) != Some(page.contentHash)
  {
    hide VersionOf, LatestOk;
  }

  // How many of the first n transactions report a change, and how many save other
  // content than the URL's previous save.
  function Changes(env: Env, ops: seq<Op>, n: nat): nat
    requires n <= |ops|
  {
    if n == 0 then 0
    else
      Changes(env, ops, n - 1) + if ops[n - 1].Save? && ResultAt(env, ops, n - 1).changed then 1 else 0
  }

  predicate IsDifferent(ops: seq<Op>, i: nat)
    requires i < |ops|
  {
    ops[i].Save? && LastSaved(ops, i, ops[i].page.domain, ops[i].page.urlHash) != Some(ops[i].page.contentHash)
  }

  function Differences(ops: seq<Op>, n: nat): nat
    requires n <= |ops|
  {
    if n == 0 then 0
    else
      Differences(ops, n - 1) + if IsDifferent(ops, n - 1) then 1 else 0
  }

  lemma {:induction false} ChangesAreDifferences(env: Env, ops: seq<Op>, n: nat, hash: string -> string)
    requires AllHashed(ops, hash) && n <= |ops|
    ensures Changes(env, ops, n) == Differences(ops, n)
  {
    hide ResultAt, LastSaved;
    if n > 0 {
      ChangesAreDifferences(env, ops, n - 1, hash);
      if ops[n - 1].Save? {
        ChangedMeansDifferent(env, ops, n - 1, hash);
      }
    }
  }

  // A version, once kept, stays: same id, same text.
  ghost predicate Persists(before: map<VersionKey, Version>, after: map<VersionKey, Version>) {
    forall v :: v in before ==> v in after && after[v].id == before[v].id && after[v].markdown == before[v].markdown
  }

  // So does a document, with its id.
  ghost predicate Stays(before: Tables, after: Tables) {
    && Persists(before.versions, after.versions)
    && (forall d :: d in before.domains ==> d in after.domains && after.domains[d] == before.domains[d])
    && (forall k :: k in before.documents ==> k in after.documents && after.documents[k].id == before.documents[k].id)
  }

  lemma {:induction false} OpKeepsRows(env: Env, st: State, op: Op)
    ensures Stays(st.tables, After(env, st, op).tables)
  {
    if op.Save? {
      SavedRowId(env, st.tables, st.counters, op.page);
      hide SavedRow;
    }
  }

  // No transaction rewrites a version's text or renumbers anything.
  lemma {:induction false} RowsPersist(env: Env, ops: seq<Op>, m: nat, n: nat)
    requires m <= n <= |ops|
    ensures Stays(AfterOps(env, ops, m).tables, AfterOps(env, ops, n).tables)
  {
    hide After;
    if m < n {
      RowsPersist(env, ops, m, n - 1);
      OpKeepsRows(env, AfterOps(env, ops, n - 1), ops[n - 1]);
    }
  }

  // The tables hold what a save reported: its document, and its version if it
  // reported a change.
  ghost predicate Holds(t: Tables, page: Page, saved: Saved) {
    var v := VersionKey(saved.documentId, page.contentHash);
    && page.domain in t.domains && Key(t.domains[page.domain], page.urlHash) in t.documents
    && t.documents[Key(t.domains[page.domain], page.urlHash)].id == saved.documentId
    && (saved.changed ==> v in t.versions && saved.versionId == Some(t.versions[v].id))
  }

  lemma {:induction false} SaveHolds(env: Env, t: Tables, c: Counters, page: Page)
    ensures Holds(AfterSave(env, t, c, page), page, Result(env, t, c, page))
  {
    SavedRowId(env, t, c, page);
    hide SavedRow, VersionOf;
  }

  lemma {:induction false} HoldsOn(before: Tables, after: Tables, page: Page, saved: Saved)
    requires Holds(before, page, saved) && Stays(before, after)
    ensures Holds(after, page, saved)
  {
  }

  lemma {:induction false} HoldsNext(env: Env, ops: seq<Op>, i: nat)
    requires i < |ops| && ops[i].Save?
    ensures Holds(AfterOps(env, ops, i + 1).tables, ops[i].page, ResultAt(env, ops, i))
  {
    hide Holds, Result, AfterSave;
    var st := AfterOps(env, ops, i);
    SaveHolds(env, st.tables, st.counters, ops[i].page);
  }

  lemma {:induction false} HoldsLater(env: Env, ops: seq<Op>, i: nat, n: nat)
    requires i < n <= |ops| && ops[i].Save?
    ensures Holds(AfterOps(env, ops, n).tables, ops[i].page, ResultAt(env, ops, i))
  {
    hide Holds, Stays, AfterOps, ResultAt;
    HoldsNext(env, ops, i);
    RowsPersist(env, ops, i + 1, n);
    HoldsOn(AfterOps(env, ops, i + 1).tables, AfterOps(env, ops, n).tables, ops[i].page, ResultAt(env, ops, i));
  }

  lemma {:induction false} HeldIdsAreUnique(t: Tables, c: Counters, hash: string -> string, a: Page, x: Saved,
                                            b: Page, y: Saved)
    requires Sound(t, c, hash) && Holds(t, a, x) && Holds(t, b, y)
    ensures x.documentId == y.documentId <==> a.domain == b.domain && a.urlHash == b.urlHash
    ensures x.changed && y.changed ==>
              (x.versionId == y.versionId <==> x.documentId == y.documentId && a.contentHash == b.contentHash)
  {
    hide AllLatestOk;
  }

  // Two saves that report a change report the same version exactly when they save
  // the same content for the same URL: a return to old content reuses its version.
  lemma {:induction false} SameContentSameVersion(env: Env, ops: seq<Op>, i: nat, j: nat, hash: string -> string)
    requires AllHashed(ops, hash) && i < |ops| && j < |ops| && ops[i].Save? && ops[j].Save?
    ensures var a, b, x, y := ops[i].page, ops[j].page, ResultAt(env, ops, i), ResultAt(env, ops, j);
            && (x.documentId == y.documentId <==> a.domain == b.domain && a.urlHash == b.urlHash)
            && (x.changed && y.changed ==>
                  (x.versionId == y.versionId <==>
                     a.domain == b.domain && a.urlHash == b.urlHash && a.contentHash == b.contentHash))
  {
    var n := |ops|;
    HoldsLater(env, ops, i, n);
    HoldsLater(env, ops, j, n);
    OpsKeepSound(env, ops, n, hash);
    hide AfterOps, ResultAt, Sound, Holds;
    var st := AfterOps(env, ops, n);
    HeldIdsAreUnique(st.tables, st.counters, hash, ops[i].page, ResultAt(env, ops, i), ops[j].page,
                     ResultAt(env, ops, j));
  }

  // A version's text always hashes to the hash it is kept under, and a document's
  // latest version is its version under its latest hash.
  lemma {:induction false} VersionsAreSound(env: Env, ops: seq<Op>, n: nat, hash: string -> string)
    requires AllHashed(ops, hash) && n <= |ops|
    ensures var t := AfterOps(env, ops, n).tables;
            && (forall v :: v in t.versions ==> hash(t.versions[v].markdown) == v.contentHash)
            && (forall k :: k in t.documents ==> LatestOk(t.documents[k], t.versions))
  {
    OpsKeepSound(env, ops, n, hash);
    hide AfterOps, LatestOk;
  }

  // A save that was reported as a change, of this version.
  predicate SavesVersion(env: Env, st: State, op: Op, v: VersionKey) {
    op.Save? &&
    var result := Result(env, st.tables, st.counters, op.page);
    result.changed && v == VersionKey(result.documentId, op.page.contentHash)
  }

  // A version's row, once kept, is rewritten exactly by a reported save of the same
  // content at another time, and only in that time.
  lemma {:induction false} OnlyTheTimeMoves(env: Env, st: State, op: Op, v: VersionKey)
    requires v in st.tables.versions
    ensures var row, after := st.tables.versions[v], After(env, st, op).tables.versions;
            && v in after
            && (after[v] != row <==> SavesVersion(env, st, op, v) && op.page.parsedAt != row.parsedAt)
            && (after[v] != row ==> after[v] == row.(parsedAt := op.page.parsedAt))
  {
    SavedRowIdOf(env, st, op);
    hide Visited;
  }

  lemma {:induction false} SavedRowIdOf(env: Env, st: State, op: Op)
    ensures op.Save? ==> Result(env, st.tables, st.counters, op.page).documentId
                         == RowOf(env, st.tables, st.counters, op.page).id
  {
    hide RowOf;
  }

  // A version kept by a save has the time of that save.
  lemma {:induction false} KeptAtItsTime(env: Env, st: State, op: Op, v: VersionKey)
    requires SavesVersion(env, st, op, v)
    ensures var after := After(env, st, op).tables.versions; v in after && after[v].parsedAt == op.page.parsedAt
  {
    SavedRowIdOf(env, st, op);
    hide Visited;
  }

  // Saving some content, then other content, and then the first again: the row of the
  // first version is not what it was.
  lemma {:induction false} ReturnMovesTheTime(env: Env, a: Page, b: Page, later: int, hash: string -> string)
    requires IsHashed(a, hash) && IsHashed(b, hash) && a.contentHash != b.contentHash && later != a.parsedAt
    requires a.domain == b.domain && a.urlHash == b.urlHash
    ensures var ops := [Save(a), Save(b), Save(a.(parsedAt := later))];
            var v := VersionKey(ResultAt(env, ops, 0).documentId, a.contentHash);
            var first, last := AfterOps(env, ops, 1).tables.versions, AfterOps(env, ops, 3).tables.versions;
            && v in first && first[v].parsedAt == a.parsedAt
            && v in last && last[v] == first[v].(parsedAt := later)
  {
    var ops := [Save(a), Save(b), Save(a.(parsedAt := later))];
    ReturnIsReported(env, a, b, later, hash, ops);
    var v := VersionKey(ResultAt(env, ops, 0).documentId, a.contentHash);
    AfterNext(env, ops, 0);
    AfterNext(env, ops, 1);
    AfterNext(env, ops, 2);
    hide After, Result, IsHashed, AfterOps;
    KeptAtItsTime(env, AfterOps(env, ops, 0), ops[0], v);
    OnlyTheTimeMoves(env, AfterOps(env, ops, 1), ops[1], v);
    OnlyTheTimeMoves(env, AfterOps(env, ops, 2), ops[2], v);
  }

  lemma {:induction false} AfterNext(env: Env, ops: seq<Op>, n: nat)
    requires n < |ops|
    ensures AfterOps(env, ops, n + 1) == After(env, AfterOps(env, ops, n), ops[n])
  {
  }

  lemma {:induction false} ReturnIsReported(env: Env, a: Page, b: Page, later: int, hash: string -> string,
                                            ops: seq<Op>)
    requires ops == [Save(a), Save(b), Save(a.(parsedAt := later))]
    requires IsHashed(a, hash) && IsHashed(b, hash) && a.contentHash != b.contentHash
    requires a.domain == b.domain && a.urlHash == b.urlHash
    ensures ResultAt(env, ops, 0).changed && ResultAt(env, ops, 2).changed
    ensures ResultAt(env, ops, 0).documentId == ResultAt(env, ops, 2).documentId
  {
    hide ResultAt;
    assert AllHashed(ops, hash);
    ChangedMeansDifferent(env, ops, 0, hash);
    ChangedMeansDifferent(env, ops, 2, hash);
    SameContentSameVersion(env, ops, 0, 2, hash);
    assert SavesTo(ops[1], a.domain, a.urlHash);
  }
}
