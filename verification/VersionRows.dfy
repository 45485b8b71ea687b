// What the rows of the tables hold, field by field, over any sequence of
// transactions: a document what its URL was last saved with, a version what its
// content was first saved with.
module VersionRows {
  import opened Wrappers
  import opened VersionStore
  import opened VersionFacts

  // The time of the last save of a URL, or of an error recorded for it later.
  function LastTime(ops: seq<Op>, n: nat, domain: string, urlHash: string): Option<int>
    requires n <= |ops|
  {
    if n == 0 then None
    else if SavesTo(ops[n - 1], domain, urlHash) then Some(ops[n - 1].page.parsedAt)
    else if RecordsTo(ops[n - 1], domain, urlHash) then Some(ops[n - 1].now)
    else LastTime(ops, n - 1, domain, urlHash)
  }

  // The last source that a URL was saved with and that is not blank, trimmed.
  function LastSource(env: Env, ops: seq<Op>, n: nat, domain: string, urlHash: string): Option<string>
    requires n <= |ops|
  {
    if n == 0 then None
    else if SavesTo(ops[n - 1], domain, urlHash) && env.trim(ops[n - 1].page.sourceUrl) != "" then
      Some(env.trim(ops[n - 1].page.sourceUrl))
    else LastSource(env, ops, n - 1, domain, urlHash)
  }

  // The urls table after n transactions.
  function UrlsAt(ops: seq<Op>, n: nat): map<Key, nat>
    requires n <= |ops|
  {
    if n == 0 then map[] else if ops[n - 1].Mapped? then ops[n - 1].urls else UrlsAt(ops, n - 1)
  }

  // The id under which a save of a URL last found it in the urls table.
  function LastFound(ops: seq<Op>, n: nat, domain: string, urlHash: string, key: Key): Option<nat>
    requires n <= |ops|
  {
    if n == 0 then None
    else if SavesTo(ops[n - 1], domain, urlHash) && key in UrlsAt(ops, n - 1) then Some(UrlsAt(ops, n - 1)[key])
    else LastFound(ops, n - 1, domain, urlHash, key)
  }

  ghost predicate IsKind(env: Env, kind: string, given: string) {
    kind == if env.trim(env.lower(given)) == "" then "html" else env.trim(env.lower(given))
  }

  // A document has what this page was saved with, and this time, source and id.
  ghost predicate Carries(env: Env, document: Document, page: Page, time: int, source: Option<string>,
                          urlId: Option<nat>) {
    && document.url == page.url && document.facts == page.facts
    && IsKind(env, document.documentType, page.documentType)
    && document.latestHtml == Some(page.htmlHash)
    && document.parsedAt == time && document.sourceUrl == source && document.urlId == urlId
  }

  lemma {:induction false} SavedRowCarries(env: Env, t: Tables, c: Counters, page: Page)
    ensures var key := KeyOf(t, c, page);
            var before := Lookup(t.documents, key);
            Carries(env, SavedRow(env, t, c, page), page, page.parsedAt,
                    if env.trim(page.sourceUrl) != "" then Some(env.trim(page.sourceUrl))
                    else if before.Some? then before.value.sourceUrl else None,
                    if key in t.urls then Some(t.urls[key]) else if before.Some? then before.value.urlId else None)
  {
    hide VersionOf, KeyOf, ContentChanged;
  }

  // The row that a save finds is the URL's document.
  lemma {:induction false} FindsDocument(t: Tables, c: Counters, page: Page)
    requires DomainsOk(t.domains, c.domain) && DocumentsOk(t.documents, c)
    ensures Lookup(t.documents, KeyOf(t, c, page)) == DocumentAt(t, page.domain, page.urlHash)
  {
  }

  lemma {:induction false} SaveNamesDomain(env: Env, t: Tables, c: Counters, page: Page)
    ensures page.domain in AfterSave(env, t, c, page).domains
    ensures KeyOf(t, c, page) == Key(AfterSave(env, t, c, page).domains[page.domain], page.urlHash)
  {
    hide RowOf, SavedRow, SavedVersions;
  }

  lemma {:induction false} OpSetsUrls(env: Env, st: State, op: Op)
    ensures After(env, st, op).tables.urls == if op.Mapped? then op.urls else st.tables.urls
  {
    hide RowOf, SavedRow, SavedVersions;
  }

  lemma {:induction false} UrlsAreAt(env: Env, ops: seq<Op>, n: nat)
    requires n <= |ops|
    ensures AfterOps(env, ops, n).tables.urls == UrlsAt(ops, n)
  {
    hide After;
    if n > 0 {
      UrlsAreAt(env, ops, n - 1);
      OpSetsUrls(env, AfterOps(env, ops, n - 1), ops[n - 1]);
    }
  }

  lemma {:induction false} NothingLast(env: Env, ops: seq<Op>, n: nat, domain: string, urlHash: string, key: Key)
    requires n <= |ops| && LastSave(ops, n, domain, urlHash) == None
    ensures LastSource(env, ops, n, domain, urlHash) == None && LastFound(ops, n, domain, urlHash, key) == None
  {
    if n > 0 {
      NothingLast(env, ops, n - 1, domain, urlHash, key);
    }
  }

  ghost predicate DocumentIs(env: Env, ops: seq<Op>, n: nat, domain: string, urlHash: string)
    requires n <= |ops|
  {
    var t, page := AfterOps(env, ops, n).tables, LastSave(ops, n, domain, urlHash);
    match DocumentAt(t, domain, urlHash)
    case None => page == None
    case Some(document) =>
      && page.Some? && LastTime(ops, n, domain, urlHash).Some?
      && Carries(env, document, page.value, LastTime(ops, n, domain, urlHash).value,
                 LastSource(env, ops, n, domain, urlHash),
                 LastFound(ops, n, domain, urlHash, Key(t.domains[domain], urlHash)))
  }

  lemma {:induction false} SaveMakesDocument(env: Env, ops: seq<Op>, n: nat, domain: string, urlHash: string,
                                             hash: string -> string)
    requires AllHashed(ops, hash) && n < |ops| && SavesTo(ops[n], domain, urlHash)
    requires DocumentIs(env, ops, n, domain, urlHash)
    ensures DocumentIs(env, ops, n + 1, domain, urlHash)
  {
    var st, page := AfterOps(env, ops, n), ops[n].page;
    var t, c := st.tables, st.counters;
    OpsKeepSound(env, ops, n, hash);
    UrlsAreAt(env, ops, n);
    FindsDocument(t, c, page);
    SavedRowCarries(env, t, c, page);
    SaveSetsDocument(env, t, c, page, domain, urlHash);
    SaveNamesDomain(env, t, c, page);
    if DocumentAt(t, domain, urlHash) == None {
      NothingLast(env, ops, n, domain, urlHash, KeyOf(t, c, page));
    }
    hide AfterSave, SavedRow, Carries, Sound, IsHashed, Result, CountersAfter;
  }

  lemma {:induction false} NoDocumentAtFirst(env: Env, ops: seq<Op>, domain: string, urlHash: string)
    ensures DocumentIs(env, ops, 0, domain, urlHash)
  {
  }

  // The document of every URL is what its last committed save made it.
  lemma {:induction false} DocumentIsLastSaved(env: Env, ops: seq<Op>, n: nat, domain: string, urlHash: string,
                                               hash: string -> string)
    requires AllHashed(ops, hash) && n <= |ops|
    ensures DocumentIs(env, ops, n, domain, urlHash)
  {
    hide DocumentIs;
    if n == 0 {
      NoDocumentAtFirst(env, ops, domain, urlHash);
    } else {
      DocumentIsLastSaved(env, ops, n - 1, domain, urlHash, hash);
      if SavesTo(ops[n - 1], domain, urlHash) {
        SaveMakesDocument(env, ops, n - 1, domain, urlHash, hash);
      } else {
        OthersKeepDocument(env, ops, n - 1, domain, urlHash, hash);
      }
    }
  }

  // What other transactions than its saves make of a document.
  lemma {:induction false} OthersSetDocument(env: Env, st: State, op: Op, domain: string, urlHash: string,
                                             hash: string -> string)
    requires SoundState(st, hash) && !SavesTo(op, domain, urlHash)
    ensures var before, after := DocumentAt(st.tables, domain, urlHash),
                                 DocumentAt(After(env, st, op).tables, domain, urlHash);
            match before
            case None => after == None
            case Some(document) =>
              && after == Some(if RecordsTo(op, domain, urlHash)
                               then document.(error := Some(op.message), parsedAt := op.now) else document)
              && domain in After(env, st, op).tables.domains
              && After(env, st, op).tables.domains[domain] == st.tables.domains[domain]
  {
    var t, c := st.tables, st.counters;
    OpKeepsRows(env, st, op);
    if op.Save? {
      SaveSetsDocument(env, t, c, op.page, domain, urlHash);
    } else if op.Record? {
      ErrorSetsDocument(t, c, op, domain, urlHash);
    }
    hide AfterSave, AfterError, Sound, Result, CountersAfter;
  }

  lemma {:induction false} OthersKeepDocument(env: Env, ops: seq<Op>, n: nat, domain: string, urlHash: string,
                                              hash: string -> string)
    requires AllHashed(ops, hash) && n < |ops| && !SavesTo(ops[n], domain, urlHash)
    requires DocumentIs(env, ops, n, domain, urlHash)
    ensures DocumentIs(env, ops, n + 1, domain, urlHash)
  {
    OpsKeepSound(env, ops, n, hash);
    AfterNext(env, ops, n);
    hide After, AfterOps, SoundState, IsHashed, IsKind, UrlsAt;
    OthersSetDocument(env, AfterOps(env, ops, n), ops[n], domain, urlHash, hash);
  }

  predicate SavesContent(op: Op, domain: string, urlHash: string, contentHash: string) {
    SavesTo(op, domain, urlHash) && op.page.contentHash == contentHash
  }

  // The first save of some content for a URL.
  function FirstSave(ops: seq<Op>, n: nat, domain: string, urlHash: string, contentHash: string): Option<Page>
    requires n <= |ops|
  {
    if n == 0 then None
    else
      var first := FirstSave(ops, n - 1, domain, urlHash, contentHash);
      if first == None && SavesContent(ops[n - 1], domain, urlHash, contentHash) then Some(ops[n - 1].page) else first
  }

  // The time of the last save that brought the URL to this content from another one.
  function LastReturn(ops: seq<Op>, n: nat, domain: string, urlHash: string, contentHash: string): Option<int>
    requires n <= |ops|
  {
    if n == 0 then None
    else if SavesContent(ops[n - 1], domain, urlHash, contentHash) && IsDifferent(ops, n - 1) then
      Some(ops[n - 1].page.parsedAt)
    else LastReturn(ops, n - 1, domain, urlHash, contentHash)
  }

  // A version has what this page was saved with, and this time.
  ghost predicate Keeps(env: Env, version: Version, page: Page, time: int) {
    && version.markdown == page.markdown && version.htmlHash == page.htmlHash && version.facts == page.facts
    && IsKind(env, version.documentType, page.documentType)
    && version.sourceUrl == (if env.trim(page.sourceUrl) == "" then None else Some(env.trim(page.sourceUrl)))
    && version.parsedAt == time
  }

  // The row of a version, if it was ever saved.
  ghost predicate IsKept(env: Env, version: Option<Version>, first: Option<Page>, time: Option<int>) {
    if first == None then version == None
    else version.Some? && time.Some? && Keeps(env, version.value, first.value, time.value)
  }

  ghost predicate VersionIs(env: Env, ops: seq<Op>, n: nat, domain: string, urlHash: string, contentHash: string)
    requires n <= |ops|
  {
    var t, first := AfterOps(env, ops, n).tables, FirstSave(ops, n, domain, urlHash, contentHash);
    match DocumentAt(t, domain, urlHash)
    case None => first == None
    case Some(document) =>
      IsKept(env, Lookup(t.versions, VersionKey(document.id, contentHash)), first,
             LastReturn(ops, n, domain, urlHash, contentHash))
  }

  lemma {:induction false} LastWasFirst(ops: seq<Op>, n: nat, domain: string, urlHash: string)
    requires n <= |ops| && LastSave(ops, n, domain, urlHash).Some?
    ensures FirstSave(ops, n, domain, urlHash, LastSave(ops, n, domain, urlHash).value.contentHash).Some?
  {
    if !SavesTo(ops[n - 1], domain, urlHash) {
      LastWasFirst(ops, n - 1, domain, urlHash);
    }
  }

  // What a save makes of the versions of a document.
  lemma {:induction false} SaveSetsVersion(env: Env, t: Tables, c: Counters, page: Page, v: VersionKey,
                                           hash: string -> string)
    requires Sound(t, c, hash) && page.contentHash != ""
    ensures var before, after := DocumentAt(t, page.domain, page.urlHash), AfterSave(env, t, c, page);
            var id := if before.Some? then before.value.id else c.document;
            && id == Result(env, t, c, page).documentId
            && Lookup(after.versions, v) ==
               if v == VersionKey(id, page.contentHash)
                  && LatestHash(t, page.domain, page.urlHash) != Some(page.contentHash)
               then Some(Kept(env, Lookup(t.versions, v), c.version, page))
               else Lookup(t.versions, v)
  {
    FindsDocument(t, c, page);
    SavedRowIdOf(env, State(t, c), Save(page));
    hide Kept, SavedRow, LatestOk;
  }

  lemma {:induction false} KeptIsKept(env: Env, existing: Option<Version>, id: nat, page: Page, first: Option<Page>,
                                      time: Option<int>)
    requires IsKept(env, existing, first, time)
    ensures IsKept(env, Some(Kept(env, existing, id, page)), if first == None then Some(page) else first,
                   Some(page.parsedAt))
  {
  }

  lemma {:induction false} NextContent(ops: seq<Op>, n: nat, domain: string, urlHash: string, contentHash: string)
    requires n < |ops| && SavesTo(ops[n], domain, urlHash)
    ensures var first, time, page := FirstSave(ops, n, domain, urlHash, contentHash),
                                     LastReturn(ops, n, domain, urlHash, contentHash), ops[n].page;
            && FirstSave(ops, n + 1, domain, urlHash, contentHash) ==
               (if first == None && page.contentHash == contentHash then Some(page) else first)
            && LastReturn(ops, n + 1, domain, urlHash, contentHash) ==
               (if page.contentHash == contentHash && LastSaved(ops, n, domain, urlHash) != Some(contentHash)
                then Some(page.parsedAt) else time)
            && (LastSaved(ops, n, domain, urlHash) == Some(contentHash) ==> first.Some?)
  {
    if LastSave(ops, n, domain, urlHash).Some? {
      LastWasFirst(ops, n, domain, urlHash);
    }
    hide LastSave;
  }

  // The version rows of a document are where they were, unless it is saved.
  lemma {:induction false} OthersKeepVersion(env: Env, st: State, op: Op, domain: string, urlHash: string,
                                             contentHash: string, hash: string -> string)
    requires SoundState(st, hash) && !SavesTo(op, domain, urlHash) && (op.Save? ==> op.page.contentHash != "")
    ensures var before, after := DocumentAt(st.tables, domain, urlHash),
                                 DocumentAt(After(env, st, op).tables, domain, urlHash);
            && before.Some? == after.Some?
            && (before.Some? ==>
                  var v := VersionKey(before.value.id, contentHash);
                  && after.value.id == v.documentId
                  && Lookup(After(env, st, op).tables.versions, v) == Lookup(st.tables.versions, v))
  {
    var t, c := st.tables, st.counters;
    if op.Save? {
      SaveSetsDocument(env, t, c, op.page, domain, urlHash);
      if DocumentAt(t, domain, urlHash).Some? {
        SaveSetsVersion(env, t, c, op.page, VersionKey(DocumentAt(t, domain, urlHash).value.id, contentHash), hash);
        FindsDocument(t, c, op.page);
      }
    } else if op.Record? {
      ErrorSetsDocument(t, c, op, domain, urlHash);
    }
    hide AfterSave, Result, CountersAfter, LatestHash, Kept, LatestOk;
  }

  // The row that a save leaves of its document, and of a version of it.
  ghost predicate SavesRows(env: Env, st: State, page: Page, contentHash: string, after: Tables) {
    var t, before := st.tables, DocumentAt(st.tables, page.domain, page.urlHash);
    var v := VersionKey(if before.Some? then before.value.id else st.counters.document, contentHash);
    && DocumentAt(after, page.domain, page.urlHash).Some?
    && DocumentAt(after, page.domain, page.urlHash).value.id == v.documentId
    && (before == None ==> v !in t.versions)
    && Lookup(after.versions, v) ==
       if page.contentHash == contentHash && LatestHash(t, page.domain, page.urlHash) != Some(contentHash)
       then Some(Kept(env, Lookup(t.versions, v), st.counters.version, page))
       else Lookup(t.versions, v)
  }

  lemma {:induction false} SaveLeavesRows(env: Env, st: State, page: Page, contentHash: string, hash: string -> string)
    requires SoundState(st, hash) && page.contentHash != ""
    ensures SavesRows(env, st, page, contentHash, After(env, st, Save(page)).tables)
  {
    var t, c := st.tables, st.counters;
    SavedRowId(env, t, c, page);
    FindsDocument(t, c, page);
    SaveSetsDocument(env, t, c, page, page.domain, page.urlHash);
    var before := DocumentAt(t, page.domain, page.urlHash);
    var v := VersionKey(if before.Some? then before.value.id else c.document, contentHash);
    SaveSetsVersion(env, t, c, page, v, hash);
    if before == None {
      NewIdsAreUnused(t, c, hash, v);
    }
    hide AfterSave, Result, CountersAfter, LatestHash, Kept, SavedRow, RowOf, AllLatestOk, DomainsOk, DocumentAt;
  }

  lemma {:induction false} SaveMakesVersion(env: Env, ops: seq<Op>, n: nat, domain: string, urlHash: string,
                                            contentHash: string, hash: string -> string)
    requires AllHashed(ops, hash) && n < |ops| && SavesTo(ops[n], domain, urlHash)
    requires VersionIs(env, ops, n, domain, urlHash, contentHash)
    ensures VersionIs(env, ops, n + 1, domain, urlHash, contentHash)
  {
    AfterNext(env, ops, n);
    NextContent(ops, n, domain, urlHash, contentHash);
    OpsKeepSound(env, ops, n, hash);
    LatestIsLastSaved(env, ops, n, domain, urlHash, hash);
    hide After, AfterOps, LatestHash, Kept, Keeps, SoundState, DocumentAt, LastSaved, LastReturn, FirstSave;
    var st, page := AfterOps(env, ops, n), ops[n].page;
    SaveLeavesRows(env, st, page, contentHash, hash);
    var before := DocumentAt(st.tables, domain, urlHash);
    var v := VersionKey(if before.Some? then before.value.id else st.counters.document, contentHash);
    KeptIsKept(env, Lookup(st.tables.versions, v), st.counters.version, page,
               FirstSave(ops, n, domain, urlHash, contentHash), LastReturn(ops, n, domain, urlHash, contentHash));
  }

  // The versions of a document are the different contents saved under its URL, each
  // as it was first saved.
  lemma {:induction false} VersionsAreFirstSaves(env: Env, ops: seq<Op>, n: nat, domain: string, urlHash: string,
                                                 contentHash: string, hash: string -> string)
    requires AllHashed(ops, hash) && n <= |ops|
    ensures VersionIs(env, ops, n, domain, urlHash, contentHash)
  {
    hide VersionIs;
    if n == 0 {
      NoVersionAtFirst(env, ops, domain, urlHash, contentHash);
    } else {
      VersionsAreFirstSaves(env, ops, n - 1, domain, urlHash, contentHash, hash);
      if SavesTo(ops[n - 1], domain, urlHash) {
        SaveMakesVersion(env, ops, n - 1, domain, urlHash, contentHash, hash);
      } else {
        OthersKeepVersions(env, ops, n - 1, domain, urlHash, contentHash, hash);
      }
    }
  }

  lemma {:induction false} NoVersionAtFirst(env: Env, ops: seq<Op>, domain: string, urlHash: string,
                                            contentHash: string)
    ensures VersionIs(env, ops, 0, domain, urlHash, contentHash)
  {
  }

  lemma {:induction false} OthersKeepVersions(env: Env, ops: seq<Op>, n: nat, domain: string, urlHash: string,
                                              contentHash: string, hash: string -> string)
    requires AllHashed(ops, hash) && n < |ops| && !SavesTo(ops[n], domain, urlHash)
    requires VersionIs(env, ops, n, domain, urlHash, contentHash)
    ensures VersionIs(env, ops, n + 1, domain, urlHash, contentHash)
  {
    OpsKeepSound(env, ops, n, hash);
    AfterNext(env, ops, n);
    hide After, AfterOps, SoundState, DocumentAt, IsKept, LastSaved;
    OthersKeepVersion(env, AfterOps(env, ops, n), ops[n], domain, urlHash, contentHash, hash);
  }

  lemma {:induction false} NewIdsAreUnused(t: Tables, c: Counters, hash: string -> string, v: VersionKey)
    requires VersionsOk(t.versions, c, hash) && v.documentId >= c.document
    ensures v !in t.versions
  {
  }

  // The link that a URL was last saved with from a source.
  function LastLink(ops: seq<Op>, n: nat, domain: string, urlHash: string, source: string): Option<string>
    requires n <= |ops|
  {
    if n == 0 || source == "" then None
    else if SavesTo(ops[n - 1], domain, urlHash) && ops[n - 1].page.sourceUrl == source then Some(ops[n - 1].page.url)
    else LastLink(ops, n - 1, domain, urlHash, source)
  }

  ghost predicate SourcesBelow(t: Tables, c: Counters) {
    forall s :: s in t.sources ==> s.documentId < c.document
  }

  ghost predicate LinkIs(t: Tables, domain: string, urlHash: string, source: string, link: Option<string>) {
    match DocumentAt(t, domain, urlHash)
    case None => link == None
    case Some(document) => Lookup(t.sources, SourceKey(document.id, source)) == link
  }

  // What a save makes of the sources.
  lemma {:induction false} SaveSetsSource(env: Env, t: Tables, c: Counters, page: Page, s: SourceKey)
    requires DomainsOk(t.domains, c.domain) && DocumentsOk(t.documents, c)
    ensures var before, after := DocumentAt(t, page.domain, page.urlHash), AfterSave(env, t, c, page);
            var id := if before.Some? then before.value.id else c.document;
            Lookup(after.sources, s) ==
            if page.sourceUrl != "" && s == SourceKey(id, page.sourceUrl) then Some(page.url) else Lookup(t.sources, s)
  {
    FindsDocument(t, c, page);
    SavedRowId(env, t, c, page);
    hide RowOf, SavedRow, SavedVersions, KeyOf;
  }

  lemma {:induction false} SaveKeepsSources(env: Env, t: Tables, c: Counters, page: Page)
    requires DomainsOk(t.domains, c.domain) && DocumentsOk(t.documents, c) && SourcesBelow(t, c)
    ensures SourcesBelow(AfterSave(env, t, c, page), CountersAfter(c, Result(env, t, c, page)))
  {
    var after := AfterSave(env, t, c, page);
    forall s | s in after.sources
      ensures s.documentId < c.document + 1
    {
      SaveSetsSource(env, t, c, page, s);
    }
    hide AfterSave, Result, DomainsOk;
  }

  lemma {:induction false} OpKeepsSources(env: Env, st: State, op: Op, hash: string -> string)
    requires SoundState(st, hash) && SourcesBelow(st.tables, st.counters)
    ensures SourcesBelow(After(env, st, op).tables, After(env, st, op).counters)
  {
    if op.Save? {
      SaveKeepsSources(env, st.tables, st.counters, op.page);
    }
    hide AfterSave, Result, CountersAfter;
  }

  lemma {:induction false} SourcesAreBelow(env: Env, ops: seq<Op>, n: nat, hash: string -> string)
    requires AllHashed(ops, hash) && n <= |ops|
    ensures SourcesBelow(AfterOps(env, ops, n).tables, AfterOps(env, ops, n).counters)
  {
    hide After, SoundState;
    if n > 0 {
      SourcesAreBelow(env, ops, n - 1, hash);
      OpsKeepSound(env, ops, n - 1, hash);
      OpKeepsSources(env, AfterOps(env, ops, n - 1), ops[n - 1], hash);
    }
  }

  lemma {:induction false} OpSetsLink(env: Env, st: State, op: Op, domain: string, urlHash: string, source: string,
                                      link: Option<string>, hash: string -> string)
    requires SoundState(st, hash) && SourcesBelow(st.tables, st.counters)
    requires LinkIs(st.tables, domain, urlHash, source, link)
    ensures LinkIs(After(env, st, op).tables, domain, urlHash, source,
                   if SavesTo(op, domain, urlHash) && source != "" && op.page.sourceUrl == source
                   then Some(op.page.url) else link)
  {
    var t, c := st.tables, st.counters;
    if op.Save? {
      SaveSetsDocument(env, t, c, op.page, domain, urlHash);
      SavedRowId(env, t, c, op.page);
      FindsDocument(t, c, op.page);
      var before := DocumentAt(t, domain, urlHash);
      SaveSetsSource(env, t, c, op.page, SourceKey(if before.Some? then before.value.id else c.document, source));
    } else if op.Record? {
      ErrorSetsDocument(t, c, op, domain, urlHash);
    }
    hide AfterSave, SavedRow, RowOf, Result, CountersAfter, AllLatestOk, VersionsOk, DomainsOk;
  }

  // A document's sources are those it was saved from, each with the last link.
  lemma {:induction false} SourcesAreLastLinks(env: Env, ops: seq<Op>, n: nat, domain: string, urlHash: string,
                                               source: string, hash: string -> string)
    requires AllHashed(ops, hash) && n <= |ops|
    ensures LinkIs(AfterOps(env, ops, n).tables, domain, urlHash, source, LastLink(ops, n, domain, urlHash, source))
  {
    hide After, SoundState, SourcesBelow, LinkIs;
    if n == 0 {
      NoLinkAtFirst(env, ops, domain, urlHash, source);
    } else {
      SourcesAreLastLinks(env, ops, n - 1, domain, urlHash, source, hash);
      OpsKeepSound(env, ops, n - 1, hash);
      SourcesAreBelow(env, ops, n - 1, hash);
      OpSetsLink(env, AfterOps(env, ops, n - 1), ops[n - 1], domain, urlHash, source,
                 LastLink(ops, n - 1, domain, urlHash, source), hash);
    }
  }

  lemma {:induction false} NoLinkAtFirst(env: Env, ops: seq<Op>, domain: string, urlHash: string, source: string)
    ensures LinkIs(AfterOps(env, ops, 0).tables, domain, urlHash, source, None)
  {
  }

  // The error records among the first n transactions.
  function Recorded(ops: seq<Op>, n: nat): seq<Op>
    requires n <= |ops|
  {
    if n == 0 then [] else Recorded(ops, n - 1) + if ops[n - 1].Record? then [ops[n - 1]] else []
  }

  ghost predicate IsLogged(t: Tables, error: ParseError, op: Op) {
    && op.Record? && op.domain in t.domains && error.domainId == t.domains[op.domain]
    && error.url == op.url && error.urlHash == op.urlHash && error.message == op.message
  }

  ghost predicate LogIs(t: Tables, recorded: seq<Op>) {
    |t.errors| == |recorded| && forall i :: 0 <= i < |recorded| ==> IsLogged(t, t.errors[i], recorded[i])
  }

  lemma {:induction false} OpLogs(env: Env, st: State, op: Op, recorded: seq<Op>)
    requires LogIs(st.tables, recorded)
    ensures LogIs(After(env, st, op).tables, recorded + if op.Record? then [op] else [])
  {
    OpKeepsRows(env, st, op);
    hide RowOf, SavedRow, SavedVersions;
  }

  // The log of errors holds every recorded error, in order, and nothing else.
  lemma {:induction false} ErrorsAreRecorded(env: Env, ops: seq<Op>, n: nat)
    requires n <= |ops|
    ensures LogIs(AfterOps(env, ops, n).tables, Recorded(ops, n))
  {
    assert n == 0 ==> LogIs(AfterOps(env, ops, n).tables, []);
    hide After, LogIs;
    if n > 0 {
      ErrorsAreRecorded(env, ops, n - 1);
      OpLogs(env, AfterOps(env, ops, n - 1), ops[n - 1], Recorded(ops, n - 1));
    }
  }
}
