// store.go of the parser: documents, their versions and their parse errors, each
// call one transaction.
module VersionStore {
  import opened Wrappers

  datatype Facts = Facts(finalUrl: string, title: string, language: string, contentType: string, statusCode: int)

  // A pageRecord.
  datatype Page = Page(
    url: string, urlHash: string, domain: string, markdown: string, contentHash: string, htmlHash: string,
    facts: Facts, documentType: string, sourceUrl: string, parsedAt: int)

  datatype Key = Key(domainId: nat, urlHash: string)
  datatype VersionKey = VersionKey(documentId: nat, contentHash: string)
  datatype SourceKey = SourceKey(documentId: nat, sourceUrl: string)

  // Rows of page_documents, page_document_versions and page_parse_errors.
  datatype Document = Document(
    id: nat, urlId: Option<nat>, url: string, facts: Facts, documentType: string, sourceUrl: Option<string>,
    latestHash: Option<string>, latestHtml: Option<string>, latestVersion: Option<nat>, parsedAt: int,
    error: Option<string>)
  datatype Version = Version(
    id: nat, markdown: string, htmlHash: string, facts: Facts, documentType: string, sourceUrl: Option<string>,
    parsedAt: int)
  datatype ParseError = ParseError(domainId: nat, url: string, urlHash: string, message: string)

  // The unique constraints are the maps' keys. Another service fills the urls table.
  datatype Tables = Tables(
    urls: map<Key, nat>, domains: map<string, nat>, documents: map<Key, Document>,
    versions: map<VersionKey, Version>, sources: map<SourceKey, string>, errors: seq<ParseError>)

  // The id sequences: every INSERT takes a number, even one that only updates or
  // that is rolled back.
  datatype Counters = Counters(domain: nat, document: nat, version: nat)

  // strings.ToLower and strings.TrimSpace.
  datatype Env = Env(lower: string -> string, trim: string -> string)

  // documentType and nullEmpty.
  function DocumentType(env: Env, value: string): string {
    var clean := env.trim(env.lower(value));
    if clean == "" then "html" else clean
  }

  function NullEmpty(env: Env, value: string): Option<string> {
    if env.trim(value) == "" then None else Some(env.trim(value))
  }

  predicate ContentChanged(previous: Option<string>, current: string) {
    previous == None || previous.value == "" || previous.value != current
  }

  function OrElse<T>(first: Option<T>, second: Option<T>): Option<T> {
    if first.Some? then first else second
  }

  function Lookup<K, V>(m: map<K, V>, k: K): Option<V> {
    if k in m then Some(m[k]) else None
  }

  // upsertDomain.
  function DomainId(t: Tables, c: Counters, domain: string): nat {
    if domain in t.domains then t.domains[domain] else c.domain
  }

  function WithDomain(t: Tables, c: Counters, domain: string): (tx: Tables)
    ensures domain in tx.domains
  {
    t.(domains := t.domains[domain := DomainId(t, c, domain)])
  }

  function KeyOf(t: Tables, c: Counters, page: Page): Key {
    Key(DomainId(t, c, page.domain), page.urlHash)
  }

  // The INSERT INTO page_documents, over no row or over the row of the same key.
  function Visited(env: Env, existing: Option<Document>, id: nat, urlId: Option<nat>, page: Page): Document {
    match existing
    case None =>
      Document(id, urlId, page.url, page.facts, DocumentType(env, page.documentType), NullEmpty(env, page.sourceUrl),
               None, None, None, page.parsedAt, None)
    case Some(row) =>
      row.(urlId := OrElse(urlId, row.urlId), url := page.url, facts := page.facts,
           documentType := DocumentType(env, page.documentType),
           sourceUrl := OrElse(NullEmpty(env, page.sourceUrl), row.sourceUrl),
           parsedAt := page.parsedAt, error := None)
  }

  function WithSource(t: Tables, documentId: nat, page: Page): (tx: Tables)
    ensures tx == t.(sources := tx.sources)
  {
    if page.sourceUrl == "" then t else t.(sources := t.sources[SourceKey(documentId, page.sourceUrl) := page.url])
  }

  // The INSERT INTO page_document_versions: an existing version only gets a new time.
  function Kept(env: Env, existing: Option<Version>, id: nat, page: Page): Version {
    match existing
    case None =>
      Version(id, page.markdown, page.htmlHash, page.facts, DocumentType(env, page.documentType),
              NullEmpty(env, page.sourceUrl), page.parsedAt)
    case Some(version) => version.(parsedAt := page.parsedAt)
  }

  datatype Saved = Saved(documentId: nat, versionId: Option<nat>, changed: bool)

  // What a committed saveParsedPage reports and makes of the tables.
  function RowOf(env: Env, t: Tables, c: Counters, page: Page): Document {
    var key := KeyOf(t, c, page);
    Visited(env, Lookup(t.documents, key), c.document, Lookup(t.urls, key), page)
  }

  function VersionOf(env: Env, t: Tables, c: Counters, page: Page): Version {
    Kept(env, Lookup(t.versions, VersionKey(RowOf(env, t, c, page).id, page.contentHash)), c.version, page)
  }

  function Result(env: Env, t: Tables, c: Counters, page: Page): Saved {
    var row := RowOf(env, t, c, page);
    if ContentChanged(row.latestHash, page.contentHash) then Saved(row.id, Some(VersionOf(env, t, c, page).id), true)
    else Saved(row.id, None, false)
  }

  // The document's row in the end, and the versions.
  function SavedRow(env: Env, t: Tables, c: Counters, page: Page): Document {
    var row := RowOf(env, t, c, page);
    if ContentChanged(row.latestHash, page.contentHash) then
      row.(latestHash := Some(page.contentHash), latestHtml := Some(page.htmlHash),
           latestVersion := Some(VersionOf(env, t, c, page).id))
    else row.(latestHtml := Some(page.htmlHash))
  }

  function SavedVersions(env: Env, t: Tables, c: Counters, page: Page): map<VersionKey, Version> {
    var row := RowOf(env, t, c, page);
    if ContentChanged(row.latestHash, page.contentHash) then
      t.versions[VersionKey(row.id, page.contentHash) := VersionOf(env, t, c, page)]
    else t.versions
  }

  function AfterSave(env: Env, t: Tables, c: Counters, page: Page): Tables {
    WithSource(WithDomain(t, c, page.domain), RowOf(env, t, c, page).id, page).(
      documents := t.documents[KeyOf(t, c, page) := SavedRow(env, t, c, page)],
      versions := SavedVersions(env, t, c, page))
  }

  function CountersAfter(c: Counters, saved: Saved): Counters {
    Counters(c.domain + 1, c.document + 1, if saved.changed then c.version + 1 else c.version)
  }

  // What the statements of the transaction make of the tables, one after the other.
  ghost predicate Statements(env: Env, t: Tables, c: Counters, page: Page, tx: Tables, saved: Saved) {
    var named := WithDomain(t, c, page.domain);
    var key := Key(named.domains[page.domain], page.urlHash);
    var row := Visited(env, Lookup(named.documents, key), c.document, Lookup(named.urls, key), page);
    var visited := WithSource(named.(documents := named.documents[key := row]), row.id, page);
    if !ContentChanged(row.latestHash, page.contentHash) then
      && tx == visited.(documents := visited.documents[key := row.(latestHtml := Some(page.htmlHash))])
      && saved == Saved(row.id, None, false)
    else
      var versionKey := VersionKey(row.id, page.contentHash);
      var version := Kept(env, Lookup(visited.versions, versionKey), c.version, page);
      && tx == visited.(versions := visited.versions[versionKey := version],
                        documents := visited.documents[key := row.(latestHash := Some(page.contentHash),
                                                                   latestHtml := Some(page.htmlHash),
                                                                   latestVersion := Some(version.id))])
      && saved == Saved(row.id, Some(version.id), true)
  }

  lemma {:induction false} SourceCommutes(t: Tables, documents: map<Key, Document>, documentId: nat, page: Page)
    ensures WithSource(t.(documents := documents), documentId, page)
         == WithSource(t, documentId, page).(documents := documents)
  {
  }

  lemma {:induction false} StatementsSave(env: Env, t: Tables, c: Counters, page: Page, tx: Tables, saved: Saved)
    requires Statements(env, t, c, page, tx, saved)
    ensures tx == AfterSave(env, t, c, page) && saved == Result(env, t, c, page)
  {
    hide Visited, Kept, ContentChanged, Lookup, DomainId, WithSource;
    var named := WithDomain(t, c, page.domain);
    var key, row := KeyOf(t, c, page), RowOf(env, t, c, page);
    SourceCommutes(named, named.documents[key := row], row.id, page);
  }

  predicate Ahead(c: Counters, later: Counters) {
    c.domain <= later.domain && c.document <= later.document && c.version <= later.version
  }

  // recordParseError, at time now.
  function AfterError(t: Tables, c: Counters, url: string, urlHash: string, domain: string, message: string,
                      now: int): Tables {
    var key := Key(DomainId(t, c, domain), urlHash);
    var logged := WithDomain(t, c, domain).(errors := t.errors + [ParseError(key.domainId, url, urlHash, message)]);
    if key in t.documents then
      logged.(documents := t.documents[key := t.documents[key].(error := Some(message), parsedAt := now)])
    else logged
  }

  // How a transaction ends: committed and reported; refused at some statement and
  // rolled back; or with an error from COMMIT, which may have taken effect.
  datatype Fate = Commits | RefusedAt(statement: nat) | CommitFails(applied: bool)

  class Store {
    const env: Env
    var tables: Tables
    var counters: Counters

    constructor (env: Env)
      ensures this.env == env && counters == Counters(1, 1, 1)
      ensures tables == Tables(map[], map[], map[], map[], map[], [])
    {
      this.env, tables, counters := env, Tables(map[], map[], map[], map[], map[], []), Counters(1, 1, 1);
    }

    // Another service commits its changes to the urls table.
    method UrlsChange(urls: map<Key, nat>)
      modifies this
      ensures tables == old(tables).(urls := urls) && counters == old(counters)
    {
      tables := tables.(urls := urls);
    }

    // saveParsedPage: nothing of it shows unless its transaction commits.
    method SaveParsedPage(page: Page, fate: Fate) returns (result: Option<Saved>)
      modifies this
      ensures fate.Commits? ==> result.Some?
      ensures result.Some? ==> result.value == Result(env, old(tables), old(counters), page)
      ensures if result.Some? || fate == CommitFails(true)
              then tables == AfterSave(env, old(tables), old(counters), page)
                   && counters == CountersAfter(old(counters), Result(env, old(tables), old(counters), page))
              else tables == old(tables) && Ahead(old(counters), counters)
    {
      hide Visited, Kept, ContentChanged, Lookup, AfterSave, Result, WithDomain, WithSource;
      result := None;
      ghost var c0 := counters;
      if fate == RefusedAt(0) {
        return;
      }
      var tx := WithDomain(tables, counters, page.domain);
      var key := Key(tx.domains[page.domain], page.urlHash);
      counters := counters.(domain := counters.domain + 1);
      if fate in {RefusedAt(1), RefusedAt(2)} {
        return;
      }
      var row := Visited(env, Lookup(tx.documents, key), counters.document, Lookup(tx.urls, key), page);
      tx := tx.(documents := tx.documents[key := row]);
      counters := counters.(document := counters.document + 1);
      if fate in {RefusedAt(3), RefusedAt(4)} {
        return;
      }
      tx := WithSource(tx, row.id, page);
      var saved: Saved;
      if !ContentChanged(row.latestHash, page.contentHash) {
        tx := tx.(documents := tx.documents[key := row.(latestHtml := Some(page.htmlHash))]);
        if fate == RefusedAt(5) {
          return;
        }
        saved := Saved(row.id, None, false);
      } else {
        var versionKey := VersionKey(row.id, page.contentHash);
        var version := Kept(env, Lookup(tx.versions, versionKey), counters.version, page);
        counters := counters.(version := counters.version + 1);
        if fate in {RefusedAt(5), RefusedAt(6)} {
          return;
        }
        tx := tx.(versions := tx.versions[versionKey := version],
                  documents := tx.documents[key := row.(latestHash := Some(page.contentHash),
                                                        latestHtml := Some(page.htmlHash),
                                                        latestVersion := Some(version.id))]);
        saved := Saved(row.id, Some(version.id), true);
      }
      StatementsSave(env, tables, c0, page, tx, saved);
      if !fate.CommitFails? {
        tables, result := tx, Some(saved);
      } else if fate.applied {
        tables := tx;
      }
    }

    // recordParseError.
    method RecordParseError(url: string, urlHash: string, domain: string, message: string, now: int, fate: Fate)
      returns (ok: bool)
      modifies this
      ensures fate.Commits? ==> ok
      ensures if ok || fate == CommitFails(true)
              then tables == AfterError(old(tables), old(counters), url, urlHash, domain, message, now)
                   && counters == old(counters).(domain := old(counters).domain + 1)
              else tables == old(tables) && Ahead(old(counters), counters)
    {
      ok := false;
      if fate == RefusedAt(0) {
        return;
      }
      var tx := WithDomain(tables, counters, domain);
      var key := Key(tx.domains[domain], urlHash);
      counters := counters.(domain := counters.domain + 1);
      if fate in {RefusedAt(1), RefusedAt(2), RefusedAt(3)} {
        return;
      }
      tx := tx.(errors := tx.errors + [ParseError(key.domainId, url, urlHash, message)]);
      if key in tx.documents {
        tx := tx.(documents := tx.documents[key := tx.documents[key].(error := Some(message), parsedAt := now)]);
      }
      if !fate.CommitFails? {
        tables, ok := tx, true;
      } else if fate.applied {
        tables := tx;
      }
    }
  }
}
