/**
 * `ChromaIngest`: the per-ticker collection name, the document and metadata
 * stored for each article, upsert by id, and the flattening of query results.
 * The vector store is a map from collection names to collections; the
 * nearest-neighbour ranking is an oracle returning stored ids in rank order.
 */
module ChromaIndex {
  import opened Wrappers
  import opened Json
  import opened Text
  import opened Articles

  /** The metadata stored with each document: exactly these four article fields, as given. */
  datatype Metadata = Metadata(source: Json, url: Json, publishedAt: Json, title: Json)

  datatype Entry = Entry(document: string, metadata: Metadata)

  type Collection = map<string, Entry>

  type Store = map<string, Collection>

  /** A query hit flattened for the analyst. */
  datatype Retrieved = Retrieved(id: string, snippet: string, fullText: string, metadata: Metadata)

  /** Number of leading characters of a document kept as its snippet. */
  const SnippetLength: nat := 500

  function CollectionName(ticker: string): string {
    "ticker_" + Lower(ticker)
  }

  /** Two tickers address the same collection exactly when they agree after lower-casing. */
  lemma SameCollectionIff(t1: string, t2: string)
    ensures CollectionName(t1) == CollectionName(t2) <==> Lower(t1) == Lower(t2)
  {
    if CollectionName(t1) == CollectionName(t2) {
      assert Lower(t1) == CollectionName(t1)[7..];
      assert Lower(t2) == CollectionName(t2)[7..];
    }
  }

  /** The f-string `{title}\n{text}`: non-string values are formatted by the host. */
  function Document(host: Host, a: Article): string {
    Show(host, a.title) + "\n" + Show(host, a.text)
  }

  function EntryOf(host: Host, a: Article): Entry {
    Entry(Document(host, a), Metadata(a.source, a.url, a.publishedAt, a.title))
  }

  /** The vector store accepts an upsert batch only when every id is a string and no id repeats. */
  predicate BatchAccepted(arts: seq<Article>) {
    && (forall i :: 0 <= i < |arts| ==> arts[i].id.JStr?)
    && DistinctIds(arts)
  }

  function Ids(arts: seq<Article>): set<string> {
    set i | 0 <= i < |arts| && arts[i].id.JStr? :: arts[i].id.s
  }

  /** `col.upsert(ids, documents, metadatas)`: each id now maps to its article's entry, other ids are untouched. */
  function Upsert(host: Host, col: Collection, arts: seq<Article>): (r: Collection)
    requires BatchAccepted(arts)
    ensures r.Keys == col.Keys + Ids(arts)
    ensures forall i :: 0 <= i < |arts| ==> r[arts[i].id.s] == EntryOf(host, arts[i])
    ensures forall k :: k in col && k !in Ids(arts) ==> r[k] == col[k]
    decreases |arts|
  {
    if |arts| == 0 then col
    else
      var a := arts[0];
      var rest := arts[1..];
      assert forall i :: 1 <= i < |arts| ==> arts[i] == rest[i - 1];
      assert Ids(arts) == {a.id.s} + Ids(rest) by {
        forall k | k in Ids(rest) ensures k in Ids(arts) {
          var i :| 0 <= i < |rest| && rest[i].id.JStr? && rest[i].id.s == k;
          assert arts[i + 1] == rest[i];
        }
      }
      Upsert(host, col[a.id.s := EntryOf(host, a)], rest)
  }

  /** The collection of `ticker` before ingestion, empty if it did not exist. */
  function Existing(store: Store, ticker: string): Collection {
    if CollectionName(ticker) in store then store[CollectionName(ticker)] else map[]
  }

  /**
   * `ingest_articles`: the ticker's collection is created first; an empty
   * batch writes nothing; a batch the store rejects raises, leaving the
   * created collection behind (the `Failure` carries that store).
   */
  function Ingest(host: Host, store: Store, ticker: string, arts: seq<Article>): (r: Result<Store, Store>)
    ensures r.Failure? <==> |arts| > 0 && !BatchAccepted(arts)
    ensures r.Failure? ==> r.error == store[CollectionName(ticker) := Existing(store, ticker)]
    ensures r.Success? ==> r.value.Keys == store.Keys + {CollectionName(ticker)}
    ensures r.Success? ==> forall n :: n in store && n != CollectionName(ticker) ==> r.value[n] == store[n]
  {
    var name := CollectionName(ticker);
    var created := store[name := Existing(store, ticker)];
    if |arts| == 0 then Success(created)
    else if !BatchAccepted(arts) then Failure(created)
    else Success(store[name := Upsert(host, Existing(store, ticker), arts)])
  }

  /** What a successful ingestion leaves in the ticker's collection: the batch's entries over the earlier ones. */
  lemma IngestContents(host: Host, store: Store, ticker: string, arts: seq<Article>)
    requires BatchAccepted(arts)
    ensures Ingest(host, store, ticker, arts).Success?
    ensures var col := Ingest(host, store, ticker, arts).value[CollectionName(ticker)];
      && col.Keys == Existing(store, ticker).Keys + Ids(arts)
      && (forall i :: 0 <= i < |arts| ==> col[arts[i].id.s] == EntryOf(host, arts[i]))
      && (forall k :: k in Existing(store, ticker) && k !in Ids(arts) ==> col[k] == Existing(store, ticker)[k])
  {
  }

  /** Ingesting nothing creates the collection but leaves its contents as they were. */
  lemma IngestEmpty(host: Host, store: Store, ticker: string)
    ensures Ingest(host, store, ticker, []) == Success(store[CollectionName(ticker) := Existing(store, ticker)])
  {
  }

  /** Re-ingesting the same batch leaves the store unchanged (upsert avoids duplicate-key errors on re-runs). */
  lemma IngestIdempotent(host: Host, store: Store, ticker: string, arts: seq<Article>)
    requires BatchAccepted(arts)
    ensures Ingest(host, store, ticker, arts).Success?
    ensures Ingest(host, Ingest(host, store, ticker, arts).value, ticker, arts) == Ingest(host, store, ticker, arts)
  {
    var name := CollectionName(ticker);
    IngestContents(host, store, ticker, arts);
    var once := Ingest(host, store, ticker, arts).value;
    IngestContents(host, once, ticker, arts);
    var twice := Ingest(host, once, ticker, arts).value;
    assert Existing(once, ticker) == once[name];
    assert twice[name] == once[name] by {
      forall k | k in once[name] ensures twice[name][k] == once[name][k] {
        if k in Ids(arts) {
          var i :| 0 <= i < |arts| && arts[i].id.JStr? && arts[i].id.s == k;
        }
      }
    }
    assert twice == once;
  }

  /** A later batch overwrites the entry of an id ingested earlier. */
  lemma LaterIngestOverwrites(host: Host, store: Store, ticker: string, first: seq<Article>, later: seq<Article>, i: nat)
    requires BatchAccepted(first) && BatchAccepted(later) && i < |later|
    ensures Ingest(host, store, ticker, first).Success?
    ensures var mid := Ingest(host, store, ticker, first).value;
      Ingest(host, mid, ticker, later).Success?
      && Ingest(host, mid, ticker, later).value[CollectionName(ticker)][later[i].id.s] == EntryOf(host, later[i])
  {
    IngestContents(host, Ingest(host, store, ticker, first).value, ticker, later);
  }

  /** `docs[i][:500]` */
  function SnippetOf(document: string): (s: string)
    ensures |s| == if |document| < SnippetLength then |document| else SnippetLength
    ensures s == document[..|s|]
  {
    if |document| <= SnippetLength then document else document[..SnippetLength]
  }

  /** The ranking oracle only returns ids stored in the collection it ranks. */
  predicate RanksStoredIds(rank: (Collection, string, int) -> seq<string>, col: Collection, text: string, topK: int) {
    forall i :: 0 <= i < |rank(col, text, topK)| ==> rank(col, text, topK)[i] in col
  }

  /**
   * `query`: `[]` when the ticker's collection does not exist; otherwise one hit
   * per ranked id, in rank order, carrying the stored document, its first 500
   * characters and its metadata unchanged.
   */
  function Query(store: Store, ticker: string, text: string, topK: int,
                 rank: (Collection, string, int) -> seq<string>): (r: seq<Retrieved>)
    requires CollectionName(ticker) in store ==> RanksStoredIds(rank, store[CollectionName(ticker)], text, topK)
    ensures CollectionName(ticker) !in store ==> r == []
    ensures CollectionName(ticker) in store ==>
      var col := store[CollectionName(ticker)];
      var ids := rank(col, text, topK);
      && |r| == |ids|
      && forall i :: 0 <= i < |r| ==>
        && r[i].id == ids[i]
        && r[i].fullText == col[ids[i]].document
        && r[i].metadata == col[ids[i]].metadata
        && |r[i].snippet| == (if |r[i].fullText| < SnippetLength then |r[i].fullText| else SnippetLength)
        && r[i].snippet == r[i].fullText[..|r[i].snippet|]
  {
    var name := CollectionName(ticker);
    if name !in store then []
    else
      var col := store[name];
      var ids := rank(col, text, topK);
      seq(|ids|, i requires 0 <= i < |ids| =>
        Retrieved(ids[i], SnippetOf(col[ids[i]].document), col[ids[i]].document, col[ids[i]].metadata))
  }

  /**
   * After ingestion a hit on an ingested article carries its title and text as
   * the document, and its url; a title of at most 500 characters opens the snippet.
   */
  lemma QueryAfterIngest(host: Host, store: Store, ticker: string, arts: seq<Article>, text: string, topK: int,
                         rank: (Collection, string, int) -> seq<string>, i: nat, j: nat)
    requires BatchAccepted(arts)
    requires Ingest(host, store, ticker, arts).Success?
    requires RanksStoredIds(rank, Ingest(host, store, ticker, arts).value[CollectionName(ticker)], text, topK)
    requires var r := Query(Ingest(host, store, ticker, arts).value, ticker, text, topK, rank);
      i < |r| && j < |arts| && r[i].id == arts[j].id.s
    ensures var r := Query(Ingest(host, store, ticker, arts).value, ticker, text, topK, rank);
      && r[i].fullText == Show(host, arts[j].title) + "\n" + Show(host, arts[j].text)
      && r[i].metadata.url == arts[j].url
      && (|Show(host, arts[j].title)| <= SnippetLength ==> Show(host, arts[j].title) <= r[i].snippet)
  {
    IngestContents(host, store, ticker, arts);
    var r := Query(Ingest(host, store, ticker, arts).value, ticker, text, topK, rank);
    var title := Show(host, arts[j].title);
    if |title| <= SnippetLength {
      assert r[i].snippet == SnippetOf(r[i].fullText);
      assert r[i].fullText[..|title|] == title;
    }
  }

  /**
   * The ingest test: one article ingested into an empty store under "TEST"; a
   * query that ranks anything returns that article first, with its title in
   * the snippet.
   */
  lemma IngestQueryExample(host: Host, rank: (Collection, string, int) -> seq<string>)
    ensures var a := Article(JStr("test_1"), JStr("Tech"), JStr("AI in Finance"),
        JStr("Deep learning is changing stock prediction."), JStr("http://test.com/ai"),
        JStr("2023-01-01T00:00:00"), JStr("en"), JStr("2023-01-01T00:00:00"));
      && Ingest(host, map[], "TEST", [a]).Success?
      && var stored := Ingest(host, map[], "TEST", [a]).value;
      RanksStoredIds(rank, stored[CollectionName("TEST")], "deep learning", 5) ==>
        var r := Query(stored, "TEST", "deep learning", 5, rank);
        |r| >= 1 ==> r[0].id == "test_1" && "AI in Finance" <= r[0].snippet
  {
    var a := Article(JStr("test_1"), JStr("Tech"), JStr("AI in Finance"),
        JStr("Deep learning is changing stock prediction."), JStr("http://test.com/ai"),
        JStr("2023-01-01T00:00:00"), JStr("en"), JStr("2023-01-01T00:00:00"));
    IngestContents(host, map[], "TEST", [a]);
    var stored := Ingest(host, map[], "TEST", [a]).value;
    var col := stored[CollectionName("TEST")];
    assert col.Keys == {"test_1"};
    if RanksStoredIds(rank, col, "deep learning", 5) {
      var r := Query(stored, "TEST", "deep learning", 5, rank);
      if |r| >= 1 {
        assert r[0].id in col;
        QueryAfterIngest(host, map[], "TEST", [a], "deep learning", 5, rank, 0, 0);
      }
    }
  }

  /**
   * Ingesting for one ticker does not change what a query for another ticker
   * returns (by SameCollectionIff, the tickers differ after lower-casing).
   */
  lemma TickersIsolated(host: Host, store: Store, t1: string, arts: seq<Article>, t2: string, text: string, topK: int,
                        rank: (Collection, string, int) -> seq<string>)
    requires CollectionName(t1) != CollectionName(t2)
    requires CollectionName(t2) in store ==> RanksStoredIds(rank, store[CollectionName(t2)], text, topK)
    ensures Ingest(host, store, t1, arts).Success? ==>
      Query(Ingest(host, store, t1, arts).value, t2, text, topK, rank) == Query(store, t2, text, topK, rank)
  {
  }
}
