/**
 * The hand-off between the three components as the orchestrator drives them:
 * collect, ingest into the ticker's collection, retrieve, analyse.
 */
module Pipeline {
  import opened Wrappers
  import opened Json
  import opened Schemas
  import opened Articles
  import opened Normalizer
  import opened Prices
  import opened Collector
  import opened ChromaIndex
  import opened Analyst

  /** The metadata dict as stored and returned by the vector store. */
  function MetadataJson(m: Metadata): Json {
    JObj(map["source" := m.source, "url" := m.url, "published_at" := m.publishedAt, "title" := m.title])
  }

  /** One flattened query hit as the dict the analyst receives. */
  function SnippetJson(r: Retrieved): (d: Json)
    ensures WellFormedSnippet(d)
    ensures SnippetId(d) == JStr(r.id) && SnippetUrl(d) == r.metadata.url
  {
    JObj(map["id" := JStr(r.id), "snippet" := JStr(r.snippet), "full_text" := JStr(r.fullText),
             "metadata" := MetadataJson(r.metadata)])
  }

  function SnippetsJson(rs: seq<Retrieved>): (ds: seq<Json>)
    ensures AllWellFormed(ds)
  {
    seq(|rs|, i requires 0 <= i < |rs| => SnippetJson(rs[i]))
  }

  /** The retrieval query the orchestrator issues for a company. */
  function QueryText(company: string): string {
    "Latest financial performance, strategic moves, risks, and market outlook for " + company
  }

  /** The ranking oracle only ever returns ids stored in the collection it ranks. */
  ghost predicate RankSound(rank: (Collection, string, int) -> seq<string>) {
    forall col, text, k :: RanksStoredIds(rank, col, text, k)
  }

  /** Everything one run depends on besides the store. */
  datatype Setup = Setup(
    rt: Runtime, host: Host, cal: Calendar, providers: Providers, agent: Agent,
    rank: (Collection, string, int) -> seq<string>, post: seq<Message> -> HttpReply)

  datatype Request = Request(company: string, ticker: string, fromDate: string, toDate: string, topK: int)

  /** Analysis of retrieved hits: never raises, always a schema-valid report. */
  function AnalyzeRetrieved(agent: Agent, host: Host, company: string, prices: Json, hits: seq<Retrieved>,
                            post: seq<Message> -> HttpReply): (report: Json)
    ensures AnalystOutputValid(report)
    ensures Analyze(agent, host, company, prices, SnippetsJson(hits), post) == Some(report)
  {
    Analyze(agent, host, company, prices, SnippetsJson(hits), post).value
  }

  /**
   * Ingest, retrieve and analyse the collected data. Only ingestion can raise
   * here: retrieved snippets always have the keys the prompt reads.
   */
  function Downstream(s: Setup, store: Store, q: Request, data: Collected): (r: Option<(Store, Json)>)
    requires RankSound(s.rank)
    ensures r.Some? <==> |data.articles| == 0 || BatchAccepted(data.articles)
    ensures r.Some? ==> AnalystOutputValid(r.value.1)
    ensures r.Some? ==> Ingest(s.host, store, q.ticker, data.articles) == Success(r.value.0)
  {
    match Ingest(s.host, store, q.ticker, data.articles)
    case Failure(_) => None
    case Success(stored) =>
      assert RanksStoredIds(s.rank, stored[CollectionName(q.ticker)], QueryText(q.company), q.topK);
      var hits := Query(stored, q.ticker, QueryText(q.company), q.topK, s.rank);
      var report := AnalyzeRetrieved(s.agent, s.host, q.company, PriceJson(data.prices), hits, s.post);
      Some((stored, report))
  }

  /** `Orchestrator.run` without the artifact file: the updated store and the report, or `None` when a stage raises. */
  function Run(s: Setup, store: Store, q: Request): (r: Option<(Store, Json)>)
    requires RankSound(s.rank)
    ensures r.Some? ==> AnalystOutputValid(r.value.1)
    ensures r.Some? ==> Collect(s.rt, s.host, s.cal, s.providers, q.fromDate, q.toDate).Some?
  {
    match Collect(s.rt, s.host, s.cal, s.providers, q.fromDate, q.toDate)
    case None => None
    case Some(data) => Downstream(s, store, q, data)
  }

  /**
   * A run completes exactly when collection does not raise and the vector store
   * accepts the collected batch; retrieval always yields snippets the analyst
   * can format, so analysis never raises.
   */
  lemma RunCompletesIff(s: Setup, store: Store, q: Request)
    requires RankSound(s.rank)
    ensures var c := Collect(s.rt, s.host, s.cal, s.providers, q.fromDate, q.toDate);
      Run(s, store, q).Some? <==> c.Some? && (|c.value.articles| == 0 || BatchAccepted(c.value.articles))
  {
  }

  /**
   * Schema-valid articles, which are all `collect` returns, carry string ids, so
   * the store rejects such a batch only for a repeated id.
   */
  lemma ValidBatchAcceptedIff(arts: seq<Article>)
    requires forall i :: 0 <= i < |arts| ==> ArticleValid(ToJson(arts[i]))
    ensures BatchAccepted(arts) <==> forall i, j :: 0 <= i < j < |arts| ==> arts[i].id != arts[j].id
  {
    forall i | 0 <= i < |arts| ensures arts[i].id.JStr? {
      ValidIffTextual(arts[i]);
    }
  }

  /**
   * When `uuid4` never repeats and Finnhub contributes no items, each collected
   * article is identified by its own uuid, so the store never rejects the batch:
   * the run completes exactly when collection does not raise.
   */
  lemma FreshUuidsRunCompletes(s: Setup, store: Store, q: Request)
    requires RankSound(s.rank) && FreshUuids(s.rt)
    requires Items(s.providers.finnhub) == []
    ensures Run(s, store, q).Some? <==> Collect(s.rt, s.host, s.cal, s.providers, q.fromDate, q.toDate).Some?
  {
    RunCompletesIff(s, store, q);
    var c := Collect(s.rt, s.host, s.cal, s.providers, q.fromDate, q.toDate);
    if c.Some? {
      CollectedIdsDistinct(s.rt, s.host, s.cal, s.providers, q.fromDate, q.toDate);
      ValidBatchAcceptedIff(c.value.articles);
    }
  }

  /**
   * When every provider fails and the store has nothing for the ticker, the
   * run still completes: the collection is created empty, retrieval finds
   * nothing, and the report is whatever the analyst produces from no evidence,
   * which is schema-valid.
   */
  lemma AllProvidersDownStillReports(s: Setup, store: Store, q: Request)
    requires RankSound(s.rank)
    requires s.providers.finnhub == Failed && s.providers.newsApi == Failed && s.providers.serper == Failed
    ensures Run(s, store, q).Some?
    ensures Run(s, store, q).value.0 == store[CollectionName(q.ticker) := Existing(store, q.ticker)]
  {
    AllProvidersFailing(s.rt, s.host, s.cal, s.providers, q.fromDate, q.toDate);
    var data := Collected([], PriceContext(s.cal, s.providers, q.fromDate, q.toDate));
    assert Run(s, store, q) == Downstream(s, store, q, data);
    IngestEmpty(s.host, store, q.ticker);
  }
}
