/**
 * `DataCollector.collect`: fault-isolated provider calls, the Serper fallback
 * rule, deduplication, the article-schema filter and the price summary.
 */
module Collector {
  import opened Wrappers
  import opened Json
  import opened Schemas
  import opened Articles
  import opened Normalizer
  import opened Deduplicator
  import opened Prices

  /** What a provider call came back with: it raised, or it returned a JSON reply. */
  datatype Outcome<+T> = Failed | Ok(value: T)

  /**
   * The provider calls of one run. `candles` is the price provider called with the
   * two parsed time stamps; the news, search and web-search replies stand for the
   * calls made with the run's company, ticker and dates.
   */
  datatype Providers = Providers(
    finnhub: Outcome<Json>,
    newsApi: Outcome<Json>,
    serper: Outcome<Json>,
    candles: (int, int) -> Outcome<Json>)

  /**
   * Date parsing oracles: `int(datetime.fromisoformat(s).timestamp())` and the
   * same through `strptime(s, "%Y-%m-%d")`; `None` when they raise.
   */
  datatype Calendar = Calendar(fromIso: string -> Option<int>, fromYmd: string -> Option<int>)

  datatype Collected = Collected(articles: seq<Article>, prices: PriceSummary)

  /** Below this many normalised Finnhub and NewsAPI articles, Serper is queried. */
  const SerperThreshold: nat := 5

  /**
   * The items a provider call contributes. A raising call contributes none; so
   * does a reply that is not a list, since iterating it either raises (caught by
   * `collect`) or yields items on which every `.get` raises.
   */
  function Items(o: Outcome<Json>): seq<Json> {
    if o.Ok? && o.value.JArr? then o.value.items else []
  }

  /** The Finnhub and NewsAPI articles, in that order. */
  function Primary(rt: Runtime, host: Host, p: Providers): seq<Article> {
    NormalizeFinnhub(rt, host, Items(p.finnhub)) + NormalizeNewsApi(rt, Items(p.newsApi))
  }

  /** `all_articles` before deduplication: Serper's articles follow only when the primary ones are too few. */
  function Gathered(rt: Runtime, host: Host, p: Providers): seq<Article> {
    var primary := Primary(rt, host, p);
    if |primary| < SerperThreshold then primary + NormalizeSerper(rt, Items(p.serper)) else primary
  }

  /** The articles `validate_article` accepts, in order. */
  function KeepValid(arts: seq<Article>): (r: seq<Article>)
    ensures IsSubsequence(r, arts)
    ensures forall i :: 0 <= i < |r| ==> ArticleValid(ToJson(r[i]))
    ensures forall a :: a in r <==> a in arts && ArticleValid(ToJson(a))
    ensures forall a :: multiset(r)[a] == if ArticleValid(ToJson(a)) then multiset(arts)[a] else 0
    decreases |arts|
  {
    if |arts| == 0 then []
    else
      assert arts == [arts[0]] + arts[1..];
      if ArticleValid(ToJson(arts[0])) then [arts[0]] + KeepValid(arts[1..])
      else KeepValid(arts[1..])
  }

  /** The date parsing of `collect`: ISO form when the string contains a 'T', else `YYYY-MM-DD`. */
  function Timestamp(cal: Calendar, date: string): Option<int> {
    if 'T' in date then cal.fromIso(date) else cal.fromYmd(date)
  }

  /** The price block of `collect`: any failure leaves the summary empty. */
  function PriceContext(cal: Calendar, p: Providers, fromDate: string, toDate: string): PriceSummary {
    match (Timestamp(cal, fromDate), Timestamp(cal, toDate))
    case (Some(t0), Some(t1)) =>
      (match p.candles(t0, t1)
       case Failed => NoPrices
       case Ok(data) => Summarize(data))
    case _ => NoPrices
  }

  /**
   * A price summary is produced exactly when both dates parse, the candle call
   * returns, and its data summarise; any other failure leaves `{}`.
   */
  lemma PriceContextIff(cal: Calendar, p: Providers, fromDate: string, toDate: string)
    ensures PriceContext(cal, p, fromDate, toDate).Summary? <==>
      var t0, t1 := Timestamp(cal, fromDate), Timestamp(cal, toDate);
      && t0.Some? && t1.Some?
      && p.candles(t0.value, t1.value).Ok?
      && Summarize(p.candles(t0.value, t1.value).value).Summary?
  {
  }

  /**
   * The second half of `collect`: deduplicate the gathered articles, keep the
   * schema-valid ones and attach the price block; `None` when deduplication raises.
   */
  function Finish(all: seq<Article>, prices: PriceSummary): (r: Option<Collected>)
    ensures r.None? <==> exists i :: 0 <= i < |all| && Unkeyable(all[i])
    ensures r.Some? ==> Dedup(all).Some?
    ensures r.Some? ==>
      var unique := Dedup(all).value;
      && IsSubsequence(r.value.articles, unique)
      && (forall i :: 0 <= i < |r.value.articles| ==> ArticleValid(ToJson(r.value.articles[i])))
      && (forall a :: a in r.value.articles <==> a in unique && ArticleValid(ToJson(a)))
    ensures r.Some? ==> DistinctKeys(r.value.articles)
    ensures r.Some? ==> r.value.prices == prices
  {
    DedupRaisesIff(all, {}, {});
    var unique := Dedup(all);
    if unique.None? then None
    else
      DedupDistinct(all);
      SubsequenceKeepsDistinct(KeepValid(unique.value), unique.value);
      Some(Collected(KeepValid(unique.value), prices))
  }

  /**
   * `collect`; `None` when it raises, which happens only in deduplication, when an
   * article with a truthy url and title has a non-string one.
   */
  function Collect(rt: Runtime, host: Host, cal: Calendar, p: Providers, fromDate: string, toDate: string): (r: Option<Collected>)
    ensures var all := Gathered(rt, host, p);
      r.None? <==> exists i :: 0 <= i < |all| && Unkeyable(all[i])
    ensures r.Some? ==> Dedup(Gathered(rt, host, p)).Some?
    ensures r.Some? ==>
      var unique := Dedup(Gathered(rt, host, p)).value;
      && IsSubsequence(r.value.articles, unique)
      && (forall i :: 0 <= i < |r.value.articles| ==> ArticleValid(ToJson(r.value.articles[i])))
      && (forall a :: a in r.value.articles <==> a in unique && ArticleValid(ToJson(a)))
    ensures r.Some? ==> DistinctKeys(r.value.articles)
    ensures r.Some? ==> r.value.prices == PriceContext(cal, p, fromDate, toDate)
  {
    Finish(Gathered(rt, host, p), PriceContext(cal, p, fromDate, toDate))
  }

  /**
   * With a non-repeating `uuid4` and no Finnhub items, every gathered article is
   * identified by its own uuid, so the collected articles have distinct ids.
   */
  lemma CollectedIdsDistinct(rt: Runtime, host: Host, cal: Calendar, p: Providers, fromDate: string, toDate: string)
    requires FreshUuids(rt) && Items(p.finnhub) == []
    requires Collect(rt, host, cal, p, fromDate, toDate).Some?
    ensures DistinctIds(Collect(rt, host, cal, p, fromDate, toDate).value.articles)
  {
    var all := Gathered(rt, host, p);
    assert Primary(rt, host, p) == NormalizeNewsApi(rt, Items(p.newsApi));
    UuidArticlesDistinct(rt, Items(p.newsApi), Items(p.serper));
    assert DistinctIds(all);
    FinishKeepsDistinctIds(all, PriceContext(cal, p, fromDate, toDate));
  }

  /** Deduplication and validation only drop articles, so distinct ids stay distinct. */
  lemma FinishKeepsDistinctIds(all: seq<Article>, prices: PriceSummary)
    requires DistinctIds(all) && Finish(all, prices).Some?
    ensures DistinctIds(Finish(all, prices).value.articles)
  {
    DedupSubsequence(all);
    var unique := Dedup(all).value;
    SubsequenceKeepsDistinctIds(unique, all);
    SubsequenceKeepsDistinctIds(Finish(all, prices).value.articles, unique);
  }

  /** When Finnhub and NewsAPI yield at least five articles, the Serper reply has no effect on the run. */
  lemma SerperIgnoredWhenEnough(rt: Runtime, host: Host, cal: Calendar, p: Providers, serper: Outcome<Json>, fromDate: string, toDate: string)
    requires |Primary(rt, host, p)| >= SerperThreshold
    ensures Collect(rt, host, cal, p.(serper := serper), fromDate, toDate) == Collect(rt, host, cal, p, fromDate, toDate)
  {
    assert Primary(rt, host, p.(serper := serper)) == Primary(rt, host, p);
  }

  /** When they yield fewer than five, Serper's normalised results are appended after them. */
  lemma SerperAppendedWhenShort(rt: Runtime, host: Host, p: Providers)
    requires |Primary(rt, host, p)| < SerperThreshold
    ensures Gathered(rt, host, p) == Primary(rt, host, p) + NormalizeSerper(rt, Items(p.serper))
  {
  }

  /** `collect` sees a provider only through the items its call contributes. */
  lemma SameItemsSameCollect(rt: Runtime, host: Host, cal: Calendar, p: Providers, p': Providers, fromDate: string, toDate: string)
    requires Items(p.finnhub) == Items(p'.finnhub) && Items(p.newsApi) == Items(p'.newsApi)
    requires Items(p.serper) == Items(p'.serper) && p.candles == p'.candles
    ensures Collect(rt, host, cal, p, fromDate, toDate) == Collect(rt, host, cal, p', fromDate, toDate)
  {
    assert Gathered(rt, host, p) == Gathered(rt, host, p');
    assert PriceContext(cal, p, fromDate, toDate) == PriceContext(cal, p', fromDate, toDate);
  }

  /** A provider call that raises contributes exactly what an empty reply would. */
  lemma FailedProviderContributesNothing(rt: Runtime, host: Host, cal: Calendar, p: Providers, fromDate: string, toDate: string)
    ensures Collect(rt, host, cal, p.(finnhub := Failed), fromDate, toDate) == Collect(rt, host, cal, p.(finnhub := Ok(JArr([]))), fromDate, toDate)
    ensures Collect(rt, host, cal, p.(newsApi := Failed), fromDate, toDate) == Collect(rt, host, cal, p.(newsApi := Ok(JArr([]))), fromDate, toDate)
    ensures Collect(rt, host, cal, p.(serper := Failed), fromDate, toDate) == Collect(rt, host, cal, p.(serper := Ok(JArr([]))), fromDate, toDate)
  {
    SameItemsSameCollect(rt, host, cal, p.(finnhub := Failed), p.(finnhub := Ok(JArr([]))), fromDate, toDate);
    SameItemsSameCollect(rt, host, cal, p.(newsApi := Failed), p.(newsApi := Ok(JArr([]))), fromDate, toDate);
    SameItemsSameCollect(rt, host, cal, p.(serper := Failed), p.(serper := Ok(JArr([]))), fromDate, toDate);
  }

  /** When every news provider fails, the run still completes, with no articles. */
  lemma AllProvidersFailing(rt: Runtime, host: Host, cal: Calendar, p: Providers, fromDate: string, toDate: string)
    requires p.finnhub == Failed && p.newsApi == Failed && p.serper == Failed
    ensures Collect(rt, host, cal, p, fromDate, toDate) == Some(Collected([], PriceContext(cal, p, fromDate, toDate)))
  {
    assert Items(p.finnhub) == [] && Items(p.newsApi) == [] && Items(p.serper) == [];
    assert NormalizeFinnhub(rt, host, []) == [];
    assert NormalizeNewsApi(rt, []) == [];
    assert NormalizeSerper(rt, []) == [];
    assert Gathered(rt, host, p) == [];
    assert Dedup([]) == Some([]);
  }
}
