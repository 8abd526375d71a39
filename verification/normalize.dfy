/**
 * The three per-provider field mappings that turn raw provider items into
 * Articles. An item whose mapping raises is skipped; the rest of the batch is
 * still processed.
 */
module Normalizer {
  import opened Wrappers
  import opened Json
  import opened Schemas
  import opened Articles

  datatype Provider = Finnhub | NewsApi | Serper

  /** The two places a mapping reads the clock: a fallback publication time and the ingestion time. */
  datatype ClockRead = Published | Ingested

  /**
   * Clock and identity oracles. Each `datetime.now()` call is its own reading,
   * named by the provider, the item's position and the field it fills, so no
   * two readings are assumed equal. `uuid.uuid4()` is likewise named by provider
   * and position, and `datetime.fromtimestamp(t).isoformat()` is `None` when it
   * raises for an out-of-range time.
   */
  datatype Runtime = Runtime(
    now: (Provider, nat, ClockRead) -> string,
    uuid: (Provider, nat) -> string,
    fromTimestamp: real -> Option<string>)

  /** `uuid4` never repeats within a run: distinct calls give distinct strings. */
  ghost predicate FreshUuids(rt: Runtime) {
    forall p, q, i, j :: rt.uuid(p, i) == rt.uuid(q, j) ==> p == q && i == j
  }

  /** Applies `convert` to every item with its position and keeps the articles it produces, in order. */
  function Normalize(items: seq<Json>, convert: (nat, Json) -> Option<Article>): seq<Article>
    decreases |items|
  {
    if |items| == 0 then []
    else
      var n := |items| - 1;
      Normalize(items[..n], convert) + match convert(n, items[n]) case None => [] case Some(a) => [a]
  }

  /** The positions of the items `convert` accepts, in increasing order. */
  function Survivors(items: seq<Json>, convert: (nat, Json) -> Option<Article>): seq<nat>
    decreases |items|
  {
    if |items| == 0 then []
    else
      var n := |items| - 1;
      Survivors(items[..n], convert) + if convert(n, items[n]).Some? then [n] else []
  }

  /**
   * A batch yields exactly one article per item whose mapping succeeds, in item
   * order: a failing item removes only itself.
   */
  lemma NormalizeKeepsEachGoodItem(items: seq<Json>, convert: (nat, Json) -> Option<Article>)
    ensures var r, idx := Normalize(items, convert), Survivors(items, convert);
      && |r| == |idx|
      && (forall j :: 0 <= j < |idx| ==> idx[j] < |items| && convert(idx[j], items[idx[j]]) == Some(r[j]))
      && (forall j, k :: 0 <= j < k < |idx| ==> idx[j] < idx[k])
      && (forall i :: 0 <= i < |items| ==> (convert(i, items[i]).Some? <==> i in idx))
  {
    SurvivorsConvert(items, convert);
    SurvivorsIncreasing(items, convert);
    SurvivorsExact(items, convert);
  }

  /** The j-th article is the conversion of the j-th surviving item. */
  lemma {:induction false} SurvivorsConvert(items: seq<Json>, convert: (nat, Json) -> Option<Article>)
    ensures var r, idx := Normalize(items, convert), Survivors(items, convert);
      && |r| == |idx|
      && forall j :: 0 <= j < |idx| ==> idx[j] < |items| && convert(idx[j], items[idx[j]]) == Some(r[j])
    decreases |items|
  {
    if |items| > 0 {
      var n := |items| - 1;
      var pre := items[..n];
      SurvivorsConvert(pre, convert);
      assert forall i :: 0 <= i < n ==> pre[i] == items[i];
    }
  }

  /** Survivor positions increase strictly and stay below the batch length. */
  lemma {:induction false} SurvivorsIncreasing(items: seq<Json>, convert: (nat, Json) -> Option<Article>)
    ensures var idx := Survivors(items, convert);
      && (forall j :: 0 <= j < |idx| ==> idx[j] < |items|)
      && (forall j, k :: 0 <= j < k < |idx| ==> idx[j] < idx[k])
    decreases |items|
  {
    if |items| > 0 {
      var n := |items| - 1;
      var idx0 := Survivors(items[..n], convert);
      SurvivorsIncreasing(items[..n], convert);
      assert forall j :: 0 <= j < |Survivors(items[..n], convert)| ==> Survivors(items[..n], convert)[j] < |items[..n]|;
      assert |items[..n]| == n;
      var idx := Survivors(items, convert);
      if convert(n, items[n]).Some? {
        assert idx == idx0 + [n];
        forall j, k | 0 <= j < k < |idx| ensures idx[j] < idx[k] {
          assert idx[j] == idx0[j];
        }
      } else {
        assert idx == idx0;
      }
    }
  }

  /** An item's position survives exactly when its conversion succeeds. */
  lemma {:induction false} SurvivorsExact(items: seq<Json>, convert: (nat, Json) -> Option<Article>)
    ensures forall i :: 0 <= i < |items| ==> (convert(i, items[i]).Some? <==> i in Survivors(items, convert))
    decreases |items|
  {
    if |items| > 0 {
      var n := |items| - 1;
      var pre := items[..n];
      SurvivorsExact(pre, convert);
      SurvivorsIncreasing(pre, convert);
      assert forall i :: 0 <= i < n ==> pre[i] == items[i];
      assert n !in Survivors(pre, convert);
    }
  }

  /** `datetime.fromtimestamp(pub_ts, tz=utc).isoformat()`: a bool counts as 0/1, other non-numbers raise. */
  function EpochToIso(rt: Runtime, ts: Json): Option<string> {
    match ts
    case JNum(n) => rt.fromTimestamp(n)
    case JBool(b) => rt.fromTimestamp(if b then 1.0 else 0.0)
    case _ => None
  }

  /** `_normalize_finnhub_news` on one item. */
  function FinnhubArticle(rt: Runtime, host: Host, i: nat, item: Json): (r: Option<Article>)
    ensures r.Some? <==> item.JObj? && EpochToIso(rt, Get(item.fields, "datetime", JNum(0.0))).Some?
    ensures r.Some? ==>
      && r.value.id == JStr(if "id" in item.fields then Show(host, item.fields["id"]) else rt.uuid(Finnhub, i))
      && r.value.source == Get(item.fields, "source", JStr("Finnhub"))
      && r.value.title == Get(item.fields, "headline", JStr(""))
      && r.value.text == Get(item.fields, "summary", JStr(""))
      && r.value.url == Get(item.fields, "url", JStr(""))
      && r.value.publishedAt == JStr(EpochToIso(rt, Get(item.fields, "datetime", JNum(0.0))).value)
      && r.value.language == JStr("en")
      && r.value.ingestedAt == JStr(rt.now(Finnhub, i, Ingested))
  {
    if !item.JObj? then None
    else
      var d := item.fields;
      match EpochToIso(rt, Get(d, "datetime", JNum(0.0)))
      case None => None
      case Some(published) =>
        Some(Article(
          id := JStr(Show(host, Get(d, "id", JStr(rt.uuid(Finnhub, i))))),
          source := Get(d, "source", JStr("Finnhub")),
          title := Get(d, "headline", JStr("")),
          text := Get(d, "summary", JStr("")),
          url := Get(d, "url", JStr("")),
          publishedAt := JStr(published),
          language := JStr("en"),
          ingestedAt := JStr(rt.now(Finnhub, i, Ingested))))
  }

  /** `_normalize_newsapi_articles` on one item. */
  function NewsApiArticle(rt: Runtime, i: nat, item: Json): (r: Option<Article>)
    ensures r.Some? <==> item.JObj? && Get(item.fields, "source", JObj(map[])).JObj?
    ensures r.Some? ==>
      && r.value.id == JStr(rt.uuid(NewsApi, i))
      && r.value.source == Get(Get(item.fields, "source", JObj(map[])).fields, "name", JStr("NewsAPI"))
      && r.value.title == Get(item.fields, "title", JStr(""))
      && r.value.text == Or(Or(Get(item.fields, "description", JStr("")), Get(item.fields, "content", JStr(""))), JStr(""))
      && r.value.url == Get(item.fields, "url", JStr(""))
      && r.value.publishedAt == Get(item.fields, "publishedAt", JStr(rt.now(NewsApi, i, Published)))
      && r.value.language == JStr("en")
      && r.value.ingestedAt == JStr(rt.now(NewsApi, i, Ingested))
  {
    if !item.JObj? then None
    else
      var d := item.fields;
      var src := Get(d, "source", JObj(map[]));
      if !src.JObj? then None
      else
        Some(Article(
          id := JStr(rt.uuid(NewsApi, i)),
          source := Get(src.fields, "name", JStr("NewsAPI")),
          title := Get(d, "title", JStr("")),
          text := Or(Or(Get(d, "description", JStr("")), Get(d, "content", JStr(""))), JStr("")),
          url := Get(d, "url", JStr("")),
          publishedAt := Get(d, "publishedAt", JStr(rt.now(NewsApi, i, Published))),
          language := JStr("en"),
          ingestedAt := JStr(rt.now(NewsApi, i, Ingested))))
  }

  /** `_normalize_serper_results` on one item. */
  function SerperArticle(rt: Runtime, i: nat, item: Json): (r: Option<Article>)
    ensures r.Some? <==> item.JObj?
    ensures r.Some? ==>
      && r.value.id == JStr(rt.uuid(Serper, i))
      && r.value.source == JStr("SerperWeb")
      && r.value.title == Get(item.fields, "title", JStr(""))
      && r.value.text == Get(item.fields, "snippet", JStr(""))
      && r.value.url == Get(item.fields, "link", JStr(""))
      && r.value.publishedAt == JStr(rt.now(Serper, i, Published))
      && r.value.language == JStr("en")
      && r.value.ingestedAt == JStr(rt.now(Serper, i, Ingested))
  {
    if !item.JObj? then None
    else
      var d := item.fields;
      Some(Article(
        id := JStr(rt.uuid(Serper, i)),
        source := JStr("SerperWeb"),
        title := Get(d, "title", JStr("")),
        text := Get(d, "snippet", JStr("")),
        url := Get(d, "link", JStr("")),
        publishedAt := JStr(rt.now(Serper, i, Published)),
        language := JStr("en"),
        ingestedAt := JStr(rt.now(Serper, i, Ingested))))
  }

  function NormalizeFinnhub(rt: Runtime, host: Host, items: seq<Json>): seq<Article> {
    Normalize(items, (i: nat, item: Json) => FinnhubArticle(rt, host, i, item))
  }

  function NormalizeNewsApi(rt: Runtime, items: seq<Json>): seq<Article> {
    Normalize(items, (i: nat, item: Json) => NewsApiArticle(rt, i, item))
  }

  function NormalizeSerper(rt: Runtime, items: seq<Json>): seq<Article> {
    Normalize(items, (i: nat, item: Json) => SerperArticle(rt, i, item))
  }

  /**
   * A mapping that ids each item's article by the `uuid4` call for its position
   * yields pairwise distinct ids when `uuid4` never repeats.
   */
  lemma UuidIdsDistinct(rt: Runtime, p: Provider, items: seq<Json>, convert: (nat, Json) -> Option<Article>)
    requires FreshUuids(rt)
    requires forall n: nat, x :: convert(n, x).Some? ==> convert(n, x).value.id == JStr(rt.uuid(p, n))
    ensures DistinctIds(Normalize(items, convert))
    ensures var r, idx := Normalize(items, convert), Survivors(items, convert);
      |r| == |idx| && forall j :: 0 <= j < |r| ==> r[j].id == JStr(rt.uuid(p, idx[j]))
  {
    NormalizeKeepsEachGoodItem(items, convert);
    var r, idx := Normalize(items, convert), Survivors(items, convert);
    forall j | 0 <= j < |r| ensures r[j].id == JStr(rt.uuid(p, idx[j])) {
      assert convert(idx[j], items[idx[j]]) == Some(r[j]);
    }
    forall j, k | 0 <= j < k < |r| ensures r[j].id != r[k].id {
      assert idx[j] < idx[k];
    }
  }

  /**
   * With a non-repeating `uuid4`, the NewsAPI articles followed by the Serper
   * articles carry pairwise distinct ids: each is the uuid of its own call.
   */
  lemma UuidArticlesDistinct(rt: Runtime, newsItems: seq<Json>, serperItems: seq<Json>)
    requires FreshUuids(rt)
    ensures DistinctIds(NormalizeNewsApi(rt, newsItems))
    ensures DistinctIds(NormalizeNewsApi(rt, newsItems) + NormalizeSerper(rt, serperItems))
  {
    var toNews := (i: nat, item: Json) => NewsApiArticle(rt, i, item);
    var toWeb := (i: nat, item: Json) => SerperArticle(rt, i, item);
    var news, web := NormalizeNewsApi(rt, newsItems), NormalizeSerper(rt, serperItems);
    UuidIdsDistinct(rt, NewsApi, newsItems, toNews);
    UuidIdsDistinct(rt, Serper, serperItems, toWeb);
    var newsIdx, webIdx := Survivors(newsItems, toNews), Survivors(serperItems, toWeb);
    forall j, k | 0 <= j < |news| && 0 <= k < |web| ensures news[j].id != web[k].id {
      assert news[j].id == JStr(rt.uuid(NewsApi, newsIdx[j]));
      assert web[k].id == JStr(rt.uuid(Serper, webIdx[k]));
    }
    DistinctIdsAppend(news, web);
  }

  /** Two id-distinct lists whose ids do not meet concatenate to an id-distinct list. */
  lemma DistinctIdsAppend(xs: seq<Article>, ys: seq<Article>)
    requires DistinctIds(xs) && DistinctIds(ys)
    requires forall j, k :: 0 <= j < |xs| && 0 <= k < |ys| ==> xs[j].id != ys[k].id
    ensures DistinctIds(xs + ys)
  {
    var all := xs + ys;
    forall j, k | 0 <= j < k < |all| ensures all[j].id != all[k].id {
      if k >= |xs| && j < |xs| {
        assert all[j] == xs[j] && all[k] == ys[k - |xs|];
      } else if j >= |xs| {
        assert all[j] == ys[j - |xs|] && all[k] == ys[k - |xs|];
      }
    }
  }

  /** A `get` with a string default yields a string unless the key holds a non-string. */
  predicate TextOrAbsent(d: map<string, Json>, key: string) {
    key in d ==> d[key].JStr?
  }

  /** A Finnhub article passes the article schema iff the copied fields that are present are strings. */
  lemma FinnhubValidIff(rt: Runtime, host: Host, i: nat, item: Json)
    requires FinnhubArticle(rt, host, i, item).Some?
    ensures var d := item.fields;
      ArticleValid(ToJson(FinnhubArticle(rt, host, i, item).value)) <==>
        TextOrAbsent(d, "source") && TextOrAbsent(d, "headline")
        && TextOrAbsent(d, "summary") && TextOrAbsent(d, "url")
  {
    ValidIffTextual(FinnhubArticle(rt, host, i, item).value);
  }

  /** A NewsAPI article passes the article schema iff name, title, url and publishedAt are strings where present and the chosen body text is a string. */
  lemma NewsApiValidIff(rt: Runtime, i: nat, item: Json)
    requires NewsApiArticle(rt, i, item).Some?
    ensures var d := item.fields; var a := NewsApiArticle(rt, i, item).value;
      ArticleValid(ToJson(a)) <==>
        TextOrAbsent(Get(d, "source", JObj(map[])).fields, "name") && TextOrAbsent(d, "title")
        && TextOrAbsent(d, "url") && TextOrAbsent(d, "publishedAt") && a.text.JStr?
  {
    ValidIffTextual(NewsApiArticle(rt, i, item).value);
  }

  /** A Serper article passes the article schema iff title, snippet and link are strings where present. */
  lemma SerperValidIff(rt: Runtime, i: nat, item: Json)
    requires SerperArticle(rt, i, item).Some?
    ensures var d := item.fields;
      ArticleValid(ToJson(SerperArticle(rt, i, item).value)) <==>
        TextOrAbsent(d, "title") && TextOrAbsent(d, "snippet") && TextOrAbsent(d, "link")
  {
    ValidIffTextual(SerperArticle(rt, i, item).value);
  }

  /** The Finnhub mapping on the item of the collector test: one article titled by its headline. */
  lemma FinnhubHeadlineExample(rt: Runtime, host: Host)
    requires rt.fromTimestamp(1698228000.0).Some?
    ensures var item := JObj(map[
        "datetime" := JNum(1698228000.0), "headline" := JStr("Test Headline"),
        "summary" := JStr("Test Summary"), "url" := JStr("http://test.com"),
        "source" := JStr("Test Source")]);
      var r := NormalizeFinnhub(rt, host, [item]);
      |r| == 1 && r[0].title == JStr("Test Headline") && r[0].publishedAt.JStr?
  {
    var item := JObj(map[
        "datetime" := JNum(1698228000.0), "headline" := JStr("Test Headline"),
        "summary" := JStr("Test Summary"), "url" := JStr("http://test.com"),
        "source" := JStr("Test Source")]);
    assert [item][..0] == [];
  }
}
