# Financial news intelligence pipeline — Dafny model

This project models the core of a small pipeline that analyses financial news for a stock:

- **Data collector.** It calls three news providers: Finnhub company news, NewsAPI search and Serper web search. It maps each provider's items onto one article record of eight fields. The values are copied from the provider as they come, and they are all strings only once the article passes validation. Deduplication walks the articles in order and keeps one when its url and title are both truthy and neither its normalised URL nor its normalised title belongs to an article kept earlier; only kept articles record their keys, so an article dropped for its title does not block a later one with its URL. The collector keeps the articles that pass the article JSON schema. It also summarises the Finnhub candle closes into a price block.
- **Vector index.** Articles go into a per-ticker collection (`ticker_<lower-cased ticker>`), where they are upserted by id. A query returns flattened hits: each hit carries the stored document, its first 500 characters as a snippet, and its metadata.
- **Analyst agent.** It builds a prompt from the price block and the retrieved snippets, then asks a chat-completion model for a JSON report. It returns the report only when the report passes the analyst output schema. Every failure of the call, the reply envelope, the JSON parse or the schema check yields one fixed fallback report.

The two JSON schemas are modelled as predicates:

- `Schemas.ArticleValid` for the article schema.
- `Schemas.AnalystOutputValid` for the analyst output schema.

JSON values are a `Json` datatype that carries Python's truthiness. These are parameters, because the model cannot see inside them:

- Python's `str()`, `json.dumps` and `json.loads` (the `Host` record).
- The clock, `uuid4` and `datetime.fromtimestamp` (the `Runtime` record). Each `datetime.now()` call is its own reading, named by provider, item position and field, so no two readings are assumed equal.
- Date parsing (the `Calendar` record).
- Each provider's reply (`Providers`, where `Failed` stands for a call that raised).
- The HTTP reply of the model call (`post`).
- The nearest-neighbour ranking (`rank`).

Modules follow the source:

| module | role |
|---|---|
| `Normalizer` | The three normalisers. |
| `Deduplicator` | `_deduplicate`: a recursive definition, a loop method proved equal to it, and its properties. |
| `Prices` | The price summary. |
| `Collector` | `collect`: gathering the provider articles (`Gathered`), then deduplicating, validating and attaching the price block (`Finish`). |
| `Reports` / `Analyst` | The report record and `analyze`. |
| `ChromaIndex` | Ingestion and query. |
| `Pipeline` | The orchestrator's hand-off between the three components. |

Behaviours of the code worth knowing, each modelled as written:

- **Deduplication can raise.** An article whose url and title are both truthy, but one of which is not a string, makes `.strip()` raise. `collect` does not catch the exception, so the whole call raises; `Collector.Collect` is `None` exactly then.
- **What triggers the Serper fallback.** The trigger counts the *normalised* Finnhub and NewsAPI articles (`len(all_articles) < 5`), not the raw provider items.
- **A blank title survives deduplication.** A title made only of whitespace is truthy, so deduplication keeps it; its key is the empty string (`Deduplicator.BlankTitleKeptExample`).
- **Malformed snippets raise.** The analyst builds its prompt before its `try`. A snippet without `id`, `metadata.url` or `snippet` therefore raises instead of producing the fallback (`Analyst.Analyze` is `None` exactly then).
- **A failed POST raises the wrong exception.** When the POST itself raises, the error handler of `_call_groq` reads `response` before it was assigned. It raises an `UnboundLocalError` in place of the request exception. `analyze` catches both the same way, so the outcome is the same fallback (`Analyst.RequestFailed`).

## Model

| member | source | states |
|---|---|---|
| Articles.ValidIffTextual | src/utils/schemas.py:1-14 | An article dict passes the article schema exactly when every one of its eight fields is a string. |
| Articles.LanguageOptional | src/utils/schemas.py:13 | `language` is not required: an otherwise valid article without it still passes. |
| Reports.DecodeIffValid | src/utils/schemas.py:16-38 | Decoding a JSON value into a typed report succeeds exactly when the value passes the analyst output schema: the enum sentiment, string arrays, evidence objects with the three required string keys, and confidence in [0, 1]. |
| Reports.RoundTrip | src/utils/schemas.py:16-38 | Encoding a report with confidence in range and decoding it gives the report back. |
| Reports.ToJsonValidIff | src/utils/schemas.py:35 | An encoded report is schema-valid exactly when its confidence lies in [0, 1]. |
| Reports.FallbackValid | src/agents/analyst.py:132-140 | The fallback report is schema-valid, neutral, with confidence 0.0, no drivers or evidence, and the single risk "Analysis Error". |
| Normalizer.NormalizeKeepsEachGoodItem | src/agents/data_collector.py:20-41 | A normaliser keeps, in order, exactly the converted items whose conversion did not raise; every other item is skipped. |
| Normalizer.FinnhubArticle | src/agents/data_collector.py:20-41 | A Finnhub item converts iff it is a dict whose `datetime` (default 0) converts to a UTC timestamp; the article's id is `str()` of the item's `id`, else the `uuid4` reading for its position; source, title, text and url are `source` (default "Finnhub"), `headline`, `summary` and `url` (default empty); the publication time is that timestamp, the language "en", and the ingestion time the clock reading for this item. |
| Normalizer.NewsApiArticle | src/agents/data_collector.py:43-60 | A NewsAPI item converts iff it is a dict whose `source` (default `{}`) is a dict; the id is the `uuid4` reading for its position; the source is `source.name` (default "NewsAPI"), title and url are copied (default empty), the text is the first truthy of description and content, else the empty string, the publication time is `publishedAt` or else a clock reading, the language "en", and the ingestion time another clock reading. |
| Normalizer.SerperArticle | src/agents/data_collector.py:62-84 | A Serper result converts iff it is a dict. The source is SerperWeb, the title is `title`, the text is `snippet`, the url is `link` (each defaulting to empty), and the id is the `uuid4` reading for its position. Publication and ingestion times are two separate clock readings, and the language is "en". |
| Normalizer.UuidIdsDistinct | src/agents/data_collector.py:48 | When `uuid4` never repeats, a mapping that ids each article by the uuid for its position yields pairwise distinct ids, each the uuid of its item's position. |
| Normalizer.UuidArticlesDistinct | src/agents/data_collector.py:43-84 | When `uuid4` never repeats, the NewsAPI articles followed by the Serper articles carry pairwise distinct ids. |
| Normalizer.FinnhubValidIff | src/agents/data_collector.py:28-37 | A converted Finnhub article passes the article schema iff source, headline, summary and url are strings wherever present. |
| Normalizer.NewsApiValidIff | src/agents/data_collector.py:47-56 | A converted NewsAPI article passes the article schema iff the source name, title, url and publishedAt are strings wherever present and the chosen text is a string. |
| Normalizer.SerperValidIff | src/agents/data_collector.py:71-80 | A converted Serper article passes the article schema iff title, snippet and link are strings wherever present. |
| Normalizer.FinnhubHeadlineExample | tests/test_collector.py:12-23 | The collector test's Finnhub item yields one article titled "Test Headline" that carries a publication time. |
| Deduplicator.Deduplicate | src/agents/data_collector.py:86-109 | The loop with its two seen-sets computes the recursive definition `Dedup`, including the raising case. |
| Deduplicator.DedupRaisesIff | src/agents/data_collector.py:93-98 | Deduplication raises exactly when some article has a truthy url and title of which one is not a string. |
| Deduplicator.DedupFromSound | src/agents/data_collector.py:91-107 | Every kept article has truthy url and title; kept articles have pairwise distinct url keys and title keys, none among the keys already seen. |
| Deduplicator.DedupDropsFalsy | src/agents/data_collector.py:93-94 | No article with an empty or missing url or title survives. |
| Deduplicator.DedupDistinct | src/agents/data_collector.py:97-106 | No two surviving articles share a stripped, lower-cased url or title. |
| Deduplicator.DedupSubsequence | src/agents/data_collector.py:89-107 | The survivors are a subsequence of the input (order kept, nothing invented). |
| Deduplicator.DedupIdempotent | src/agents/data_collector.py:86-109 | Deduplicating a deduplicated list changes nothing. |
| Deduplicator.DedupAppend | src/agents/data_collector.py:91-107 | First occurrence wins: deduplicating one more article raises if it is unkeyable, and otherwise keeps it exactly when it is present and its url key and title key are both new relative to what was kept before. |
| Deduplicator.SameUrlDifferentTitleExample | tests/test_collector.py:25-35 | Of the test's three articles, the second (same url, other title) is dropped and the two with distinct urls remain. |
| Deduplicator.BlankTitleKeptExample | src/agents/data_collector.py:93-98 | A whitespace-only title is truthy, so the article is kept, keyed by the empty string. |
| Deduplicator.SubsequenceKeepsDistinctIds | src/agents/data_collector.py:100-107 | Dropping articles, as deduplication and validation do, cannot create a repeated id. |
| Deduplicator.SubsequenceKeepsDistinct | src/agents/data_collector.py:147-154 | Filtering a duplicate-free list keeps it duplicate-free, so validation after deduplication preserves distinctness. |
| Prices.Max | src/agents/data_collector.py:174 | `max(closes)` is one of the closes and bounds them all from above. |
| Prices.Min | src/agents/data_collector.py:175 | `min(closes)` is one of the closes and bounds them all from below. |
| Prices.Summarize | src/agents/data_collector.py:165-176 | A summary exists iff the data is a non-empty dict whose `c` is a non-empty numeric list with a non-zero first close. It then holds the last close, the first close, the maximum, the minimum and the percentage change. |
| Prices.SummaryExample | src/agents/data_collector.py:169-176 | Closes 100, 110, 90 summarise to current 90, start 100, high 110, low 90, change -10 %. |
| Collector.PriceContextIff | src/agents/data_collector.py:156-179 | Spells out, as documentation of the definition rather than an independent property, when the price block holds a summary: both dates parse (ISO form when they contain a 'T', else year-month-day), the candle call returns, and its closes summarise; every other failure leaves it empty. |
| Collector.KeepValid | src/agents/data_collector.py:147-154 | The validation filter keeps, in order, exactly the schema-valid articles: every copy of a valid article survives and no invalid one does. |
| Collector.Finish | src/agents/data_collector.py:143-184 | The tail of `collect`, from its gathered articles and price block: it raises iff some article is unkeyable. Otherwise its articles are an ordered subsequence of the deduplicated list, exactly its schema-valid members, with no two sharing a normalised url or title, and the price block is returned as given. |
| Collector.Collect | src/agents/data_collector.py:111-184 | `collect` raises iff some gathered article is unkeyable. Otherwise its articles are an ordered subsequence of the deduplicated list, exactly its schema-valid members, each with truthy url and title, and no two share a normalised url or title. The price block is the one `Collector.PriceContext` computes from the dates and the candle call. |
| Collector.SerperIgnoredWhenEnough | src/agents/data_collector.py:134-141 | With at least five normalised primary articles, the Serper reply has no influence on the result. |
| Collector.SerperAppendedWhenShort | src/agents/data_collector.py:134-141 | Spells out, as documentation of the definition, the short branch of the fallback rule: with fewer than five, Serper's normalised articles are appended after the primary ones. |
| Collector.SameItemsSameCollect | src/agents/data_collector.py:118-141 | `collect` depends on each provider only through the items its call contributes. |
| Collector.FailedProviderContributesNothing | src/agents/data_collector.py:120-141 | A provider call that raises is isolated: the result is the same as if it had returned an empty list. |
| Collector.CollectedIdsDistinct | src/agents/data_collector.py:118-154 | When `uuid4` never repeats and Finnhub contributes no items, the collected articles have pairwise distinct ids. |
| Collector.FinishKeepsDistinctIds | src/agents/data_collector.py:143-154 | Deduplication and validation only drop articles, so gathered articles with distinct ids stay distinct. |
| Collector.AllProvidersFailing | src/agents/data_collector.py:118-184 | When all three news calls raise, `collect` returns no articles and only the price block. |
| Analyst.CallGroq | src/agents/analyst.py:20-48 | The call fails with a missing-key error when there is no key, and fails when the POST raises or the status is 400-599. Otherwise it returns the reply's JSON body. |
| Analyst.Generate | src/agents/analyst.py:110-128 | The model's answer is returned only when it is schema-valid. Each failure (the call, a body without choices[0].message.content, a non-string content, unparsable JSON, a schema mismatch) is reported with its cause. |
| Analyst.DocsTextRaisesIff | src/agents/analyst.py:55-57 | Building the documents text raises exactly when some snippet lacks `id`, `metadata.url` or `snippet`. |
| Analyst.DocsTextIsBlocks | src/agents/analyst.py:55-57 | The documents text is the concatenation of one block per snippet, in order. |
| Analyst.DocBlockShowsIdAndUrl | src/agents/analyst.py:57 | Each block quotes the snippet's id and url. |
| Analyst.PromptListsEverySnippet | src/agents/analyst.py:55-57 | Every retrieved snippet's id and url occur in the prompt's documents text. |
| Analyst.Analyze | src/agents/analyst.py:50-140 | `analyze` raises exactly when a snippet is malformed; otherwise its result always passes the analyst output schema. |
| Analyst.FailureYieldsFallback | src/agents/analyst.py:130-140 | Any failure after the prompt is built yields the fallback report. |
| Analyst.MissingKeyYieldsFallback | src/agents/analyst.py:24-25 | Without an API key the result is the fallback report, whatever the HTTP layer would do. |
| Analyst.ValidReplyPassesThrough | src/agents/analyst.py:113-128 | A call with any non-error status whose envelope has `choices[0].message.content` parsing to a schema-valid report returns that report unchanged, whatever else the envelope holds. |
| Analyst.PassThroughExample | tests/test_analyst.py:10-30 | The analyst test's reply comes back as a positive report with summary "Test Summary" and confidence 0.8. |
| ChromaIndex.SameCollectionIff | src/ingest/chroma_ingest.py:40 | Two tickers share a collection exactly when they agree after lower-casing. |
| ChromaIndex.Upsert | src/ingest/chroma_ingest.py:47-77 | After the upsert, each batch id maps to `title\ntext` with the four metadata fields; other ids are untouched and no id is lost. |
| ChromaIndex.Ingest | src/ingest/chroma_ingest.py:36-78 | The ticker's collection always exists afterwards and other collections are unchanged. The store rejects a non-empty batch with a non-string or repeated id, leaving only the created collection behind. |
| ChromaIndex.IngestEmpty | src/ingest/chroma_ingest.py:41-44 | Spells out, as documentation of the definition, the empty-batch branch: the collection is created and nothing is written. |
| ChromaIndex.IngestIdempotent | src/ingest/chroma_ingest.py:70-77 | Re-ingesting the same batch leaves the store unchanged. |
| ChromaIndex.LaterIngestOverwrites | src/ingest/chroma_ingest.py:70-77 | A later batch's entry replaces an earlier one with the same id. |
| ChromaIndex.SnippetOf | src/ingest/chroma_ingest.py:109 | The snippet is the document's prefix of length min(500, length). |
| ChromaIndex.Query | src/ingest/chroma_ingest.py:80-114 | `query` returns `[]` for a missing collection. Otherwise it returns one hit per ranked id, in rank order, each with the stored document as full text, its first min(500, length) characters as snippet, and its metadata. |
| ChromaIndex.IngestContents | src/ingest/chroma_ingest.py:47-77 | An accepted batch is ingested, and the ticker's collection then holds the earlier ids plus the batch's ids, each batch id mapped to its article's entry. |
| ChromaIndex.QueryAfterIngest | tests/test_ingest.py:17-38 | A hit on an ingested article carries that article's title and text as its document and the article's url; when the title has at most 500 characters, the snippet starts with it. |
| ChromaIndex.IngestQueryExample | tests/test_ingest.py:17-38 | The test's article, ingested into an empty store under "TEST": any hit returned first is `test_1`, and its snippet starts with "AI in Finance". |
| ChromaIndex.TickersIsolated | src/ingest/chroma_ingest.py:40-41 | Ingesting for one ticker does not change query results for a ticker with another collection. |
| Pipeline.SnippetJson | src/ingest/chroma_ingest.py:107-112 | Each flattened hit has the `id`, `metadata.url` and `snippet` keys the analyst reads. |
| Pipeline.Downstream | src/orchestrator.py:45-61 | After collection, the stages fail exactly when the store rejects a non-empty batch; otherwise the report is schema-valid and the store is the ingested one. |
| Pipeline.Run | src/orchestrator.py:18-66 | A completed run produced a schema-valid report, and collection did not raise. |
| Pipeline.RunCompletesIff | src/orchestrator.py:28-61 | A run completes exactly when collection does not raise and the store accepts the collected batch: retrieved snippets never make the analyst raise. |
| Pipeline.ValidBatchAcceptedIff | src/ingest/chroma_ingest.py:57 | Schema-valid articles carry string ids, so the store rejects a batch of them only for a repeated id. |
| Pipeline.FreshUuidsRunCompletes | src/orchestrator.py:28-61 | When `uuid4` never repeats and Finnhub contributes no items, the store never rejects the batch: a run completes exactly when collection does not raise. |
| Pipeline.AllProvidersDownStillReports | src/orchestrator.py:37-61 | With every news provider down the run still completes; the store changes only in that the ticker's collection now exists, with its earlier contents. |

## Left out

- HTTP clients, their retry policy, timeouts and headers: each call is an outcome parameter (`Providers`, `post`), and which arguments they are called with is not modelled.
- Embedding computation and the HNSW cosine ranking: `rank` is an oracle, assumed only to return ids stored in the collection. How many hits it returns for `top_k` is the library's concern.
- Chroma's own validation of metadata values, collection names and embedding dimensions: only the id checks of an upsert batch (strings, no repeats) are modelled.
- The orchestrator's report file, the CLI, the web UI and all logging: side effects with no bearing on the returned values.
- The system prompt's wording: it is the agent's `instructions` parameter, and the model only requires that it is sent first.
- The user message layout: the model keeps the documents text exactly and treats the price block as `json.dumps` of the summary. The `indent=2` formatting is part of the `dumps` oracle.
- Python's `str()`, `json.dumps`, `json.loads`, `uuid4`, the clock, `datetime.fromtimestamp` and date parsing: these are oracles. Their results are taken as given; only whether they raise is modelled. Each clock call is a separate reading, so no two time stamps are promised equal or different.
- Pipeline.RunCompletesIff: `uuid4` is not assumed injective here, so the model also allows a batch rejected for a repeated uuid, which the program reaches only through a uuid collision. `Normalizer.FreshUuids` states the non-repeating property, and `Pipeline.FreshUuidsRunCompletes` gives the run under it. A Finnhub `id` can still repeat, or equal a uuid string, so the Finnhub case stays open.
- Floating point: prices and confidence are reals, so float rounding and NaN are not modelled.
- Text.Strip, Text.Lower: Python's `str.strip` and `str.lower` are modelled on ASCII (whitespace 9-13 and 28-32, A-Z). Unicode whitespace and case mapping are not modelled.
- Prices.PriceJson: a boolean close is reported as 0 or 1, where Python would carry `True`/`False` through into the summary values.
- The `format` keywords (`uri`, `date-time`) of both schemas: `jsonschema.validate` does not enforce them without a format checker, so the predicates do not either.
- Collector.Items: a provider reply that is not a JSON list contributes no articles. Iterating a dict or a string in Python either raises inside `collect` (caught) or yields items on which every `.get` raises (skipped), so the outcome is the same.
