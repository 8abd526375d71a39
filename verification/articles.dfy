/** The canonical Article record the three normalisers build. */
module Articles {
  import opened Json
  import opened Schemas

  /**
   * The dict the normalisers build: always the same eight keys, but the values
   * copied from a provider item may be any JSON value.
   */
  datatype Article = Article(
    id: Json,
    source: Json,
    title: Json,
    text: Json,
    url: Json,
    publishedAt: Json,
    language: Json,
    ingestedAt: Json)

  /** The article as the Python dict. */
  function ToJson(a: Article): Json {
    JObj(map[
      "id" := a.id, "source" := a.source, "title" := a.title, "text" := a.text,
      "url" := a.url, "published_at" := a.publishedAt, "language" := a.language,
      "ingested_at" := a.ingestedAt])
  }

  /** Every field holds a string. */
  predicate Textual(a: Article) {
    && a.id.JStr? && a.source.JStr? && a.title.JStr? && a.text.JStr?
    && a.url.JStr? && a.publishedAt.JStr? && a.language.JStr? && a.ingestedAt.JStr?
  }

  /** No two articles share an id. */
  predicate DistinctIds(arts: seq<Article>) {
    forall i, j :: 0 <= i < j < |arts| ==> arts[i].id != arts[j].id
  }

  /** `validate_article` accepts a built article exactly when all its fields are strings. */
  lemma ValidIffTextual(a: Article)
    ensures ArticleValid(ToJson(a)) <==> Textual(a)
  {
    var d := ToJson(a).fields;
    if ArticleValid(ToJson(a)) {
      assert "id" in ArticleProperties && "source" in ArticleProperties;
      assert "title" in ArticleProperties && "text" in ArticleProperties;
      assert "url" in ArticleProperties && "published_at" in ArticleProperties;
      assert "language" in ArticleProperties && "ingested_at" in ArticleProperties;
    }
  }

  /** `language` is optional: dropping it from a valid article keeps it valid. */
  lemma LanguageOptional(a: Article)
    requires Textual(a)
    ensures ArticleValid(JObj(ToJson(a).fields - {"language"}))
  {
  }
}
