/**
 * The two JSON schemas of the pipeline as predicates over `Json`.
 * They stand for `jsonschema.validate` with the default validator: a declared
 * property is checked only when present, extra properties are allowed, and the
 * `uri` / `date-time` formats are not enforced.
 */
module Schemas {
  import opened Json

  /** Every key of `keys` is present in `d` (the schema's `required` list). */
  predicate HasAll(d: map<string, Json>, keys: set<string>) {
    forall k :: k in keys ==> k in d
  }

  /** Every declared property in `props` that is present holds a string. */
  predicate StringsWherePresent(d: map<string, Json>, props: set<string>) {
    forall k :: k in props && k in d ==> d[k].JStr?
  }

  /** `{"type": "array", "items": {"type": "string"}}` */
  predicate StringArray(j: Json) {
    j.JArr? && forall i :: 0 <= i < |j.items| ==> j.items[i].JStr?
  }

  const ArticleProperties: set<string> :=
    {"id", "source", "title", "text", "url", "published_at", "language", "ingested_at"}

  /** Every article property except `language` is required. */
  const ArticleRequired: set<string> :=
    {"id", "source", "title", "text", "url", "published_at", "ingested_at"}

  /** ARTICLE_SCHEMA */
  predicate ArticleValid(j: Json) {
    && j.JObj?
    && HasAll(j.fields, ArticleRequired)
    && StringsWherePresent(j.fields, ArticleProperties)
  }

  const EvidenceProperties: set<string> := {"article_id", "quote", "url"}

  /** One item of the `evidence` array: an object with the three string fields. */
  predicate EvidenceValid(j: Json) {
    && j.JObj?
    && HasAll(j.fields, EvidenceProperties)
    && StringsWherePresent(j.fields, EvidenceProperties)
  }

  const Sentiments: set<string> := {"positive", "neutral", "negative"}

  const AnalystRequired: set<string> :=
    {"summary", "sentiment", "key_drivers", "risks", "evidence", "confidence"}

  /** ANALYST_OUTPUT_SCHEMA; a JSON boolean is not a `number` for jsonschema. */
  predicate AnalystOutputValid(j: Json) {
    && j.JObj?
    && HasAll(j.fields, AnalystRequired)
    && var d := j.fields;
    && ("summary" in d ==> d["summary"].JStr?)
    && ("sentiment" in d ==> d["sentiment"].JStr? && d["sentiment"].s in Sentiments)
    && ("key_drivers" in d ==> StringArray(d["key_drivers"]))
    && ("risks" in d ==> StringArray(d["risks"]))
    && ("evidence" in d ==>
          d["evidence"].JArr? &&
          forall i :: 0 <= i < |d["evidence"].items| ==> EvidenceValid(d["evidence"].items[i]))
    && ("confidence" in d ==> d["confidence"].JNum? && 0.0 <= d["confidence"].n <= 1.0)
  }
}
