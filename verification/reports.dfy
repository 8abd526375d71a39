/**
 * The analyst report as a typed record, its JSON form, and a field-by-field
 * decoder; the decoder accepts exactly the JSON that ANALYST_OUTPUT_SCHEMA accepts.
 */
module Reports {
  import opened Wrappers
  import opened Json
  import opened Schemas

  datatype Sentiment = Positive | Neutral | Negative

  function SentimentName(s: Sentiment): string {
    match s
    case Positive => "positive"
    case Neutral => "neutral"
    case Negative => "negative"
  }

  function ParseSentiment(s: string): Option<Sentiment> {
    if s == "positive" then Some(Positive)
    else if s == "neutral" then Some(Neutral)
    else if s == "negative" then Some(Negative)
    else None
  }

  datatype Evidence = Evidence(articleId: string, quote: string, url: string)

  datatype Report = Report(
    summary: string,
    sentiment: Sentiment,
    keyDrivers: seq<string>,
    risks: seq<string>,
    evidence: seq<Evidence>,
    confidence: real)

  /** The schema's `minimum: 0, maximum: 1`, both inclusive. */
  predicate ConfidenceInRange(r: Report) {
    0.0 <= r.confidence <= 1.0
  }

  function StringsJson(xs: seq<string>): Json {
    JArr(seq(|xs|, i requires 0 <= i < |xs| => JStr(xs[i])))
  }

  function EvidenceJson(e: Evidence): Json {
    JObj(map["article_id" := JStr(e.articleId), "quote" := JStr(e.quote), "url" := JStr(e.url)])
  }

  function EvidenceListJson(es: seq<Evidence>): Json {
    JArr(seq(|es|, i requires 0 <= i < |es| => EvidenceJson(es[i])))
  }

  function ToJson(r: Report): Json {
    JObj(map[
      "summary" := JStr(r.summary),
      "sentiment" := JStr(SentimentName(r.sentiment)),
      "key_drivers" := StringsJson(r.keyDrivers),
      "risks" := StringsJson(r.risks),
      "evidence" := EvidenceListJson(r.evidence),
      "confidence" := JNum(r.confidence)])
  }

  function DecodeStrings(xs: seq<Json>): Option<seq<string>>
    decreases |xs|
  {
    if |xs| == 0 then Some([])
    else if !xs[0].JStr? then None
    else match DecodeStrings(xs[1..])
      case None => None
      case Some(rest) => Some([xs[0].s] + rest)
  }

  function DecodeEvidence(j: Json): Option<Evidence> {
    if !j.JObj? then None
    else
      var d := j.fields;
      if "article_id" in d && "quote" in d && "url" in d
         && d["article_id"].JStr? && d["quote"].JStr? && d["url"].JStr?
      then Some(Evidence(d["article_id"].s, d["quote"].s, d["url"].s))
      else None
  }

  function DecodeEvidenceList(xs: seq<Json>): Option<seq<Evidence>>
    decreases |xs|
  {
    if |xs| == 0 then Some([])
    else match DecodeEvidence(xs[0])
      case None => None
      case Some(e) =>
        match DecodeEvidenceList(xs[1..])
        case None => None
        case Some(rest) => Some([e] + rest)
  }

  /** Reads the six report fields; extra keys are ignored. */
  function FromJson(j: Json): Option<Report> {
    if !j.JObj? then None
    else
      var d := j.fields;
      if !("summary" in d && "sentiment" in d && "key_drivers" in d
           && "risks" in d && "evidence" in d && "confidence" in d) then None
      else if !(d["summary"].JStr? && d["sentiment"].JStr? && d["key_drivers"].JArr?
                && d["risks"].JArr? && d["evidence"].JArr? && d["confidence"].JNum?) then None
      else
        match (ParseSentiment(d["sentiment"].s), DecodeStrings(d["key_drivers"].items),
               DecodeStrings(d["risks"].items), DecodeEvidenceList(d["evidence"].items))
        case (Some(s), Some(kd), Some(rk), Some(ev)) =>
          var c := d["confidence"].n;
          if 0.0 <= c <= 1.0 then Some(Report(d["summary"].s, s, kd, rk, ev, c)) else None
        case _ => None
  }

  lemma {:induction false} DecodeStringsIff(xs: seq<Json>)
    ensures DecodeStrings(xs).Some? <==> forall i :: 0 <= i < |xs| ==> xs[i].JStr?
    decreases |xs|
  {
    if |xs| > 0 {
      DecodeStringsIff(xs[1..]);
      assert forall i :: 1 <= i < |xs| ==> xs[i] == xs[1..][i - 1];
    }
  }

  lemma {:induction false} DecodeEvidenceListIff(xs: seq<Json>)
    ensures DecodeEvidenceList(xs).Some? <==> forall i :: 0 <= i < |xs| ==> EvidenceValid(xs[i])
    decreases |xs|
  {
    if |xs| > 0 {
      DecodeEvidenceListIff(xs[1..]);
      assert forall i :: 1 <= i < |xs| ==> xs[i] == xs[1..][i - 1];
      assert DecodeEvidence(xs[0]).Some? <==> EvidenceValid(xs[0]) by {
        if xs[0].JObj? && EvidenceValid(xs[0]) {
          assert "article_id" in EvidenceProperties && "quote" in EvidenceProperties;
          assert "url" in EvidenceProperties;
        }
      }
    }
  }

  lemma {:induction false} DecodeStringsRoundTrip(xs: seq<string>)
    ensures DecodeStrings(StringsJson(xs).items) == Some(xs)
    decreases |xs|
  {
    if |xs| > 0 {
      assert StringsJson(xs).items[1..] == StringsJson(xs[1..]).items;
      DecodeStringsRoundTrip(xs[1..]);
      assert xs == [xs[0]] + xs[1..];
    }
  }

  lemma {:induction false} DecodeEvidenceRoundTrip(es: seq<Evidence>)
    ensures DecodeEvidenceList(EvidenceListJson(es).items) == Some(es)
    decreases |es|
  {
    if |es| > 0 {
      var tail := es[1..];
      assert EvidenceListJson(es).items[1..] == EvidenceListJson(tail).items;
      DecodeEvidenceRoundTrip(tail);
      assert es == [es[0]] + tail;
    }
  }

  /** The decoder accepts exactly the objects ANALYST_OUTPUT_SCHEMA accepts. */
  lemma DecodeIffValid(j: Json)
    ensures FromJson(j).Some? <==> AnalystOutputValid(j)
  {
    if j.JObj? {
      var d := j.fields;
      if "key_drivers" in d && d["key_drivers"].JArr? { DecodeStringsIff(d["key_drivers"].items); }
      if "risks" in d && d["risks"].JArr? { DecodeStringsIff(d["risks"].items); }
      if "evidence" in d && d["evidence"].JArr? { DecodeEvidenceListIff(d["evidence"].items); }
      if AnalystOutputValid(j) {
        assert "summary" in AnalystRequired && "sentiment" in AnalystRequired;
        assert "key_drivers" in AnalystRequired && "risks" in AnalystRequired;
        assert "evidence" in AnalystRequired && "confidence" in AnalystRequired;
      }
    }
  }

  /** A typed report survives encoding and decoding unchanged. */
  lemma RoundTrip(r: Report)
    requires ConfidenceInRange(r)
    ensures FromJson(ToJson(r)) == Some(r)
  {
    DecodeStringsRoundTrip(r.keyDrivers);
    DecodeStringsRoundTrip(r.risks);
    DecodeEvidenceRoundTrip(r.evidence);
    assert ParseSentiment(SentimentName(r.sentiment)) == Some(r.sentiment);
    var d := ToJson(r).fields;
    assert d["summary"] == JStr(r.summary);
    assert d["sentiment"] == JStr(SentimentName(r.sentiment));
    assert d["key_drivers"] == StringsJson(r.keyDrivers);
    assert d["risks"] == StringsJson(r.risks);
    assert d["evidence"] == EvidenceListJson(r.evidence);
    assert d["confidence"] == JNum(r.confidence);
    assert (ParseSentiment(d["sentiment"].s), DecodeStrings(d["key_drivers"].items),
            DecodeStrings(d["risks"].items), DecodeEvidenceList(d["evidence"].items))
        == (Some(r.sentiment), Some(r.keyDrivers), Some(r.risks), Some(r.evidence));
  }

  /** The JSON form of a typed report satisfies the schema exactly when its confidence is in range. */
  lemma ToJsonValidIff(r: Report)
    ensures AnalystOutputValid(ToJson(r)) <==> ConfidenceInRange(r)
  {
    DecodeIffValid(ToJson(r));
    if ConfidenceInRange(r) {
      RoundTrip(r);
    }
  }

  /** The degenerate report returned when generation fails. */
  const Fallback: Report :=
    Report("Analysis failed due to technical error.", Neutral, [], ["Analysis Error"], [], 0.0)

  /** The fallback report, as JSON, satisfies the analyst schema. */
  lemma FallbackValid()
    ensures AnalystOutputValid(ToJson(Fallback))
    ensures ToJson(Fallback).fields["sentiment"] == JStr("neutral")
    ensures ToJson(Fallback).fields["confidence"] == JNum(0.0)
    ensures ToJson(Fallback).fields["risks"] == JArr([JStr("Analysis Error")])
    ensures ToJson(Fallback).fields["key_drivers"] == JArr([])
    ensures ToJson(Fallback).fields["evidence"] == JArr([])
  {
    ToJsonValidIff(Fallback);
  }
}
