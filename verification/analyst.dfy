/**
 * `AnalystAgent.analyze`: prompt building, then the guarded sequence model
 * call -> envelope extraction -> JSON parse -> schema check, which either returns
 * the parsed object or the fixed fallback report.
 */
module Analyst {
  import opened Wrappers
  import opened Json
  import opened Text
  import opened Schemas
  import opened Reports

  datatype Message = Message(role: string, content: string)

  /** What `requests.post` to the chat-completions endpoint produced: it raised, or a status and a body (`None` when not JSON). */
  datatype HttpReply = PostRaised | Reply(status: int, body: Option<Json>)

  /** Why a generation ended in the fallback report. */
  datatype Failure =
    | MissingApiKey
    | RequestFailed
    | HttpStatus(status: int)
    | BodyNotJson
    | NoContent
    | ContentNotText
    | InvalidJson
    | SchemaMismatch

  /** The agent's configuration: the `GROQ_API_KEY` environment value and the fixed system instructions. */
  datatype Agent = Agent(apiKey: Option<string>, instructions: string)

  /** `if not self.api_key` fails: the variable is unset or empty. */
  predicate HasKey(agent: Agent) {
    agent.apiKey.Some? && |agent.apiKey.value| > 0
  }

  /** `raise_for_status()` raises for client and server error codes. */
  predicate ErrorStatus(status: int) {
    400 <= status < 600
  }

  /**
   * `_call_groq`: no key raises before any request; a raising `post` (even when
   * the handler's own use of the unbound `response` raises instead), an error
   * status, or a body that is not JSON raise too; otherwise the decoded body.
   */
  function CallGroq(agent: Agent, messages: seq<Message>, post: seq<Message> -> HttpReply): (r: Result<Json, Failure>)
    ensures !HasKey(agent) ==> r == Failure(MissingApiKey)
    ensures r.Success? <==>
      HasKey(agent) && post(messages).Reply? && !ErrorStatus(post(messages).status) && post(messages).body.Some?
    ensures r.Success? ==> r.value == post(messages).body.value
  {
    if !HasKey(agent) then Failure(MissingApiKey)
    else match post(messages)
      case PostRaised => Failure(RequestFailed)
      case Reply(status, body) =>
        if ErrorStatus(status) then Failure(HttpStatus(status))
        else if body.None? then Failure(BodyNotJson)
        else Success(body.value)
  }

  /** `result['choices'][0]['message']['content']`; `None` when an index or key lookup raises. */
  function ResponseContent(envelope: Json): Option<Json> {
    if !envelope.JObj? || "choices" !in envelope.fields then None
    else
      var choices := envelope.fields["choices"];
      if !choices.JArr? || |choices.items| == 0 then None
      else
        var first := choices.items[0];
        if !first.JObj? || "message" !in first.fields then None
        else
          var message := first.fields["message"];
          if !message.JObj? || "content" !in message.fields then None
          else Some(message.fields["content"])
  }

  /** The envelope shape a chat-completions reply carries its text in. */
  function Envelope(content: string): Json {
    JObj(map["choices" := JArr([JObj(map["message" := JObj(map["content" := JStr(content)])])])])
  }

  datatype Generation = Generated(report: Json) | FellBack(cause: Failure)

  /** The body of the `try` in `analyze`. */
  function Generate(agent: Agent, messages: seq<Message>, post: seq<Message> -> HttpReply, host: Host): (g: Generation)
    ensures g.Generated? ==> AnalystOutputValid(g.report)
    ensures CallGroq(agent, messages, post).Failure? ==> g == FellBack(CallGroq(agent, messages, post).error)
    ensures CallGroq(agent, messages, post).Success? ==>
      var content := ResponseContent(CallGroq(agent, messages, post).value);
      && (content.None? ==> g == FellBack(NoContent))
      && (content.Some? && !content.value.JStr? ==> g == FellBack(ContentNotText))
      && (content.Some? && content.value.JStr? ==>
            match host.loads(content.value.s)
            case None => g == FellBack(InvalidJson)
            case Some(data) => g == if AnalystOutputValid(data) then Generated(data) else FellBack(SchemaMismatch))
  {
    match CallGroq(agent, messages, post)
    case Failure(e) => FellBack(e)
    case Success(envelope) =>
      match ResponseContent(envelope)
      case None => FellBack(NoContent)
      case Some(content) =>
        if !content.JStr? then FellBack(ContentNotText)
        else match host.loads(content.s)
          case None => FellBack(InvalidJson)
          case Some(data) => if AnalystOutputValid(data) then Generated(data) else FellBack(SchemaMismatch)
  }

  /** `d['id']`, `d['metadata']['url']` and `d['snippet']` all succeed. */
  predicate WellFormedSnippet(d: Json) {
    && d.JObj? && "id" in d.fields && "snippet" in d.fields && "metadata" in d.fields
    && d.fields["metadata"].JObj? && "url" in d.fields["metadata"].fields
  }

  function SnippetId(d: Json): Json
    requires WellFormedSnippet(d)
  {
    d.fields["id"]
  }

  function SnippetUrl(d: Json): Json
    requires WellFormedSnippet(d)
  {
    d.fields["metadata"].fields["url"]
  }

  /** The prompt block of one retrieved document. */
  function DocBlock(host: Host, d: Json): string
    requires WellFormedSnippet(d)
  {
    "---\nID: " + Show(host, SnippetId(d)) + "\nURL: " + Show(host, SnippetUrl(d))
      + "\nCONTENT: " + Show(host, d.fields["snippet"]) + "...\n"
  }

  /** A document's block surfaces its id and its url. */
  lemma DocBlockShowsIdAndUrl(host: Host, d: Json)
    requires WellFormedSnippet(d)
    ensures Contains(DocBlock(host, d), Show(host, SnippetId(d)))
    ensures Contains(DocBlock(host, d), Show(host, SnippetUrl(d)))
  {
    var id, url := Show(host, SnippetId(d)), Show(host, SnippetUrl(d));
    var b := DocBlock(host, d);
    assert OccursAt(id, b, 8) by { assert b[8..8 + |id|] == id; }
    assert OccursAt(url, b, 14 + |id|) by { assert b[14 + |id|..14 + |id| + |url|] == url; }
  }

  predicate AllWellFormed(snippets: seq<Json>) {
    forall i :: 0 <= i < |snippets| ==> WellFormedSnippet(snippets[i])
  }

  /** The `docs_text` loop: appends one block per snippet and raises at the first malformed one. */
  function DocsText(host: Host, snippets: seq<Json>): Option<string>
    decreases |snippets|
  {
    if |snippets| == 0 then Some("")
    else
      var n := |snippets| - 1;
      match DocsText(host, snippets[..n])
      case None => None
      case Some(text) => if WellFormedSnippet(snippets[n]) then Some(text + DocBlock(host, snippets[n])) else None
  }

  function Blocks(host: Host, snippets: seq<Json>): seq<string>
    requires AllWellFormed(snippets)
  {
    seq(|snippets|, i requires 0 <= i < |snippets| => DocBlock(host, snippets[i]))
  }

  /** Prompt building raises exactly when some snippet is malformed. */
  lemma {:induction false} DocsTextRaisesIff(host: Host, snippets: seq<Json>)
    ensures DocsText(host, snippets).Some? <==> AllWellFormed(snippets)
    decreases |snippets|
  {
    if |snippets| > 0 {
      var n := |snippets| - 1;
      var pre := snippets[..n];
      DocsTextRaisesIff(host, pre);
      assert forall i :: 0 <= i < n ==> pre[i] == snippets[i];
    }
  }

  /** Otherwise the text is the blocks of the snippets, in snippet order. */
  lemma {:induction false} DocsTextIsBlocks(host: Host, snippets: seq<Json>)
    requires AllWellFormed(snippets)
    ensures DocsText(host, snippets) == Some(Concat(Blocks(host, snippets)))
    decreases |snippets|
  {
    if |snippets| > 0 {
      var n := |snippets| - 1;
      var pre := snippets[..n];
      assert AllWellFormed(pre) by {
        assert forall i :: 0 <= i < n ==> pre[i] == snippets[i];
      }
      DocsTextIsBlocks(host, pre);
      var bs := Blocks(host, snippets);
      var last := DocBlock(host, snippets[n]);
      assert DocsText(host, snippets) == Some(DocsText(host, pre).value + last);
      assert bs[..n] == Blocks(host, pre);
      assert bs[n] == last;
      assert Concat(bs) == Concat(bs[..n]) + last;
    }
  }

  /**
   * The prompt's document text holds one block per snippet, in order: block `i`
   * starts right after the blocks of the snippets before it and shows snippet
   * `i`'s id and url.
   */
  lemma PromptListsEverySnippet(host: Host, snippets: seq<Json>, i: nat)
    requires AllWellFormed(snippets) && i < |snippets|
    ensures DocsText(host, snippets).Some?
    ensures var b := DocBlock(host, snippets[i]);
      && OccursAt(b, DocsText(host, snippets).value, |Concat(Blocks(host, snippets[..i]))|)
      && Contains(b, Show(host, SnippetId(snippets[i])))
      && Contains(b, Show(host, SnippetUrl(snippets[i])))
  {
    DocsTextRaisesIff(host, snippets);
    DocsTextIsBlocks(host, snippets);
    ConcatPlacesPart(Blocks(host, snippets), i);
    DocBlockShowsIdAndUrl(host, snippets[i]);
    assert Blocks(host, snippets)[..i] == Blocks(host, snippets[..i]);
  }

  function UserMessage(company: string, pricesText: string, docsText: string): string {
    "\nCOMPANY: " + company + "\n\nPRICE DATA:\n" + pricesText + "\n\nDOCUMENTS:\n" + docsText
      + "\n\nAnalyze and generate the JSON report.\n"
  }

  function Messages(agent: Agent, company: string, pricesText: string, docsText: string): seq<Message> {
    [Message("system", agent.instructions), Message("user", UserMessage(company, pricesText, docsText))]
  }

  /**
   * `analyze`. Prompt building happens before the `try`, so a malformed snippet
   * raises (`None`); otherwise the result is always a schema-valid report.
   */
  function Analyze(agent: Agent, host: Host, company: string, prices: Json, snippets: seq<Json>,
                   post: seq<Message> -> HttpReply): (r: Option<Json>)
    ensures r.None? <==> !AllWellFormed(snippets)
    ensures r.Some? ==> AnalystOutputValid(r.value)
  {
    DocsTextRaisesIff(host, snippets);
    FallbackValid();
    match DocsText(host, snippets)
    case None => None
    case Some(docs) =>
      var g := Generate(agent, Messages(agent, company, host.dumps(prices), docs), post, host);
      Some(if g.Generated? then g.report else ToJson(Fallback))
  }

  /**
   * Once past prompt building, every failure of the model call, the envelope,
   * the parse or the schema check yields the fallback report: neutral, zero
   * confidence, no drivers or evidence, one risk "Analysis Error".
   */
  lemma FailureYieldsFallback(agent: Agent, host: Host, company: string, prices: Json, snippets: seq<Json>,
                              post: seq<Message> -> HttpReply)
    requires AllWellFormed(snippets)
    requires var docs := DocsText(host, snippets);
      docs.Some? && Generate(agent, Messages(agent, company, host.dumps(prices), docs.value), post, host).FellBack?
    ensures Analyze(agent, host, company, prices, snippets, post) == Some(ToJson(Fallback))
    ensures var d := ToJson(Fallback).fields;
      && d["sentiment"] == JStr("neutral") && d["confidence"] == JNum(0.0)
      && d["key_drivers"] == JArr([]) && d["evidence"] == JArr([])
      && d["risks"] == JArr([JStr("Analysis Error")])
  {
    FallbackValid();
  }

  /** Without an API key the run still produces the fallback report. */
  lemma MissingKeyYieldsFallback(agent: Agent, host: Host, company: string, prices: Json, snippets: seq<Json>,
                                 post: seq<Message> -> HttpReply)
    requires AllWellFormed(snippets) && !HasKey(agent)
    ensures Analyze(agent, host, company, prices, snippets, post) == Some(ToJson(Fallback))
  {
    DocsTextRaisesIff(host, snippets);
  }

  /**
   * A schema-valid parsed reply is returned unchanged, whatever else the
   * envelope carries and whatever non-error status came with it.
   */
  lemma ValidReplyPassesThrough(agent: Agent, host: Host, company: string, prices: Json, snippets: seq<Json>,
                                post: seq<Message> -> HttpReply, content: string, data: Json)
    requires AllWellFormed(snippets) && HasKey(agent)
    requires var docs := DocsText(host, snippets);
      docs.Some? &&
      var reply := post(Messages(agent, company, host.dumps(prices), docs.value));
      && reply.Reply? && !ErrorStatus(reply.status) && reply.body.Some?
      && ResponseContent(reply.body.value) == Some(JStr(content))
    requires host.loads(content) == Some(data) && AnalystOutputValid(data)
    ensures Analyze(agent, host, company, prices, snippets, post) == Some(data)
  {
    DocsTextRaisesIff(host, snippets);
  }

  /**
   * The analyst test: a reply whose content parses to a positive report with
   * confidence 0.8 is returned with its sentiment, summary and confidence intact.
   */
  lemma PassThroughExample(agent: Agent, host: Host, post: seq<Message> -> HttpReply, content: string)
    requires HasKey(agent)
    requires forall m :: post(m) == Reply(200, Some(Envelope(content)))
    requires host.loads(content) == Some(ToJson(Report("Test Summary", Positive, ["Growth"], ["Competition"], [], 0.8)))
    ensures var snippet := JObj(map["id" := JStr("1"), "metadata" := JObj(map["url" := JStr("u")]), "snippet" := JStr("s")]);
      var r := Analyze(agent, host, "Test Corp", JObj(map[]), [snippet], post);
      && r.Some?
      && r.value.fields["sentiment"] == JStr("positive")
      && r.value.fields["summary"] == JStr("Test Summary")
      && r.value.fields["confidence"] == JNum(0.8)
  {
    var snippet := JObj(map["id" := JStr("1"), "metadata" := JObj(map["url" := JStr("u")]), "snippet" := JStr("s")]);
    var report := Report("Test Summary", Positive, ["Growth"], ["Competition"], [], 0.8);
    ToJsonValidIff(report);
    assert WellFormedSnippet(snippet);
    assert AllWellFormed([snippet]);
    DocsTextRaisesIff(host, [snippet]);
    ValidReplyPassesThrough(agent, host, "Test Corp", JObj(map[]), [snippet], post, content, ToJson(report));
  }
}
