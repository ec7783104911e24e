/**
 * The records the agent loop passes between its collaborators: page results
 * of the fetch and browser clients, chat messages, tool results and the
 * provenance entries of verified URLs.  A Python dict key that may be
 * missing is an `Option`; `None` is the missing key.
 *
 * The chat model, the search API, the HTTP client, the browser and the HTML
 * parser are the `World`: total function values, so every property proved
 * holds whatever they answer.
 */
module AgentRecords {
  import opened Strings
  import opened Values
  import opened Foreign
  import opened PageSignals
  import opened PageClassifier

  /** The `classification` dict of a page result; a missing dict has every key missing. */
  datatype ClassInfo = ClassInfo(
    verdict: Option<Json>,
    reason: Option<Json>,
    productCount: Option<Json>,
    /** `product_candidate_links` (missing is the empty list). */
    candidateLinks: seq<string>)

  const NO_CLASSIFICATION: ClassInfo := ClassInfo(None, None, None, [])

  /** A page dict from the fetch client or the browser client. */
  datatype PageResult = PageResult(
    /** `get("status", 0)`. */
    status: int,
    finalUrl: Option<string>,
    /** `get("html", "")`: a missing or empty body is "". */
    html: string,
    text: Option<string>,
    title: Option<string>,
    /** None when the key is missing, `Some(None)` when it holds None. */
    canonicalUrl: Option<Option<string>>,
    error: Option<Json>,
    classification: ClassInfo)
  {
    /** `get("canonical_url")`. */
    function Canonical(): Option<string>
    {
      if canonicalUrl.Some? then canonicalUrl.value else None
    }

    /** `get("html") or get("text")` is truthy. */
    predicate HasBody()
    {
      html != "" || OrEmpty(text) != ""
    }
  }

  datatype SearchResult = SearchResult(title: string, url: string, snippet: string)

  /** What the agent stores in its cache: search results, or a fetch or render result. */
  datatype CachedValue = CachedResults(results: seq<SearchResult>) | CachedPage(page: PageResult)

  datatype ToolCall = ToolCall(id: Json, name: string, arguments: string)

  /** A chat response; a missing or empty `tool_calls` is the empty sequence. */
  datatype AssistantMessage = AssistantMessage(content: Option<Json>, toolCalls: seq<ToolCall>)

  /** The conversation; `SystemPrompt` stands for the fixed workflow instructions. */
  datatype Message =
    | SystemPrompt
    | UserMsg(text: string)
    | AssistantMsg(m: AssistantMessage)
    | ToolMsg(callId: Json, text: string)

  /** One entry of `debug_traces`. */
  datatype Trace = Trace(step: nat, tool: string, args: Json, resultLength: nat, success: bool)

  /** The dict `_execute_tool` returns; a key it does not set is None. */
  datatype ToolResult = ToolResult(
    content: string,
    success: bool,
    url: Option<string>,
    isVerified: bool,
    rejectionReason: Option<Json>,
    verdict: Option<string>,
    productCount: Option<Json>,
    title: Option<string>,
    finalUrl: Option<string>,
    canonicalUrl: Option<string>,
    sku: Option<string>,
    verificationReason: Option<Json>,
    candidateLinks: seq<string>)

  /** A result with only `content` and `success`. */
  function Plain(content: string, success: bool): (r: ToolResult)
    ensures r.content == content && r.success == success && r.url.None? && !r.isVerified
  {
    ToolResult(content, success, None, false, None, None, None, None, None, None, None, None, [])
  }

  /** A rejection that carries the URL and the reason only. */
  function Failed(content: string, url: string, reason: string): (r: ToolResult)
    ensures !r.success && !r.isVerified && r.url == Some(url) && r.rejectionReason == Some(JStr(reason))
  {
    ToolResult(content, false, Some(url), false, Some(JStr(reason)), None, None, None, None, None, None, None, [])
  }

  /** One value of `verified_urls`. */
  datatype Metadata = Metadata(
    url: string,
    title: string,
    verdict: Option<string>,
    productCount: Json,
    reason: Json,
    finalUrl: string,
    canonicalUrl: Option<string>,
    sku: Option<string>)

  /** The entry `run` records for a verified result. */
  function MetadataOf(r: ToolResult): (m: Metadata)
    requires r.url.Some?
    ensures m.url == r.url.value && m.verdict == r.verdict && m.canonicalUrl == r.canonicalUrl && m.sku == r.sku
    ensures m.title == (if r.title.Some? then r.title.value else r.url.value)
    ensures m.finalUrl == (if r.finalUrl.Some? then r.finalUrl.value else r.url.value)
  {
    var url := r.url.value;
    Metadata(
      url,
      if r.title.Some? then r.title.value else url,
      r.verdict,
      if r.productCount.Some? then r.productCount.value else JInt(0),
      if r.verificationReason.Some? then r.verificationReason.value else JStr(""),
      if r.finalUrl.Some? then r.finalUrl.value else url,
      r.canonicalUrl,
      r.sku)
  }

  datatype Source = Source(url: string, title: string)

  datatype World = World(
    /** The chat completion; `Failure` is the exception it raised. */
    chat: seq<Message> -> Result<AssistantMessage>,
    /** The web search with its query and `count`; `Failure` is the exception it raised. */
    search: (string, Json) -> Result<seq<SearchResult>>,
    fetch: string -> PageResult,
    render: string -> PageResult,
    /** The parsed view of an html body the extractors read. */
    parse: string -> Page,
    /** `json.loads` of tool-call arguments; None is a decode error. */
    decodeArgs: string -> Option<Json>)

  /** The page the SKU extractor sees for `extract_sku(html, text)`. */
  function PageOf(w: World, html: string, text: string): (p: Page)
    ensures p.html == html && p.text == text
  {
    w.parse(html).(html := html, text := text)
  }

  /**
   * The verdict the agent reads from a classification: a string becomes a
   * `PageVerdict` (one that names none becomes ERROR), and any other value
   * is kept as it is, which no verdict comparison matches.
   */
  datatype VerdictValue = Known(v: Verdict) | Other(raw: Json)

  function ReadVerdict(c: ClassInfo): (r: VerdictValue)
    ensures c.verdict.None? ==> r == Known(Error)
    ensures r.Other? <==> c.verdict.Some? && !c.verdict.value.JStr?
    ensures r.Known? && r.v != Error ==> c.verdict == Some(JStr(r.v.Value()))
  {
    var j := if c.verdict.Some? then c.verdict.value else JStr("error");
    if j.JStr? then Known(ParseVerdict(j.s)) else Other(j)
  }

  /** `verdict.value`, or `str(verdict)` for a value that is not a verdict. */
  function VerdictText(lib: Lib, v: VerdictValue): string
  {
    match v
    case Known(k) => k.Value()
    case Other(j) => PyStr(lib, j)
  }

  /** `classification.get("product_count", 0)`. */
  function ProductCountOf(c: ClassInfo): Json
  {
    if c.productCount.Some? then c.productCount.value else JInt(0)
  }
}
