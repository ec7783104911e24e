/**
 * The single-run notebook workflow: the JSON extractor for chat replies,
 * the tool dispatcher, the search and fetch tools over the shared cache,
 * and the chat loop that runs tool calls for a bounded number of rounds.
 *
 * The chat model, the search API and the HTTP client are the `Services`,
 * total function values.  The clock is one parameter `now` for a whole run.
 * Messages and tool calls are the JSON dicts the chat client exchanges.
 */
module Notebook {
  import opened Strings
  import opened Values
  import opened Foreign
  import opened Config
  import opened Caching
  import opened HtmlExtract
  import opened AgentRecords
  import AT = AgentTools

  // ---------------------------------------------------------------------------
  // Values of the workflow

  /** A fetch client's dict; a key it may leave out is an `Option`. */
  datatype FetchRecord = FetchRecord(
    /** `get("status", 0)`. */
    status: int,
    finalUrl: Option<string>,
    /** `get("html")`: a missing or empty body is "". */
    html: string,
    text: Option<string>,
    title: Option<string>,
    error: Option<Json>,
    /** `get("extracted_links", [])`. */
    extractedLinks: seq<string>,
    /** `get("canonical_url")`. */
    canonicalUrl: Option<string>)

  /** What the notebook keeps in the cache: search results or a fetch dict. */
  datatype NoteValue = StoredResults(results: seq<SearchResult>) | StoredFetch(record: FetchRecord)

  type NoteStore = map<string, Entry<NoteValue>>

  datatype Services = Services(
    /** `client.chat(messages, tools=tools)`, or without tools when `tools` is null; `Failure` is a raised exception. */
    chat: (seq<Json>, Json) -> Result<Json>,
    /** `brave_client.search(query, count=count)`; `Failure` is a raised exception. */
    search: (string, int) -> Result<seq<SearchResult>>,
    fetch: string -> FetchRecord)

  /** The collaborators, the library functions, the cache's digest and the clock. */
  datatype Env = Env(lib: Lib, sv: Services, digest: string -> string, now: int)

  /** A call that returned a value, or raised an exception nothing catches. */
  datatype Call = Returned(value: Json) | Raised

  // ---------------------------------------------------------------------------
  // extract_json_from_text

  /** The code-fence pattern; it is searched case-insensitively and with `.` matching newlines. */
  const FENCE_PATTERN: string := "```(?:json)?\\s*({.*?})\\s*```"

  /** Group 1 of the code-fence search, if it matches. */
  function FenceBody(lib: Lib, text: string): Option<string>
  {
    var m := lib.reSearch(FENCE_PATTERN, text, DOTALL_IGNORECASE);
    if m.Some? && |m.value.groups| >= 1 then Some(m.value.groups[0]) else None
  }

  /** The last index holding `c`, or -1 when there is none. */
  function LastIndexOf(s: string, c: char): (r: int)
    ensures -1 <= r < |s|
    ensures r >= 0 ==> s[r] == c
    ensures forall j :: r < j < |s| ==> s[j] != c
  {
    if |s| == 0 then -1
    else if s[|s| - 1] == c then |s| - 1
    else LastIndexOf(s[..|s| - 1], c)
  }

  predicate HasBracePair(text: string)
  {
    exists a, b :: 0 <= a < b < |text| && text[a] == '{' && text[b] == '}'
  }

  /** `text[a..b + 1]` runs from the first "{" of `text` to its last "}". */
  predicate GreedySpanAt(text: string, a: int, b: int)
  {
    0 <= a < b < |text| && text[a] == '{' && text[b] == '}'
    && (forall k :: 0 <= k < a ==> text[k] != '{')
    && (forall k :: b < k < |text| ==> text[k] != '}')
  }

  /**
   * The raw-object search `({.*})` with `.` matching newlines: the greedy
   * span from the first "{" to the last "}", when a "}" follows that "{".
   */
  function RawObject(text: string): (r: Option<string>)
    ensures r.Some? <==> HasBracePair(text)
    ensures r.Some? ==> exists a, b :: GreedySpanAt(text, a, b) && r.value == text[a..b + 1]
  {
    var a := IndexFrom(text, '{', 0);
    var b := LastIndexOf(text, '}');
    if a < b then
      assert GreedySpanAt(text, a, b);
      Some(text[a..b + 1])
    else
      None
  }

  /** `extract_json_from_text`: the fenced body, else the raw object, else the text itself. */
  function ExtractJsonFromText(lib: Lib, text: string): (r: string)
    ensures FenceBody(lib, text).Some? ==> r == FenceBody(lib, text).value
    ensures FenceBody(lib, text).None? && HasBracePair(text) ==>
      exists a, b :: GreedySpanAt(text, a, b) && r == text[a..b + 1]
    ensures FenceBody(lib, text).None? && !HasBracePair(text) ==> r == text
  {
    var fence := FenceBody(lib, text);
    if fence.Some? then fence.value
    else
      var raw := RawObject(text);
      if raw.Some? then raw.value else text
  }

  /** The raw span is its own raw span: extracting twice changes nothing. */
  lemma RawObjectIdempotent(text: string)
    requires RawObject(text).Some?
    ensures RawObject(RawObject(text).value) == RawObject(text)
  {
    var a, b := IndexFrom(text, '{', 0), LastIndexOf(text, '}');
    var s := text[a..b + 1];
    assert RawObject(text) == Some(s);
    assert s[0] == '{' && s[|s| - 1] == '}';
    assert IndexFrom(s, '{', 0) == 0;
    var j := LastIndexOf(s, '}');
    assert j == |s| - 1;
    assert s[0..|s|] == s;
  }

  /** Text that is already a bare object, with no code fence, passes through unchanged. */
  lemma BareObjectPassesThrough(lib: Lib, text: string)
    requires FenceBody(lib, text).None?
    requires |text| >= 2 && text[0] == '{' && text[|text| - 1] == '}'
    ensures ExtractJsonFromText(lib, text) == text
  {
    assert IndexFrom(text, '{', 0) == 0;
    assert LastIndexOf(text, '}') == |text| - 1;
    assert text[0..|text|] == text;
  }

  // ---------------------------------------------------------------------------
  // execute_search_web

  /** The tool's dict: its content and whether it succeeded. */
  datatype ToolOut = ToolOut(content: string, success: bool)
  {
    function AsJson(): Json
    {
      JObj([("content", JStr(content)), ("success", JBool(success))])
    }
  }

  /** The formatted listing of results; no results is a failure. */
  function Listed(rs: seq<SearchResult>): (o: ToolOut)
    ensures o.success <==> rs != []
    ensures rs == [] ==> o.content == AT.NO_RESULTS
    ensures rs != [] ==> o.content == AT.SearchContent(rs)
  {
    if rs == [] then ToolOut(AT.NO_RESULTS, false) else ToolOut(AT.SearchContent(rs), true)
  }

  /** The search key's live, non-empty cached results, if any. */
  function SearchHit(env: Env, store: NoteStore, query: string): Option<seq<SearchResult>>
  {
    var hit := LookupIn(store, MakeKey(env.digest, SEARCH, query), env.now);
    if hit.Some? && hit.value.StoredResults? && hit.value.results != [] then Some(hit.value.results) else None
  }

  /**
   * `execute_search_web` and the store after it: a non-empty cached list
   * is used as is; otherwise the search runs and its results are cached,
   * even when there are none.  A raised search is reported, not cached.
   */
  function SearchSpec(env: Env, store: NoteStore, query: string, count: int): (ToolOut, NoteStore)
  {
    var hit := SearchHit(env, store, query);
    if hit.Some? then (Listed(hit.value), store)
    else
      var res := env.sv.search(query, count);
      if res.Failure? then (ToolOut("Search failed: " + res.error, false), store)
      else (Listed(res.value), store[MakeKey(env.digest, SEARCH, query) := Entry(StoredResults(res.value), env.now + SEARCH_CACHE_TTL)])
  }

  method ExecuteSearchWeb(lib: Lib, sv: Services, cache: Cache<NoteValue>, query: string, count: int, now: int)
    returns (o: ToolOut)
    modifies cache
    ensures (o, cache.store) == SearchSpec(Env(lib, sv, cache.digest, now), old(cache.store), query, count)
  {
    ghost var env, store0 := Env(lib, sv, cache.digest, now), cache.store;
    var cached := cache.GetSearch(query, now);
    var results: seq<SearchResult>;
    if cached.Some? && cached.value.StoredResults? && cached.value.results != [] {
      results := cached.value.results;
      assert SearchHit(env, store0, query) == Some(results);
      assert SearchSpec(env, store0, query, count) == (Listed(results), cache.store);
    } else {
      assert SearchHit(env, store0, query).None?;
      var res := sv.search(query, count);
      if res.Failure? {
        return ToolOut("Search failed: " + res.error, false);
      }
      results := res.value;
      cache.SetSearch(query, StoredResults(results), now);
      assert SearchSpec(env, store0, query, count) == (Listed(results), cache.store);
    }
    if results == [] {
      return ToolOut(AT.NO_RESULTS, false);
    }
    o := ToolOut(AT.SearchContent(results), true);
  }

  /**
   * A cache hit answers without the network: the output and the store are
   * the same whatever the search service would answer, and the store is
   * left as it was.  A miss reports a raised search as a failure and
   * caches every list the search returns.
   */
  lemma SearchFacts(env: Env, store: NoteStore, query: string, count: int, sv2: Services)
    ensures var r := SearchSpec(env, store, query, count);
      SearchHit(env, store, query).Some? ==>
        r.1 == store && r.0.success && r == SearchSpec(env.(sv := sv2), store, query, count)
    ensures var r := SearchSpec(env, store, query, count); var res := env.sv.search(query, count);
      SearchHit(env, store, query).None? && res.Failure? ==>
        r == (ToolOut("Search failed: " + res.error, false), store)
    ensures var r := SearchSpec(env, store, query, count); var res := env.sv.search(query, count);
      SearchHit(env, store, query).None? && res.Success? ==>
        (r.0.success <==> res.value != [])
        && LookupIn(r.1, MakeKey(env.digest, SEARCH, query), env.now) == Some(StoredResults(res.value))
  {
  }

  /**
   * A successful search is cached: repeating it at the same time, with any
   * count and any search service, gives the same answer and store.
   */
  lemma SearchRepeatServedFromCache(env: Env, store: NoteStore, query: string, count: int, count2: int, sv2: Services)
    ensures var r := SearchSpec(env, store, query, count);
      r.0.success ==> SearchSpec(env.(sv := sv2), r.1, query, count2) == r
  {
    var r := SearchSpec(env, store, query, count);
    if r.0.success && SearchHit(env, store, query).None? {
      var res := env.sv.search(query, count);
      assert res.Success? && res.value != [];
      assert SearchHit(env.(sv := sv2), r.1, query) == Some(res.value);
    }
  }

  // ---------------------------------------------------------------------------
  // run_tool_call

  /** Python's `int(x)` on a decoded value. */
  function PyIntOf(lib: Lib, j: Json): Option<int>
  {
    match j
    case JInt(i) => Some(i)
    case JBool(b) => Some(if b then 1 else 0)
    case _ => lib.pyInt(j)
  }

  /** `int(args.get("count", 5) or 5)`; None is the error `int` raises. */
  function CountOf(lib: Lib, args: Json): (r: Option<int>)
    requires args.JObj?
    ensures !args.GetOr("count", JInt(5)).Truthy() ==> r == Some(5)
    ensures args.GetOr("count", JInt(5)).JInt? && args.GetOr("count", JInt(5)).Truthy() ==> r == Some(args.GetOr("count", JInt(5)).i)
  {
    PyIntOf(lib, JOr(args.GetOr("count", JInt(5)), JInt(5)))
  }

  /** The decoded arguments: a string that does not decode is `{}`, a falsy non-string is `{}`. */
  function ArgsOf(lib: Lib, raw: Json): Json
  {
    if raw.JStr? then (var d := lib.jsonLoads(raw.s); if d.Some? then d.value else JObj([]))
    else JOr(raw, JObj([]))
  }

  /** The dict returned for a tool the notebook does not run. */
  function UnknownTool(lib: Lib, name: Json): Json
  {
    JObj([("success", JBool(false)), ("content", JStr("Unknown tool: " + PyStr(lib, name))), ("name", name)])
  }

  /** `tool_call.get("function", {})`, or None when the call is not a dict. */
  function FunctionOf(tc: Json): Option<Json>
  {
    if tc.JObj? then Some(tc.GetOr("function", JObj([]))) else None
  }

  /**
   * `run_tool_call` and the store after it.  Getting a field of a value
   * that is not a dict, `int` of a bad count and the cache key of a
   * non-string query raise.
   */
  function ToolCallSpec(env: Env, store: NoteStore, tc: Json): (Call, NoteStore)
  {
    var fn := FunctionOf(tc);
    if fn.None? || !fn.value.JObj? then (Raised, store)
    else
      var name := fn.value.GetOr("name", JStr(""));
      var args := ArgsOf(env.lib, fn.value.GetOr("arguments", JStr("{}")));
      if name != JStr("search_web") then (Returned(UnknownTool(env.lib, name)), store)
      else if !args.JObj? then (Raised, store)
      else
        var query := args.GetOr("query", JStr(""));
        var count := CountOf(env.lib, args);
        if count.None? || !query.JStr? then (Raised, store)
        else
          var (o, store1) := SearchSpec(env, store, query.s, count.value);
          (Returned(o.AsJson()), store1)
  }

  method RunToolCall(lib: Lib, sv: Services, cache: Cache<NoteValue>, tc: Json, now: int) returns (r: Call)
    modifies cache
    ensures (r, cache.store) == ToolCallSpec(Env(lib, sv, cache.digest, now), old(cache.store), tc)
  {
    var fn := FunctionOf(tc);
    if fn.None? || !fn.value.JObj? {
      return Raised;
    }
    var name := fn.value.GetOr("name", JStr(""));
    var args := ArgsOf(lib, fn.value.GetOr("arguments", JStr("{}")));
    if name == JStr("search_web") {
      if !args.JObj? {
        return Raised;
      }
      var query := args.GetOr("query", JStr(""));
      var count := CountOf(lib, args);
      if count.None? || !query.JStr? {
        return Raised;
      }
      var o := ExecuteSearchWeb(lib, sv, cache, query.s, count.value, now);
      return Returned(o.AsJson());
    }
    r := Returned(UnknownTool(lib, name));
  }

  /**
   * Only `search_web` is dispatched: a call naming any other tool returns
   * "Unknown tool: <name>" with the name, and neither the cache nor any
   * service is involved.
   */
  lemma OnlySearchDispatched(env: Env, store: NoteStore, tc: Json, env2: Env)
    requires env2.lib == env.lib
    requires FunctionOf(tc).Some? && FunctionOf(tc).value.JObj?
    requires FunctionOf(tc).value.GetOr("name", JStr("")) != JStr("search_web")
    ensures var name := FunctionOf(tc).value.GetOr("name", JStr(""));
      ToolCallSpec(env, store, tc) == (Returned(UnknownTool(env.lib, name)), store)
      && ToolCallSpec(env2, store, tc) == ToolCallSpec(env, store, tc)
      && UnknownTool(env.lib, name).Get("content") == JStr("Unknown tool: " + PyStr(env.lib, name))
  {
    var name := FunctionOf(tc).value.GetOr("name", JStr(""));
    GetSecond(UnknownTool(env.lib, name).fields, "content");
  }

  /** A `search_web` call whose argument string does not decode searches for "" with count 5. */
  lemma MalformedArgumentsSearchEmpty(env: Env, store: NoteStore, tc: Json)
    requires FunctionOf(tc).Some? && FunctionOf(tc).value.JObj?
    requires FunctionOf(tc).value.GetOr("name", JStr("")) == JStr("search_web")
    requires FunctionOf(tc).value.GetOr("arguments", JStr("{}")).JStr?
    requires env.lib.jsonLoads(FunctionOf(tc).value.GetOr("arguments", JStr("{}")).s).None?
    ensures var r := SearchSpec(env, store, "", 5); ToolCallSpec(env, store, tc) == (Returned(r.0.AsJson()), r.1)
  {
    var args := ArgsOf(env.lib, FunctionOf(tc).value.GetOr("arguments", JStr("{}")));
    assert args == JObj([]);
    assert args.GetOr("query", JStr("")) == JStr("");
    assert CountOf(env.lib, args) == Some(5);
  }

  // ---------------------------------------------------------------------------
  // execute_fetch_url

  datatype FetchOut =
    | FetchFailed(content: string)
    | NotFound(content: string, url: string, status: int)
    | StatusFailed(content: string, url: string, status: int, error: Json)
    | FetchOk(content: string, url: string, canonicalUrl: Option<string>, title: string, links: seq<string>)

  /** The listing of a page's links: a heading, the first ten numbered, and a count of the rest. */
  function LinkLines(links: seq<string>): (r: seq<string>)
    ensures links == [] ==> r == []
    ensures links != [] ==>
      |r| == 1 + (if |links| > 10 then 11 else |links|)
      && r[0] == "\n\nFound " + NatToString(|links|) + " links on this page:\n"
      && (forall i :: 0 <= i < |links| && i < 10 ==> r[i + 1] == AT.NumberedLine(i + 1, links[i]))
      && (|links| > 10 ==> r[11] == "... and " + NatToString(|links| - 10) + " more\n")
  {
    if links == [] then []
    else
      ["\n\nFound " + NatToString(|links|) + " links on this page:\n"] + AT.NumberedSeq(SliceTo(links, 10))
      + (if |links| > 10 then ["... and " + NatToString(|links| - 10) + " more\n"] else [])
  }

  /**
   * The fetch dict the tool works on and the store after it: a live cache
   * entry, else a fresh fetch; a fresh dict with html gets its text
   * extracted and is cached.
   */
  function PageRecord(env: Env, store: NoteStore, url: string): (FetchRecord, NoteStore)
  {
    var key := MakeKey(env.digest, FETCH, url);
    var hit := LookupIn(store, key, env.now);
    if hit.Some? && hit.value.StoredFetch? then (hit.value.record, store)
    else
      var f := env.sv.fetch(url);
      if f.html != "" then
        var g := f.(text := Some(ExtractText(env.lib, f.html, None)));
        (g, store[key := Entry(StoredFetch(g), env.now + FETCH_CACHE_TTL)])
      else (f, store)
  }

  datatype FetchRun = FetchRun(out: FetchOut, fetched: set<string>, store: NoteStore)

  /** The final URL of a dict: its `final_url`, else the requested one. */
  function FinalOf(f: FetchRecord, url: string): string
  {
    if f.finalUrl.Some? then f.finalUrl.value else url
  }

  /** `execute_fetch_url`, the caller's fetched set and the store after it. */
  function FetchSpec(env: Env, store: NoteStore, fetched: set<string>, url: string, maxPages: int): FetchRun
  {
    if url == "" then FetchRun(FetchFailed("No URL provided"), fetched, store)
    else if |fetched| >= maxPages then FetchRun(FetchFailed(AT.Budget(maxPages, "fetch")), fetched, store)
    else
      var (f, store1) := PageRecord(env, store, url);
      var out := Answer(env.lib, url, f);
      FetchRun(out, if out.FetchOk? then fetched + {out.url} else fetched, store1)
  }

  /** The answer for a fetched dict: 404, another non-200 status, or the page's text and links. */
  function Answer(lib: Lib, url: string, f: FetchRecord): (out: FetchOut)
    ensures out.FetchOk? <==> f.status == 200
    ensures out.NotFound? <==> f.status == 404
    ensures !out.FetchFailed?
    ensures out.url == FinalOf(f, url)
    ensures out.FetchOk? ==> out.links == f.extractedLinks && out.canonicalUrl == f.canonicalUrl && out.title == OrEmpty(f.title)
  {
    var finalUrl := FinalOf(f, url);
    if f.status == 404 then NotFound("Fetched " + url + " returned 404 (not found).", finalUrl, f.status)
    else if f.status != 200 then
      var err := if f.error.Some? then f.error.value else JStr("Unknown error");
      StatusFailed("Fetched " + url + " returned status " + IntToString(f.status)
                   + " (error: " + PyStr(lib, err) + ").", finalUrl, f.status, err)
    else FetchOk(OkContent(lib, url, f), finalUrl, f.canonicalUrl, OrEmpty(f.title), f.extractedLinks)
  }

  /** The success content: the page text, then the listing of its links. */
  function OkContent(lib: Lib, url: string, f: FetchRecord): string
  {
    var text := if f.text.Some? then f.text.value else ExtractText(lib, f.html, None);
    "Fetched " + url + ":\n\n" + text + AT.Concat(LinkLines(f.extractedLinks))
  }

  /** The set of URLs a caller passes to `execute_fetch_url`, which adds to it. */
  class FetchedUrls {
    var urls: set<string>

    constructor()
      ensures urls == {}
    {
      urls := {};
    }
  }

  /** The fetch dict from the cache, else from the client, caching a dict with html. */
  method ObtainPage(lib: Lib, sv: Services, cache: Cache<NoteValue>, url: string, now: int) returns (f: FetchRecord)
    modifies cache
    ensures (f, cache.store) == PageRecord(Env(lib, sv, cache.digest, now), old(cache.store), url)
  {
    ghost var env, store0 := Env(lib, sv, cache.digest, now), cache.store;
    ghost var key := MakeKey(cache.digest, FETCH, url);
    var cached := cache.GetFetch(url, now);
    assert cached == LookupIn(store0, key, now);
    if cached.Some? && cached.value.StoredFetch? {
      f := cached.value.record;
      assert (f, cache.store) == PageRecord(env, store0, url);
    } else {
      f := sv.fetch(url);
      if f.html != "" {
        f := f.(text := Some(ExtractText(lib, f.html, None)));
        cache.SetFetch(url, StoredFetch(f), now);
        assert (f, cache.store) == PageRecord(env, store0, url);
      }
    }
  }

  method ExecuteFetchUrl(lib: Lib, sv: Services, cache: Cache<NoteValue>, fetched: FetchedUrls,
                         url: string, maxPages: int, now: int) returns (r: FetchOut)
    modifies cache, fetched
    ensures FetchRun(r, fetched.urls, cache.store)
         == FetchSpec(Env(lib, sv, cache.digest, now), old(cache.store), old(fetched.urls), url, maxPages)
  {
    if url == "" {
      return FetchFailed("No URL provided");
    }
    if |fetched.urls| >= maxPages {
      return FetchFailed(AT.Budget(maxPages, "fetch"));
    }
    var f := ObtainPage(lib, sv, cache, url, now);
    r := Answer(lib, url, f);
    if r.FetchOk? {
      fetched.urls := fetched.urls + {r.url};
    }
  }

  /**
   * An empty URL or a spent budget fails at once: the answer, the fetched
   * set and the store are the same for every environment, so no cache
   * entry and no service is consulted.
   */
  lemma FetchGuardsBeforeIo(env: Env, store: NoteStore, fetched: set<string>, url: string, maxPages: int, env2: Env)
    requires url == "" || |fetched| >= maxPages
    ensures var r := FetchSpec(env, store, fetched, url, maxPages);
      r == FetchSpec(env2, store, fetched, url, maxPages)
      && r == FetchRun(FetchFailed(if url == "" then "No URL provided" else AT.Budget(maxPages, "fetch")), fetched, store)
  {
  }

  /**
   * Only a status-200 page is recorded, under its final URL; a 404 or any
   * other status fails and leaves the fetched set as it was.
   */
  lemma FetchRecordsOnlySuccess(env: Env, store: NoteStore, fetched: set<string>, url: string, maxPages: int)
    ensures var r := FetchSpec(env, store, fetched, url, maxPages);
      r.fetched == (if r.out.FetchOk? then fetched + {r.out.url} else fetched)
    ensures var r := FetchSpec(env, store, fetched, url, maxPages); var f := PageRecord(env, store, url).0;
      (r.out.FetchOk? <==> url != "" && |fetched| < maxPages && f.status == 200)
      && (r.out.NotFound? <==> url != "" && |fetched| < maxPages && f.status == 404)
      && (r.out.FetchOk? ==> r.out.url == FinalOf(f, url) && r.out.links == f.extractedLinks)
  {
    if url != "" && |fetched| < maxPages {
      var p := PageRecord(env, store, url);
      var out := Answer(env.lib, url, p.0);
      assert FetchSpec(env, store, fetched, url, maxPages) == FetchRun(out, if out.FetchOk? then fetched + {out.url} else fetched, p.1);
    }
  }

  /** A fetch never takes the fetched set past the budget. */
  lemma FetchKeepsBudget(env: Env, store: NoteStore, fetched: set<string>, url: string, maxPages: int)
    requires |fetched| <= maxPages
    ensures |FetchSpec(env, store, fetched, url, maxPages).fetched| <= maxPages
  {
    var r := FetchSpec(env, store, fetched, url, maxPages);
    if r.out.FetchOk? {
      var u := r.out.url;
      assert r.fetched == fetched + {u};
      if u !in fetched {
        assert |fetched + {u}| == |fetched| + 1;
      } else {
        assert fetched + {u} == fetched;
      }
    }
  }

  /** A successful fetch's content starts with the page text and lists at most ten of its links. */
  lemma FetchOkContent(env: Env, store: NoteStore, fetched: set<string>, url: string, maxPages: int)
    ensures var r := FetchSpec(env, store, fetched, url, maxPages);
      r.out.FetchOk? ==>
        var lines := LinkLines(r.out.links);
        |lines| <= 12
        && (exists text :: r.out.content == "Fetched " + url + ":\n\n" + text + AT.Concat(lines))
  {
    if url != "" && |fetched| < maxPages {
      var f := PageRecord(env, store, url).0;
      var out := Answer(env.lib, url, f);
      assert FetchSpec(env, store, fetched, url, maxPages).out == out;
      if out.FetchOk? {
        var text := if f.text.Some? then f.text.value else ExtractText(env.lib, f.html, None);
        assert out.content == "Fetched " + url + ":\n\n" + text + AT.Concat(LinkLines(out.links));
      }
    }
  }

  /**
   * A page without html is not cached; one with html is, and fetching the
   * same URL again at the same time is served from the cache, gives the
   * same dict and leaves the store as it is, whatever the fetch client
   * would now answer.
   */
  lemma PageRecordCached(env: Env, store: NoteStore, url: string, sv2: Services)
    ensures var (f, store1) := PageRecord(env, store, url);
      (f.html == "" && LookupIn(store, MakeKey(env.digest, FETCH, url), env.now).None? ==> store1 == store)
      && (f.html != "" ==> PageRecord(env.(sv := sv2), store1, url) == (f, store1))
  {
  }

  // ---------------------------------------------------------------------------
  // agent_chat_with_tools

  /** The value of the second key of a dict whose first key differs from it. */
  lemma GetSecond(fields: seq<(string, Json)>, key: string)
    requires |fields| >= 2 && fields[0].0 != key && fields[1].0 == key
    ensures FieldOf(fields, key) == fields[1].1
  {
    assert FieldOf(fields, key) == FieldOf(fields[1..], key);
  }

  /** The value of the third key of a dict whose first two keys differ from it. */
  lemma GetThird(fields: seq<(string, Json)>, key: string)
    requires |fields| >= 3 && fields[0].0 != key && fields[1].0 != key && fields[2].0 == key
    ensures FieldOf(fields, key) == fields[2].1
  {
    assert FieldOf(fields, key) == FieldOf(fields[1..], key);
    GetSecond(fields[1..], key);
  }

  /** `out.get("tool_calls") or []`. */
  function ToolCallsOf(out: Json): Json
    requires out.JObj?
  {
    JOr(out.Get("tool_calls"), JArr([]))
  }

  /** The assistant message appended for a reply: its content, and its tool calls only when there are any. */
  function AssistantJson(out: Json): Json
    requires out.JObj?
  {
    var calls := ToolCallsOf(out);
    var content := JOr(out.GetOr("content", JStr("")), JStr(""));
    if calls.Truthy() then JObj([("role", JStr("assistant")), ("content", content), ("tool_calls", calls)])
    else JObj([("role", JStr("assistant")), ("content", content)])
  }

  /**
   * The assistant message has the assistant role and the reply's content
   * (an empty string when it is falsy), and carries `tool_calls` iff the
   * reply has some.
   */
  lemma AssistantMessageFacts(out: Json)
    requires out.JObj?
    ensures var m := AssistantJson(out);
      m.FieldIs("role", "assistant")
      && m.Get("content") == JOr(out.GetOr("content", JStr("")), JStr(""))
      && (m.Has("tool_calls") <==> ToolCallsOf(out).Truthy())
      && (ToolCallsOf(out).Truthy() ==> m.Get("tool_calls") == ToolCallsOf(out))
  {
    var m := AssistantJson(out);
    GetSecond(m.fields, "content");
    if ToolCallsOf(out).Truthy() {
      GetThird(m.fields, "tool_calls");
      assert m.fields[2].0 == "tool_calls";
    } else {
      assert |m.fields| == 2;
    }
  }

  /** `tool_call.get("id")`. */
  function IdOf(tc: Json): Json
  {
    if tc.JObj? then tc.Get("id") else JNull
  }

  /** The tool message for a call and its result. */
  function ToolMessage(lib: Lib, tc: Json, result: Json): Json
  {
    JObj([("role", JStr("tool")), ("tool_call_id", IdOf(tc)), ("content", JStr(lib.jsonDumps(result)))])
  }

  ghost predicate ToolMessageFor(lib: Lib, m: Json, tc: Json)
  {
    exists result :: m == ToolMessage(lib, tc, result)
  }

  datatype ToolsRun = ToolsRun(ok: bool, messages: seq<Json>, store: NoteStore)

  /**
   * What runs one tool call: the chat loop is stated over any runner, and
   * the notebook's is `run_tool_call`.
   */
  type ToolRunner = (NoteStore, Json) -> (Call, NoteStore)

  /** The notebook's runner. */
  function RunnerOf(env: Env): (run: ToolRunner)
    ensures forall store, tc :: run(store, tc) == ToolCallSpec(env, store, tc)
  {
    (store: NoteStore, tc: Json) => ToolCallSpec(env, store, tc)
  }

  /** The tool calls of one round, in order, each appending its tool message, until one raises. */
  function ToolsFrom(lib: Lib, runner: ToolRunner, tcs: seq<Json>, msgs: seq<Json>, store: NoteStore): ToolsRun
    decreases |tcs|
  {
    if tcs == [] then ToolsRun(true, msgs, store)
    else
      var (call, store1) := runner(store, tcs[0]);
      if call.Raised? then ToolsRun(false, msgs, store1)
      else ToolsFrom(lib, runner, tcs[1..], msgs + [ToolMessage(lib, tcs[0], call.value)], store1)
  }

  datatype ChatRun = ChatRun(result: Call, messages: seq<Json>, store: NoteStore, calls: nat)

  /**
   * `agent_chat_with_tools` after `rounds` tool rounds: the result, the
   * messages, the store and the number of chat calls made from here on.
   */
  function ChatFrom(env: Env, runner: ToolRunner, tools: Json, maxRounds: int, msgs: seq<Json>, store: NoteStore, rounds: int): ChatRun
    decreases maxRounds - rounds, 1
  {
    var resp := env.sv.chat(msgs, tools);
    if resp.Failure? || !resp.value.JObj? then ChatRun(Raised, msgs, store, 1)
    else ChatAfter(env, runner, tools, maxRounds, msgs + [AssistantJson(resp.value)], store, rounds, resp.value)
  }

  /**
   * The loop after the reply `out` of a chat call has been appended: it is
   * returned when it has no tool calls or the round limit is passed;
   * otherwise its tool calls run and chat is called again.
   */
  function ChatAfter(env: Env, runner: ToolRunner, tools: Json, maxRounds: int, msgs: seq<Json>, store: NoteStore, rounds: int, out: Json): ChatRun
    requires out.JObj?
    decreases maxRounds - rounds, 0
  {
    var calls := ToolCallsOf(out);
    if !calls.Truthy() || rounds + 1 > maxRounds then ChatRun(Returned(out), msgs, store, 1)
    else if !calls.JArr? then ChatRun(Raised, msgs, store, 1)
    else
      var t := ToolsFrom(env.lib, runner, calls.items, msgs, store);
      if !t.ok then ChatRun(Raised, t.messages, t.store, 1)
      else
        var rest := ChatFrom(env, runner, tools, maxRounds, t.messages, t.store, rounds + 1);
        rest.(calls := rest.calls + 1)
  }

  /** The part of a run the caller sees. */
  function Final(run: ChatRun): (Call, seq<Json>, NoteStore)
  {
    (run.result, run.messages, run.store)
  }

  /** The caller's message list, which the chat loop appends to. */
  class Conversation {
    var messages: seq<Json>

    constructor(initial: seq<Json>)
      ensures messages == initial
    {
      messages := initial;
    }
  }

  method RunToolCalls(lib: Lib, sv: Services, cache: Cache<NoteValue>, conv: Conversation, tcs: seq<Json>, now: int)
    returns (ok: bool)
    modifies cache, conv
    ensures ToolsRun(ok, conv.messages, cache.store)
         == ToolsFrom(lib, RunnerOf(Env(lib, sv, cache.digest, now)), tcs, old(conv.messages), old(cache.store))
  {
    ghost var runner := RunnerOf(Env(lib, sv, cache.digest, now));
    ghost var goal := ToolsFrom(lib, runner, tcs, conv.messages, cache.store);
    var i := 0;
    while i < |tcs|
      invariant 0 <= i <= |tcs|
      invariant ToolsFrom(lib, runner, tcs[i..], conv.messages, cache.store) == goal
      decreases |tcs| - i
    {
      var r := RunToolCall(lib, sv, cache, tcs[i], now);
      if r.Raised? {
        return false;
      }
      conv.messages := conv.messages + [ToolMessage(lib, tcs[i], r.value)];
      assert tcs[i..][1..] == tcs[i + 1..];
      i := i + 1;
    }
    ok := true;
  }

  method AgentChatWithTools(lib: Lib, sv: Services, cache: Cache<NoteValue>, conv: Conversation,
                            tools: Json, maxToolRounds: int, now: int) returns (r: Call)
    modifies cache, conv
    ensures (r, conv.messages, cache.store)
         == Final(ChatFrom(Env(lib, sv, cache.digest, now), RunnerOf(Env(lib, sv, cache.digest, now)), tools, maxToolRounds, old(conv.messages), old(cache.store), 0))
  {
    var env := Env(lib, sv, cache.digest, now);
    ghost var runner := RunnerOf(env);
    ghost var goal := Final(ChatFrom(env, runner, tools, maxToolRounds, conv.messages, cache.store, 0));
    var rounds := 0;
    while true
      invariant Final(ChatFrom(env, runner, tools, maxToolRounds, conv.messages, cache.store, rounds)) == goal
      decreases maxToolRounds - rounds
    {
      var resp := sv.chat(conv.messages, tools);
      if resp.Failure? || !resp.value.JObj? {
        return Raised;
      }
      var out := resp.value;
      conv.messages := conv.messages + [AssistantJson(out)];
      var calls := ToolCallsOf(out);
      if !calls.Truthy() {
        return Returned(out);
      }
      rounds := rounds + 1;
      if rounds > maxToolRounds {
        return Returned(out);
      }
      if !calls.JArr? {
        return Raised;
      }
      var ok := RunToolCalls(lib, sv, cache, conv, calls.items, now);
      if !ok {
        return Raised;
      }
    }
  }

  /**
   * Each executed tool call appends exactly one tool message, in the order
   * of the calls, carrying the call's id and the dumped result; the
   * messages before are kept, and all calls run unless one raises.
   */
  lemma {:induction false} ToolMessagesInOrder(lib: Lib, runner: ToolRunner, tcs: seq<Json>, msgs: seq<Json>, store: NoteStore)
    ensures var run := ToolsFrom(lib, runner, tcs, msgs, store);
      |msgs| <= |run.messages| <= |msgs| + |tcs| && run.messages[..|msgs|] == msgs
      && (run.ok ==> |run.messages| == |msgs| + |tcs|)
      && forall i :: 0 <= i < |run.messages| - |msgs| ==> ToolMessageFor(lib, run.messages[|msgs| + i], tcs[i])
    decreases |tcs|
  {
    if tcs != [] {
      var (call, store1) := runner(store, tcs[0]);
      if call.Returned? {
        var m := ToolMessage(lib, tcs[0], call.value);
        var msgs1 := msgs + [m];
        ToolMessagesInOrder(lib, runner, tcs[1..], msgs1, store1);
        var run := ToolsFrom(lib, runner, tcs, msgs, store);
        assert run == ToolsFrom(lib, runner, tcs[1..], msgs1, store1);
        assert run.messages[..|msgs1|] == msgs1;
        assert run.messages[..|msgs|] == msgs1[..|msgs|] == msgs;
        forall i | 0 <= i < |run.messages| - |msgs|
          ensures ToolMessageFor(lib, run.messages[|msgs| + i], tcs[i])
        {
          if i == 0 {
            assert run.messages[|msgs|] == msgs1[|msgs|] == m;
          } else {
            assert run.messages[|msgs1| + (i - 1)] == run.messages[|msgs| + i];
            assert tcs[1..][i - 1] == tcs[i];
          }
        }
      }
    }
  }

  /** The cap on remaining chat calls after `rounds` tool rounds. */
  function CallCap(maxRounds: int, rounds: int): nat
  {
    (if maxRounds - rounds > 0 then maxRounds - rounds else 0) + 1
  }

  /** Chat was called between once and the cap, and the messages before the call are kept. */
  predicate CallsBounded(run: ChatRun, msgs: seq<Json>, maxRounds: int, rounds: int)
  {
    1 <= run.calls <= CallCap(maxRounds, rounds) && |msgs| <= |run.messages| && run.messages[..|msgs|] == msgs
  }

  /**
   * A returned reply is the last message appended, as its assistant
   * message; it has no tool calls unless the round limit stopped the loop,
   * in which case chat was called the full number of times.
   */
  predicate EndsWithReply(run: ChatRun, maxRounds: int, rounds: int)
  {
    run.result.Returned? ==>
      run.result.value.JObj? && |run.messages| > 0
      && run.messages[|run.messages| - 1] == AssistantJson(run.result.value)
      && (ToolCallsOf(run.result.value).Truthy() ==> run.calls == CallCap(maxRounds, rounds))
  }

  /**
   * Chat is called at least once and at most `max(max_tool_rounds, 0) + 1`
   * times from the start; the messages before the call are kept.
   */
  lemma {:induction false} ChatCallsBounded(env: Env, runner: ToolRunner, tools: Json, maxRounds: int, msgs: seq<Json>, store: NoteStore, rounds: int)
    ensures CallsBounded(ChatFrom(env, runner, tools, maxRounds, msgs, store, rounds), msgs, maxRounds, rounds)
    decreases maxRounds - rounds, 1
  {
    var resp := env.sv.chat(msgs, tools);
    if resp.Success? && resp.value.JObj? {
      var msgs1 := msgs + [AssistantJson(resp.value)];
      AfterCallsBounded(env, runner, tools, maxRounds, msgs1, store, rounds, resp.value);
      var run := ChatFrom(env, runner, tools, maxRounds, msgs, store, rounds);
      assert run.messages[..|msgs|] == run.messages[..|msgs1|][..|msgs|];
    }
  }

  /** The same bound once a reply has been appended. */
  lemma {:induction false} AfterCallsBounded(env: Env, runner: ToolRunner, tools: Json, maxRounds: int, msgs: seq<Json>, store: NoteStore, rounds: int, out: Json)
    requires out.JObj?
    ensures CallsBounded(ChatAfter(env, runner, tools, maxRounds, msgs, store, rounds, out), msgs, maxRounds, rounds)
    decreases maxRounds - rounds, 0
  {
    var calls := ToolCallsOf(out);
    if calls.Truthy() && rounds + 1 <= maxRounds && calls.JArr? {
      var t := ToolsFrom(env.lib, runner, calls.items, msgs, store);
      ToolMessagesInOrder(env.lib, runner, calls.items, msgs, store);
      if t.ok {
        ChatCallsBounded(env, runner, tools, maxRounds, t.messages, t.store, rounds + 1);
        var rest := ChatFrom(env, runner, tools, maxRounds, t.messages, t.store, rounds + 1);
        assert rest.messages[..|msgs|] == rest.messages[..|t.messages|][..|msgs|];
      }
    }
  }

  /**
   * The loop returns the last reply it received, which is also the last
   * message; a reply that still has tool calls is returned only once the
   * round limit is reached.
   */
  lemma {:induction false} ChatReturnsLastReply(env: Env, runner: ToolRunner, tools: Json, maxRounds: int, msgs: seq<Json>, store: NoteStore, rounds: int)
    ensures EndsWithReply(ChatFrom(env, runner, tools, maxRounds, msgs, store, rounds), maxRounds, rounds)
    decreases maxRounds - rounds, 1
  {
    var resp := env.sv.chat(msgs, tools);
    if resp.Success? && resp.value.JObj? {
      AfterReturnsLastReply(env, runner, tools, maxRounds, msgs + [AssistantJson(resp.value)], store, rounds, resp.value);
    }
  }

  /** The same once the reply `out` has been appended as the last message. */
  lemma {:induction false} AfterReturnsLastReply(env: Env, runner: ToolRunner, tools: Json, maxRounds: int, msgs: seq<Json>, store: NoteStore, rounds: int, out: Json)
    requires out.JObj? && |msgs| > 0 && msgs[|msgs| - 1] == AssistantJson(out)
    ensures EndsWithReply(ChatAfter(env, runner, tools, maxRounds, msgs, store, rounds, out), maxRounds, rounds)
    decreases maxRounds - rounds, 0
  {
    var calls := ToolCallsOf(out);
    if calls.Truthy() && rounds + 1 <= maxRounds && calls.JArr? {
      var t := ToolsFrom(env.lib, runner, calls.items, msgs, store);
      if t.ok {
        var rest := ChatFrom(env, runner, tools, maxRounds, t.messages, t.store, rounds + 1);
        ChatReturnsLastReply(env, runner, tools, maxRounds, t.messages, t.store, rounds + 1);
        assert ChatAfter(env, runner, tools, maxRounds, msgs, store, rounds, out) == rest.(calls := rest.calls + 1);
        RoundEndsWithReply(rest, maxRounds, rounds);
      }
    }
  }

  /** One more chat call before a run that ends with its reply. */
  lemma RoundEndsWithReply(rest: ChatRun, maxRounds: int, rounds: int)
    requires rounds + 1 <= maxRounds && EndsWithReply(rest, maxRounds, rounds + 1)
    ensures EndsWithReply(rest.(calls := rest.calls + 1), maxRounds, rounds)
  {
  }
}
