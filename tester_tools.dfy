/**
 * The standalone tester's tools and phase-3 bookkeeping: the `fetch_url`,
 * `render_url` and `build_url` branches of `AgentTester._execute_tool`,
 * the phase-3A search queries, the recording of Brave results and the
 * phase-3B filter of the model's listing URLs.
 *
 * The HTTP client, the headless browser, the Brave client and the HTML
 * parser are the `TesterWorld`; the model's replies enter as their text.
 */
module TesterTools {
  import opened Strings
  import opened Values
  import opened Foreign
  import opened AgentRecords
  import opened TesterUrls
  import opened TesterState
  import opened JsonScan

  datatype TesterWorld = TesterWorld(
    /** `FetchClient.fetch(url)`. */
    fetch: string -> PageResult,
    /** `PlaywrightClient.fetch(url, wait_ms=1500, wait_until="load")`. */
    render: string -> PageResult,
    /** `BraveClient.search(query, count=n)`; a Failure carries the exception's text. */
    search: (Json, int) -> Result<seq<SearchResult>>,
    /** The page text with heavy tags and comments removed and whitespace runs collapsed. */
    cleanText: string -> string,
    /** The `<a href>` elements of a page, each with its ancestors. */
    anchors: string -> seq<RichAnchor>,
    /** The `href` of the page's `<link rel="canonical">`, if it has one. */
    canonicalHref: string -> Option<string>,
    /** `str(e)` of the AttributeError raised by `.items()` on a value that is not a dict. */
    attrError: Json -> string,
    /** `str(e)` of what `len(v)` raises on a value without length, or `v[:6]` on a dict. */
    queriesError: Json -> string)

  /** `html_to_text_clean`: "" for an empty page, else the cleaned text, stripped. */
  function HtmlToTextClean(w: TesterWorld, html: string): (r: string)
    ensures html == "" ==> r == ""
    ensures Strip(r) == r
  {
    if html == "" then "" else StripIdempotent(w.cleanText(html)); Strip(w.cleanText(html))
  }

  // ---------------------------------------------------------------------------
  // fetch_url and render_url

  /** What a successful fetch or render reports. */
  datatype PageView = PageView(
    url: string,
    status: int,
    title: string,
    canonicalUrl: Option<string>,
    html: string,
    textExcerpt: string,
    linksRich: seq<RichLink>,
    content: string)

  datatype PageOut =
    | NoUrl
    | NotLoaded(url: string, status: Option<int>, error: Option<Json>, content: string)
    | Loaded(view: PageView)
  {
    predicate Success()
    {
      Loaded?
    }

    function Content(): string
    {
      match this
      case NoUrl => "No URL provided"
      case NotLoaded(_, _, _, c) => c
      case Loaded(v) => v.content
    }
  }

  /** `result.get("final_url", url)`. */
  function FinalUrlOf(r: PageResult, url: string): string
  {
    if r.finalUrl.Some? then r.finalUrl.value else url
  }

  /** The report on a loaded page: its text cut to 3000 characters and its first 100 rich links. */
  function ViewOf(lib: Lib, w: TesterWorld, verb: string, url: string, finalUrl: string, status: int,
                  title: string, canonicalUrl: Option<string>, html: string): (v: PageView)
    ensures v.url == finalUrl && v.html == html && v.status == status
    ensures var text := HtmlToTextClean(w, html);
      |v.textExcerpt| <= 3000 && |v.textExcerpt| <= |text| && v.textExcerpt == text[..|v.textExcerpt|]
      && (|text| <= 3000 ==> v.textExcerpt == text)
    ensures v.linksRich == SliceTo(LinksRich(lib, html, finalUrl, w.anchors(html)), 100)
  {
    var links := LinksRich(lib, html, finalUrl, w.anchors(html));
    PageView(finalUrl, status, title, canonicalUrl, html, SliceTo(HtmlToTextClean(w, html), 3000), SliceTo(links, 100),
             verb + " " + url + ". Found " + NatToString(|links|) + " links. Check links_rich for navigation/category links.")
  }

  /** The `fetch_url` branch. */
  function FetchOutcome(lib: Lib, w: TesterWorld, url: string): PageOut
  {
    if url == "" then NoUrl
    else
      var r := w.fetch(url);
      var finalUrl := FinalUrlOf(r, url);
      if r.status != 200 then
        NotLoaded(finalUrl, Some(r.status), Some(if r.error.Some? then r.error.value else JStr("Unknown error")),
                  "Fetched " + url + " returned status " + IntToString(r.status) + ". Try render_url if this is a JavaScript-heavy page.")
      else
        Loaded(ViewOf(lib, w, "Fetched", url, finalUrl, r.status, if r.title.Some? then r.title.value else "", r.Canonical(), r.html))
  }

  /** The canonical URL of a rendered page: its `<link rel="canonical">` resolved against the final URL. */
  function CanonicalOf(lib: Lib, w: TesterWorld, finalUrl: string, html: string): (c: Option<string>)
    ensures c.Some? <==> w.canonicalHref(html).Some? && w.canonicalHref(html).value != ""
    ensures c.Some? ==> c.value == lib.urljoin(finalUrl, w.canonicalHref(html).value)
  {
    var h := w.canonicalHref(html);
    if h.Some? && h.value != "" then Some(lib.urljoin(finalUrl, h.value)) else None
  }

  /** The `render_url` branch. */
  function RenderOutcome(lib: Lib, w: TesterWorld, url: string): PageOut
  {
    if url == "" then NoUrl
    else
      var r := w.render(url);
      if r.html == "" then
        NotLoaded(url, None, None, "Failed to render " + url + ". Page may be blocked or timeout occurred.")
      else
        var finalUrl := FinalUrlOf(r, url);
        Loaded(ViewOf(lib, w, "Rendered", url, finalUrl, r.status, if r.title.Some? then r.title.value else "",
                      CanonicalOf(lib, w, finalUrl, r.html), r.html))
  }

  /** A loaded page's normalized final URL joins `visited`; a failure leaves it alone. */
  function VisitedAfter(lib: Lib, visited: set<string>, out: PageOut): set<string>
  {
    if out.Loaded? then visited + {NormalizeUrl(lib, out.view.url)} else visited
  }

  /**
   * A fetch succeeds iff a URL was given and the status is 200; a failed
   * one reports the final URL, the status and the error, "Unknown error"
   * when there is none.
   */
  lemma FetchSucceedsIff(lib: Lib, w: TesterWorld, url: string)
    ensures FetchOutcome(lib, w, url).Success() <==> url != "" && w.fetch(url).status == 200
    ensures var out := FetchOutcome(lib, w, url); out.NotLoaded? ==>
      out.url == FinalUrlOf(w.fetch(url), url) && out.status == Some(w.fetch(url).status)
      && out.error == Some(if w.fetch(url).error.None? then JStr("Unknown error") else w.fetch(url).error.value)
    ensures var out := FetchOutcome(lib, w, url); out.Loaded? ==>
      out.view.url == FinalUrlOf(w.fetch(url), url) && out.view.html == w.fetch(url).html
      && out.view.canonicalUrl == w.fetch(url).Canonical()
  {
  }

  /** A render succeeds iff a URL was given and the page came back with HTML. */
  lemma RenderSucceedsIff(lib: Lib, w: TesterWorld, url: string)
    ensures RenderOutcome(lib, w, url).Success() <==> url != "" && w.render(url).html != ""
    ensures var out := RenderOutcome(lib, w, url); out.NotLoaded? ==> out.url == url
    ensures var out := RenderOutcome(lib, w, url); out.Loaded? ==>
      var final := FinalUrlOf(w.render(url), url);
      out.view.url == final && out.view.canonicalUrl == CanonicalOf(lib, w, final, w.render(url).html)
  {
  }

  /** The links a loaded page reports are at most 100, distinct, with texts of at most 200 characters. */
  lemma ViewLinksFacts(lib: Lib, w: TesterWorld, verb: string, url: string, finalUrl: string, status: int,
                       title: string, canonicalUrl: Option<string>, html: string)
    ensures var links := ViewOf(lib, w, verb, url, finalUrl, status, title, canonicalUrl, html).linksRich;
      |links| <= 100
      && (forall i, j :: 0 <= i < j < |links| ==> links[i].url != links[j].url)
      && (forall l :: l in links ==> |l.text| <= 200)
  {
    var all := LinksRich(lib, html, finalUrl, w.anchors(html));
    LinksRichFacts(lib, html, finalUrl, w.anchors(html));
    var links := ViewOf(lib, w, verb, url, finalUrl, status, title, canonicalUrl, html).linksRich;
    assert forall i :: 0 <= i < |links| ==> links[i] == all[i];
  }

  // ---------------------------------------------------------------------------
  // build_url

  /** The pairs one parameter contributes: one per element of a list value, in order, else one. */
  function ValuePairs(lib: Lib, key: string, value: Json): (ps: seq<(string, string)>)
    ensures value.JArr? ==> |ps| == |value.items| && forall i :: 0 <= i < |ps| ==> ps[i] == (key, PyStr(lib, value.items[i]))
    ensures !value.JArr? ==> ps == [(key, PyStr(lib, value))]
  {
    if value.JArr? then seq(|value.items|, i requires 0 <= i < |value.items| => (key, PyStr(lib, value.items[i])))
    else [(key, PyStr(lib, value))]
  }

  /** `param_list`: the pairs of every parameter, in the dict's order. */
  function ParamList(lib: Lib, fields: seq<(string, Json)>): seq<(string, string)>
  {
    if |fields| == 0 then [] else ParamList(lib, fields[..|fields| - 1]) + ValuePairs(lib, fields[|fields| - 1].0, fields[|fields| - 1].1)
  }

  /** The pair list of two parameter runs is the pair lists of each, one after the other. */
  lemma {:induction false} ParamListAppend(lib: Lib, a: seq<(string, Json)>, b: seq<(string, Json)>)
    ensures ParamList(lib, a + b) == ParamList(lib, a) + ParamList(lib, b)
    decreases |b|
  {
    if |b| == 0 {
      assert a + b == a;
    } else {
      var b', last := b[..|b| - 1], b[|b| - 1];
      var pairs := ValuePairs(lib, last.0, last.1);
      assert (a + b)[..|a + b| - 1] == a + b';
      assert (a + b)[|a + b| - 1] == last;
      ParamListAppend(lib, a, b');
      calc {
        ParamList(lib, a + b);
        ParamList(lib, a + b') + pairs;
        ParamList(lib, a) + ParamList(lib, b') + pairs;
        ParamList(lib, a) + (ParamList(lib, b') + pairs);
        ParamList(lib, a) + ParamList(lib, b);
      }
    }
  }

  /** Every pair comes from a parameter, with the parameter's key. */
  lemma {:induction false} ParamListKeys(lib: Lib, fields: seq<(string, Json)>)
    ensures forall p :: p in ParamList(lib, fields) ==> exists i :: 0 <= i < |fields| && fields[i].0 == p.0
  {
    if |fields| > 0 {
      var init := fields[..|fields| - 1];
      ParamListKeys(lib, init);
      forall p | p in ParamList(lib, fields) ensures exists i :: 0 <= i < |fields| && fields[i].0 == p.0 {
        if p in ParamList(lib, init) {
          var i :| 0 <= i < |init| && init[i].0 == p.0;
          assert fields[i] == init[i];
        } else {
          assert p in ValuePairs(lib, fields[|fields| - 1].0, fields[|fields| - 1].1);
        }
      }
    }
  }

  /** The combined query: the new one appended to an existing one with "&". */
  function JoinQuery(existing: string, added: string): (q: string)
    ensures added == "" ==> q == existing
    ensures added != "" ==> EndsWith(q, added)
    ensures existing != "" ==> StartsWith(q, existing)
    ensures existing != "" && added != "" ==> |q| == |existing| + 1 + |added| && q[|existing|] == '&'
  {
    if added != "" then (if existing != "" then existing + "&" + added else added) else existing
  }

  datatype BuildOut = NoBase | BuildFailed(content: string) | Built(url: string, baseUrl: string, params: Json)

  /** The URL before normalization: the base's components, the combined query and no fragment. */
  function BuiltParts(lib: Lib, baseUrl: string, fields: seq<(string, Json)>): (u: Url)
    ensures var b := lib.urlparse(baseUrl);
      u.scheme == b.scheme && u.netloc == b.netloc && u.path == b.path && u.params == b.params && u.fragment == ""
    ensures u.query == JoinQuery(lib.urlparse(baseUrl).query, lib.urlencode(ParamList(lib, fields)))
  {
    var b := lib.urlparse(baseUrl);
    Url(b.scheme, b.netloc, b.path, b.params, JoinQuery(b.query, lib.urlencode(ParamList(lib, fields))), "")
  }

  /** The `build_url` branch. */
  function BuildOutcome(lib: Lib, w: TesterWorld, baseUrl: string, params: Json): BuildOut
  {
    if baseUrl == "" then NoBase
    else if !params.JObj? then BuildFailed("Failed to build URL: " + w.attrError(params))
    else if lib.urlparseError(baseUrl).Some? then BuildFailed("Failed to build URL: " + lib.urlparseError(baseUrl).value)
    else Built(NormalizeUrl(lib, lib.urlunparse(BuiltParts(lib, baseUrl, params.fields))), baseUrl, params)
  }

  /**
   * `build_url` fails iff the base URL is empty, the parameters are not a
   * dict or `urlparse` raises on the base URL, whose error text the answer
   * then carries; a built URL is the normalized form of the base with the
   * query extended and the fragment dropped.
   */
  lemma BuildSucceedsIff(lib: Lib, w: TesterWorld, baseUrl: string, params: Json)
    ensures BuildOutcome(lib, w, baseUrl, params).Built? <==>
      baseUrl != "" && params.JObj? && lib.urlparseError(baseUrl).None?
    ensures BuildOutcome(lib, w, baseUrl, params).NoBase? <==> baseUrl == ""
    ensures baseUrl != "" && params.JObj? && lib.urlparseError(baseUrl).Some? ==>
      BuildOutcome(lib, w, baseUrl, params) == BuildFailed("Failed to build URL: " + lib.urlparseError(baseUrl).value)
    ensures var out := BuildOutcome(lib, w, baseUrl, params); out.Built? ==>
      out.baseUrl == baseUrl && out.params == params
      && out.url == NormalizeUrl(lib, lib.urlunparse(BuiltParts(lib, baseUrl, params.fields)))
  {
  }

  // ---------------------------------------------------------------------------
  // Phase 3A: the Brave queries

  const EXCLUDED_KEYS: set<string> := {"url", "title", "key_attributes", "keywords", "product_type"}

  /** `[str(v) for v in value if v]`. */
  function TruthyStrs(lib: Lib, items: seq<Json>): (r: seq<string>)
    ensures |r| <= |items|
  {
    if |items| == 0 then []
    else TruthyStrs(lib, items[..|items| - 1]) + (if items[|items| - 1].Truthy() then [PyStr(lib, items[|items| - 1])] else [])
  }

  /** What one reference value adds to the attributes: a non-blank string, or a list's truthy elements. */
  function ValueAttrs(lib: Lib, value: Json): seq<string>
  {
    if value.JStr? then (if Strip(value.s) != "" then [value.s] else [])
    else if value.JArr? then TruthyStrs(lib, value.items)
    else []
  }

  /** The attributes of the reference, its metadata keys excluded, in the dict's order. */
  function Attributes(lib: Lib, fields: seq<(string, Json)>): seq<string>
  {
    if |fields| == 0 then []
    else
      var (k, v) := fields[|fields| - 1];
      Attributes(lib, fields[..|fields| - 1]) + (if k !in EXCLUDED_KEYS then ValueAttrs(lib, v) else [])
  }

  /** An attribute comes from a reference value whose key is not a metadata key. */
  lemma {:induction false} AttributesFromData(lib: Lib, fields: seq<(string, Json)>)
    ensures forall a :: a in Attributes(lib, fields) ==>
      exists i :: 0 <= i < |fields| && fields[i].0 !in EXCLUDED_KEYS && a in ValueAttrs(lib, fields[i].1)
  {
    if |fields| > 0 {
      var init := fields[..|fields| - 1];
      AttributesFromData(lib, init);
      forall a | a in Attributes(lib, fields)
        ensures exists i :: 0 <= i < |fields| && fields[i].0 !in EXCLUDED_KEYS && a in ValueAttrs(lib, fields[i].1)
      {
        if a in Attributes(lib, init) {
          var i :| 0 <= i < |init| && init[i].0 !in EXCLUDED_KEYS && a in ValueAttrs(lib, init[i].1);
          assert fields[i] == init[i];
        } else {
          assert fields[|fields| - 1].0 !in EXCLUDED_KEYS;
        }
      }
    }
  }

  /** The fallback queries: three when there are attributes, else two, all scoped to the site. */
  function FallbackQueries(domain: string, attrs: seq<string>): (qs: seq<Json>)
    ensures |qs| == (if attrs == [] then 2 else 3)
    ensures forall q :: q in qs ==> q.JStr? && StartsWith(q.s, "site:" + domain + " ")
  {
    var site := "site:" + domain + " ";
    if attrs != [] then [JStr(site + Join(SliceTo(attrs, 3), " ")), JStr(site + attrs[0]), JStr(site + "catalog")]
    else [JStr(site + "search"), JStr(site + "catalog")]
  }

  /**
   * The value under `key` of the first JSON object in the model's reply
   * (the scan as written), when that object is truthy and its action is
   * `action`; `[]` when the key is missing or there is no such object.
   */
  function ReplyValue(lib: Lib, content: string, action: string, key: string): (v: Json)
    ensures v != JArr([]) ==> var parsed := FirstJsonObject(lib, content);
      parsed.Some? && parsed.value.FieldIs("action", action) && parsed.value.Get(key) == v
  {
    var parsed := FirstJsonObject(lib, content);
    if parsed.Some? && parsed.value.JObj? && parsed.value.Truthy() && parsed.value.Get("action") == JStr(action) then
      parsed.value.GetOr(key, JArr([]))
    else JArr([])
  }

  /** The distinct keys of a decoded dict. */
  function KeysOf(fields: seq<(string, Json)>): set<string>
  {
    set p | p in fields :: p.0
  }

  /**
   * Python's `len(v)`: the items of a list, the characters of a string, the
   * keys of a dict; None where `len` raises TypeError (None, a bool, a
   * number).
   */
  function PyLen(v: Json): (n: Option<nat>)
    ensures n.None? <==> !(v.JArr? || v.JStr? || v.JObj?)
    ensures v.JArr? ==> n == Some(|v.items|)
    ensures v.JStr? ==> n == Some(|v.s|)
  {
    match v
    case JArr(items) => Some(|items|)
    case JStr(s) => Some(|s|)
    case JObj(fields) => Some(|KeysOf(fields)|)
    case _ => None
  }

  /**
   * What iterating the value gives: a list's items, or a string's
   * characters, each a one-character query.
   */
  function QueryItems(v: Json): (qs: seq<Json>)
    ensures v.JArr? ==> qs == v.items
    ensures v.JStr? ==> |qs| == |v.s| && forall i :: 0 <= i < |v.s| ==> qs[i] == JStr([v.s[i]])
  {
    if v.JArr? then v.items
    else if v.JStr? then seq(|v.s|, i requires 0 <= i < |v.s| => JStr([v.s[i]]))
    else []
  }

  /**
   * Phase 3A: the model's `candidate_queries` capped at six when `len`
   * gives three or more, else the fallback; `len` of a value without one,
   * `[:6]` of a dict and `.items()` of a reference that is not a dict raise.
   */
  function QueriesOf(lib: Lib, w: TesterWorld, content: string, reference: Json, target: Option<Target>): Result<seq<Json>>
  {
    var v := ReplyValue(lib, content, "PROVIDE_DATA", "candidate_queries");
    var n := PyLen(v);
    if n.None? then Failure(w.queriesError(v))
    else if n.value >= 3 then
      if v.JObj? then Failure(w.queriesError(v)) else Success(SliceTo(QueryItems(v), 6))
    else if !reference.JObj? then Failure(w.attrError(reference))
    else Success(SliceTo(FallbackQueries(DomainOf(target), Attributes(lib, reference.fields)), 6))
  }

  /**
   * At most six queries; the model's own list in order, or a string's
   * characters, when `len` gives at least three; otherwise two or three
   * site-scoped fallback queries. The phase fails exactly when
   * `candidate_queries` has no length, is a dict of three or more keys, or
   * the fallback meets a reference that is not a dict.
   */
  lemma QueriesFacts(lib: Lib, w: TesterWorld, content: string, reference: Json, target: Option<Target>)
    ensures var r := QueriesOf(lib, w, content, reference, target); r.Success? ==> |r.value| <= 6
    ensures var r, v := QueriesOf(lib, w, content, reference, target), ReplyValue(lib, content, "PROVIDE_DATA", "candidate_queries");
      (v.JArr? || v.JStr?) && PyLen(v).value >= 3 ==>
        r.Success? && 3 <= |r.value| && r.value == QueryItems(v)[..|r.value|]
    ensures var r, v := QueriesOf(lib, w, content, reference, target), ReplyValue(lib, content, "PROVIDE_DATA", "candidate_queries");
      PyLen(v).None? || (v.JObj? && PyLen(v).value >= 3) ==> r == Failure(w.queriesError(v))
    ensures var r, v := QueriesOf(lib, w, content, reference, target), ReplyValue(lib, content, "PROVIDE_DATA", "candidate_queries");
      PyLen(v).Some? && PyLen(v).value < 3 && reference.JObj? ==>
        r.Success? && 2 <= |r.value| <= 3
        && forall q :: q in r.value ==> q.JStr? && StartsWith(q.s, "site:" + DomainOf(target) + " ")
    ensures var r, v := QueriesOf(lib, w, content, reference, target), ReplyValue(lib, content, "PROVIDE_DATA", "candidate_queries");
      r.Failure? <==>
        PyLen(v).None? || (v.JObj? && PyLen(v).value >= 3) || (PyLen(v).value < 3 && !reference.JObj?)
  {
  }

  /**
   * The reply of the scan's finding: a first span that does not decode
   * hides the object after it, so phase 3A falls back to the site queries
   * although the reply carries three of its own.
   */
  lemma FailedSpanHidesQueries(lib: Lib, w: TesterWorld, reference: Json, target: Option<Target>)
    requires lib.jsonLoads("{a}") == None && lib.jsonLoads("{}").Some?
    requires reference.JObj?
    ensures ReplyValue(lib, "{a}}{}", "PROVIDE_DATA", "candidate_queries") == JArr([])
    ensures var r := QueriesOf(lib, w, "{a}}{}", reference, target);
      r.Success? && forall q :: q in r.value ==> q.JStr? && StartsWith(q.s, "site:" + DomainOf(target) + " ")
  {
    AsWrittenMissesNextObject(lib);
    QueriesFacts(lib, w, "{a}}{}", reference, target);
  }

  /** `state.target.get("domain", "")`. */
  function DomainOf(target: Option<Target>): string
  {
    if target.Some? then target.value.domain else ""
  }

  // ---------------------------------------------------------------------------
  // Recording Brave results

  /** `f(xs[0]) + f(xs[1]) + ...`. */
  function ConcatMap<T, U>(xs: seq<T>, f: T -> seq<U>): seq<U>
  {
    if |xs| == 0 then [] else ConcatMap(xs[..|xs| - 1], f) + f(xs[|xs| - 1])
  }

  lemma ConcatMapStep<T, U>(xs: seq<T>, f: T -> seq<U>, i: int)
    requires 0 <= i < |xs|
    ensures ConcatMap(xs[..i + 1], f) == ConcatMap(xs[..i], f) + f(xs[i])
  {
    assert xs[..i + 1][..i] == xs[..i];
  }

  /** The entry one result adds: its normalized URL, title cut to 120 and snippet to 200; none without a URL. */
  function EntryOf(lib: Lib, query: Json, r: SearchResult): (e: seq<BraveEntry>)
    ensures r.url == "" ==> e == []
    ensures r.url != "" ==> e == [BraveEntry(NormalizeUrl(lib, r.url), SliceTo(r.title, 120), SliceTo(r.snippet, 200), query)]
  {
    if r.url != "" then [BraveEntry(NormalizeUrl(lib, r.url), SliceTo(r.title, 120), SliceTo(r.snippet, 200), query)] else []
  }

  function Recorder(lib: Lib, query: Json): SearchResult -> seq<BraveEntry>
  {
    r => EntryOf(lib, query, r)
  }

  /** The entries a query's results add, in order. */
  function EntriesOf(lib: Lib, query: Json, results: seq<SearchResult>): seq<BraveEntry>
  {
    ConcatMap(results, Recorder(lib, query))
  }

  /** The entries one query records; a failed search records none. */
  function QueryEntries(lib: Lib, w: TesterWorld, query: Json): seq<BraveEntry>
  {
    var r := w.search(query, 15);
    if r.Success? then EntriesOf(lib, query, r.value) else []
  }

  function Searcher(lib: Lib, w: TesterWorld): Json -> seq<BraveEntry>
  {
    q => QueryEntries(lib, w, q)
  }

  /** The entries of every query in turn. */
  function SearchEntries(lib: Lib, w: TesterWorld, queries: seq<Json>): seq<BraveEntry>
  {
    ConcatMap(queries, Searcher(lib, w))
  }

  /** The URLs of a list of entries. */
  function EntryUrls(entries: seq<BraveEntry>): set<string>
  {
    set e | e in entries :: e.url
  }

  lemma EntryUrlsAppend(a: seq<BraveEntry>, b: seq<BraveEntry>)
    ensures EntryUrls(a + b) == EntryUrls(a) + EntryUrls(b)
  {
    assert forall e :: e in a + b <==> e in a || e in b;
  }

  /** Every recorded entry is a normalized result URL, with a title of at most 120 and a snippet of at most 200 characters. */
  lemma {:induction false} EntriesFacts(lib: Lib, query: Json, results: seq<SearchResult>)
    ensures forall e :: e in EntriesOf(lib, query, results) ==>
      |e.title| <= 120 && |e.snippet| <= 200 && e.query == query
      && exists r :: r in results && r.url != "" && e.url == NormalizeUrl(lib, r.url)
    ensures |EntriesOf(lib, query, results)| <= |results|
  {
    if |results| > 0 {
      var init := results[..|results| - 1];
      EntriesFacts(lib, query, init);
      var last := results[|results| - 1];
      forall e | e in EntriesOf(lib, query, results)
        ensures |e.title| <= 120 && |e.snippet| <= 200 && e.query == query
          && exists r :: r in results && r.url != "" && e.url == NormalizeUrl(lib, r.url)
      {
        if e in EntriesOf(lib, query, init) {
          var r :| r in init && r.url != "" && e.url == NormalizeUrl(lib, r.url);
          assert r in results;
        } else {
          assert e in EntryOf(lib, query, last);
        }
      }
    }
  }

  // ---------------------------------------------------------------------------
  // Phase 3B: the listing URLs

  /**
   * A decoded value Python cannot hash, so that `normalized in
   * state.brave_url_set` raises on it: a list or a dict. `normalize_url`
   * hands any value that is not a string back unchanged, so this is the
   * candidate itself.
   */
  predicate Unhashable(c: Json)
  {
    c.JArr? || c.JObj?
  }

  /** The index of the first list or dict candidate, or `|cs|`. */
  function FirstUnhashable(cs: seq<Json>): (k: nat)
    ensures k <= |cs| && (k < |cs| ==> Unhashable(cs[k]))
    ensures forall i :: 0 <= i < k ==> !Unhashable(cs[i])
  {
    if |cs| == 0 || Unhashable(cs[0]) then 0 else 1 + FirstUnhashable(cs[1..])
  }

  /**
   * What phase 3B keeps of one candidate: the normalized URL of a string on
   * the target's domain. `is_same_domain` answers False for None, a number
   * or a bool, so those are rejected.
   */
  function KeepOf(lib: Lib, domain: string, c: Json): (r: Option<string>)
    ensures r.Some? <==> c.JStr? && IsSameDomain(lib, c.s, domain)
    ensures r.Some? ==> r.value == NormalizeUrl(lib, c.s)
  {
    if c.JStr? && IsSameDomain(lib, c.s, domain) then Some(NormalizeUrl(lib, c.s)) else None
  }

  function Keeper(lib: Lib, domain: string): Json -> Option<string>
  {
    c => KeepOf(lib, domain, c)
  }

  /** `[y for x in xs if f(x) is not None]`, collecting the values. */
  function FilterMap<T, U>(xs: seq<T>, f: T -> Option<U>): (r: seq<U>)
    ensures |r| <= |xs|
  {
    if |xs| == 0 then []
    else FilterMap(xs[..|xs| - 1], f) + (if f(xs[|xs| - 1]).Some? then [f(xs[|xs| - 1]).value] else [])
  }

  lemma FilterMapStep<T, U>(xs: seq<T>, f: T -> Option<U>, i: int)
    requires 0 <= i < |xs|
    ensures FilterMap(xs[..i + 1], f) == FilterMap(xs[..i], f) + (if f(xs[i]).Some? then [f(xs[i]).value] else [])
  {
    assert xs[..i + 1][..i] == xs[..i];
  }

  /** A value is collected iff some element maps to it. */
  lemma {:induction false} FilterMapIff<T, U>(xs: seq<T>, f: T -> Option<U>)
    ensures forall v :: v in FilterMap(xs, f) <==> exists i :: 0 <= i < |xs| && f(xs[i]) == Some(v)
  {
    if |xs| > 0 {
      var init := xs[..|xs| - 1];
      FilterMapIff(init, f);
      forall v ensures v in FilterMap(xs, f) <==> exists i :: 0 <= i < |xs| && f(xs[i]) == Some(v) {
        if v in FilterMap(init, f) {
          var i :| 0 <= i < |init| && f(init[i]) == Some(v);
          assert xs[i] == init[i];
        }
        if exists i :: 0 <= i < |xs| && f(xs[i]) == Some(v) {
          var i :| 0 <= i < |xs| && f(xs[i]) == Some(v);
          if i < |init| {
            assert init[i] == xs[i];
          }
        }
      }
    }
  }

  /** Phase 3B's check of the first five candidates up to the first list or dict. */
  datatype Listing = Listing(validated: seq<string>, aborted: bool)

  function ListingOf(lib: Lib, candidates: seq<Json>, domain: string): Listing
  {
    var cs := SliceTo(candidates, 5);
    var k := FirstUnhashable(cs);
    Listing(FilterMap(cs[..k], Keeper(lib, domain)), k < |cs|)
  }

  /**
   * Phase 3B keeps at most five URLs; it keeps a candidate's normalized URL
   * iff the candidate is a string among the first five, comes before any
   * list or dict candidate, and is on the target's domain; a list or dict
   * among the first five aborts the check.
   */
  lemma ListingFacts(lib: Lib, candidates: seq<Json>, domain: string)
    ensures |ListingOf(lib, candidates, domain).validated| <= 5
    ensures var l, k := ListingOf(lib, candidates, domain), FirstUnhashable(SliceTo(candidates, 5));
      forall v :: v in l.validated <==> exists i :: 0 <= i < k && KeepOf(lib, domain, candidates[i]) == Some(v)
    ensures ListingOf(lib, candidates, domain).aborted <==>
      exists i :: 0 <= i < |candidates| && i < 5 && Unhashable(candidates[i])
  {
    var cs := SliceTo(candidates, 5);
    var k := FirstUnhashable(cs);
    FilterMapIff(cs[..k], Keeper(lib, domain));
    assert forall i :: 0 <= i < k ==> cs[..k][i] == candidates[i];
    if exists i :: 0 <= i < |candidates| && i < 5 && Unhashable(candidates[i]) {
      var i :| 0 <= i < |candidates| && i < 5 && Unhashable(candidates[i]);
      assert cs[i] == candidates[i];
    }
  }

  // ---------------------------------------------------------------------------
  // The loops of the fallback's attribute collection and of the Brave recording

  lemma TruthyStrsStep(lib: Lib, items: seq<Json>, j: int)
    requires 0 <= j < |items|
    ensures TruthyStrs(lib, items[..j + 1]) == TruthyStrs(lib, items[..j]) + (if items[j].Truthy() then [PyStr(lib, items[j])] else [])
  {
    assert items[..j + 1][..j] == items[..j];
  }

  lemma AttributesStep(lib: Lib, fields: seq<(string, Json)>, i: int)
    requires 0 <= i < |fields|
    ensures Attributes(lib, fields[..i + 1]) == Attributes(lib, fields[..i]) + (if fields[i].0 !in EXCLUDED_KEYS then ValueAttrs(lib, fields[i].1) else [])
  {
    assert fields[..i + 1][..i] == fields[..i];
  }

  /** The list branch of the attribute loop: the truthy elements, as strings. */
  method TruthyStrsOf(lib: Lib, items: seq<Json>) returns (r: seq<string>)
    ensures r == TruthyStrs(lib, items)
  {
    r := [];
    for j := 0 to |items|
      invariant r == TruthyStrs(lib, items[..j])
    {
      TruthyStrsStep(lib, items, j);
      if items[j].Truthy() {
        r := r + [PyStr(lib, items[j])];
      }
    }
    assert items[..|items|] == items;
  }

  /** A falsy value adds no attribute. */
  lemma FalsyValueAddsNothing(lib: Lib, value: Json)
    requires !value.Truthy()
    ensures ValueAttrs(lib, value) == []
  {
    if value.JStr? {
      assert value.s == "";
    }
  }

  /** The branches of the attribute loop for a truthy value. */
  method ValueAttrsOf(lib: Lib, value: Json) returns (more: seq<string>)
    ensures more == ValueAttrs(lib, value)
  {
    if value.JStr? && Strip(value.s) != "" {
      more := [value.s];
    } else if value.JArr? {
      more := TruthyStrsOf(lib, value.items);
    } else {
      more := [];
    }
  }

  /** The fallback's attribute loop over the reference's entries. */
  method CollectAttributes(lib: Lib, fields: seq<(string, Json)>) returns (attrs: seq<string>)
    ensures attrs == Attributes(lib, fields)
  {
    attrs := [];
    for i := 0 to |fields|
      invariant attrs == Attributes(lib, fields[..i])
    {
      var (key, value) := fields[i];
      AttributesStep(lib, fields, i);
      if key !in EXCLUDED_KEYS && value.Truthy() {
        var more := ValueAttrsOf(lib, value);
        attrs := attrs + more;
      } else if key !in EXCLUDED_KEYS {
        FalsyValueAddsNothing(lib, value);
      }
    }
    assert fields[..|fields|] == fields;
  }

  lemma EntriesStep(lib: Lib, query: Json, results: seq<SearchResult>, j: int)
    requires 0 <= j < |results|
    ensures EntriesOf(lib, query, results[..j + 1]) == EntriesOf(lib, query, results[..j]) + EntryOf(lib, query, results[j])
    ensures EntryUrls(EntriesOf(lib, query, results[..j + 1]))
      == EntryUrls(EntriesOf(lib, query, results[..j])) + (if results[j].url != "" then {NormalizeUrl(lib, results[j].url)} else {})
  {
    ConcatMapStep(results, Recorder(lib, query), j);
    EntryUrlsAppend(EntriesOf(lib, query, results[..j]), EntryOf(lib, query, results[j]));
  }

  lemma SearchEntriesStep(lib: Lib, w: TesterWorld, queries: seq<Json>, i: int)
    requires 0 <= i < |queries|
    ensures var more := QueryEntries(lib, w, queries[i]);
      SearchEntries(lib, w, queries[..i + 1]) == SearchEntries(lib, w, queries[..i]) + more
      && EntryUrls(SearchEntries(lib, w, queries[..i + 1])) == EntryUrls(SearchEntries(lib, w, queries[..i])) + EntryUrls(more)
  {
    ConcatMapStep(queries, Searcher(lib, w), i);
    EntryUrlsAppend(SearchEntries(lib, w, queries[..i]), QueryEntries(lib, w, queries[i]));
  }

  // ---------------------------------------------------------------------------
  // The tester's steps on its state

  /** `fetch_url`: a page fetched with status 200 marks its normalized final URL visited. */
  method FetchUrl(lib: Lib, w: TesterWorld, url: string, state: AgentState) returns (out: PageOut)
    modifies state`visited
    ensures out == FetchOutcome(lib, w, url)
    ensures state.visited == VisitedAfter(lib, old(state.visited), out)
  {
    if url == "" {
      return NoUrl;
    }
    var r := w.fetch(url);
    var finalUrl := FinalUrlOf(r, url);
    if r.status != 200 {
      var error := if r.error.Some? then r.error.value else JStr("Unknown error");
      return NotLoaded(finalUrl, Some(r.status), Some(error),
                       "Fetched " + url + " returned status " + IntToString(r.status) + ". Try render_url if this is a JavaScript-heavy page.");
    }
    state.visited := state.visited + {NormalizeUrl(lib, finalUrl)};
    out := Loaded(ViewOf(lib, w, "Fetched", url, finalUrl, r.status, if r.title.Some? then r.title.value else "", r.Canonical(), r.html));
  }

  /** `render_url`: a rendered page with HTML marks its normalized final URL visited. */
  method RenderUrl(lib: Lib, w: TesterWorld, url: string, state: AgentState) returns (out: PageOut)
    modifies state`visited
    ensures out == RenderOutcome(lib, w, url)
    ensures state.visited == VisitedAfter(lib, old(state.visited), out)
  {
    if url == "" {
      return NoUrl;
    }
    var r := w.render(url);
    if r.html == "" {
      return NotLoaded(url, None, None, "Failed to render " + url + ". Page may be blocked or timeout occurred.");
    }
    var finalUrl := FinalUrlOf(r, url);
    state.visited := state.visited + {NormalizeUrl(lib, finalUrl)};
    var canonical := CanonicalOf(lib, w, finalUrl, r.html);
    out := Loaded(ViewOf(lib, w, "Rendered", url, finalUrl, r.status, if r.title.Some? then r.title.value else "", canonical, r.html));
  }

  /** The loop building `param_list`. */
  method ParamListOf(lib: Lib, fields: seq<(string, Json)>) returns (pairs: seq<(string, string)>)
    ensures pairs == ParamList(lib, fields)
  {
    pairs := [];
    for i := 0 to |fields|
      invariant pairs == ParamList(lib, fields[..i])
    {
      var (key, value) := fields[i];
      ghost var before := pairs;
      if value.JArr? {
        for j := 0 to |value.items|
          invariant pairs == before + ValuePairs(lib, key, JArr(value.items[..j]))
        {
          assert ValuePairs(lib, key, JArr(value.items[..j + 1])) == ValuePairs(lib, key, JArr(value.items[..j])) + [(key, PyStr(lib, value.items[j]))];
          pairs := pairs + [(key, PyStr(lib, value.items[j]))];
        }
        assert value.items[..|value.items|] == value.items;
      } else {
        pairs := pairs + [(key, PyStr(lib, value))];
      }
      assert fields[..i + 1][..i] == fields[..i];
    }
    assert fields[..|fields|] == fields;
  }

  /** `build_url`: a built URL is added to `allowed_urls`. */
  method BuildUrl(lib: Lib, w: TesterWorld, baseUrl: string, params: Json, state: AgentState) returns (out: BuildOut)
    modifies state`allowedUrls
    ensures out == BuildOutcome(lib, w, baseUrl, params)
    ensures state.allowedUrls == if out.Built? then old(state.allowedUrls) + {out.url} else old(state.allowedUrls)
  {
    if baseUrl == "" {
      return NoBase;
    }
    if !params.JObj? {
      return BuildFailed("Failed to build URL: " + w.attrError(params));
    }
    var pairs := ParamListOf(lib, params.fields);
    var queryString := lib.urlencode(pairs);
    var parseError := lib.urlparseError(baseUrl);
    if parseError.Some? {
      return BuildFailed("Failed to build URL: " + parseError.value);
    }
    var base := lib.urlparse(baseUrl);
    var finalQuery := if queryString != "" then (if base.query != "" then base.query + "&" + queryString else queryString) else base.query;
    var constructed := lib.urlunparse(Url(base.scheme, base.netloc, base.path, base.params, finalQuery, ""));
    var normalized := NormalizeUrl(lib, constructed);
    state.allowedUrls := state.allowedUrls + {normalized};
    out := Built(normalized, baseUrl, params);
  }

  /**
   * Phase 3A from the model's reply: the queries become `brave_queries`;
   * when the fallback reads a reference that is not a dict, the phase
   * ends the run with its error answer and the queries stay as they were.
   */
  method GenerateQueries(lib: Lib, w: TesterWorld, content: string, state: AgentState) returns (error: Option<string>)
    modifies state`braveQueries
    ensures var r := QueriesOf(lib, w, content, old(state.reference), old(state.target));
      (r.Success? ==> error.None? && state.braveQueries == r.value)
      && (r.Failure? ==> error == Some("Error: Failed to generate Brave search queries: " + r.error)
                         && state.braveQueries == old(state.braveQueries))
  {
    var proposed := ReplyValue(lib, content, "PROVIDE_DATA", "candidate_queries");
    var n := PyLen(proposed);
    if n.None? {
      return Some("Error: Failed to generate Brave search queries: " + w.queriesError(proposed));
    }
    var queries;
    if n.value < 3 {
      var domain := DomainOf(state.target);
      if !state.reference.JObj? {
        return Some("Error: Failed to generate Brave search queries: " + w.attrError(state.reference));
      }
      var attrs := CollectAttributes(lib, state.reference.fields);
      queries := FallbackQueries(domain, attrs);
    } else if proposed.JObj? {
      return Some("Error: Failed to generate Brave search queries: " + w.queriesError(proposed));
    } else {
      queries := QueryItems(proposed);
    }
    state.braveQueries := SliceTo(queries, 6);
    error := None;
  }

  /** One query's results: each result with a URL is recorded and its normalized URL allowed. */
  method RecordResults(lib: Lib, query: Json, results: seq<SearchResult>, state: AgentState)
    modifies state`braveResults, state`braveUrlSet, state`allowedUrls
    ensures state.braveResults == old(state.braveResults) + EntriesOf(lib, query, results)
    ensures state.braveUrlSet == old(state.braveUrlSet) + EntryUrls(EntriesOf(lib, query, results))
    ensures state.allowedUrls == old(state.allowedUrls) + EntryUrls(EntriesOf(lib, query, results))
  {
    ghost var results0, urls0, allowed0 := state.braveResults, state.braveUrlSet, state.allowedUrls;
    for j := 0 to |results|
      invariant Grown(state.braveResults, state.braveUrlSet, state.allowedUrls,
                      results0, urls0, allowed0, EntriesOf(lib, query, results[..j]))
    {
      ghost var before, urls, allowed := state.braveResults, state.braveUrlSet, state.allowedUrls;
      EntriesStep(lib, query, results, j);
      RecordOne(lib, query, results[j], state);
      GrownStep(results0, urls0, allowed0, EntriesOf(lib, query, results[..j]), EntryOf(lib, query, results[j]),
                before, urls, allowed, state.braveResults, state.braveUrlSet, state.allowedUrls);
    }
    assert results[..|results|] == results;
  }

  /** One result: with a URL, its entry is recorded and its normalized URL allowed. */
  method RecordOne(lib: Lib, query: Json, r: SearchResult, state: AgentState)
    modifies state`braveResults, state`braveUrlSet, state`allowedUrls
    ensures state.braveResults == old(state.braveResults) + EntryOf(lib, query, r)
    ensures state.braveUrlSet == old(state.braveUrlSet) + EntryUrls(EntryOf(lib, query, r))
    ensures state.allowedUrls == old(state.allowedUrls) + EntryUrls(EntryOf(lib, query, r))
  {
    if r.url != "" {
      var normalized := NormalizeUrl(lib, r.url);
      state.braveUrlSet := state.braveUrlSet + {normalized};
      state.allowedUrls := state.allowedUrls + {normalized};
      state.braveResults := state.braveResults + [BraveEntry(normalized, SliceTo(r.title, 120), SliceTo(r.snippet, 200), query)];
      assert EntryUrls(EntryOf(lib, query, r)) == {normalized};
    } else {
      assert EntryUrls(EntryOf(lib, query, r)) == {};
    }
  }

  /** One query: fifteen results asked for and recorded; a failed search records nothing. */
  method SearchOne(lib: Lib, w: TesterWorld, query: Json, state: AgentState)
    modifies state`braveResults, state`braveUrlSet, state`allowedUrls
    ensures var more := QueryEntries(lib, w, query);
      state.braveResults == old(state.braveResults) + more
      && state.braveUrlSet == old(state.braveUrlSet) + EntryUrls(more)
      && state.allowedUrls == old(state.allowedUrls) + EntryUrls(more)
  {
    var r := w.search(query, 15);
    if r.Success? {
      RecordResults(lib, query, r.value, state);
    } else {
      assert EntryUrls([]) == {};
    }
  }

  /** The Brave searches, query by query. */
  method RunSearches(lib: Lib, w: TesterWorld, state: AgentState)
    modifies state`braveResults, state`braveUrlSet, state`allowedUrls
    ensures state.braveResults == old(state.braveResults) + SearchEntries(lib, w, state.braveQueries)
    ensures state.braveUrlSet == old(state.braveUrlSet) + EntryUrls(SearchEntries(lib, w, state.braveQueries))
    ensures state.allowedUrls == old(state.allowedUrls) + EntryUrls(SearchEntries(lib, w, state.braveQueries))
  {
    var queries := state.braveQueries;
    ghost var results0, urls0, allowed0 := state.braveResults, state.braveUrlSet, state.allowedUrls;
    for i := 0 to |queries|
      invariant state.braveQueries == queries
      invariant Grown(state.braveResults, state.braveUrlSet, state.allowedUrls,
                      results0, urls0, allowed0, SearchEntries(lib, w, queries[..i]))
    {
      ghost var results, urls, allowed := state.braveResults, state.braveUrlSet, state.allowedUrls;
      SearchEntriesStep(lib, w, queries, i);
      SearchOne(lib, w, queries[i], state);
      GrownStep(results0, urls0, allowed0, SearchEntries(lib, w, queries[..i]), QueryEntries(lib, w, queries[i]),
                results, urls, allowed, state.braveResults, state.braveUrlSet, state.allowedUrls);
    }
    assert queries[..|queries|] == queries;
  }

  /** The three search records are the starting ones plus `entries` and their URLs. */
  predicate Grown(results: seq<BraveEntry>, urls: set<string>, allowed: set<string>,
                  results0: seq<BraveEntry>, urls0: set<string>, allowed0: set<string>, entries: seq<BraveEntry>)
  {
    results == results0 + entries && urls == urls0 + EntryUrls(entries) && allowed == allowed0 + EntryUrls(entries)
  }

  lemma GrownStep(results0: seq<BraveEntry>, urls0: set<string>, allowed0: set<string>,
                  prev: seq<BraveEntry>, more: seq<BraveEntry>,
                  results: seq<BraveEntry>, urls: set<string>, allowed: set<string>,
                  results1: seq<BraveEntry>, urls1: set<string>, allowed1: set<string>)
    requires Grown(results, urls, allowed, results0, urls0, allowed0, prev)
    requires results1 == results + more && urls1 == urls + EntryUrls(more) && allowed1 == allowed + EntryUrls(more)
    ensures Grown(results1, urls1, allowed1, results0, urls0, allowed0, prev + more)
  {
    EntryUrlsAppend(prev, more);
  }

  /** The URLs of a list, as a set. */
  function SetOf(xs: seq<string>): (r: set<string>)
    ensures forall v :: v in r <==> v in xs
  {
    set v | v in xs
  }

  lemma SetOfAppend(xs: seq<string>, x: string)
    ensures SetOf(xs + [x]) == SetOf(xs) + {x}
  {
  }

  /** One more candidate: its normalized URL is kept when it is a string on the domain. */
  lemma KeptStep(lib: Lib, cs: seq<Json>, domain: string, i: int)
    requires 0 <= i < |cs|
    ensures FilterMap(cs[..i + 1], Keeper(lib, domain))
      == FilterMap(cs[..i], Keeper(lib, domain))
         + (if cs[i].JStr? && IsSameDomain(lib, cs[i].s, domain) then [NormalizeUrl(lib, cs[i].s)] else [])
  {
    FilterMapStep(cs, Keeper(lib, domain), i);
    assert Keeper(lib, domain)(cs[i]) == KeepOf(lib, domain, cs[i]);
  }

  /** The scan stops at the first list or dict candidate. */
  lemma {:induction false} FirstUnhashableAt(cs: seq<Json>, i: nat)
    requires i <= |cs| && (i < |cs| ==> Unhashable(cs[i]))
    requires forall j :: 0 <= j < i ==> !Unhashable(cs[j])
    ensures FirstUnhashable(cs) == i
  {
    if i > 0 {
      FirstUnhashableAt(cs[1..], i - 1);
    }
  }

  /**
   * Phase 3B's check of the model's listing URLs: same-domain candidates
   * among the first five are kept normalized and become helper URLs; a
   * list or dict candidate aborts the check, keeping what was added before
   * it, and other values that are not strings are rejected.
   */
  method ValidateListing(lib: Lib, candidates: seq<Json>, state: AgentState) returns (listing: Listing)
    modifies state`helperUrls
    ensures listing == ListingOf(lib, candidates, DomainOf(state.target))
    ensures state.helperUrls == old(state.helperUrls) + SetOf(listing.validated)
  {
    var domain := DomainOf(state.target);
    var cs := SliceTo(candidates, 5);
    var validated, stop := KeepOnDomain(lib, cs, domain, state);
    listing := Listing(validated, stop < |cs|);
  }

  /** The loop of phase 3B over the capped candidates, up to the first list or dict. */
  method KeepOnDomain(lib: Lib, cs: seq<Json>, domain: string, state: AgentState)
    returns (validated: seq<string>, stop: nat)
    modifies state`helperUrls
    ensures stop == FirstUnhashable(cs) && validated == FilterMap(cs[..stop], Keeper(lib, domain))
    ensures state.helperUrls == old(state.helperUrls) + SetOf(validated)
  {
    validated := [];
    var i := 0;
    while i < |cs| && !Unhashable(cs[i])
      invariant i <= |cs|
      invariant forall j :: 0 <= j < i ==> !Unhashable(cs[j])
      invariant validated == FilterMap(cs[..i], Keeper(lib, domain))
      invariant state.helperUrls == old(state.helperUrls) + SetOf(validated)
    {
      KeptStep(lib, cs, domain, i);
      if cs[i].JStr? && IsSameDomain(lib, cs[i].s, domain) {
        var normalized := NormalizeUrl(lib, cs[i].s);
        SetOfAppend(validated, normalized);
        validated := validated + [normalized];
        state.helperUrls := state.helperUrls + {normalized};
      }
      i := i + 1;
    }
    FirstUnhashableAt(cs, i);
    stop := i;
  }
}
