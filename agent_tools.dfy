/**
 * What one tool call of the agent does: `search_web`, `fetch_url` and
 * `render_url` under the page budget, the 401/403 fallback to the browser,
 * the verification gate and the rejection reasons.  Each tool is a function
 * of the collaborators, the cache store before the call and the set of
 * fetched URLs; it gives the result dict, the new fetched set and the new
 * store, or `Raises` where the Python code raises out of the agent.
 */
module AgentTools {
  import opened Strings
  import opened Values
  import opened Foreign
  import opened Config
  import opened Caching
  import opened HtmlExtract
  import opened SkuExtract
  import opened AgentRecords
  import PC = PageClassifier

  type Store = map<string, Entry<CachedValue>>

  /** The collaborators, the cache's digest function and the clock. */
  datatype Ctx = Ctx(w: World, lib: Lib, digest: string -> string, now: int)

  datatype Outcome = Done(result: ToolResult, fetched: set<string>, store: Store) | Raises

  // ---------------------------------------------------------------------------
  // The gate and the rejection reasons

  predicate Accepting(v: VerdictValue)
  {
    v == Known(PC.Product) || v == Known(PC.ListingWithProducts)
  }

  /** `_is_good_url(status, final_url, verdict)`. */
  predicate IsGoodUrl(lib: Lib, status: int, finalUrl: string, v: VerdictValue)
  {
    if !(200 <= status < 300) then false
    else if PC.IsGenericUrl(lib, finalUrl) && !Accepting(v) then false
    else if v in {Known(PC.Blocked), Known(PC.ListingEmpty), Known(PC.Generic), Known(PC.Error)} then false
    else if Accepting(v) then true
    else false
  }

  /** The reason a page that failed the gate is rejected with. */
  function RejectionReason(v: VerdictValue, c: ClassInfo): (r: Json)
    ensures v.Other? || v == Known(PC.Product) || v == Known(PC.ListingWithProducts) ==>
      r == if c.reason.Some? then c.reason.value else JStr("Page did not pass verification")
  {
    if v == Known(PC.ListingEmpty) then JStr("Empty listing page (no products found)")
    else if v == Known(PC.Blocked) then JStr("Page is blocked or requires verification")
    else if v == Known(PC.Generic) then JStr("Generic redirect page")
    else if v == Known(PC.Error) then JStr("Page classification error")
    else if c.reason.Some? then c.reason.value
    else JStr("Page did not pass verification")
  }

  // ---------------------------------------------------------------------------
  // Content texts

  /** One numbered line of the candidate-link listing. */
  function NumberedLine(i: nat, link: string): string
  {
    NatToString(i) + ". " + link + "\n"
  }

  /** The numbered lines for the first links, line `i` for `links[i - 1]`. */
  function NumberedLines(links: seq<string>): string
  {
    if |links| == 0 then ""
    else NumberedLines(links[..|links| - 1]) + NumberedLine(|links|, links[|links| - 1])
  }

  /** The listing as its lines: a heading, one line per shown link, and a count of the rest. */
  function ListingLines(links: seq<string>): (r: seq<string>)
    ensures links == [] ==> r == []
    ensures links != [] ==>
      |r| == 1 + (if |links| > 10 then 11 else |links|)
      && r[0] == "\n\nFound " + NatToString(|links|) + " product candidate links:\n"
      && (forall i :: 0 <= i < |links| && i < 10 ==> r[i + 1] == NumberedLine(i + 1, links[i]))
      && (|links| > 10 ==> r[11] == "... and " + NatToString(|links| - 10) + " more\n")
  {
    if links == [] then []
    else
      var shown := SliceTo(links, 10);
      [ListingHeading(links)] + NumberedSeq(shown)
      + (if |links| > 10 then ["... and " + NatToString(|links| - 10) + " more\n"] else [])
  }

  function NumberedSeq(links: seq<string>): (r: seq<string>)
    ensures |r| == |links| && forall i :: 0 <= i < |links| ==> r[i] == NumberedLine(i + 1, links[i])
  {
    seq(|links|, i requires 0 <= i < |links| => NumberedLine(i + 1, links[i]))
  }

  function Concat(parts: seq<string>): string
  {
    if |parts| == 0 then "" else parts[0] + Concat(parts[1..])
  }

  /** What the fetch and render successes append to their content. */
  function Listing(links: seq<string>): string
  {
    if links == [] then ""
    else
      ListingHeading(links) + NumberedLines(SliceTo(links, 10))
      + (if |links| > 10 then "... and " + NatToString(|links| - 10) + " more\n" else "")
  }

  function ListingHeading(links: seq<string>): string
  {
    "\n\nFound " + NatToString(|links|) + " product candidate links:\n"
  }

  function SearchLine(r: SearchResult): string
  {
    "- " + r.title + "\n  URL: " + r.url + "\n  " + r.snippet
  }

  function SearchContent(rs: seq<SearchResult>): string
  {
    "Found " + NatToString(|rs|) + " search results:\n\n"
    + Join(seq(|rs|, i requires 0 <= i < |rs| => SearchLine(rs[i])), "\n")
  }

  const NO_RESULTS: string := "Search returned no results. Try a different query."

  /** The content of a rejected page: the reason and the first 500 characters of its text. */
  function NotValidContent(lib: Lib, what: string, reason: Json, text: string): string
  {
    what + " but page is not valid: " + PyStr(lib, reason) + ".\n\nPage content:\n" + SliceTo(text, 500) + "..."
  }

  /** A page the gate refused. */
  function Rejected(lib: Lib, content: string, url: string, v: VerdictValue, c: ClassInfo, title: Option<string>): (r: ToolResult)
    ensures !r.success && !r.isVerified && r.url == Some(url) && r.rejectionReason == Some(RejectionReason(v, c))
  {
    ToolResult(content, false, Some(url), false, Some(RejectionReason(v, c)), Some(VerdictText(lib, v)),
               Some(ProductCountOf(c)), title, None, None, None, None, [])
  }

  /** A page the gate accepted; the recorded URL is its final URL. */
  function Accepted(lib: Lib, content: string, finalUrl: string, v: VerdictValue, c: ClassInfo, title: Option<string>,
                    canonical: Option<string>, sku: Option<string>, reason: Json): (r: ToolResult)
    ensures r.success && r.isVerified && r.url == Some(finalUrl) && r.finalUrl == Some(finalUrl)
    ensures r.verdict == Some(VerdictText(lib, v)) && r.rejectionReason.None? && r.candidateLinks == c.candidateLinks
  {
    ToolResult(content, true, Some(finalUrl), true, None, Some(VerdictText(lib, v)), Some(ProductCountOf(c)),
               title, Some(finalUrl), canonical, sku, Some(reason), c.candidateLinks)
  }

  function VerifiedReason(c: ClassInfo): Json
  {
    if c.reason.Some? then c.reason.value else JStr("Page verified successfully")
  }

  function Budget(max: int, what: string): string
  {
    "Maximum pages fetched (" + IntToString(max) + "). Cannot " + what + " more."
  }

  // ---------------------------------------------------------------------------
  // Obtaining a page

  /**
   * The fetch result `fetch_url` works on and the store after it: a live
   * cache entry, else a fresh fetch, whose text is extracted and which is
   * cached when it has html.
   */
  function FetchedPage(c: Ctx, store: Store, url: string): (res: (PageResult, Store))
  {
    var hit := LookupIn(store, MakeKey(c.digest, FETCH, url), c.now);
    if hit.Some? && hit.value.CachedPage? then (hit.value.page, store)
    else FreshFetch(c, store, url)
  }

  /** A fetch that missed the cache: its text is extracted and it is cached when it has html. */
  function FreshFetch(c: Ctx, store: Store, url: string): (res: (PageResult, Store))
  {
    var p := c.w.fetch(url);
    if p.html != "" then
      var q := p.(text := Some(ExtractText(c.lib, p.html, None)));
      (q, store[MakeKey(c.digest, FETCH, url) := Entry(CachedPage(q), c.now + FETCH_CACHE_TTL)])
    else (p, store)
  }

  /**
   * The render result and the store after it.  `render_url` reads the cache
   * first; the 403 fallback does not.  A result with a body gets its text
   * extracted from the html when it has none, and is cached.
   */
  function RenderedPage(c: Ctx, store: Store, url: string, readCache: bool): (res: (PageResult, Store))
    ensures !readCache && !c.w.render(url).HasBody() ==> res == (c.w.render(url), store)
    ensures res.0.HasBody() == (if readCache && LookupIn(store, MakeKey(c.digest, RENDER, url), c.now).Some?
                                    && LookupIn(store, MakeKey(c.digest, RENDER, url), c.now).value.CachedPage?
                                 then LookupIn(store, MakeKey(c.digest, RENDER, url), c.now).value.page.HasBody()
                                 else c.w.render(url).HasBody())
  {
    var hit := if readCache then LookupIn(store, MakeKey(c.digest, RENDER, url), c.now) else None;
    if hit.Some? && hit.value.CachedPage? then (hit.value.page, store)
    else FreshRender(c, store, url)
  }

  /** A render that missed the cache: text is extracted from html when it has none, and a result with a body is cached. */
  function FreshRender(c: Ctx, store: Store, url: string): (res: (PageResult, Store))
    ensures res.0.HasBody() == c.w.render(url).HasBody()
    ensures !c.w.render(url).HasBody() ==> res == (c.w.render(url), store)
  {
    var p := c.w.render(url);
    if p.HasBody() then
      var q := WithText(c.lib, p);
      (q, store[MakeKey(c.digest, RENDER, url) := Entry(CachedPage(q), c.now + FETCH_CACHE_TTL)])
    else (p, store)
  }

  /** A rendered page with html but no text gets the text extracted from its html. */
  function WithText(lib: Lib, p: PageResult): PageResult
  {
    if p.html != "" && OrEmpty(p.text) == "" then p.(text := Some(ExtractText(lib, p.html, None))) else p
  }

  // ---------------------------------------------------------------------------
  // The tools

  function SearchWeb(c: Ctx, store: Store, args: Json, fetched: set<string>): (o: Outcome)
    requires args.JObj?
  {
    var q := args.GetOr("query", JStr(""));
    var count := args.GetOr("count", JInt(5));
    if !q.JStr? then Raises
    else
      var key := MakeKey(c.digest, SEARCH, q.s);
      var hit := LookupIn(store, key, c.now);
      if hit.Some? && hit.value.CachedResults? && hit.value.results != [] then
        Done(Plain(SearchContent(hit.value.results), true), fetched, store)
      else
        SearchFresh(c, store, q.s, count, fetched)
  }

  /** A search that missed the cache: the results are cached, even when there are none. */
  function SearchFresh(c: Ctx, store: Store, query: string, count: Json, fetched: set<string>): (o: Outcome)
    ensures o.Done? && !o.result.isVerified && o.result.url.None? && o.fetched == fetched
  {
    var res := c.w.search(query, count);
    if res.Failure? then Done(Plain("Search failed: " + res.error, false), fetched, store)
    else
      var store1 := store[MakeKey(c.digest, SEARCH, query) := Entry(CachedResults(res.value), c.now + SEARCH_CACHE_TTL)];
      if res.value == [] then Done(Plain(NO_RESULTS, false), fetched, store1)
      else Done(Plain(SearchContent(res.value), true), fetched, store1)
  }

  /** The render fallback of `fetch_url` after a 401 or 403, with the gate run at status 200. */
  function After403(c: Ctx, store: Store, url: string, fetched: set<string>): (o: Outcome)
  {
    var (r, store1) := RenderedPage(c, store, url, false);
    var cl := r.classification;
    var v := ReadVerdict(cl);
    if !r.HasBody() then
      Done(Failed("Failed to render " + url + " after 403 error. Page may be blocked or timeout occurred.",
                  url, "Failed to render after 403"), fetched, store1)
    else if !IsGoodUrl(c.lib, 200, url, v) then
      var text := OrEmpty(r.text);
      Done(Rejected(c.lib, NotValidContent(c.lib, "Rendered " + url + " (after 403)", RejectionReason(v, cl), text),
                    url, v, cl, None), fetched, store1)
    else
      var text := OrEmpty(r.text);
      var finalUrl := if r.finalUrl.Some? then r.finalUrl.value else url;
      var content := "Fetched " + url + " returned 403 (bot check), so rendered with browser instead:\n\n" + text
                     + Listing(cl.candidateLinks);
      var reason := JStr("Rendered after 403: " + PyStr(c.lib, VerifiedReason(cl)));
      Done(Accepted(c.lib, content, finalUrl, v, cl, None, r.Canonical(), None, reason), fetched + {url}, store1)
  }

  /** `fetch_url` once the URL is known, after the budget check. */
  function FetchPage(c: Ctx, store: Store, url: string, fetched: set<string>): (o: Outcome)
  {
    var (p, store1) := FetchedPage(c, store, url);
    if p.status == 403 || p.status == 401 then After403(c, store1, url, fetched)
    else FetchAnswer(c, p, store1, url, fetched)
  }

  /** A page that passed the gate, with its SKU when it is a product page. */
  function PageAccepted(c: Ctx, content: string, p: PageResult, text: string, finalUrl: string, title: Option<string>)
    : (r: ToolResult)
  {
    var v := ReadVerdict(p.classification);
    var sku := if v == Known(PC.Product) then ExtractSku(c.lib, PageOf(c.w, p.html, text)) else None;
    Accepted(c.lib, content, finalUrl, v, p.classification, title, p.Canonical(), sku, VerifiedReason(p.classification))
  }

  /** A fetch without a body: the status and the client's error go into the content and the reason. */
  function FetchFailed(lib: Lib, p: PageResult, url: string, finalUrl: string): (r: ToolResult)
    ensures !r.success && !r.isVerified && r.url == Some(finalUrl)
  {
    var err := if p.error.Some? then p.error.value else JStr("Unknown error");
    var detail := "(status: " + IntToString(p.status) + ", error: " + PyStr(lib, err) + ")";
    Failed("Failed to fetch " + url + " " + detail + ". Try render_url if this is a JavaScript-heavy page.",
           finalUrl, "Failed to fetch " + detail)
  }

  /** What `fetch_url` answers for a fetched page that is not a 401 or 403: the gate decides. */
  function FetchAnswer(c: Ctx, p: PageResult, store: Store, url: string, fetched: set<string>): (o: Outcome)
  {
    var finalUrl := if p.finalUrl.Some? then p.finalUrl.value else url;
    var cl := p.classification;
    var v := ReadVerdict(cl);
    if !p.HasBody() then Done(FetchFailed(c.lib, p, url, finalUrl), fetched, store)
    else
      var text := if p.text.Some? then p.text.value else ExtractText(c.lib, p.html, None);
      var title := if p.title.Some? then p.title.value else "";
      if !IsGoodUrl(c.lib, p.status, finalUrl, v) then
        Done(Rejected(c.lib, NotValidContent(c.lib, "Fetched " + url, RejectionReason(v, cl), text),
                      finalUrl, v, cl, Some(title)), fetched, store)
      else
        Done(PageAccepted(c, "Fetched " + url + ":\n\n" + text + Listing(cl.candidateLinks), p, text, finalUrl, Some(title)),
             fetched + {finalUrl}, store)
  }

  /** `render_url` once the URL is known, after the budget check. */
  function RenderPage(c: Ctx, store: Store, url: string, fetched: set<string>): (o: Outcome)
  {
    var (r, store1) := RenderedPage(c, store, url, true);
    var cl := r.classification;
    var v := ReadVerdict(cl);
    if !r.HasBody() then
      Done(Failed("Failed to render " + url + ". Page may be blocked or timeout occurred.",
                  url, "Failed to render (timeout or error)"), fetched, store1)
    else if !IsGoodUrl(c.lib, 200, url, v) then
      var text := OrEmpty(r.text);
      Done(Rejected(c.lib, NotValidContent(c.lib, "Rendered " + url, RejectionReason(v, cl), text), url, v, cl, None),
           fetched, store1)
    else
      var text := OrEmpty(r.text);
      var finalUrl := if r.finalUrl.Some? then r.finalUrl.value else url;
      Done(PageAccepted(c, "Rendered " + url + ":\n\n" + text + Listing(cl.candidateLinks), r, text, finalUrl, None),
           fetched + {url}, store1)
  }

  /** `fetch_url` and `render_url`: the URL argument and the page budget come first. */
  function PageTool(c: Ctx, store: Store, args: Json, fetched: set<string>, max: int, render: bool): (o: Outcome)
    requires args.JObj?
  {
    var u := args.GetOr("url", JStr(""));
    if !u.Truthy() then Done(Plain("No URL provided", false), fetched, store)
    else if |fetched| >= max then Done(Plain(Budget(max, if render then "render" else "fetch"), false), fetched, store)
    else if !u.JStr? then Raises
    else if render then RenderPage(c, store, u.s, fetched)
    else FetchPage(c, store, u.s, fetched)
  }

  /** `_execute_tool(name, args, fetched_urls, max_pages_fetched)`. */
  function ExecuteTool(c: Ctx, store: Store, name: string, args: Json, fetched: set<string>, max: int): (o: Outcome)
  {
    if name == "search_web" then (if args.JObj? then SearchWeb(c, store, args, fetched) else Raises)
    else if name == "fetch_url" then (if args.JObj? then PageTool(c, store, args, fetched, max, false) else Raises)
    else if name == "render_url" then (if args.JObj? then PageTool(c, store, args, fetched, max, true) else Raises)
    else Done(Plain("Unknown tool: " + name, false), fetched, store)
  }

  // ---------------------------------------------------------------------------
  // Lemmas

  /**
   * The gate passes exactly for a 2xx status with verdict PRODUCT or
   * LISTING_WITH_PRODUCTS; the generic-path test never changes the answer.
   */
  lemma GateExactly(lib: Lib, status: int, finalUrl: string, v: VerdictValue)
    ensures IsGoodUrl(lib, status, finalUrl, v) <==> 200 <= status < 300 && Accepting(v)
  {
  }

  lemma GateIgnoresUrl(lib: Lib, status: int, u1: string, u2: string, v: VerdictValue)
    ensures IsGoodUrl(lib, status, u1, v) == IsGoodUrl(lib, status, u2, v)
  {
    GateExactly(lib, status, u1, v);
    GateExactly(lib, status, u2, v);
  }

  /**
   * A missing classification, or a verdict string that names no verdict,
   * reads as ERROR: the gate refuses it and the reason is "Page
   * classification error".
   */
  lemma UnclassifiedIsError(lib: Lib, c: ClassInfo, status: int, finalUrl: string)
    requires c.verdict.None? || (c.verdict.Some? && c.verdict.value.JStr? && PC.ParseVerdict(c.verdict.value.s) == PC.Error)
    ensures ReadVerdict(c) == Known(PC.Error)
    ensures !IsGoodUrl(lib, status, finalUrl, ReadVerdict(c))
    ensures RejectionReason(ReadVerdict(c), c) == JStr("Page classification error")
  {
  }

  /** A value that is not a string is no verdict: refused, with the classification's own reason. */
  lemma NonStringVerdictRefused(lib: Lib, c: ClassInfo, status: int, finalUrl: string)
    requires c.verdict.Some? && !c.verdict.value.JStr?
    ensures !IsGoodUrl(lib, status, finalUrl, ReadVerdict(c))
    ensures RejectionReason(ReadVerdict(c), c) == if c.reason.Some? then c.reason.value else JStr("Page did not pass verification")
  {
  }

  /**
   * A fetch of a page without classification that is not a 401/403 and has
   * a body is rejected as a classification error and fetches nothing.
   */
  lemma UnclassifiedFetchRejected(c: Ctx, store: Store, url: string, fetched: set<string>)
    requires var p := FetchedPage(c, store, url).0;
      p.status != 401 && p.status != 403 && p.HasBody() && p.classification.verdict.None?
    ensures var o := FetchPage(c, store, url, fetched);
      o.Done? && o.fetched == fetched && !o.result.isVerified
      && o.result.rejectionReason == Some(JStr("Page classification error"))
  {
    var (p, store1) := FetchedPage(c, store, url);
    assert FetchPage(c, store, url, fetched) == FetchAnswer(c, p, store1, url, fetched);
    UnclassifiedAnswerRejected(c, p, store1, url, fetched);
  }

  /** The answer for a fetched page with a body and no classification. */
  lemma UnclassifiedAnswerRejected(c: Ctx, p: PageResult, store: Store, url: string, fetched: set<string>)
    requires p.HasBody() && p.classification.verdict.None?
    ensures var o := FetchAnswer(c, p, store, url, fetched);
      o.Done? && o.fetched == fetched && !o.result.isVerified
      && o.result.rejectionReason == Some(JStr("Page classification error"))
  {
    var finalUrl := if p.finalUrl.Some? then p.finalUrl.value else url;
    UnclassifiedIsError(c.lib, p.classification, p.status, finalUrl);
  }

  /**
   * With the budget spent, `fetch_url` and `render_url` refuse without a
   * `url` before any cache or collaborator is used: the outcome is the same
   * for every world and cache store, and neither changes.
   */
  lemma BudgetCheckFirst(c: Ctx, store: Store, name: string, args: Json, fetched: set<string>, max: int,
                         other: Ctx, otherStore: Store)
    requires name == "fetch_url" || name == "render_url"
    requires args.JObj? && args.GetOr("url", JStr("")).Truthy() && |fetched| >= max
    ensures var o := ExecuteTool(c, store, name, args, fetched, max);
      o.Done? && !o.result.success && o.result.url.None? && o.fetched == fetched && o.store == store
      && o.result == ExecuteTool(other, otherStore, name, args, fetched, max).result
  {
  }

  /** A 401 or 403 answer is replaced by a render of the same URL; an empty render is rejected. */
  lemma FallbackOnAuthError(c: Ctx, store: Store, url: string, fetched: set<string>)
    requires FetchedPage(c, store, url).0.status in {401, 403}
    ensures FetchPage(c, store, url, fetched) == After403(c, FetchedPage(c, store, url).1, url, fetched)
    ensures !c.w.render(url).HasBody() ==>
      var o := FetchPage(c, store, url, fetched);
      o.Done? && o.result.url == Some(url) && !o.result.isVerified && o.fetched == fetched
      && o.result.rejectionReason == Some(JStr("Failed to render after 403"))
  {
  }

  /** What every tool outcome satisfies, as `ToolFacts` states it. */
  ghost predicate WellBehaved(o: Outcome, fetched: set<string>, max: int)
  {
    o.Done? ==>
      (o.result.isVerified ==>
        o.result.success && o.result.url.Some?
        && (o.result.verdict == Some("product") || o.result.verdict == Some("listing_with_products")))
      && (o.fetched == fetched || (o.result.isVerified && |fetched| < max && exists u :: o.fetched == fetched + {u}))
  }

  /**
   * Every outcome of a tool call: a result is verified only once the gate
   * passed (so its verdict is "product" or "listing_with_products") and then
   * succeeds and carries a url; the fetched set grows only on such a result,
   * only while below the budget, and by one URL.
   */
  lemma {:induction false} ToolFacts(c: Ctx, store: Store, name: string, args: Json, fetched: set<string>, max: int)
    ensures WellBehaved(ExecuteTool(c, store, name, args, fetched, max), fetched, max)
  {
    if name == "search_web" {
      if args.JObj? {
        SearchFacts(c, store, args, fetched);
      }
    } else if (name == "fetch_url" || name == "render_url") && args.JObj? {
      PageToolFacts(c, store, args, fetched, max, name == "render_url");
    }
  }

  lemma {:induction false} SearchFacts(c: Ctx, store: Store, args: Json, fetched: set<string>)
    requires args.JObj?
    ensures var o := SearchWeb(c, store, args, fetched);
      o.Done? ==> !o.result.isVerified && o.result.url.None? && o.fetched == fetched
  {
    var q := args.GetOr("query", JStr(""));
    if q.JStr? {
      var key := MakeKey(c.digest, SEARCH, q.s);
      var hit := LookupIn(store, key, c.now);
      if !(hit.Some? && hit.value.CachedResults? && hit.value.results != []) {
      }
    }
  }

  lemma {:induction false} PageToolFacts(c: Ctx, store: Store, args: Json, fetched: set<string>, max: int, render: bool)
    requires args.JObj?
    ensures var o := PageTool(c, store, args, fetched, max, render);
      o.Done? ==>
        (o.result.isVerified ==>
          o.result.success && o.result.url.Some?
          && (o.result.verdict == Some("product") || o.result.verdict == Some("listing_with_products")))
        && (o.fetched == fetched || (o.result.isVerified && |fetched| < max && exists u :: o.fetched == fetched + {u}))
  {
    var u := args.GetOr("url", JStr(""));
    if u.Truthy() && |fetched| < max && u.JStr? {
      if render {
        RenderFacts(c, store, u.s, fetched);
      } else {
        FetchFacts(c, store, u.s, fetched);
      }
    }
  }

  lemma AcceptedVerdict(lib: Lib, status: int, url: string, v: VerdictValue)
    requires IsGoodUrl(lib, status, url, v)
    ensures VerdictText(lib, v) == "product" || VerdictText(lib, v) == "listing_with_products"
  {
  }

  lemma RenderFacts(c: Ctx, store: Store, url: string, fetched: set<string>)
    ensures var o := RenderPage(c, store, url, fetched);
      o.Done? && (o.result.isVerified ==>
        o.result.success && o.result.url.Some?
        && (o.result.verdict == Some("product") || o.result.verdict == Some("listing_with_products")))
      && (o.fetched == fetched || (o.result.isVerified && o.fetched == fetched + {url}))
  {
    var (r, _) := RenderedPage(c, store, url, true);
    if r.HasBody() && IsGoodUrl(c.lib, 200, url, ReadVerdict(r.classification)) {
      AcceptedVerdict(c.lib, 200, url, ReadVerdict(r.classification));
    }
  }

  lemma After403Facts(c: Ctx, store: Store, url: string, fetched: set<string>)
    ensures var o := After403(c, store, url, fetched);
      o.Done? && (o.result.isVerified ==>
        o.result.success && o.result.url.Some?
        && (o.result.verdict == Some("product") || o.result.verdict == Some("listing_with_products")))
      && (o.fetched == fetched || (o.result.isVerified && o.fetched == fetched + {url}))
  {
    var (r, _) := RenderedPage(c, store, url, false);
    if r.HasBody() && IsGoodUrl(c.lib, 200, url, ReadVerdict(r.classification)) {
      AcceptedVerdict(c.lib, 200, url, ReadVerdict(r.classification));
    }
  }

  lemma FetchFacts(c: Ctx, store: Store, url: string, fetched: set<string>)
    ensures var o := FetchPage(c, store, url, fetched);
      o.Done? && (o.result.isVerified ==>
        o.result.success && o.result.url.Some?
        && (o.result.verdict == Some("product") || o.result.verdict == Some("listing_with_products")))
      && (o.fetched == fetched || (o.result.isVerified && exists u :: o.fetched == fetched + {u}))
  {
    var (p, store1) := FetchedPage(c, store, url);
    if p.status == 403 || p.status == 401 {
      After403Facts(c, store1, url, fetched);
    } else {
      AnswerFacts(c, p, store1, url, fetched);
    }
  }

  /** The same for the answer on any fetched page. */
  lemma AnswerFacts(c: Ctx, p: PageResult, store: Store, url: string, fetched: set<string>)
    ensures var o := FetchAnswer(c, p, store, url, fetched);
      o.Done? && (o.result.isVerified ==>
        o.result.success && o.result.url.Some?
        && (o.result.verdict == Some("product") || o.result.verdict == Some("listing_with_products")))
      && (o.fetched == fetched || (o.result.isVerified && exists u :: o.fetched == fetched + {u}))
  {
    var finalUrl := if p.finalUrl.Some? then p.finalUrl.value else url;
    if p.HasBody() && IsGoodUrl(c.lib, p.status, finalUrl, ReadVerdict(p.classification)) {
      AcceptedVerdict(c.lib, p.status, finalUrl, ReadVerdict(p.classification));
      assert FetchAnswer(c, p, store, url, fetched).fetched == fetched + {finalUrl};
    }
  }

  lemma AddOneCard(s: set<string>, u: string)
    ensures |s + {u}| <= |s| + 1
  {
    if u in s {
      assert s + {u} == s;
    }
  }

  /** So the budget is never exceeded by a tool call. */
  lemma BudgetKept(c: Ctx, store: Store, name: string, args: Json, fetched: set<string>, max: int)
    requires |fetched| <= max
    ensures var o := ExecuteTool(c, store, name, args, fetched, max);
      o.Done? ==> |o.fetched| <= max && fetched <= o.fetched
  {
    ToolFacts(c, store, name, args, fetched, max);
    var o := ExecuteTool(c, store, name, args, fetched, max);
    if o.Done? && o.fetched != fetched {
      var u :| o.fetched == fetched + {u};
      AddOneCard(fetched, u);
    }
  }

  /** The rejection reason of each refusing verdict. */
  lemma RejectionReasons(c: ClassInfo)
    ensures RejectionReason(Known(PC.ListingEmpty), c) == JStr("Empty listing page (no products found)")
    ensures RejectionReason(Known(PC.Blocked), c) == JStr("Page is blocked or requires verification")
    ensures RejectionReason(Known(PC.Generic), c) == JStr("Generic redirect page")
    ensures RejectionReason(Known(PC.Error), c) == JStr("Page classification error")
  {
  }

  lemma {:induction false} ConcatAppend(a: seq<string>, b: seq<string>)
    ensures Concat(a + b) == Concat(a) + Concat(b)
  {
    if |a| == 0 {
      assert a + b == b;
    } else {
      assert (a + b)[1..] == a[1..] + b;
      ConcatAppend(a[1..], b);
    }
  }

  lemma {:induction false} NumberedLinesAreConcat(links: seq<string>)
    ensures NumberedLines(links) == Concat(NumberedSeq(links))
  {
    if |links| > 0 {
      var n := |links| - 1;
      NumberedLinesAreConcat(links[..n]);
      assert NumberedSeq(links) == NumberedSeq(links[..n]) + [NumberedLine(|links|, links[n])];
      ConcatAppend(NumberedSeq(links[..n]), [NumberedLine(|links|, links[n])]);
    }
  }

  /** The listing text is its lines joined. */
  lemma ListingIsLines(links: seq<string>)
    ensures Listing(links) == Concat(ListingLines(links))
  {
    if links != [] {
      var shown := SliceTo(links, 10);
      var tail := if |links| > 10 then ["... and " + NatToString(|links| - 10) + " more\n"] else [];
      NumberedLinesAreConcat(shown);
      ConcatAppend([ListingHeading(links)] + NumberedSeq(shown), tail);
      ConcatAppend([ListingHeading(links)], NumberedSeq(shown));
    }
  }

  /** The listing shows at most ten links, numbered from 1, and counts the rest on one line. */
  lemma ListingShape(links: seq<string>)
    ensures |ListingLines(links)| <= 12
    ensures |links| <= 10 ==> |ListingLines(links)| == (if links == [] then 0 else 1 + |links|)
  {
  }
}
