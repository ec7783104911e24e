/**
 * `ProductDiscoveryAgent`: the state `run` keeps while it runs and the step
 * loop itself.  Tool calls go through the agent's cache object; the
 * provenance bookkeeping, the correctness pass, the sanitizer and the
 * sources list are the loops of the Python code.  Every method is proved
 * against the functions of `AgentTools` and `AgentOutput`, whose properties
 * are proved there.
 */
module AgentLoop {
  import opened Strings
  import opened Values
  import opened Foreign
  import opened UrlCleaner
  import opened Config
  import opened Caching
  import opened HtmlExtract
  import opened SkuExtract
  import opened AgentRecords
  import opened AgentTools
  import opened AgentOutput
  import PC = PageClassifier

  /** The budget as a size bound: a negative `max_pages_fetched` allows no page. */
  function PageLimit(max: int): (r: nat)
    ensures r == 0 || r == max
  {
    if max < 0 then 0 else max
  }

  function PagesExhausted(max: int): string
  {
    "Maximum number of pages fetched (" + IntToString(max)
    + "). Please provide your final answer based on the information gathered so far."
  }

  /** `assistant_message.get("content", "")` as the final answer; None for a value that is not text. */
  function AnswerText(content: Option<Json>): (r: Option<string>)
    ensures content.None? ==> r == Some("")
    ensures r.Some? && content.Some? ==> content.value == JStr(r.value)
  {
    if content.None? then Some("")
    else if content.value.JStr? then Some(content.value.s)
    else None
  }

  /** The variables of one `run`: conversation, provenance, budget and traces. */
  class RunState {
    var messages: seq<Message>
    var attempted: set<string>
    /** The keys of `verified_urls` in insertion order. */
    var verifiedKeys: seq<string>
    var verified: map<string, Metadata>
    var rejected: map<string, Json>
    var fetched: set<string>
    var debug: seq<Trace>
    /** The answer before sanitizing, and the entries and fetched set before the correctness pass. */
    ghost var draft: string
    ghost var preCorrection: map<string, Metadata>
    ghost var preFetched: set<string>

    /** `verified_urls` is a dict, and only attempted URLs are verified or rejected. */
    ghost predicate Valid()
      reads this`verifiedKeys, this`verified, this`attempted, this`rejected
    {
      WellFormed(verifiedKeys, verified)
      && (forall k :: k in verified ==> k in attempted)
      && (forall k :: k in rejected ==> k in attempted)
    }

    /** Every verified entry passed the gate. */
    ghost predicate AllAccepted()
      reads this`verified
    {
      forall k :: k in verified ==>
        verified[k].verdict == Some("product") || verified[k].verdict == Some("listing_with_products")
    }

    constructor(prompt: string)
      ensures messages == [SystemPrompt, UserMsg(prompt)]
      ensures attempted == {} && verifiedKeys == [] && verified == map[] && rejected == map[]
      ensures fetched == {} && debug == []
      ensures Valid() && AllAccepted()
    {
      messages := [SystemPrompt, UserMsg(prompt)];
      attempted := {};
      verifiedKeys := [];
      verified := map[];
      rejected := map[];
      fetched := {};
      debug := [];
      draft := "";
      preCorrection := map[];
      preFetched := {};
    }

    /** The provenance bookkeeping of `run` for one tool result. */
    method Record(r: ToolResult)
      modifies this`attempted, this`verifiedKeys, this`verified, this`rejected
      requires Valid()
      ensures Valid()
      ensures r.url.None? ==>
        attempted == old(attempted) && verifiedKeys == old(verifiedKeys)
        && verified == old(verified) && rejected == old(rejected)
      ensures r.url.Some? ==> attempted == old(attempted) + {r.url.value}
      ensures r.url.Some? && r.isVerified ==>
        verified == old(verified)[r.url.value := MetadataOf(r)] && rejected == old(rejected)
        && verifiedKeys == old(verifiedKeys) + (if r.url.value in old(verified) then [] else [r.url.value])
      ensures r.url.Some? && !r.isVerified ==>
        verified == old(verified) && verifiedKeys == old(verifiedKeys)
        && rejected == (if r.rejectionReason.Some? && r.rejectionReason.value.Truthy()
                        then old(rejected)[r.url.value := r.rejectionReason.value] else old(rejected))
      ensures old(AllAccepted()) && (r.isVerified ==> r.verdict == Some("product") || r.verdict == Some("listing_with_products"))
              ==> AllAccepted()
    {
      if r.url.Some? {
        var url := r.url.value;
        attempted := attempted + {url};
        if r.isVerified {
          if url !in verified {
            verifiedKeys := verifiedKeys + [url];
          }
          verified := verified[url := MetadataOf(r)];
        } else if r.rejectionReason.Some? && r.rejectionReason.value.Truthy() {
          rejected := rejected[url := r.rejectionReason.value];
        }
      }
    }

    /** The tool message, the trace, and the note to the model once the budget is spent. */
    method Log(call: ToolCall, args: Json, step: nat, r: ToolResult, max: int)
      modifies this`messages, this`debug
      ensures messages == old(messages) + [ToolMsg(call.id, r.content)]
                          + (if |fetched| >= max then [UserMsg(PagesExhausted(max))] else [])
      ensures debug == old(debug) + [Trace(step + 1, call.name, args, |r.content|, r.success)]
    {
      var note := if |fetched| >= max then [UserMsg(PagesExhausted(max))] else [];
      messages := messages + [ToolMsg(call.id, r.content)] + note;
      debug := debug + [Trace(step + 1, call.name, args, |r.content|, r.success)];
    }

    /** The bookkeeping of one tool result: its provenance, then the tool message, the trace and the budget note. */
    method Apply(call: ToolCall, args: Json, step: nat, r: ToolResult, max: int)
      modifies this`attempted, this`verifiedKeys, this`verified, this`rejected, this`messages, this`debug
      requires Valid()
      ensures Valid()
      ensures old(AllAccepted()) && (r.isVerified ==> r.verdict == Some("product") || r.verdict == Some("listing_with_products"))
              ==> AllAccepted()
      ensures messages == old(messages) + [ToolMsg(call.id, r.content)]
                          + (if |fetched| >= max then [UserMsg(PagesExhausted(max))] else [])
      ensures debug == old(debug) + [Trace(step + 1, call.name, args, |r.content|, r.success)]
      ensures r.url.Some? ==> attempted == old(attempted) + {r.url.value}
      ensures r.url.Some? && r.isVerified ==> verified == old(verified)[r.url.value := MetadataOf(r)]
    {
      Record(r);
      Log(call, args, step, r, max);
    }
  }

  datatype Ending = FinalAnswer | LlmError | StepLimit

  /** The dict `run` returns. */
  datatype RunOutput = RunOutput(answer: string, sources: seq<Source>, debug: seq<Trace>)

  /** `run` returns, or an exception propagates out of it. */
  datatype RunOutcome = Returned(output: RunOutput, ending: Ending) | Raised

  /** The correctness pass keeps `verified_urls` a dict over the same keys, every verdict, and the budget. */
  lemma CorrectionKeepsState(w: World, lib: Lib, keys: seq<string>, m: map<string, Metadata>, fetched: set<string>, max: int)
    requires WellFormed(keys, m)
    ensures var r := CorrectAll(w, lib, keys, m, fetched, max);
      WellFormed(keys, r.0) && r.0.Keys == m.Keys
      && (forall k :: k in r.0 ==> r.0[k].verdict == m[k].verdict)
      && (|fetched| <= PageLimit(max) ==> |r.1| <= PageLimit(max))
  {
    var r := CorrectAll(w, lib, keys, m, fetched, max);
    CorrectAllKeys(w, lib, keys, m, fetched, max);
    CorrectAllBudget(w, lib, keys, m, fetched, max);
    forall k | k in r.0
      ensures r.0[k].verdict == m[k].verdict
    {
      CorrectAllKeepsVerdicts(w, lib, keys, m, fetched, max, k);
    }
  }

  /** The step, tool name and decoded arguments of each call whose arguments decode, in order. */
  function CallHeads(w: World, cs: seq<ToolCall>, step: nat): (r: seq<(nat, string, Json)>)
    ensures |r| <= |cs|
  {
    if cs == [] then []
    else
      var last := cs[|cs| - 1];
      var args := w.decodeArgs(last.arguments);
      CallHeads(w, cs[..|cs| - 1], step) + (if args.Some? then [(step + 1, last.name, args.value)] else [])
  }

  /** The ids of the calls whose arguments decode, in order. */
  function DecodedIds(w: World, cs: seq<ToolCall>): (r: seq<Json>)
    ensures |r| <= |cs|
  {
    if cs == [] then []
    else
      var last := cs[|cs| - 1];
      DecodedIds(w, cs[..|cs| - 1]) + (if w.decodeArgs(last.arguments).Some? then [last.id] else [])
  }

  /** The step, tool name and arguments of each trace, in order. */
  function TraceHeads(ts: seq<Trace>): (r: seq<(nat, string, Json)>)
    ensures |r| == |ts| && forall k :: 0 <= k < |ts| ==> r[k] == (ts[k].step, ts[k].tool, ts[k].args)
  {
    if ts == [] then [] else TraceHeads(ts[..|ts| - 1]) + [(ts[|ts| - 1].step, ts[|ts| - 1].tool, ts[|ts| - 1].args)]
  }

  /** The call ids of the tool messages in a conversation, in order. */
  function ToolMsgIds(ms: seq<Message>): seq<Json>
  {
    if ms == [] then []
    else ToolMsgIds(ms[..|ms| - 1]) + (if ms[|ms| - 1].ToolMsg? then [ms[|ms| - 1].callId] else [])
  }

  lemma {:induction false} ToolMsgIdsAppend(a: seq<Message>, b: seq<Message>)
    ensures ToolMsgIds(a + b) == ToolMsgIds(a) + ToolMsgIds(b)
    decreases |b|
  {
    if b == [] {
      assert a + b == a;
    } else {
      var b' := b[..|b| - 1];
      assert (a + b)[..|a + b| - 1] == a + b';
      assert (a + b)[|a + b| - 1] == b[|b| - 1];
      ToolMsgIdsAppend(a, b');
    }
  }

  /**
   * What a run of the calls `done` adds to `messages0` and `debug0`: one
   * tool message per decoded call, carrying its id, budget notes aside; and
   * one trace per decoded call, of step `step + 1`, naming the call and
   * carrying its decoded arguments.
   */
  ghost predicate Appended(w: World, done: seq<ToolCall>, step: nat, messages0: seq<Message>, debug0: seq<Trace>,
                           messages: seq<Message>, debug: seq<Trace>)
  {
    messages0 <= messages && debug0 <= debug
    && ToolMsgIds(messages[|messages0|..]) == DecodedIds(w, done)
    && TraceHeads(debug[|debug0|..]) == CallHeads(w, done, step)
  }

  /** A call whose arguments do not decode is skipped and adds nothing. */
  lemma AppendedSkip(w: World, calls: seq<ToolCall>, j: nat, step: nat, messages0: seq<Message>, debug0: seq<Trace>,
                     m: seq<Message>, d: seq<Trace>)
    requires j < |calls| && w.decodeArgs(calls[j].arguments).None?
    requires Appended(w, calls[..j], step, messages0, debug0, m, d)
    ensures Appended(w, calls[..j + 1], step, messages0, debug0, m, d)
  {
    assert calls[..j + 1][..j] == calls[..j];
  }

  /** A handled call adds its tool message, perhaps a budget note, and its trace. */
  lemma AppendedHandled(w: World, calls: seq<ToolCall>, j: nat, step: nat, messages0: seq<Message>, debug0: seq<Trace>,
                        m: seq<Message>, d: seq<Trace>, c: string, note: seq<Message>, t: Trace)
    requires j < |calls| && w.decodeArgs(calls[j].arguments) == Some(t.args)
    requires t.step == step + 1 && t.tool == calls[j].name && ToolMsgIds(note) == []
    requires Appended(w, calls[..j], step, messages0, debug0, m, d)
    ensures Appended(w, calls[..j + 1], step, messages0, debug0, m + [ToolMsg(calls[j].id, c)] + note, d + [t])
  {
    assert calls[..j + 1][..j] == calls[..j];
    var m' := m + [ToolMsg(calls[j].id, c)] + note;
    var d' := d + [t];
    assert m'[|messages0|..] == m[|messages0|..] + [ToolMsg(calls[j].id, c)] + note;
    ToolMsgIdsAppend(m[|messages0|..], [ToolMsg(calls[j].id, c)]);
    ToolMsgIdsAppend(m[|messages0|..] + [ToolMsg(calls[j].id, c)], note);
    assert ToolMsgIds([ToolMsg(calls[j].id, c)]) == [calls[j].id] by {
      assert [ToolMsg(calls[j].id, c)][..0] == [];
    }
    assert d'[|debug0|..] == d[|debug0|..] + [t];
    assert d'[|debug0|..][..|d'[|debug0|..]| - 1] == d[|debug0|..];
  }

  /** The outcome of a search that answered, spelled out. */
  lemma SearchAnswered(c: Ctx, store: Store, query: string, count: Json, fetched: set<string>)
    requires c.w.search(query, count).Success?
    ensures var res := c.w.search(query, count);
      SearchFresh(c, store, query, count, fetched).result
      == (if res.value == [] then Plain(NO_RESULTS, false) else Plain(SearchContent(res.value), true))
    ensures var res := c.w.search(query, count);
      SearchFresh(c, store, query, count, fetched).store
      == store[MakeKey(c.digest, SEARCH, query) := Entry(CachedResults(res.value), c.now + SEARCH_CACHE_TTL)]
  {
  }

  class Agent {
    const world: World
    const lib: Lib
    const cache: Cache<CachedValue>

    constructor(world: World, lib: Lib, cache: Cache<CachedValue>)
      ensures this.world == world && this.lib == lib && this.cache == cache
    {
      this.world := world;
      this.lib := lib;
      this.cache := cache;
    }

    /** The context the tool functions read at time `now`. */
    function Env(now: int): (c: Ctx)
      ensures c.w == world && c.lib == lib && c.digest == cache.digest && c.now == now
    {
      Ctx(world, lib, cache.digest, now)
    }

    // -------------------------------------------------------------------------
    // Tool calls

    /** `content += listing`, one candidate line at a time. */
    method AppendListing(content: string, links: seq<string>) returns (r: string)
      ensures r == content + Listing(links)
    {
      if links == [] {
        return content;
      }
      var shown := SliceTo(links, 10);
      var lines := "";
      var i := 0;
      while i < |shown|
        invariant 0 <= i <= |shown|
        invariant lines == NumberedLines(shown[..i])
      {
        assert shown[..i + 1][..i] == shown[..i];
        lines := lines + NumberedLine(i + 1, shown[i]);
        i := i + 1;
      }
      assert shown[..|shown|] == shown;
      var more := if |links| > 10 then "... and " + NatToString(|links| - 10) + " more\n" else "";
      r := content + (ListingHeading(links) + lines + more);
    }

    method SearchTool(args: Json, st: RunState, now: int) returns (r: Option<ToolResult>)
      requires args.JObj?
      modifies cache
      ensures var o := AgentTools.SearchWeb(Env(now), old(cache.store), args, st.fetched);
        if o.Raises? then r.None? && cache.store == old(cache.store)
        else r == Some(o.result) && cache.store == o.store && o.fetched == st.fetched
    {
      var query := args.GetOr("query", JStr(""));
      var count := args.GetOr("count", JInt(5));
      if !query.JStr? {
        return None;
      }
      var hit := cache.GetSearch(query.s, now);
      if hit.Some? && hit.value.CachedResults? && hit.value.results != [] {
        return Some(Plain(SearchContent(hit.value.results), true));
      }
      var missed := SearchMiss(query.s, count, st, now);
      return Some(missed);
    }

    /** A search that missed the cache; its results are cached, even when there are none. */
    method SearchMiss(query: string, count: Json, st: RunState, now: int) returns (r: ToolResult)
      modifies cache
      ensures var o := SearchFresh(Env(now), old(cache.store), query, count, st.fetched);
        r == o.result && cache.store == o.store
    {
      var res := world.search(query, count);
      if res.Failure? {
        r := Plain("Search failed: " + res.error, false);
        return;
      }
      r := StoreResults(query, count, res.value, st, now);
    }

    /** The answered half of `SearchMiss`: the results are cached and formatted. */
    method StoreResults(query: string, count: Json, results: seq<SearchResult>, st: RunState, now: int)
      returns (r: ToolResult)
      requires world.search(query, count) == Success(results)
      modifies cache
      ensures r == SearchFresh(Env(now), old(cache.store), query, count, st.fetched).result
      ensures cache.store == SearchFresh(Env(now), old(cache.store), query, count, st.fetched).store
    {
      ghost var store0 := cache.store;
      ghost var o := SearchFresh(Env(now), store0, query, count, st.fetched);
      SearchAnswered(Env(now), store0, query, count, st.fetched);
      cache.SetSearch(query, CachedResults(results), now);
      Stored(store0, cache.store, SEARCH, query, CachedResults(results), now, SEARCH_CACHE_TTL);
      assert cache.store == o.store;
      r := if results == [] then Plain(NO_RESULTS, false) else Plain(SearchContent(results), true);
      assert r == o.result;
    }

    /** The page `fetch_url` works on: a live cache entry, else a fetch that is cached when it has html. */
    method FetchCached(url: string, now: int) returns (p: PageResult)
      modifies cache
      ensures (p, cache.store) == FetchedPage(Env(now), old(cache.store), url)
    {
      var hit := cache.GetFetch(url, now);
      if hit.Some? && hit.value.CachedPage? {
        p := hit.value.page;
      } else {
        p := FetchMiss(url, now);
      }
    }

    /** A fetch that missed the cache, cached when it has html. */
    method FetchMiss(url: string, now: int) returns (p: PageResult)
      modifies cache
      ensures (p, cache.store) == FreshFetch(Env(now), old(cache.store), url)
    {
      p := world.fetch(url);
      if p.html != "" {
        var text := ExtractText(lib, p.html, None);
        p := p.(text := Some(text));
        ghost var store0 := cache.store;
        cache.SetFetch(url, CachedPage(p), now);
        Stored(store0, cache.store, FETCH, url, CachedPage(p), now, FETCH_CACHE_TTL);
      }
    }

    /** A render, from the cache when `readCache`; a result with a body is cached. */
    method RenderCached(url: string, now: int, readCache: bool) returns (p: PageResult)
      modifies cache
      ensures (p, cache.store) == RenderedPage(Env(now), old(cache.store), url, readCache)
    {
      ghost var key := MakeKey(cache.digest, RENDER, url);
      var hit: Option<CachedValue> := None;
      if readCache {
        hit := cache.GetRender(url, now);
      }
      assert hit == if readCache then LookupIn(old(cache.store), key, now) else None;
      if hit.Some? && hit.value.CachedPage? {
        p := hit.value.page;
      } else {
        p := RenderMiss(url, now);
      }
    }

    /** A render that missed the cache, cached when it has a body. */
    method RenderMiss(url: string, now: int) returns (p: PageResult)
      modifies cache
      ensures p == FreshRender(Env(now), old(cache.store), url).0
      ensures cache.store == FreshRender(Env(now), old(cache.store), url).1
    {
      var rendered := world.render(url);
      p := rendered;
      if rendered.HasBody() {
        p := StoreRendered(url, rendered, now);
      }
    }

    /** A rendered page with a body gets its text if it lacks one and is cached. */
    method StoreRendered(url: string, rendered: PageResult, now: int) returns (p: PageResult)
      modifies cache
      ensures p == WithText(lib, rendered)
      ensures cache.store == old(cache.store)[MakeKey(Env(now).digest, RENDER, url) := Entry(CachedPage(p), Env(now).now + FETCH_CACHE_TTL)]
    {
      p := rendered;
      if rendered.html != "" && OrEmpty(rendered.text) == "" {
        var text := ExtractText(lib, rendered.html, None);
        p := rendered.(text := Some(text));
      }
      ghost var store0 := cache.store;
      cache.SetRender(url, CachedPage(p), now);
      Stored(store0, cache.store, RENDER, url, CachedPage(p), now, FETCH_CACHE_TTL);
    }

    /** A write to the cache is the write the tool functions describe at the same time. */
    lemma Stored(store0: Store, store1: Store, prefix: string, id: string, v: CachedValue, now: int, ttl: int)
      requires store1 == store0[MakeKey(cache.digest, prefix, id) := Entry(v, now + ttl)]
      ensures store1 == store0[MakeKey(Env(now).digest, prefix, id) := Entry(v, Env(now).now + ttl)]
    {
    }

    /** The browser fallback of `fetch_url` after a 401 or 403. */
    method RenderAfterAuthError(url: string, st: RunState, now: int) returns (r: ToolResult)
      modifies cache, st`fetched
      ensures var o := After403(Env(now), old(cache.store), url, old(st.fetched));
        o.Done? && r == o.result && st.fetched == o.fetched && cache.store == o.store
    {
      var page := RenderCached(url, now, false);
      var cl := page.classification;
      var v := ReadVerdict(cl);
      if !page.HasBody() {
        r := Failed("Failed to render " + url + " after 403 error. Page may be blocked or timeout occurred.",
                    url, "Failed to render after 403");
        return;
      }
      var text := OrEmpty(page.text);
      if !IsGoodUrl(lib, 200, url, v) {
        r := Rejected(lib, NotValidContent(lib, "Rendered " + url + " (after 403)", RejectionReason(v, cl), text),
                      url, v, cl, None);
        return;
      }
      st.fetched := st.fetched + {url};
      var finalUrl := if page.finalUrl.Some? then page.finalUrl.value else url;
      var content := AppendListing("Fetched " + url + " returned 403 (bot check), so rendered with browser instead:\n\n"
                                   + text, cl.candidateLinks);
      var reason := JStr("Rendered after 403: " + PyStr(lib, VerifiedReason(cl)));
      r := Accepted(lib, content, finalUrl, v, cl, None, page.Canonical(), None, reason);
    }

    /** `fetch_url` once the URL is known and the budget allows it. */
    method FetchTool(url: string, st: RunState, now: int) returns (r: ToolResult)
      modifies cache, st`fetched
      ensures var o := FetchPage(Env(now), old(cache.store), url, old(st.fetched));
        o.Done? && r == o.result && st.fetched == o.fetched && cache.store == o.store
    {
      var page := FetchCached(url, now);
      if page.status == 403 || page.status == 401 {
        r := RenderAfterAuthError(url, st, now);
        return;
      }
      r := AnswerFetch(page, url, st, now);
    }

    /** The gate and the answer of `fetch_url` for a page that is not a 401 or 403. */
    method AnswerFetch(page: PageResult, url: string, st: RunState, now: int) returns (r: ToolResult)
      modifies st`fetched
      ensures var o := FetchAnswer(Env(now), page, cache.store, url, old(st.fetched));
        o.Done? && r == o.result && st.fetched == o.fetched && cache.store == o.store
    {
      var finalUrl := if page.finalUrl.Some? then page.finalUrl.value else url;
      var cl := page.classification;
      var v := ReadVerdict(cl);
      if !page.HasBody() {
        r := FetchFailed(lib, page, url, finalUrl);
        return;
      }
      var text := if page.text.Some? then page.text.value else ExtractText(lib, page.html, None);
      var title := if page.title.Some? then page.title.value else "";
      if !IsGoodUrl(lib, page.status, finalUrl, v) {
        r := Rejected(lib, NotValidContent(lib, "Fetched " + url, RejectionReason(v, cl), text),
                      finalUrl, v, cl, Some(title));
        return;
      }
      st.fetched := st.fetched + {finalUrl};
      var content := AppendListing("Fetched " + url + ":\n\n" + text, cl.candidateLinks);
      r := PageAccepted(Env(now), content, page, text, finalUrl, Some(title));
    }

    /** `render_url` once the URL is known and the budget allows it. */
    method RenderTool(url: string, st: RunState, now: int) returns (r: ToolResult)
      modifies cache, st`fetched
      ensures var o := RenderPage(Env(now), old(cache.store), url, old(st.fetched));
        o.Done? && r == o.result && st.fetched == o.fetched && cache.store == o.store
    {
      var page := RenderCached(url, now, true);
      var cl := page.classification;
      var v := ReadVerdict(cl);
      if !page.HasBody() {
        r := Failed("Failed to render " + url + ". Page may be blocked or timeout occurred.",
                    url, "Failed to render (timeout or error)");
        return;
      }
      var text := OrEmpty(page.text);
      if !IsGoodUrl(lib, 200, url, v) {
        r := Rejected(lib, NotValidContent(lib, "Rendered " + url, RejectionReason(v, cl), text), url, v, cl, None);
        return;
      }
      st.fetched := st.fetched + {url};
      var finalUrl := if page.finalUrl.Some? then page.finalUrl.value else url;
      var content := AppendListing("Rendered " + url + ":\n\n" + text, cl.candidateLinks);
      r := PageAccepted(Env(now), content, page, text, finalUrl, None);
    }

    /** `fetch_url` and `render_url`: the URL argument and the budget come first. */
    method PageTool(args: Json, st: RunState, max: int, now: int, render: bool) returns (r: Option<ToolResult>)
      requires args.JObj?
      modifies cache, st`fetched
      ensures var o := AgentTools.PageTool(Env(now), old(cache.store), args, old(st.fetched), max, render);
        if o.Raises? then r.None? && cache.store == old(cache.store) && st.fetched == old(st.fetched)
        else r == Some(o.result) && cache.store == o.store && st.fetched == o.fetched
    {
      var u := args.GetOr("url", JStr(""));
      if !u.Truthy() {
        return Some(Plain("No URL provided", false));
      }
      if |st.fetched| >= max {
        return Some(Plain(Budget(max, if render then "render" else "fetch"), false));
      }
      if !u.JStr? {
        return None;
      }
      var res: ToolResult;
      if render {
        res := RenderTool(u.s, st, now);
      } else {
        res := FetchTool(u.s, st, now);
      }
      return Some(res);
    }

    /** `_execute_tool`; None is the exception it raises. */
    method ExecuteTool(name: string, args: Json, st: RunState, max: int, now: int) returns (r: Option<ToolResult>)
      modifies cache, st`fetched
      ensures var o := AgentTools.ExecuteTool(Env(now), old(cache.store), name, args, old(st.fetched), max);
        if o.Raises? then r.None? && cache.store == old(cache.store) && st.fetched == old(st.fetched)
        else r == Some(o.result) && cache.store == o.store && st.fetched == o.fetched
    {
      if name == "search_web" {
        if !args.JObj? {
          return None;
        }
        r := SearchTool(args, st, now);
      } else if name == "fetch_url" || name == "render_url" {
        if !args.JObj? {
          return None;
        }
        r := PageTool(args, st, max, now, name == "render_url");
      } else {
        r := Some(Plain("Unknown tool: " + name, false));
      }
    }

    /**
     * One tool call of a step: arguments that are not JSON are skipped;
     * otherwise the tool runs, its content becomes a tool message, its
     * provenance is recorded, a trace is appended, and the model is told
     * when the budget is spent.  `raised` is the exception of the tool.
     */
    method HandleToolCall(call: ToolCall, step: nat, st: RunState, max: int, now: int) returns (raised: bool)
      modifies cache, st`messages, st`attempted, st`verifiedKeys, st`verified, st`rejected, st`fetched, st`debug
      requires st.Valid() && st.AllAccepted() && |st.fetched| <= PageLimit(max)
      ensures st.Valid() && st.AllAccepted() && |st.fetched| <= PageLimit(max)
      ensures old(st.fetched) <= st.fetched
      ensures world.decodeArgs(call.arguments).None? ==>
        !raised && st.messages == old(st.messages) && st.debug == old(st.debug) && st.fetched == old(st.fetched)
      ensures raised ==> st.messages == old(st.messages) && st.debug == old(st.debug)
      ensures forall t :: t in st.debug ==> t in old(st.debug) || t.step == step + 1
      ensures world.decodeArgs(call.arguments).Some? ==>
        var args := world.decodeArgs(call.arguments).value;
        var o := AgentTools.ExecuteTool(Env(now), old(cache.store), call.name, args, old(st.fetched), max);
        Handled(call, args, step, st, max, o, raised, old(st.messages), old(st.debug), old(st.fetched),
                old(st.attempted), old(st.verified))
    {
      raised := false;
      var decoded := world.decodeArgs(call.arguments);
      if decoded.None? {
        return;
      }
      raised := RunTool(call, decoded.value, step, st, max, now);
    }

    /** What handling a call with decoded arguments `args` leaves, given its outcome `o`. */
    ghost predicate Handled(call: ToolCall, args: Json, step: nat, st: RunState, max: int, o: Outcome, raised: bool,
                            messages0: seq<Message>, debug0: seq<Trace>, fetched0: set<string>,
                            attempted0: set<string>, verified0: map<string, Metadata>)
      reads cache, st
    {
        (raised <==> o.Raises?)
        && (o.Raises? ==> st.messages == messages0 && st.debug == debug0 && st.fetched == fetched0)
        && (o.Done? ==>
              st.fetched == o.fetched && cache.store == o.store
              && st.messages == messages0 + [ToolMsg(call.id, o.result.content)]
                                + (if |o.fetched| >= max then [UserMsg(PagesExhausted(max))] else [])
              && st.debug == debug0 + [Trace(step + 1, call.name, args, |o.result.content|, o.result.success)]
              && (o.result.url.Some? ==> st.attempted == attempted0 + {o.result.url.value})
              && (o.result.url.Some? && o.result.isVerified ==>
                    st.verified == verified0[o.result.url.value := MetadataOf(o.result)]))
    }

    /** A call that did not raise added its tool message, perhaps the budget note, and its trace. */
    lemma HandledAppends(call: ToolCall, args: Json, step: nat, st: RunState, max: int, o: Outcome,
                         messages0: seq<Message>, debug0: seq<Trace>, fetched0: set<string>,
                         attempted0: set<string>, verified0: map<string, Metadata>)
      requires Handled(call, args, step, st, max, o, false, messages0, debug0, fetched0, attempted0, verified0)
      ensures var note := if |o.fetched| >= max then [UserMsg(PagesExhausted(max))] else [];
        st.messages == messages0 + [ToolMsg(call.id, o.result.content)] + note && ToolMsgIds(note) == []
      ensures st.debug == debug0 + [Trace(step + 1, call.name, args, |o.result.content|, o.result.success)]
    {
      var note: seq<Message> := if |o.fetched| >= max then [UserMsg(PagesExhausted(max))] else [];
      if note != [] {
        assert note[..0] == [];
      }
    }

    /** The tool call with decoded arguments. */
    method RunTool(call: ToolCall, args: Json, step: nat, st: RunState, max: int, now: int) returns (raised: bool)
      modifies cache, st`messages, st`attempted, st`verifiedKeys, st`verified, st`rejected, st`fetched, st`debug
      requires st.Valid() && st.AllAccepted() && |st.fetched| <= PageLimit(max)
      ensures st.Valid() && st.AllAccepted() && |st.fetched| <= PageLimit(max)
      ensures old(st.fetched) <= st.fetched
      ensures Handled(call, args, step, st, max, AgentTools.ExecuteTool(Env(now), old(cache.store), call.name, args, old(st.fetched), max),
                      raised, old(st.messages), old(st.debug), old(st.fetched), old(st.attempted), old(st.verified))
    {
      ghost var o := AgentTools.ExecuteTool(Env(now), cache.store, call.name, args, st.fetched, max);
      ToolFacts(Env(now), cache.store, call.name, args, st.fetched, max);
      var res := ExecuteTool(call.name, args, st, max, now);
      raised := Settle(call, args, step, st, max, res, o, old(st.fetched));
    }

    /** The bookkeeping once the tool has answered `res`, whose outcome is `o`. */
    method Settle(call: ToolCall, args: Json, step: nat, st: RunState, max: int, res: Option<ToolResult>,
                  ghost o: Outcome, ghost fetched0: set<string>) returns (raised: bool)
      modifies st`messages, st`attempted, st`verifiedKeys, st`verified, st`rejected, st`debug
      requires st.Valid() && st.AllAccepted() && |fetched0| <= PageLimit(max)
      requires AgentTools.WellBehaved(o, fetched0, max)
      requires o.Raises? ==> res.None? && st.fetched == fetched0
      requires o.Done? ==> res == Some(o.result) && st.fetched == o.fetched && cache.store == o.store
      ensures st.Valid() && st.AllAccepted() && |st.fetched| <= PageLimit(max)
      ensures fetched0 <= st.fetched
      ensures Handled(call, args, step, st, max, o, raised, old(st.messages), old(st.debug), fetched0,
                      old(st.attempted), old(st.verified))
    {
      if res.None? {
        return true;
      }
      var r := res.value;
      BudgetStep(fetched0, st.fetched, max, r.isVerified);
      st.Apply(call, args, step, r, max);
      raised := false;
    }

    /**
     * The tool calls of one reply, in order, until one raises: the run's
     * invariants and the budget hold after each, and every trace added names
     * this step.
     */
    /** Call `j` of a batch, handled after calls `0 .. j - 1`: the composition step of `HandleToolCalls`. */
    method HandleNext(calls: seq<ToolCall>, j: nat, step: nat, st: RunState, max: int, now: int,
                      ghost messages0: seq<Message>, ghost debug0: seq<Trace>) returns (raised: bool)
      modifies cache, st`messages, st`attempted, st`verifiedKeys, st`verified, st`rejected, st`fetched, st`debug
      requires j < |calls|
      requires st.Valid() && st.AllAccepted() && |st.fetched| <= PageLimit(max)
      requires forall t :: t in st.debug ==> t in debug0 || t.step == step + 1
      requires Appended(world, calls[..j], step, messages0, debug0, st.messages, st.debug)
      ensures st.Valid() && st.AllAccepted() && |st.fetched| <= PageLimit(max)
      ensures old(st.fetched) <= st.fetched
      ensures forall t :: t in st.debug ==> t in debug0 || t.step == step + 1
      ensures raised ==> world.decodeArgs(calls[j].arguments).Some?
      ensures raised ==> Appended(world, calls[..j], step, messages0, debug0, st.messages, st.debug)
      ensures !raised ==> Appended(world, calls[..j + 1], step, messages0, debug0, st.messages, st.debug)
    {
      ghost var m, d, store0, f0, a0, v0 := st.messages, st.debug, cache.store, st.fetched, st.attempted, st.verified;
      raised := HandleToolCall(calls[j], step, st, max, now);
      if raised {
        return;
      }
      if world.decodeArgs(calls[j].arguments).Some? {
        ghost var args := world.decodeArgs(calls[j].arguments).value;
        ghost var o := AgentTools.ExecuteTool(Env(now), store0, calls[j].name, args, f0, max);
        HandledAppends(calls[j], args, step, st, max, o, m, d, f0, a0, v0);
        AppendedHandled(world, calls, j, step, messages0, debug0, m, d, o.result.content,
                        if |o.fetched| >= max then [UserMsg(PagesExhausted(max))] else [],
                        Trace(step + 1, calls[j].name, args, |o.result.content|, o.result.success));
      } else {
        AppendedSkip(world, calls, j, step, messages0, debug0, m, d);
      }
    }

    method HandleToolCalls(calls: seq<ToolCall>, step: nat, st: RunState, max: int, now: int)
      returns (raised: bool, ghost done: nat)
      modifies cache, st`messages, st`attempted, st`verifiedKeys, st`verified, st`rejected, st`fetched, st`debug
      requires st.Valid() && st.AllAccepted() && |st.fetched| <= PageLimit(max)
      ensures st.Valid() && st.AllAccepted() && |st.fetched| <= PageLimit(max)
      ensures old(st.fetched) <= st.fetched
      ensures forall t :: t in st.debug ==> t in old(st.debug) || t.step == step + 1
      ensures done <= |calls| && (!raised ==> done == |calls|)
      ensures raised ==> done < |calls| && world.decodeArgs(calls[done].arguments).Some?
      ensures Appended(world, calls[..done], step, old(st.messages), old(st.debug), st.messages, st.debug)
    {
      raised := false;
      var j := 0;
      while j < |calls|
        invariant 0 <= j <= |calls|
        invariant st.Valid() && st.AllAccepted() && |st.fetched| <= PageLimit(max)
        invariant old(st.fetched) <= st.fetched
        invariant forall t :: t in st.debug ==> t in old(st.debug) || t.step == step + 1
        invariant Appended(world, calls[..j], step, old(st.messages), old(st.debug), st.messages, st.debug)
      {
        raised := HandleNext(calls, j, step, st, max, now, old(st.messages), old(st.debug));
        if raised {
          done := j;
          return;
        }
        j := j + 1;
      }
      done := j;
    }

    /** A tool call keeps the fetched set within the budget. */
    lemma BudgetStep(f0: set<string>, f1: set<string>, max: int, verified: bool)
      requires |f0| <= PageLimit(max)
      requires f1 == f0 || (verified && |f0| < max && exists u :: f1 == f0 + {u})
      ensures |f1| <= PageLimit(max) && f0 <= f1
    {
      if f1 != f0 {
        var u :| f1 == f0 + {u};
        AddOneCard(f0, u);
      }
    }

    // -------------------------------------------------------------------------
    // The final passes

    /** `_sanitize_output`; `picks` are the verified keys the loop over the set stopped at. */
    method Sanitize(answer: string, keys: set<string>) returns (r: string, ghost picks: seq<Option<string>>)
      ensures ValidPicks(lib, keys, lib.reFindAll(URL_PATTERN, answer), picks)
      ensures r == SanitizeWith(lib, answer, lib.reFindAll(URL_PATTERN, answer), keys, picks)
      ensures lib.reFindAll(URL_PATTERN, answer) == [] ==> r == answer
    {
      var urls := lib.reFindAll(URL_PATTERN, answer);
      r := answer;
      picks := [];
      for i := 0 to |urls|
        invariant |picks| == i
        invariant ValidPicks(lib, keys, urls[..i], picks)
        invariant r == SanitizeWith(lib, answer, urls[..i], keys, picks)
      {
        ghost var pick;
        r, pick := SanitizeUrl(r, urls[i], keys);
        SanitizeStep(lib, answer, urls, keys, picks, pick, i);
        picks := picks + [pick];
      }
      assert urls[..|urls|] == urls;
    }

    /** The rewrite of one found URL: kept when verified, else replaced by a verified URL on its host or removed. */
    method SanitizeUrl(answer: string, url: string, keys: set<string>) returns (r: string, ghost pick: Option<string>)
      ensures ValidPick(lib, keys, url, pick) && r == Rewrite(lib, answer, url, keys, pick)
    {
      r := answer;
      var normalized := CleanUrl(lib, RStripChars(url, TRAILING), true);
      pick := None;
      if normalized !in keys {
        var domain := lib.urlparse(normalized).netloc;
        var sameHost := set k | k in keys && lib.urlparse(k).netloc == domain;
        var found: Option<string> := None;
        if sameHost != {} {
          var k :| k in sameHost;
          found := Some(k);
        }
        if found.Some? && found.value != "" {
          r := ReplaceAll(r, url, found.value);
        } else {
          r := ReplaceAll(r, url, REMOVED);
        }
        pick := found;
      }
    }

    /** One entry of `_verify_product_urls`. */
    method CorrectEntry(key: string, md: Metadata, st: RunState, max: int) returns (r: Metadata)
      modifies st`fetched
      ensures (r, st.fetched) == Correct(world, lib, key, md, old(st.fetched), max)
    {
      r := md;
      if md.verdict != Some("product") {
        return;
      }
      var preferred := PreferredUrl(key, md);
      if preferred != key && preferred !in st.fetched && |st.fetched| < max {
        var fr := world.fetch(preferred);
        if fr.status == 200 && fr.classification.verdict == Some(JStr("product")) {
          st.fetched := st.fetched + {preferred};
          var sku := ExtractSku(lib, PageOf(world, fr.html, OrEmpty(fr.text)));
          if md.sku == sku {
            var canonical := if fr.canonicalUrl.Some? then fr.canonicalUrl.value else md.canonicalUrl;
            r := md.(url := preferred, finalUrl := preferred, canonicalUrl := canonical, sku := sku);
          }
        }
      }
    }

    /** `_verify_product_urls(verified_urls, fetched_urls, max_pages_fetched)`: the corrected dict, built afresh in key order. */
    method VerifyProductUrls(keys: seq<string>, m: map<string, Metadata>, st: RunState, max: int)
      returns (corrected: map<string, Metadata>)
      modifies st`fetched
      requires forall k :: k in keys ==> k in m
      ensures (corrected, st.fetched) == CorrectAll(world, lib, keys, m, old(st.fetched), max)
    {
      ghost var f0 := st.fetched;
      corrected := map[];
      var i := 0;
      while i < |keys|
        invariant 0 <= i <= |keys|
        invariant (corrected, st.fetched) == CorrectAll(world, lib, keys[..i], m, f0, max)
      {
        var key := keys[i];
        assert keys[..i + 1][..i] == keys[..i];
        var entry := CorrectEntry(key, m[key], st, max);
        corrected := corrected[key := entry];
        i := i + 1;
      }
      assert keys[..|keys|] == keys;
    }

    /** `_get_verified_sources_only`. */
    method VerifiedSourcesOnly(keys: seq<string>, m: map<string, Metadata>) returns (sources: seq<Source>)
      requires forall k :: k in keys ==> k in m
      ensures sources == SourcesOf(keys, m)
    {
      sources := [];
      var i := 0;
      while i < |keys|
        invariant 0 <= i <= |keys|
        invariant sources == SourcesOf(keys[..i], m)
      {
        assert keys[..i + 1][..i] == keys[..i];
        sources := sources + [SourceOf(keys[i], m[keys[i]])];
        i := i + 1;
      }
      assert keys[..|keys|] == keys;
    }

    /** The search, newest first, for the last assistant message with content. */
    method FindLastContent(messages: seq<Message>) returns (r: Json)
      ensures r == LastContent(messages)
    {
      var i := |messages|;
      assert messages[..i] == messages;
      while i > 0
        invariant 0 <= i <= |messages|
        invariant LastContent(messages) == LastContent(messages[..i])
      {
        var msg := messages[i - 1];
        if msg.AssistantMsg? && msg.m.content.Some? && msg.m.content.value.Truthy() {
          return msg.m.content.value;
        }
        assert messages[..i][..i - 1] == messages[..i - 1];
        i := i - 1;
      }
      return JNull;
    }

    /** The summary of the verified sources at the step limit. */
    method Summary(sources: seq<Source>) returns (r: string)
      ensures r == Gathered(sources)
    {
      r := "I found " + NatToString(|sources|) + " verified source(s), but reached the step limit. "
           + "Here's what I gathered:\n\n";
      var i := 0;
      while i < |sources|
        invariant 0 <= i <= |sources|
        invariant r == "I found " + NatToString(|sources|) + " verified source(s), but reached the step limit. "
                       + "Here's what I gathered:\n\n" + SourceLines(sources[..i])
      {
        assert sources[..i + 1][..i] == sources[..i];
        r := r + SourceLine(sources[i]);
        i := i + 1;
      }
      assert sources[..|sources|] == sources;
    }

    // -------------------------------------------------------------------------
    // The run

    /** The returned dict: the sanitized answer and the sources of the entries as they now stand. */
    method Conclude(answer: string, keys: seq<string>, m: map<string, Metadata>, debug: seq<Trace>, ending: Ending)
      returns (out: RunOutcome, ghost picks: seq<Option<string>>)
      requires forall k :: k in keys ==> k in m
      ensures out.Returned? && out.ending == ending && out.output.debug == debug
      ensures out.output.sources == SourcesOf(keys, m)
      ensures ValidPicks(lib, m.Keys, lib.reFindAll(URL_PATTERN, answer), picks)
      ensures out.output.answer == SanitizeWith(lib, answer, lib.reFindAll(URL_PATTERN, answer), m.Keys, picks)
    {
      var text;
      text, picks := Sanitize(answer, m.Keys);
      var sources := VerifiedSourcesOnly(keys, m);
      out := Returned(RunOutput(text, sources, debug), ending);
    }

    /** The correctness pass over the run's entries, which keeps the run's invariants. */
    method CorrectionPass(st: RunState, maxPages: int)
      modifies st`verified, st`fetched, st`preCorrection, st`preFetched
      requires st.Valid() && st.AllAccepted() && |st.fetched| <= PageLimit(maxPages)
      ensures st.Valid() && st.AllAccepted() && |st.fetched| <= PageLimit(maxPages)
      ensures st.preCorrection == old(st.verified) && st.preFetched == old(st.fetched)
      ensures st.verified.Keys == old(st.verified.Keys)
      ensures (st.verified, st.fetched) == CorrectAll(world, lib, st.verifiedKeys, st.preCorrection, st.preFetched, maxPages)
    {
      ghost var m0, f0 := st.verified, st.fetched;
      CorrectionKeepsState(world, lib, st.verifiedKeys, m0, f0, maxPages);
      st.verified := VerifyProductUrls(st.verifiedKeys, st.verified, st, maxPages);
      assert WellFormed(st.verifiedKeys, st.verified);
      assert forall k :: k in st.verified ==> k in st.attempted;
      st.preCorrection, st.preFetched := m0, f0;
    }

    /** The final-answer exit: the correctness pass, then the sanitizer. */
    method Finish(answer: string, st: RunState, maxPages: int) returns (out: RunOutcome, ghost picks: seq<Option<string>>)
      modifies st`verified, st`fetched, st`draft, st`preCorrection, st`preFetched
      requires st.Valid() && st.AllAccepted() && |st.fetched| <= PageLimit(maxPages)
      ensures st.Valid() && st.AllAccepted() && |st.fetched| <= PageLimit(maxPages)
      ensures st.draft == answer && st.preCorrection == old(st.verified) && st.preFetched == old(st.fetched)
      ensures (st.verified, st.fetched) == CorrectAll(world, lib, st.verifiedKeys, st.preCorrection, st.preFetched, maxPages)
      ensures out.Returned? && out.ending == FinalAnswer && out.output.debug == st.debug
      ensures out.output.sources == SourcesOf(st.verifiedKeys, st.verified)
      ensures ValidPicks(lib, st.verified.Keys, lib.reFindAll(URL_PATTERN, answer), picks)
      ensures out.output.answer == SanitizeWith(lib, answer, lib.reFindAll(URL_PATTERN, answer), st.verified.Keys, picks)
    {
      CorrectionPass(st, maxPages);
      st.draft := answer;
      out, picks := Conclude(answer, st.verifiedKeys, st.verified, st.debug, FinalAnswer);
    }

    /** What an ending other than an LLM error promises: the corrected entries, their sources and the sanitized draft. */
    ghost predicate Concluded(st: RunState, output: RunOutput, maxPages: int)
      reads st
      requires st.Valid()
    {
      (forall k :: k in st.verifiedKeys ==> k in st.preCorrection)
      && (st.verified, st.fetched) == CorrectAll(world, lib, st.verifiedKeys, st.preCorrection, st.preFetched, maxPages)
      && output.sources == SourcesOf(st.verifiedKeys, st.verified)
      && exists picks :: ValidPicks(lib, st.verified.Keys, lib.reFindAll(URL_PATTERN, st.draft), picks)
           && output.answer == SanitizeWith(lib, st.draft, lib.reFindAll(URL_PATTERN, st.draft), st.verified.Keys, picks)
    }

    /** A reply without tool calls: its text is the final answer, and a non-string content raises. */
    method Answer(message: AssistantMessage, st: RunState, maxPages: int) returns (out: RunOutcome)
      modifies st`verified, st`fetched, st`draft, st`preCorrection, st`preFetched
      requires st.Valid() && st.AllAccepted() && |st.fetched| <= PageLimit(maxPages)
      ensures st.Valid() && st.AllAccepted() && |st.fetched| <= PageLimit(maxPages)
      ensures out.Returned? ==> out.ending == FinalAnswer && out.output.debug == st.debug
      ensures out.Returned? ==> AnswerText(message.content) == Some(st.draft)
      ensures out.Returned? ==> Concluded(st, out.output, maxPages)
    {
      var answer := AnswerText(message.content);
      if answer.None? {
        return Raised;
      }
      ghost var picks;
      out, picks := Finish(answer.value, st, maxPages);
    }

    /** The answer the step limit leaves: the last content, else a summary of the verified sources. */
    method LimitDraft(messages: seq<Message>, keys: seq<string>, m: map<string, Metadata>) returns (answer: string)
      requires forall k :: k in keys ==> k in m
      ensures answer == StepLimitAnswer(lib, LastContent(messages), SourcesOf(keys, m))
    {
      var last := FindLastContent(messages);
      if last.Truthy() {
        answer := "[Note: Reached step limit] " + PyStr(lib, last);
      } else {
        var found := VerifiedSourcesOnly(keys, m);
        if found != [] {
          answer := Summary(found);
        } else {
          answer := NOTHING_FOUND;
        }
      }
    }

    /** The step-limit draft, kept on the run, and its sanitized text. */
    method DraftAtLimit(st: RunState) returns (text: string, ghost picks: seq<Option<string>>)
      modifies st`draft
      requires st.Valid()
      ensures st.draft == StepLimitAnswer(lib, LastContent(st.messages), SourcesOf(st.verifiedKeys, st.verified))
      ensures ValidPicks(lib, st.verified.Keys, lib.reFindAll(URL_PATTERN, st.draft), picks)
      ensures text == SanitizeWith(lib, st.draft, lib.reFindAll(URL_PATTERN, st.draft), st.verified.Keys, picks)
    {
      var answer := LimitDraft(st.messages, st.verifiedKeys, st.verified);
      st.draft := answer;
      text, picks := Sanitize(answer, st.verified.Keys);
    }

    /**
     * The step-limit exit: the draft, the sanitizer against the entries as
     * they stand, then the correctness pass, which keeps their keys, and the
     * sources of the corrected entries.
     */
    method FinishAtLimit(st: RunState, maxPages: int) returns (out: RunOutcome, ghost picks: seq<Option<string>>)
      modifies st`verified, st`fetched, st`draft, st`preCorrection, st`preFetched
      requires st.Valid() && st.AllAccepted() && |st.fetched| <= PageLimit(maxPages)
      ensures st.Valid() && st.AllAccepted() && |st.fetched| <= PageLimit(maxPages)
      ensures st.preCorrection == old(st.verified) && st.preFetched == old(st.fetched)
      ensures st.draft == StepLimitAnswer(lib, LastContent(st.messages), SourcesOf(st.verifiedKeys, st.preCorrection))
      ensures (st.verified, st.fetched) == CorrectAll(world, lib, st.verifiedKeys, st.preCorrection, st.preFetched, maxPages)
      ensures out.Returned? && out.ending == StepLimit && out.output.debug == st.debug
      ensures out.output.sources == SourcesOf(st.verifiedKeys, st.verified)
      ensures ValidPicks(lib, st.verified.Keys, lib.reFindAll(URL_PATTERN, st.draft), picks)
      ensures out.output.answer == SanitizeWith(lib, st.draft, lib.reFindAll(URL_PATTERN, st.draft), st.verified.Keys, picks)
    {
      var text;
      text, picks := DraftAtLimit(st);
      ghost var keys, messages, m0, answer := st.verifiedKeys, st.messages, st.verified, st.draft;
      CorrectionPass(st, maxPages);
      assert st.verifiedKeys == keys && st.messages == messages && st.draft == answer && st.preCorrection == m0;
      assert st.verified.Keys == m0.Keys;
      var sources := VerifiedSourcesOnly(st.verifiedKeys, st.verified);
      out := Returned(RunOutput(text, sources, st.debug), StepLimit);
    }

    /**
     * One pass of the loop in `run`: an LLM error or a reply without tool
     * calls ends the run, a raising tool call ends it with the exception,
     * and otherwise the tool calls of step `step + 1` are handled.
     */
    method Turn(step: nat, st: RunState, maxPages: int, now: int) returns (out: Option<RunOutcome>)
      modifies cache, st
      requires st.Valid() && st.AllAccepted() && |st.fetched| <= PageLimit(maxPages)
      requires forall t :: t in st.debug ==> 1 <= t.step <= step
      ensures st.Valid() && st.AllAccepted() && |st.fetched| <= PageLimit(maxPages)
      ensures forall t :: t in st.debug ==> 1 <= t.step <= step + 1
      ensures out.Some? && out.value.Returned? ==> out.value.output.debug == st.debug && out.value.ending != StepLimit
      ensures out.Some? && out.value.Returned? && out.value.ending == LlmError ==>
        world.chat(st.messages).Failure? && out.value.output.sources == []
        && out.value.output.answer == "Error communicating with LLM: " + world.chat(st.messages).error
      ensures out.Some? && out.value.Returned? && out.value.ending == FinalAnswer ==>
        world.chat(st.messages).Success? && world.chat(st.messages).value.toolCalls == []
        && AnswerText(world.chat(st.messages).value.content) == Some(st.draft)
      ensures out.Some? && out.value.Returned? && out.value.ending != LlmError ==> Concluded(st, out.value.output, maxPages)
    {
      var reply := world.chat(st.messages);
      if reply.Failure? {
        return Some(Returned(RunOutput("Error communicating with LLM: " + reply.error, [], st.debug), LlmError));
      }
      var message := reply.value;
      if message.toolCalls == [] {
        var o := Answer(message, st, maxPages);
        return Some(o);
      }
      st.messages := st.messages + [AssistantMsg(message)];
      var raised, done := HandleToolCalls(message.toolCalls, step, st, maxPages, now);
      if raised {
        return Some(Raised);
      }
      return None;
    }

    /**
     * `run(user_prompt, max_steps, max_pages_fetched)`.  Whatever the
     * collaborators answer: the verified entries carry distinct keys and a
     * gate-passing verdict, the page budget holds, every trace names a step
     * in range, and an answer that is returned is the sanitized draft with
     * the sources of the corrected entries.
     */
    method Run(prompt: string, maxSteps: int, maxPages: int, now: int) returns (out: RunOutcome, st: RunState)
      modifies cache
      ensures fresh(st) && st.Valid() && st.AllAccepted() && |st.fetched| <= PageLimit(maxPages)
      ensures forall t :: t in st.debug ==> 1 <= t.step <= maxSteps
      ensures maxSteps <= 0 ==> out.Returned? && out.ending == StepLimit && st.debug == []
      ensures out.Returned? ==> out.output.debug == st.debug
      ensures out.Returned? && out.ending == LlmError ==>
        world.chat(st.messages).Failure? && out.output.sources == []
        && out.output.answer == "Error communicating with LLM: " + world.chat(st.messages).error
      ensures out.Returned? && out.ending == FinalAnswer ==>
        world.chat(st.messages).Success? && world.chat(st.messages).value.toolCalls == []
        && AnswerText(world.chat(st.messages).value.content) == Some(st.draft)
      ensures out.Returned? && out.ending != LlmError ==> Concluded(st, out.output, maxPages)
      ensures out.Returned? && out.ending == StepLimit ==>
        st.draft == StepLimitAnswer(lib, LastContent(st.messages), SourcesOf(st.verifiedKeys, st.preCorrection))
    {
      st := new RunState(prompt);
      var step := 0;
      while step < maxSteps
        invariant 0 <= step && (step == 0 || step <= maxSteps)
        invariant fresh(st)
        invariant st.Valid() && st.AllAccepted() && |st.fetched| <= PageLimit(maxPages)
        invariant forall t :: t in st.debug ==> 1 <= t.step <= step
        invariant step == 0 ==> st.debug == []
      {
        var turn := Turn(step, st, maxPages, now);
        if turn.Some? {
          out := turn.value;
          return;
        }
        step := step + 1;
      }
      ghost var picks;
      out, picks := FinishAtLimit(st, maxPages);
    }
  }
}
