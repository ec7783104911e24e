/**
 * The standalone tester's run state (`AgentState`) and how the user prompt
 * fills it: `_parse_user_prompt` picks the reference product URL and the
 * target site from the URLs in the prompt, and `_get_sources_from_state`
 * lists the visited URLs.
 *
 * `re.findall` and `re.search` are `Lib` functions; the `\d{6,}` test on a
 * path is written out over ASCII digits.
 */
module TesterState {
  import opened Strings
  import opened Values
  import opened Foreign
  import opened AgentRecords

  /** The `target` dict: the site's lower-cased host and the URL to start from. */
  datatype Target = Target(domain: string, baseUrl: string)

  /** One entry of `brave_results`. */
  datatype BraveEntry = BraveEntry(url: string, title: string, snippet: string, query: Json)

  class AgentState {
    /** The `reference` dict: set from the prompt, then replaced by the model's attributes. */
    var reference: Json
    /** The `target` dict; an empty dict is None. */
    var target: Option<Target>
    var helperUrls: set<string>
    var visited: set<string>
    var allowedUrls: set<string>
    var braveQueries: seq<Json>
    var braveResults: seq<BraveEntry>
    var braveUrlSet: set<string>

    constructor ()
      ensures reference == JObj([]) && target.None?
      ensures helperUrls == {} && visited == {} && allowedUrls == {} && braveUrlSet == {}
      ensures braveQueries == [] && braveResults == []
    {
      reference, target := JObj([]), None;
      helperUrls, visited, allowedUrls, braveUrlSet := {}, {}, {}, {};
      braveQueries, braveResults := [], [];
    }
  }

  // ---------------------------------------------------------------------------
  // _parse_user_prompt

  const PROMPT_URL_PATTERN: string := "https?://[^\\s<>\"'\\)]+"
  const COMPANY_SITE_PATTERN: string := "сайт[е]?\\s+(?:этой\\s+)?компании[:\\s]+(https?://[^\\s]+)"

  /** `urlparse(url).path.rstrip("/")`. */
  function CutPath(lib: Lib, url: string): string
  {
    RStripChars(lib.urlparse(url).path, {'/'})
  }

  /** Six decimal digits in a row start at `i`. */
  predicate DigitRunAt(lib: Lib, s: string, i: int)
  {
    0 <= i && i + 6 <= |s| && forall j :: i <= j < i + 6 ==> IsDecimal(lib, s[j])
  }

  /** `re.search(r'\d{6,}', s)` finds a match. */
  predicate HasDigitRun(lib: Lib, s: string)
  {
    exists i | 0 <= i <= |s| :: DigitRunAt(lib, s, i)
  }

  /** A URL that looks like a product page: a long numeric id, `.html`, or a long, deep path. */
  predicate ReferenceShaped(lib: Lib, url: string)
  {
    var path := CutPath(lib, url);
    HasDigitRun(lib, path) || EndsWith(path, ".html") || (|PathSegments(path)| >= 3 && |path| > 30)
  }

  /** A URL that looks like a home or category page: at most two path segments. */
  predicate TargetShaped(lib: Lib, url: string)
  {
    var path := CutPath(lib, url);
    path == "" || path == "/" || |PathSegments(path)| <= 2
  }

  /** The `reference` dict for a reference URL. */
  function ReferenceRecord(lib: Lib, url: string): Json
  {
    JObj([("url", JStr(url)), ("domain", JStr(Lower(lib.urlparse(url).netloc)))])
  }

  /** The target of a home or category URL: the URL itself for a home page, else its site. */
  function TargetOf(lib: Lib, url: string): (t: Target)
    ensures t.domain == Lower(lib.urlparse(url).netloc)
    ensures CutPath(lib, url) == "" ==> t.baseUrl == url
    ensures CutPath(lib, url) != "" ==> t.baseUrl == lib.urlparse(url).scheme + "://" + t.domain
  {
    var p := lib.urlparse(url);
    var path := CutPath(lib, url);
    Target(Lower(p.netloc), if path == "" || path == "/" then url else p.scheme + "://" + Lower(p.netloc))
  }

  /** The site of a reference URL: `scheme://netloc`, the host as written. */
  function SiteOf(lib: Lib, url: string): Target
  {
    var p := lib.urlparse(url);
    Target(Lower(p.netloc), p.scheme + "://" + p.netloc)
  }

  /** The index of the first reference-shaped URL, or `|urls|`. */
  function FirstReference(lib: Lib, urls: seq<string>): (r: nat)
    ensures r <= |urls| && (r < |urls| ==> ReferenceShaped(lib, urls[r]))
    ensures forall j :: 0 <= j < r ==> !ReferenceShaped(lib, urls[j])
  {
    if |urls| == 0 || ReferenceShaped(lib, urls[0]) then 0 else 1 + FirstReference(lib, urls[1..])
  }

  /** A target candidate: not the reference URL, and home- or category-shaped. */
  predicate TargetCandidate(lib: Lib, url: string, referenceUrl: Option<string>)
  {
    (referenceUrl.None? || url != referenceUrl.value) && TargetShaped(lib, url)
  }

  /** The index of the first target candidate, or `|urls|`. */
  function FirstTarget(lib: Lib, urls: seq<string>, referenceUrl: Option<string>): (r: nat)
    ensures r <= |urls| && (r < |urls| ==> TargetCandidate(lib, urls[r], referenceUrl))
    ensures forall j :: 0 <= j < r ==> !TargetCandidate(lib, urls[j], referenceUrl)
  {
    if |urls| == 0 || TargetCandidate(lib, urls[0], referenceUrl) then 0
    else 1 + FirstTarget(lib, urls[1..], referenceUrl)
  }

  /** The target the company-site phrase of the prompt names, if it names one. */
  function PhraseTarget(lib: Lib, prompt: string): Option<Target>
  {
    var m := lib.reSearch(COMPANY_SITE_PATTERN, prompt, IGNORECASE);
    if m.Some? && |m.value.groups| > 0 then
      var url := m.value.groups[0];
      Some(Target(Lower(lib.urlparse(url).netloc), url))
    else None
  }

  /** The outcome of the two passes over the prompt's URLs, before the fallbacks. */
  datatype Passes = Passes(referenceUrl: Option<string>, targetUrl: Option<string>)

  function PassesOf(lib: Lib, urls: seq<string>): (p: Passes)
    ensures p.referenceUrl.Some? <==> exists i :: 0 <= i < |urls| && ReferenceShaped(lib, urls[i])
  {
    var ri := FirstReference(lib, urls);
    var referenceUrl := if ri < |urls| then Some(urls[ri]) else None;
    var ti := FirstTarget(lib, urls, referenceUrl);
    Passes(referenceUrl, if ti < |urls| then Some(urls[ti]) else None)
  }

  /** The (reference, target) pair `_parse_user_prompt` leaves in the state. */
  function ParsedPrompt(lib: Lib, prompt: string, reference: Json, target: Option<Target>): (Json, Option<Target>)
  {
    var urls := lib.reFindAll(PROMPT_URL_PATTERN, prompt);
    var p := PassesOf(lib, urls);
    var reference1 := if p.referenceUrl.Some? then ReferenceRecord(lib, p.referenceUrl.value) else reference;
    var target1 := if p.targetUrl.Some? then Some(TargetOf(lib, p.targetUrl.value)) else target;
    var single := p.referenceUrl.None? && p.targetUrl.None? && |urls| == 1;
    var reference2 :=
      if single && ReferenceShaped(lib, urls[0]) then ReferenceRecord(lib, urls[0]) else reference1;
    var target2 :=
      if single then
        (if ReferenceShaped(lib, urls[0]) then Some(SiteOf(lib, urls[0]))
         else Some(Target(Lower(lib.urlparse(urls[0]).netloc), urls[0])))
      else target1;
    var target3 := if p.referenceUrl.Some? && p.targetUrl.None? then Some(SiteOf(lib, p.referenceUrl.value)) else target2;
    (reference2, if target3.None? then PhraseTarget(lib, prompt) else target3)
  }

  /**
   * The reference is the first reference-shaped URL of the prompt; without
   * one the reference stays as it was (the one-URL branch that would set it
   * can never fire, since that URL already failed the same test).
   */
  lemma ReferenceIsFirstShaped(lib: Lib, prompt: string, reference: Json, target: Option<Target>)
    ensures var urls, r := lib.reFindAll(PROMPT_URL_PATTERN, prompt), ParsedPrompt(lib, prompt, reference, target);
      var ri := FirstReference(lib, urls);
      (ri < |urls| ==> r.0 == ReferenceRecord(lib, urls[ri]))
      && (ri == |urls| ==> r.0 == reference)
  {
  }

  /**
   * With a reference URL, the target is the first other URL with at most
   * two path segments, or else the reference's own site.
   */
  lemma TargetWithReference(lib: Lib, prompt: string, reference: Json, target: Option<Target>)
    requires var urls := lib.reFindAll(PROMPT_URL_PATTERN, prompt); FirstReference(lib, urls) < |urls|
    ensures var urls, r := lib.reFindAll(PROMPT_URL_PATTERN, prompt), ParsedPrompt(lib, prompt, reference, target);
      var ref := urls[FirstReference(lib, urls)];
      var ti := FirstTarget(lib, urls, Some(ref));
      (ti < |urls| ==> r.1 == Some(TargetOf(lib, urls[ti]))) && (ti == |urls| ==> r.1 == Some(SiteOf(lib, ref)))
  {
  }

  /** A single URL that is not reference-shaped is the target, taken as the base URL. */
  lemma SingleUrlIsTarget(lib: Lib, prompt: string, reference: Json, target: Option<Target>)
    requires var urls := lib.reFindAll(PROMPT_URL_PATTERN, prompt); |urls| == 1 && !ReferenceShaped(lib, urls[0])
    ensures var urls, r := lib.reFindAll(PROMPT_URL_PATTERN, prompt), ParsedPrompt(lib, prompt, reference, target);
      r.0 == reference && r.1.Some? && r.1.value.domain == Lower(lib.urlparse(urls[0]).netloc)
      && (TargetShaped(lib, urls[0]) ==> r.1 == Some(TargetOf(lib, urls[0])))
      && (!TargetShaped(lib, urls[0]) ==> r.1.value.baseUrl == urls[0])
  {
    var urls := lib.reFindAll(PROMPT_URL_PATTERN, prompt);
    assert FirstReference(lib, urls) == 1;
  }

  /** The company-site phrase is read only when no URL and no earlier state gave a target. */
  lemma PhraseOnlyAsLastResort(lib: Lib, prompt: string, reference: Json, target: Option<Target>)
    requires ParsedPrompt(lib, prompt, reference, target).1 != PhraseTarget(lib, prompt)
    ensures ParsedPrompt(lib, prompt, reference, target).1.Some?
  {
  }

  /** The first pass of `_parse_user_prompt`: the first reference-shaped URL. */
  method ScanReference(lib: Lib, urls: seq<string>) returns (referenceUrl: Option<string>)
    ensures referenceUrl == PassesOf(lib, urls).referenceUrl
  {
    ghost var ri := FirstReference(lib, urls);
    referenceUrl := None;
    for i := 0 to |urls|
      invariant referenceUrl == (if ri < i then Some(urls[ri]) else None)
    {
      if ReferenceShaped(lib, urls[i]) && referenceUrl.None? {
        referenceUrl := Some(urls[i]);
      }
    }
  }

  /** The second pass: the first other URL shaped like a home or category page. */
  method ScanTarget(lib: Lib, urls: seq<string>, referenceUrl: Option<string>) returns (targetUrl: Option<string>)
    ensures var ti := FirstTarget(lib, urls, referenceUrl); targetUrl == (if ti < |urls| then Some(urls[ti]) else None)
  {
    ghost var ti := FirstTarget(lib, urls, referenceUrl);
    targetUrl := None;
    for i := 0 to |urls|
      invariant targetUrl == (if ti < i then Some(urls[ti]) else None)
    {
      if TargetCandidate(lib, urls[i], referenceUrl) && targetUrl.None? {
        targetUrl := Some(urls[i]);
      }
    }
  }

  /** `_parse_user_prompt`: the two passes over the URLs, then the fallbacks. */
  method ParseUserPrompt(lib: Lib, prompt: string, state: AgentState)
    modifies state`reference, state`target
    ensures (state.reference, state.target) == ParsedPrompt(lib, prompt, old(state.reference), old(state.target))
  {
    var urls := lib.reFindAll(PROMPT_URL_PATTERN, prompt);
    var referenceUrl := ScanReference(lib, urls);
    if referenceUrl.Some? {
      state.reference := ReferenceRecord(lib, referenceUrl.value);
    }
    var targetUrl := ScanTarget(lib, urls, referenceUrl);
    if targetUrl.Some? {
      state.target := Some(TargetOf(lib, targetUrl.value));
    }
    if referenceUrl.None? && targetUrl.None? && |urls| == 1 {
      var url := urls[0];
      if ReferenceShaped(lib, url) {
        // The first pass has already taken any reference-shaped URL.
        assert false;
      } else {
        state.target := Some(Target(Lower(lib.urlparse(url).netloc), url));
      }
    }
    if referenceUrl.Some? && targetUrl.None? {
      state.target := Some(SiteOf(lib, referenceUrl.value));
    }
    if state.target.None? {
      state.target := PhraseTarget(lib, prompt);
    }
  }

  // ---------------------------------------------------------------------------
  // _get_sources_from_state

  function SourceUrls(sources: seq<Source>): set<string>
  {
    set i | 0 <= i < |sources| :: sources[i].url
  }

  /** The URLs of a source list are distinct, and each source is titled with its URL. */
  predicate UrlTitled(sources: seq<Source>)
  {
    (forall i, j :: 0 <= i < j < |sources| ==> sources[i].url != sources[j].url)
    && (forall i :: 0 <= i < |sources| ==> sources[i].title == sources[i].url)
  }

  /** The URLs of a list with one more source: those before and its own. */
  lemma SourceUrlsSnoc(init: seq<Source>, last: Source)
    ensures SourceUrls(init + [last]) == SourceUrls(init) + {last.url}
  {
    var t := init + [last];
    forall u | u in SourceUrls(t) ensures u in SourceUrls(init) + {last.url} {
      var k :| 0 <= k < |t| && t[k].url == u;
      if k < |init| {
        assert t[k] == init[k];
      }
    }
    forall u | u in SourceUrls(init) + {last.url} ensures u in SourceUrls(t) {
      if u != last.url {
        var k :| 0 <= k < |init| && init[k].url == u;
        assert t[k] == init[k];
      } else {
        assert t[|init|] == last;
      }
    }
  }

  /** Appending a source for a new URL keeps the list distinct and extends its URL set by that URL. */
  lemma AppendNewUrl(sources: seq<Source>, url: string)
    requires UrlTitled(sources) && url !in SourceUrls(sources)
    ensures UrlTitled(sources + [Source(url, url)])
    ensures SourceUrls(sources + [Source(url, url)]) == SourceUrls(sources) + {url}
  {
    var t := sources + [Source(url, url)];
    SourceUrlsSnoc(sources, Source(url, url));
    assert forall k :: 0 <= k < |sources| ==> t[k] == sources[k];
    forall i, j | 0 <= i < j < |t| ensures t[i].url != t[j].url {
      if j == |sources| {
        assert sources[i].url in SourceUrls(sources);
      }
    }
  }

  /** A list of sources with distinct URLs has as many URLs as entries. */
  lemma {:induction false} DistinctUrlCount(sources: seq<Source>)
    requires forall i, j :: 0 <= i < j < |sources| ==> sources[i].url != sources[j].url
    ensures |SourceUrls(sources)| == |sources|
  {
    if |sources| > 0 {
      var init := sources[..|sources| - 1];
      var last := sources[|sources| - 1];
      assert forall k :: 0 <= k < |init| ==> init[k] == sources[k];
      DistinctUrlCount(init);
      assert sources == init + [last];
      SourceUrlsSnoc(init, last);
      assert last.url !in SourceUrls(init) by {
        forall k | 0 <= k < |init| ensures init[k].url != last.url {
          assert init[k] == sources[k];
        }
      }
    }
  }

  /**
   * `_get_sources_from_state`: one source per non-empty visited URL, titled
   * with the URL itself, in the set's iteration order.
   */
  method SourcesFromState(state: AgentState) returns (sources: seq<Source>)
    ensures SourceUrls(sources) == state.visited - {""}
    ensures |sources| == |state.visited - {""}|
    ensures forall i, j :: 0 <= i < j < |sources| ==> sources[i].url != sources[j].url
    ensures forall i :: 0 <= i < |sources| ==> sources[i].title == sources[i].url
  {
    sources := SourcesOfVisited(state.visited);
    DistinctUrlCount(sources);
  }

  /** The loop of `_get_sources_from_state`, over a copy of the visited set. */
  method SourcesOfVisited(visited: set<string>) returns (sources: seq<Source>)
    ensures SourceUrls(sources) == visited - {""}
    ensures UrlTitled(sources)
  {
    var rest := visited;
    var seen: set<string> := {};
    sources := [];
    while rest != {}
      invariant rest <= visited
      invariant seen == (visited - rest) - {""}
      invariant SourceUrls(sources) == seen
      invariant UrlTitled(sources)
      decreases |rest|
    {
      var url :| url in rest;
      rest := rest - {url};
      if url != "" && url !in seen {
        AppendNewUrl(sources, url);
        seen := seen + {url};
        sources := sources + [Source(url, url)];
      }
    }
  }
}
