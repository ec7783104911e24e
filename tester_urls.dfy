/**
 * The URL identity helpers of the standalone tester: `normalize_url`,
 * `is_same_domain` and `extract_links_rich`.
 *
 * A URL is the six-component record `urlparse` splits it into (section 3 of
 * RFC 3986); `urlparse`, `urlunparse` and `urljoin` are `Lib` functions.
 * The HTML parser is not modelled: a page is its anchors with their href,
 * their stripped text and the chain of their ancestors.
 */
module TesterUrls {
  import opened Strings
  import opened Values
  import opened Foreign

  // ---------------------------------------------------------------------------
  // normalize_url

  /** `path.rstrip("/") or "/"`. */
  function NormalPath(path: string): string
  {
    var p := RStripChars(path, {'/'});
    if p == [] then "/" else p
  }

  /**
   * The normal path is "/" iff the path is all slashes; otherwise it is the
   * path with its run of trailing slashes removed, and it ends in something
   * else.
   */
  lemma NormalPathFacts(path: string)
    ensures NormalPath(path) == "/" <==> forall i :: 0 <= i < |path| ==> path[i] == '/'
    ensures var r := NormalPath(path); r != "/" ==>
      (r != [] && r[|r| - 1] != '/' && StartsWith(path, r) && forall i :: |r| <= i < |path| ==> path[i] == '/')
  {
    AllStripped(path);
    var p := RStripChars(path, {'/'});
    assert p == path[..|p|];
  }

  lemma {:induction false} AllStripped(path: string)
    ensures forall i :: |RStripChars(path, {'/'})| <= i < |path| ==> path[i] == '/'
    decreases |path|
  {
    if |path| > 0 && path[|path| - 1] == '/' {
      AllStripped(path[..|path| - 1]);
    }
  }

  /** Normalizing a normalized path changes nothing. */
  lemma NormalPathIdempotent(path: string)
    ensures NormalPath(NormalPath(path)) == NormalPath(path)
  {
    var r := NormalPath(path);
    if r != "/" {
      assert RStripChars(r, {'/'}) == r;
    } else {
      assert RStripChars("/", {'/'}) == RStripChars("", {'/'});
    }
  }

  /** The components `normalize_url` reassembles. */
  function NormalParts(lib: Lib, url: string): (u: Url)
    ensures var p := lib.urlparse(url);
      u.scheme == p.scheme && u.netloc == p.netloc && u.params == p.params && u.query == p.query
    ensures u.fragment == "" && u.path == NormalPath(lib.urlparse(url).path)
  {
    var p := lib.urlparse(url);
    Url(p.scheme, p.netloc, NormalPath(p.path), p.params, p.query, "")
  }

  /**
   * `normalize_url`: no fragment, no trailing slash, "/" for an empty path;
   * a URL `urlparse` raises on comes back as it is.
   */
  function NormalizeUrl(lib: Lib, url: string): string
  {
    if lib.urlparseError(url).Some? then url else lib.urlunparse(NormalParts(lib, url))
  }

  /**
   * Where `urlparse` reads back what `urlunparse` wrote, normalizing twice
   * is normalizing once; a URL `urlparse` raises on is a fixed point.
   */
  lemma NormalizeIdempotent(lib: Lib, url: string)
    requires lib.urlparseError(url).None? ==>
      lib.urlparseError(NormalizeUrl(lib, url)).None? && lib.urlparse(NormalizeUrl(lib, url)) == NormalParts(lib, url)
    ensures NormalizeUrl(lib, NormalizeUrl(lib, url)) == NormalizeUrl(lib, url)
    ensures lib.urlparseError(url).Some? ==> NormalizeUrl(lib, url) == url
  {
    NormalPathIdempotent(lib.urlparse(url).path);
  }

  // ---------------------------------------------------------------------------
  // is_same_domain

  /** `s.split("/")[0]`. */
  function FirstSegment(s: string): (r: string)
    ensures StartsWith(s, r) && (r == s || s[|r|] == '/')
    ensures forall i :: 0 <= i < |r| ==> r[i] != '/'
  {
    s[..IndexFrom(s, '/', 0)]
  }

  /** The target domain with its scheme and path removed: `lower().replace(...).replace(...).split("/")[0]`. */
  function TargetHost(target: string): (r: string)
    ensures forall i :: 0 <= i < |r| ==> r[i] != '/'
  {
    FirstSegment(ReplaceAll(ReplaceAll(Lower(target), "https://", ""), "http://", ""))
  }

  /**
   * `is_same_domain`: the URL's host is the target host or one of its
   * subdomains; a URL `urlparse` raises on is on no domain.
   */
  predicate IsSameDomain(lib: Lib, url: string, target: string)
  {
    if lib.urlparseError(url).Some? then false
    else
      var host := Lower(lib.urlparse(url).netloc);
      var t := TargetHost(target);
      host == t || EndsWith(host, "." + t)
  }

  /**
   * A URL on the domain is one `urlparse` accepts, and a suffix match counts
   * only at a label boundary: `notexample.com` is not on `example.com`.
   */
  lemma SuffixAtLabelBoundary(lib: Lib, url: string, target: string)
    requires IsSameDomain(lib, url, target)
    ensures lib.urlparseError(url).None?
    ensures var host, t := Lower(lib.urlparse(url).netloc), TargetHost(target);
      host == t || (|host| > |t| && host[|host| - |t| - 1] == '.' && host[|host| - |t|..] == t)
  {
    var host, t := Lower(lib.urlparse(url).netloc), TargetHost(target);
    if host != t {
      assert host[|host| - |t| - 1..] == "." + t;
      assert host[|host| - |t|..] == host[|host| - |t| - 1..][1..];
    }
  }

  /** The comparison ignores the case of the target. */
  lemma SameDomainIgnoresTargetCase(lib: Lib, url: string, target: string)
    ensures IsSameDomain(lib, url, Lower(target)) == IsSameDomain(lib, url, target)
  {
    LowerIdempotent(target);
  }

  /**
   * A host that only ends with the target's letters is not on the target's
   * domain: `notexample.com` is not on `example.com`.
   */
  lemma LookalikeHostRejected(lib: Lib, url: string, target: string, prefix: string)
    requires Lower(lib.urlparse(url).netloc) == prefix + TargetHost(target)
    requires prefix != [] && prefix[|prefix| - 1] != '.'
    ensures !IsSameDomain(lib, url, target)
  {
    var host, t := Lower(lib.urlparse(url).netloc), TargetHost(target);
    assert host[|prefix| - 1] == prefix[|prefix| - 1];
  }

  // ---------------------------------------------------------------------------
  // extract_links_rich

  /** An element above an anchor: its tag name, classes and `id`. */
  datatype Element = Element(name: string, classes: seq<string>, id: Option<string>)

  /** An `<a href=...>` element: its href as written, its stripped text and its ancestors, nearest first. */
  datatype RichAnchor = RichAnchor(href: string, text: string, ancestors: seq<Element>)

  datatype RichLink = RichLink(url: string, text: string, isInternal: bool, section: string)

  const NAV_WORDS: seq<string> := ["nav", "navigation", "menu"]
  const HEADER_WORDS: seq<string> := ["header", "top"]
  const FOOTER_WORDS: seq<string> := ["footer", "bottom"]
  const SECTION_TAGS: seq<string> := ["nav", "header", "footer"]

  /** `any(kw in classes or kw in id for kw in words)`. */
  predicate AnyWordIn(words: seq<string>, classes: string, id: string)
  {
    exists i :: 0 <= i < |words| && (Contains(classes, words[i]) || Contains(id, words[i]))
  }

  /** The section one ancestor decides, if it decides one. */
  function ElementSection(e: Element): (r: Option<string>)
    ensures r.Some? ==> r.value in ["nav", "header", "footer", "body"]
  {
    var classes := Lower(Join(e.classes, " "));
    var id := Lower(OrEmpty(e.id));
    if AnyWordIn(NAV_WORDS, classes, id) then Some("nav")
    else if AnyWordIn(HEADER_WORDS, classes, id) then Some("header")
    else if AnyWordIn(FOOTER_WORDS, classes, id) then Some("footer")
    else if e.name in SECTION_TAGS then Some(e.name)
    else if e.name == "main" || Contains(classes, "main") then Some("body")
    else None
  }

  /**
   * The section of an anchor: the first of its five nearest ancestors that
   * decides one; else "body" inside any `<main>`; else "unknown".
   */
  function SectionOf(ancestors: seq<Element>): (r: string)
    ensures r in ["nav", "header", "footer", "body", "unknown"]
    ensures r == "unknown" ==> forall i :: 0 <= i < |ancestors| ==> ancestors[i].name != "main"
    ensures (forall i :: 0 <= i < |ancestors| && i < 5 ==> ElementSection(ancestors[i]).None?) ==>
      r == (if exists i :: 0 <= i < |ancestors| && ancestors[i].name == "main" then "body" else "unknown")
  {
    var near := FirstSome(SliceTo(ancestors, 5), ElementSection);
    if near.Some? then near.value
    else if exists i :: 0 <= i < |ancestors| && ancestors[i].name == "main" then "body"
    else
      assert forall i :: 0 <= i < |ancestors| && i < 5 ==> SliceTo(ancestors, 5)[i] == ancestors[i];
      "unknown"
  }

  /** The absolute URL of an anchor that can be a link: not empty, in-page or script, and http(s). */
  function AbsoluteOf(lib: Lib, baseUrl: string, a: RichAnchor): (r: Option<string>)
    ensures r.Some? ==> IsHttp(lib.urlparse(r.value))
  {
    var href := Strip(a.href);
    if href == "" || StartsWith(href, "#") || StartsWith(href, "javascript:") then None
    else
      var absolute := lib.urljoin(baseUrl, href);
      if IsHttp(lib.urlparse(absolute)) then Some(absolute) else None
  }

  /** The record of one anchor's link, before the de-duplication. */
  function LinkRecord(lib: Lib, baseUrl: string, absolute: string, a: RichAnchor): (l: RichLink)
    ensures l.url == NormalizeUrl(lib, absolute) && |l.text| <= 200
    ensures l.isInternal <==>
      (Lower(lib.urlparse(absolute).netloc) == Lower(lib.urlparse(baseUrl).netloc) || lib.urlparse(absolute).netloc == "")
  {
    var netloc := lib.urlparse(absolute).netloc;
    RichLink(
      NormalizeUrl(lib, absolute),
      SliceTo(a.text, 200),
      Lower(netloc) == Lower(lib.urlparse(baseUrl).netloc) || netloc == "",
      SectionOf(a.ancestors))
  }

  /** The link one anchor contributes, before the de-duplication. */
  function LinkOf(lib: Lib, baseUrl: string, a: RichAnchor): (r: Option<RichLink>)
    ensures r.Some? <==> AbsoluteOf(lib, baseUrl, a).Some?
    ensures r.Some? ==> r.value == LinkRecord(lib, baseUrl, AbsoluteOf(lib, baseUrl, a).value, a)
  {
    var abs := AbsoluteOf(lib, baseUrl, a);
    if abs.Some? then Some(LinkRecord(lib, baseUrl, abs.value, a)) else None
  }

  /** Each anchor's link, in document order. */
  function Candidates(lib: Lib, baseUrl: string, anchors: seq<RichAnchor>): (cs: seq<Option<RichLink>>)
    ensures |cs| == |anchors| && forall i :: 0 <= i < |anchors| ==> cs[i] == LinkOf(lib, baseUrl, anchors[i])
  {
    seq(|anchors|, i requires 0 <= i < |anchors| => LinkOf(lib, baseUrl, anchors[i]))
  }

  function UrlsOf(links: seq<RichLink>): set<string>
  {
    set i | 0 <= i < |links| :: links[i].url
  }

  /** The links in order, the first one kept for each URL. */
  function Dedupe(cs: seq<Option<RichLink>>): seq<RichLink>
  {
    if |cs| == 0 then []
    else
      var prev := Dedupe(cs[..|cs| - 1]);
      var last := cs[|cs| - 1];
      if last.None? || last.value.url in UrlsOf(prev) then prev else prev + [last.value]
  }

  lemma UrlsOfAppend(links: seq<RichLink>, l: RichLink)
    ensures UrlsOf(links + [l]) == UrlsOf(links) + {l.url}
  {
    var r := links + [l];
    assert forall k :: 0 <= k < |links| ==> r[k] == links[k];
    assert r[|links|] == l;
  }

  predicate DistinctUrls(r: seq<RichLink>)
  {
    forall i, j :: 0 <= i < j < |r| ==> r[i].url != r[j].url
  }

  /** Every candidate's URL is among the kept links. */
  predicate Covers(cs: seq<Option<RichLink>>, r: seq<RichLink>)
  {
    forall i :: 0 <= i < |cs| && cs[i].Some? ==> cs[i].value.url in UrlsOf(r)
  }

  /** Every kept link is a candidate. */
  predicate Drawn(cs: seq<Option<RichLink>>, r: seq<RichLink>)
  {
    forall k :: 0 <= k < |r| ==> Some(r[k]) in cs
  }

  /** Appending a link with an unseen URL keeps the URLs distinct. */
  lemma AppendFreshDistinct(prev: seq<RichLink>, l: RichLink)
    requires DistinctUrls(prev) && l.url !in UrlsOf(prev)
    ensures DistinctUrls(prev + [l])
  {
    var r := prev + [l];
    forall i, j | 0 <= i < j < |r| ensures r[i].url != r[j].url {
      if j == |prev| {
        assert r[i] == prev[i];
        assert prev[i].url in UrlsOf(prev);
      } else {
        assert r[i] == prev[i] && r[j] == prev[j];
      }
    }
  }

  /** One more candidate: covered when its URL is kept and the earlier ones' URLs still are. */
  lemma CoversStep(cs: seq<Option<RichLink>>, prev: seq<RichLink>, r: seq<RichLink>)
    requires |cs| > 0 && Covers(cs[..|cs| - 1], prev) && UrlsOf(prev) <= UrlsOf(r)
    requires cs[|cs| - 1].Some? ==> cs[|cs| - 1].value.url in UrlsOf(r)
    ensures Covers(cs, r)
  {
    forall i | 0 <= i < |cs| && cs[i].Some? ensures cs[i].value.url in UrlsOf(r) {
      if i < |cs| - 1 {
        assert cs[..|cs| - 1][i] == cs[i];
      }
    }
  }

  /** Links drawn from the earlier candidates, with the last one possibly appended, are drawn from all. */
  lemma DrawnStep(cs: seq<Option<RichLink>>, prev: seq<RichLink>, r: seq<RichLink>)
    requires |cs| > 0 && Drawn(cs[..|cs| - 1], prev)
    requires r == prev || (cs[|cs| - 1].Some? && r == prev + [cs[|cs| - 1].value])
    ensures Drawn(cs, r)
  {
    var init := cs[..|cs| - 1];
    assert forall x :: x in init ==> x in cs;
    forall k | 0 <= k < |r| ensures Some(r[k]) in cs {
      if k < |prev| {
        assert r[k] == prev[k];
      } else {
        assert cs[|cs| - 1] == Some(r[k]);
      }
    }
  }

  /**
   * The kept links have distinct URLs, every link's URL is among them, and
   * each kept link is one of the links, the first with its URL.
   */
  lemma {:induction false} DedupeFacts(cs: seq<Option<RichLink>>)
    ensures var r := Dedupe(cs);
      (forall i, j :: 0 <= i < j < |r| ==> r[i].url != r[j].url)
      && (forall i :: 0 <= i < |cs| && cs[i].Some? ==> cs[i].value.url in UrlsOf(r))
      && (forall k :: 0 <= k < |r| ==> Some(r[k]) in cs)
  {
    DedupeHolds(cs);
  }

  lemma {:induction false} DedupeHolds(cs: seq<Option<RichLink>>)
    ensures DistinctUrls(Dedupe(cs)) && Covers(cs, Dedupe(cs)) && Drawn(cs, Dedupe(cs))
  {
    if |cs| > 0 {
      var init := cs[..|cs| - 1];
      DedupeHolds(init);
      var prev := Dedupe(init);
      var last := cs[|cs| - 1];
      var r := Dedupe(cs);
      if last.Some? && last.value.url !in UrlsOf(prev) {
        assert r == prev + [last.value];
        AppendFreshDistinct(prev, last.value);
        UrlsOfAppend(prev, last.value);
      } else {
        assert r == prev;
      }
      CoversStep(cs, prev, r);
      DrawnStep(cs, prev, r);
    }
  }

  /** `extract_links_rich`: nothing for an empty page or base URL, else at most 200 links. */
  function LinksRich(lib: Lib, html: string, baseUrl: string, anchors: seq<RichAnchor>): seq<RichLink>
  {
    if html == "" || baseUrl == "" then [] else SliceTo(Dedupe(Candidates(lib, baseUrl, anchors)), 200)
  }

  /**
   * At most 200 links, texts of at most 200 characters, no two with the
   * same normalized URL, each the link of one of the page's anchors.
   */
  lemma LinksRichFacts(lib: Lib, html: string, baseUrl: string, anchors: seq<RichAnchor>)
    ensures var r := LinksRich(lib, html, baseUrl, anchors);
      (html == "" || baseUrl == "" ==> r == [])
      && |r| <= 200
      && (forall i, j :: 0 <= i < j < |r| ==> r[i].url != r[j].url)
      && (forall k :: 0 <= k < |r| ==>
            |r[k].text| <= 200 && exists i :: 0 <= i < |anchors| && LinkOf(lib, baseUrl, anchors[i]) == Some(r[k]))
  {
    var cs := Candidates(lib, baseUrl, anchors);
    DedupeFacts(cs);
    var all := Dedupe(cs);
    var r := LinksRich(lib, html, baseUrl, anchors);
    forall k | 0 <= k < |r|
      ensures |r[k].text| <= 200 && exists i :: 0 <= i < |anchors| && LinkOf(lib, baseUrl, anchors[i]) == Some(r[k])
    {
      assert r[k] == all[k];
      var i :| 0 <= i < |cs| && cs[i] == Some(all[k]);
      assert LinkOf(lib, baseUrl, anchors[i]) == Some(r[k]);
    }
  }

  /** Below the cap, the URL of every anchor that can be a link is listed. */
  lemma LinksRichComplete(lib: Lib, html: string, baseUrl: string, anchors: seq<RichAnchor>, i: int)
    requires html != "" && baseUrl != "" && |Dedupe(Candidates(lib, baseUrl, anchors))| <= 200
    requires 0 <= i < |anchors| && AbsoluteOf(lib, baseUrl, anchors[i]).Some?
    ensures NormalizeUrl(lib, AbsoluteOf(lib, baseUrl, anchors[i]).value) in UrlsOf(LinksRich(lib, html, baseUrl, anchors))
  {
    var cs := Candidates(lib, baseUrl, anchors);
    DedupeFacts(cs);
    assert cs[i].Some?;
  }

  /** The loop of `extract_links_rich` over the page's anchors, with its `seen` set. */
  method ExtractLinksRich(lib: Lib, html: string, baseUrl: string, anchors: seq<RichAnchor>)
    returns (links: seq<RichLink>)
    ensures links == LinksRich(lib, html, baseUrl, anchors)
  {
    if html == "" || baseUrl == "" {
      return [];
    }
    ghost var cs := Candidates(lib, baseUrl, anchors);
    var seen: set<string> := {};
    links := [];
    var i := 0;
    while i < |anchors|
      invariant i <= |anchors|
      invariant links == Dedupe(cs[..i])
      invariant seen == UrlsOf(links)
    {
      assert cs[..i + 1][..i] == cs[..i];
      var absolute := AbsoluteOf(lib, baseUrl, anchors[i]);
      if absolute.Some? {
        var normalized := NormalizeUrl(lib, absolute.value);
        if normalized !in seen {
          seen := seen + {normalized};
          var link := LinkRecord(lib, baseUrl, absolute.value, anchors[i]);
          UrlsOfAppend(links, link);
          links := links + [link];
        }
      }
      i := i + 1;
    }
    assert cs[..i] == cs;
    links := SliceTo(links, 200);
  }
}
