/**
 * The page classifier: a six-verdict decision table over the page's
 * product signals, its blocked-page signals and the shape of its URL, plus
 * the strict filter that picks product-detail links out of a listing page.
 * The regular expressions are named by their text and evaluated by the
 * regex engine of `Lib`.
 */
module PageClassifier {
  import opened Strings
  import opened Values
  import opened Foreign
  import opened UrlCleaner
  import opened PageSignals

  datatype Verdict = Product | ListingWithProducts | ListingEmpty | Blocked | Generic | Error
  {
    /** The enum's string value. */
    function Value(): string
    {
      match this
      case Product => "product"
      case ListingWithProducts => "listing_with_products"
      case ListingEmpty => "listing_empty"
      case Blocked => "blocked"
      case Generic => "generic"
      case Error => "error"
    }
  }

  /** `PageVerdict(s)`, with a value that is no verdict read as ERROR. */
  function ParseVerdict(s: string): (v: Verdict)
    ensures v != Error ==> v.Value() == s
  {
    if s == "product" then Product
    else if s == "listing_with_products" then ListingWithProducts
    else if s == "listing_empty" then ListingEmpty
    else if s == "blocked" then Blocked
    else if s == "generic" then Generic
    else Error
  }

  /** Every verdict reads back as itself. */
  lemma ParseVerdictValue(v: Verdict)
    ensures ParseVerdict(v.Value()) == v
  {
  }

  // ---------------------------------------------------------------------------
  // Product signals

  const PRODUCT_LINK_PATTERNS: seq<string> :=
    ["/product/", "/p/", "/item/", "/detail/", "/buy/", "-\\d+\\.html", "/\\d+$"]

  const PRICE_PATTERN: string := "[\\d,]+\\.?\\d*\\s*(usd|eur|bgn|uah|rub|\U{20B4}|\U{20AC}|$|\U{A3})"

  predicate AnyMatch(lib: Lib, patterns: seq<string>, s: string)
  {
    exists i :: 0 <= i < |patterns| && Matches(lib, patterns[i], s)
  }

  /** A JSON-LD script counted as a product: a dict whose `@type` is "Product". */
  predicate CountsAsLdProduct(s: LdScript)
  {
    s.LdJson? && s.value.JObj? && s.value.FieldIs("@type", "Product")
  }

  /** The first test along the if/elif chain that an anchor passes, if any. */
  predicate ProductLikeAnchor(lib: Lib, a: Anchor)
  {
    a.href != ""
    && (AnyMatch(lib, PRODUCT_LINK_PATTERNS, Lower(a.href))
        || "product" in a.classes || "item" in a.classes || "card" in a.classes
        || Matches(lib, PRICE_PATTERN, Lower(a.text)))
  }

  function CountLdProducts(scripts: seq<LdScript>): (n: nat)
    ensures n <= |scripts|
  {
    if |scripts| == 0 then 0
    else CountLdProducts(scripts[..|scripts| - 1]) + (if CountsAsLdProduct(scripts[|scripts| - 1]) then 1 else 0)
  }

  function CountProductAnchors(lib: Lib, anchors: seq<Anchor>): (n: nat)
    ensures n <= |anchors|
  {
    if |anchors| == 0 then 0
    else CountProductAnchors(lib, anchors[..|anchors| - 1])
         + (if ProductLikeAnchor(lib, anchors[|anchors| - 1]) then 1 else 0)
  }

  /** The product count: structured data first, then the link heuristic. */
  function CombinedCount(jsonLd: nat, microdata: nat, links: nat): (c: nat)
    ensures jsonLd > 0 || microdata > 0 ==> c == (if jsonLd >= microdata then jsonLd else microdata)
    ensures jsonLd == 0 && microdata == 0 && links >= 3 ==> c == links
    ensures jsonLd == 0 && microdata == 0 && 0 < links < 3 ==> c == 1
    ensures c > 0 <==> jsonLd > 0 || microdata > 0 || links > 0
  {
    if jsonLd > 0 || microdata > 0 then (if jsonLd >= microdata then jsonLd else microdata)
    else if links >= 3 then links
    else if links > 0 then 1
    else 0
  }

  datatype ProductSignals = ProductSignals(count: nat, jsonLdCount: nat, microdataCount: nat, productLinksCount: nat)

  function ProductSignalsOf(lib: Lib, page: Page): (s: ProductSignals)
    ensures s.productLinksCount <= |page.anchors|
    ensures s.jsonLdCount <= |page.ldScripts|
  {
    if page.html == "" then ProductSignals(0, 0, 0, 0)
    else
      var ld := CountLdProducts(page.ldScripts);
      var links := CountProductAnchors(lib, page.anchors);
      ProductSignals(CombinedCount(ld, page.microdataProducts, links), ld, page.microdataProducts, links)
  }

  /** `_detect_products`: the counting loops over the scripts and the anchors. */
  method DetectProducts(lib: Lib, page: Page) returns (s: ProductSignals)
    ensures s == ProductSignalsOf(lib, page)
  {
    if page.html == "" {
      return ProductSignals(0, 0, 0, 0);
    }
    var jsonLd := 0;
    var i := 0;
    while i < |page.ldScripts|
      invariant 0 <= i <= |page.ldScripts|
      invariant jsonLd == CountLdProducts(page.ldScripts[..i])
    {
      assert page.ldScripts[..i + 1][..i] == page.ldScripts[..i];
      var script := page.ldScripts[i];
      if script.LdJson? && script.value.JObj? {
        if script.value.FieldIs("@type", "Product") {
          jsonLd := jsonLd + 1;
        }
      }
      i := i + 1;
    }
    assert page.ldScripts[..|page.ldScripts|] == page.ldScripts;
    var links := 0;
    var j := 0;
    while j < |page.anchors|
      invariant 0 <= j <= |page.anchors|
      invariant links == CountProductAnchors(lib, page.anchors[..j])
    {
      assert page.anchors[..j + 1][..j] == page.anchors[..j];
      var a := page.anchors[j];
      if a.href != "" {
        if AnyMatch(lib, PRODUCT_LINK_PATTERNS, Lower(a.href)) {
          links := links + 1;
        } else if "product" in a.classes || "item" in a.classes || "card" in a.classes {
          links := links + 1;
        } else if Matches(lib, PRICE_PATTERN, Lower(a.text)) {
          links := links + 1;
        }
      }
      j := j + 1;
    }
    assert page.anchors[..|page.anchors|] == page.anchors;
    var count := 0;
    if jsonLd > 0 || page.microdataProducts > 0 {
      count := if jsonLd >= page.microdataProducts then jsonLd else page.microdataProducts;
    } else if links >= 3 {
      count := links;
    } else if links > 0 {
      count := 1;
    }
    s := ProductSignals(count, jsonLd, page.microdataProducts, links);
  }

  /** A JSON-LD array at the top level of a script is never counted. */
  lemma {:induction false} TopLevelArraysNotCounted(scripts: seq<LdScript>)
    requires forall i :: 0 <= i < |scripts| ==> scripts[i].LdJson? && scripts[i].value.JArr?
    ensures CountLdProducts(scripts) == 0
    decreases |scripts|
  {
    if |scripts| > 0 {
      TopLevelArraysNotCounted(scripts[..|scripts| - 1]);
    }
  }

  /** Scripts that were not decoded never add to the count. */
  lemma {:induction false} UndecodedScriptsNotCounted(scripts: seq<LdScript>, extra: seq<LdScript>)
    requires forall i :: 0 <= i < |extra| ==> !extra[i].LdJson?
    ensures CountLdProducts(scripts + extra) == CountLdProducts(scripts)
    decreases |extra|
  {
    if |extra| > 0 {
      var init := extra[..|extra| - 1];
      assert (scripts + extra)[..|scripts + extra| - 1] == scripts + init;
      assert (scripts + extra)[|scripts + extra| - 1] == extra[|extra| - 1];
      UndecodedScriptsNotCounted(scripts, init);
    } else {
      assert scripts + extra == scripts;
    }
  }

  // ---------------------------------------------------------------------------
  // Blocked pages

  const CAPTCHA_KEYWORDS: seq<string> := ["captcha", "verify", "challenge", "recaptcha", "hcaptcha"]

  /** The keyword occurs in the form's action, id or joined classes, lower-cased. */
  predicate KeywordInForm(f: Form, k: string)
  {
    Contains(Lower(f.action), k) || Contains(Lower(f.id), k) || Contains(Lower(Join(f.classes, " ")), k)
  }

  predicate CaptchaForm(f: Form)
  {
    exists m :: 0 <= m < |CAPTCHA_KEYWORDS| && KeywordInForm(f, CAPTCHA_KEYWORDS[m])
  }

  predicate HasCaptchaForm(forms: seq<Form>)
  {
    exists i :: 0 <= i < |forms| && CaptchaForm(forms[i])
  }

  datatype BlockedSignals = BlockedSignals(isBlocked: bool, reason: string)

  const NOT_BLOCKED: BlockedSignals := BlockedSignals(false, "")

  function BlockedOf(page: Page): BlockedSignals
  {
    var tl := |Strip(page.text)|;
    if page.html == "" then NOT_BLOCKED
    else if tl < 200 && page.blockingElement then
      BlockedSignals(true, "Low content with blocking elements detected")
    else if HasCaptchaForm(page.forms) then
      BlockedSignals(true, "Captcha/verification form detected")
    else if page.metaRefresh && tl < 500 then
      BlockedSignals(true, "Meta refresh with low content (likely interstitial)")
    else if tl < 300 && page.scriptCount > 5 && tl < 200 then
      BlockedSignals(true, "Low content with excessive scripts (likely blocking page)")
    else NOT_BLOCKED
  }

  /** The loop over the page's forms, stopping at the first captcha keyword. */
  method FindCaptchaForm(forms: seq<Form>) returns (found: bool)
    ensures found == HasCaptchaForm(forms)
  {
    var i := 0;
    while i < |forms|
      invariant 0 <= i <= |forms|
      invariant forall j :: 0 <= j < i ==> !CaptchaForm(forms[j])
    {
      var f := forms[i];
      var k := 0;
      while k < |CAPTCHA_KEYWORDS|
        invariant 0 <= k <= |CAPTCHA_KEYWORDS|
        invariant forall m :: 0 <= m < k ==> !KeywordInForm(f, CAPTCHA_KEYWORDS[m])
      {
        if KeywordInForm(f, CAPTCHA_KEYWORDS[k]) {
          return true;
        }
        k := k + 1;
      }
      i := i + 1;
    }
    return false;
  }

  /** `_detect_blocked`: the checks in order, returning at the first that fires. */
  method DetectBlocked(page: Page) returns (r: BlockedSignals)
    ensures r == BlockedOf(page)
  {
    if page.html == "" {
      return NOT_BLOCKED;
    }
    var textLength := |Strip(page.text)|;
    if textLength < 200 && page.blockingElement {
      return BlockedSignals(true, "Low content with blocking elements detected");
    }
    var captcha := FindCaptchaForm(page.forms);
    if captcha {
      return BlockedSignals(true, "Captcha/verification form detected");
    }
    if page.metaRefresh && textLength < 500 {
      return BlockedSignals(true, "Meta refresh with low content (likely interstitial)");
    }
    if textLength < 300 {
      if page.scriptCount > 5 && textLength < 200 {
        return BlockedSignals(true, "Low content with excessive scripts (likely blocking page)");
      }
    }
    r := NOT_BLOCKED;
  }

  /**
   * A page is blocked exactly when one of the four checks fires; a captcha
   * form blocks whatever the amount of text.
   */
  lemma BlockedExactly(page: Page)
    ensures var tl := |Strip(page.text)|;
      BlockedOf(page).isBlocked <==>
        page.html != ""
        && ((tl < 200 && page.blockingElement) || HasCaptchaForm(page.forms)
            || (page.metaRefresh && tl < 500) || (tl < 200 && page.scriptCount > 5))
    ensures BlockedOf(page).isBlocked <==> BlockedOf(page).reason != ""
  {
  }

  // ---------------------------------------------------------------------------
  // URL shape

  const GENERIC_PATHS: seq<string> := ["/", "/home", "/index", "/search", "/category"]

  predicate IsGenericPath(pathLower: string)
  {
    exists i :: 0 <= i < |GENERIC_PATHS| && (pathLower == GENERIC_PATHS[i] || StartsWith(pathLower, GENERIC_PATHS[i] + "/"))
  }

  const LISTING_INDICATORS: seq<string> := [
    "/search", "/category", "/catalog", "/c/", "/list", "/category/", "/shop/", "/products",
    "/items", "?q=", "?search=", "?category=", "?filter=", "/l/"
  ]

  /** `_is_listing_url`: a fixed indicator occurs in the lower-cased path or query. */
  predicate IsListingUrl(lib: Lib, url: string)
  {
    var u := lib.urlparse(url);
    exists i :: 0 <= i < |LISTING_INDICATORS|
      && (Contains(Lower(u.path), LISTING_INDICATORS[i]) || Contains(Lower(u.query), LISTING_INDICATORS[i]))
  }

  // ---------------------------------------------------------------------------
  // Candidate product links of a listing page

  const STRICT_ALLOWLIST: seq<string> := [
    "/auto_[^/]+\\.html$", "/auto_[^/]+/\\d+\\.html$", "/product/[^/]+/\\d+", "/p/[^/]+",
    "/item/\\d+", "/detail/\\d+", "/products/[^/]+", "/\\d{6,}$"
  ]

  const BLOCKLIST: seq<string> := [
    "/search", "/category", "/catalog", "/filter", "/all", "/list", "/results",
    "/car/[^/]+$", "/car/[^/]+/[^/]+$"
  ]

  /** The candidate one anchor yields, if it passes every filter. */
  function CandidateOf(lib: Lib, baseUrl: string, a: Anchor): (r: Option<string>)
  {
    var href := Strip(a.href);
    if href == "" || StartsWith(href, "#") || StartsWith(href, "javascript:") then None
    else
      var absolute := lib.urljoin(baseUrl, href);
      var u := lib.urlparse(absolute);
      if !IsHttp(u) then None
      else if Lower(u.netloc) != Lower(lib.urlparse(baseUrl).netloc) then None
      else if !AnyMatch(lib, STRICT_ALLOWLIST, Lower(u.path)) || AnyMatch(lib, BLOCKLIST, Lower(u.path)) then None
      else Some(Clean(lib, absolute))
  }

  /** What passing the filter means: a same-site http(s) link to a detail page, cleaned. */
  lemma CandidateOfPasses(lib: Lib, baseUrl: string, a: Anchor)
    ensures var r := CandidateOf(lib, baseUrl, a);
      var absolute := lib.urljoin(baseUrl, Strip(a.href));
      var u := lib.urlparse(absolute);
      r.Some? <==>
        !(Strip(a.href) == "" || StartsWith(Strip(a.href), "#") || StartsWith(Strip(a.href), "javascript:"))
        && IsHttp(u) && Lower(u.netloc) == Lower(lib.urlparse(baseUrl).netloc)
        && AnyMatch(lib, STRICT_ALLOWLIST, Lower(u.path)) && !AnyMatch(lib, BLOCKLIST, Lower(u.path))
    ensures var r := CandidateOf(lib, baseUrl, a);
      r.Some? ==> r.value == Clean(lib, lib.urljoin(baseUrl, Strip(a.href)))
  {
  }

  predicate Distinct(xs: seq<string>)
  {
    forall i, j :: 0 <= i < j < |xs| ==> xs[i] != xs[j]
  }

  /** The present values in first-seen order, each once. */
  function FirstSeen(xs: seq<Option<string>>): (r: seq<string>)
    ensures Distinct(r)
  {
    if |xs| == 0 then []
    else
      var prev := FirstSeen(xs[..|xs| - 1]);
      var c := xs[|xs| - 1];
      if c.Some? && c.value !in prev then prev + [c.value] else prev
  }

  /** A value is kept exactly when it is present somewhere. */
  lemma {:induction false} FirstSeenMembers(xs: seq<Option<string>>, x: string)
    ensures x in FirstSeen(xs) <==> exists i :: 0 <= i < |xs| && xs[i] == Some(x)
    decreases |xs|
  {
    if |xs| > 0 {
      var init := xs[..|xs| - 1];
      FirstSeenMembers(init, x);
      assert forall i :: 0 <= i < |init| ==> init[i] == xs[i];
      if x in FirstSeen(xs) && x !in FirstSeen(init) {
        assert xs[|xs| - 1] == Some(x);
      }
    }
  }

  function CandidateOptions(lib: Lib, baseUrl: string, anchors: seq<Anchor>): (r: seq<Option<string>>)
    ensures |r| == |anchors|
    ensures forall i :: 0 <= i < |anchors| ==> r[i] == CandidateOf(lib, baseUrl, anchors[i])
  {
    seq(|anchors|, i requires 0 <= i < |anchors| => CandidateOf(lib, baseUrl, anchors[i]))
  }

  /** The candidates in first-seen order, each once (before the cap). */
  function CandidatesOf(lib: Lib, baseUrl: string, anchors: seq<Anchor>): seq<string>
  {
    FirstSeen(CandidateOptions(lib, baseUrl, anchors))
  }

  /** A link is a candidate exactly when some anchor yields it. */
  lemma CandidatesOfMembers(lib: Lib, baseUrl: string, anchors: seq<Anchor>, x: string)
    ensures x in CandidatesOf(lib, baseUrl, anchors)
            <==> exists i :: 0 <= i < |anchors| && CandidateOf(lib, baseUrl, anchors[i]) == Some(x)
  {
    FirstSeenMembers(CandidateOptions(lib, baseUrl, anchors), x);
  }

  const MAX_CANDIDATES: nat := 50

  /** `_extract_product_candidate_links`: empty HTML has none; otherwise the first fifty candidates. */
  method ExtractCandidateLinks(lib: Lib, html: string, baseUrl: string, anchors: seq<Anchor>)
    returns (r: seq<string>)
    ensures r == if html == "" then [] else SliceTo(CandidatesOf(lib, baseUrl, anchors), MAX_CANDIDATES)
  {
    if html == "" {
      return [];
    }
    var candidates := FilterAnchors(lib, baseUrl, anchors);
    r := SliceTo(candidates, MAX_CANDIDATES);
  }

  /** Appending one more option to the list that `FirstSeen` walks, with `seen` holding what is kept so far. */
  lemma FirstSeenStep(xs: seq<Option<string>>, i: int, prev: seq<string>, seen: set<string>)
    requires 0 <= i < |xs|
    requires prev == FirstSeen(xs[..i])
    requires forall x :: x in seen <==> x in prev
    ensures FirstSeen(xs[..i + 1]) == if xs[i].Some? && xs[i].value !in seen then prev + [xs[i].value] else prev
  {
    assert xs[..i + 1][..i] == xs[..i];
  }

  /** The filtering loop of `_extract_product_candidate_links`, with its `seen` set. */
  method FilterAnchors(lib: Lib, baseUrl: string, anchors: seq<Anchor>) returns (candidates: seq<string>)
    ensures candidates == CandidatesOf(lib, baseUrl, anchors)
  {
    ghost var opts := CandidateOptions(lib, baseUrl, anchors);
    var seen: set<string> := {};
    candidates := [];
    var i := 0;
    while i < |anchors|
      invariant 0 <= i <= |anchors|
      invariant candidates == FirstSeen(opts[..i])
      invariant forall x :: x in seen <==> x in candidates
    {
      var normalized := CandidateOf(lib, baseUrl, anchors[i]);
      assert opts[i] == normalized;
      FirstSeenStep(opts, i, candidates, seen);
      if normalized.Some? && normalized.value !in seen {
        seen := seen + {normalized.value};
        candidates := candidates + [normalized.value];
      }
      i := i + 1;
    }
    assert opts[..|anchors|] == opts;
  }

  // ---------------------------------------------------------------------------
  // The decision table

  datatype Classification = Classification(verdict: Verdict, productCount: nat, reason: string, candidates: seq<string>)

  predicate HasProductSignals(lib: Lib, page: Page)
  {
    ProductSignalsOf(lib, page).count > 0
  }

  predicate IsGenericUrl(lib: Lib, url: string)
  {
    IsGenericPath(Lower(lib.urlparse(url).path))
  }

  function CandidateLinks(lib: Lib, page: Page, url: string): seq<string>
  {
    if page.html == "" then [] else SliceTo(CandidatesOf(lib, url, page.anchors), MAX_CANDIDATES)
  }

  /** `classify_page`. */
  function ClassifyPage(lib: Lib, page: Page, url: string): (c: Classification)
    ensures page.html == "" ==> c.verdict == Error && c.productCount == 0
    ensures c.verdict == Product || c.verdict == ListingWithProducts ==> c.productCount >= 1
    ensures c.verdict != Product && c.verdict != ListingWithProducts ==> c.productCount == 0
    ensures page.html != "" && IsGenericUrl(lib, url) && !HasProductSignals(lib, page) ==> c.verdict == Generic
    ensures c.verdict == Generic ==> IsGenericUrl(lib, url) && !HasProductSignals(lib, page)
    ensures page.html != "" && !(IsGenericUrl(lib, url) && !HasProductSignals(lib, page)) && BlockedOf(page).isBlocked
            ==> c.verdict == Blocked
    ensures c.verdict == ListingEmpty <==>
      page.html != "" && !(IsGenericUrl(lib, url) && !HasProductSignals(lib, page)) && !BlockedOf(page).isBlocked
      && IsListingUrl(lib, url) && ProductSignalsOf(lib, page).count == 0
    ensures c.candidates != [] ==> c.verdict == ListingWithProducts && IsListingUrl(lib, url)
    ensures page.html != "" && !(IsGenericUrl(lib, url) && !HasProductSignals(lib, page)) && !BlockedOf(page).isBlocked ==>
      var count := ProductSignalsOf(lib, page).count;
      (c.verdict == ListingWithProducts <==> IsListingUrl(lib, url) && count > 0)
      && (c.verdict == Product <==> !IsListingUrl(lib, url) && (count > 0 || |page.text| > 500))
      && (c.verdict == Error <==> !IsListingUrl(lib, url) && count == 0 && |page.text| <= 500)
    ensures c.verdict == ListingWithProducts ==> c.productCount == ProductSignalsOf(lib, page).count
    ensures c.verdict == Product ==>
      c.productCount == (if ProductSignalsOf(lib, page).count > 0 then ProductSignalsOf(lib, page).count else 1)
  {
    if page.html == "" then Classification(Error, 0, "No HTML content", [])
    else if IsGenericUrl(lib, url) && !HasProductSignals(lib, page) then
      Classification(Generic, 0, "Generic redirect page with no products", [])
    else if BlockedOf(page).isBlocked then
      Classification(Blocked, 0, BlockedOf(page).reason, [])
    else
      var count := ProductSignalsOf(lib, page).count;
      var listing := IsListingUrl(lib, url);
      if count > 0 then
        if listing then
          Classification(ListingWithProducts, count,
                         "Listing page with " + NatToString(count) + " products detected",
                         CandidateLinks(lib, page, url))
        else Classification(Product, count, "Product page detected", [])
      else if listing then Classification(ListingEmpty, 0, "Listing/search page with no products", [])
      else if |page.text| > 500 then
        Classification(Product, 1, "Potential product page (no schema but has content)", [])
      else Classification(Error, 0, "Page has insufficient content", [])
  }

  /** Every candidate the classifier reports passes the strict filter and is reported once. */
  lemma CandidatesAreFiltered(lib: Lib, page: Page, url: string)
    ensures var cs := ClassifyPage(lib, page, url).candidates;
      |cs| <= MAX_CANDIDATES && Distinct(cs)
      && forall x :: x in cs ==> exists i :: 0 <= i < |page.anchors| && CandidateOf(lib, url, page.anchors[i]) == Some(x)
  {
    var cs := ClassifyPage(lib, page, url).candidates;
    if cs != [] {
      assert cs == SliceTo(CandidatesOf(lib, url, page.anchors), MAX_CANDIDATES);
      SlicedCandidates(lib, url, page.anchors);
    }
  }

  /** The first `MAX_CANDIDATES` strict candidates are distinct, and each comes from some anchor. */
  lemma SlicedCandidates(lib: Lib, baseUrl: string, anchors: seq<Anchor>)
    ensures var cs := SliceTo(CandidatesOf(lib, baseUrl, anchors), MAX_CANDIDATES);
      |cs| <= MAX_CANDIDATES && Distinct(cs)
      && forall x :: x in cs ==> exists i :: 0 <= i < |anchors| && CandidateOf(lib, baseUrl, anchors[i]) == Some(x)
  {
    var all := CandidatesOf(lib, baseUrl, anchors);
    var cs := SliceTo(all, MAX_CANDIDATES);
    forall x | x in cs
      ensures exists i :: 0 <= i < |anchors| && CandidateOf(lib, baseUrl, anchors[i]) == Some(x)
    {
      var k :| 0 <= k < |cs| && cs[k] == x;
      assert all[k] == x;
      CandidatesOfMembers(lib, baseUrl, anchors, x);
    }
  }
}
