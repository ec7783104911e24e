/**
 * Page text truncation and the sorted, de-duplicated link list of a page.
 * The HTML parser is not modelled: a page is its HTML string (only whether
 * it is empty matters here) and the `href` values of its anchors.
 */
module HtmlExtract {
  import opened Strings
  import opened Values
  import opened Foreign
  import opened Config
  import opened UrlCleaner

  const TRUNCATION_MARK: string := "... [truncated]"

  /** Cut `text` to `maxLength` characters and mark the cut. */
  function Truncate(text: string, maxLength: int): (r: string)
    ensures |text| <= maxLength ==> r == text
    ensures 0 <= maxLength < |text| ==> r == text[..maxLength] + TRUNCATION_MARK
    ensures maxLength >= 0 ==> |r| <= maxLength + |TRUNCATION_MARK|
  {
    if |text| > maxLength then SliceTo(text, maxLength) + TRUNCATION_MARK else text
  }

  /** `max_length or MAX_PAGE_TEXT_LENGTH`: an absent or zero limit means the default. */
  function EffectiveMax(maxLength: Option<int>): (m: int)
    ensures maxLength == None || maxLength == Some(0) ==> m == MAX_PAGE_TEXT_LENGTH
    ensures maxLength.Some? && maxLength.value != 0 ==> m == maxLength.value
  {
    if maxLength.None? || maxLength.value == 0 then MAX_PAGE_TEXT_LENGTH else maxLength.value
  }

  /**
   * `extract_text`: the main-content extractor's text, stripped, when it
   * finds any; otherwise the whole visible text.  Both are truncated alike.
   */
  function ExtractText(lib: Lib, html: string, maxLength: Option<int>): (r: string)
    ensures html == "" ==> r == ""
    ensures EffectiveMax(maxLength) >= 0 ==> |r| <= EffectiveMax(maxLength) + |TRUNCATION_MARK|
  {
    if html == "" then ""
    else
      var m := EffectiveMax(maxLength);
      var main := lib.trafilatura(html);
      if main.Some? && main.value != "" then Truncate(Strip(main.value), m)
      else Truncate(lib.soupText(html), m)
  }

  /** Anchors that cannot name another page: empty, in-page or script links. */
  predicate SkippedHref(href: string)
  {
    href == "" || StartsWith(href, "#") || StartsWith(href, "javascript:")
  }

  /** The link one anchor contributes, if any: resolved, http(s) only, cleaned. */
  function LinkOf(lib: Lib, baseUrl: string, rawHref: string): (r: Option<string>)
    ensures r.Some? <==> !SkippedHref(Strip(rawHref)) && IsHttp(lib.urlparse(lib.urljoin(baseUrl, Strip(rawHref))))
    ensures r.Some? ==> r.value == Clean(lib, lib.urljoin(baseUrl, Strip(rawHref)))
  {
    var href := Strip(rawHref);
    if SkippedHref(href) then None
    else
      var absolute := lib.urljoin(baseUrl, href);
      if IsHttp(lib.urlparse(absolute)) then Some(Clean(lib, absolute)) else None
  }

  /** The set of links the anchors contribute. */
  function LinkSet(lib: Lib, baseUrl: string, hrefs: seq<string>): (r: set<string>)
    ensures forall x :: x in r <==> exists i :: 0 <= i < |hrefs| && LinkOf(lib, baseUrl, hrefs[i]) == Some(x)
  {
    if |hrefs| == 0 then {}
    else
      var init := LinkSet(lib, baseUrl, hrefs[..|hrefs| - 1]);
      var last := LinkOf(lib, baseUrl, hrefs[|hrefs| - 1]);
      assert forall i :: 0 <= i < |hrefs| - 1 ==> hrefs[..|hrefs| - 1][i] == hrefs[i];
      init + (if last.Some? then {last.value} else {})
  }

  predicate StrictlySorted(r: seq<string>)
  {
    forall i, j :: 0 <= i < j < |r| ==> StrLess(r[i], r[j])
  }

  function Insert(r: seq<string>, x: string): seq<string>
  {
    if r == [] || StrLess(x, r[0]) then [x] + r else [r[0]] + Insert(r[1..], x)
  }

  lemma {:induction false} InsertSorted(r: seq<string>, x: string)
    requires StrictlySorted(r) && x !in r
    ensures StrictlySorted(Insert(r, x))
    ensures forall y :: y in Insert(r, x) <==> y in r || y == x
    ensures |Insert(r, x)| == |r| + 1
    decreases |r|
  {
    if r == [] || StrLess(x, r[0]) {
      forall j | 0 <= j < |r| ensures StrLess(x, r[j]) {
        if j > 0 {
          StrLessTransitive(x, r[0], r[j]);
        }
      }
    } else {
      StrLessTotal(x, r[0]);
      InsertSorted(r[1..], x);
      var t := Insert(r[1..], x);
      forall j | 0 <= j < |t| ensures StrLess(r[0], t[j]) {
        var y := t[j];
        if y != x {
          assert y in r[1..];
          var k :| 0 <= k < |r[1..]| && r[1..][k] == y;
          assert StrLess(r[0], r[k + 1]);
        }
      }
    }
  }

  /** `sorted(links)` for a set of strings. */
  method SortSet(s: set<string>) returns (r: seq<string>)
    ensures StrictlySorted(r)
    ensures forall y :: y in r <==> y in s
    ensures |r| == |s|
  {
    var rest := s;
    r := [];
    while rest != {}
      invariant rest <= s
      invariant StrictlySorted(r)
      invariant forall y :: y in r <==> y in s && y !in rest
      invariant |r| + |rest| == |s|
      decreases |rest|
    {
      var x :| x in rest;
      InsertSorted(r, x);
      r := Insert(r, x);
      rest := rest - {x};
    }
  }

  /** The links of one more anchor: those before it and its own. */
  lemma LinkSetStep(lib: Lib, baseUrl: string, hrefs: seq<string>, i: int)
    requires 0 <= i < |hrefs|
    ensures var l := LinkOf(lib, baseUrl, hrefs[i]);
      LinkSet(lib, baseUrl, hrefs[..i + 1]) == LinkSet(lib, baseUrl, hrefs[..i]) + (if l.Some? then {l.value} else {})
  {
    assert hrefs[..i + 1][..i] == hrefs[..i];
  }

  /** The loop of `extract_links` that collects the set of links. */
  method CollectLinks(lib: Lib, baseUrl: string, hrefs: seq<string>) returns (links: set<string>)
    ensures links == LinkSet(lib, baseUrl, hrefs)
  {
    links := {};
    var i := 0;
    while i < |hrefs|
      invariant 0 <= i <= |hrefs|
      invariant links == LinkSet(lib, baseUrl, hrefs[..i])
    {
      LinkSetStep(lib, baseUrl, hrefs, i);
      var href := Strip(hrefs[i]);
      if !SkippedHref(href) {
        var absolute := lib.urljoin(baseUrl, href);
        if IsHttp(lib.urlparse(absolute)) {
          links := links + {Clean(lib, absolute)};
        }
      }
      i := i + 1;
    }
    assert hrefs[..|hrefs|] == hrefs;
  }

  /** A prefix of a strictly sorted list holds its smallest elements. */
  lemma PrefixHoldsSmallest(sorted: seq<string>, n: nat)
    requires StrictlySorted(sorted) && n <= |sorted|
    ensures forall x, y :: x in sorted && x !in sorted[..n] && y in sorted[..n] ==> StrLess(y, x)
  {
    forall x, y | x in sorted && x !in sorted[..n] && y in sorted[..n] ensures StrLess(y, x) {
      var k :| 0 <= k < |sorted| && sorted[k] == x;
      var j :| 0 <= j < n && sorted[..n][j] == y;
      assert k >= n;
    }
  }

  /**
   * `extract_links`: the anchors' links, cleaned, without duplicates, in
   * ascending order, and the first `maxLinks` of them.
   */
  method ExtractLinks(lib: Lib, html: string, baseUrl: string, hrefs: seq<string>, maxLinks: int)
    returns (r: seq<string>)
    ensures html == "" || baseUrl == "" ==> r == []
    ensures StrictlySorted(r)
    ensures forall x :: x in r ==> x in LinkSet(lib, baseUrl, hrefs)
    ensures html != "" && baseUrl != "" && maxLinks >= 0 ==>
      |r| == if maxLinks < |LinkSet(lib, baseUrl, hrefs)| then maxLinks else |LinkSet(lib, baseUrl, hrefs)|
    ensures html != "" && baseUrl != "" ==>
      forall x, y :: x in LinkSet(lib, baseUrl, hrefs) && x !in r && y in r ==> StrLess(y, x)
  {
    if html == "" || baseUrl == "" {
      return [];
    }
    var links := CollectLinks(lib, baseUrl, hrefs);
    var sorted := SortSet(links);
    r := SliceTo(sorted, maxLinks);
    PrefixHoldsSmallest(sorted, |r|);
  }
}
