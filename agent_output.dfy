/**
 * The three passes over the verified URLs at the end of a run: the final
 * correctness pass that promotes a product's canonical URL when its SKU
 * matches, the sources list, and the rewriting of URLs in the answer.
 */
module AgentOutput {
  import opened Strings
  import opened Values
  import opened Foreign
  import opened UrlCleaner
  import opened SkuExtract
  import opened AgentRecords

  /** `verified_urls`: the keys in insertion order and their entries. */
  ghost predicate WellFormed(keys: seq<string>, m: map<string, Metadata>)
  {
    (forall i, j :: 0 <= i < j < |keys| ==> keys[i] != keys[j])
    && (forall k :: k in m <==> k in keys)
  }

  // ---------------------------------------------------------------------------
  // The correctness pass

  /** The URL a product entry should be known by: a different canonical URL, else its final URL. */
  function PreferredUrl(key: string, md: Metadata): string
  {
    if md.canonicalUrl.Some? && md.canonicalUrl.value != "" && md.canonicalUrl.value != key then md.canonicalUrl.value
    else md.finalUrl
  }

  /** One entry of `_verify_product_urls`, and the fetched set after it. */
  function Correct(w: World, lib: Lib, key: string, md: Metadata, fetched: set<string>, max: int): (r: (Metadata, set<string>))
  {
    if md.verdict != Some("product") then (md, fetched)
    else
      var p := PreferredUrl(key, md);
      if p != key && p !in fetched && |fetched| < max then
        var fr := w.fetch(p);
        if fr.status == 200 && fr.classification.verdict == Some(JStr("product")) then
          var sku := ExtractSku(lib, PageOf(w, fr.html, OrEmpty(fr.text)));
          if md.sku == sku then
            (md.(url := p, finalUrl := p,
                 canonicalUrl := if fr.canonicalUrl.Some? then fr.canonicalUrl.value else md.canonicalUrl,
                 sku := sku),
             fetched + {p})
          else (md, fetched + {p})
        else (md, fetched)
      else (md, fetched)
  }

  /** The pass over the first entries, in key order. */
  function CorrectAll(w: World, lib: Lib, keys: seq<string>, m: map<string, Metadata>, fetched: set<string>, max: int)
    : (r: (map<string, Metadata>, set<string>))
    requires forall k :: k in keys ==> k in m
  {
    if |keys| == 0 then (map[], fetched)
    else
      var prev := CorrectAll(w, lib, keys[..|keys| - 1], m, fetched, max);
      var k := keys[|keys| - 1];
      var step := Correct(w, lib, k, m[k], prev.1, max);
      (prev.0[k := step.0], step.1)
  }

  // ---------------------------------------------------------------------------
  // Sources

  /** `canonical_url or final_url or url`. */
  function DisplayUrl(key: string, md: Metadata): (r: string)
    ensures r == key || r == md.finalUrl || Some(r) == md.canonicalUrl
  {
    if md.canonicalUrl.Some? && md.canonicalUrl.value != "" then md.canonicalUrl.value
    else if md.finalUrl != "" then md.finalUrl
    else key
  }

  function SourceOf(key: string, md: Metadata): Source
  {
    Source(DisplayUrl(key, md), md.title)
  }

  /** One source per verified entry, in key order. */
  function SourcesOf(keys: seq<string>, m: map<string, Metadata>): (r: seq<Source>)
    requires forall k :: k in keys ==> k in m
    ensures |r| == |keys|
    ensures forall i :: 0 <= i < |keys| ==> r[i] == SourceOf(keys[i], m[keys[i]])
  {
    if |keys| == 0 then []
    else SourcesOf(keys[..|keys| - 1], m) + [SourceOf(keys[|keys| - 1], m[keys[|keys| - 1]])]
  }

  // ---------------------------------------------------------------------------
  // The answer at the step limit

  const NOTHING_FOUND: string :=
    "I reached the step limit before finding any verified sources. Please try a different query or increase max_steps."

  function SourceLine(s: Source): string
  {
    "- " + s.title + ": " + s.url + "\n"
  }

  function SourceLines(sources: seq<Source>): string
  {
    if |sources| == 0 then "" else SourceLines(sources[..|sources| - 1]) + SourceLine(sources[|sources| - 1])
  }

  function Gathered(sources: seq<Source>): string
  {
    "I found " + NatToString(|sources|) + " verified source(s), but reached the step limit. "
    + "Here's what I gathered:\n\n" + SourceLines(sources)
  }

  /** The content of the last assistant message that has a truthy one, else None. */
  function LastContent(messages: seq<Message>): (r: Json)
    ensures r.Truthy() <==> exists i :: 0 <= i < |messages| && messages[i].AssistantMsg?
                                   && messages[i].m.content.Some? && messages[i].m.content.value.Truthy()
    ensures r.Truthy() ==> exists i :: 0 <= i < |messages| && messages[i].AssistantMsg?
                              && messages[i].m.content == Some(r)
                              && forall j :: i < j < |messages| && messages[j].AssistantMsg? && messages[j].m.content.Some?
                                   ==> !messages[j].m.content.value.Truthy()
  {
    if |messages| == 0 then JNull
    else
      var last := messages[|messages| - 1];
      if last.AssistantMsg? && last.m.content.Some? && last.m.content.value.Truthy() then last.m.content.value
      else
        var r := LastContent(messages[..|messages| - 1]);
        assert forall i :: 0 <= i < |messages| - 1 ==> messages[..|messages| - 1][i] == messages[i];
        r
  }

  /** The answer built when the steps ran out, before sanitizing. */
  function StepLimitAnswer(lib: Lib, last: Json, sources: seq<Source>): (r: string)
    ensures last.Truthy() ==> r == "[Note: Reached step limit] " + PyStr(lib, last)
    ensures !last.Truthy() && sources == [] ==> r == NOTHING_FOUND
    ensures !last.Truthy() && sources != [] ==> r == Gathered(sources)
  {
    if last.Truthy() then "[Note: Reached step limit] " + PyStr(lib, last)
    else if sources != [] then Gathered(sources)
    else NOTHING_FOUND
  }

  // ---------------------------------------------------------------------------
  // The sanitizer

  const URL_PATTERN: string := "https?://[^\\s<>\"'\\)]+"
  const REMOVED: string := "[URL removed - not verified]"
  const TRAILING: set<char> := {'.', ',', ';', '!', '?', ')'}

  /** A found URL without trailing punctuation, fragment and tracking parameters. */
  function Normalized(lib: Lib, url: string): string
  {
    CleanUrl(lib, RStripChars(url, TRAILING), true)
  }

  /** The verified keys on the host of a found URL. */
  function SameHost(lib: Lib, keys: set<string>, url: string): set<string>
  {
    set k | k in keys && lib.urlparse(k).netloc == lib.urlparse(Normalized(lib, url)).netloc
  }

  /**
   * The key the search over the verified set stops at: any key on the same
   * host (the set's iteration order is not fixed), or None when there is none.
   */
  predicate ValidPick(lib: Lib, keys: set<string>, url: string, pick: Option<string>)
  {
    if Normalized(lib, url) in keys || SameHost(lib, keys, url) == {} then pick.None?
    else pick.Some? && pick.value in SameHost(lib, keys, url)
  }

  /** The rewrite for one found URL. */
  function Rewrite(lib: Lib, answer: string, url: string, keys: set<string>, pick: Option<string>): string
  {
    if Normalized(lib, url) in keys then answer
    else if pick.Some? && pick.value != "" then ReplaceAll(answer, url, pick.value)
    else ReplaceAll(answer, url, REMOVED)
  }

  /** The answer after the rewrites for the first found URLs, with the picks made. */
  function SanitizeWith(lib: Lib, answer: string, urls: seq<string>, keys: set<string>, picks: seq<Option<string>>): string
    requires |picks| == |urls|
  {
    if |urls| == 0 then answer
    else
      var n := |urls| - 1;
      Rewrite(lib, SanitizeWith(lib, answer, urls[..n], keys, picks[..n]), urls[n], keys, picks[n])
  }

  predicate ValidPicks(lib: Lib, keys: set<string>, urls: seq<string>, picks: seq<Option<string>>)
  {
    |picks| == |urls| && forall i :: 0 <= i < |urls| ==> ValidPick(lib, keys, urls[i], picks[i])
  }

  // ---------------------------------------------------------------------------
  // Lemmas

  /** One more found URL, rewritten with a valid pick. */
  lemma SanitizeStep(lib: Lib, answer: string, urls: seq<string>, keys: set<string>, picks: seq<Option<string>>,
                     pick: Option<string>, i: int)
    requires 0 <= i < |urls| && ValidPicks(lib, keys, urls[..i], picks) && ValidPick(lib, keys, urls[i], pick)
    ensures ValidPicks(lib, keys, urls[..i + 1], picks + [pick])
    ensures SanitizeWith(lib, answer, urls[..i + 1], keys, picks + [pick])
         == Rewrite(lib, SanitizeWith(lib, answer, urls[..i], keys, picks), urls[i], keys, pick)
  {
    assert urls[..i + 1][..i] == urls[..i];
    assert (picks + [pick])[..i] == picks;
  }

  /** The correctness pass keeps exactly the keys it was given. */
  lemma {:induction false} CorrectAllKeys(w: World, lib: Lib, keys: seq<string>, m: map<string, Metadata>,
                                         fetched: set<string>, max: int)
    requires forall k :: k in keys ==> k in m
    ensures forall k :: k in CorrectAll(w, lib, keys, m, fetched, max).0 <==> k in keys
  {
    if |keys| > 0 {
      var n := |keys| - 1;
      CorrectAllKeys(w, lib, keys[..n], m, fetched, max);
      assert keys == keys[..n] + [keys[n]];
    }
  }

  /** Entries whose verdict is not "product" are left as they are. */
  lemma {:induction false} NonProductUntouched(w: World, lib: Lib, keys: seq<string>, m: map<string, Metadata>,
                                              fetched: set<string>, max: int, k: string)
    requires forall x :: x in keys ==> x in m
    requires k in keys && m[k].verdict != Some("product")
    ensures var r := CorrectAll(w, lib, keys, m, fetched, max).0; k in r && r[k] == m[k]
  {
    CorrectAllKeys(w, lib, keys, m, fetched, max);
    var n := |keys| - 1;
    if keys[n] != k {
      assert keys == keys[..n] + [keys[n]];
      NonProductUntouched(w, lib, keys[..n], m, fetched, max, k);
    }
  }

  /**
   * Promotion changes only the URL fields and the SKU, and only when the
   * preferred URL differs, is not fetched yet, fits the budget, answers 200
   * with verdict "product" and has the entry's SKU; the canonical URL then
   * becomes the fetch's, when it reports one.
   */
  lemma PromotionConditions(w: World, lib: Lib, key: string, md: Metadata, fetched: set<string>, max: int)
    ensures var (r, f) := Correct(w, lib, key, md, fetched, max);
      r.title == md.title && r.verdict == md.verdict && r.productCount == md.productCount && r.reason == md.reason
      && (r != md ==>
        var p := PreferredUrl(key, md);
        md.verdict == Some("product") && p != key && p !in fetched && |fetched| < max
        && w.fetch(p).status == 200 && w.fetch(p).classification.verdict == Some(JStr("product"))
        && md.sku == ExtractSku(lib, PageOf(w, w.fetch(p).html, OrEmpty(w.fetch(p).text)))
        && r.url == p && r.finalUrl == p && r.sku == md.sku
        && r.canonicalUrl == (if w.fetch(p).canonicalUrl.Some? then w.fetch(p).canonicalUrl.value else md.canonicalUrl))
      && (f == fetched || (|fetched| < max && f == fetched + {PreferredUrl(key, md)}))
  {
  }

  /** The pass keeps the fetched URLs and fetches within the budget (never past a budget not yet exceeded). */
  lemma {:induction false} CorrectAllBudget(w: World, lib: Lib, keys: seq<string>, m: map<string, Metadata>,
                                           fetched: set<string>, max: int)
    requires forall k :: k in keys ==> k in m
    ensures var f := CorrectAll(w, lib, keys, m, fetched, max).1;
      fetched <= f && (|fetched| <= max ==> |f| <= max) && (|fetched| >= max ==> f == fetched)
      && |f| <= |fetched| + |keys|
  {
    if |keys| > 0 {
      var n := |keys| - 1;
      CorrectAllBudget(w, lib, keys[..n], m, fetched, max);
      var prev := CorrectAll(w, lib, keys[..n], m, fetched, max);
      var k := keys[n];
      var md := m[k];
      PromotionConditions(w, lib, k, md, prev.1, max);
      var p := PreferredUrl(k, md);
      if p !in prev.1 {
        assert |prev.1 + {p}| == |prev.1| + 1;
      } else {
        assert prev.1 + {p} == prev.1;
      }
    }
  }

  /** Every entry keeps its verdict and title through the pass. */
  lemma {:induction false} CorrectAllKeepsVerdicts(w: World, lib: Lib, keys: seq<string>, m: map<string, Metadata>,
                                                  fetched: set<string>, max: int, k: string)
    requires forall x :: x in keys ==> x in m
    requires k in keys
    ensures var r := CorrectAll(w, lib, keys, m, fetched, max).0;
      k in r && r[k].verdict == m[k].verdict && r[k].title == m[k].title
  {
    CorrectAllKeys(w, lib, keys, m, fetched, max);
    var n := |keys| - 1;
    var prev := CorrectAll(w, lib, keys[..n], m, fetched, max);
    if keys[n] == k {
      PromotionConditions(w, lib, k, m[k], prev.1, max);
    } else {
      assert keys == keys[..n] + [keys[n]];
      CorrectAllKeepsVerdicts(w, lib, keys[..n], m, fetched, max, k);
    }
  }

  /**
   * An answer in which the URL pattern finds nothing comes back unchanged,
   * whatever the verified keys: there is nothing to pick for.
   */
  lemma NoUrlsUnchanged(lib: Lib, answer: string, keys: set<string>, picks: seq<Option<string>>)
    requires lib.reFindAll(URL_PATTERN, answer) == []
    requires ValidPicks(lib, keys, lib.reFindAll(URL_PATTERN, answer), picks)
    ensures picks == []
    ensures SanitizeWith(lib, answer, lib.reFindAll(URL_PATTERN, answer), keys, picks) == answer
  {
  }

  /** A found URL whose cleaned form is verified is left alone, so an answer citing only verified URLs is kept. */
  lemma {:induction false} VerifiedUrlsKept(lib: Lib, answer: string, urls: seq<string>, keys: set<string>,
                                           picks: seq<Option<string>>)
    requires |picks| == |urls|
    requires forall i :: 0 <= i < |urls| ==> Normalized(lib, urls[i]) in keys
    ensures SanitizeWith(lib, answer, urls, keys, picks) == answer
  {
    if |urls| > 0 {
      var n := |urls| - 1;
      VerifiedUrlsKept(lib, answer, urls[..n], keys, picks[..n]);
    }
  }

  /**
   * A found URL that is not verified has every occurrence replaced: by the
   * picked key on its host, or by the removal marker when no key shares the
   * host (or the picked key is empty).
   */
  lemma UnverifiedRewritten(lib: Lib, answer: string, url: string, keys: set<string>, pick: Option<string>)
    requires ValidPick(lib, keys, url, pick)
    requires Normalized(lib, url) !in keys
    ensures SameHost(lib, keys, url) == {} ==> Rewrite(lib, answer, url, keys, pick) == ReplaceAll(answer, url, REMOVED)
    ensures SameHost(lib, keys, url) != {} ==>
      pick.value in keys && lib.urlparse(pick.value).netloc == lib.urlparse(Normalized(lib, url)).netloc
      && Rewrite(lib, answer, url, keys, pick)
         == ReplaceAll(answer, url, if pick.value != "" then pick.value else REMOVED)
  {
  }

  /**
   * The situation of the agent's output test: one unverified URL on the
   * host of exactly one verified key is replaced by that key.
   */
  lemma SameHostReplacement(lib: Lib, answer: string, url: string, keys: set<string>, key: string,
                            picks: seq<Option<string>>)
    requires ValidPicks(lib, keys, [url], picks)
    requires Normalized(lib, url) !in keys && SameHost(lib, keys, url) == {key} && key != ""
    ensures SanitizeWith(lib, answer, [url], keys, picks) == ReplaceAll(answer, url, key)
  {
    assert [url][..0] == [];
  }
}
