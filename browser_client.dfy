/**
 * The part of the headless-browser client that is decision logic: the
 * Cloudflare-challenge heuristic and the `blocked` flag of a render result.
 * Driving the browser itself is not part of this model.
 */
module BrowserClient {
  import opened Strings
  import opened Values

  /** `looks_like_cf(html, url)`, on the lower-cased html and url. */
  predicate LooksLikeCf(html: Option<string>, url: Option<string>)
  {
    var h := Lower(OrEmpty(html));
    var u := Lower(OrEmpty(url));
    Contains(u, "__cf_chl_")
    || Contains(h, "cf-chl")
    || (Contains(h, "cloudflare") && (Contains(h, "attention required") || Contains(h, "challenge")))
    || Contains(h, "turnstile")
  }

  /** The `blocked` field of a render result. */
  predicate Blocked(html: Option<string>, finalUrl: Option<string>, status: int)
  {
    LooksLikeCf(html, finalUrl) || status in {401, 403, 429}
  }

  // ---------------------------------------------------------------------------
  // Lemmas

  lemma ContainsNothing(p: string)
    requires p != []
    ensures !Contains([], p)
  {
  }

  /** No html and no url (absent or empty) never look like a challenge. */
  lemma EmptyIsNotChallenge(html: Option<string>, url: Option<string>)
    requires OrEmpty(html) == "" && OrEmpty(url) == ""
    ensures !LooksLikeCf(html, url)
  {
    ContainsNothing("__cf_chl_");
    ContainsNothing("cf-chl");
    ContainsNothing("cloudflare");
    ContainsNothing("turnstile");
  }

  /** The heuristic ignores the case of both inputs. */
  lemma LooksLikeCfIgnoresCase(html: string, url: string)
    ensures LooksLikeCf(Some(Lower(html)), Some(Lower(url))) == LooksLikeCf(Some(html), Some(url))
  {
    LowerIdempotent(html);
    LowerIdempotent(url);
  }

  /**
   * The word "cloudflare" alone never triggers: without "attention required"
   * or "challenge" the page must carry one of the other three markers.
   */
  lemma CloudflareAloneIsNotEnough(html: string, url: string)
    requires !Contains(Lower(html), "attention required") && !Contains(Lower(html), "challenge")
    ensures LooksLikeCf(Some(html), Some(url)) <==>
      Contains(Lower(url), "__cf_chl_") || Contains(Lower(html), "cf-chl") || Contains(Lower(html), "turnstile")
  {
  }

  /**
   * Where each marker is looked for: "__cf_chl_" only in the url, "cf-chl"
   * and "turnstile" only in the html; each alone is enough.
   */
  lemma MarkerPlaces(html: string, url: string)
    ensures Contains(Lower(url), "__cf_chl_") ==> LooksLikeCf(Some(html), Some(url))
    ensures Contains(Lower(html), "cf-chl") || Contains(Lower(html), "turnstile") ==> LooksLikeCf(Some(html), Some(url))
    ensures LooksLikeCf(Some(html), Some("")) ==
      (Contains(Lower(html), "cf-chl") || Contains(Lower(html), "turnstile")
       || (Contains(Lower(html), "cloudflare")
           && (Contains(Lower(html), "attention required") || Contains(Lower(html), "challenge"))))
    ensures LooksLikeCf(Some(""), Some(url)) == Contains(Lower(url), "__cf_chl_")
  {
    ContainsNothing("__cf_chl_");
    ContainsNothing("cf-chl");
    ContainsNothing("cloudflare");
    ContainsNothing("turnstile");
  }

  /**
   * A 401, 403 or 429 blocks whatever the page holds; a 200 without a
   * challenge marker is not blocked; a render that produced no html and no
   * final url is blocked only by one of those three statuses.
   */
  lemma BlockedByStatus(html: Option<string>, finalUrl: Option<string>, status: int)
    ensures status == 401 || status == 403 || status == 429 ==> Blocked(html, finalUrl, status)
    ensures status == 200 && !LooksLikeCf(html, finalUrl) ==> !Blocked(html, finalUrl, status)
    ensures OrEmpty(html) == "" && OrEmpty(finalUrl) == "" ==>
      (Blocked(html, finalUrl, status) <==> status == 401 || status == 403 || status == 429)
  {
    if OrEmpty(html) == "" && OrEmpty(finalUrl) == "" {
      EmptyIsNotChallenge(html, finalUrl);
    }
  }

  /** A challenge marker in the final url blocks whatever the status and the html. */
  lemma ChallengeUrlBlocks(html: Option<string>, finalUrl: Option<string>, status: int)
    requires Contains(Lower(OrEmpty(finalUrl)), "__cf_chl_")
    ensures Blocked(html, finalUrl, status)
  {
  }
}
