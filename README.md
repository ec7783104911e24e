# Product-discovery agent: a verified model of its deterministic layer

The agent answers a shopping question with an LLM planner that calls three
tools (`search_web`, `fetch_url`, `render_url`). Around that planner sits
deterministic code, and this project models it in Dafny:

- the page budget;
- the 401/403 fallback to a headless browser;
- the verification gate that decides which pages count as verified sources;
- the provenance bookkeeping;
- the final correctness pass that promotes a product's canonical URL only when its SKU matches;
- the sources list;
- the sanitizer that rewrites or removes unverified URLs in the answer.

It also models the helpers that code relies on:

- the six-verdict page classifier and its product-link filter;
- URL cleaning and normalization;
- the search/fetch/render cache with lifetimes;
- the SKU, product-data and reference-attribute extractors;
- the token validator;
- the challenge-page heuristic;
- the standalone tester's tools and JSON scanner;
- the notebook workflow's chat loop and tools.

A Python dict is a record or a `Json` value; a key that may be missing is an `Option`.

Each modelled function is stated in Dafny as follows:

- Pure code is a `function`, with its properties as `ensures` clauses and lemmas.
- Code that updates state is a `class`: the agent's run state, the cache, the tester's `AgentState`, the notebook's message list and fetched set.
- Loops are `for` and `while` loops with invariants. Each method is proved equal to a specification function whose properties are proved separately.

The collaborators and library calls the code depends on are parameters:

- The chat model, the search API, the HTTP client and the browser are total function values: `World`, `TesterWorld` and `Services`. A scripted sequence of LLM replies is one such function of the message history, so every property holds whatever they answer.
- `urllib.parse`, the `re` engine, `json`, `hashlib.md5` and the HTML-to-text libraries are the fields of `Foreign.Lib`. The model is parametric in what they compute.
- The clock is a parameter `now`.

| file | module | models |
|---|---|---|
| values.dfy | Values | optional values and decoded JSON; `JNull` is also Python `None` |
| strings.dfy | Strings | Python string operations on `seq<char>` |
| foreign.dfy | Foreign | the library functions the code calls |
| config.dfy | Config | configuration constants |
| url_cleaner.dfy | UrlCleaner | `clean_url` |
| cache.dfy | Caching | `Cache` and `_make_key`; the store is a map from key to value and expiry |
| page.dfy | PageSignals | a parsed page as the extractors see it |
| html_extract.dfy | HtmlExtract | `extract_text` truncation and `extract_links` |
| page_classifier.dfy | PageClassifier | `classify_page` and its helpers |
| sku_extract.dfy | SkuExtract | `extract_sku` |
| product_extract.dfy | ProductExtract | `extract_product_data` |
| reference_extract.dfy | ReferenceExtract | `extract_reference_attributes` |
| link_validator.dfy | LinkValidator | `validate_product_page`, `is_generic_redirect` |
| browser_client.dfy | BrowserClient | `looks_like_cf` and the `blocked` flag |
| agent_records.dfy | AgentRecords | page results, messages, tool results, provenance entries |
| agent_tools.dfy | AgentTools | the three tools of `_execute_tool`, the gate, the rejection reasons |
| agent_output.dfy | AgentOutput | `_verify_product_urls`, `_get_verified_sources_only`, `_sanitize_output` |
| agent_loop.dfy | AgentLoop | `run` and the run state |
| json_scan.dfy | JsonScan | `extract_first_json_object` of the tester |
| tester_urls.dfy | TesterUrls | `normalize_url`, `is_same_domain`, `extract_links_rich` |
| tester_state.dfy | TesterState | `AgentState`, `_parse_user_prompt`, `_get_sources_from_state` |
| tester_tools.dfy | TesterTools | the tester's `fetch_url`, `render_url` and `build_url`, and the phase-3A and phase-3B bookkeeping |
| notebook.dfy | Notebook | the notebook workflow in `main.py` |

## Where the code is easy to misread

The model follows the code in every case below.

- **The gate and the classification.** `_execute_tool` never calls the page classifier: it reads a `classification` key from the client's result (src/agi/agent/agent_loop.py:415). The HTTP client never produces that key, and there is no browser client that could: src/agi/agent/agent_loop.py:8 imports `BrowserClient` and :33 constructs one, but src/agi/clients/browser_client.py defines only `looks_like_cf` and `PlaywrightFetchClient`, so the module fails at that import as shipped. Nothing in the repository has the `render` method called at src/agi/agent/agent_loop.py:333 and :520 except the test double `DummyBrowserClient` (tests/test_agent_loop_output.py:65-66). `World.render` therefore stands for an injected client of that kind. The model keeps the clients general, so a result may carry a classification. `AgentTools.UnclassifiedFetchRejected` states what happens with the clients as written: every page with a body is rejected with "Page classification error".
- **The order of the exits.** On the final-answer exit the correctness pass runs before the sanitizer (src/agi/agent/agent_loop.py:129-133). On the step-limit exit the sanitizer runs first (src/agi/agent/agent_loop.py:243-247). The model keeps both orders. The sanitizer only reads the verified keys, and the pass keeps exactly those keys (`AgentOutput.CorrectAllKeys`), so on both exits the answer is sanitized against the same key set.

## Model

| member | source | states |
|---|---|---|
| UrlCleaner.AddPair | src/agi/extract/url_cleaner.py:41 | adding a decoded pair keeps every existing key in place and adds a new key only at the end, only when it is not yet present |
| UrlCleaner.Group | src/agi/extract/url_cleaner.py:41 | the dict `parse_qs` builds has each key once |
| UrlCleaner.Pairs | src/agi/extract/url_cleaner.py:61 | `doseq=True` encodes one pair per value of a key, in order |
| UrlCleaner.CleanComponents | src/agi/extract/url_cleaner.py:27-38 | the fragment is always dropped, scheme, netloc, path and params are kept, and the query is kept as is when tracking removal is off or the query is empty |
| UrlCleaner.CleanUrl | src/agi/extract/url_cleaner.py:24-25 | an empty URL is returned unchanged; any other is rebuilt from the cleaned components |
| UrlCleaner.AddPairValues | src/agi/extract/url_cleaner.py:41 | adding a pair appends its value to that key's values and leaves every other key's values alone |
| UrlCleaner.GroupValues | src/agi/extract/url_cleaner.py:41 | grouping by key keeps every key's values, blank ones included, in their original order |
| UrlCleaner.KeepNonTrackingValues | src/agi/extract/url_cleaner.py:44-57 | a tracking key loses all its values; every other key keeps all of them |
| UrlCleaner.CleanedPairs | src/agi/extract/url_cleaner.py:41-61 | the pairs handed to `urlencode` hold, for each key, exactly its decoded values, or none for a tracking key |
| UrlCleaner.KeepNonTrackingKeys | src/agi/extract/url_cleaner.py:48-57 | no key that is tracking (in the list, `utm_*` or `_ga*`) survives |
| UrlCleaner.AllTrackingEmptiesQuery | src/agi/extract/url_cleaner.py:59-63 | a query made only of tracking keys becomes empty |
| HtmlExtract.Truncate | src/agi/extract/html_extract.py:36-37 | text within the limit is unchanged; longer text is cut to the limit and marked "... [truncated]", so it never exceeds limit plus mark |
| HtmlExtract.EffectiveMax | src/agi/extract/html_extract.py:29 | an absent or zero limit means MAX_PAGE_TEXT_LENGTH; any other limit is used as given |
| HtmlExtract.ExtractText | src/agi/extract/html_extract.py:15-56 | empty html gives ""; the text never exceeds the effective limit plus the truncation mark |
| HtmlExtract.LinkOf | src/agi/extract/html_extract.py:80-92 | an anchor yields a link iff its stripped href is not empty, "#..." or "javascript:..." and resolves to an http(s) URL; the link is that URL cleaned |
| HtmlExtract.LinkSet | src/agi/extract/html_extract.py:76-92 | the collected set holds exactly the links some anchor yields |
| HtmlExtract.InsertSorted | src/agi/extract/html_extract.py:95 | inserting a new string into a strictly sorted list keeps it strictly sorted and adds exactly that string |
| HtmlExtract.SortSet | src/agi/extract/html_extract.py:95 | `sorted(list(links))` is strictly ascending and holds exactly the set's elements |
| HtmlExtract.CollectLinks | src/agi/extract/html_extract.py:76-92 | the loop collects exactly the link set of the anchors |
| HtmlExtract.PrefixHoldsSmallest | src/agi/extract/html_extract.py:95 | a prefix of a sorted list holds its smallest elements |
| HtmlExtract.ExtractLinks | src/agi/extract/html_extract.py:59-97 | no html or no base URL gives []; otherwise the result is strictly sorted, drawn from the link set, `min(max_links, count)` long, and holds the smallest links |
| Caching.KeySuffix | src/agi/cache/cache.py:21-27 | the key suffix is the stripped, lower-cased identifier when at most 100 characters long, and at most 100 characters whenever the digest is 32 hex characters |
| Caching.LookupIn | src/agi/cache/cache.py:29-35 | a get returns a value iff the key is present and not expired, and then the stored value |
| Caching.Cache.GetSearch | src/agi/cache/cache.py:29-35 | returns the live entry under the "search:" key of the query |
| Caching.Cache.SetSearch | src/agi/cache/cache.py:37-41 | stores the results under the "search:" key with the one-day lifetime and changes nothing else |
| Caching.Cache.GetFetch | src/agi/cache/cache.py:43-49 | returns the live entry under the "fetch:" key of the URL |
| Caching.Cache.SetFetch | src/agi/cache/cache.py:51-55 | stores the dict under the "fetch:" key with the seven-day lifetime and changes nothing else |
| Caching.Cache.GetRender | src/agi/cache/cache.py:57-63 | returns the live entry under the "render:" key of the URL |
| Caching.Cache.SetRender | src/agi/cache/cache.py:65-69 | stores the dict under the "render:" key with the seven-day lifetime and changes nothing else |
| Caching.Cache.Clear | src/agi/cache/cache.py:71-74 | after a clear every get misses |
| Caching.KeyIgnoresCaseAndSpace | src/agi/cache/cache.py:23 | identifiers that differ only in case or surrounding whitespace share one key |
| Caching.NamespacesDisjoint | src/agi/cache/cache.py:27 | keys of the search, fetch and render namespaces never collide |
| Caching.SetLeavesOtherNamespaces | src/agi/cache/cache.py:37-69 | a set in one namespace leaves every get in another namespace unchanged |
| Caching.GetAfterSet | src/agi/cache/cache.py:29-41 | a get after a set of an equivalent identifier returns the stored value until the lifetime has passed, and misses afterwards |
| PageClassifier.ParseVerdict | src/agi/extract/page_classifier.py:17-24 | a string that names one of the six verdicts reads as that verdict; anything else reads as the error verdict |
| PageClassifier.ParseVerdictValue | src/agi/extract/page_classifier.py:17-24 | every verdict's string value reads back as the same verdict |
| PageClassifier.CountLdProducts | src/agi/extract/page_classifier.py:276-290 | the JSON-LD product count never exceeds the number of scripts |
| PageClassifier.CountProductAnchors | src/agi/extract/page_classifier.py:300-333 | the product-link count never exceeds the number of anchors |
| PageClassifier.CombinedCount | src/agi/extract/page_classifier.py:336-341 | structured data wins with the larger of the JSON-LD and microdata counts; otherwise three or more product links give their count and one or two give 1; the count is positive exactly when some signal is |
| PageClassifier.ProductSignalsOf | src/agi/extract/page_classifier.py:254-270 | the per-source counts are bounded by the scripts and anchors examined |
| PageClassifier.DetectProducts | src/agi/extract/page_classifier.py:254-346 | the counting loops over scripts and anchors compute the product signals |
| PageClassifier.TopLevelArraysNotCounted | src/agi/extract/page_classifier.py:280-288 | scripts that decode to a top-level array never count as products |
| PageClassifier.UndecodedScriptsNotCounted | src/agi/extract/page_classifier.py:279-290 | scripts that fail to decode add nothing to the JSON-LD count |
| PageClassifier.DetectBlocked | src/agi/extract/page_classifier.py:375-447 | the four checks run in order and the first that fires gives the reason |
| PageClassifier.BlockedExactly | src/agi/extract/page_classifier.py:396-442 | a page is blocked exactly when it has html and one of the four checks fires, a captcha form blocking whatever the text length; it is blocked exactly when a reason is given |
| PageClassifier.CandidateOfPasses | src/agi/extract/page_classifier.py:199-240 | an anchor yields a candidate exactly when its href is not empty, a fragment or javascript, its absolute URL is http(s) on the base host, its path matches the strict allowlist and not the blocklist; the candidate is the cleaned absolute URL |
| PageClassifier.FirstSeen | src/agi/extract/page_classifier.py:197-243 | the `seen` set keeps each candidate once |
| PageClassifier.FirstSeenMembers | src/agi/extract/page_classifier.py:197-243 | a URL is kept exactly when some anchor yields it |
| PageClassifier.CandidateOptions | src/agi/extract/page_classifier.py:199-240 | one filter outcome per anchor, in page order |
| PageClassifier.CandidatesOfMembers | src/agi/extract/page_classifier.py:197-247 | a URL is a candidate exactly when some anchor yields it |
| PageClassifier.ExtractCandidateLinks | src/agi/extract/page_classifier.py:136-251 | the loop returns the first 50 distinct candidates in page order, and nothing for empty html |
| PageClassifier.ClassifyPage | src/agi/extract/page_classifier.py:27-127 | no html is an error with no products; a generic URL without product signals is generic and only it; otherwise a blocked page is blocked; on an unblocked page: listing-with-products exactly for a listing URL with signals, product exactly for a non-listing URL with signals or more than 500 characters of text, error exactly for a non-listing URL with neither, and listing-empty exactly for a listing URL without signals; a listing-with-products count is the signal count, a product count is the signal count or 1 when there are none; candidates only come with a listing-with-products verdict |
| PageClassifier.CandidatesAreFiltered | src/agi/extract/page_classifier.py:80-91 | the reported candidates are at most 50, distinct, and each passes the strict filter for some anchor of the page |
| PageClassifier.SlicedCandidates | src/agi/extract/page_classifier.py:80-91 | the first 50 strict candidates of any anchor list are distinct and each comes from one of the anchors |
| BrowserClient.EmptyIsNotChallenge | src/agi/clients/browser_client.py:21-29 | empty or missing html and url never look like a challenge page |
| BrowserClient.LooksLikeCfIgnoresCase | src/agi/clients/browser_client.py:22-23 | the heuristic ignores the case of both the html and the url |
| BrowserClient.CloudflareAloneIsNotEnough | src/agi/clients/browser_client.py:24-29 | without "attention required" or "challenge", the word cloudflare does not trigger; only the three other markers do |
| BrowserClient.MarkerPlaces | src/agi/clients/browser_client.py:24-29 | "__cf_chl_" is looked for only in the url, "cf-chl" and "turnstile" only in the html, each enough on its own |
| BrowserClient.BlockedByStatus | src/agi/clients/browser_client.py:160 | a 401, 403 or 429 blocks whatever the page holds; a 200 without a challenge marker is not blocked; a render with no html and no final url is blocked exactly when its status is one of the three |
| BrowserClient.ChallengeUrlBlocks | src/agi/clients/browser_client.py:160 | a `__cf_chl_` marker in the final url blocks whatever the status and html |
| LinkValidator.RemoveSpaces | src/agi/agent/link_validator.py:50 | the token with its whitespace removed holds no whitespace, is no longer, and is the token itself when it had no whitespace |
| LinkValidator.RemoveSpacesKeeps | src/agi/agent/link_validator.py:50 | a character survives exactly when it is in the token and is not whitespace |
| LinkValidator.RemoveSpacesAppend | src/agi/agent/link_validator.py:50 | removal works piecewise over a concatenation, so the kept characters stay in their order |
| LinkValidator.NormalizedTokens | src/agi/agent/link_validator.py:47-53 | each expected token gives two normalized tokens in order: lower-cased without spaces, then lower-cased as given |
| LinkValidator.Score | src/agi/agent/link_validator.py:77 | the score is a fraction between 0 and 1, and 0 when nothing matched |
| LinkValidator.CollectMatches | src/agi/agent/link_validator.py:55-64 | a token is collected exactly when the title and text contain it or, with four or more characters, it lies inside another token |
| LinkValidator.ValidateProductPage | src/agi/agent/link_validator.py:12-93 | a generic or search path is refused with score 0 before any matching; otherwise no match is refused with score 0, a match gets the capped score of distinct matches over distinct expected tokens, and the page is accepted exactly when that score reaches 0.3, also exactly when the reason says a match was found; a match below 0.3 is refused as a weak match; the final URL is passed through |
| LinkValidator.IsGenericRedirect | src/agi/agent/link_validator.py:96-97 | the check is disabled and holds for every URL |
| LinkValidator.StrongEnoughIsScore | src/agi/agent/link_validator.py:77-80 | the integer acceptance test is the same as `score >= 0.3` on the capped fraction |
| LinkValidator.NoExpectedNoMatch | src/agi/agent/link_validator.py:47-66 | with no expected tokens nothing matches, so the page is refused |
| LinkValidator.PartialMatchIgnoresText | src/agi/agent/link_validator.py:61-64 | a token of four or more characters inside another token matches whatever the page says |
| LinkValidator.MatchesBounded | src/agi/agent/link_validator.py:75 | there are never more distinct matches than normalized tokens |
| SkuExtract.SkuField | src/agi/extract/sku_extract.py:37 | `sku`, else `mpn`, else `productID`, taking the first truthy one |
| SkuExtract.ObjectSku | src/agi/extract/sku_extract.py:35-45 | an object yields a SKU exactly when it is a Product dict whose SKU field is truthy, and the SKU is that field as a string |
| SkuExtract.MetaSku | src/agi/extract/sku_extract.py:50-52 | the retailer item id meta yields a SKU exactly when its content is non-empty, and the SKU is that content stripped |
| SkuExtract.MicrodataSku | src/agi/extract/sku_extract.py:55-59 | a SKU comes from microdata exactly when a Product element with a `sku` property exists |
| SkuExtract.ExtractSku | src/agi/extract/sku_extract.py:24-25 | an empty page has no SKU |
| SkuExtract.SkuPriority | src/agi/extract/sku_extract.py:27-79 | JSON-LD wins, then the meta tag, then microdata, then the text patterns; no SKU exactly when all four find none |
| SkuExtract.JsonLdFirstProductWins | src/agi/extract/sku_extract.py:32-39 | the first script that yields a SKU decides |
| SkuExtract.ListFirstProductWins | src/agi/extract/sku_extract.py:40-45 | inside a top-level list the first Product item with a SKU decides |
| SkuExtract.MetaSkuStripped | src/agi/extract/sku_extract.py:52 | a meta SKU never starts or ends with whitespace |
| SkuExtract.TextSkuIgnoresCase | src/agi/extract/sku_extract.py:62 | the text patterns read the lower-cased text, so the text's case does not matter |
| SkuExtract.TextPatternOrder | src/agi/extract/sku_extract.py:63-74 | the patterns are tried in list order and the first that matches decides |
| ProductExtract.AsDict | src/agi/extract/product_extract.py:28-34 | the result dict has the five keys title, price, currency, sku, availability in that order |
| ProductExtract.DropNone | src/agi/extract/product_extract.py:89 | the cleanup keeps exactly the entries whose value is not None, in order |
| ProductExtract.FromProduct | src/agi/extract/product_extract.py:47-56 | a Product dict sets the title from `name` and the SKU from `sku` when truthy, and leaves price, currency and availability alone unless `offers` is a dict; settled fields stay settled |
| ProductExtract.WithMeta | src/agi/extract/product_extract.py:60-72 | the og:title meta is used only without a title; the meta currency changes only together with a meta price and only when no price was found; SKU and availability are untouched |
| ProductExtract.WithTextPrice | src/agi/extract/product_extract.py:74-86 | the text patterns are consulted only without a price, and a match sets the price to the whole matched text |
| ProductExtract.ExtractProductData | src/agi/extract/product_extract.py:13-97 | the script loop, which stops at the first Product dict, computes the returned dict |
| ProductExtract.EmptyHtmlAllKeys | src/agi/extract/product_extract.py:36-37 | empty html returns all five keys set to None, without the cleanup |
| ProductExtract.NormalPathClean | src/agi/extract/product_extract.py:88-89 | on the normal path every returned value is present, every key is one of the five, and every value but the price is truthy |
| ProductExtract.OnlyFirstProductUsed | src/agi/extract/product_extract.py:44-56 | scripts after the first Product dict have no effect on the result |
| ProductExtract.OgTitleOnlyWithoutTitle | src/agi/extract/product_extract.py:48-64 | a truthy JSON-LD name is kept as the title whatever the meta tags say |
| ProductExtract.MetaCurrencyNeedsMetaPrice | src/agi/extract/product_extract.py:66-72 | a currency taken from the meta tags implies that the price was missing and is now the meta price |
| ProductExtract.TextPriceOrder | src/agi/extract/product_extract.py:76-86 | the price patterns are tried in list order and the first that matches gives the price |
| ReferenceExtract.ProductStep | src/agi/extract/reference_extract.py:49-60 | a Product dict sets the title from `name` or `title`, keeps the brand when it has no `brand` key, and changes the price only through a truthy `offers.price` |
| ReferenceExtract.LdAttributes | src/agi/extract/reference_extract.py:44-67 | the loop over all scripts computes the JSON-LD title, brand and price |
| ReferenceExtract.Occurring | src/agi/extract/reference_extract.py:93-96 | the found keywords are at most the keyword list |
| ReferenceExtract.StonesOf | src/agi/extract/reference_extract.py:97-98 | stones are set exactly when some stone keyword occurs |
| ReferenceExtract.RunLength | src/agi/extract/reference_extract.py:110 | the word run is maximal: all characters of Python's `\w` (ASCII letters, digits and `_`, and the library's Unicode word characters above U+007F), followed by a character outside it or the end |
| ReferenceExtract.WithoutStopWords | src/agi/extract/reference_extract.py:112-113 | the kept words are title words that are not stop words |
| ReferenceExtract.TitleFallback | src/agi/extract/reference_extract.py:69-78 | a truthy JSON-LD title is kept |
| ReferenceExtract.FindMaterial | src/agi/extract/reference_extract.py:85-89 | the loop finds the first material keyword the text contains |
| ReferenceExtract.FindStones | src/agi/extract/reference_extract.py:92-98 | the loop joins every stone keyword the text contains, in list order |
| ReferenceExtract.ExtractReferenceAttributes | src/agi/extract/reference_extract.py:13-132 | the extraction steps compute the reference attributes |
| ReferenceExtract.LastProductTitleWins | src/agi/extract/reference_extract.py:45-65 | the last script that is a Product dict gives the title when no later script is a decoded dict or list |
| ReferenceExtract.ListStopsAtFirstProduct | src/agi/extract/reference_extract.py:61-65 | inside a list the first Product item gives the title |
| ReferenceExtract.TitleOrder | src/agi/extract/reference_extract.py:69-78 | JSON-LD title first, then a non-empty og:title stripped, then the title tag |
| ReferenceExtract.MaterialIsFirstInList | src/agi/extract/reference_extract.py:85-89 | the material is the first keyword of the list that the text contains |
| ReferenceExtract.OccurringExactly | src/agi/extract/reference_extract.py:93-96 | a stone is listed exactly when it is a keyword the text contains |
| ReferenceExtract.KeywordsShape | src/agi/extract/reference_extract.py:108-113 | at most five collection keywords, each a title word of four or more word characters that is not a stop word |
| ReferenceExtract.WordsShape | src/agi/extract/reference_extract.py:110 | every word found has four or more word characters |
| ReferenceExtract.JsonLdPriceWins | src/agi/extract/reference_extract.py:115-127 | a JSON-LD price is kept and the text patterns are not consulted |
| ReferenceExtract.EmptyHtmlDefault | src/agi/extract/reference_extract.py:36-37 | empty html gives the default attributes |
| AgentRecords.MetadataOf | src/agi/agent/agent_loop.py:182-196 | a verified result is recorded under its URL with its verdict, canonical URL and SKU; the title falls back to the URL and so does the final URL |
| AgentRecords.ReadVerdict | src/agi/agent/agent_loop.py:415-421 | a missing verdict reads as ERROR; a non-string value is kept as it is and no other value is; a verdict other than ERROR came from its own string |
| AgentTools.RejectionReason | src/agi/agent/agent_loop.py:439-448 | for an accepting verdict or a non-verdict value the reason is the classification's own, else "Page did not pass verification" |
| AgentTools.RejectionReasons | src/agi/agent/agent_loop.py:441-448 | each refusing verdict has its own fixed reason |
| AgentTools.ListingLines | src/agi/agent/agent_loop.py:479-484 | no lines for no links; otherwise a heading with the count, one numbered line for each of the first ten links, and a line counting the rest when there are more than ten |
| AgentTools.NumberedSeq | src/agi/agent/agent_loop.py:481-482 | link i is shown on the line numbered i + 1 |
| AgentTools.ListingIsLines | src/agi/agent/agent_loop.py:479-484 | the text appended to the content is those lines joined |
| AgentTools.ListingShape | src/agi/agent/agent_loop.py:479-484 | at most twelve lines, and exactly one per link plus the heading for ten links or fewer |
| AgentTools.Rejected | src/agi/agent/agent_loop.py:453-462 | a refused page fails, is not verified, carries its URL and its rejection reason |
| AgentTools.Accepted | src/agi/agent/agent_loop.py:486-500 | an accepted page succeeds, is verified, is recorded under its final URL with its verdict and candidate links, and has no rejection reason |
| AgentTools.RenderedPage | src/agi/agent/agent_loop.py:514-525 | the render has a body exactly when the cached render (when the cache is read and hits) or else the fresh render has one; the 403 path without a body leaves the cache alone |
| AgentTools.SearchFresh | src/agi/agent/agent_loop.py:275-300 | a search that missed the cache never verifies, carries no URL and fetches nothing |
| AgentTools.GateExactly | src/agi/agent/agent_loop.py:615-651 | the gate passes exactly for a 2xx status with verdict PRODUCT or LISTING_WITH_PRODUCTS |
| AgentTools.GateIgnoresUrl | src/agi/agent/agent_loop.py:633-640 | the generic-path test never changes the gate's answer |
| AgentTools.UnclassifiedIsError | src/agi/agent/agent_loop.py:415-424 | a missing or unknown verdict reads as ERROR, is refused, and is rejected as a classification error |
| AgentTools.NonStringVerdictRefused | src/agi/agent/agent_loop.py:419-448 | a verdict that is not a string is refused with the classification's own reason |
| AgentTools.UnclassifiedFetchRejected | src/agi/agent/agent_loop.py:415-462 | a fetched page with a body but no classification is rejected as a classification error and is not counted |
| AgentTools.BudgetCheckFirst | src/agi/agent/agent_loop.py:307-511 | with the budget spent, fetch and render refuse before any cache or client is used, whatever those hold, and change nothing |
| AgentTools.FallbackOnAuthError | src/agi/agent/agent_loop.py:330-359 | a 401 or 403 fetch is replaced by a render of the same URL; an empty render is rejected with "Failed to render after 403" |
| AgentTools.ToolFacts | src/agi/agent/agent_loop.py:267-613 | a verified result succeeds, carries a URL and has verdict product or listing_with_products; the fetched set grows only on such a result, only under the budget, by one URL |
| AgentTools.SearchFacts | src/agi/agent/agent_loop.py:267-300 | a search never verifies, carries no URL and fetches nothing |
| AgentTools.PageToolFacts | src/agi/agent/agent_loop.py:302-607 | the same facts for fetch and render |
| AgentTools.AcceptedVerdict | src/agi/agent/agent_loop.py:643-648 | a page the gate accepts reports verdict product or listing_with_products |
| AgentTools.RenderFacts | src/agi/agent/agent_loop.py:502-607 | a render verifies only with an accepting verdict and adds only its own URL |
| AgentTools.After403Facts | src/agi/agent/agent_loop.py:330-412 | the 403 fallback verifies only with an accepting verdict and adds only the requested URL |
| AgentTools.FetchFacts | src/agi/agent/agent_loop.py:302-500 | a fetch verifies only with an accepting verdict and adds one URL only when it does |
| AgentTools.BudgetKept | src/agi/agent/agent_loop.py:307-572 | a tool call never takes the fetched set past the budget and never removes from it |
| AgentOutput.DisplayUrl | src/agi/agent/agent_loop.py:715 | the source shows the canonical URL, else the final URL, else the key |
| AgentOutput.SourcesOf | src/agi/agent/agent_loop.py:702-720 | one source per verified entry, in insertion order, with the display URL and the title |
| AgentOutput.LastContent | src/agi/agent/agent_loop.py:221-227 | a truthy answer is found exactly when some assistant message has truthy content, and it is the content of the last such message |
| AgentOutput.StepLimitAnswer | src/agi/agent/agent_loop.py:229-241 | found content is prefixed with the step-limit note; without it the answer lists the verified sources, or says none were found |
| AgentOutput.CorrectAllKeys | src/agi/agent/agent_loop.py:745-795 | the correctness pass keeps exactly the verified keys |
| AgentOutput.NonProductUntouched | src/agi/agent/agent_loop.py:751-753 | entries whose verdict is not "product" are kept as they are |
| AgentOutput.PromotionConditions | src/agi/agent/agent_loop.py:755-793 | an entry changes only when its preferred URL differs, is not fetched yet, fits the budget, answers 200 with verdict "product" and has the same SKU; then its URL and final URL become the preferred URL and its canonical URL the fetch's canonical URL when it reports one; title, verdict, count and reason never change; at most the preferred URL is added to the fetched set |
| AgentOutput.CorrectAllBudget | src/agi/agent/agent_loop.py:763-773 | the pass only adds to the fetched set, never past a budget not yet exceeded, nothing once it is spent, and at most one URL per entry |
| AgentOutput.CorrectAllKeepsVerdicts | src/agi/agent/agent_loop.py:747-795 | every entry keeps its verdict and title through the pass |
| AgentOutput.NoUrlsUnchanged | src/agi/agent/agent_loop.py:671-700 | for any answer in which the URL pattern finds nothing, the only valid picks are none and the sanitized answer is the answer itself |
| AgentOutput.VerifiedUrlsKept | src/agi/agent/agent_loop.py:677-680 | URLs whose cleaned form is verified are left alone, so an answer citing only verified URLs is kept |
| AgentOutput.UnverifiedRewritten | src/agi/agent/agent_loop.py:680-697 | an unverified URL is replaced everywhere by a verified key on its host, or by the removal marker when there is none |
| AgentOutput.SameHostReplacement | tests/test_agent_loop_output.py:90-105 | one unverified URL on the host of exactly one verified key is replaced by that key |
| AgentLoop.PageLimit | src/agi/agent/agent_loop.py:210 | the budget as a bound on the fetched set: the given maximum, or none for a negative one |
| AgentLoop.AnswerText | src/agi/agent/agent_loop.py:126 | a missing content gives the empty answer; a text content is the answer itself |
| AgentLoop.RunState.constructor | src/agi/agent/agent_loop.py:53-107 | a run starts with the system and user messages and empty provenance, budget and traces |
| AgentLoop.RunState.Record | src/agi/agent/agent_loop.py:176-198 | a result with a URL marks it attempted; a verified one is recorded (a new key is appended to the key order), a rejected one with a truthy reason is recorded as rejected; without a URL nothing changes; the provenance invariants and the gate-passed verdicts are kept |
| AgentLoop.RunState.Log | src/agi/agent/agent_loop.py:169-215 | the tool message and the trace are appended, then the budget note when the budget is spent |
| AgentLoop.CorrectionKeepsState | src/agi/agent/agent_loop.py:745-795 | the correctness pass keeps the entries a dict over the same keys, keeps every verdict and keeps the budget |
| AgentLoop.Agent.constructor | src/agi/agent/agent_loop.py:22-34 | the agent holds its clients and cache |
| AgentLoop.Agent.AppendListing | src/agi/agent/agent_loop.py:479-484 | the loop appends the candidate-link listing to the content |
| AgentLoop.Agent.SearchTool | src/agi/agent/agent_loop.py:267-300 | the search through the cache object gives the result and cache of the search tool's function, and raises where it does |
| AgentLoop.Agent.SearchMiss | src/agi/agent/agent_loop.py:275-300 | a search that missed the cache gives the result and cache of its function |
| AgentLoop.Agent.FetchCached | src/agi/agent/agent_loop.py:314-323 | a live cache entry, else a fetch whose text is extracted and which is cached when it has html |
| AgentLoop.Agent.RenderCached | src/agi/agent/agent_loop.py:514-525 | a render, from the cache when read, with text extracted from html when missing, cached when it has a body |
| AgentLoop.Agent.RenderAfterAuthError | src/agi/agent/agent_loop.py:330-412 | the 403 fallback gives the result, fetched set and cache of its function |
| AgentLoop.Agent.FetchTool | src/agi/agent/agent_loop.py:314-500 | `fetch_url` past the argument and budget checks gives the result, fetched set and cache of its function |
| AgentLoop.Agent.RenderTool | src/agi/agent/agent_loop.py:514-607 | `render_url` past the argument and budget checks gives the result, fetched set and cache of its function |
| AgentLoop.Agent.PageTool | src/agi/agent/agent_loop.py:302-511 | the URL argument and the budget are checked first, then the page tool runs |
| AgentLoop.Agent.ExecuteTool | src/agi/agent/agent_loop.py:255-613 | the dispatch gives the result, fetched set and cache of the tool functions, or raises where they do |
| AgentLoop.Agent.HandleToolCall | src/agi/agent/agent_loop.py:145-215 | arguments that are not JSON are skipped without a message; otherwise the tool's content becomes a tool message, provenance and the trace are recorded and the budget note added; a raising tool leaves messages and traces alone; the run invariants and the budget hold and the fetched set only grows |
| AgentLoop.Agent.HandleNext | src/agi/agent/agent_loop.py:144-215 | handling call `j` after the earlier calls of the reply extends what they appended by this call's tool message and trace, or by nothing when its arguments are skipped |
| AgentLoop.AppendedHandled | src/agi/agent/agent_loop.py:167-201 | a handled call adds one tool message with its id, a possible budget note, and one trace naming it with its decoded arguments |
| AgentLoop.AppendedSkip | src/agi/agent/agent_loop.py:149-154 | a call whose arguments are not JSON adds no message and no trace |
| AgentLoop.Agent.Sanitize | src/agi/agent/agent_loop.py:653-700 | the loop over the found URLs rewrites the answer as the sanitizer function says, for picks on the same host, and returns an answer without URL matches unchanged |
| AgentLoop.Agent.CorrectEntry | src/agi/agent/agent_loop.py:748-793 | one entry of the correctness pass, with the fetched set after it |
| AgentLoop.Agent.VerifyProductUrls | src/agi/agent/agent_loop.py:722-795 | the loop builds the corrected dict in key order, with the fetched set after it |
| AgentLoop.Agent.VerifiedSourcesOnly | src/agi/agent/agent_loop.py:702-720 | the loop builds the sources of the entries in key order |
| AgentLoop.Agent.FindLastContent | src/agi/agent/agent_loop.py:221-227 | the backwards loop finds the last assistant content |
| AgentLoop.Agent.Summary | src/agi/agent/agent_loop.py:233-236 | the loop writes one line per verified source after the heading |
| AgentLoop.Agent.Conclude | src/agi/agent/agent_loop.py:244-253 | the returned dict holds the sanitized answer, the sources of the entries as they stand and the traces |
| AgentLoop.Agent.CorrectionPass | src/agi/agent/agent_loop.py:129-130 | the pass over the run's entries keeps the keys, the run invariants and the budget |
| AgentLoop.Agent.Answer | src/agi/agent/agent_loop.py:124-139 | a reply without tool calls ends the run with its content as the draft, after the correctness pass and the sanitizer; non-string content raises |
| AgentLoop.Agent.Turn | src/agi/agent/agent_loop.py:110-216 | one step of the loop: an LLM failure returns its error with no sources, a reply without tool calls concludes the run, otherwise the tool calls are handled under the budget and their traces carry this step's number |
| AgentLoop.Agent.Finish | src/agi/agent/agent_loop.py:123-139 | the final-answer exit runs the correctness pass first, then sanitizes against the corrected entries |
| AgentLoop.Agent.LimitDraft | src/agi/agent/agent_loop.py:217-241 | the step-limit draft is built from the last content or the verified sources |
| AgentLoop.Agent.FinishAtLimit | src/agi/agent/agent_loop.py:217-253 | the step-limit exit drafts from the entries before the pass, sanitizes the draft against their keys, which the pass keeps, and returns the sources of the corrected entries |
| AgentLoop.Agent.Run | src/agi/agent/agent_loop.py:36-253 | whatever the clients answer: verified entries have distinct keys and gate-passing verdicts, the fetched set stays within the budget, traces name steps in range, an LLM failure returns its error with no sources, and every other return is the sanitized draft with the sources of the corrected entries |
| AgentLoop.Agent.FetchMiss | src/agi/agent/agent_loop.py:317-323 | a fetch that missed the cache gives the page and store of the fresh-fetch function |
| AgentLoop.Agent.RenderMiss | src/agi/agent/agent_loop.py:518-525 | a render that missed the cache gives the page and store of the fresh-render function |
| AgentLoop.Agent.StoreRendered | src/agi/agent/agent_loop.py:521-525 | a rendered page with a body gets text extracted from its html when it has none, and is stored under the render key for the fetch lifetime |
| AgentLoop.Agent.AnswerFetch | src/agi/agent/agent_loop.py:414-500 | the gate and answer for a fetched page that is not a 401 or 403 give the result, fetched set and store of the answer function, which never raises |
| AgentLoop.Agent.RunTool | src/agi/agent/agent_loop.py:158-215 | with decoded arguments, the tool runs as the dispatch function says and its result is recorded; the run invariants and the budget hold and the fetched set only grows |
| AgentLoop.Agent.Settle | src/agi/agent/agent_loop.py:169-215 | for any outcome the tools can give, the bookkeeping keeps the run invariants and the budget, and records the result as the tool-call contract says; a raised tool leaves the run to raise |
| AgentLoop.RunState.Apply | src/agi/agent/agent_loop.py:169-215 | the tool message and then the budget note when the budget is spent; the trace with step + 1, the tool name, the arguments, the content length and the success flag; a result with a URL marks it attempted, and a verified one is recorded under it; the invariants hold and gate-passed verdicts stay gate-passed |
| AgentLoop.Agent.HandleToolCalls | src/agi/agent/agent_loop.py:144-215 | the loop over one reply's tool calls keeps the run invariants and the budget and only grows the fetched set; the earlier messages and traces are kept as a prefix; what it adds is one tool message per decodable call, carrying the call ids in call order, and one trace per decodable call of this step, naming the calls and their arguments in order; without an exception every call was handled, and an exception stops at a call with decodable arguments |
| AgentLoop.Agent.SanitizeUrl | src/agi/agent/agent_loop.py:673-698 | one found URL is kept when its normalized form is verified, else replaced by a verified URL on the same host or by the removal marker |
| AgentOutput.SanitizeStep | src/agi/agent/agent_loop.py:673-698 | one more found URL extends the valid picks, and the answer after it is the previous answer with that URL rewritten |
| AgentTools.FreshRender | src/agi/agent/agent_loop.py:518-525 | a fresh render has a body exactly when the client's render has one; without a body it is returned as it came and the store is unchanged |
| AgentTools.FetchFailed | src/agi/agent/agent_loop.py:426-435 | a fetch without html or text fails, is not verified and carries its final URL |
| AgentTools.AnswerFacts | src/agi/agent/agent_loop.py:414-500 | the answer for a fetched page never raises; a verified answer succeeds with a URL and an accepting verdict; the fetched set grows by at most one URL and only on a verified answer |
| AgentTools.UnclassifiedAnswerRejected | src/agi/agent/agent_loop.py:415-462 | a fetched page with a body and no verdict is rejected as a classification error, is not verified and fetches nothing |
| PageClassifier.FilterAnchors | src/agi/extract/page_classifier.py:197-243 | the loop with the seen set gives the distinct candidates in page order |
| PageClassifier.FindCaptchaForm | src/agi/extract/page_classifier.py:409-420 | the loop over the forms finds a captcha keyword exactly when some form's action, id or class holds one |
| PageSignals.FindMeta | src/agi/extract/product_extract.py:62-70 | the meta found for a property is one of the page's metas with that property; none is found only when no meta has it |
| TesterTools.RecordOne | test_agent.py:747-760 | one result adds its entry, and its normalized URL joins the Brave URL set and the allowed URLs |
| TesterTools.KeepOnDomain | test_agent.py:862-889 | the loop stops at the first list or dict candidate, whose membership test raises, keeps the normalized same-domain strings before it, and adds exactly those to the helper URLs |
| Caching.Cache.constructor | src/agi/cache/cache.py:17-19 | a new cache holds its digest and an empty store |
| JsonScan.Step | test_agent.py:88-109 | one character of the brace scan: an escaped character is skipped, a backslash escapes the next one (inside or outside a string), a quote toggles the string flag, and only an unquoted `{` or `}` moves the depth, by one |
| JsonScan.FirstJsonObject | test_agent.py:70-124 | the scan as written: an input with no `{` (the empty one included) gives no object |
| JsonScan.FixedFirstJsonObject | test_agent.py:70-124 | the scan with a failed span skipped: an input with no `{` gives no object |
| JsonScan.ExtractFirstJsonObject | test_agent.py:70-124 | the loop over the characters returns what the scan as written returns |
| JsonScan.AsWrittenDecodesSpan | test_agent.py:88-122 | from any position whose pending start is a `{` with nothing open before it, an object the scan returns is the decoding of a `{`...`}` span of the input |
| JsonScan.FirstJsonObjectIsSpan | test_agent.py:70-124 | an object the code returns is the decoding of a `{`...`}` span of the input |
| JsonScan.FixedDecodesSpan | test_agent.py:88-122 | from any position past a `{` start, an object the fixed scan returns is the decoding of a `{`...`}` span |
| JsonScan.FixedFirstJsonObjectIsSpan | test_agent.py:70-124 | an object the fixed scan returns is the decoding of a `{`...`}` span of the input |
| JsonScan.FixedSkipsFailedSpan | test_agent.py:112-122 | after a closing brace whose span does not decode, the fixed scan returns exactly what a fresh scan of the rest of the input returns |
| JsonScan.AsWrittenMissesNextObject | test_agent.py:112-122 | on `{a}}{}`, with `{a}` undecodable, the code returns nothing although the rest `}{}` alone gives `{}`, and the fixed scan returns `{}` |
| JsonScan.FailedSpanAt2 | test_agent.py:106-122 | on `{a}}{}` both scans reach the failed `}` at index 2 and restart at the `{` at index 4, the code one position early |
| TesterUrls.NormalPathFacts | test_agent.py:247 | the normal path is "/" exactly when the path is all slashes; otherwise it is the path without its run of trailing slashes, and does not end in a slash |
| TesterUrls.AllStripped | test_agent.py:247 | what the right-strip removes is slashes only |
| TesterUrls.NormalPathIdempotent | test_agent.py:247 | normalizing a normalized path changes nothing |
| TesterUrls.NormalParts | test_agent.py:239-254 | the reassembled URL keeps the scheme, host, params and query, drops the fragment and normalizes the path |
| TesterUrls.NormalizeIdempotent | test_agent.py:239-254 | when the URL parser reads back what it reassembled, normalizing a normalized URL changes nothing; a URL the parser raises on comes back unchanged |
| TesterUrls.FirstSegment | test_agent.py:262 | the first `/`-segment is a prefix without slashes that ends the string or is followed by a slash |
| TesterUrls.TargetHost | test_agent.py:262 | the cleaned target domain holds no slash |
| TesterUrls.SuffixAtLabelBoundary | test_agent.py:257-265 | a URL on the target domain is one the URL parser accepts, and has the target host as its lower-cased host or as a suffix right after a dot |
| TesterUrls.SameDomainIgnoresTargetCase | test_agent.py:257-265 | lower-casing the target does not change the answer |
| TesterUrls.LookalikeHostRejected | test_agent.py:257-265 | a host that is the target host behind a prefix not ending in a dot is not on the domain |
| TesterUrls.ElementSection | test_agent.py:193-211 | an ancestor decides nav, header, footer or body, or nothing |
| TesterUrls.SectionOf | test_agent.py:190-216 | the section is one of five names; "unknown" only with no `<main>` above; when none of the five nearest ancestors decides, it is "body" exactly when a `<main>` is above |
| TesterUrls.AbsoluteOf | test_agent.py:169-178 | an anchor that gives a URL gives an http or https one |
| TesterUrls.LinkRecord | test_agent.py:181-227 | the link's URL is the normalized absolute URL, its text is at most 200 characters, and it is internal exactly when its host equals the base host ignoring case or is empty |
| TesterUrls.LinkOf | test_agent.py:169-227 | an anchor gives a link exactly when it gives an absolute http(s) URL, and the link is its record |
| TesterUrls.Candidates | test_agent.py:168-227 | one candidate per anchor, in document order |
| TesterUrls.UrlsOfAppend | test_agent.py:182-184 | appending a link adds its URL to the seen set |
| TesterUrls.DedupeFacts | test_agent.py:182-184 | the kept links have distinct URLs, every candidate's URL is kept, and each kept link is a candidate |
| TesterUrls.LinksRichFacts | test_agent.py:157-229 | nothing for an empty page or base URL; at most 200 links, with distinct URLs and texts of at most 200 characters, each the link of one of the anchors |
| TesterUrls.LinksRichComplete | test_agent.py:168-229 | below the cap, every anchor that gives an absolute URL has its normalized URL listed |
| TesterUrls.ExtractLinksRich | test_agent.py:157-229 | the loop with its seen set returns the link list whose de-duplication, caps and completeness `LinksRichFacts` and `LinksRichComplete` prove |
| TesterState.AgentState.constructor | test_agent.py:53-63 | a fresh state has an empty reference, no target, and empty URL sets, queries and results |
| TesterState.TargetOf | test_agent.py:950-963 | the target's domain is the lower-cased host; its base URL is the URL itself for a home page and `scheme://host` otherwise |
| TesterState.FirstReference | test_agent.py:927-943 | the first URL shaped like a product page, with no earlier one shaped so |
| TesterState.FirstTarget | test_agent.py:946-963 | the first URL other than the reference with at most two path segments, with no earlier one |
| TesterState.PassesOf | test_agent.py:923-963 | the first pass finds a reference exactly when some URL of the prompt is shaped like a product page |
| TesterState.ReferenceIsFirstShaped | test_agent.py:927-988 | the reference becomes the record of the first product-shaped URL; without one it stays as it was |
| TesterState.TargetWithReference | test_agent.py:946-996 | with a reference, the target is that of the first other home- or category-shaped URL, or else the reference's own site |
| TesterState.SingleUrlIsTarget | test_agent.py:965-988 | a single URL not shaped like a product page leaves the reference alone and becomes the target, with its own host; the URL itself is the base URL unless it is home- or category-shaped |
| TesterState.PhraseOnlyAsLastResort | test_agent.py:998-1007 | a target other than the one the company-site phrase names means some URL or the earlier state gave one |
| TesterState.ScanReference | test_agent.py:927-943 | the first loop returns the first pass's reference URL |
| TesterState.ScanTarget | test_agent.py:946-963 | the second loop returns the first target candidate, or none |
| TesterState.ParseUserPrompt | test_agent.py:915-1007 | the state's reference and target become those of the parsing function of the prompt and the old state |
| TesterState.AppendNewUrl | test_agent.py:1016-1022 | appending a source for an unseen URL keeps the URLs distinct and adds exactly that URL |
| TesterState.DistinctUrlCount | test_agent.py:1013-1022 | a list of sources with distinct URLs has as many URLs as entries |
| TesterState.SourcesFromState | test_agent.py:1010-1024 | one source per non-empty visited URL: the URLs are exactly the visited ones but "", distinct, as many as those, each titled with itself |
| TesterState.SourcesOfVisited | test_agent.py:1012-1024 | the loop over the visited set yields distinct URL-titled sources for exactly its non-empty URLs |
| TesterTools.HtmlToTextClean | test_agent.py:131-154 | an empty page gives "", and the cleaned text has no surrounding whitespace |
| TesterTools.ViewOf | test_agent.py:1092-1190 | a loaded page reports its final URL, status and html, a prefix of at most 3000 characters of its cleaned text (all of it when shorter), and the first 100 of its rich links |
| TesterTools.CanonicalOf | test_agent.py:1158-1167 | a rendered page has a canonical URL exactly when it has a non-empty canonical href, and it is that href resolved against the final URL |
| TesterTools.FetchSucceedsIff | test_agent.py:1071-1125 | a fetch succeeds exactly when a URL was given and the status is 200; a failure reports the final URL, the status and the error or "Unknown error"; a success reports the final URL, the html and the client's canonical URL |
| TesterTools.RenderSucceedsIff | test_agent.py:1127-1190 | a render succeeds exactly when a URL was given and html came back; a failure reports the requested URL; a success reports the final URL and the canonical URL read from the page |
| TesterTools.ViewLinksFacts | test_agent.py:1102-1187 | a loaded page reports at most 100 links, with distinct URLs and texts of at most 200 characters |
| TesterTools.ValuePairs | test_agent.py:1336-1340 | a list value gives one pair per element, in order, each with the element as a string; any other value gives one pair |
| TesterTools.ParamListAppend | test_agent.py:1334-1340 | the pairs of two runs of parameters are the pairs of each, one after the other |
| TesterTools.ParamListKeys | test_agent.py:1334-1340 | every pair carries the key of one of the parameters |
| TesterTools.JoinQuery | test_agent.py:1346-1352 | no new query keeps the old one; otherwise the result ends with the new query and starts with the old one, joined by one `&` when both are present |
| TesterTools.BuiltParts | test_agent.py:1345-1361 | the built URL keeps the base's scheme, host, path and params, has the combined query and no fragment |
| TesterTools.BuildSucceedsIff | test_agent.py:1324-1383 | `build_url` builds exactly when the base URL is non-empty, the parameters are a dict and the URL parser accepts the base, refuses an empty base, answers "Failed to build URL: " with the parser's error otherwise, and a built URL is the normalized reassembly with the base URL and parameters echoed |
| TesterTools.TruthyStrs | test_agent.py:711 | the truthy elements, as strings, are no more than the elements |
| TesterTools.AttributesFromData | test_agent.py:705-711 | every attribute comes from a reference value whose key is not a metadata key |
| TesterTools.FallbackQueries | test_agent.py:713-722 | three queries with attributes, else two, each starting `site:<domain> ` |
| TesterTools.ReplyValue | test_agent.py:694-698 | a value other than `[]` comes from the first JSON object the scan as written finds in the reply, whose action is the expected one and whose field holds that value |
| TesterTools.PyLen | test_agent.py:700 | `len` is defined exactly on lists, strings and dicts, and counts a list's items and a string's characters |
| TesterTools.QueryItems | test_agent.py:724 | iterating the proposal gives a list's items, or one one-character query per character of a string |
| TesterTools.QueriesFacts | test_agent.py:690-733 | at most six queries; the model's own list in order, or a string's characters, when `len` gives at least three; otherwise two or three site-scoped fallbacks; the phase fails with the exception's text exactly when the proposal has no `len`, is a dict of three or more keys, or the fallback meets a reference that is not a dict |
| TesterTools.FailedSpanHidesQueries | test_agent.py:694-722 | on the reply `{a}}{}` of the scan's finding the proposal is `[]`, so phase 3A uses the site-scoped fallback |
| TesterTools.EntryOf | test_agent.py:747-760 | a result without a URL adds nothing; one with a URL adds its normalized URL, its title cut to 120 and its snippet cut to 200 characters, with the query |
| TesterTools.EntryUrlsAppend | test_agent.py:751-752 | the URLs of two entry runs are the URLs of each |
| TesterTools.EntriesFacts | test_agent.py:747-760 | every recorded entry has a normalized result URL, a short title and snippet and its query, and there are no more entries than results |
| TesterTools.FirstUnhashable | test_agent.py:862-866 | the first list or dict candidate, with no earlier one a list or dict |
| TesterTools.KeepOf | test_agent.py:862-874 | a candidate is kept exactly when it is a string on the target's domain, and its normalized URL is kept; None, numbers and bools are rejected |
| TesterTools.FilterMap | test_agent.py:862-874 | the collected values are no more than the elements |
| TesterTools.FilterMapIff | test_agent.py:862-874 | a value is collected exactly when some element maps to it |
| TesterTools.ListingFacts | test_agent.py:861-876 | at most five URLs; a URL is kept exactly when it is the normalized form of a same-domain string among the first five before any list or dict; a list or dict among the first five aborts the check |
| TesterTools.TruthyStrsOf | test_agent.py:711 | the comprehension's loop gives the truthy elements as strings |
| TesterTools.CollectAttributes | test_agent.py:705-711 | the attribute loop gives the attributes of the reference's entries in order |
| TesterTools.FetchUrl | test_agent.py:1071-1125 | `fetch_url` answers as the fetch branch says, and marks the normalized final URL visited exactly when the page loaded |
| TesterTools.RenderUrl | test_agent.py:1127-1190 | `render_url` answers as the render branch says, and marks the normalized final URL visited exactly when the page loaded |
| TesterTools.ParamListOf | test_agent.py:1334-1340 | the loop builds the parameter pairs |
| TesterTools.BuildUrl | test_agent.py:1324-1383 | `build_url` answers as the build branch says and adds a built URL, and only that, to the allowed URLs |
| TesterTools.GenerateQueries | test_agent.py:690-733 | the phase computes what `QueriesOf` says: a success sets the queries; a failure returns "Error: Failed to generate Brave search queries: " with the exception's text and leaves them as they were |
| TesterTools.RecordResults | test_agent.py:747-760 | the results are appended as the entries, and their URLs join both the Brave URL set and the allowed URLs |
| TesterTools.SearchOne | test_agent.py:742-764 | one query asks for fifteen results and records them; a failed search records nothing |
| TesterTools.RunSearches | test_agent.py:742-766 | every query's entries, in query order, are appended and their URLs allowed |
| TesterTools.ValidateListing | test_agent.py:860-889 | the check returns the listing for the target's domain, whose at most five same-domain URLs and list-or-dict abort `ListingFacts` characterizes, and adds exactly those URLs to the helper URLs |
| Notebook.RawObject | main.py:231-234 | there is a raw object exactly when some "{" comes before a later "}", and it is then the span from the first "{" to the last "}" |
| Notebook.ExtractJsonFromText | main.py:222-236 | the fenced body when the fence pattern matches, else the greedy raw object, else the text itself |
| Notebook.RawObjectIdempotent | main.py:231-234 | extracting the raw object from a raw object gives it back |
| Notebook.BareObjectPassesThrough | main.py:222-236 | text without a fence that starts with "{" and ends with "}" is returned unchanged |
| Notebook.Listed | main.py:101-115 | no results is a failure with the no-results content; otherwise success with the formatted listing |
| Notebook.ExecuteSearchWeb | main.py:84-115 | the search through the cache object gives the answer and the store of the search function |
| Notebook.SearchFacts | main.py:86-105 | a live non-empty cache entry answers successfully whatever the search service says and leaves the store alone; a raised search fails with its message; a returned list of results is cached and succeeds exactly when it is non-empty |
| Notebook.SearchRepeatServedFromCache | main.py:86-93 | after a successful search, the same query at the same time with any count and any service gives the same answer and store |
| Notebook.CountOf | main.py:255 | a falsy or missing count is 5; an integer count that is truthy is kept |
| Notebook.RunToolCall | main.py:244-258 | the dispatcher through the cache object gives the call result and the store of the tool-call function |
| Notebook.OnlySearchDispatched | main.py:253-258 | a name other than search_web returns the unknown-tool dict with "Unknown tool: " and the name, independent of the services and leaving the store alone |
| Notebook.MalformedArgumentsSearchEmpty | main.py:247-256 | a search_web call whose argument string does not decode searches "" with count 5 |
| Notebook.LinkLines | main.py:172-177 | no lines for no links; otherwise a heading with the number of links, the first ten numbered from 1, and "... and N more" when there are more than ten |
| Notebook.Answer | main.py:141-187 | success exactly for status 200, not-found exactly for 404, any other status fails; the URL reported is the final URL or else the requested one; success carries the page's links, canonical URL and title |
| Notebook.FetchedUrls.constructor | main.py:118 | the caller's fetched set starts empty |
| Notebook.ObtainPage | main.py:129-139 | the fetch dict from the cache object is the one the page-record function gives, with the store it gives |
| Notebook.ExecuteFetchUrl | main.py:118-187 | the fetch through the cache object gives the answer, fetched set and store of the fetch function |
| Notebook.FetchGuardsBeforeIo | main.py:120-127 | an empty URL or a spent budget fails with its message before any cache or service is used, leaving the fetched set and the store alone |
| Notebook.FetchRecordsOnlySuccess | main.py:141-164 | the fetched set grows by the final URL exactly on success and is unchanged otherwise; success needs a URL, budget and status 200, not-found needs status 404 |
| Notebook.FetchKeepsBudget | main.py:123-164 | a fetch never takes the fetched set past the budget |
| Notebook.FetchOkContent | main.py:165-177 | a successful fetch's content is "Fetched <url>:" and the page text followed by at most twelve listing lines |
| Notebook.PageRecordCached | main.py:129-139 | a page without html is not cached; a page with html is, so the same URL at the same time is served from the cache whatever the client would now answer |
| Notebook.AssistantMessageFacts | main.py:285-294 | the assistant message has the assistant role and the reply's content or "", and has tool_calls exactly when the reply has truthy ones, which it then carries |
| Notebook.RunnerOf | main.py:307 | the runner the chat loop uses executes each tool call as the tool-call function says |
| Notebook.Conversation.constructor | main.py:264 | the caller's message list holds the initial messages |
| Notebook.RunToolCalls | main.py:306-317 | the round's loop appends the tool messages and updates the store as the round function says for the notebook's runner |
| Notebook.AgentChatWithTools | main.py:262-317 | the loop's result, message list and store are those of the chat-loop function from round 0 |
| Notebook.ToolMessagesInOrder | main.py:306-317 | for any runner, each executed call appends exactly one tool message, in call order, with the call's id and the dumped result; earlier messages are kept and every call runs unless one raises |
| Notebook.ChatCallsBounded | main.py:274-303 | for any runner, chat is called at least once and at most max(max_tool_rounds, 0) + 1 times, and the earlier messages are kept |
| Notebook.AfterCallsBounded | main.py:292-303 | the same bound once a reply has been appended |
| Notebook.ChatReturnsLastReply | main.py:277-303 | a returned reply is the last message, as its assistant message, and still has tool calls only when chat was called the full number of times |
| Notebook.AfterReturnsLastReply | main.py:296-303 | the same once the reply has been appended as the last message |

## Left out

- The HTTP, search, chat and browser transports are total function values. This covers the 429 retry and sleeps of the Brave client and the Playwright session handling (src/agi/clients/browser_client.py:54-170). Only the decision logic around them is modelled. The agent's `BrowserClient` import names a class that src/agi/clients/browser_client.py does not define, and no shipped client has `render`, so `World.render` stands for an injected client like the test's `DummyBrowserClient`; `PlaywrightFetchClient.fetch` is modelled only through its blocking test (`BrowserClient.Blocked`).
- HTML parsing (BeautifulSoup, lxml, trafilatura) is not modelled. A page is the elements the code queries: anchors, JSON-LD script texts, metas, forms, microdata and the extracted text.
- `json.loads`, `json.dumps`, the regular-expression engine, `urlparse`, `urlunparse`, `urljoin`, `parse_qs`, `urlencode` and the MD5 digest are uninterpreted functions of `Foreign.Lib`. The patterns are passed by their text, and `re.search` gets its `IGNORECASE` and `DOTALL` flags. The two character classes the model spells out, `\w` of the title keywords and `\d` of the six-digit test, are ASCII below U+0080 and the library predicates `unicodeWordChar` and `unicodeDecimal` above it, so their Unicode extent is not fixed.
- The price alternation of the classifier uses `$` as an end anchor, not a dollar sign. The model inherits whatever the regex engine makes of the pattern, so this is noted but not modelled.
- The disk cache's persistence and process-wide sharing are out. The store is an in-memory map, and the clock is the parameter `now`.
- Logging, log-file setup, the tester's debug-file writes and latency measurements have no effect on results, so they are left out.
- The web layer is out: the FastAPI application and its models, the tool-schema data and the prompt texts. Of the configuration, only the constant values are used.
- The script body and module-level singletons of `main.py` are out, because they read a fixed local file and call the live LLM at import time. The same goes for `strip_html_basic`, `html_to_text_basic` and `parse_llm_json`, which only that script uses.
- Only the phase-3A and phase-3B bookkeeping of the tester's `run` is modelled. Its phase-1 and phase-2 LLM exchanges and its prompt texts are left out. So are the second phase-3B iteration, which asks the model for new queries and records their results as phase 3A does (test_agent.py:808-845), and the final output dict, which is assembly of values the model already computes.
- LinkValidator.ValidateProductPage: the reason is one of four verdicts, not the source's text; the f-strings of src/agi/agent/link_validator.py:69, 83 and 90, which quote `expected_tokens`, the formatted score and `set(matches)`, are not modelled, because Python's `repr` of a list and a set, and the set's iteration order, are not part of the model.
- LinkValidator.ValidateProductPage: the floating-point score is a fraction `scoreNum / scoreDen`. The `score >= 0.3` test is the integer comparison `10 * matches >= 3 * max(1, expected)`, and `LinkValidator.StrongEnoughIsScore` proves the two agree.
- Strings.Lower: case mapping covers ASCII and the Cyrillic capitals U+0400 to U+042F only. Python's full Unicode case mapping is not modelled: every other character, including the rest of the Cyrillic block, Latin-1 and Greek capitals, is left as it is, so properties about lower-cased text hold for the characters covered.
- Caching.KeySuffix: the MD5 digest is uninterpreted. The 100-character bound on long identifiers holds for a digest of 32 characters, which is what MD5's hex form has.
- AgentLoop.Agent.Sanitize: the same-host replacement for an unverified URL is "some verified key on the same host" (`ValidPick`). The code takes the first one found in a Python `set`, and that iteration order is not modelled.
- Notebook.CountOf: `int()` of a value that is not an integer or a boolean is the library function `pyInt`. The parsing of numeric strings and floats is not modelled.
- Foreign.Lib: a `urlparse` that raises `ValueError` (the field `urlparseError`) is modelled where the tester catches it: `TesterUrls.NormalizeUrl` gives the URL back, `TesterUrls.IsSameDomain` answers False and `TesterTools.BuildUrl` answers "Failed to build URL: " with the error text. Everywhere else the model takes `urlparse` to succeed. A raise there would propagate, or be swallowed by a broad `except Exception` in the agent's candidate-link extraction, product detection and correctness pass, and those paths are not modelled.
- Concurrency is out: each run is sequential, and the cache is used by one run at a time.

## Findings

| source | as written | input that shows it | evidently intended | confidence | as-written member | corrected member |
|---|---|---|---|---|---|---|
| test_agent.py:112-122 | when a balanced span does not decode, `start_idx` moves to the next `{` but the scan goes on from the character after the span, so a stray `}` in between drives the depth negative and the next object is never found | `{a}}{}`, with `{a}` not decodable: the code returns None, although `{}` follows | "Try next object": restart the scan at the next `{` with depth 0 | not executed | JsonScan.AsWrittenMissesNextObject, JsonScan.FirstJsonObject | JsonScan.FixedSkipsFailedSpan, JsonScan.FixedFirstJsonObject |

The tester's phase 3A parses the reply with the scan as written (`TesterTools.ReplyValue`), so the model keeps what the tester does on such a reply: `TesterTools.FailedSpanHidesQueries` shows it falling back to the site queries. The corrected scan stands beside it with its own proved properties.
