/**
 * `extract_sku`: the article number of a product page, from the first of
 * four sources that has one: JSON-LD Product data, a retailer-item meta
 * tag, schema.org microdata, and fixed label patterns in the page text.
 */
module SkuExtract {
  import opened Strings
  import opened Values
  import opened Foreign
  import opened PageSignals

  predicate IsProductDict(j: Json)
  {
    j.JObj? && j.FieldIs("@type", "Product")
  }

  /** `d.get("sku") or d.get("mpn") or d.get("productID")`. */
  function SkuField(d: Json): (r: Json)
    requires d.JObj?
    ensures d.Get("sku").Truthy() ==> r == d.Get("sku")
    ensures !d.Get("sku").Truthy() && d.Get("mpn").Truthy() ==> r == d.Get("mpn")
    ensures !d.Get("sku").Truthy() && !d.Get("mpn").Truthy() ==> r == d.Get("productID")
  {
    JOr(JOr(d.Get("sku"), d.Get("mpn")), d.Get("productID"))
  }

  /** The SKU one decoded value gives, if it is a Product dict with a non-empty identifier. */
  function ObjectSku(lib: Lib, j: Json): (r: Option<string>)
    ensures r.Some? <==> IsProductDict(j) && SkuField(j).Truthy()
    ensures r.Some? ==> r.value == PyStr(lib, SkuField(j))
  {
    if IsProductDict(j) && SkuField(j).Truthy() then Some(PyStr(lib, SkuField(j))) else None
  }

  /** One JSON-LD script: a Product dict, or the first such item of a list. */
  function ScriptSku(lib: Lib, s: LdScript): Option<string>
  {
    if !s.LdJson? then None
    else match s.value
      case JObj(_) => ObjectSku(lib, s.value)
      case JArr(items) => FirstSome(items, (j: Json) => ObjectSku(lib, j))
      case _ => None
  }

  function JsonLdSku(lib: Lib, scripts: seq<LdScript>): Option<string>
  {
    FirstSome(scripts, (s: LdScript) => ScriptSku(lib, s))
  }

  const RETAILER_ITEM_ID: string := "product:retailer_item_id"

  function MetaSku(metas: seq<Meta>): (r: Option<string>)
    ensures r.Some? <==> MetaContent(metas, RETAILER_ITEM_ID).Some? && MetaContent(metas, RETAILER_ITEM_ID).value != ""
    ensures r.Some? ==> r.value == Strip(MetaContent(metas, RETAILER_ITEM_ID).value)
  {
    var c := MetaContent(metas, RETAILER_ITEM_ID);
    if c.Some? && c.value != "" then Some(Strip(c.value)) else None
  }

  /** The sku element's text, even when empty, once a Product element has one. */
  function MicrodataSku(page: Page): (r: Option<string>)
    ensures r.Some? <==> page.microdataSku.Some? && page.microdataSku.value.Some?
  {
    if page.microdataSku.Some? && page.microdataSku.value.Some? then page.microdataSku.value else None
  }

  const SKU_PATTERNS: seq<string> := [
    "sku[:\\s]+([a-z0-9\\-]+)",
    "article[:\\s]+([a-z0-9\\-]+)",
    "artikul[:\\s]+([a-z0-9\\-]+)",
    "\U{0430}\U{0440}\U{0442}\U{0438}\U{043A}\U{0443}\U{043B}[:\\s]+([a-z0-9\\-]+)",
    "\U{043A}\U{043E}\U{0434}[:\\s]+([a-z0-9\\-]+)"
  ]

  /** The first pattern, in list order, that matches the lower-cased text. */
  function TextMatch(lib: Lib, text: string): Option<ReMatch>
  {
    FirstSome(SKU_PATTERNS, (p: string) => lib.reSearch(p, Lower(text), IGNORECASE))
  }

  /** `match.group(1)` of that match (a missing group raises, and ends in None). */
  function TextSku(lib: Lib, text: string): Option<string>
  {
    var m := TextMatch(lib, text);
    if m.Some? && |m.value.groups| > 0 then Some(m.value.groups[0]) else None
  }

  /** `extract_sku(html, text)`. */
  function ExtractSku(lib: Lib, page: Page): (r: Option<string>)
    ensures page.html == "" ==> r == None
  {
    if page.html == "" then None
    else
      var ld := JsonLdSku(lib, page.ldScripts);
      if ld.Some? then ld
      else
        var meta := MetaSku(page.metas);
        if meta.Some? then meta
        else
          var micro := MicrodataSku(page);
          if micro.Some? then micro else TextSku(lib, page.text)
  }

  // ---------------------------------------------------------------------------
  // Lemmas

  /**
   * The sources in priority order: each one is consulted only when every
   * source before it has nothing, and nothing found anywhere gives None.
   */
  lemma SkuPriority(lib: Lib, page: Page)
    requires page.html != ""
    ensures JsonLdSku(lib, page.ldScripts).Some? ==> ExtractSku(lib, page) == JsonLdSku(lib, page.ldScripts)
    ensures JsonLdSku(lib, page.ldScripts).None? && MetaSku(page.metas).Some?
            ==> ExtractSku(lib, page) == MetaSku(page.metas)
    ensures JsonLdSku(lib, page.ldScripts).None? && MetaSku(page.metas).None? && MicrodataSku(page).Some?
            ==> ExtractSku(lib, page) == MicrodataSku(page)
    ensures JsonLdSku(lib, page.ldScripts).None? && MetaSku(page.metas).None? && MicrodataSku(page).None?
            ==> ExtractSku(lib, page) == TextSku(lib, page.text)
    ensures ExtractSku(lib, page).None? <==>
      JsonLdSku(lib, page.ldScripts).None? && MetaSku(page.metas).None? && MicrodataSku(page).None?
      && TextSku(lib, page.text).None?
  {
  }

  /**
   * Within the JSON-LD scripts the first one holding a Product with an
   * identifier wins, and its value is that identifier as a string.
   */
  lemma JsonLdFirstProductWins(lib: Lib, scripts: seq<LdScript>, i: nat)
    requires i < |scripts| && scripts[i].LdJson? && IsProductDict(scripts[i].value)
    requires SkuField(scripts[i].value).Truthy()
    requires forall j :: 0 <= j < i ==> ScriptSku(lib, scripts[j]).None?
    ensures JsonLdSku(lib, scripts) == Some(PyStr(lib, SkuField(scripts[i].value)))
  {
    FirstSomeAt(scripts, (s: LdScript) => ScriptSku(lib, s), i);
  }

  /** In a list, the first Product item with an identifier wins. */
  lemma ListFirstProductWins(lib: Lib, items: seq<Json>, i: nat)
    requires i < |items| && IsProductDict(items[i]) && SkuField(items[i]).Truthy()
    requires forall j :: 0 <= j < i ==> !(IsProductDict(items[j]) && SkuField(items[j]).Truthy())
    ensures ScriptSku(lib, LdJson(JArr(items))) == Some(PyStr(lib, SkuField(items[i])))
  {
    FirstSomeAt(items, (j: Json) => ObjectSku(lib, j), i);
  }

  /** A found meta value never starts or ends with whitespace. */
  lemma MetaSkuStripped(metas: seq<Meta>)
    ensures var r := MetaSku(metas);
      r.Some? ==> r.value == [] || (!IsSpace(r.value[0]) && !IsSpace(r.value[|r.value| - 1]))
  {
    var r := MetaSku(metas);
    if r.Some? && r.value != [] {
      TrimRightKeepsLeft(TrimLeft(MetaContent(metas, RETAILER_ITEM_ID).value));
    }
  }

  /** The text source reads the lower-cased text, so the case of the text does not matter. */
  lemma TextSkuIgnoresCase(lib: Lib, text: string)
    ensures TextSku(lib, Lower(text)) == TextSku(lib, text)
  {
    LowerIdempotent(text);
  }

  /** The text patterns are tried in list order: the first that matches decides. */
  lemma TextPatternOrder(lib: Lib, text: string, i: nat)
    requires i < |SKU_PATTERNS| && lib.reSearch(SKU_PATTERNS[i], Lower(text), IGNORECASE).Some?
    requires forall j :: 0 <= j < i ==> lib.reSearch(SKU_PATTERNS[j], Lower(text), IGNORECASE).None?
    ensures TextMatch(lib, text) == lib.reSearch(SKU_PATTERNS[i], Lower(text), IGNORECASE)
  {
    FirstSomeAt(SKU_PATTERNS, (p: string) => lib.reSearch(p, Lower(text), IGNORECASE), i);
  }
}
