/**
 * `extract_product_data`: title, price, currency, SKU and availability of
 * a product page without an LLM.  A five-field record is filled in step
 * by step (JSON-LD Product data, then meta tags, then price patterns in the
 * page text) and its `None` fields are dropped at the end.
 */
module ProductExtract {
  import opened Strings
  import opened Values
  import opened Foreign
  import opened PageSignals

  /** The `result` dict; `JNull` is `None`. */
  datatype Fields = Fields(title: Json, price: Json, currency: Json, sku: Json, availability: Json)

  const ALL_NONE: Fields := Fields(JNull, JNull, JNull, JNull, JNull)

  const KEYS: seq<string> := ["title", "price", "currency", "sku", "availability"]

  /** The dict in its key order. */
  function AsDict(f: Fields): (d: seq<(string, Json)>)
    ensures |d| == 5 && forall i :: 0 <= i < 5 ==> d[i].0 == KEYS[i]
  {
    [("title", f.title), ("price", f.price), ("currency", f.currency), ("sku", f.sku), ("availability", f.availability)]
  }

  /** `{k: v for k, v in result.items() if v is not None}`. */
  function DropNone(d: seq<(string, Json)>): (r: seq<(string, Json)>)
    ensures forall i :: 0 <= i < |r| ==> r[i].1 != JNull && r[i] in d
    ensures forall p :: p in d && p.1 != JNull ==> p in r
  {
    if |d| == 0 then []
    else if d[0].1 == JNull then DropNone(d[1..])
    else [d[0]] + DropNone(d[1..])
  }

  /**
   * Every field is either unset or truthy (as `x or None` always leaves it);
   * the price may also be the text a price pattern matched.
   */
  predicate Settled(f: Fields)
  {
    (f.title == JNull || f.title.Truthy()) && (f.price == JNull || f.price.JStr?)
    && (f.currency == JNull || f.currency.Truthy()) && (f.sku == JNull || f.sku.Truthy())
    && (f.availability == JNull || f.availability.Truthy())
  }

  predicate IsProductDict(j: Json)
  {
    j.JObj? && j.FieldIs("@type", "Product")
  }

  /** What the script loop stops at: a script without text raises out of the function. */
  datatype Stop = RaisesTypeError | UseProduct(data: Json)

  function StopAt(s: LdScript): Option<Stop>
  {
    if s.LdNoText? then Some(RaisesTypeError)
    else if s.LdJson? && IsProductDict(s.value) then Some(UseProduct(s.value))
    else None
  }

  /** `str(offers.get("price", ""))`. */
  function OfferPrice(lib: Lib, offers: Json): string
    requires offers.JObj?
  {
    if offers.Has("price") then PyStr(lib, offers.Get("price")) else ""
  }

  /** The fields one JSON-LD Product dict fills in. */
  function FromProduct(lib: Lib, data: Json, f: Fields): (g: Fields)
    requires data.JObj?
    ensures Settled(f) ==> Settled(g)
    ensures g.title == JOr(data.Get("name"), f.title) && g.sku == JOr(data.Get("sku"), f.sku)
    ensures !(data.Has("offers") && data.Get("offers").JObj?) ==>
      g.price == f.price && g.currency == f.currency && g.availability == f.availability
  {
    var title := JOr(data.Get("name"), f.title);
    var g1 := f.(title := title);
    var g2 :=
      if data.Has("offers") && data.Get("offers").JObj? then
        var offers := data.Get("offers");
        var price := OfferPrice(lib, offers);
        g1.(price := if price != "" then JStr(price) else g1.price,
            currency := JOr(offers.Get("priceCurrency"), g1.currency),
            availability := JOr(offers.Get("availability"), g1.availability))
      else g1;
    g2.(sku := JOr(data.Get("sku"), g2.sku))
  }

  /** A meta tag's content, when the tag exists and the content is non-empty. */
  function MetaValue(metas: seq<Meta>, property: string): Option<string>
  {
    var c := MetaContent(metas, property);
    if c.Some? && c.value != "" then c else None
  }

  /** The og:title and price meta fallbacks. */
  function WithMeta(f: Fields, metas: seq<Meta>): (g: Fields)
    ensures Settled(f) ==> Settled(g)
    ensures f.title.Truthy() ==> g.title == f.title
    ensures g.sku == f.sku && g.availability == f.availability
    ensures g.currency != f.currency ==> !f.price.Truthy() && MetaValue(metas, "product:price:amount").Some?
    ensures f.price.Truthy() ==> g.price == f.price && g.currency == f.currency
  {
    var ogTitle := MetaValue(metas, "og:title");
    var g1 := if !f.title.Truthy() && ogTitle.Some? then f.(title := JStr(ogTitle.value)) else f;
    if !g1.price.Truthy() then
      var amount := MetaValue(metas, "product:price:amount");
      if amount.Some? then
        var cur := MetaValue(metas, "product:price:currency");
        var g2 := g1.(price := JStr(amount.value));
        if cur.Some? then g2.(currency := JStr(cur.value)) else g2
      else g1
    else g1
  }

  const PRICE_PATTERNS: seq<string> := [
    "\\$[\\d,]+\\.?\\d*",
    "[\\d,]+\\.?\\d*\\s*(USD|EUR|GBP)",
    "price[:\\s]+[\\d,]+\\.?\\d*"
  ]

  /** The first price pattern, in order, that matches the page's raw text. */
  function TextPrice(lib: Lib, rawText: string): Option<ReMatch>
  {
    FirstSome(PRICE_PATTERNS, (p: string) => lib.reSearch(p, rawText, IGNORECASE))
  }

  function WithTextPrice(lib: Lib, f: Fields, rawText: string): (g: Fields)
    ensures f.price.Truthy() ==> g == f
    ensures !f.price.Truthy() && TextPrice(lib, rawText).Some? ==> g == f.(price := JStr(TextPrice(lib, rawText).value.whole))
    ensures TextPrice(lib, rawText).None? ==> g == f
  {
    var m := TextPrice(lib, rawText);
    if !f.price.Truthy() && m.Some? then f.(price := JStr(m.value.whole)) else f
  }

  /** The record after every step, or where the exception left it. */
  function FieldsOf(lib: Lib, page: Page): (Fields, bool)
  {
    if page.html == "" then (ALL_NONE, false)
    else
      var stop := FirstSome(page.ldScripts, StopAt);
      if stop == Some(RaisesTypeError) then (ALL_NONE, false)
      else
        var f1 := if stop.Some? && stop.value.data.JObj? then FromProduct(lib, stop.value.data, ALL_NONE) else ALL_NONE;
        (WithTextPrice(lib, WithMeta(f1, page.metas), page.rawText), true)
  }

  /** The returned dict: the full record on the early and the exceptional path, cleaned otherwise. */
  function ProductDataOf(lib: Lib, page: Page): seq<(string, Json)>
  {
    var (f, cleaned) := FieldsOf(lib, page);
    if cleaned then DropNone(AsDict(f)) else AsDict(f)
  }

  /** `extract_product_data(html)`. */
  method ExtractProductData(lib: Lib, page: Page) returns (r: seq<(string, Json)>)
    ensures r == ProductDataOf(lib, page)
  {
    var result := ALL_NONE;
    if page.html == "" {
      return AsDict(result);
    }
    var i := 0;
    while i < |page.ldScripts|
      invariant 0 <= i <= |page.ldScripts|
      invariant result == ALL_NONE
      invariant forall j :: 0 <= j < i ==> StopAt(page.ldScripts[j]).None?
    {
      var script := page.ldScripts[i];
      if script.LdNoText? {
        FirstSomeAt(page.ldScripts, StopAt, i);
        return AsDict(result);
      }
      if script.LdJson? && IsProductDict(script.value) {
        FirstSomeAt(page.ldScripts, StopAt, i);
        result := FromProduct(lib, script.value, result);
        break;
      }
      i := i + 1;
    }
    result := WithMeta(result, page.metas);
    result := WithTextPrice(lib, result, page.rawText);
    r := DropNone(AsDict(result));
  }

  // ---------------------------------------------------------------------------
  // Lemmas

  /** Empty HTML returns every key, each set to None: the cleanup is skipped. */
  lemma EmptyHtmlAllKeys(lib: Lib, page: Page)
    requires page.html == ""
    ensures ProductDataOf(lib, page) ==
      [("title", JNull), ("price", JNull), ("currency", JNull), ("sku", JNull), ("availability", JNull)]
  {
  }

  /**
   * On the normal path no value is None, every key is one of the five, and
   * every value except a price is truthy (a price is a string).
   */
  lemma NormalPathClean(lib: Lib, page: Page)
    requires FieldsOf(lib, page).1
    ensures var r := ProductDataOf(lib, page);
      forall i :: 0 <= i < |r| ==>
        r[i].1 != JNull && r[i].0 in KEYS && (if r[i].0 == "price" then r[i].1.JStr? else r[i].1.Truthy())
  {
    var f := FieldsOf(lib, page).0;
    assert ProductDataOf(lib, page) == DropNone(AsDict(f));
    FieldsSettled(lib, page);
    SettledClean(f);
  }

  /** The fields of the normal path are settled. */
  lemma FieldsSettled(lib: Lib, page: Page)
    requires FieldsOf(lib, page).1
    ensures Settled(FieldsOf(lib, page).0)
  {
  }

  /** Dropping the unset ones from settled fields leaves known keys with set values. */
  lemma SettledClean(f: Fields)
    requires Settled(f)
    ensures var r := DropNone(AsDict(f));
      forall i :: 0 <= i < |r| ==>
        r[i].1 != JNull && r[i].0 in KEYS && (if r[i].0 == "price" then r[i].1.JStr? else r[i].1.Truthy())
  {
    var d := AsDict(f);
    forall i | 0 <= i < |DropNone(d)|
      ensures DropNone(d)[i].0 in KEYS
      ensures if DropNone(d)[i].0 == "price" then DropNone(d)[i].1.JStr? else DropNone(d)[i].1.Truthy()
    {
      assert DropNone(d)[i] in d;
    }
  }

  /** Only the first Product dict is read: the scripts after it do not matter. */
  lemma OnlyFirstProductUsed(lib: Lib, page: Page, i: nat)
    requires i < |page.ldScripts| && page.ldScripts[i].LdJson? && IsProductDict(page.ldScripts[i].value)
    requires forall j :: 0 <= j < i ==> StopAt(page.ldScripts[j]).None?
    ensures ProductDataOf(lib, page) == ProductDataOf(lib, page.(ldScripts := [page.ldScripts[i]]))
  {
    FirstSomeAt(page.ldScripts, StopAt, i);
    FirstSomeAt([page.ldScripts[i]], StopAt, 0);
  }

  /** og:title is consulted only when the JSON-LD step left no title. */
  lemma OgTitleOnlyWithoutTitle(lib: Lib, page: Page, data: Json)
    requires page.html != "" && FirstSome(page.ldScripts, StopAt) == Some(UseProduct(data)) && data.JObj?
    requires data.Get("name").Truthy()
    ensures FieldsOf(lib, page).0.title == data.Get("name")
  {
  }

  /** A currency meta tag is taken only together with a price meta tag, when no price was known. */
  lemma MetaCurrencyNeedsMetaPrice(f: Fields, metas: seq<Meta>)
    requires WithMeta(f, metas).currency != f.currency
    ensures !f.price.Truthy() && MetaValue(metas, "product:price:amount").Some?
    ensures WithMeta(f, metas).price == JStr(MetaValue(metas, "product:price:amount").value)
  {
  }

  /** The text price patterns run in order, and only when no price was found before. */
  lemma TextPriceOrder(lib: Lib, f: Fields, rawText: string, i: nat)
    requires !f.price.Truthy() && i < |PRICE_PATTERNS|
    requires lib.reSearch(PRICE_PATTERNS[i], rawText, IGNORECASE).Some?
    requires forall j :: 0 <= j < i ==> lib.reSearch(PRICE_PATTERNS[j], rawText, IGNORECASE).None?
    ensures WithTextPrice(lib, f, rawText).price == JStr(lib.reSearch(PRICE_PATTERNS[i], rawText, IGNORECASE).value.whole)
  {
    FirstSomeAt(PRICE_PATTERNS, (p: string) => lib.reSearch(p, rawText, IGNORECASE), i);
  }
}
