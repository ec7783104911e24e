/**
 * `extract_reference_attributes`: what the agent learns about the
 * reference product before searching for similar ones: its title,
 * material, stones, brand, collection keywords and price.  The `result`
 * dict is filled field by field; a title that is not a string makes
 * `.lower()` raise, and the dict is returned as it stands at that point.
 */
module ReferenceExtract {
  import opened Strings
  import opened Values
  import opened Foreign
  import opened PageSignals

  datatype Attributes = Attributes(
    title: Json,
    material: Option<string>,
    stones: Option<string>,
    brand: Json,
    collectionKeywords: seq<string>,
    priceRange: Option<string>
  )

  const DEFAULT: Attributes := Attributes(JNull, None, None, JNull, [], None)

  predicate IsProductDict(j: Json)
  {
    j.JObj? && j.FieldIs("@type", "Product")
  }

  // ---------------------------------------------------------------------------
  // JSON-LD: title, brand and price

  /** What the JSON-LD loop has gathered so far. */
  datatype LdState = LdState(title: Json, brand: Json, price: Option<string>)

  /** `d.get("name") or d.get("title")`. */
  function TitleOf(d: Json): Json
    requires d.JObj?
  {
    JOr(d.Get("name"), d.Get("title"))
  }

  /** The title a list contributes: that of its first Product item. */
  function ListTitle(items: seq<Json>): Option<Json>
  {
    FirstSome(items, (j: Json) => if IsProductDict(j) then Some(TitleOf(j)) else None)
  }

  /** A Product dict overwrites the title, and the brand and price when it has them. */
  function ProductStep(lib: Lib, st: LdState, d: Json): (r: LdState)
    requires d.JObj?
    ensures r.title == TitleOf(d)
    ensures !d.Has("brand") ==> r.brand == st.brand
    ensures r.price != st.price ==> d.Has("offers") && d.Get("offers").JObj? && d.Get("offers").Get("price").Truthy()
  {
    var brand :=
      if d.Has("brand") then
        var b := d.Get("brand");
        if b.JObj? then b.Get("name") else if b.JStr? then b else st.brand
      else st.brand;
    var price :=
      if d.Has("offers") && d.Get("offers").JObj? && d.Get("offers").Get("price").Truthy()
      then Some(PyStr(lib, d.Get("offers").Get("price")))
      else st.price;
    LdState(TitleOf(d), brand, price)
  }

  function ScriptStep(lib: Lib, st: LdState, s: LdScript): LdState
  {
    if !s.LdJson? then st
    else match s.value
      case JObj(_) => if IsProductDict(s.value) then ProductStep(lib, st, s.value) else st
      case JArr(items) =>
        var t := ListTitle(items);
        if t.Some? then st.(title := t.value) else st
      case _ => st
  }

  /** The JSON-LD loop: every script in document order, none stopping it. */
  function LdFold(lib: Lib, scripts: seq<LdScript>): LdState
  {
    if |scripts| == 0 then LdState(JNull, JNull, None)
    else ScriptStep(lib, LdFold(lib, scripts[..|scripts| - 1]), scripts[|scripts| - 1])
  }

  method LdAttributes(lib: Lib, scripts: seq<LdScript>) returns (st: LdState)
    ensures st == LdFold(lib, scripts)
  {
    st := LdState(JNull, JNull, None);
    var i := 0;
    while i < |scripts|
      invariant 0 <= i <= |scripts|
      invariant st == LdFold(lib, scripts[..i])
    {
      assert scripts[..i + 1][..i] == scripts[..i];
      var script := scripts[i];
      if script.LdJson? {
        var data := script.value;
        if data.JObj? {
          if IsProductDict(data) {
            st := ProductStep(lib, st, data);
          }
        } else if data.JArr? {
          var j := 0;
          while j < |data.items|
            invariant 0 <= j <= |data.items|
            invariant forall k :: 0 <= k < j ==> !IsProductDict(data.items[k])
          {
            if IsProductDict(data.items[j]) {
              FirstSomeAt(data.items, (x: Json) => if IsProductDict(x) then Some(TitleOf(x)) else None, j);
              st := st.(title := TitleOf(data.items[j]));
              break;
            }
            j := j + 1;
          }
        }
      }
      i := i + 1;
    }
    assert scripts[..|scripts|] == scripts;
  }

  // ---------------------------------------------------------------------------
  // Text keywords

  const MATERIALS: seq<string> := ["gold", "silver", "platinum", "steel", "titanium", "brass", "bronze"]

  const STONES: seq<string> := ["diamond", "ruby", "sapphire", "emerald", "pearl", "amber", "topaz", "amethyst"]

  function MaterialOf(textLower: string): Option<string>
  {
    FirstSome(MATERIALS, (k: string) => if Contains(textLower, k) then Some(k) else None)
  }

  /** The keywords of `keys` that occur in the text, in list order. */
  function Occurring(keys: seq<string>, textLower: string): (r: seq<string>)
    ensures |r| <= |keys|
  {
    if |keys| == 0 then []
    else Occurring(keys[..|keys| - 1], textLower)
         + (if Contains(textLower, keys[|keys| - 1]) then [keys[|keys| - 1]] else [])
  }

  function StonesOf(textLower: string): (r: Option<string>)
    ensures r.None? <==> Occurring(STONES, textLower) == []
  {
    var found := Occurring(STONES, textLower);
    if found != [] then Some(Join(found, ", ")) else None
  }

  /** The length of the run of word characters `s` starts with. */
  function RunLength(lib: Lib, s: string): (n: nat)
    ensures n <= |s|
    ensures forall i :: 0 <= i < n ==> IsWordChar(lib, s[i])
    ensures n < |s| ==> !IsWordChar(lib, s[n])
  {
    if s == [] || !IsWordChar(lib, s[0]) then 0 else 1 + RunLength(lib, s[1..])
  }

  /** `re.findall(r'\b\w{4,}\b', s)`: the maximal word runs of length four or more. */
  function Words(lib: Lib, s: string): (r: seq<string>)
    decreases |s|
  {
    if s == [] then []
    else if !IsWordChar(lib, s[0]) then Words(lib, s[1..])
    else
      var n := RunLength(lib, s);
      (if n >= 4 then [s[..n]] else []) + Words(lib, s[n..])
  }

  const STOP_WORDS: set<string> := {"product", "item", "buy", "shop", "store", "price", "sale"}

  function WithoutStopWords(ws: seq<string>): (r: seq<string>)
    ensures forall w :: w in r ==> w in ws && w !in STOP_WORDS
  {
    if |ws| == 0 then []
    else (if ws[0] in STOP_WORDS then [] else [ws[0]]) + WithoutStopWords(ws[1..])
  }

  function CollectionKeywords(lib: Lib, title: string): seq<string>
  {
    SliceTo(WithoutStopWords(Words(lib, Lower(title))), 5)
  }

  const PRICE_PATTERNS: seq<string> := [
    "[\\d,]+\\.?\\d*\\s*(usd|eur|bgn|uah|rub|\U{20B4}|\U{20AC}|\\$|\U{A3})",
    "price[:\\s]+[\\d,]+\\.?\\d*",
    "[\\d,]+\\.?\\d*\\s*(\U{0433}\U{0440}\U{043D}|\U{0440}\U{0443}\U{0431})"
  ]

  function TextPrice(lib: Lib, textLower: string): Option<string>
  {
    var m := FirstSome(PRICE_PATTERNS, (p: string) => lib.reSearch(p, textLower, NOFLAG));
    if m.Some? then Some(m.value.whole) else None
  }

  // ---------------------------------------------------------------------------
  // The whole extraction

  /** `meta.get("content", "").strip()` of a meta tag that exists. */
  function MetaText(m: Meta): string
  {
    Strip(OrEmpty(m.content))
  }

  function TitleFallback(st: LdState, page: Page): (t: Json)
    ensures st.title.Truthy() ==> t == st.title
  {
    var og := FindMeta(page.metas, "og:title");
    var t1 := if !st.title.Truthy() && og.Some? then JStr(MetaText(og.value)) else st.title;
    if !t1.Truthy() && page.titleTag.Some? then JStr(page.titleTag.value) else t1
  }

  function BrandFallback(st: LdState, page: Page): Json
  {
    var m := FindMeta(page.metas, "product:brand");
    if !st.brand.Truthy() && m.Some? then JStr(MetaText(m.value)) else st.brand
  }

  function ReferenceOf(lib: Lib, page: Page, text: string): Attributes
  {
    if page.html == "" then DEFAULT
    else
      var st := LdFold(lib, page.ldScripts);
      var title := TitleFallback(st, page);
      var textLower := Lower(text);
      var brand := BrandFallback(st, page);
      var partial := Attributes(title, MaterialOf(textLower), StonesOf(textLower), brand, [], st.price);
      if title.Truthy() && !title.JStr? then partial
      else
        var keywords := if title.Truthy() then CollectionKeywords(lib, title.s) else [];
        var price := if st.price.None? || st.price.value == "" then TextPrice(lib, textLower) else st.price;
        partial.(collectionKeywords := keywords, priceRange := price)
  }

  /** The material loop: the first keyword found, then `break`. */
  method FindMaterial(textLower: string) returns (material: Option<string>)
    ensures material == MaterialOf(textLower)
  {
    material := None;
    var i := 0;
    while i < |MATERIALS|
      invariant 0 <= i <= |MATERIALS|
      invariant forall j :: 0 <= j < i ==> !Contains(textLower, MATERIALS[j])
    {
      if Contains(textLower, MATERIALS[i]) {
        FirstSomeAt(MATERIALS, (k: string) => if Contains(textLower, k) then Some(k) else None, i);
        return Some(MATERIALS[i]);
      }
      i := i + 1;
    }
  }

  /** The stone loop: every keyword found, appended to `found_stones`. */
  method FindStones(textLower: string) returns (stones: Option<string>)
    ensures stones == StonesOf(textLower)
  {
    var found: seq<string> := [];
    var k := 0;
    while k < |STONES|
      invariant 0 <= k <= |STONES|
      invariant found == Occurring(STONES[..k], textLower)
    {
      assert STONES[..k + 1][..k] == STONES[..k];
      if Contains(textLower, STONES[k]) {
        found := found + [STONES[k]];
      }
      k := k + 1;
    }
    assert STONES[..|STONES|] == STONES;
    stones := if found != [] then Some(Join(found, ", ")) else None;
  }

  /** `extract_reference_attributes(html, text, url)`. */
  method ExtractReferenceAttributes(lib: Lib, page: Page, text: string) returns (r: Attributes)
    ensures r == ReferenceOf(lib, page, text)
  {
    r := DEFAULT;
    if page.html == "" {
      return;
    }
    var st := LdAttributes(lib, page.ldScripts);
    r := r.(title := TitleFallback(st, page));
    var textLower := Lower(text);
    var material := FindMaterial(textLower);
    r := r.(material := material);
    var stones := FindStones(textLower);
    r := r.(stones := stones);
    r := r.(brand := BrandFallback(st, page), priceRange := st.price);
    if r.title.Truthy() {
      if !r.title.JStr? {
        return;
      }
      r := r.(collectionKeywords := CollectionKeywords(lib, r.title.s));
    }
    if r.priceRange.None? || r.priceRange.value == "" {
      r := r.(priceRange := TextPrice(lib, textLower));
    }
  }

  // ---------------------------------------------------------------------------
  // Lemmas

  /** A later Product dict overwrites the title of an earlier one. */
  lemma {:induction false} LastProductTitleWins(lib: Lib, scripts: seq<LdScript>, i: nat)
    requires i < |scripts| && scripts[i].LdJson? && IsProductDict(scripts[i].value)
    requires forall j :: i < j < |scripts| ==> !scripts[j].LdJson? || !(scripts[j].value.JObj? || scripts[j].value.JArr?)
    ensures LdFold(lib, scripts).title == TitleOf(scripts[i].value)
    decreases |scripts|
  {
    if i < |scripts| - 1 {
      var init := scripts[..|scripts| - 1];
      LastProductTitleWins(lib, init, i);
    }
  }

  /** In a list only its first Product item is read. */
  lemma ListStopsAtFirstProduct(items: seq<Json>, i: nat)
    requires i < |items| && IsProductDict(items[i])
    requires forall j :: 0 <= j < i ==> !IsProductDict(items[j])
    ensures ListTitle(items) == Some(TitleOf(items[i]))
  {
    FirstSomeAt(items, (j: Json) => if IsProductDict(j) then Some(TitleOf(j)) else None, i);
  }

  /** The title comes from JSON-LD, else og:title, else `<title>`. */
  lemma TitleOrder(st: LdState, page: Page)
    ensures st.title.Truthy() ==> TitleFallback(st, page) == st.title
    ensures !st.title.Truthy() && FindMeta(page.metas, "og:title").Some?
            && MetaText(FindMeta(page.metas, "og:title").value) != ""
            ==> TitleFallback(st, page) == JStr(MetaText(FindMeta(page.metas, "og:title").value))
    ensures !st.title.Truthy() && (FindMeta(page.metas, "og:title").None? || MetaText(FindMeta(page.metas, "og:title").value) == "")
            && page.titleTag.Some?
            ==> TitleFallback(st, page) == JStr(page.titleTag.value)
  {
  }

  /** The material is the first keyword of the fixed list that the text contains. */
  lemma MaterialIsFirstInList(textLower: string, i: nat)
    requires i < |MATERIALS| && Contains(textLower, MATERIALS[i])
    requires forall j :: 0 <= j < i ==> !Contains(textLower, MATERIALS[j])
    ensures MaterialOf(textLower) == Some(MATERIALS[i])
  {
    FirstSomeAt(MATERIALS, (k: string) => if Contains(textLower, k) then Some(k) else None, i);
  }

  /** Exactly the occurring keywords are kept (in list order, by construction). */
  lemma {:induction false} OccurringExactly(keys: seq<string>, textLower: string)
    ensures forall k :: k in Occurring(keys, textLower) <==> k in keys && Contains(textLower, k)
    decreases |keys|
  {
    if |keys| > 0 {
      var init := keys[..|keys| - 1];
      OccurringExactly(init, textLower);
      assert keys == init + [keys[|keys| - 1]];
    }
  }

  /** Each collection keyword is a run of four or more word characters and no stop word; at most five. */
  lemma KeywordsShape(lib: Lib, title: string)
    ensures |CollectionKeywords(lib, title)| <= 5
    ensures forall w :: w in CollectionKeywords(lib, title) ==>
      w in Words(lib, Lower(title)) && w !in STOP_WORDS && |w| >= 4 && forall i :: 0 <= i < |w| ==> IsWordChar(lib, w[i])
  {
    var all := WithoutStopWords(Words(lib, Lower(title)));
    forall w | w in CollectionKeywords(lib, title)
      ensures w in Words(lib, Lower(title)) && w !in STOP_WORDS && |w| >= 4 && forall i :: 0 <= i < |w| ==> IsWordChar(lib, w[i])
    {
      assert w in all;
      WordsShape(lib, Lower(title), w);
    }
  }

  lemma {:induction false} WordsShape(lib: Lib, s: string, w: string)
    requires w in Words(lib, s)
    ensures |w| >= 4 && forall i :: 0 <= i < |w| ==> IsWordChar(lib, w[i])
    decreases |s|
  {
    if s != [] {
      if !IsWordChar(lib, s[0]) {
        WordsShape(lib, s[1..], w);
      } else {
        var n := RunLength(lib, s);
        if !(n >= 4 && w == s[..n]) {
          WordsShape(lib, s[n..], w);
        }
      }
    }
  }

  /** A JSON-LD price makes the text price patterns irrelevant. */
  lemma JsonLdPriceWins(lib: Lib, page: Page, text: string)
    requires page.html != ""
    requires var st := LdFold(lib, page.ldScripts); st.price.Some? && st.price.value != ""
    ensures ReferenceOf(lib, page, text).priceRange == LdFold(lib, page.ldScripts).price
  {
  }

  /** Empty HTML gives the default attributes. */
  lemma EmptyHtmlDefault(lib: Lib, page: Page, text: string)
    requires page.html == ""
    ensures ReferenceOf(lib, page, text) == Attributes(JNull, None, None, JNull, [], None)
  {
  }
}
