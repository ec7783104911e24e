/**
 * A fetched page as the extractors see it once the HTML parser has run:
 * the HTML string itself (only its emptiness is looked at directly), the
 * extracted text and the parsed elements the extractors query.
 */
module PageSignals {
  import opened Values

  /** One `<script type="application/ld+json">` element. */
  datatype LdScript =
    | LdJson(value: Json)   // its text decoded
    | LdMalformed           // its text is not JSON (`JSONDecodeError`)
    | LdNoText              // it has no single text child (`script.string` is None)

  /** One `<a href=...>` element: the href as written, its classes, its stripped text. */
  datatype Anchor = Anchor(href: string, classes: seq<string>, text: string)

  /** One `<form>` element; absent attributes are "". */
  datatype Form = Form(action: string, id: string, classes: seq<string>)

  /** One `<meta property=... content=...>` element. */
  datatype Meta = Meta(property: string, content: Option<string>)

  datatype Page = Page(
    html: string,
    /** The page text the agent extracted (`extract_text`). */
    text: string,
    /** `soup.get_text()`: all text nodes, concatenated. */
    rawText: string,
    ldScripts: seq<LdScript>,
    /** The number of elements whose `itemtype` matches `.*Product` (case-insensitive). */
    microdataProducts: nat,
    /**
     * For the first such element, if there is one: the stripped text of its
     * first `itemprop="sku"` descendant, if there is one.
     */
    microdataSku: Option<Option<string>>,
    anchors: seq<Anchor>,
    forms: seq<Form>,
    /** Some `<form>` or `<div>` has a class matching `(captcha|verify|block|access|gate|challenge)`, any case. */
    blockingElement: bool,
    /** Some `<meta http-equiv>` matches `refresh`, any case. */
    metaRefresh: bool,
    /** The number of `<script>` elements. */
    scriptCount: nat,
    metas: seq<Meta>,
    /** The stripped text of the first `<title>`, if there is one. */
    titleTag: Option<string>
  )

  /** `soup.find("meta", property=p)`: the first meta with that property. */
  function FindMeta(metas: seq<Meta>, property: string): (r: Option<Meta>)
    ensures r.Some? ==> r.value in metas && r.value.property == property
    ensures r.None? ==> forall m :: m in metas ==> m.property != property
  {
    if |metas| == 0 then None
    else if metas[0].property == property then Some(metas[0])
    else FindMeta(metas[1..], property)
  }

  /** `meta.get("content")` of the first meta with that property, when both exist. */
  function MetaContent(metas: seq<Meta>, property: string): Option<string>
  {
    var m := FindMeta(metas, property);
    if m.Some? then m.value.content else None
  }
}
