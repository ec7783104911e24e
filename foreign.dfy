/**
 * The library code the agent calls but does not define: `urllib.parse`,
 * the `re` engine, `json`, `hashlib.md5` and the HTML-to-text libraries.
 *
 * Each is a field of `Lib` holding a total function value, so the model is
 * parametric in what those libraries compute and every property proved
 * holds whatever they return.
 */
module Foreign {
  import opened Values
  import opened Strings

  /** The six components `urlparse` splits a URL into (section 3 of RFC 3986). */
  datatype Url = Url(scheme: string, netloc: string, path: string, params: string, query: string, fragment: string)

  /** A successful `re.search`: `group(0)` and the numbered groups from 1 on. */
  datatype ReMatch = ReMatch(whole: string, groups: seq<string>)

  /** The `re.IGNORECASE` and `re.DOTALL` bits of a flags argument. */
  datatype ReFlags = ReFlags(ignoreCase: bool, dotAll: bool)

  const NOFLAG := ReFlags(false, false)
  const IGNORECASE := ReFlags(true, false)
  const DOTALL_IGNORECASE := ReFlags(true, true)

  datatype Lib = Lib(
    urlparse: string -> Url,
    /**
     * The `ValueError` text when `urlparse(u)` raises (an unbalanced `[` or
     * `]` in the netloc, say), else None. Where it is Some, `urlparse(u)`
     * above is not a value the code ever sees.
     */
    urlparseError: string -> Option<string>,
    urlunparse: Url -> string,
    urljoin: (string, string) -> string,
    /** `parse_qs(q, keep_blank_values=True)` before grouping: the decoded pairs in order. */
    parseQsl: string -> seq<(string, string)>,
    /** `urlencode` of a sequence of pairs (equal to `urlencode(d, doseq=True)` on the grouped dict). */
    urlencode: seq<(string, string)> -> string,
    /** `re.search(pattern, text, flags)`. */
    reSearch: (string, string, ReFlags) -> Option<ReMatch>,
    /** `re.findall(pattern, text)` for a pattern without groups. */
    reFindAll: (string, string) -> seq<string>,
    md5Hex: string -> string,
    jsonDumps: Json -> string,
    /** `json.loads(s)`; None is a `JSONDecodeError`. */
    jsonLoads: string -> Option<Json>,
    /** Python's `int(x)` of a decoded value that is not an int or a bool; None is the error it raises. */
    pyInt: Json -> Option<int>,
    /** Python's `str()` of a list or dict. */
    containerRepr: Json -> string,
    /** `trafilatura.extract(html, ...)`; `None` when it finds no main text. */
    trafilatura: string -> Option<string>,
    /** `BeautifulSoup(html).get_text(" ", strip=True)`. */
    soupText: string -> string,
    /**
     * Whether `\w` of a `str` pattern matches a character above U+007F: the
     * letters and digits of the Unicode database.
     */
    unicodeWordChar: char -> bool,
    /** Whether `\d` of a `str` pattern matches a character above U+007F: a Unicode decimal digit. */
    unicodeDecimal: char -> bool
  )

  /** Python's `str(x)` for a decoded JSON value. */
  function PyStr(lib: Lib, j: Json): string
  {
    match j
    case JNull => "None"
    case JBool(b) => if b then "True" else "False"
    case JInt(i) => IntToString(i)
    case JFloat(r, _) => r
    case JStr(s) => s
    case JArr(_) => lib.containerRepr(j)
    case JObj(_) => lib.containerRepr(j)
  }

  /** Whether `re.search(pattern, text)` finds a match. */
  predicate Matches(lib: Lib, pattern: string, text: string)
  {
    lib.reSearch(pattern, text, NOFLAG).Some?
  }

  /** Python's `\w`: an ASCII letter, digit or `_`, or a Unicode word character above U+007F. */
  predicate IsWordChar(lib: Lib, c: char)
  {
    if c <= '\U{007F}' then 'a' <= c <= 'z' || 'A' <= c <= 'Z' || '0' <= c <= '9' || c == '_'
    else lib.unicodeWordChar(c)
  }

  /** Python's `\d`: an ASCII digit or a Unicode decimal digit above U+007F. */
  predicate IsDecimal(lib: Lib, c: char)
  {
    if c <= '\U{007F}' then '0' <= c <= '9' else lib.unicodeDecimal(c)
  }

  /** Python's `urlparse(u).scheme in ("http", "https")`. */
  predicate IsHttp(u: Url)
  {
    u.scheme == "http" || u.scheme == "https"
  }
}
