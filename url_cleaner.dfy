/**
 * `clean_url`: drop the fragment (section 3.5 of RFC 3986) and the
 * tracking keys of an `application/x-www-form-urlencoded` query, keeping
 * every other component of the URL as it was parsed.
 */
module UrlCleaner {
  import opened Strings
  import opened Foreign

  const TRACKING_PARAMS: set<string> := {
    "utm_source", "utm_medium", "utm_campaign", "utm_term", "utm_content",
    "gclid", "fbclid", "msclkid", "twclid", "li_fat_id",
    "_ga", "_gid", "ref", "source", "affiliate_id"
  }

  predicate IsTracking(key: string)
  {
    var k := Lower(key);
    k in TRACKING_PARAMS || StartsWith(k, "utm_") || StartsWith(k, "_ga")
    || k in {"gclid", "fbclid", "msclkid", "twclid"}
  }

  /** One key of the dict `parse_qs` builds, with all its values in order. */
  datatype Param = Param(key: string, values: seq<string>)

  predicate HasKey(ps: seq<Param>, key: string)
  {
    exists i :: 0 <= i < |ps| && ps[i].key == key
  }

  /** Adds one decoded pair to the dict: append to an existing key, else insert at the end. */
  function AddPair(ps: seq<Param>, key: string, value: string): (r: seq<Param>)
    ensures |r| == |ps| || |r| == |ps| + 1
    ensures forall i :: 0 <= i < |ps| ==> r[i].key == ps[i].key
    ensures |r| == |ps| + 1 ==> r[|ps|].key == key && forall i :: 0 <= i < |ps| ==> ps[i].key != key
  {
    if |ps| == 0 then [Param(key, [value])]
    else if ps[0].key == key then [Param(key, ps[0].values + [value])] + ps[1..]
    else [ps[0]] + AddPair(ps[1..], key, value)
  }

  predicate KeysDistinct(ps: seq<Param>)
  {
    forall i, j :: 0 <= i < j < |ps| ==> ps[i].key != ps[j].key
  }

  /** `parse_qs`: groups the decoded pairs by key, keys in first-seen order. */
  function Group(pairs: seq<(string, string)>): (r: seq<Param>)
    ensures KeysDistinct(r)
  {
    if |pairs| == 0 then []
    else
      var g := Group(pairs[..|pairs| - 1]);
      AddPairDistinct(g, pairs[|pairs| - 1].0, pairs[|pairs| - 1].1);
      AddPair(g, pairs[|pairs| - 1].0, pairs[|pairs| - 1].1)
  }

  /** Adding a pair keeps the keys distinct. */
  lemma AddPairDistinct(ps: seq<Param>, key: string, value: string)
    requires KeysDistinct(ps)
    ensures KeysDistinct(AddPair(ps, key, value))
  {
    var r := AddPair(ps, key, value);
    forall i, j | 0 <= i < j < |r| ensures r[i].key != r[j].key {
      if j < |ps| {
        assert r[i].key == ps[i].key && r[j].key == ps[j].key;
      }
    }
  }

  /** The loop that keeps the non-tracking keys, in order. */
  function KeepNonTracking(ps: seq<Param>): seq<Param>
  {
    if |ps| == 0 then []
    else if IsTracking(ps[0].key) then KeepNonTracking(ps[1..])
    else [ps[0]] + KeepNonTracking(ps[1..])
  }

  /** `urlencode(..., doseq=True)` lists each value of a key as its own pair. */
  function Flatten(ps: seq<Param>): seq<(string, string)>
  {
    if |ps| == 0 then []
    else Pairs(ps[0].key, ps[0].values) + Flatten(ps[1..])
  }

  function Pairs(key: string, values: seq<string>): (r: seq<(string, string)>)
    ensures |r| == |values|
    ensures forall i :: 0 <= i < |r| ==> r[i] == (key, values[i])
  {
    seq(|values|, i requires 0 <= i < |values| => (key, values[i]))
  }

  /** The values a pair sequence holds for one key, in order. */
  function ValuesOf(pairs: seq<(string, string)>, key: string): seq<string>
  {
    if |pairs| == 0 then []
    else (if pairs[0].0 == key then [pairs[0].1] else []) + ValuesOf(pairs[1..], key)
  }

  /** The query `clean_url` rebuilds from a non-empty query. */
  function CleanQuery(lib: Lib, query: string): string
  {
    var kept := KeepNonTracking(Group(lib.parseQsl(query)));
    if kept != [] then lib.urlencode(Flatten(kept)) else ""
  }

  /** The components `clean_url` hands to `urlunparse`. */
  function CleanComponents(lib: Lib, url: string, removeTracking: bool): (c: Url)
    ensures c.fragment == ""
    ensures var p := lib.urlparse(url);
      c.scheme == p.scheme && c.netloc == p.netloc && c.path == p.path && c.params == p.params
    ensures var p := lib.urlparse(url);
      (!removeTracking || p.query == "") ==> c.query == p.query
  {
    var p := lib.urlparse(url);
    var q := if !removeTracking || p.query == "" then p.query else CleanQuery(lib, p.query);
    Url(p.scheme, p.netloc, p.path, p.params, q, "")
  }

  function CleanUrl(lib: Lib, url: string, removeTracking: bool): (r: string)
    ensures url == "" ==> r == url
    ensures url != "" ==> r == lib.urlunparse(CleanComponents(lib, url, removeTracking))
  {
    if url == "" then url else lib.urlunparse(CleanComponents(lib, url, removeTracking))
  }

  /** `clean_url(url)` with its default `remove_tracking=True`. */
  function Clean(lib: Lib, url: string): string
  {
    CleanUrl(lib, url, true)
  }

  // ---------------------------------------------------------------------------
  // Lemmas

  function ParamValuesOf(ps: seq<Param>, key: string): seq<string>
  {
    ValuesOf(Flatten(ps), key)
  }

  lemma {:induction false} ValuesOfAppend(a: seq<(string, string)>, b: seq<(string, string)>, key: string)
    ensures ValuesOf(a + b, key) == ValuesOf(a, key) + ValuesOf(b, key)
    decreases |a|
  {
    if |a| == 0 {
      assert a + b == b;
    } else {
      assert (a + b)[1..] == a[1..] + b;
      ValuesOfAppend(a[1..], b, key);
    }
  }

  lemma {:induction false} ValuesOfPairs(k: string, values: seq<string>, key: string)
    ensures ValuesOf(Pairs(k, values), key) == if k == key then values else []
    decreases |values|
  {
    if |values| > 0 {
      assert Pairs(k, values)[1..] == Pairs(k, values[1..]);
      ValuesOfPairs(k, values[1..], key);
    }
  }

  lemma FlattenCons(p: Param, ps: seq<Param>, key: string)
    ensures ParamValuesOf([p] + ps, key) == (if p.key == key then p.values else []) + ParamValuesOf(ps, key)
  {
    assert ([p] + ps)[1..] == ps;
    ValuesOfAppend(Pairs(p.key, p.values), Flatten(ps), key);
    ValuesOfPairs(p.key, p.values, key);
  }

  lemma {:induction false} AddPairValues(ps: seq<Param>, k: string, v: string, key: string)
    requires KeysDistinct(ps)
    ensures ParamValuesOf(AddPair(ps, k, v), key)
         == ParamValuesOf(ps, key) + (if k == key then [v] else [])
    decreases |ps|
  {
    if |ps| == 0 {
      FlattenCons(Param(k, [v]), [], key);
      assert [Param(k, [v])] + [] == [Param(k, [v])];
    } else if ps[0].key == k {
      if k == key {
        NoValuesWithoutKey(ps[1..], key);
      }
      FlattenCons(Param(k, ps[0].values + [v]), ps[1..], key);
      FlattenCons(ps[0], ps[1..], key);
      assert [ps[0]] + ps[1..] == ps;
    } else {
      AddPairValues(ps[1..], k, v, key);
      FlattenCons(ps[0], AddPair(ps[1..], k, v), key);
      FlattenCons(ps[0], ps[1..], key);
      assert [ps[0]] + ps[1..] == ps;
    }
  }

  lemma {:induction false} NoValuesWithoutKey(ps: seq<Param>, key: string)
    requires forall i :: 0 <= i < |ps| ==> ps[i].key != key
    ensures ParamValuesOf(ps, key) == []
    decreases |ps|
  {
    if |ps| > 0 {
      NoValuesWithoutKey(ps[1..], key);
      FlattenCons(ps[0], ps[1..], key);
      assert [ps[0]] + ps[1..] == ps;
    }
  }

  /** Grouping by key (then flattening back) keeps each key's values in order. */
  lemma {:induction false} GroupValues(pairs: seq<(string, string)>, key: string)
    ensures ParamValuesOf(Group(pairs), key) == ValuesOf(pairs, key)
    decreases |pairs|
  {
    if |pairs| > 0 {
      var init := pairs[..|pairs| - 1];
      var last := pairs[|pairs| - 1];
      GroupValues(init, key);
      AddPairValues(Group(init), last.0, last.1, key);
      assert pairs == init + [last];
      ValuesOfAppend(init, [last], key);
    }
  }

  lemma {:induction false} KeepNonTrackingValues(ps: seq<Param>, key: string)
    ensures ParamValuesOf(KeepNonTracking(ps), key) == if IsTracking(key) then [] else ParamValuesOf(ps, key)
    decreases |ps|
  {
    if |ps| > 0 {
      KeepNonTrackingValues(ps[1..], key);
      FlattenCons(ps[0], ps[1..], key);
      assert [ps[0]] + ps[1..] == ps;
      if !IsTracking(ps[0].key) {
        FlattenCons(ps[0], KeepNonTracking(ps[1..]), key);
      }
    }
  }

  /**
   * The pairs handed to `urlencode`: no tracking key has any value left, and
   * every other key keeps all its values, blank ones included, in order.
   */
  lemma CleanedPairs(lib: Lib, query: string, key: string)
    ensures ParamValuesOf(KeepNonTracking(Group(lib.parseQsl(query))), key)
         == if IsTracking(key) then [] else ValuesOf(lib.parseQsl(query), key)
  {
    KeepNonTrackingValues(Group(lib.parseQsl(query)), key);
    GroupValues(lib.parseQsl(query), key);
  }

  lemma {:induction false} KeepNonTrackingKeys(ps: seq<Param>)
    ensures forall i :: 0 <= i < |KeepNonTracking(ps)| ==> !IsTracking(KeepNonTracking(ps)[i].key)
    decreases |ps|
  {
    if |ps| > 0 {
      KeepNonTrackingKeys(ps[1..]);
    }
  }

  /** When every key of the query is a tracking key, the query becomes empty. */
  lemma AllTrackingEmptiesQuery(lib: Lib, url: string)
    requires var p := lib.urlparse(url);
      p.query != "" && forall i :: 0 <= i < |lib.parseQsl(p.query)| ==> IsTracking(lib.parseQsl(p.query)[i].0)
    ensures CleanComponents(lib, url, true).query == ""
  {
    var pairs := lib.parseQsl(lib.urlparse(url).query);
    AllTrackingGroup(pairs);
  }

  lemma {:induction false} AllTrackingGroup(pairs: seq<(string, string)>)
    requires forall i :: 0 <= i < |pairs| ==> IsTracking(pairs[i].0)
    ensures KeepNonTracking(Group(pairs)) == []
    decreases |pairs|
  {
    if |pairs| > 0 {
      AllTrackingGroup(pairs[..|pairs| - 1]);
      AddPairTracking(Group(pairs[..|pairs| - 1]), pairs[|pairs| - 1].0, pairs[|pairs| - 1].1);
    }
  }

  lemma {:induction false} AddPairTracking(ps: seq<Param>, k: string, v: string)
    requires KeepNonTracking(ps) == [] && IsTracking(k)
    ensures KeepNonTracking(AddPair(ps, k, v)) == []
    decreases |ps|
  {
    if |ps| > 0 && ps[0].key != k {
      AddPairTracking(ps[1..], k, v);
    }
  }
}
