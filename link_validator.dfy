/**
 * `validate_product_page`: does a fetched page mention the expected model
 * tokens?  The floating-point score `min(1, matches / max(1, expected))` is
 * kept as the fraction `scoreNum / scoreDen`, and the `score >= 0.3` test
 * as the integer comparison `10 * matches >= 3 * max(1, expected)`.
 */
module LinkValidator {
  import opened Strings
  import opened Foreign

  datatype Verdict = GenericRedirect | NoMatches | WeakMatch | MatchFound

  datatype Validation = Validation(ok: bool, reason: Verdict, scoreNum: nat, scoreDen: nat, finalUrl: string)

  const GENERIC_PATHS: seq<string> := ["/", "/search", "/home", "/index"]

  predicate IsGenericPath(path: string)
  {
    path in GENERIC_PATHS || Contains(Lower(path), "search")
  }

  /** `re.sub(r"\s+", "", s)`. */
  function RemoveSpaces(s: string): (r: string)
    ensures forall i :: 0 <= i < |r| ==> !IsSpace(r[i])
    ensures |r| <= |s|
    ensures (forall i :: 0 <= i < |s| ==> !IsSpace(s[i])) ==> r == s
  {
    if |s| == 0 then []
    else (if IsSpace(s[0]) then [] else [s[0]]) + RemoveSpaces(s[1..])
  }

  /** Removing the whitespace of a concatenation removes it piecewise, so the kept characters stay in order. */
  lemma {:induction false} RemoveSpacesAppend(a: string, b: string)
    ensures RemoveSpaces(a + b) == RemoveSpaces(a) + RemoveSpaces(b)
  {
    if a == [] {
      assert a + b == b;
    } else {
      assert (a + b)[0] == a[0];
      assert (a + b)[1..] == a[1..] + b;
      var h := if IsSpace(a[0]) then [] else [a[0]];
      calc {
        RemoveSpaces(a + b);
        h + RemoveSpaces(a[1..] + b);
        { RemoveSpacesAppend(a[1..], b); }
        h + (RemoveSpaces(a[1..]) + RemoveSpaces(b));
        RemoveSpaces(a) + RemoveSpaces(b);
      }
    }
  }

  /** Exactly the characters that are not whitespace survive. */
  lemma {:induction false} RemoveSpacesKeeps(s: string, c: char)
    ensures c in RemoveSpaces(s) <==> c in s && !IsSpace(c)
  {
    if s != [] {
      RemoveSpacesKeeps(s[1..], c);
      assert s == [s[0]] + s[1..];
    }
  }

  /** Both spellings of each expected token, in order: without spaces, and as given; both lower-cased. */
  function NormalizedTokens(expected: seq<string>): (r: seq<string>)
    ensures |r| == 2 * |expected|
    ensures forall i :: 0 <= i < |expected| ==>
      r[2 * i] == RemoveSpaces(Lower(expected[i])) && r[2 * i + 1] == Lower(expected[i])
  {
    if |expected| == 0 then []
    else
      var prev := NormalizedTokens(expected[..|expected| - 1]);
      var t := expected[|expected| - 1];
      assert forall i :: 0 <= i < |expected| - 1 ==> expected[..|expected| - 1][i] == expected[i];
      prev + [RemoveSpaces(Lower(t)), Lower(t)]
  }

  /**
   * A token matches when the title-and-text contains it, or when it has at
   * least four characters and lies inside another token.
   */
  predicate IsMatch(tokens: seq<string>, combined: string, t: string)
  {
    Contains(combined, t) || (|t| >= 4 && exists o :: o in tokens && o != t && Contains(o, t))
  }

  function MatchSet(tokens: seq<string>, combined: string): set<string>
  {
    set t | t in tokens && IsMatch(tokens, combined, t)
  }

  /** `f"{title_lower} {text_lower}"`. */
  function Combined(pageTitle: string, pageText: string): string
  {
    Lower(pageTitle) + " " + Lower(pageText)
  }

  /** The score fraction: `min(1, matches / max(1, expected))`. */
  function Score(matches: nat, expected: nat): (r: (nat, nat))
    ensures 1 <= r.1 && r.0 <= r.1
    ensures matches == 0 ==> r.0 == 0
  {
    var den := if expected < 1 then 1 else expected;
    if matches >= den then (1, 1) else (matches, den)
  }

  /** `score < 0.3` fails. */
  predicate StrongEnough(matches: nat, expected: nat)
  {
    var den := if expected < 1 then 1 else expected;
    10 * matches >= 3 * den
  }

  /** The collecting loops: every match of every token, repetitions included. */
  method CollectMatches(tokens: seq<string>, combined: string) returns (matches: seq<string>)
    ensures forall x :: x in matches <==> x in MatchSet(tokens, combined)
  {
    matches := [];
    var i := 0;
    while i < |tokens|
      invariant 0 <= i <= |tokens|
      invariant forall x :: x in matches <==> x in tokens[..i] && IsMatch(tokens, combined, x)
    {
      var token := tokens[i];
      assert tokens[..i + 1] == tokens[..i] + [token];
      if Contains(combined, token) {
        matches := matches + [token];
      }
      if |token| >= 4 {
        var j := 0;
        while j < |tokens|
          invariant 0 <= j <= |tokens|
          invariant forall x :: x in matches <==>
            (x in tokens[..i] && IsMatch(tokens, combined, x))
            || (x == token && (Contains(combined, token) || exists o :: o in tokens[..j] && o != token && Contains(o, token)))
        {
          var other := tokens[j];
          assert tokens[..j + 1] == tokens[..j] + [other];
          if token != other && Contains(other, token) {
            assert other in tokens[..j + 1];
            matches := matches + [token];
          }
          j := j + 1;
        }
        assert tokens[..|tokens|] == tokens;
      }
      i := i + 1;
    }
    assert tokens[..|tokens|] == tokens;
  }

  /** `validate_product_page(expected_tokens, page_title, page_text, final_url)`. */
  method ValidateProductPage(lib: Lib, expected: seq<string>, pageTitle: string, pageText: string, finalUrl: string)
    returns (v: Validation)
    ensures v.finalUrl == finalUrl
    ensures 1 <= v.scoreDen && v.scoreNum <= v.scoreDen
    ensures IsGenericPath(lib.urlparse(finalUrl).path) ==> v.reason == GenericRedirect && !v.ok && v.scoreNum == 0
    ensures !IsGenericPath(lib.urlparse(finalUrl).path) ==>
      var m := MatchSet(NormalizedTokens(expected), Combined(pageTitle, pageText));
      var e := |set t | t in expected|;
      (m == {} ==> v.reason == NoMatches && v.scoreNum == 0)
      && (m != {} && !StrongEnough(|m|, e) ==> v.reason == WeakMatch)
      && (m != {} ==> (v.scoreNum, v.scoreDen) == Score(|m|, e))
      && (v.ok <==> m != {} && StrongEnough(|m|, e))
      && (v.ok <==> v.reason == MatchFound)
  {
    var combined := Combined(pageTitle, pageText);
    var path := lib.urlparse(finalUrl).path;
    if path in GENERIC_PATHS || Contains(Lower(path), "search") {
      return Validation(false, GenericRedirect, 0, 1, finalUrl);
    }
    var normalized := [];
    var k := 0;
    while k < |expected|
      invariant 0 <= k <= |expected|
      invariant normalized == NormalizedTokens(expected[..k])
    {
      assert expected[..k + 1][..k] == expected[..k];
      var token := expected[k];
      normalized := normalized + [RemoveSpaces(Lower(token)), Lower(token)];
      k := k + 1;
    }
    assert expected[..|expected|] == expected;
    var matches := CollectMatches(normalized, combined);
    if |matches| == 0 {
      return Validation(false, NoMatches, 0, 1, finalUrl);
    }
    var unique := set x | x in matches;
    assert unique == MatchSet(normalized, combined);
    assert matches[0] in unique;
    var expectedCount := |set t | t in expected|;
    var score := Score(|unique|, expectedCount);
    if !StrongEnough(|unique|, expectedCount) {
      return Validation(false, WeakMatch, score.0, score.1, finalUrl);
    }
    v := Validation(true, MatchFound, score.0, score.1, finalUrl);
  }

  /** `is_generic_redirect`: its check is disabled, so it holds for every URL. */
  function IsGenericRedirect(finalUrl: string): (r: bool)
    ensures r
  {
    true
  }

  // ---------------------------------------------------------------------------
  // Lemmas

  /** The score test is `score >= 0.3` on the capped fraction. */
  lemma StrongEnoughIsScore(matches: nat, expected: nat)
    ensures var s := Score(matches, expected);
      StrongEnough(matches, expected) <==> 10 * s.0 >= 3 * s.1
  {
  }

  /** Without expected tokens nothing can match, so the page is never accepted. */
  lemma NoExpectedNoMatch(combined: string)
    ensures MatchSet(NormalizedTokens([]), combined) == {}
  {
  }

  /**
   * A token of four or more characters inside another token counts as a
   * match whatever the page says.
   */
  lemma PartialMatchIgnoresText(tokens: seq<string>, combined: string, t: string, o: string)
    requires t in tokens && o in tokens && t != o && |t| >= 4 && Contains(o, t)
    ensures t in MatchSet(tokens, combined)
  {
  }

  /**
   * There are never more distinct matches than normalized tokens, which is
   * twice the number of expected tokens.
   */
  lemma {:induction false} MatchesBounded(tokens: seq<string>, combined: string)
    ensures |MatchSet(tokens, combined)| <= |tokens|
  {
    var m := MatchSet(tokens, combined);
    SetOfSeqBound(tokens);
    assert m <= set t | t in tokens;
    SubsetCard(m, set t | t in tokens);
  }

  lemma {:induction false} SetOfSeqBound(xs: seq<string>)
    ensures |set t | t in xs| <= |xs|
    decreases |xs|
  {
    if |xs| > 0 {
      var init := xs[..|xs| - 1];
      SetOfSeqBound(init);
      assert xs == init + [xs[|xs| - 1]];
      assert (set t | t in xs) == (set t | t in init) + {xs[|xs| - 1]};
    }
  }

  lemma SubsetCard(a: set<string>, b: set<string>)
    requires a <= b
    ensures |a| <= |b|
  {
    assert b == a + (b - a);
  }
}
