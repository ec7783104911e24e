/**
 * `extract_first_json_object` of the standalone tester: a brace-counting
 * scanner that finds the first `{...}` span of an LLM reply whose braces
 * balance (braces inside double-quoted strings do not count, and a
 * backslash skips the next character), and decodes it.
 *
 * `json.loads` is `Lib.jsonLoads`.  When a balanced span fails to decode,
 * the code moves `start_idx` to the next `{` but goes on scanning from the
 * character after the failed span, so the characters in between are still
 * counted (see the finding in README.md).  `FirstJsonObject` and its method
 * are the code as written; `FixedFirstJsonObject` restarts the scan at the
 * next `{`, which is what the comment "Try next object" asks for.
 */
module JsonScan {
  import opened Strings
  import opened Values
  import opened Foreign

  /** The scanner's variables: `start_idx`, `brace_count`, `in_string`, `escape_next`. */
  datatype Scanner = Scanner(start: nat, depth: int, inString: bool, escape: bool)

  /** The scanner as it stands at the first `{`. */
  function Fresh(start: nat): Scanner
  {
    Scanner(start, 0, false, false)
  }

  /** Python's `s[a:b]` for `b <= |s|`: empty when `a > b`. */
  function Slice(s: string, a: nat, b: nat): string
    requires b <= |s|
  {
    if a <= b then s[a..b] else ""
  }

  /** Whether character `c` is a `}` outside a string that brings the depth back to 0. */
  predicate Closes(c: char, sc: Scanner)
  {
    !sc.escape && c == '}' && !sc.inString && sc.depth == 1
  }

  /** How one character that closes nothing changes the scanner. */
  function Step(c: char, sc: Scanner): (r: Scanner)
    ensures r.start == sc.start
    ensures sc.escape ==> r == sc.(escape := false)
    ensures !sc.escape && c == '\\' ==> r == sc.(escape := true)
    ensures !sc.escape && c == '"' ==> r == sc.(inString := !sc.inString)
    ensures !sc.escape && c != '\\' && c != '"' && sc.inString ==> r == sc
    ensures !sc.escape && !sc.inString && c == '{' ==> r == sc.(depth := sc.depth + 1)
    ensures !sc.escape && !sc.inString && c == '}' ==> r == sc.(depth := sc.depth - 1)
    ensures c != '{' && c != '}' ==> r.depth == sc.depth
  {
    if sc.escape then sc.(escape := false)
    else if c == '\\' then sc.(escape := true)
    else if c == '"' then sc.(inString := !sc.inString)
    else if sc.inString then sc
    else if c == '{' then sc.(depth := sc.depth + 1)
    else if c == '}' then sc.(depth := sc.depth - 1)
    else sc
  }

  /** The scan from index `i` on, as written: after a failed span it goes on at `i + 1`. */
  function ScanAsWritten(lib: Lib, s: string, i: nat, sc: Scanner): Option<Json>
    requires i <= |s|
    decreases |s| - i
  {
    if i == |s| then None
    else if Closes(s[i], sc) then
      var parsed := lib.jsonLoads(Slice(s, sc.start, i + 1));
      if parsed.Some? then parsed
      else
        var next := IndexFrom(s, '{', i + 1);
        if next == |s| then None else ScanAsWritten(lib, s, i + 1, Fresh(next))
    else ScanAsWritten(lib, s, i + 1, Step(s[i], sc))
  }

  /** The scan from index `i` on, restarting at the next `{` after a failed span. */
  function ScanFixed(lib: Lib, s: string, i: nat, sc: Scanner): Option<Json>
    requires i <= |s|
    decreases |s| - i
  {
    if i == |s| then None
    else if Closes(s[i], sc) then
      var parsed := lib.jsonLoads(Slice(s, sc.start, i + 1));
      if parsed.Some? then parsed
      else
        var next := IndexFrom(s, '{', i + 1);
        if next == |s| then None else ScanFixed(lib, s, next, Fresh(next))
    else ScanFixed(lib, s, i + 1, Step(s[i], sc))
  }

  /** `extract_first_json_object(s)` as written; None for an empty input or one without `{`. */
  function FirstJsonObject(lib: Lib, s: string): (r: Option<Json>)
    ensures (forall j :: 0 <= j < |s| ==> s[j] != '{') ==> r.None?
  {
    var start := IndexFrom(s, '{', 0);
    if s == [] || start == |s| then None else ScanAsWritten(lib, s, start, Fresh(start))
  }

  /** The scanner as its comment intends it. */
  function FixedFirstJsonObject(lib: Lib, s: string): (r: Option<Json>)
    ensures (forall j :: 0 <= j < |s| ==> s[j] != '{') ==> r.None?
  {
    var start := IndexFrom(s, '{', 0);
    if s == [] || start == |s| then None else ScanFixed(lib, s, start, Fresh(start))
  }

  /** The scanner loop of `extract_first_json_object`, as written. */
  method ExtractFirstJsonObject(lib: Lib, s: string) returns (r: Option<Json>)
    ensures r == FirstJsonObject(lib, s)
  {
    if |s| == 0 {
      return None;
    }
    var startIdx := IndexFrom(s, '{', 0);
    if startIdx == |s| {
      return None;
    }
    var braceCount, inString, escapeNext := 0, false, false;
    var i := startIdx;
    while i < |s|
      invariant i <= |s|
      invariant ScanAsWritten(lib, s, i, Scanner(startIdx, braceCount, inString, escapeNext)) == FirstJsonObject(lib, s)
      decreases |s| - i
    {
      var c := s[i];
      if escapeNext {
        escapeNext := false;
      } else if c == '\\' {
        escapeNext := true;
      } else if c == '"' {
        inString := !inString;
      } else if inString {
      } else if c == '{' {
        braceCount := braceCount + 1;
      } else if c == '}' {
        braceCount := braceCount - 1;
        if braceCount == 0 {
          var parsed := lib.jsonLoads(Slice(s, startIdx, i + 1));
          if parsed.Some? {
            return parsed;
          }
          var nextStart := IndexFrom(s, '{', i + 1);
          if nextStart == |s| {
            return None;
          }
          startIdx := nextStart;
          braceCount := 0;
        }
      }
      i := i + 1;
    }
    return None;
  }

  // ---------------------------------------------------------------------------
  // What a returned object is

  /** `s[a..b]` is a `{`...`}` span that decodes to `v`. */
  predicate DecodedSpan(lib: Lib, s: string, a: nat, b: nat, v: Json)
  {
    a < b <= |s| && s[a] == '{' && s[b - 1] == '}' && lib.jsonLoads(s[a..b]) == Some(v)
  }

  /**
   * While the scan is before `start`, nothing in between is a `{` and the
   * depth is not positive; `start` itself is a `{`.
   */
  ghost predicate Sound(s: string, i: nat, sc: Scanner)
  {
    sc.start < |s| && s[sc.start] == '{'
    && (sc.start > i ==> sc.depth <= 0 && forall j :: i <= j < sc.start && j < |s| ==> s[j] != '{')
  }

  lemma {:induction false} AsWrittenDecodesSpan(lib: Lib, s: string, i: nat, sc: Scanner)
    requires i <= |s| && Sound(s, i, sc)
    ensures ScanAsWritten(lib, s, i, sc).Some? ==>
      exists a, b :: DecodedSpan(lib, s, a, b, ScanAsWritten(lib, s, i, sc).value)
    decreases |s| - i
  {
    if i == |s| {
    } else if Closes(s[i], sc) {
      assert sc.start <= i;
      var parsed := lib.jsonLoads(Slice(s, sc.start, i + 1));
      if parsed.Some? {
        assert DecodedSpan(lib, s, sc.start, i + 1, parsed.value);
      } else {
        var next := IndexFrom(s, '{', i + 1);
        if next < |s| {
          AsWrittenDecodesSpan(lib, s, i + 1, Fresh(next));
        }
      }
    } else {
      AsWrittenDecodesSpan(lib, s, i + 1, Step(s[i], sc));
    }
  }

  /** Whatever the scanner returns is the decoding of a `{`...`}` span of the input. */
  lemma FirstJsonObjectIsSpan(lib: Lib, s: string)
    ensures FirstJsonObject(lib, s).Some? ==> exists a, b :: DecodedSpan(lib, s, a, b, FirstJsonObject(lib, s).value)
  {
    var start := IndexFrom(s, '{', 0);
    if s != [] && start < |s| {
      AsWrittenDecodesSpan(lib, s, start, Fresh(start));
    }
  }

  lemma {:induction false} FixedDecodesSpan(lib: Lib, s: string, i: nat, sc: Scanner)
    requires i <= |s| && sc.start <= i && sc.start < |s| && s[sc.start] == '{'
    ensures ScanFixed(lib, s, i, sc).Some? ==> exists a, b :: DecodedSpan(lib, s, a, b, ScanFixed(lib, s, i, sc).value)
    decreases |s| - i
  {
    if i == |s| {
    } else if Closes(s[i], sc) {
      var parsed := lib.jsonLoads(Slice(s, sc.start, i + 1));
      if parsed.Some? {
        assert DecodedSpan(lib, s, sc.start, i + 1, parsed.value);
      } else {
        var next := IndexFrom(s, '{', i + 1);
        if next < |s| {
          FixedDecodesSpan(lib, s, next, Fresh(next));
        }
      }
    } else {
      FixedDecodesSpan(lib, s, i + 1, Step(s[i], sc));
    }
  }

  lemma FixedFirstJsonObjectIsSpan(lib: Lib, s: string)
    ensures FixedFirstJsonObject(lib, s).Some? ==>
      exists a, b :: DecodedSpan(lib, s, a, b, FixedFirstJsonObject(lib, s).value)
  {
    var start := IndexFrom(s, '{', 0);
    if s != [] && start < |s| {
      FixedDecodesSpan(lib, s, start, Fresh(start));
    }
  }

  // ---------------------------------------------------------------------------
  // A failed span: skipped by the fixed scanner, not by the code

  lemma {:induction false} IndexFromShift(s: string, m: nat, from: nat)
    requires m <= from <= |s|
    ensures IndexFrom(s[m..], '{', from - m) == IndexFrom(s, '{', from) - m
    decreases |s| - from
  {
    if from < |s| && s[from] != '{' {
      IndexFromShift(s, m, from + 1);
    }
  }

  /** Scanning a suffix gives the same answer as scanning the whole input from the same place. */
  lemma {:induction false} ScanFixedShift(lib: Lib, s: string, m: nat, i: nat, sc: Scanner)
    requires m <= sc.start && m <= i <= |s|
    ensures ScanFixed(lib, s, i, sc) == ScanFixed(lib, s[m..], i - m, sc.(start := sc.start - m))
    decreases |s| - i
  {
    var t, sc' := s[m..], sc.(start := sc.start - m);
    if i < |s| {
      assert t[i - m] == s[i];
      if Closes(s[i], sc) {
        assert Slice(t, sc'.start, i - m + 1) == Slice(s, sc.start, i + 1);
        IndexFromShift(s, m, i + 1);
        var next := IndexFrom(s, '{', i + 1);
        if next < |s| {
          ScanFixedShift(lib, s, m, next, Fresh(next));
        }
      } else {
        ScanFixedShift(lib, s, m, i + 1, Step(s[i], sc));
      }
    }
  }

  /**
   * The intended restart: once a balanced span fails to decode, the answer
   * is the answer for the rest of the input, as if the span were not there.
   */
  lemma FixedSkipsFailedSpan(lib: Lib, s: string, i: nat, sc: Scanner)
    requires i < |s| && Closes(s[i], sc) && lib.jsonLoads(Slice(s, sc.start, i + 1)).None?
    ensures ScanFixed(lib, s, i, sc) == FixedFirstJsonObject(lib, s[i + 1..])
  {
    var t := s[i + 1..];
    IndexFromShift(s, i + 1, i + 1);
    var next := IndexFrom(s, '{', i + 1);
    if next < |s| {
      ScanFixedShift(lib, s, i + 1, next, Fresh(next));
      assert t != [];
    }
  }

  /**
   * The code does not skip a failed span: in `{a}}{}` the span `{a}` does
   * not decode, the `}` after it drives the depth to -1, and the valid `{}`
   * that follows is never returned, although the rest of the input alone
   * would give it.
   */
  lemma AsWrittenMissesNextObject(lib: Lib)
    requires lib.jsonLoads("{a}") == None && lib.jsonLoads("{}").Some?
    ensures FirstJsonObject(lib, "{a}}{}") == None
    ensures FirstJsonObject(lib, "}{}") == lib.jsonLoads("{}")
    ensures FixedFirstJsonObject(lib, "{a}}{}") == lib.jsonLoads("{}")
  {
    var s := "{a}}{}";
    FailedSpanAt2(lib, s);
    var open := Scanner(4, 0, false, false);
    assert ScanAsWritten(lib, s, 3, Fresh(4)) == ScanAsWritten(lib, s, 4, open.(depth := -1));
    assert ScanAsWritten(lib, s, 4, open.(depth := -1)) == ScanAsWritten(lib, s, 5, open);
    assert ScanAsWritten(lib, s, 5, open) == ScanAsWritten(lib, s, 6, open.(depth := -1));
    assert Slice(s, 4, 6) == "{}";
    assert ScanFixed(lib, s, 4, Fresh(4)) == ScanFixed(lib, s, 5, open.(depth := 1));
    var t := "}{}";
    assert IndexFrom(t, '{', 0) == 1;
    assert Slice(t, 1, 3) == "{}";
    assert ScanAsWritten(lib, t, 1, Fresh(1)) == ScanAsWritten(lib, t, 2, Scanner(1, 1, false, false));
  }

  /** Both scanners reach the `}` at index 2 of `{a}}{}` and move the start to index 4. */
  lemma FailedSpanAt2(lib: Lib, s: string)
    requires s == "{a}}{}" && lib.jsonLoads("{a}") == None
    ensures FirstJsonObject(lib, s) == ScanAsWritten(lib, s, 3, Fresh(4))
    ensures FixedFirstJsonObject(lib, s) == ScanFixed(lib, s, 4, Fresh(4))
  {
    assert IndexFrom(s, '{', 0) == 0;
    assert IndexFrom(s, '{', 3) == 4 by {
      assert s[3] != '{' && s[4] == '{';
    }
    var sc1 := Scanner(0, 1, false, false);
    assert Slice(s, 0, 3) == "{a}";
    assert ScanAsWritten(lib, s, 0, Fresh(0)) == ScanAsWritten(lib, s, 1, sc1);
    assert ScanAsWritten(lib, s, 1, sc1) == ScanAsWritten(lib, s, 2, sc1);
    assert ScanFixed(lib, s, 0, Fresh(0)) == ScanFixed(lib, s, 1, sc1);
    assert ScanFixed(lib, s, 1, sc1) == ScanFixed(lib, s, 2, sc1);
  }
}
