/**
 * Turning the text an AI model answered with into test-case dicts.
 *
 * Three strategies are tried in order: a fenced Markdown block, the whole text, and the
 * first brace-balanced `{ ... }` block. Whatever decodes is read as a `test_cases` list,
 * a single test case or a bare list; the valid cases are normalised to the four keys
 * `test_scenario`, `request_body`, `expected_response` and `rationale`.
 *
 * JSON decoding is the parameter `decode` (None stands for a JSONDecodeError); the
 * regular-expression search for fenced blocks is the parameter `blocks`, the captured
 * block texts in pattern order.
 */
module ResponseParser {
  import opened Wrappers
  import opened Json
  import opened Strings

  type Decoder = string -> Option<Value>

  // ---------------------------------------------------------------------------
  // Validation and normalisation
  // ---------------------------------------------------------------------------

  /**
   * A test case is a dict holding at least one of `test_scenario`, `request_body` or
   * `expected_response`; an `expected_response` it holds is a dict or None.
   */
  predicate Valid(v: Value) {
    v.Dict? &&
    (HasKey(v.entries, "test_scenario") || HasKey(v.entries, "request_body") || HasKey(v.entries, "expected_response")) &&
    (HasKey(v.entries, "expected_response") ==>
       Lookup(v.entries, "expected_response").value.Dict? || Lookup(v.entries, "expected_response").value.Null?)
  }

  /** One entry of the normalised dict, dropped when its value is None. */
  function Keep(k: string, v: Value): (r: Entries)
    ensures |r| <= 1
    ensures forall i :: 0 <= i < |r| ==> r[i] == (k, v) && !v.Null?
    ensures r == [] <==> v.Null?
  {
    if v.Null? then [] else [(k, v)]
  }

  /** The expected response a normalised case carries: always a dict holding `status_code`. */
  function ExpectedResponse(given: Option<Value>): (r: Value)
    ensures r.Dict? && HasKey(r.entries, "status_code")
    ensures given.Some? && given.value.Dict? && HasKey(given.value.entries, "status_code") ==> r == given.value
    ensures given.Some? && given.value.Dict? && !HasKey(given.value.entries, "status_code") ==>
              r.entries == given.value.entries + [("status_code", Int(200))]
    ensures given.None? ==> r == Dict([("status_code", Int(200))])
    ensures given.Some? && !given.value.Dict? ==> r == Dict([("status_code", Int(200)), ("body", given.value)])
  {
    match given
    case None =>
      assert HasKey([("status_code", Int(200))], "status_code") by {
        assert [("status_code", Int(200))][0].0 == "status_code";
      }
      Dict([("status_code", Int(200))])
    case Some(Dict(er)) =>
      if HasKey(er, "status_code") then Dict(er)
      else
        PutAppends(er, "status_code", Int(200));
        assert Lookup(Put(er, "status_code", Int(200)), "status_code").Some?;
        Dict(Put(er, "status_code", Int(200)))
    case Some(v) =>
      var r := [("status_code", Int(200)), ("body", v)];
      assert r[0].0 == "status_code";
      Dict(r)
  }

  /** The scenario of a case, 'Generated test case' when it has none. */
  function Scenario(tc: Entries): Value {
    Lookup(tc, "test_scenario").GetOr(Str("Generated test case"))
  }

  /** A key's value, None when the key is absent. */
  function ValueAt(tc: Entries, k: string): Value {
    Lookup(tc, k).GetOr(Null)
  }

  /**
   * The normalised form of a valid test case: the scenario, the request body, the
   * expected response and the rationale, in that order, leaving out those that are None.
   */
  function Normalize(tc: Entries): Entries {
    Keep("test_scenario", Scenario(tc))
    + (Keep("request_body", ValueAt(tc, "request_body"))
    + ([("expected_response", ExpectedResponse(Lookup(tc, "expected_response")))]
    + Keep("rationale", ValueAt(tc, "rationale"))))
  }

  /** Position of a key in the normalised order; 4 for any other key. */
  function Rank(k: string): nat {
    if k == "test_scenario" then 0
    else if k == "request_body" then 1
    else if k == "expected_response" then 2
    else if k == "rationale" then 3
    else 4
  }

  /** The keys appear in the normalised order, each at most once. */
  predicate Ranked(n: Entries) {
    forall i, j :: 0 <= i < j < |n| ==> Rank(n[i].0) < Rank(n[j].0)
  }

  /** What every normalised case looks like. */
  predicate NormalForm(n: Entries) {
    Ranked(n) &&
    (forall i :: 0 <= i < |n| ==> Rank(n[i].0) < 4 && !n[i].1.Null?) &&
    HasKey(n, "expected_response") &&
    Lookup(n, "expected_response").value.Dict? &&
    HasKey(Lookup(n, "expected_response").value.entries, "status_code")
  }

  lemma RankedUnique(n: Entries)
    requires Ranked(n)
    ensures UniqueKeys(n)
  {
  }

  /** Two ranked parts, every key of the first ranked below every key of the second. */
  lemma RankedAppend(x: Entries, y: Entries)
    requires Ranked(x) && Ranked(y)
    requires forall i, j :: 0 <= i < |x| && 0 <= j < |y| ==> Rank(x[i].0) < Rank(y[j].0)
    ensures Ranked(x + y)
  {
    forall i, j | 0 <= i < j < |x + y| ensures Rank((x + y)[i].0) < Rank((x + y)[j].0) {
      if j < |x| {
      } else if i < |x| {
        assert (x + y)[j] == y[j - |x|];
      } else {
        assert (x + y)[i] == y[i - |x|] && (x + y)[j] == y[j - |x|];
      }
    }
  }

  /** Looking a key up past a kept entry. */
  lemma LookupKeep(k: string, v: Value, rest: Entries, key: string)
    ensures Lookup(Keep(k, v) + rest, key) ==
            if key == k && !v.Null? then Some(v) else Lookup(rest, key)
  {
    if !v.Null? {
      assert (Keep(k, v) + rest)[0] == (k, v);
      assert (Keep(k, v) + rest)[1..] == rest;
    } else {
      assert Keep(k, v) + rest == rest;
    }
  }

  /** Looking a key up in a normalised case: each of the four keys finds its own part. */
  lemma NormalizeLookup(tc: Entries, key: string)
    ensures Lookup(Normalize(tc), key) ==
      if key == "test_scenario" then (if Scenario(tc).Null? then None else Some(Scenario(tc)))
      else if key == "request_body" then (if ValueAt(tc, key).Null? then None else Some(ValueAt(tc, key)))
      else if key == "expected_response" then Some(ExpectedResponse(Lookup(tc, "expected_response")))
      else Lookup(Keep("rationale", ValueAt(tc, "rationale")), key)
  {
    var er: Entries := [("expected_response", ExpectedResponse(Lookup(tc, "expected_response")))];
    var d := Keep("rationale", ValueAt(tc, "rationale"));
    LookupKeep("test_scenario", Scenario(tc), Keep("request_body", ValueAt(tc, "request_body")) + (er + d), key);
    LookupKeep("request_body", ValueAt(tc, "request_body"), er + d, key);
    assert (er + d)[0] == er[0] && (er + d)[1..] == d;
  }

  /** The four parts of a normalised case come in rank order. */
  lemma NormalizeRanked(tc: Entries)
    ensures Ranked(Normalize(tc))
  {
    var a := Keep("test_scenario", Scenario(tc));
    var b := Keep("request_body", ValueAt(tc, "request_body"));
    var c: Entries := [("expected_response", ExpectedResponse(Lookup(tc, "expected_response")))];
    var d := Keep("rationale", ValueAt(tc, "rationale"));
    RankedAppend(c, d);
    RankedAppend(b, c + d);
    RankedAppend(a, b + (c + d));
  }

  /** Every entry of a normalised case has one of the four keys and a value that is not None. */
  lemma NormalizeEntriesKnown(tc: Entries)
    ensures forall i :: 0 <= i < |Normalize(tc)| ==> Rank(Normalize(tc)[i].0) < 4 && !Normalize(tc)[i].1.Null?
  {
    var a := Keep("test_scenario", Scenario(tc));
    var b := Keep("request_body", ValueAt(tc, "request_body"));
    var c: Entries := [("expected_response", ExpectedResponse(Lookup(tc, "expected_response")))];
    var d := Keep("rationale", ValueAt(tc, "rationale"));
    var n := Normalize(tc);
    forall i | 0 <= i < |n| ensures Rank(n[i].0) < 4 && !n[i].1.Null? {
      if i < |a| {
        assert n[i] == a[i];
      } else if i < |a| + |b| {
        assert n[i] == b[i - |a|];
      } else if i == |a| + |b| {
        assert n[i] == c[0];
      } else {
        assert n[i] == d[i - |a| - |b| - 1];
      }
    }
  }

  /** Normalising any case yields the normal form, which in turn passes validation. */
  lemma NormalizeIsNormal(tc: Entries)
    ensures NormalForm(Normalize(tc))
    ensures UniqueKeys(Normalize(tc))
    ensures Valid(Dict(Normalize(tc)))
  {
    var n := Normalize(tc);
    NormalizeRanked(tc);
    NormalizeEntriesKnown(tc);
    RankedUnique(n);
    NormalizeLookup(tc, "expected_response");
    assert Lookup(n, "expected_response").Some?;
    assert HasKey(n, "expected_response");
  }

  /**
   * Normalising twice changes nothing, except for a case whose `test_scenario` is an
   * explicit None: the first pass drops it and the second puts the default scenario back.
   */
  lemma NormalizeIdempotentUnlessNullScenario(tc: Entries)
    ensures Normalize(Normalize(tc)) == Normalize(tc) <==> Lookup(tc, "test_scenario") != Some(Null)
  {
    var n := Normalize(tc);
    NormalizeLookup(tc, "test_scenario");
    NormalizeLookup(tc, "request_body");
    NormalizeLookup(tc, "expected_response");
    NormalizeLookup(tc, "rationale");
    var d := Keep("rationale", ValueAt(tc, "rationale"));
    assert Lookup(d, "rationale") == if d == [] then None else Some(d[0].1);
    var er := ExpectedResponse(Lookup(tc, "expected_response"));
    assert ExpectedResponse(Some(er)) == er;
    if Lookup(tc, "test_scenario") == Some(Null) {
      NormalizeLookup(n, "test_scenario");
      assert Lookup(Normalize(n), "test_scenario") == Some(Str("Generated test case"));
      assert Lookup(n, "test_scenario") == None;
    } else {
      assert Scenario(n) == Scenario(tc);
      assert ValueAt(n, "request_body") == ValueAt(tc, "request_body");
      assert ValueAt(n, "rationale") == ValueAt(tc, "rationale");
    }
  }

  // ---------------------------------------------------------------------------
  // Reading decoded JSON
  // ---------------------------------------------------------------------------

  /** The normalised valid cases of a list, in list order. */
  function ValidCases(items: seq<Value>): (r: seq<Entries>)
    ensures |r| <= |items|
    decreases |items|
  {
    if items == [] then []
    else
      var last := items[|items| - 1];
      ValidCases(items[..|items| - 1]) + (if Valid(last) then [Normalize(last.entries)] else [])
  }

  /**
   * The test cases a decoded document holds: a dict with `test_cases` yields the valid
   * entries of that list (nothing when it is not a list); otherwise a valid dict is one
   * case; otherwise a list yields its valid entries; anything else yields nothing.
   */
  function CasesOf(data: Value): seq<Entries> {
    if data.Dict? && HasKey(data.entries, "test_cases") then
      var l := Lookup(data.entries, "test_cases").value;
      if l.List? then ValidCases(l.items) else []
    else if data.Dict? && Valid(data) then [Normalize(data.entries)]
    else if data.List? then ValidCases(data.items)
    else []
  }

  /** `_parse_json_response` as a function: nothing for text that does not decode. */
  function ParseJson(s: string, decode: Decoder): seq<Entries> {
    match decode(s)
    case None => []
    case Some(data) => CasesOf(data)
  }

  /** Collects the normalised valid cases of a list. */
  method CollectValid(items: seq<Value>) returns (cases: seq<Entries>)
    ensures cases == ValidCases(items)
  {
    cases := [];
    var i := 0;
    while i < |items|
      invariant 0 <= i <= |items|
      invariant cases == ValidCases(items[..i])
    {
      assert items[..i + 1][..i] == items[..i];
      if Valid(items[i]) {
        cases := cases + [Normalize(items[i].entries)];
      }
      i := i + 1;
    }
    assert items[..i] == items;
  }

  /** Decodes `jsonStr` and reads the test cases it holds. */
  method ParseJsonResponse(jsonStr: string, decode: Decoder) returns (cases: seq<Entries>)
    ensures cases == ParseJson(jsonStr, decode)
  {
    var decoded := decode(jsonStr);
    if decoded.None? {
      return [];
    }
    var data := decoded.value;
    if data.Dict? && HasKey(data.entries, "test_cases") {
      var l := Lookup(data.entries, "test_cases").value;
      cases := [];
      if l.List? {
        cases := CollectValid(l.items);
      }
    } else if data.Dict? && Valid(data) {
      cases := [Normalize(data.entries)];
    } else if data.List? {
      cases := CollectValid(data.items);
    } else {
      cases := [];
    }
  }

  /** Every case read from a list is in normal form. */
  lemma {:induction false} ValidCasesNormal(items: seq<Value>)
    ensures forall c :: c in ValidCases(items) ==> NormalForm(c)
    decreases |items|
  {
    if items != [] {
      ValidCasesNormal(items[..|items| - 1]);
      var last := items[|items| - 1];
      if Valid(last) {
        NormalizeIsNormal(last.entries);
      }
    }
  }

  /** Every case read from a document is in normal form. */
  lemma CasesNormal(data: Value)
    ensures forall c :: c in CasesOf(data) ==> NormalForm(c)
  {
    if data.Dict? && HasKey(data.entries, "test_cases") {
      var l := Lookup(data.entries, "test_cases").value;
      if l.List? {
        ValidCasesNormal(l.items);
      }
    } else if data.Dict? && Valid(data) {
      NormalizeIsNormal(data.entries);
    } else if data.List? {
      ValidCasesNormal(data.items);
    }
  }

  /** Reading a list of valid cases that normalisation leaves alone gives those cases, in order. */
  lemma {:induction false} ValidCasesFixed(ns: seq<Entries>)
    requires forall i :: 0 <= i < |ns| ==> Valid(Dict(ns[i])) && Normalize(ns[i]) == ns[i]
    ensures ValidCases(seq(|ns|, i requires 0 <= i < |ns| => Dict(ns[i]))) == ns
    decreases |ns|
  {
    var items := seq(|ns|, i requires 0 <= i < |ns| => Dict(ns[i]));
    if ns != [] {
      var init := ns[..|ns| - 1];
      ValidCasesFixed(init);
      assert items[..|items| - 1] == seq(|init|, i requires 0 <= i < |init| => Dict(init[i]));
      var last := items[|items| - 1];
      assert last == Dict(ns[|ns| - 1]);
      assert Valid(last) && Normalize(last.entries) == ns[|ns| - 1];
      assert ValidCases(items) == ValidCases(items[..|items| - 1]) + [Normalize(last.entries)];
      SplitLast(ns);
    }
  }

  // ---------------------------------------------------------------------------
  // Finding the JSON in the answer
  // ---------------------------------------------------------------------------

  /** The first fenced block that, stripped of surrounding whitespace, decodes. */
  function FirstDecodable(blocks: seq<string>, decode: Decoder): (r: Option<string>)
    ensures r.Some? ==> decode(r.value).Some?
    ensures r.Some? ==> exists i :: 0 <= i < |blocks| && r.value == Strip(blocks[i]) &&
                                   forall j :: 0 <= j < i ==> decode(Strip(blocks[j])).None?
    ensures r.None? <==> forall i :: 0 <= i < |blocks| ==> decode(Strip(blocks[i])).None?
  {
    if blocks == [] then None
    else if decode(Strip(blocks[0])).Some? then Some(Strip(blocks[0]))
    else
      var r := FirstDecodable(blocks[1..], decode);
      if r.Some? then
        var i :| 0 <= i < |blocks[1..]| && r.value == Strip(blocks[1..][i]) &&
                 forall j :: 0 <= j < i ==> decode(Strip(blocks[1..][j])).None?;
        assert r.value == Strip(blocks[i + 1]);
        assert forall j :: 0 <= j < i + 1 ==> decode(Strip(blocks[j])).None? by {
          forall j | 0 <= j < i + 1 ensures decode(Strip(blocks[j])).None? {
            if j > 0 { assert blocks[j] == blocks[1..][j - 1]; }
          }
        }
        r
      else
        assert forall i :: 0 <= i < |blocks| ==> decode(Strip(blocks[i])).None? by {
          forall i | 0 <= i < |blocks| ensures decode(Strip(blocks[i])).None? {
            if i > 0 { assert blocks[i] == blocks[1..][i - 1]; }
          }
        }
        None
  }

  /** Tries the fenced blocks in order and returns the first one that decodes. */
  method ExtractJsonFromMarkdown(blocks: seq<string>, decode: Decoder) returns (r: Option<string>)
    ensures r == FirstDecodable(blocks, decode)
  {
    var i := 0;
    while i < |blocks|
      invariant 0 <= i <= |blocks|
      invariant FirstDecodable(blocks, decode) == FirstDecodable(blocks[i..], decode)
    {
      var candidate := Strip(blocks[i]);
      if decode(candidate).Some? {
        return Some(candidate);
      }
      assert blocks[i..][1..] == blocks[i + 1..];
      i := i + 1;
    }
    return None;
  }

  /** How much one character changes the brace depth. */
  function Delta(c: char): int {
    if c == '{' then 1 else if c == '}' then -1 else 0
  }

  /** Opening braces minus closing braces in `s[lo..hi]`. */
  function Depth(s: string, lo: nat, hi: nat): int
    requires lo <= hi <= |s|
    decreases hi
  {
    if hi == lo then 0 else Depth(s, lo, hi - 1) + Delta(s[hi - 1])
  }

  /** Depth does not depend on where the counted range sits. */
  lemma {:induction false} DepthSlice(text: string, lo: nat, e: nat, m: nat)
    requires lo + m <= e <= |text|
    ensures Depth(text[lo..e], 0, m) == Depth(text, lo, lo + m)
  {
    if m > 0 {
      DepthSlice(text, lo, e, m - 1);
      assert text[lo..e][m - 1] == text[lo + m - 1];
    }
  }

  /** The first end `k >= e` at which `text[start..k]` is brace-balanced. */
  function FirstBalanced(text: string, start: nat, e: nat): (r: Option<nat>)
    requires start < e <= |text| + 1
    ensures r.Some? ==> e <= r.value <= |text| && Depth(text, start, r.value) == 0 &&
                        forall m :: e <= m < r.value ==> Depth(text, start, m) != 0
    ensures r.None? ==> forall m :: e <= m <= |text| ==> Depth(text, start, m) != 0
    decreases |text| + 1 - e
  {
    if e > |text| then None
    else if Depth(text, start, e) == 0 then Some(e)
    else FirstBalanced(text, start, e + 1)
  }

  /**
   * The block from the first `{` to the first point where the braces balance, when that
   * block decodes; nothing when there is no `{`, the braces never balance, or the block
   * does not decode (a later block is not tried).
   */
  function BraceBlock(text: string, decode: Decoder): Option<string> {
    match IndexOf(text, '{')
    case None => None
    case Some(start) =>
      match FirstBalanced(text, start, start + 1)
      case None => None
      case Some(e) => if decode(text[start..e]).Some? then Some(text[start..e]) else None
  }

  /** Scans from the first `{`, counting braces, and stops where the count returns to zero. */
  method ExtractJsonFromText(text: string, decode: Decoder) returns (r: Option<string>)
    ensures r == BraceBlock(text, decode)
  {
    var found := IndexOf(text, '{');
    if found.None? {
      return None;
    }
    var start := found.value;
    var braceCount := 0;
    var i := start;
    while i < |text|
      invariant start <= i <= |text|
      invariant braceCount == Depth(text, start, i)
      invariant i > start ==> braceCount > 0
      invariant FirstBalanced(text, start, start + 1) == FirstBalanced(text, start, i + 1)
    {
      if text[i] == '{' {
        braceCount := braceCount + 1;
      } else if text[i] == '}' {
        braceCount := braceCount - 1;
        if braceCount == 0 {
          var jsonStr := text[start..i + 1];
          if decode(jsonStr).Some? {
            return Some(jsonStr);
          }
          return None;
        }
      }
      i := i + 1;
    }
    return None;
  }

  /** Starting at a `{`, the depth stays positive until it first returns to zero. */
  lemma {:induction false} OpenUntilBalanced(text: string, start: nat, e: nat, k: nat)
    requires start < k < e <= |text| && text[start] == '{'
    requires forall m :: start < m < e ==> Depth(text, start, m) != 0
    ensures Depth(text, start, k) > 0
  {
    if k > start + 1 {
      OpenUntilBalanced(text, start, e, k - 1);
    }
  }

  /**
   * The block found in the text opens at the first `{`, closes with `}`, is balanced,
   * no shorter prefix of it is balanced, it is taken from the text with no `{` before it,
   * and it decodes.
   */
  lemma BraceBlockShape(text: string, decode: Decoder)
    requires BraceBlock(text, decode).Some?
    ensures var s := BraceBlock(text, decode).value;
      && |s| >= 2 && s[0] == '{' && s[|s| - 1] == '}'
      && (exists start: nat :: start + |s| <= |text| && text[start..start + |s|] == s && '{' !in text[..start])
      && Depth(s, 0, |s|) == 0
      && (forall m :: 0 < m < |s| ==> Depth(s, 0, m) > 0)
      && decode(s).Some?
  {
    var start := IndexOf(text, '{').value;
    var e := FirstBalanced(text, start, start + 1).value;
    var s := text[start..e];
    forall m | 0 < m < |s| ensures Depth(s, 0, m) > 0 {
      DepthSlice(text, start, e, m);
      OpenUntilBalanced(text, start, e, start + m);
    }
    DepthSlice(text, start, e, |s|);
    assert |s| >= 2;
    assert Depth(s, 0, |s|) == Depth(s, 0, |s| - 1) + Delta(s[|s| - 1]);
    assert text[start..start + |s|] == s;
  }

  // ---------------------------------------------------------------------------
  // The three strategies
  // ---------------------------------------------------------------------------

  /**
   * `parse_test_cases`: nothing for a blank answer; otherwise the cases of the first
   * decodable fenced block, else those of the whole answer, else those of the first
   * brace block, taking the first strategy that yields at least one case.
   */
  function Parsed(aiResponse: string, blocks: seq<string>, decode: Decoder): seq<Entries> {
    if IsBlank(aiResponse) then []
    else
      var fenced := FirstDecodable(blocks, decode);
      var first := if fenced.Some? && fenced.value != "" then ParseJson(fenced.value, decode) else [];
      if first != [] then first
      else
        var whole := ParseJson(aiResponse, decode);
        if whole != [] then whole
        else
          var braces := BraceBlock(aiResponse, decode);
          if braces.Some? && braces.value != "" then ParseJson(braces.value, decode) else []
  }

  /** Runs the strategies in order. */
  method ParseTestCases(aiResponse: string, blocks: seq<string>, decode: Decoder) returns (cases: seq<Entries>)
    ensures cases == Parsed(aiResponse, blocks, decode)
  {
    if IsBlank(aiResponse) {
      return [];
    }
    var jsonStr := ExtractJsonFromMarkdown(blocks, decode);
    if jsonStr.Some? && jsonStr.value != "" {
      cases := ParseJsonResponse(jsonStr.value, decode);
      if cases != [] {
        return;
      }
    }
    cases := ParseJsonResponse(aiResponse, decode);
    if cases != [] {
      return;
    }
    jsonStr := ExtractJsonFromText(aiResponse, decode);
    if jsonStr.Some? && jsonStr.value != "" {
      cases := ParseJsonResponse(jsonStr.value, decode);
      return;
    }
    return [];
  }

  /** Every case the parser returns is in normal form, whichever strategy found it. */
  lemma ParsedNormal(aiResponse: string, blocks: seq<string>, decode: Decoder)
    ensures forall c :: c in Parsed(aiResponse, blocks, decode) ==> NormalForm(c)
  {
    forall s: string ensures forall c :: c in ParseJson(s, decode) ==> NormalForm(c) {
      if decode(s).Some? {
        CasesNormal(decode(s).value);
      }
    }
  }

  /**
   * An answer that is exactly a `{"test_cases": [...]}` document of normalised cases
   * (no fenced block, no None scenario) parses back to those cases.
   */
  lemma ParseRoundTrip(aiResponse: string, decode: Decoder, tcs: seq<Entries>)
    requires !IsBlank(aiResponse) && tcs != []
    requires forall i :: 0 <= i < |tcs| ==> Lookup(tcs[i], "test_scenario") != Some(Null)
    requires decode(aiResponse) ==
             Some(Dict([("test_cases", List(seq(|tcs|, i requires 0 <= i < |tcs| => Dict(Normalize(tcs[i])))))]))
    ensures Parsed(aiResponse, [], decode) == seq(|tcs|, i requires 0 <= i < |tcs| => Normalize(tcs[i]))
  {
    var ns := seq(|tcs|, i requires 0 <= i < |tcs| => Normalize(tcs[i]));
    var items := seq(|ns|, i requires 0 <= i < |ns| => Dict(ns[i]));
    assert items == seq(|tcs|, i requires 0 <= i < |tcs| => Dict(Normalize(tcs[i])));
    var doc: Entries := [("test_cases", List(items))];
    assert HasKey(doc, "test_cases") by { assert doc[0].0 == "test_cases"; }
    forall i | 0 <= i < |ns|
      ensures Valid(Dict(ns[i])) && Normalize(ns[i]) == ns[i]
    {
      NormalizeIsNormal(tcs[i]);
      NormalizeIdempotentUnlessNullScenario(tcs[i]);
    }
    ValidCasesFixed(ns);
  }
}
