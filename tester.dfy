// Endpoint tester (apitest/tester.py): result aggregation, URL building with path
// parameters, the expected status code, request-body generation, `$ref` resolution and the
// pass/fail/warning verdict. HTTP traffic is an input: each request's outcome is given.

module Tester {
  import opened Wrappers
  import opened Json
  import opened Strings
  import SchemaParser
  import TestGenerator

  // ---------------------------------------------------------------------------
  // Results

  datatype TestStatus = Pass | Fail | Warning | Error

  datatype TestResult = TestResult(
    httpMethod: string,
    path: string,
    statusCode: int,
    expectedStatus: Option<int>,
    status: TestStatus,
    errorMessage: Option<string>,
    schemaMismatch: bool,
    schemaErrors: seq<string>,
    responseBody: Option<Value>,
    responseSizeBytes: nat)

  /** The results with one status, in their original order. */
  function WithStatus(rs: seq<TestResult>, st: TestStatus): (r: seq<TestResult>)
    ensures |r| <= |rs|
    ensures forall x :: x in r ==> x in rs && x.status == st
    ensures forall i :: 0 <= i < |rs| && rs[i].status == st ==> rs[i] in r
    ensures (forall i :: 0 <= i < |rs| ==> rs[i].status == st) ==> r == rs
  {
    if rs == [] then []
    else (if rs[0].status == st then [rs[0]] else []) + WithStatus(rs[1..], st)
  }

  /** Filtering distributes over concatenation, so appending a result only extends its own status list. */
  lemma {:induction false} WithStatusAppend(a: seq<TestResult>, b: seq<TestResult>, st: TestStatus)
    ensures WithStatus(a + b, st) == WithStatus(a, st) + WithStatus(b, st)
    decreases |a|
  {
    if a == [] {
      assert a + b == b;
    } else {
      assert (a + b)[1..] == a[1..] + b;
      WithStatusAppend(a[1..], b, st);
    }
  }

  /** Every result has exactly one of the four statuses, so the four lists together have all of them. */
  lemma {:induction false} StatusCountsSum(rs: seq<TestResult>)
    ensures |WithStatus(rs, Pass)| + |WithStatus(rs, Fail)| + |WithStatus(rs, Warning)| + |WithStatus(rs, Error)| == |rs|
    decreases |rs|
  {
    if rs != [] {
      StatusCountsSum(rs[1..]);
    }
  }

  class TestResults {
    var results: seq<TestResult>

    constructor ()
      ensures results == []
    {
      results := [];
    }

    /** `add_result`. */
    method AddResult(r: TestResult)
      modifies this
      ensures results == old(results) + [r]
    {
      results := results + [r];
    }

    function GetPassed(): seq<TestResult>
      reads this
    {
      WithStatus(results, Pass)
    }

    function GetFailed(): seq<TestResult>
      reads this
    {
      WithStatus(results, Fail)
    }

    function GetWarnings(): seq<TestResult>
      reads this
    {
      WithStatus(results, Warning)
    }

    function GetErrors(): seq<TestResult>
      reads this
    {
      WithStatus(results, Error)
    }

    /** `has_failures`: some result failed or errored; warnings do not count. */
    predicate HasFailures()
      reads this
      ensures HasFailures() <==> exists i :: 0 <= i < |results| && results[i].status in {Fail, Error}
    {
      var failed := GetFailed();
      var errors := GetErrors();
      assert (exists i :: 0 <= i < |results| && results[i].status == Fail) ==> |failed| > 0 by {
        if exists i :: 0 <= i < |results| && results[i].status == Fail {
          var i :| 0 <= i < |results| && results[i].status == Fail;
          assert results[i] in failed;
        }
      }
      assert (exists i :: 0 <= i < |results| && results[i].status == Error) ==> |errors| > 0 by {
        if exists i :: 0 <= i < |results| && results[i].status == Error {
          var i :| 0 <= i < |results| && results[i].status == Error;
          assert results[i] in errors;
        }
      }
      assert |failed| > 0 ==> failed[0] in results;
      assert |errors| > 0 ==> errors[0] in results;
      |failed| > 0 || |errors| > 0
    }

    /** `get_success_rate`: the percentage of passed results, 0 when there are none. */
    function GetSuccessRate(): (rate: real)
      reads this
      ensures results == [] ==> rate == 0.0
      ensures 0.0 <= rate <= 100.0
      ensures results != [] && (forall i :: 0 <= i < |results| ==> results[i].status == Pass) ==> rate == 100.0
    {
      if results == [] then 0.0
      else
        Percentage(|GetPassed()|, |results|);
        (|GetPassed()| as real / |results| as real) * 100.0
    }
  }

  /** A share of a total, as a percentage, lies between 0 and 100 and is 100 for the whole. */
  lemma Percentage(part: nat, total: nat)
    requires 0 < total && part <= total
    ensures 0.0 <= (part as real / total as real) * 100.0 <= 100.0
    ensures part == total ==> (part as real / total as real) * 100.0 == 100.0
  {
    var q := part as real / total as real;
    assert q * total as real == part as real;
    assert q <= 1.0 by {
      if q > 1.0 {
        assert q * total as real > 1.0 * total as real;
      }
    }
  }

  /** After `add_result`, the new result is at the end of the list for its status and no other list changes. */
  lemma AddedResultCounts(before: seq<TestResult>, r: TestResult, st: TestStatus)
    ensures WithStatus(before + [r], st) == WithStatus(before, st) + (if r.status == st then [r] else [])
  {
    WithStatusAppend(before, [r], st);
  }

  // ---------------------------------------------------------------------------
  // Base URL

  const DefaultBaseUrl := "http://localhost:8000"

  /**
   * `APITester.__init__`, lines 92-100: the base URL from the schema, or the local default
   * when that is empty or blank, with the schema's servers updated to show the default.
   * Err stands for an exception.
   */
  function Setup(schema: Entries): (r: Result<(string, Entries), ()>)
    ensures r.Ok? && r.value.0 != DefaultBaseUrl ==> r.value.1 == schema && !IsBlank(r.value.0)
    ensures r.Err? <==> (SchemaParser.GetBaseUrl(schema).None? ||
      (Truthy(SchemaParser.GetBaseUrl(schema).value) && !SchemaParser.GetBaseUrl(schema).value.Str?))
    ensures r.Ok? ==> (var b := SchemaParser.GetBaseUrl(schema).value;
      (!Truthy(b) || (b.Str? && IsBlank(b.s)) ==> r.value.0 == DefaultBaseUrl) &&
      (Truthy(b) && b.Str? && !IsBlank(b.s) ==> r.value == (b.s, schema)))
  {
    match SchemaParser.GetBaseUrl(schema)
    case None => Err(())
    case Some(base) =>
      if Truthy(base) && !base.Str? then Err(())
      else if Truthy(base) && !IsBlank(base.s) then Ok((base.s, schema))
      else
        var servers := GetOr(Dict(schema), "servers", Null);
        var serverDict := Dict([("url", Str(DefaultBaseUrl))]);
        if !Truthy(servers) then Ok((DefaultBaseUrl, Put(schema, "servers", List([serverDict]))))
        else if servers.List? && servers.items[0].Dict? then
          var first := Dict(Put(servers.items[0].entries, "url", Str(DefaultBaseUrl)));
          Ok((DefaultBaseUrl, Put(schema, "servers", List([first] + servers.items[1..]))))
        else Ok((DefaultBaseUrl, schema))
  }

  /**
   * When the servers section is absent, empty, or starts with a dict, the updated schema
   * yields the base URL the tester uses.
   */
  lemma SetupReflectsBaseUrl(schema: Entries)
    requires Setup(schema).Ok?
    requires var servers := GetOr(Dict(schema), "servers", Null);
      !Truthy(servers) || (servers.List? && servers.items[0].Dict?)
    ensures SchemaParser.GetBaseUrl(Setup(schema).value.1) == Some(Str(Setup(schema).value.0))
  {
    var servers := GetOr(Dict(schema), "servers", Null);
    var (base, updated) := Setup(schema).value;
    if base == DefaultBaseUrl && updated != schema {
      var s := GetOr(Dict(updated), "servers", Null);
      assert Lookup(updated, "servers") == Some(s);
      assert s.List? && s.items[0].Dict?;
      assert GetOr(s.items[0], "url", Str("")) == Str(DefaultBaseUrl);
    }
  }

  // ---------------------------------------------------------------------------
  // Path parameters

  /**
   * The names captured by `\{([^}]+)\}`, left to right: a '{', at least one character other
   * than '}', then a '}'.
   */
  function ParamNames(s: string): (names: seq<string>)
    ensures forall i :: 0 <= i < |names| ==> names[i] != "" && '}' !in names[i]
    decreases |s|
  {
    if s == [] then []
    else if s[0] == '{' then
      match IndexOf(s[1..], '}')
      case Some(j) =>
        if j > 0 then [s[1..1 + j]] + ParamNames(s[j + 2..]) else ParamNames(s[1..])
      case None => []
    else ParamNames(s[1..])
  }

  /** A path without '{' has no parameters. */
  lemma {:induction false} NoBraceNoParams(s: string)
    requires '{' !in s
    ensures ParamNames(s) == []
    decreases |s|
  {
    if s != [] {
      NoBraceNoParams(s[1..]);
    }
  }

  /** The value `_generate_path_param_value` picks from a parameter's schema type and format. */
  function TypedDefault(paramType: Value, paramFormat: Value): Value {
    if paramType == Str("integer") then Int(1)
    else if paramType == Str("number") then Float(1.0)
    else if paramFormat == Str("uuid") then Str("123e4567-e89b-12d3-a456-426614174000")
    else if paramFormat == Str("date") then Str("2024-01-01")
    else if paramFormat == Str("date-time") then Str("2024-01-01T00:00:00Z")
    else Str("test")
  }

  predicate IsPathParam(param: Value, name: string) {
    GetOr(param, "in", Null) == Str("path") && GetOr(param, "name", Null) == Str(name)
  }

  /** The scan over `parameters`; None stands for the AttributeError of a non-dict entry. */
  function ScanParameters(params: seq<Value>, name: string): (r: Option<Value>)
    decreases |params|
  {
    if params == [] then Some(Int(1))
    else if !params[0].Dict? then None
    else if IsPathParam(params[0], name) then
      var schema := GetOr(params[0], "schema", EmptyDict);
      if !schema.Dict? then None
      else Some(TypedDefault(GetOr(schema, "type", Str("string")), GetOr(schema, "format", Str(""))))
    else ScanParameters(params[1..], name)
  }

  /** The first parameter declared `in: path` with the name decides; later ones are never looked at. */
  lemma {:induction false} FirstPathParamDecides(before: seq<Value>, p: Value, after: seq<Value>, name: string)
    requires forall i :: 0 <= i < |before| ==> before[i].Dict? && !IsPathParam(before[i], name)
    requires p.Dict? && IsPathParam(p, name)
    requires GetOr(p, "schema", EmptyDict).Dict?
    ensures ScanParameters(before + [p] + after, name) ==
      Some(TypedDefault(GetOr(GetOr(p, "schema", EmptyDict), "type", Str("string")),
                        GetOr(GetOr(p, "schema", EmptyDict), "format", Str(""))))
    decreases |before|
  {
    if before != [] {
      assert (before + [p] + after)[1..] == before[1..] + [p] + after;
      FirstPathParamDecides(before[1..], p, after, name);
    }
  }

  /** Without a parameter declared `in: path` with the name, the value is 1. */
  lemma {:induction false} NoPathParamIsOne(params: seq<Value>, name: string)
    requires forall i :: 0 <= i < |params| ==> params[i].Dict? && !IsPathParam(params[i], name)
    ensures ScanParameters(params, name) == Some(Int(1))
    decreases |params|
  {
    if params != [] {
      NoPathParamIsOne(params[1..], name);
    }
  }

  /** `_generate_path_param_value`: 1 without an operation or a matching parameter. */
  function PathParamValue(name: string, operation: Value): (r: Option<Value>)
    ensures !Truthy(operation) ==> r == Some(Int(1))
  {
    if !Truthy(operation) then Some(Int(1))
    else
      match PyGet(operation, "parameters", List([]))
      case None => None
      case Some(parameters) =>
        match Iter(parameters)
        case None => None
        case Some(params) => ScanParameters(params, name)
  }

  /** The warning recorded for a generated value. */
  function WarningMessage(name: string, value: Value): string {
    "⚠ Using default path parameter: " + name + "=" + PyStr(value)
  }

  /**
   * The substitution loop of `_build_url` over `names`, from `path` and the warnings so far:
   * the path after substitution (None once a default cannot be computed) and the warnings.
   */
  function Substitute(path: string, names: seq<string>, params: map<string, Value>, operation: Value,
                      warnings: seq<string>): (Option<string>, seq<string>)
    decreases |names|
  {
    if names == [] then (Some(path), warnings)
    else
      var name := names[0];
      var value := if name in params then Some(params[name]) else PathParamValue(name, operation);
      if value.None? then (None, warnings)
      else
        var ws := if name in params || WarningMessage(name, value.value) in warnings then warnings
                  else warnings + [WarningMessage(name, value.value)];
        Substitute(ReplaceAll(path, "{" + name + "}", PyStr(value.value)), names[1..], params, operation, ws)
  }

  /** The substituted path does not depend on the warnings recorded so far. */
  lemma {:induction false} SubstitutePathOnly(path: string, names: seq<string>, params: map<string, Value>,
                                              operation: Value, w1: seq<string>, w2: seq<string>)
    ensures Substitute(path, names, params, operation, w1).0 == Substitute(path, names, params, operation, w2).0
    decreases |names|
  {
    if names != [] {
      var name := names[0];
      var value := if name in params then Some(params[name]) else PathParamValue(name, operation);
      if value.Some? {
        var next := ReplaceAll(path, "{" + name + "}", PyStr(value.value));
        var ws1 := if name in params || WarningMessage(name, value.value) in w1 then w1
                   else w1 + [WarningMessage(name, value.value)];
        var ws2 := if name in params || WarningMessage(name, value.value) in w2 then w2
                   else w2 + [WarningMessage(name, value.value)];
        SubstitutePathOnly(next, names[1..], params, operation, ws1, ws2);
      }
    }
  }

  predicate NoDuplicates(ws: seq<string>) {
    forall i, j :: 0 <= i < j < |ws| ==> ws[i] != ws[j]
  }

  /** Each warning message is recorded at most once, and earlier warnings stay in place. */
  lemma {:induction false} SubstituteWarnings(path: string, names: seq<string>, params: map<string, Value>,
                                              operation: Value, warnings: seq<string>)
    requires NoDuplicates(warnings)
    ensures var ws := Substitute(path, names, params, operation, warnings).1;
      NoDuplicates(ws) && |warnings| <= |ws| && ws[..|warnings|] == warnings
    decreases |names|
  {
    if names != [] {
      var name := names[0];
      var value := if name in params then Some(params[name]) else PathParamValue(name, operation);
      if value.Some? {
        var ws := if name in params || WarningMessage(name, value.value) in warnings then warnings
                  else warnings + [WarningMessage(name, value.value)];
        SubstituteWarnings(ReplaceAll(path, "{" + name + "}", PyStr(value.value)), names[1..], params, operation, ws);
        var final := Substitute(path, names, params, operation, warnings).1;
        assert final[..|ws|] == ws;
        assert final[..|warnings|] == ws[..|warnings|];
      }
    }
  }

  /** Every name supplied by the caller is substituted without a warning. */
  lemma {:induction false} SuppliedParamsNoWarning(path: string, names: seq<string>, params: map<string, Value>,
                                                   operation: Value, warnings: seq<string>)
    requires forall i :: 0 <= i < |names| ==> names[i] in params
    ensures Substitute(path, names, params, operation, warnings).1 == warnings
    ensures Substitute(path, names, params, operation, warnings).0.Some?
    decreases |names|
  {
    if names != [] {
      var name := names[0];
      SuppliedParamsNoWarning(ReplaceAll(path, "{" + name + "}", PyStr(params[name])), names[1..], params, operation, warnings);
    }
  }

  /** The URL `_build_url` returns for a substituted path. */
  function JoinUrl(base: string, path: string): (url: string)
    ensures StartsWith(url, RStrip(base, '/') + "/")
  {
    var prefix := RStrip(base, '/') + "/";
    assert (prefix + path)[..|prefix|] == prefix;
    prefix + path
  }

  // ---------------------------------------------------------------------------
  // Expected status code

  const SuccessCodes: seq<string> := ["200", "201", "202", "204"]

  /** The first of 200, 201, 202 and 204 present in `responses`; Err where `in` raises. */
  function FirstSuccessCode(responses: Value, codes: seq<string>): (r: Result<Option<string>, ()>)
    ensures r.Ok? && r.value.Some? ==> r.value.value in codes
    decreases |codes|
  {
    if codes == [] then Ok(None)
    else
      match PyIn(codes[0], responses)
      case None => Err(())
      case Some(found) => if found then Ok(Some(codes[0])) else FirstSuccessCode(responses, codes[1..])
  }

  /** For a dict of responses, the first listed success code present is the one found. */
  lemma {:induction false} FirstSuccessCodeDict(responses: Entries, codes: seq<string>, k: nat)
    requires k < |codes| && HasKey(responses, codes[k])
    requires forall j :: 0 <= j < k ==> !HasKey(responses, codes[j])
    ensures FirstSuccessCode(Dict(responses), codes) == Ok(Some(codes[k]))
    decreases k
  {
    if k > 0 {
      FirstSuccessCodeDict(responses, codes[1..], k - 1);
    }
  }

  /** No listed success code present in a dict: none is found. */
  lemma {:induction false} NoSuccessCodeDict(responses: Entries, codes: seq<string>)
    requires forall j :: 0 <= j < |codes| ==> !HasKey(responses, codes[j])
    ensures FirstSuccessCode(Dict(responses), codes) == Ok(None)
    decreases |codes|
  {
    if codes != [] {
      NoSuccessCodeDict(responses, codes[1..]);
    }
  }

  /**
   * `_get_expected_status_code`: the first success code present, else the first response
   * key when it is all digits, else None. Err stands for an exception.
   */
  function ExpectedStatusCode(operation: Value): (r: Result<Option<int>, ()>)
    ensures operation.Dict? && GetOr(operation, "responses", EmptyDict).Dict? ==> r.Ok?
  {
    match PyGet(operation, "responses", EmptyDict)
    case None => Err(())
    case Some(responses) =>
      match FirstSuccessCode(responses, SuccessCodes)
      case Err(_) => Err(())
      case Ok(Some(code)) =>
        assert IsDigits(code);
        Ok(Some(ParseNat(code)))
      case Ok(None) =>
        if !Truthy(responses) then Ok(None)
        else if !responses.Dict? then Err(())
        else if IsDigits(responses.entries[0].0) then Ok(Some(ParseNat(responses.entries[0].0)))
        else Ok(None)
  }

  /** A dict of responses with 200, 201, 202 or 204 expects the first of those present. */
  lemma ExpectedPrefersSuccess(operation: Entries, responses: Entries, k: nat)
    requires Lookup(operation, "responses") == Some(Dict(responses))
    requires k < |SuccessCodes| && HasKey(responses, SuccessCodes[k])
    requires forall j :: 0 <= j < k ==> !HasKey(responses, SuccessCodes[j])
    ensures ExpectedStatusCode(Dict(operation)) == Ok(Some(ParseNat(SuccessCodes[k])))
  {
    FirstSuccessCodeDict(responses, SuccessCodes, k);
  }

  /** Without a success code, the first response key is expected when it is all digits, else nothing. */
  lemma ExpectedFirstKey(operation: Entries, responses: Entries)
    requires Lookup(operation, "responses") == Some(Dict(responses))
    requires forall j :: 0 <= j < |SuccessCodes| ==> !HasKey(responses, SuccessCodes[j])
    ensures responses == [] ==> ExpectedStatusCode(Dict(operation)) == Ok(None)
    ensures responses != [] && IsDigits(responses[0].0) ==>
      ExpectedStatusCode(Dict(operation)) == Ok(Some(ParseNat(responses[0].0)))
    ensures responses != [] && !IsDigits(responses[0].0) ==> ExpectedStatusCode(Dict(operation)) == Ok(None)
  {
    NoSuccessCodeDict(responses, SuccessCodes);
  }

  // ---------------------------------------------------------------------------
  // $ref resolution

  const RefPrefix := "#/components/schemas/"

  /** All values present (None as soon as one is missing). */
  function AllSome(xs: seq<Option<Value>>): (r: Option<seq<Value>>)
    ensures r.Some? <==> forall i :: 0 <= i < |xs| ==> xs[i].Some?
    ensures r.Some? ==> |r.value| == |xs| && forall i :: 0 <= i < |xs| ==> r.value[i] == xs[i].value
  {
    if xs == [] then Some([])
    else if xs[0].None? then None
    else
      match AllSome(xs[1..])
      case None => None
      case Some(rest) => Some([xs[0].value] + rest)
  }

  /** The schema a reference names, when `components.schemas` has it; None stands for an exception. */
  function RefTarget(doc: Entries, ref: string): (r: Option<Option<Value>>)
    requires StartsWith(ref, RefPrefix)
  {
    var name := ReplaceAll(ref, RefPrefix, "");
    match PyGet(GetOr(Dict(doc), "components", EmptyDict), "schemas", EmptyDict)
    case None => None
    case Some(schemas) =>
      match PyIn(name, schemas)
      case None => None
      case Some(found) =>
        if !found then Some(None)
        else if schemas.Dict? then Some(Lookup(schemas.entries, name))
        else None
  }

  /**
   * `_resolve_schema_refs` over the document `doc`: a resolvable '#/components/schemas/X'
   * reference is replaced by X resolved in turn; every other dict is copied with its dict
   * values, and the dicts inside its list values, resolved. Following a reference costs one
   * unit of `fuel`; running out stands for the RecursionError of a reference cycle. None
   * stands for an exception.
   */
  function ResolveRefs(doc: Entries, v: Value, fuel: nat): (r: Option<Value>)
    decreases fuel, v
  {
    if !v.Dict? then Some(v)
    else
      var ref := Lookup(v.entries, "$ref");
      if ref.Some? && !ref.value.Str? then None
      else if ref.Some? && StartsWith(ref.value.s, RefPrefix) && RefTarget(doc, ref.value.s) != Some(None) then
        match RefTarget(doc, ref.value.s)
        case None => None
        case Some(target) =>
          if fuel == 0 then None else ResolveRefs(doc, target.value, fuel - 1)
      else
        var entries := v.entries;
        var resolved := seq(|entries|, i requires 0 <= i < |entries| =>
          var x := entries[i].1;
          if x.Dict? then ResolveRefs(doc, x, fuel)
          else if x.List? then
            match AllSome(seq(|x.items|, j requires 0 <= j < |x.items| => ResolveRefs(doc, x.items[j], fuel)))
            case None => None
            case Some(items) => Some(List(items))
          else Some(x));
        match AllSome(resolved)
        case None => None
        case Some(values) => Some(Dict(seq(|entries|, i requires 0 <= i < |entries| => (entries[i].0, values[i]))))
  }

  /** A schema with no '$ref' key anywhere in its dicts. */
  predicate RefFree(v: Value)
    decreases v
  {
    match v
    case Dict(entries) =>
      !HasKey(entries, "$ref") && forall i :: 0 <= i < |entries| ==> RefFree(entries[i].1)
    case List(items) => forall i :: 0 <= i < |items| ==> RefFree(items[i])
    case _ => true
  }

  /** Resolution gives back a schema without references unchanged, whatever the fuel. */
  lemma {:induction false} RefFreeUnchanged(doc: Entries, v: Value, fuel: nat)
    requires RefFree(v)
    ensures ResolveRefs(doc, v, fuel) == Some(v)
    decreases v
  {
    if v.Dict? {
      var entries := v.entries;
      assert Lookup(entries, "$ref").None?;
      forall i | 0 <= i < |entries|
        ensures entries[i].1.Dict? ==> ResolveRefs(doc, entries[i].1, fuel) == Some(entries[i].1)
        ensures entries[i].1.List? ==> forall j :: 0 <= j < |entries[i].1.items| ==>
          ResolveRefs(doc, entries[i].1.items[j], fuel) == Some(entries[i].1.items[j])
      {
        var x := entries[i].1;
        if x.Dict? {
          RefFreeUnchanged(doc, x, fuel);
        }
        if x.List? {
          forall j | 0 <= j < |x.items| ensures ResolveRefs(doc, x.items[j], fuel) == Some(x.items[j]) {
            RefFreeUnchanged(doc, x.items[j], fuel);
          }
        }
      }
      var resolved := seq(|entries|, i requires 0 <= i < |entries| =>
        var x := entries[i].1;
        if x.Dict? then ResolveRefs(doc, x, fuel)
        else if x.List? then
          match AllSome(seq(|x.items|, j requires 0 <= j < |x.items| => ResolveRefs(doc, x.items[j], fuel)))
          case None => None
          case Some(items) => Some(List(items))
        else Some(x));
      forall i | 0 <= i < |entries| ensures resolved[i] == Some(entries[i].1) {
        var x := entries[i].1;
        if x.List? {
          var inner := seq(|x.items|, j requires 0 <= j < |x.items| => ResolveRefs(doc, x.items[j], fuel));
          assert AllSome(inner).value == x.items;
        }
      }
      var values := AllSome(resolved).value;
      assert seq(|entries|, i requires 0 <= i < |entries| => (entries[i].0, values[i])) == entries;
    }
  }

  /** The schema `{"$ref": "#/components/schemas/<name>"}`. */
  function RefTo(name: string): Value {
    Dict([("$ref", Str(RefPrefix + name))])
  }

  /** A reference to a reference-free component schema is replaced by that schema. */
  lemma {:induction false} RefInlined(doc: Entries, name: string, target: Value, fuel: nat)
    requires !Contains(name, RefPrefix)
    requires var comps := GetOr(Dict(doc), "components", EmptyDict);
      comps.Dict? && GetOr(comps, "schemas", EmptyDict).Dict? &&
      Lookup(GetOr(comps, "schemas", EmptyDict).entries, name) == Some(target)
    requires RefFree(target) && fuel > 0
    ensures ResolveRefs(doc, RefTo(name), fuel) == Some(target)
  {
    RefTargetOfName(doc, name, target);
    SingleRefResolves(doc, name, target, fuel);
  }

  /** One step through a reference to a reference-free schema. */
  lemma {:induction false} SingleRefResolves(doc: Entries, name: string, target: Value, fuel: nat)
    requires StartsWith(RefPrefix + name, RefPrefix) && RefTarget(doc, RefPrefix + name) == Some(Some(target))
    requires fuel > 0 && RefFree(target)
    ensures ResolveRefs(doc, RefTo(name), fuel) == Some(target)
  {
    RefFreeUnchanged(doc, target, fuel - 1);
    SingleRefStep(doc, name, target, fuel);
  }

  /** `#/components/schemas/<name>` points at the component schema `name`. */
  lemma {:induction false} RefTargetOfName(doc: Entries, name: string, target: Value)
    requires !Contains(name, RefPrefix)
    requires var comps := GetOr(Dict(doc), "components", EmptyDict);
      comps.Dict? && GetOr(comps, "schemas", EmptyDict).Dict? &&
      Lookup(GetOr(comps, "schemas", EmptyDict).entries, name) == Some(target)
    ensures StartsWith(RefPrefix + name, RefPrefix) && RefTarget(doc, RefPrefix + name) == Some(Some(target))
  {
    var ref := RefPrefix + name;
    assert ref[..|RefPrefix|] == RefPrefix;
    ReplaceAbsent(name, RefPrefix, "");
    assert ReplaceAll(ref, RefPrefix, "") == name by {
      assert ref[|RefPrefix|..] == name;
    }
    var schemas := GetOr(GetOr(Dict(doc), "components", EmptyDict), "schemas", EmptyDict);
    assert HasKey(schemas.entries, name);
  }

  /** A dict holding only a reference that points at `target` resolves as `target` does, with one unit of fuel less. */
  lemma {:induction false} SingleRefStep(doc: Entries, name: string, target: Value, fuel: nat)
    requires StartsWith(RefPrefix + name, RefPrefix) && RefTarget(doc, RefPrefix + name) == Some(Some(target))
    ensures fuel == 0 ==> ResolveRefs(doc, RefTo(name), fuel) == None
    ensures fuel > 0 ==> ResolveRefs(doc, RefTo(name), fuel) == ResolveRefs(doc, target, fuel - 1)
  {
    assert Lookup(RefTo(name).entries, "$ref") == Some(Str(RefPrefix + name));
  }

  /** A component that refers to itself never resolves: the source recurses without end. */
  lemma {:induction false} SelfReferenceDiverges(doc: Entries, name: string, fuel: nat)
    requires !Contains(name, RefPrefix)
    requires var comps := GetOr(Dict(doc), "components", EmptyDict);
      comps.Dict? && GetOr(comps, "schemas", EmptyDict).Dict? &&
      Lookup(GetOr(comps, "schemas", EmptyDict).entries, name) == Some(RefTo(name))
    ensures ResolveRefs(doc, RefTo(name), fuel) == None
    decreases fuel
  {
    RefTargetOfName(doc, name, RefTo(name));
    SingleRefStep(doc, name, RefTo(name), fuel);
    if fuel > 0 {
      SelfReferenceDiverges(doc, name, fuel - 1);
    }
  }

  // ---------------------------------------------------------------------------
  // Requests and verdicts

  /** `headers.setdefault('Content-Type', 'application/json')` for methods that send a body. */
  function RequestHeaders(authHeaders: map<string, string>, httpMethod: string): (h: map<string, string>)
    ensures httpMethod in ["POST", "PUT", "PATCH"] ==>
      "Content-Type" in h && h == authHeaders["Content-Type" := h["Content-Type"]]
    ensures httpMethod in ["POST", "PUT", "PATCH"] && "Content-Type" in authHeaders ==> h == authHeaders
    ensures httpMethod !in ["POST", "PUT", "PATCH"] ==> h == authHeaders
  {
    if httpMethod in ["POST", "PUT", "PATCH"] && "Content-Type" !in authHeaders
    then authHeaders["Content-Type" := "application/json"]
    else authHeaders
  }

  /** The JSON body sent (Null for none); None stands for an exception while generating it. */
  function RequestJson(httpMethod: string, operation: Value): (r: Option<Value>)
    ensures httpMethod !in ["POST", "PUT", "PATCH"] ==> r == Some(Null)
    ensures operation.Dict? && !Truthy(GetOr(operation, "requestBody", EmptyDict)) ==> r == Some(Null)
    ensures r.Some? && r.value != Null ==> httpMethod in ["POST", "PUT", "PATCH"] && operation.Dict?
  {
    if httpMethod !in ["POST", "PUT", "PATCH"] then Some(Null)
    else
      match PyGet(operation, "requestBody", EmptyDict)
      case None => None
      case Some(body) => if Truthy(body) then TestGenerator.PlainTestData(body) else Some(Null)
  }

  /** A POST whose `requestBody` holds a list as its `content` raises while its body is generated. */
  lemma ListContentRaises()
    ensures RequestJson("POST", Dict([("requestBody", Dict([("content", List([]))]))])).None?
  {
    var body := Dict([("content", List([]))]);
    assert PyGet(Dict([("requestBody", body)]), "requestBody", EmptyDict) == Some(body);
  }

  /**
   * The result `run_tests` records for a case: the case's method and path, an error when the
   * request failed, and otherwise the status code received and a verdict other than error.
   */
  predicate ResultFor(c: TestCase, o: Outcome, res: TestResult) {
    && res.httpMethod == c.httpMethod && res.path == c.path
    && (!o.Response? ==> res.status == Error)
    && (o.Response? ==> res.statusCode == o.statusCode && res.status != Error)
  }

  /**
   * The default-parameter warnings the substitution loop records over `names`, which do not
   * depend on the path being rewritten: a missing name whose default cannot be computed stops
   * the loop.
   */
  function RecordWarnings(names: seq<string>, params: map<string, Value>, operation: Value,
                          warnings: seq<string>): seq<string>
    decreases |names|
  {
    if names == [] then warnings
    else
      var name := names[0];
      var value := if name in params then Some(params[name]) else PathParamValue(name, operation);
      if value.None? then warnings
      else if name in params || WarningMessage(name, value.value) in warnings then
        RecordWarnings(names[1..], params, operation, warnings)
      else RecordWarnings(names[1..], params, operation, warnings + [WarningMessage(name, value.value)])
  }

  /** The warnings `_build_url` records are those of the names alone, whatever the path. */
  lemma {:induction false} SubstituteRecords(path: string, names: seq<string>, params: map<string, Value>,
                                             operation: Value, warnings: seq<string>)
    ensures Substitute(path, names, params, operation, warnings).1 == RecordWarnings(names, params, operation, warnings)
    decreases |names|
  {
    if names != [] {
      var name := names[0];
      var value := if name in params then Some(params[name]) else PathParamValue(name, operation);
      if value.Some? {
        var ws := if name in params || WarningMessage(name, value.value) in warnings then warnings
                  else warnings + [WarningMessage(name, value.value)];
        SubstituteRecords(ReplaceAll(path, "{" + name + "}", PyStr(value.value)), names[1..], params, operation, ws);
      }
    }
  }

  /** The warnings recorded once the URL of a case has been built. */
  function WarningsAfter(c: TestCase, params: map<string, Value>, warnings: seq<string>): seq<string> {
    var p := LStrip(c.path, '/');
    RecordWarnings(ParamNames(p), params, c.operation, warnings)
  }

  /** Building a case's URL keeps the earlier warnings in place and records each message at most once. */
  lemma CaseWarningsOnce(c: TestCase, params: map<string, Value>, warnings: seq<string>)
    requires NoDuplicates(warnings)
    ensures var r := WarningsAfter(c, params, warnings);
      NoDuplicates(r) && |warnings| <= |r| && r[..|warnings|] == warnings
  {
    var p := LStrip(c.path, '/');
    SubstituteRecords(p, ParamNames(p), params, c.operation, warnings);
    SubstituteWarnings(p, ParamNames(p), params, c.operation, warnings);
  }

  /**
   * What `_test_endpoint` returns for a case, given what the request produced; None when it
   * raises before sending the request. The URL does not depend on the warnings recorded so far.
   */
  function CaseResult(c: TestCase, outcome: Outcome, base: string, params: map<string, Value>,
                      timeout: int): (r: Option<TestResult>)
    ensures r.None? <==> CaseRaises(c, params)
    ensures r.Some? ==> ResultFor(c, outcome, r.value)
  {
    var p := LStrip(c.path, '/');
    var sub := Substitute(p, ParamNames(p), params, c.operation, []).0;
    var expected := ExpectedStatusCode(c.operation);
    if sub.None? || expected.Err? || RequestJson(c.httpMethod, c.operation).None? then None
    else
      Some(EndpointResult(c.httpMethod, c.path, JoinUrl(base, sub.value), expected.value, c.operation, outcome, timeout))
  }

  /**
   * `_test_endpoint` raises before its `try`: the URL, the expected status code or the
   * request body cannot be computed for the case.
   */
  predicate CaseRaises(c: TestCase, params: map<string, Value>) {
    var p := LStrip(c.path, '/');
    Substitute(p, ParamNames(p), params, c.operation, []).0.None? ||
    ExpectedStatusCode(c.operation).Err? ||
    RequestJson(c.httpMethod, c.operation).None?
  }

  /**
   * What the request produced: a response (with the schema errors `jsonschema` would report
   * for its body) or one of the transport exceptions.
   */
  datatype Outcome =
    | Response(statusCode: int, contentType: string, body: Option<Value>, sizeBytes: nat, schemaErrors: seq<string>)
    | Timeout
    | ConnectionFailure(message: string)
    | OtherFailure(message: string)

  predicate JsonContentType(contentType: string) {
    Contains(contentType, "application/json") || Contains(contentType, "application/vnd.api+json")
  }

  /** The status code check applies when an expected code is known and is not 0. */
  predicate StatusMismatch(expected: Option<int>, statusCode: int) {
    expected.Some? && expected.value != 0 && statusCode != expected.value
  }

  /** The schema check applies to responses below 400, with responses declared, that are JSON. */
  predicate SchemaChecked(operation: Value, statusCode: int, contentType: string) {
    statusCode < 400 && Truthy(GetOr(operation, "responses", Null)) && JsonContentType(Lower(contentType))
  }

  function ConnectionMessage(message: string, url: string): string {
    if Contains(message, "Failed to resolve") || Contains(message, "Name or service not known")
    then "Cannot connect to " + url + ". Check if the server is running and the base URL is correct."
    else message
  }

  /** The verdict part of `_test_endpoint`. */
  function EndpointResult(httpMethod: string, path: string, url: string, expected: Option<int>, operation: Value,
                          outcome: Outcome, timeout: int): (r: TestResult)
    ensures r.httpMethod == httpMethod && r.path == path
    ensures !outcome.Response? ==> r.status == Error && r.statusCode == 0 && r.errorMessage.Some?
    ensures outcome.Response? ==> r.statusCode == outcome.statusCode && r.status != Error
    ensures outcome.Response? ==> (r.status == Fail <==> StatusMismatch(expected, outcome.statusCode))
    ensures outcome.Response? ==>
      (r.status == Warning <==>
        !StatusMismatch(expected, outcome.statusCode) &&
        SchemaChecked(operation, outcome.statusCode, outcome.contentType) && outcome.schemaErrors != [])
    ensures outcome.Response? ==> (r.schemaMismatch <==>
      SchemaChecked(operation, outcome.statusCode, outcome.contentType) && outcome.schemaErrors != [])
  {
    match outcome
    case Response(code, contentType, body, size, errors) =>
      var mismatch := StatusMismatch(expected, code);
      var status := if mismatch then Fail else Pass;
      var message := if mismatch then Some("Expected " + IntText(expected.value) + ", got " + IntText(code)) else None;
      var schemaErrors := if SchemaChecked(operation, code, contentType) then errors else [];
      var finalStatus := if schemaErrors != [] && status == Pass then Warning else status;
      TestResult(httpMethod, path, code, expected, finalStatus, message, schemaErrors != [], schemaErrors, body, size)
    case Timeout =>
      TestResult(httpMethod, path, 0, None, Error,
                 Some("Request timeout after " + IntText(timeout) + "s (try increasing with --timeout)"),
                 false, [], None, 0)
    case ConnectionFailure(message) =>
      TestResult(httpMethod, path, 0, None, Error, Some("Connection error: " + ConnectionMessage(message, url)),
                 false, [], None, 0)
    case OtherFailure(message) =>
      TestResult(httpMethod, path, 0, None, Error,
                 Some("Unexpected error: " + message + ". Run with --verbose for details."), false, [], None, 0)
  }

  // ---------------------------------------------------------------------------
  // Test cases

  const HttpMethods: seq<string> := ["get", "post", "put", "delete", "patch", "head", "options"]

  datatype TestCase = TestCase(httpMethod: string, path: string, operation: Value)

  /** The cases one path item contributes, for the listed methods in their order. */
  function MethodCases(path: string, item: Entries, methods: seq<string>): (cases: seq<TestCase>)
    ensures |cases| <= |methods|
    ensures forall c :: c in cases ==>
      c.path == path && exists m :: m in methods && HasKey(item, m) && c.httpMethod == Upper(m) && c.operation == Lookup(item, m).value
    decreases |methods|
  {
    if methods == [] then []
    else
      var m := methods[|methods| - 1];
      MethodCases(path, item, methods[..|methods| - 1])
        + (if HasKey(item, m) then [TestCase(Upper(m), path, Lookup(item, m).value)] else [])
  }

  /** The cases `run_tests` collects: each dict path item, in order, for each HTTP method it has. */
  function TestCases(paths: Entries): (cases: seq<TestCase>)
    ensures |cases| <= |HttpMethods| * |paths|
    ensures forall c :: c in cases ==> HasKey(paths, c.path)
    decreases |paths|
  {
    if paths == [] then []
    else
      var last := paths[|paths| - 1];
      var before := TestCases(paths[..|paths| - 1]);
      var own := if last.1.Dict? then MethodCases(last.0, last.1.entries, HttpMethods) else [];
      assert forall c :: c in before ==> HasKey(paths, c.path) by {
        forall c | c in before ensures HasKey(paths, c.path) {
          HasKeyInit(paths, c.path);
        }
      }
      assert forall c :: c in own ==> c.path == last.0;
      before + own
  }

  /** `run_tests`, lines 121-129: collect the (method, path, operation) triples. */
  method CollectTestCases(paths: Entries) returns (cases: seq<TestCase>)
    ensures cases == TestCases(paths)
  {
    cases := [];
    var i := 0;
    while i < |paths|
      invariant 0 <= i <= |paths|
      invariant cases == TestCases(paths[..i])
    {
      var (path, item) := paths[i];
      if item.Dict? {
        var k := 0;
        var own := [];
        while k < |HttpMethods|
          invariant 0 <= k <= |HttpMethods|
          invariant own == MethodCases(path, item.entries, HttpMethods[..k])
        {
          var m := HttpMethods[k];
          if HasKey(item.entries, m) {
            own := own + [TestCase(Upper(m), path, Lookup(item.entries, m).value)];
          }
          assert HttpMethods[..k + 1][..k] == HttpMethods[..k];
          k := k + 1;
        }
        assert HttpMethods[..k] == HttpMethods;
        cases := cases + own;
      }
      assert paths[..i + 1][..i] == paths[..i];
      i := i + 1;
    }
    assert paths[..i] == paths;
  }

  /** `rs` are the results of the first `|rs|` cases, in order. */
  predicate RanAs(cases: seq<TestCase>, outcomes: seq<Outcome>, base: string, params: map<string, Value>,
                  timeout: int, rs: seq<TestResult>)
    requires |outcomes| == |cases|
  {
    |rs| <= |cases| && forall j :: 0 <= j < |rs| ==> CaseResult(cases[j], outcomes[j], base, params, timeout) == Some(rs[j])
  }

  /** One more case that does not raise extends the results by its own. */
  lemma RanAsStep(cases: seq<TestCase>, outcomes: seq<Outcome>, base: string, params: map<string, Value>,
                  timeout: int, rs: seq<TestResult>, res: TestResult)
    requires |outcomes| == |cases| && |rs| < |cases| && RanAs(cases, outcomes, base, params, timeout, rs)
    requires CaseResult(cases[|rs|], outcomes[|rs|], base, params, timeout) == Some(res)
    ensures RanAs(cases, outcomes, base, params, timeout, rs + [res])
  {
    var next := rs + [res];
    forall j | 0 <= j < |next| ensures CaseResult(cases[j], outcomes[j], base, params, timeout) == Some(next[j]) {
      if j < |rs| {
        assert next[j] == rs[j];
      }
    }
  }

  /** Once every case has its result, no case raised and each result is for its case. */
  lemma RanAsAll(cases: seq<TestCase>, outcomes: seq<Outcome>, base: string, params: map<string, Value>,
                 timeout: int, rs: seq<TestResult>)
    requires |outcomes| == |cases| && |rs| == |cases| && RanAs(cases, outcomes, base, params, timeout, rs)
    ensures !exists i :: 0 <= i < |cases| && CaseRaises(cases[i], params)
    ensures forall i :: 0 <= i < |cases| ==> ResultFor(cases[i], outcomes[i], rs[i])
  {
    forall i | 0 <= i < |cases| ensures !CaseRaises(cases[i], params) && ResultFor(cases[i], outcomes[i], rs[i]) {
      assert CaseResult(cases[i], outcomes[i], base, params, timeout) == Some(rs[i]);
    }
  }

  // ---------------------------------------------------------------------------
  // The tester

  class APITester {
    var baseUrl: string
    var schema: Entries
    var pathParams: map<string, Value>
    /** `default_path_param_warnings`. */
    var warnings: seq<string>
    const timeout: int

    constructor (baseUrl: string, schema: Entries, pathParams: map<string, Value>, timeout: int)
      ensures this.baseUrl == baseUrl && this.schema == schema && this.pathParams == pathParams
      ensures this.timeout == timeout && warnings == []
    {
      this.baseUrl := baseUrl;
      this.schema := schema;
      this.pathParams := pathParams;
      this.timeout := timeout;
      warnings := [];
    }

    /**
     * `_build_url`: each parameter of the path is replaced by the caller's value or a
     * generated default, whose warning is recorded once. None stands for an exception.
     */
    method BuildUrl(path: string, operation: Value) returns (url: Option<string>)
      modifies this
      ensures baseUrl == old(baseUrl) && schema == old(schema) && pathParams == old(pathParams)
      ensures var p := LStrip(path, '/');
        var (sub, ws) := Substitute(p, ParamNames(p), pathParams, operation, old(warnings));
        warnings == ws && url == (if sub.Some? then Some(JoinUrl(baseUrl, sub.value)) else None)
    {
      var p := LStrip(path, '/');
      var names := ParamNames(p);
      var current := p;
      var i := 0;
      while i < |names|
        invariant 0 <= i <= |names|
        invariant baseUrl == old(baseUrl) && schema == old(schema) && pathParams == old(pathParams)
        invariant Substitute(p, names, pathParams, operation, old(warnings))
               == Substitute(current, names[i..], pathParams, operation, warnings)
      {
        var name := names[i];
        assert names[i..][0] == name && names[i..][1..] == names[i + 1..];
        ghost var before := (current, warnings);
        var value: Value;
        if name in pathParams {
          value := pathParams[name];
        } else {
          var generated := PathParamValue(name, operation);
          if generated.None? {
            assert Substitute(current, names[i..], pathParams, operation, warnings) == (None, warnings);
            return None;
          }
          value := generated.value;
          var message := WarningMessage(name, value);
          if message !in warnings {
            warnings := warnings + [message];
          }
        }
        current := ReplaceAll(current, "{" + name + "}", PyStr(value));
        assert Substitute(before.0, names[i..], pathParams, operation, before.1)
            == Substitute(current, names[i + 1..], pathParams, operation, warnings);
        i := i + 1;
      }
      assert names[i..] == [];
      return Some(JoinUrl(baseUrl, current));
    }

    /**
     * `_test_endpoint` for one case, given what its request produced. None stands for an
     * exception raised before the request is sent; otherwise the result built from the URL,
     * the expected status code and the outcome.
     */
    method TestEndpoint(c: TestCase, outcome: Outcome) returns (r: Option<TestResult>)
      modifies this
      ensures baseUrl == old(baseUrl) && schema == old(schema) && pathParams == old(pathParams)
      ensures r.None? <==> CaseRaises(c, pathParams)
      ensures warnings == WarningsAfter(c, pathParams, old(warnings))
      ensures r == CaseResult(c, outcome, baseUrl, pathParams, timeout)
      ensures r.Some? ==> ResultFor(c, outcome, r.value)
    {
      ghost var p := LStrip(c.path, '/');
      SubstituteRecords(p, ParamNames(p), pathParams, c.operation, warnings);
      SubstitutePathOnly(p, ParamNames(p), pathParams, c.operation, warnings, []);
      var url := BuildUrl(c.path, c.operation);
      if url.None? {
        return None;
      }
      var expected := ExpectedStatusCode(c.operation);
      if expected.Err? {
        return None;
      }
      var body := RequestJson(c.httpMethod, c.operation);
      if body.None? {
        return None;
      }
      return Some(EndpointResult(c.httpMethod, c.path, url.value, expected.value, c.operation, outcome, timeout));
    }

    /**
     * `run_tests` run sequentially, given what each request produced: one result per case,
     * in order. None stands for an exception out of URL building, status-code lookup or
     * request-body generation, none of which `run_tests` catches.
     */
    method RunTests(cases: seq<TestCase>, outcomes: seq<Outcome>) returns (r: Option<TestResults>)
      requires |outcomes| == |cases|
      modifies this
      ensures baseUrl == old(baseUrl) && schema == old(schema) && pathParams == old(pathParams)
      ensures r.None? <==> exists i :: 0 <= i < |cases| && CaseRaises(cases[i], pathParams)
      ensures r.Some? ==> fresh(r.value) && |r.value.results| == |cases|
      ensures r.Some? ==> forall i :: 0 <= i < |cases| ==> ResultFor(cases[i], outcomes[i], r.value.results[i])
      ensures r.Some? ==> RanAs(cases, outcomes, baseUrl, pathParams, timeout, r.value.results)
    {
      var rs: seq<TestResult> := [];
      var i := 0;
      while i < |cases|
        invariant 0 <= i <= |cases|
        invariant |rs| == i
        invariant baseUrl == old(baseUrl) && schema == old(schema) && pathParams == old(pathParams)
        invariant RanAs(cases, outcomes, baseUrl, pathParams, timeout, rs)
      {
        var res := TestEndpoint(cases[i], outcomes[i]);
        if res.None? {
          assert CaseRaises(cases[i], pathParams);
          return None;
        }
        RanAsStep(cases, outcomes, baseUrl, pathParams, timeout, rs, res.value);
        rs := rs + [res.value];
        i := i + 1;
      }
      RanAsAll(cases, outcomes, baseUrl, pathParams, timeout, rs);
      var results := new TestResults();
      results.results := rs;
      return Some(results);
    }
  }

  /** A path without parameters is joined to the base unchanged and records no warning. */
  lemma PlainPathUrl(base: string, path: string, params: map<string, Value>, operation: Value, warnings: seq<string>)
    requires '{' !in LStrip(path, '/')
    ensures var p := LStrip(path, '/');
      Substitute(p, ParamNames(p), params, operation, warnings) == (Some(p), warnings)
  {
    NoBraceNoParams(LStrip(path, '/'));
  }

  /** A path with one placeholder, and no other `{`, has exactly that parameter name. */
  lemma {:induction false} OneParamName(prefix: string, name: string, suffix: string)
    requires '{' !in prefix && '{' !in suffix && name != "" && '}' !in name
    ensures ParamNames(prefix + "{" + name + "}" + suffix) == [name]
    decreases |prefix|
  {
    var s := prefix + "{" + name + "}" + suffix;
    if prefix == [] {
      var t := name + "}" + suffix;
      assert s == "{" + t && s[1..] == t;
      var j := IndexOf(t, '}');
      assert t[|name|] == '}';
      assert j == Some(|name|);
      assert s[1..1 + |name|] == name;
      assert s[|name| + 2..] == suffix;
      NoBraceNoParams(suffix);
    } else {
      assert s[1..] == prefix[1..] + "{" + name + "}" + suffix;
      OneParamName(prefix[1..], name, suffix);
    }
  }

  /** A leading character other than the pattern's first is kept. */
  lemma ReplaceSkip(c: char, rest: string, pat: string, rep: string)
    requires pat != "" && c != pat[0]
    ensures ReplaceAll([c] + rest, pat, rep) == [c] + ReplaceAll(rest, pat, rep)
  {
    if |rest| + 1 >= |pat| {
      assert ([c] + rest)[..|pat|][0] == c;
    }
    assert ([c] + rest)[1..] == rest;
  }

  /** A placeholder after text that cannot start it is replaced, and the text on both sides kept. */
  lemma {:induction false} ReplacePlainPrefixSuffix(prefix: string, pat: string, suffix: string, rep: string)
    requires pat != "" && forall i :: 0 <= i < |prefix| ==> prefix[i] != pat[0]
    requires pat[0] !in suffix
    ensures ReplaceAll(prefix + pat + suffix, pat, rep) == prefix + rep + suffix
    decreases |prefix|
  {
    if prefix == [] {
      var s := pat + suffix;
      assert s[..|pat|] == pat && s[|pat|..] == suffix;
      assert !Contains(suffix, pat) by {
        forall i | 0 <= i <= |suffix| - |pat| ensures !StartsWith(suffix[i..], pat) {
          assert suffix[i..][0] == suffix[i];
        }
      }
      ReplaceAbsent(suffix, pat, rep);
      assert prefix + pat + suffix == s && prefix + rep + suffix == rep + suffix;
    } else {
      ReplaceSkip(prefix[0], prefix[1..] + pat + suffix, pat, rep);
      assert [prefix[0]] + (prefix[1..] + pat + suffix) == prefix + pat + suffix;
      ReplacePlainPrefixSuffix(prefix[1..], pat, suffix, rep);
      assert [prefix[0]] + (prefix[1..] + rep + suffix) == prefix + rep + suffix;
    }
  }

  /** The path after replacing each name's placeholder by the caller's value, in order. */
  function ReplaceEach(path: string, names: seq<string>, params: map<string, Value>): string
    requires forall i :: 0 <= i < |names| ==> names[i] in params
    decreases |names|
  {
    if names == [] then path
    else ReplaceEach(ReplaceAll(path, "{" + names[0] + "}", PyStr(params[names[0]])), names[1..], params)
  }

  /**
   * When the caller supplies every parameter, the URL cannot fail and no warning is recorded:
   * each placeholder is replaced by the supplied value, in order.
   */
  lemma {:induction false} SuppliedNoWarnings(path: string, names: seq<string>, params: map<string, Value>,
                                              operation: Value, warnings: seq<string>)
    requires forall i :: 0 <= i < |names| ==> names[i] in params
    ensures Substitute(path, names, params, operation, warnings) == (Some(ReplaceEach(path, names, params)), warnings)
    decreases |names|
  {
    if names != [] {
      SuppliedNoWarnings(ReplaceAll(path, "{" + names[0] + "}", PyStr(params[names[0]])), names[1..], params, operation, warnings);
    }
  }

  /**
   * A path with one placeholder whose value the caller supplies becomes the path with that
   * value in its place, and records no warning.
   */
  lemma OneSuppliedParam(prefix: string, name: string, suffix: string, params: map<string, Value>,
                         operation: Value, warnings: seq<string>)
    requires '{' !in prefix && '{' !in suffix && name != "" && '}' !in name && name in params
    ensures var p := prefix + "{" + name + "}" + suffix;
      Substitute(p, ParamNames(p), params, operation, warnings) == (Some(prefix + PyStr(params[name]) + suffix), warnings)
  {
    var p := prefix + "{" + name + "}" + suffix;
    OneParamName(prefix, name, suffix);
    SuppliedNoWarnings(p, [name], params, operation, warnings);
    assert p == prefix + ("{" + name + "}") + suffix;
    ReplacePlainPrefixSuffix(prefix, "{" + name + "}", suffix, PyStr(params[name]));
  }

  /** A supplied value replaces its placeholder: '/users/{id}' with id = '42' becomes 'users/42'. */
  lemma SuppliedParamExample(operation: Value, warnings: seq<string>)
    ensures var p := LStrip("/users/{id}", '/');
      Substitute(p, ParamNames(p), map["id" := Str("42")], operation, warnings) == (Some("users/42"), warnings)
  {
    var params := map["id" := Str("42")];
    var p := LStrip("/users/{id}", '/');
    assert "/users/{id}"[1..] == "users/{id}";
    assert p == "users/{id}";
    assert p == "users/" + "{" + "id" + "}" + "";
    OneSuppliedParam("users/", "id", "", params, operation, warnings);
    assert PyStr(params["id"]) == "42";
    assert "users/" + "42" + "" == "users/42";
  }

}
