/**
 * The context handed to the AI test generator (apitest/ai/context_builder.py): the endpoint's
 * details from the schema, a summary of its recent test history, validated example test cases
 * and the most effective learned patterns, cached per schema file, method and path.
 *
 * The rows the store returns are parameters (None stands for a query that raised), and so is
 * the clock.
 */
module ContextBuilder {
  import opened Wrappers
  import opened Json
  import opened Strings
  import opened Sorting

  // ---------------------------------------------------------------------------
  // Endpoint details
  // ---------------------------------------------------------------------------

  /** `v.get('content', {})`. */
  function ContentOf(v: Value): Value {
    GetOr(v, "content", EmptyDict)
  }

  /**
   * `content[list(content.keys())[0]].get('schema', {})` for a truthy `content`; None stands
   * for the AttributeError of a content or media type that is not a dict.
   */
  function FirstSchema(content: Value): Option<Value> {
    if content.Dict? && content.entries != [] && content.entries[0].1.Dict?
    then Some(GetOr(content.entries[0].1, "schema", EmptyDict))
    else None
  }

  /** `request_schema`: the schema of the first content type of a truthy request body, else `{}`. */
  function RequestSchema(body: Value): Option<Value> {
    if !Truthy(body) then Some(EmptyDict)
    else if !body.Dict? then None
    else if !Truthy(ContentOf(body)) then Some(EmptyDict)
    else FirstSchema(ContentOf(body))
  }

  /** A response that declares content, and so gets an entry in `response_schemas`. */
  predicate Declares(response: Value) {
    Truthy(ContentOf(response))
  }

  /**
   * `response_schemas`, built entry by entry over the responses; None stands for a response
   * (or its media type) that is not a dict.
   */
  function SchemasOf(responses: Entries): (r: Option<Entries>)
    ensures r.Some? ==> forall k :: HasKey(r.value, k) ==> HasKey(responses, k)
    decreases |responses|
  {
    if responses == [] then Some([])
    else
      var n := |responses| - 1;
      var init := SchemasOf(responses[..n]);
      var response := responses[n].1;
      if init.None? || !response.Dict? then None
      else if !Declares(response) then
        assert forall k :: HasKey(responses[..n], k) ==> HasKey(responses, k) by {
          forall k | HasKey(responses[..n], k) ensures HasKey(responses, k) {
            var i :| 0 <= i < n && responses[..n][i].0 == k;
            assert responses[i].0 == k;
          }
        }
        init
      else
        match FirstSchema(ContentOf(response))
        case None => None
        case Some(schema) =>
          assert HasKey(responses, responses[n].0);
          assert forall k :: HasKey(responses[..n], k) ==> HasKey(responses, k) by {
            forall k | HasKey(responses[..n], k) ensures HasKey(responses, k) {
              var i :| 0 <= i < n && responses[..n][i].0 == k;
              assert responses[i].0 == k;
            }
          }
          forall k | HasKey(Put(init.value, responses[n].0, schema), k) ensures HasKey(responses, k) {
            PutHasKey(init.value, responses[n].0, schema, k);
          }
          Some(Put(init.value, responses[n].0, schema))
  }

  /**
   * In a dict of responses, a status code has a response schema exactly when its response
   * declares content, and that schema is the one of its first content type.
   */
  lemma {:induction false} SchemasOfLookup(responses: Entries)
    requires UniqueKeys(responses) && SchemasOf(responses).Some?
    ensures forall i :: 0 <= i < |responses| ==>
      Lookup(SchemasOf(responses).value, responses[i].0) ==
        (if Declares(responses[i].1) then FirstSchema(ContentOf(responses[i].1)) else None)
    decreases |responses|
  {
    if responses != [] {
      var n := |responses| - 1;
      var init := responses[..n];
      assert UniqueKeys(init) by {
        forall i, j | 0 <= i < j < n ensures init[i].0 != init[j].0 {
          assert init[i] == responses[i] && init[j] == responses[j];
        }
      }
      SchemasOfLookup(init);
      var acc := SchemasOf(init).value;
      var r := SchemasOf(responses).value;
      var (status, response) := responses[n];
      assert !HasKey(init, status) by {
        forall i | 0 <= i < n ensures init[i].0 != status {
          assert init[i] == responses[i];
        }
      }
      forall i | 0 <= i < |responses|
        ensures Lookup(r, responses[i].0) ==
          (if Declares(responses[i].1) then FirstSchema(ContentOf(responses[i].1)) else None)
      {
        if i < n {
          assert init[i] == responses[i];
          assert responses[i].0 != status;
        }
      }
    }
  }

  /** The operation object: `schema.get('paths', {}).get(path, {}).get(method.lower(), {})`. */
  function Operation(schema: Value, httpMethod: string, path: string): Option<Value> {
    if !schema.Dict? then None
    else
      var paths := GetOr(schema, "paths", EmptyDict);
      if !paths.Dict? then None
      else
        var item := GetOr(paths, path, EmptyDict);
        if !item.Dict? then None
        else
          var operation := GetOr(item, Lower(httpMethod), EmptyDict);
          if operation.Dict? then Some(operation) else None
  }

  /** The fields copied from the operation, with their defaults. */
  function OperationFields(httpMethod: string, path: string, operation: Value): Entries {
    [("method", Str(Upper(httpMethod))),
     ("path", Str(path)),
     ("summary", GetOr(operation, "summary", Str(""))),
     ("description", GetOr(operation, "description", Str(""))),
     ("operation_id", GetOr(operation, "operationId", Str(""))),
     ("tags", GetOr(operation, "tags", List([]))),
     ("parameters", GetOr(operation, "parameters", List([]))),
     ("request_body", GetOr(operation, "requestBody", EmptyDict)),
     ("responses", GetOr(operation, "responses", EmptyDict)),
     ("security", GetOr(operation, "security", List([])))]
  }

  /** The endpoint dict starts with the method and the path and has its twelve keys in order. */
  lemma EndpointEntries(httpMethod: string, path: string, operation: Value, requestSchema: Value, responseSchemas: Value)
    ensures var info := OperationFields(httpMethod, path, operation) +
                        [("request_schema", requestSchema), ("response_schemas", responseSchemas)];
      Lookup(info, "method") == Some(Str(Upper(httpMethod))) &&
      Lookup(info, "path") == Some(Str(path)) &&
      Keys(info) ==
      ["method", "path", "summary", "description", "operation_id", "tags", "parameters",
       "request_body", "responses", "security", "request_schema", "response_schemas"]
  {
    var info := OperationFields(httpMethod, path, operation) +
                [("request_schema", requestSchema), ("response_schemas", responseSchemas)];
    var want := ["method", "path", "summary", "description", "operation_id", "tags", "parameters",
                 "request_body", "responses", "security", "request_schema", "response_schemas"];
    assert |info| == 12 && info[0].0 == "method" && info[1] == ("path", Str(path));
    assert forall i :: 0 <= i < 12 ==> Keys(info)[i] == want[i];
  }

  /**
   * `_extract_endpoint_info`: the operation's fields, the request schema and the response
   * schemas. None stands for the AttributeError raised on a part of the schema that is not a dict.
   */
  function EndpointInfo(schema: Value, httpMethod: string, path: string): (r: Option<Entries>)
    ensures r.Some? ==> Lookup(r.value, "method") == Some(Str(Upper(httpMethod)))
    ensures r.Some? ==> Lookup(r.value, "path") == Some(Str(path))
    ensures r.Some? ==>
      (Keys(r.value) ==
       ["method", "path", "summary", "description", "operation_id", "tags", "parameters",
        "request_body", "responses", "security", "request_schema", "response_schemas"])
  {
    match Operation(schema, httpMethod, path)
    case None => None
    case Some(operation) =>
      var responses := GetOr(operation, "responses", EmptyDict);
      var request := RequestSchema(GetOr(operation, "requestBody", EmptyDict));
      var schemas := if responses.Dict? then SchemasOf(responses.entries) else None;
      if request.None? || schemas.None? then None
      else
        EndpointEntries(httpMethod, path, operation, request.value, Dict(schemas.value));
        Some(OperationFields(httpMethod, path, operation) +
                [("request_schema", request.value), ("response_schemas", Dict(schemas.value))])
  }

  /** The path is missing from the schema, or the method from the path. */
  predicate Undocumented(schema: Value, httpMethod: string, path: string) {
    schema.Dict? &&
    var paths := GetOr(schema, "paths", EmptyDict);
    paths.Dict? &&
    (!HasKey(paths.entries, path) ||
     var item := GetOr(paths, path, EmptyDict);
     item.Dict? && !HasKey(item.entries, Lower(httpMethod)))
  }

  /** An undocumented endpoint is described by the upper-cased method, the path and empty defaults. */
  lemma UndocumentedEndpoint(schema: Value, httpMethod: string, path: string)
    requires Undocumented(schema, httpMethod, path)
    ensures EndpointInfo(schema, httpMethod, path) == Some(
      [("method", Str(Upper(httpMethod))), ("path", Str(path)),
       ("summary", Str("")), ("description", Str("")), ("operation_id", Str("")),
       ("tags", List([])), ("parameters", List([])), ("request_body", Dict([])),
       ("responses", Dict([])), ("security", List([])),
       ("request_schema", Dict([])), ("response_schemas", Dict([]))])
  {
    assert Operation(schema, httpMethod, path) == Some(EmptyDict);
    assert RequestSchema(EmptyDict) == Some(EmptyDict);
    assert SchemasOf([]) == Some([]);
    assert OperationFields(httpMethod, path, EmptyDict) ==
      [("method", Str(Upper(httpMethod))), ("path", Str(path)),
       ("summary", Str("")), ("description", Str("")), ("operation_id", Str("")),
       ("tags", List([])), ("parameters", List([])), ("request_body", Dict([])),
       ("responses", Dict([])), ("security", List([]))];
    var fields := OperationFields(httpMethod, path, EmptyDict);
    assert EndpointInfo(schema, httpMethod, path) ==
      Some(fields + [("request_schema", EmptyDict), ("response_schemas", Dict([]))]);
    assert fields + [("request_schema", EmptyDict), ("response_schemas", Dict([]))] ==
      [("method", Str(Upper(httpMethod))), ("path", Str(path)),
       ("summary", Str("")), ("description", Str("")), ("operation_id", Str("")),
       ("tags", List([])), ("parameters", List([])), ("request_body", Dict([])),
       ("responses", Dict([])), ("security", List([])),
       ("request_schema", Dict([])), ("response_schemas", Dict([]))];
  }

  /**
   * A request body whose first content type carries a schema yields that schema; a body
   * without content yields `{}`.
   */
  lemma RequestSchemaOfFirstType(body: Value, mediaType: string, media: Entries, schema: Value, more: Entries)
    requires body.Dict? && ContentOf(body) == Dict([(mediaType, Dict(media))] + more)
    ensures Lookup(media, "schema") == Some(schema) ==> RequestSchema(body) == Some(schema)
    ensures !HasKey(media, "schema") ==> RequestSchema(body) == Some(EmptyDict)
  {
    assert Truthy(body) && Truthy(ContentOf(body));
  }

  /** `_extract_endpoint_info`, building `response_schemas` entry by entry. */
  method ExtractEndpointInfo(schema: Value, httpMethod: string, path: string) returns (r: Option<Entries>)
    ensures r == EndpointInfo(schema, httpMethod, path)
  {
    var found := Operation(schema, httpMethod, path);
    if found.None? {
      return None;
    }
    var operation := found.value;
    var request := RequestSchema(GetOr(operation, "requestBody", EmptyDict));
    if request.None? {
      return None;
    }
    var responses := GetOr(operation, "responses", EmptyDict);
    if !responses.Dict? {
      return None;
    }
    var schemas := CollectSchemas(responses.entries);
    if schemas.None? {
      return None;
    }
    EndpointEntries(httpMethod, path, operation, request.value, Dict(schemas.value));
    r := Some(OperationFields(httpMethod, path, operation) +
              [("request_schema", request.value), ("response_schemas", Dict(schemas.value))]);
  }

  /** The loop of `_extract_endpoint_info` over the responses, building `response_schemas`. */
  method CollectSchemas(items: Entries) returns (r: Option<Entries>)
    ensures r == SchemasOf(items)
  {
    var schemas: Entries := [];
    var i := 0;
    while i < |items|
      invariant 0 <= i <= |items|
      invariant SchemasOf(items[..i]) == Some(schemas)
    {
      SchemasStep(items, i);
      var response := items[i].1;
      if !response.Dict? {
        SchemasStayFailed(items, i + 1);
        return None;
      }
      if Declares(response) {
        var schemaRef := FirstSchema(ContentOf(response));
        if schemaRef.None? {
          SchemasStayFailed(items, i + 1);
          return None;
        }
        schemas := Put(schemas, items[i].0, schemaRef.value);
      }
      i := i + 1;
    }
    assert items[..|items|] == items;
    r := Some(schemas);
  }

  /** One more response: it fails, is passed over, or adds its first schema. */
  lemma SchemasStep(items: Entries, i: nat)
    requires i < |items|
    ensures var init := SchemasOf(items[..i]);
            var response := items[i].1;
      SchemasOf(items[..i + 1]) ==
        if init.None? || !response.Dict? then None
        else if !Declares(response) then init
        else match FirstSchema(ContentOf(response))
          case None => None
          case Some(schema) => Some(Put(init.value, items[i].0, schema))
  {
    assert items[..i + 1][..i] == items[..i];
    assert items[..i + 1][i] == items[i];
  }

  /** Once a response fails, the whole dict fails. */
  lemma {:induction false} SchemasStayFailed(items: Entries, i: nat)
    requires i <= |items| && SchemasOf(items[..i]).None?
    ensures SchemasOf(items).None?
    decreases |items| - i
  {
    if i < |items| {
      assert items[..i + 1][..i] == items[..i];
      SchemasStayFailed(items, i + 1);
    } else {
      assert items[..i] == items;
    }
  }

  // ---------------------------------------------------------------------------
  // Historical context
  // ---------------------------------------------------------------------------

  const RecentCap: nat := 5

  /** The summary of an endpoint without usable history. */
  const NoHistory: Entries :=
    [("count", Int(0)), ("recent_results", List([])), ("success_rate", Null), ("common_status_codes", List([]))]

  /** How many rows have status 'success'. */
  function Successes(rows: seq<Value>): (n: nat)
    ensures n <= |rows|
  {
    if rows == [] then 0
    else Successes(rows[..|rows| - 1]) + (if Get(rows[|rows| - 1], "status") == Some(Str("success")) then 1 else 0)
  }

  /** The truthy status codes of the rows, in order. */
  function Codes(rows: seq<Value>): (codes: seq<Value>)
    ensures |codes| <= |rows|
    ensures forall c :: c in codes ==> Truthy(c)
  {
    if rows == [] then []
    else
      var code := GetOr(rows[|rows| - 1], "status_code", Null);
      Codes(rows[..|rows| - 1]) + (if Truthy(code) then [code] else [])
  }

  /** The text of a code used as a dict key, `str(code)` (a list or dict cannot be a key). */
  function CodeKey(code: Value): string {
    match code
    case Str(s) => s
    case Null => "None"
    case Bool(b) => if b then "True" else "False"
    case Int(i) => IntText(i)
    case Float(_) => Repr(code)
    case _ => ""
  }

  lemma CodeKeyIsText(code: Value)
    requires Hashable(code)
    ensures CodeKey(code) == PyStr(code)
  {
  }

  /** How many codes are written as the key. */
  function Occurrences(codes: seq<Value>, key: string): nat {
    if codes == [] then 0
    else Occurrences(codes[..|codes| - 1], key) + (if CodeKey(codes[|codes| - 1]) == key then 1 else 0)
  }

  /** `counts.get(key, 0)` for a tally whose counts are ints. */
  function CountOf(tally: Entries, key: string): int {
    match Lookup(tally, key)
    case Some(Int(n)) => n
    case _ => 0
  }

  /** `counts[key] = counts.get(key, 0) + 1`. */
  function Bump(tally: Entries, key: string): Entries {
    Put(tally, key, Int(CountOf(tally, key) + 1))
  }

  /** `common_status_codes`: each code's number of occurrences, keyed by the code's text. */
  function TallyOf(codes: seq<Value>): Entries {
    if codes == [] then [] else Bump(TallyOf(codes[..|codes| - 1]), CodeKey(codes[|codes| - 1]))
  }

  /** The tally holds exactly the codes that occur, each with its number of occurrences. */
  lemma {:induction false} TallyCounts(codes: seq<Value>, key: string)
    ensures Lookup(TallyOf(codes), key) ==
      if Occurrences(codes, key) > 0 then Some(Int(Occurrences(codes, key))) else None
  {
    if codes != [] {
      var n := |codes| - 1;
      var code := CodeKey(codes[n]);
      TallyCounts(codes[..n], key);
      if code != key {
        TallyCounts(codes[..n], code);
      }
    }
  }

  /** Tallying one more code adds one to its count. */
  lemma TallyStep(codes: seq<Value>, i: nat)
    requires i < |codes|
    ensures TallyOf(codes[..i + 1]) == Bump(TallyOf(codes[..i]), CodeKey(codes[i]))
  {
    var c := codes[..i + 1];
    assert c[..|c| - 1] == codes[..i];
    assert c[|c| - 1] == codes[i];
  }

  /** The four fields of a row kept in `recent_results`. */
  function Recent(row: Value): Value {
    Dict([("status", GetOr(row, "status", Null)),
          ("status_code", GetOr(row, "status_code", Null)),
          ("timestamp", GetOr(row, "timestamp", Null)),
          ("response_time_ms", GetOr(row, "response_time_ms", Null))])
  }

  /** Rows the summary can be computed from: dicts whose truthy status codes can be dict keys. */
  predicate Summarisable(rows: seq<Value>) {
    (forall i :: 0 <= i < |rows| ==> rows[i].Dict?) &&
    (forall c :: c in Codes(rows) ==> Hashable(c))
  }

  /** `successful / total`: the share of rows with status 'success'. */
  function Rate(rows: seq<Value>): (r: real)
    requires rows != []
    ensures 0.0 <= r <= 1.0
  {
    ShareBounded(Successes(rows), |rows|);
    Successes(rows) as real / |rows| as real
  }

  /** A part of a positive total is a share between 0 and 1. */
  lemma ShareBounded(part: nat, total: nat)
    requires 0 < total && part <= total
    ensures 0.0 <= part as real / total as real <= 1.0
  {
    var q := part as real / total as real;
    assert q * total as real == part as real;
  }

  /** `recent_results`: the first five rows reduced to four fields. */
  function RecentOf(rows: seq<Value>): (r: seq<Value>)
    ensures |r| <= RecentCap && |r| <= |rows|
    ensures forall i :: 0 <= i < |r| ==> r[i] == Recent(rows[i])
  {
    var shown := Take(rows, RecentCap);
    seq(|shown|, i requires 0 <= i < |shown| => Recent(shown[i]))
  }

  /** The summary of a non-empty history. */
  function Summary(rows: seq<Value>): Entries
    requires rows != []
  {
    [("count", Int(|rows|)),
     ("recent_results", List(RecentOf(rows))),
     ("success_rate", Float(Rate(rows))),
     ("common_status_codes", Dict(TallyOf(Codes(rows))))]
  }

  /**
   * `_get_historical_context`: the number of rows, the first five rows reduced to four fields,
   * the share of successes and the tally of status codes. A query that raised, no rows, or rows
   * the summary cannot read give the empty summary.
   */
  function HistoryContext(rows: Option<seq<Value>>): (h: Entries)
    ensures h == NoHistory <==> rows.None? || rows.value == [] || !Summarisable(rows.value)
  {
    if rows.None? || rows.value == [] || !Summarisable(rows.value) then NoHistory
    else Summary(rows.value)
  }

  /** The keys of a summary, whatever values it holds. */
  lemma HistoryKeys(count: Value, recent: Value, rate: Value, codes: Value)
    ensures Keys([("count", count), ("recent_results", recent), ("success_rate", rate), ("common_status_codes", codes)]) ==
            ["count", "recent_results", "success_rate", "common_status_codes"]
  {
    var h := [("count", count), ("recent_results", recent), ("success_rate", rate), ("common_status_codes", codes)];
    var want := ["count", "recent_results", "success_rate", "common_status_codes"];
    assert forall i :: 0 <= i < 4 ==> Keys(h)[i] == want[i];
  }

  /**
   * The summary's fields: the success share is None exactly when the count is 0, and otherwise
   * the share of rows with status 'success'; at most five recent results are kept.
   */
  lemma HistoryShape(rows: Option<seq<Value>>)
    ensures var h := HistoryContext(rows);
      Keys(h) == ["count", "recent_results", "success_rate", "common_status_codes"] &&
      (Lookup(h, "success_rate") == Some(Null) <==> Lookup(h, "count") == Some(Int(0))) &&
      (Lookup(h, "success_rate") != Some(Null) ==>
         Lookup(h, "success_rate") == Some(Float(Successes(rows.value) as real / |rows.value| as real))) &&
      Lookup(h, "recent_results").value.List? && |Lookup(h, "recent_results").value.items| <= RecentCap
  {
    var h := HistoryContext(rows);
    assert h == [("count", h[0].1), ("recent_results", h[1].1), ("success_rate", h[2].1),
                 ("common_status_codes", h[3].1)];
    HistoryKeys(h[0].1, h[1].1, h[2].1, h[3].1);
    LookupAt(h, 0);
    LookupAt(h, 1);
    LookupAt(h, 2);
  }

  /** The loop tallying the codes. */
  method TallyCodes(codes: seq<Value>) returns (tally: Entries)
    ensures tally == TallyOf(codes)
  {
    tally := [];
    var i := 0;
    while i < |codes|
      invariant 0 <= i <= |codes|
      invariant tally == TallyOf(codes[..i])
    {
      TallyStep(codes, i);
      tally := Bump(tally, CodeKey(codes[i]));
      i := i + 1;
    }
    assert codes[..|codes|] == codes;
  }

  /** `_get_historical_context`, tallying the codes and collecting the recent rows in loops. */
  method SummariseHistory(rows: Option<seq<Value>>) returns (h: Entries)
    ensures h == HistoryContext(rows)
  {
    if rows.None? || rows.value == [] {
      return NoHistory;
    }
    var rs := rows.value;
    if exists i :: 0 <= i < |rs| && !rs[i].Dict? {
      return NoHistory;
    }
    var codes := Codes(rs);
    if exists c :: c in codes && !Hashable(c) {
      return NoHistory;
    }
    assert Summarisable(rs);
    var tally := TallyCodes(codes);
    var recent := CollectRecent(rs);
    h := [("count", Int(|rs|)),
          ("recent_results", List(recent)),
          ("success_rate", Float(Rate(rs))),
          ("common_status_codes", Dict(tally))];
    assert h == Summary(rs);
  }

  /** The loop reducing the first five rows. */
  method CollectRecent(rows: seq<Value>) returns (recent: seq<Value>)
    ensures recent == RecentOf(rows)
  {
    var shown := Take(rows, RecentCap);
    recent := [];
    var j := 0;
    while j < |shown|
      invariant 0 <= j <= |shown|
      invariant recent == seq(j, k requires 0 <= k < j => Recent(shown[k]))
    {
      recent := recent + [Recent(shown[j])];
      j := j + 1;
    }
  }

  // ---------------------------------------------------------------------------
  // Validated examples
  // ---------------------------------------------------------------------------

  const ExamplesCap: nat := 5

  /**
   * Whether a validated test is for the endpoint: its method equal ignoring case and its path
   * equal. None stands for the error of a test that is not a dict or a method that is not a string.
   */
  function ForEndpoint(test: Value, httpMethod: string, path: string): Option<bool> {
    if !test.Dict? then None
    else
      var m := GetOr(test, "method", Str(""));
      if !m.Str? then None
      else Some(Upper(m.s) == Upper(httpMethod) && Lookup(test.entries, "path") == Some(Str(path)))
  }

  /** The tests for the endpoint, in the store's order; None when one of them cannot be checked. */
  function Matching(tests: seq<Value>, httpMethod: string, path: string): (r: Option<seq<Value>>)
    ensures r.Some? ==> forall t :: t in r.value <==> t in tests && ForEndpoint(t, httpMethod, path) == Some(true)
    ensures r.None? <==> exists t :: t in tests && ForEndpoint(t, httpMethod, path).None?
  {
    if tests == [] then Some([])
    else
      var n := |tests| - 1;
      var init := Matching(tests[..n], httpMethod, path);
      var fits := ForEndpoint(tests[n], httpMethod, path);
      assert forall t :: t in tests <==> t in tests[..n] || t == tests[n];
      if init.None? || fits.None? then None
      else Some(init.value + (if fits.value then [tests[n]] else []))
  }

  /** One example as the context keeps it; None when the stored test case is not a dict. */
  function ExampleOf(test: Value): Option<Value> {
    var testCase := GetOr(test, "test_case_json", EmptyDict);
    if !testCase.Dict? then None
    else Some(Dict([("test_scenario", GetOr(testCase, "test_scenario", Str(""))),
                    ("request_body", GetOr(testCase, "request_body", Null)),
                    ("expected_response", GetOr(testCase, "expected_response", Null)),
                    ("validation_status", GetOr(test, "validation_status", Null)),
                    ("created_at", GetOr(test, "created_at", Null))]))
  }

  /**
   * `_get_validated_test_examples`: the examples of the first five tests for the endpoint; no
   * examples when the query or the filtering raised.
   */
  function Examples(fetched: Option<seq<Value>>, httpMethod: string, path: string): (r: seq<Value>)
    ensures |r| <= ExamplesCap
    ensures fetched.None? ==> r == []
  {
    if fetched.None? then []
    else
      match Matching(fetched.value, httpMethod, path)
      case None => []
      case Some(tests) =>
        var shown := Take(tests, ExamplesCap);
        if forall i :: 0 <= i < |shown| ==> ExampleOf(shown[i]).Some?
        then seq(|shown|, i requires 0 <= i < |shown| => ExampleOf(shown[i]).value)
        else []
  }

  /** The filter gives the same tests whatever the case of the requested method. */
  lemma {:induction false} MatchingIgnoresCase(tests: seq<Value>, httpMethod: string, other: string, path: string)
    requires Upper(httpMethod) == Upper(other)
    ensures Matching(tests, httpMethod, path) == Matching(tests, other, path)
  {
    if tests != [] {
      MatchingIgnoresCase(tests[..|tests| - 1], httpMethod, other, path);
    }
  }

  /** Asking for 'get', 'GET' or 'Get' yields the same examples. */
  lemma ExamplesIgnoreCase(fetched: Option<seq<Value>>, httpMethod: string, path: string)
    ensures Examples(fetched, Lower(httpMethod), path) == Examples(fetched, httpMethod, path)
    ensures Examples(fetched, Upper(httpMethod), path) == Examples(fetched, httpMethod, path)
  {
    if fetched.Some? {
      UpperOfLower(httpMethod);
      UpperTwice(httpMethod);
      MatchingIgnoresCase(fetched.value, Lower(httpMethod), httpMethod, path);
      MatchingIgnoresCase(fetched.value, Upper(httpMethod), httpMethod, path);
    }
  }

  /** Every example comes from a stored test for the endpoint, with its validation status. */
  lemma ExamplesFromMatches(tests: seq<Value>, httpMethod: string, path: string, i: nat)
    requires i < |Examples(Some(tests), httpMethod, path)|
    ensures exists t :: t in tests && ForEndpoint(t, httpMethod, path) == Some(true) &&
                        Some(Examples(Some(tests), httpMethod, path)[i]) == ExampleOf(t)
  {
    var ms := Matching(tests, httpMethod, path).value;
    var shown := Take(ms, ExamplesCap);
    assert shown[i] in ms;
    assert Some(Examples(Some(tests), httpMethod, path)[i]) == ExampleOf(shown[i]);
  }

  /** `_get_validated_test_examples`, appending the first five examples in a loop. */
  method ValidatedExamples(fetched: Option<seq<Value>>, httpMethod: string, path: string) returns (r: seq<Value>)
    ensures r == Examples(fetched, httpMethod, path)
  {
    if fetched.None? {
      return [];
    }
    var matching := Matching(fetched.value, httpMethod, path);
    if matching.None? {
      return [];
    }
    var shown := Take(matching.value, ExamplesCap);
    r := [];
    var i := 0;
    while i < |shown|
      invariant 0 <= i <= |shown|
      invariant |r| == i && forall k :: 0 <= k < i ==> ExampleOf(shown[k]) == Some(r[k])
    {
      var example := ExampleOf(shown[i]);
      if example.None? {
        return [];
      }
      r := r + [example.value];
      i := i + 1;
    }
  }

  // ---------------------------------------------------------------------------
  // Relevant patterns
  // ---------------------------------------------------------------------------

  const PatternsCap: nat := 5

  /** A number as a real (bools count as 0 and 1); other values are not sort keys here. */
  function Number(v: Value): real {
    match v
    case Int(i) => i as real
    case Float(r) => r
    case Bool(b) => if b then 1.0 else 0.0
    case _ => 0.0
  }

  /** `x.get('effectiveness_score', 0)`, the sort key. */
  function Score(pattern: Value): real {
    Number(GetOr(pattern, "effectiveness_score", Int(0)))
  }

  /** A pattern the sort can rank: a dict whose score is a number. */
  predicate Scored(pattern: Value) {
    pattern.Dict? && IsNumber(GetOr(pattern, "effectiveness_score", Int(0)))
  }

  /** One pattern as the context keeps it. */
  function Simplify(pattern: Value): Value {
    Dict([("pattern_type", GetOr(pattern, "pattern_type", Str(""))),
          ("pattern_data", GetOr(pattern, "pattern_data", EmptyDict)),
          ("effectiveness", GetOr(pattern, "effectiveness_score", Int(0)))])
  }

  /** The shown effectiveness of a kept pattern. */
  function Shown(kept: Value): real {
    Number(GetOr(kept, "effectiveness", Int(0)))
  }

  lemma ShownSimplified(pattern: Value)
    ensures Shown(Simplify(pattern)) == Score(pattern)
  {
    LookupAt(Simplify(pattern).entries, 2);
  }

  /**
   * `_get_relevant_patterns`: the five patterns with the highest scores, highest first; none
   * when the query raised or a pattern cannot be ranked.
   */
  function TopPatterns(fetched: Option<seq<Value>>): (r: seq<Value>)
    ensures |r| <= PatternsCap
    ensures forall i, j :: 0 <= i < j < |r| ==> Shown(r[i]) >= Shown(r[j])
  {
    if fetched.None? || !(forall i :: 0 <= i < |fetched.value| ==> Scored(fetched.value[i])) then []
    else
      var top := Take(SortDescending(fetched.value, Score), PatternsCap);
      forall i | 0 <= i < |top| ensures Shown(Simplify(top[i])) == Score(top[i]) {
        ShownSimplified(top[i]);
      }
      seq(|top|, i requires 0 <= i < |top| => Simplify(top[i]))
  }

  /** The patterns shown are the simplified forms of the first five by score. */
  lemma TopPatternsShape(patterns: seq<Value>)
    requires forall i :: 0 <= i < |patterns| ==> Scored(patterns[i])
    ensures var top := Take(SortDescending(patterns, Score), PatternsCap);
      |TopPatterns(Some(patterns))| == |top| &&
      forall k :: 0 <= k < |top| ==> TopPatterns(Some(patterns))[k] == Simplify(top[k])
  {
  }

  /** No pattern left out has a higher score than a pattern shown, and all are shown when there are at most five. */
  lemma TopPatternsDominate(patterns: seq<Value>)
    requires forall i :: 0 <= i < |patterns| ==> Scored(patterns[i])
    ensures |TopPatterns(Some(patterns))| == if |patterns| < PatternsCap then |patterns| else PatternsCap
    ensures forall q, i ::
              q in patterns && Simplify(q) !in TopPatterns(Some(patterns)) && 0 <= i < |TopPatterns(Some(patterns))|
              ==> Score(q) <= Shown(TopPatterns(Some(patterns))[i])
  {
    var top := Take(SortDescending(patterns, Score), PatternsCap);
    var r := TopPatterns(Some(patterns));
    TopPatternsShape(patterns);
    TopDominates(patterns, Score, PatternsCap);
    forall q | q in patterns && Simplify(q) !in r ensures q !in top {
    }
    forall q, i | q in patterns && Simplify(q) !in r && 0 <= i < |r| ensures Score(q) <= Shown(r[i]) {
      assert top[i] in top;
      ShownSimplified(top[i]);
    }
  }

  /** `_get_relevant_patterns`, appending the first five sorted patterns in a loop. */
  method RelevantPatterns(fetched: Option<seq<Value>>) returns (r: seq<Value>)
    ensures r == TopPatterns(fetched)
  {
    if fetched.None? || !(forall i :: 0 <= i < |fetched.value| ==> Scored(fetched.value[i])) {
      return [];
    }
    var top := Take(SortDescending(fetched.value, Score), PatternsCap);
    r := [];
    var i := 0;
    while i < |top|
      invariant 0 <= i <= |top|
      invariant r == seq(i, k requires 0 <= k < i => Simplify(top[k]))
    {
      r := r + [Simplify(top[i])];
      i := i + 1;
    }
  }

  // ---------------------------------------------------------------------------
  // The context and its cache
  // ---------------------------------------------------------------------------

  const CacheTtl: real := 300.0

  /** The cache key `f"{schema_file}:{method}:{path}"`. */
  function CacheKey(schemaFile: string, httpMethod: string, path: string): string {
    schemaFile + ":" + httpMethod + ":" + path
  }

  /** Without ':' in the schema file and the method, distinct requests have distinct cache keys. */
  lemma CacheKeyInjective(f1: string, m1: string, p1: string, f2: string, m2: string, p2: string)
    requires ':' !in f1 && ':' !in m1 && ':' !in f2 && ':' !in m2
    requires CacheKey(f1, m1, p1) == CacheKey(f2, m2, p2)
    ensures f1 == f2 && m1 == m2 && p1 == p2
  {
    var rest1, rest2 := m1 + [':'] + p1, m2 + [':'] + p2;
    assert CacheKey(f1, m1, p1) == f1 + [':'] + rest1;
    assert CacheKey(f2, m2, p2) == f2 + [':'] + rest2;
    SplitAtSeparator(f1, rest1, f2, rest2, ':');
    SplitAtSeparator(m1, p1, m2, p2, ':');
  }

  /** Two strings cut at their first separator agree in both parts. */
  lemma SplitAtSeparator(a: string, x: string, b: string, y: string, c: char)
    requires c !in a && c !in b && a + [c] + x == b + [c] + y
    ensures a == b && x == y
  {
    var s := a + [c] + x;
    IndexOfAfter(a, c, x);
    IndexOfAfter(b, c, y);
    assert a == s[..|a|] && b == s[..|b|];
    assert x == s[|a| + 1..] && y == s[|b| + 1..];
  }

  /** `build_context` without the cache: None stands for the error reading the endpoint from the schema. */
  function Context(schema: Value, schemaFile: string, httpMethod: string, path: string,
                   history: Option<seq<Value>>, validated: Option<seq<Value>>,
                   patterns: Option<seq<Value>>): (r: Option<Value>)
    ensures r.Some? <==> EndpointInfo(schema, httpMethod, path).Some?
  {
    match EndpointInfo(schema, httpMethod, path)
    case None => None
    case Some(info) =>
      Some(Assemble(info, HistoryContext(history), Examples(validated, httpMethod, path), TopPatterns(patterns), schemaFile))
  }

  /** The context dict from its parts. */
  function Assemble(info: Entries, history: Entries, examples: seq<Value>, patterns: seq<Value>, schemaFile: string): Value {
    Dict([("endpoint", Dict(info)),
          ("history", Dict(history)),
          ("validated_examples", List(examples)),
          ("patterns", List(patterns)),
          ("schema_file", Str(schemaFile))])
  }

  /** The cached context for the key, while younger than the time to live. */
  function Cached(cache: map<string, (Value, real)>, ttl: real, key: string, now: real): (r: Option<Value>)
    ensures r.Some? <==> key in cache && now - cache[key].1 < ttl
  {
    if key in cache && now - cache[key].1 < ttl then Some(cache[key].0) else None
  }

  /** A context stored at `t` is served again exactly until `t + ttl`. */
  lemma CachedAfterStore(cache: map<string, (Value, real)>, ttl: real, key: string, context: Value, t: real, now: real)
    ensures Cached(cache[key := (context, t)], ttl, key, now) == if now < t + ttl then Some(context) else None
  {
  }

  /** The uncached part of `build_context`: the endpoint, history, examples and patterns assembled. */
  method BuildFresh(schema: Value, schemaFile: string, httpMethod: string, path: string,
                    history: Option<seq<Value>>, validated: Option<seq<Value>>,
                    patterns: Option<seq<Value>>) returns (r: Option<Value>)
    ensures r == Context(schema, schemaFile, httpMethod, path, history, validated, patterns)
  {
    var info := ExtractEndpointInfo(schema, httpMethod, path);
    if info.None? {
      return None;
    }
    var summary := SummariseHistory(history);
    var examples := ValidatedExamples(validated, httpMethod, path);
    var relevant := RelevantPatterns(patterns);
    r := Some(Assemble(info.value, summary, examples, relevant, schemaFile));
  }

  /** `ContextBuilder`: builds contexts and caches them per schema file, method and path. */
  class ContextBuilder {
    /** `_cache`: the context and the time it was built, per key. */
    var cache: map<string, (Value, real)>
    /** `_cache_ttl`, in seconds. */
    var cacheTtl: real

    constructor ()
      ensures cache == map[] && cacheTtl == CacheTtl
    {
      cache := map[];
      cacheTtl := CacheTtl;
    }

    /**
     * `build_context`: the cached context while it is fresh; otherwise the context is built
     * and cached with the time `now`. An error reading the endpoint leaves the cache as it was.
     */
    method BuildContext(schema: Value, schemaFile: string, httpMethod: string, path: string, now: real,
                        history: Option<seq<Value>>, validated: Option<seq<Value>>,
                        patterns: Option<seq<Value>>) returns (r: Option<Value>)
      modifies this
      ensures cacheTtl == old(cacheTtl)
      ensures var key := CacheKey(schemaFile, httpMethod, path);
        var hit := Cached(old(cache), old(cacheTtl), key, now);
        if hit.Some? then r == hit && cache == old(cache)
        else r == Context(schema, schemaFile, httpMethod, path, history, validated, patterns) &&
             cache == (if r.Some? then old(cache)[key := (r.value, now)] else old(cache))
    {
      var key := CacheKey(schemaFile, httpMethod, path);
      ghost var hit := Cached(cache, cacheTtl, key, now);
      if key in cache {
        var (cached, timestamp) := cache[key];
        if now - timestamp < cacheTtl {
          assert hit == Some(cached);
          return Some(cached);
        }
      }
      assert hit.None?;
      r := BuildFresh(schema, schemaFile, httpMethod, path, history, validated, patterns);
      if r.Some? {
        cache := cache[key := (r.value, now)];
      }
    }

    /** `clear_cache`: forgets every cached context. */
    method ClearCache()
      modifies this
      ensures cache == map[] && cacheTtl == old(cacheTtl)
    {
      cache := map[];
    }
  }
}
