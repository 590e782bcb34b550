// Baselines and regression detection (apitest/learning/baseline.py).
//
// A baseline remembers, per (schema file, method, path), the status code, the response time
// and an inferred shape of the response body. Later runs are compared with it. The database
// table of baselines is a map field; response times are reals (float rounding is not modelled).

module Baseline {
  import opened Wrappers
  import opened Json
  import opened Strings

  // ---------------------------------------------------------------------------
  // Inferred response schemas

  /**
   * A schema dict as the tool writes it: each of the keys 'type', 'properties' and 'items'
   * is present or absent. `Schema(None, Absent, None)` is the empty dict `{}`.
   */
  datatype Schema = Schema(ty: Option<string>, properties: PropertyMap, items: Option<Schema>)

  /** The 'properties' key of a schema: absent, or a dict from property names to schemas. */
  datatype PropertyMap = Absent | Present(entries: seq<(string, Schema)>)

  /** `{'type': t}`. */
  function Leaf(t: string): Schema {
    Schema(Some(t), Absent, None)
  }

  /** `{}`. */
  const NoSchema: Schema := Schema(None, Absent, None)

  /** Python truthiness of a schema dict: it holds at least one key. */
  predicate SchemaTruthy(s: Schema) {
    s.ty.Some? || s.properties.Present? || s.items.Some?
  }

  /** The property names of a 'properties' dict. */
  function Names(ps: seq<(string, Schema)>): set<string> {
    set i | 0 <= i < |ps| :: ps[i].0
  }

  /** `ps[name]`: the schema under the first entry with that name. */
  function FindSchema(ps: seq<(string, Schema)>, name: string): (r: Option<Schema>)
    ensures r.Some? <==> name in Names(ps)
  {
    if ps == [] then None
    else if ps[0].0 == name then Some(ps[0].1)
    else
      assert Names(ps) == {ps[0].0} + Names(ps[1..]) by {
        forall x | x in Names(ps) ensures x in {ps[0].0} + Names(ps[1..]) {
          var i :| 0 <= i < |ps| && ps[i].0 == x;
          if i > 0 {
            assert ps[1..][i - 1].0 == x;
          }
        }
        forall x | x in Names(ps[1..]) ensures x in Names(ps) {
          var i :| 0 <= i < |ps[1..]| && ps[1..][i].0 == x;
          assert ps[i + 1].0 == x;
        }
      }
      FindSchema(ps[1..], name)
  }

  /** `_get_value_schema`: the shape of one value; bool is tested before int, and a list is typed by its first item. */
  function ValueSchema(v: Value): (s: Schema)
    ensures s.ty.Some? && SchemaTruthy(s)
    ensures s.ty == Some("object") <==> v.Dict?
    ensures s.ty == Some("array") <==> v.List?
    ensures v.Dict? ==> s.properties.Present? && Names(s.properties.entries) == (set i | 0 <= i < |v.entries| :: v.entries[i].0)
    ensures v.List? ==> s.items.Some? && s.properties.Absent?
    ensures v.Bool? ==> s == Leaf("boolean")
    ensures v.Int? ==> s == Leaf("integer")
    ensures v.Float? ==> s == Leaf("number")
    ensures v.Str? || v.Null? ==> s == Leaf("string")
    ensures v.Dict? ==> s.items.None? && |s.properties.entries| == |v.entries|
    ensures v.Dict? ==> forall i :: 0 <= i < |v.entries| ==>
      s.properties.entries[i] == (v.entries[i].0, ValueSchema(v.entries[i].1))
    ensures v.List? && v.items == [] ==> s.items == Some(NoSchema)
    ensures v.List? && v.items != [] ==> s.items == Some(ValueSchema(v.items[0]))
    decreases v
  {
    match v
    case Bool(_) => Leaf("boolean")
    case Int(_) => Leaf("integer")
    case Float(_) => Leaf("number")
    case Str(_) => Leaf("string")
    case Dict(e) =>
      var ps := seq(|e|, i requires 0 <= i < |e| => (e[i].0, ValueSchema(e[i].1)));
      assert Names(ps) == (set i | 0 <= i < |e| :: e[i].0) by {
        forall x | x in (set i | 0 <= i < |e| :: e[i].0) ensures x in Names(ps) {
          var i :| 0 <= i < |e| && e[i].0 == x;
          assert ps[i].0 == x;
        }
      }
      Schema(Some("object"), Present(ps), None)
    case List(items) =>
      Schema(Some("array"), Absent, Some(if items == [] then NoSchema else ValueSchema(items[0])))
    case Null => Leaf("string")
  }

  /**
   * `_extract_schema_from_response`: None for a missing body; a dict maps each key to its
   * value's schema, a list is typed by its first item (`{}` when empty), and any other value
   * is typed directly.
   */
  function ExtractSchema(body: Value): (r: Option<Schema>)
    ensures r.None? <==> body.Null?
    ensures r.Some? ==> r.value == ValueSchema(body)
  {
    if body.Null? then None
    else if body.Dict? then
      var e := body.entries;
      Some(Schema(Some("object"), Present(seq(|e|, i requires 0 <= i < |e| => (e[i].0, ValueSchema(e[i].1)))), None))
    else if body.List? then
      if body.items != [] then Some(Schema(Some("array"), Absent, Some(ValueSchema(body.items[0]))))
      else Some(Schema(Some("array"), Absent, Some(NoSchema)))
    else Some(ValueSchema(body))
  }

  /**
   * `_schemas_match`: equal 'type' values; objects need the same property names with pairwise
   * matching schemas, arrays matching items (a missing 'items' counts as `{}`); any other
   * type matches on the type alone.
   */
  function SchemasMatch(s1: Schema, s2: Schema): bool
    decreases s1
  {
    if s1.ty != s2.ty then false
    else if s1.ty == Some("object") then
      var p1 := if s1.properties.Present? then s1.properties.entries else [];
      var p2 := if s2.properties.Present? then s2.properties.entries else [];
      Names(p1) == Names(p2) &&
      forall i :: 0 <= i < |p1| ==> FindSchema(p2, p1[i].0).Some? && SchemasMatch(p1[i].1, FindSchema(p2, p1[i].0).value)
    else if s1.ty == Some("array") then
      match s1.items
      case Some(i1) => SchemasMatch(i1, if s2.items.Some? then s2.items.value else NoSchema)
      // `{}` has no 'type', so it matches exactly the schemas without one.
      case None => s2.items.None? || s2.items.value.ty.None?
    else true
  }

  /** The empty schema `{}` matches exactly the schemas without a 'type'. */
  lemma EmptyMatches(s: Schema)
    ensures SchemasMatch(NoSchema, s) <==> s.ty.None?
  {
  }

  /** Every 'properties' dict inside a schema holds each name once, as a Python dict does. */
  predicate DistinctNames(s: Schema)
    decreases s
  {
    (s.properties.Present? ==>
      (forall i, j :: 0 <= i < j < |s.properties.entries| ==> s.properties.entries[i].0 != s.properties.entries[j].0) &&
      (forall i :: 0 <= i < |s.properties.entries| ==> DistinctNames(s.properties.entries[i].1))) &&
    (s.items.Some? ==> DistinctNames(s.items.value))
  }

  /** Every dict inside a value holds each key once, as a Python value does. */
  predicate PyValue(v: Value)
    decreases v
  {
    match v
    case Dict(e) => UniqueKeys(e) && forall i :: 0 <= i < |e| ==> PyValue(e[i].1)
    case List(items) => forall i :: 0 <= i < |items| ==> PyValue(items[i])
    case _ => true
  }

  lemma FindFirst(ps: seq<(string, Schema)>, i: nat)
    requires i < |ps| && forall a, b :: 0 <= a < b < |ps| ==> ps[a].0 != ps[b].0
    ensures FindSchema(ps, ps[i].0) == Some(ps[i].1)
    decreases i
  {
    if i > 0 {
      FindFirst(ps[1..], i - 1);
    }
  }

  /** A schema matches itself. */
  lemma {:induction false} MatchReflexive(s: Schema)
    requires DistinctNames(s)
    ensures SchemasMatch(s, s)
    decreases s
  {
    if s.ty == Some("object") && s.properties.Present? {
      var p := s.properties.entries;
      forall i | 0 <= i < |p| ensures FindSchema(p, p[i].0) == Some(p[i].1) && SchemasMatch(p[i].1, p[i].1) {
        FindFirst(p, i);
        MatchReflexive(p[i].1);
      }
    } else if s.ty == Some("array") && s.items.Some? {
      MatchReflexive(s.items.value);
    }
  }

  /** The schema of a Python value names each property once. */
  lemma {:induction false} ValueSchemaDistinct(v: Value)
    requires PyValue(v)
    ensures DistinctNames(ValueSchema(v))
    decreases v
  {
    match v
    case Dict(e) =>
      forall i | 0 <= i < |e| ensures DistinctNames(ValueSchema(e[i].1)) {
        ValueSchemaDistinct(e[i].1);
      }
    case List(items) =>
      if items != [] {
        ValueSchemaDistinct(items[0]);
      }
    case _ =>
  }

  /** The schema extracted from a body matches itself, so an unchanged body never shows a schema change. */
  lemma ExtractedSchemaMatchesItself(body: Value)
    requires PyValue(body) && !body.Null?
    ensures SchemasMatch(ExtractSchema(body).value, ExtractSchema(body).value)
  {
    ValueSchemaDistinct(body);
    MatchReflexive(ValueSchema(body));
  }

  /** A body of a different JSON kind is always a schema change; in particular a bool is not an int. */
  lemma KindChangeDetected(a: Value, b: Value)
    requires ValueSchema(a).ty != ValueSchema(b).ty
    ensures !SchemasMatch(ValueSchema(a), ValueSchema(b))
  {
  }

  /** A dict body that gained or lost a key is always a schema change. */
  lemma KeyChangeDetected(a: Entries, b: Entries)
    requires (set i | 0 <= i < |a| :: a[i].0) != (set i | 0 <= i < |b| :: b[i].0)
    ensures !SchemasMatch(ValueSchema(Dict(a)), ValueSchema(Dict(b)))
  {
  }

  // ---------------------------------------------------------------------------
  // Baselines and regressions

  /** What the baselines table holds for one endpoint. */
  datatype BaselineRecord = BaselineRecord(statusCode: int, responseTimeMs: real, responseSchema: Option<Schema>)

  /** The key of a baseline: schema file, method and path. */
  type EndpointKey = (string, string, string)

  /** A schema as stored and read back: an empty or missing schema is stored as NULL and reads back as None. */
  function Stored(schema: Option<Schema>): (r: Option<Schema>)
    ensures r.Some? <==> schema.Some? && SchemaTruthy(schema.value)
    ensures r.Some? ==> r == schema
  {
    if schema.Some? && SchemaTruthy(schema.value) then schema else None
  }

  datatype RegressionType = ResponseTime | StatusCode | SchemaChange

  datatype Severity = SeverityWarning | SeverityError

  /** A compared quantity: a status code, a time in milliseconds or a response schema. */
  datatype Observed = Code(code: int) | Millis(ms: real) | Shape(schema: Schema)

  datatype Regression = Regression(kind: RegressionType, endpoint: string, baselineValue: Observed,
                                   currentValue: Observed, severity: Severity)

  /** Report order: status code, then response time, then schema. */
  function Rank(k: RegressionType): nat {
    match k
    case StatusCode => 0
    case ResponseTime => 1
    case SchemaChange => 2
  }

  /** The status-code regression, if the code changed; an error exactly when the new code is 400 or above. */
  function StatusRegression(b: BaselineRecord, endpoint: string, statusCode: int): (r: seq<Regression>)
    ensures |r| <= 1
    ensures r != [] <==> statusCode != b.statusCode
    ensures r != [] ==>
      r[0].kind == StatusCode && r[0].endpoint == endpoint &&
      (r[0].severity == SeverityError <==> statusCode >= 400) &&
      r[0].baselineValue == Code(b.statusCode) && r[0].currentValue == Code(statusCode)
  {
    if statusCode != b.statusCode then
      [Regression(StatusCode, endpoint, Code(b.statusCode), Code(statusCode),
                  if statusCode >= 400 then SeverityError else SeverityWarning)]
    else []
  }

  /**
   * The response-time regression, if the time exceeds threshold times the baseline time. The
   * increase percentage divides by the baseline time, so a zero baseline time raises
   * ZeroDivisionError (None). The severity is an error when the time at least doubled.
   */
  function TimeRegression(b: BaselineRecord, endpoint: string, responseTimeMs: real, threshold: real): (r: Option<seq<Regression>>)
    ensures r.None? <==> responseTimeMs > b.responseTimeMs * threshold && b.responseTimeMs == 0.0
    ensures r.Some? ==> |r.value| <= 1 && (r.value != [] <==> responseTimeMs > b.responseTimeMs * threshold)
    ensures r.Some? && r.value != [] ==> r.value[0].kind == ResponseTime && r.value[0].endpoint == endpoint
  {
    if responseTimeMs > b.responseTimeMs * threshold then
      if b.responseTimeMs == 0.0 then None
      else
        var increasePercent := (responseTimeMs - b.responseTimeMs) / b.responseTimeMs * 100.0;
        Some([Regression(ResponseTime, endpoint, Millis(b.responseTimeMs), Millis(responseTimeMs),
                         if increasePercent < 100.0 then SeverityWarning else SeverityError)])
    else Some([])
  }

  /**
   * The schema regression: compared only when the body is truthy and the baseline stores a
   * schema; reported when the schemas do not match.
   */
  function SchemaRegression(b: BaselineRecord, endpoint: string, body: Value): (r: seq<Regression>)
    ensures |r| <= 1
    ensures r != [] <==> Truthy(body) && b.responseSchema.Some? && !SchemasMatch(b.responseSchema.value, ValueSchema(body))
    ensures r != [] ==> r[0].kind == SchemaChange && r[0].endpoint == endpoint && r[0].severity == SeverityWarning
  {
    if Truthy(body) && b.responseSchema.Some? then
      var current := ExtractSchema(body).value;
      if !SchemasMatch(b.responseSchema.value, current) then
        [Regression(SchemaChange, endpoint, Shape(b.responseSchema.value), Shape(current), SeverityWarning)]
      else []
    else []
  }

  /** The regressions of one run against a baseline, in report order; None where Python raises. */
  function Regressions(b: BaselineRecord, endpoint: string, statusCode: int, responseTimeMs: real,
                       body: Value, threshold: real): (r: Option<seq<Regression>>)
  {
    var t := TimeRegression(b, endpoint, responseTimeMs, threshold);
    if t.None? then None
    else Some(StatusRegression(b, endpoint, statusCode) + t.value + SchemaRegression(b, endpoint, body))
  }

  /** The regressions come in report order, at most one of each kind, all for the given endpoint. */
  lemma RegressionsOrdered(b: BaselineRecord, endpoint: string, statusCode: int, responseTimeMs: real,
                           body: Value, threshold: real)
    ensures var r := Regressions(b, endpoint, statusCode, responseTimeMs, body, threshold);
      r.Some? ==>
        |r.value| <= 3 &&
        (forall i, j :: 0 <= i < j < |r.value| ==> Rank(r.value[i].kind) < Rank(r.value[j].kind)) &&
        (forall i :: 0 <= i < |r.value| ==> r.value[i].endpoint == endpoint)
  {
  }

  /**
   * A run that repeats the baseline's status code and body, within the time threshold, shows
   * no regression at all.
   */
  lemma SameRunNoRegression(statusCode: int, baselineTime: real, responseTimeMs: real, body: Value,
                            threshold: real, endpoint: string)
    requires PyValue(body)
    requires responseTimeMs <= baselineTime * threshold
    ensures var stored := Stored(if Truthy(body) then ExtractSchema(body) else None);
      Regressions(BaselineRecord(statusCode, baselineTime, stored), endpoint, statusCode, responseTimeMs, body, threshold)
        == Some([])
  {
    var b := BaselineRecord(statusCode, baselineTime, Stored(if Truthy(body) then ExtractSchema(body) else None));
    if Truthy(body) {
      ExtractedSchemaMatchesItself(body);
    }
    assert SchemaRegression(b, endpoint, body) == [];
    assert Regressions(b, endpoint, statusCode, responseTimeMs, body, threshold).value == [];
  }

  /** The stored key of an endpoint; the database upper-cases only the method it looks up. */
  function LookupKey(schemaFile: string, httpMethod: string, path: string): EndpointKey {
    (schemaFile, Upper(httpMethod), path)
  }

  class BaselineManager {
    /** The baselines table. */
    var baselines: map<EndpointKey, BaselineRecord>

    constructor (baselines: map<EndpointKey, BaselineRecord>)
      ensures this.baselines == baselines
    {
      this.baselines := baselines;
    }

    /** `get_baseline`. */
    function GetBaseline(schemaFile: string, httpMethod: string, path: string): (r: Option<BaselineRecord>)
      reads this
      ensures r.Some? <==> LookupKey(schemaFile, httpMethod, path) in baselines
    {
      var k := LookupKey(schemaFile, httpMethod, path);
      if k in baselines then Some(baselines[k]) else None
    }

    /**
     * `establish_baseline`: writes status, time and the body's schema and answers true only
     * when the endpoint has no baseline yet; otherwise nothing changes.
     */
    method EstablishBaseline(schemaFile: string, httpMethod: string, path: string, statusCode: int,
                             responseTimeMs: real, body: Value) returns (established: bool)
      modifies this
      ensures established <==> old(GetBaseline(schemaFile, httpMethod, path)).None?
      ensures !established ==> baselines == old(baselines)
      ensures established ==> baselines == old(baselines)[(schemaFile, httpMethod, path) :=
        BaselineRecord(statusCode, responseTimeMs, Stored(if Truthy(body) then ExtractSchema(body) else None))]
    {
      var existing := GetBaseline(schemaFile, httpMethod, path);
      if existing.Some? {
        return false;
      }
      var schema: Option<Schema> := None;
      if Truthy(body) {
        schema := ExtractSchema(body);
      }
      baselines := baselines[(schemaFile, httpMethod, path) := BaselineRecord(statusCode, responseTimeMs, Stored(schema))];
      return true;
    }

    /**
     * `detect_regressions`: no baseline gives no regressions; otherwise the status, time and
     * schema checks append in that order. None stands for the ZeroDivisionError of a zero
     * baseline time.
     */
    method DetectRegressions(schemaFile: string, httpMethod: string, path: string, statusCode: int,
                             responseTimeMs: real, body: Value, threshold: real)
      returns (r: Option<seq<Regression>>)
      ensures GetBaseline(schemaFile, httpMethod, path).None? ==> r == Some([])
      ensures GetBaseline(schemaFile, httpMethod, path).Some? ==>
        r == Regressions(GetBaseline(schemaFile, httpMethod, path).value, httpMethod + " " + path,
                         statusCode, responseTimeMs, body, threshold)
    {
      var regressions: seq<Regression> := [];
      var baseline := GetBaseline(schemaFile, httpMethod, path);
      if baseline.None? {
        return Some(regressions);
      }
      var b := baseline.value;
      var endpoint := httpMethod + " " + path;
      if statusCode != b.statusCode {
        regressions := regressions + [Regression(StatusCode, endpoint, Code(b.statusCode), Code(statusCode),
                                                 if statusCode >= 400 then SeverityError else SeverityWarning)];
      }
      assert regressions == StatusRegression(b, endpoint, statusCode);
      var thresholdTime := b.responseTimeMs * threshold;
      if responseTimeMs > thresholdTime {
        if b.responseTimeMs == 0.0 {
          return None;
        }
        var increasePercent := (responseTimeMs - b.responseTimeMs) / b.responseTimeMs * 100.0;
        regressions := regressions + [Regression(ResponseTime, endpoint, Millis(b.responseTimeMs), Millis(responseTimeMs),
                                                 if increasePercent < 100.0 then SeverityWarning else SeverityError)];
      }
      assert regressions == StatusRegression(b, endpoint, statusCode) + TimeRegression(b, endpoint, responseTimeMs, threshold).value;
      if Truthy(body) && b.responseSchema.Some? {
        var current := ExtractSchema(body).value;
        if !SchemasMatch(b.responseSchema.value, current) {
          regressions := regressions + [Regression(SchemaChange, endpoint, Shape(b.responseSchema.value), Shape(current), SeverityWarning)];
        }
      }
      assert regressions == StatusRegression(b, endpoint, statusCode) + TimeRegression(b, endpoint, responseTimeMs, threshold).value
        + SchemaRegression(b, endpoint, body);
      return Some(regressions);
    }
  }

  /**
   * Establishing a baseline from a run and then checking the same run (same upper-case method,
   * status and body, within the threshold) reports nothing.
   */
  method EstablishThenDetect(m: BaselineManager, schemaFile: string, httpMethod: string, path: string,
                             statusCode: int, responseTimeMs: real, body: Value, threshold: real)
    returns (established: bool, r: Option<seq<Regression>>)
    requires httpMethod == Upper(httpMethod) && PyValue(body) && threshold >= 1.0 && responseTimeMs >= 0.0
    requires m.GetBaseline(schemaFile, httpMethod, path).None?
    modifies m
    ensures established && r == Some([])
  {
    established := m.EstablishBaseline(schemaFile, httpMethod, path, statusCode, responseTimeMs, body);
    r := m.DetectRegressions(schemaFile, httpMethod, path, statusCode, responseTimeMs, body, threshold);
    assert responseTimeMs <= responseTimeMs * threshold by {
      assert responseTimeMs * threshold - responseTimeMs == responseTimeMs * (threshold - 1.0);
    }
    SameRunNoRegression(statusCode, responseTimeMs, responseTimeMs, body, threshold, httpMethod + " " + path);
  }
}
