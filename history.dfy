// Test history (apitest/storage/history.py): saving a run's results row by row and
// establishing a baseline from the first passing run of each endpoint.
//
// The database is two fields of the class: the saved result rows and the baselines table.
// Database failures are inputs: the set of result positions whose row insert raises, and the
// set whose baseline step raises.

module History {
  import opened Wrappers
  import opened Json
  import opened Strings
  import opened Tester
  import opened Baseline

  /** `_normalize_schema_identifier`: the absolute path when the file exists, else the text as given. */
  function NormalizeSchemaIdentifier(schemaFile: string, absolutePath: Option<string>): (id: string)
    ensures absolutePath.None? ==> id == schemaFile
    ensures absolutePath.Some? ==> id == absolutePath.value
  {
    if absolutePath.Some? then absolutePath.value else schemaFile
  }

  // ---------------------------------------------------------------------------
  // One-level response schema

  /** The schema history gives one property value: containers are not looked into, except for a list of dicts. */
  function PropertyShape(v: Value): (s: Schema)
    ensures s.properties.Absent? && s.ty.Some?
    ensures s.items.Some? <==> v.List? && v.items != [] && v.items[0].Dict?
  {
    if v.Dict? then Leaf("object")
    else if v.List? then
      if v.items != [] && v.items[0].Dict? then Schema(Some("array"), Absent, Some(Leaf("object")))
      else Leaf("array")
    else if v.Bool? then Leaf("boolean")
    else if v.Int? then Leaf("integer")
    else if v.Float? then Leaf("number")
    else Leaf("string")
  }

  /**
   * `_extract_schema_from_response`: a non-dict body is typed by its Python type name; a dict
   * gets one level of properties, one per key.
   */
  function OneLevelSchema(body: Value): (s: Schema)
    ensures !body.Dict? ==> s == Leaf(TypeName(body))
    ensures body.Dict? ==>
      s.ty == Some("object") && s.properties.Present? &&
      Names(s.properties.entries) == (set i | 0 <= i < |body.entries| :: body.entries[i].0) &&
      forall i :: 0 <= i < |s.properties.entries| ==> s.properties.entries[i].1.properties.Absent?
  {
    if !body.Dict? then Leaf(TypeName(body))
    else
      var e := body.entries;
      var ps := seq(|e|, i requires 0 <= i < |e| => (e[i].0, PropertyShape(e[i].1)));
      assert Names(ps) == (set i | 0 <= i < |e| :: e[i].0) by {
        forall x | x in (set i | 0 <= i < |e| :: e[i].0) ensures x in Names(ps) {
          var i :| 0 <= i < |e| && e[i].0 == x;
          assert ps[i].0 == x;
        }
      }
      Schema(Some("object"), Present(ps), None)
  }

  /** A primitive other than None. */
  predicate Scalar(v: Value) {
    v.Bool? || v.Int? || v.Float? || v.Str?
  }

  /**
   * For a dict of scalars the one-level schema is exactly the full schema of the learning
   * baselines, so the two agree on flat bodies.
   */
  lemma FlatBodiesAgree(e: Entries)
    requires forall i :: 0 <= i < |e| ==> Scalar(e[i].1)
    ensures OneLevelSchema(Dict(e)) == ValueSchema(Dict(e))
  {
    var ps := OneLevelSchema(Dict(e)).properties.entries;
    var qs := ValueSchema(Dict(e)).properties.entries;
    assert |ps| == |qs| == |e|;
    forall i | 0 <= i < |e| ensures ps[i] == qs[i] {
      assert ps[i] == (e[i].0, PropertyShape(e[i].1));
      assert qs[i] == (e[i].0, ValueSchema(e[i].1));
    }
  }

  /**
   * A list body is typed 'list' here but 'array' by the learning baselines, so their schemas
   * never match.
   */
  lemma ListBodiesDisagree(items: seq<Value>)
    ensures !SchemasMatch(OneLevelSchema(List(items)), ValueSchema(List(items)))
  {
  }

  // ---------------------------------------------------------------------------
  // Saving results

  /** A result as handed to the history: the tester's result and its response time in milliseconds. */
  type TimedResult = (TestResult, real)

  /** A row of the test_results table. */
  datatype SavedRow = SavedRow(
    schemaFile: string,
    httpMethod: string,
    path: string,
    status: TestStatus,
    statusCode: int,
    expectedStatus: Option<int>,
    responseTimeMs: real,
    errorMessage: Option<string>,
    schemaMismatch: bool,
    responseSizeBytes: nat,
    authAttempts: nat,
    authSucceeded: bool)

  /** The row saved for one result; the authentication columns take the table's defaults, 1 and true. */
  function RowOf(schemaId: string, tr: TimedResult): (row: SavedRow)
    ensures row.schemaFile == schemaId && row.httpMethod == tr.0.httpMethod && row.path == tr.0.path
    ensures row.status == tr.0.status && row.statusCode == tr.0.statusCode && row.responseTimeMs == tr.1
  {
    var r := tr.0;
    SavedRow(schemaId, r.httpMethod, r.path, r.status, r.statusCode, r.expectedStatus, tr.1,
             r.errorMessage, r.schemaMismatch, r.responseSizeBytes, 1, true)
  }

  /** The rows of a sequence of results, in order. */
  function Rows(schemaId: string, results: seq<TimedResult>): (rows: seq<SavedRow>)
    ensures |rows| == |results|
    ensures forall i :: 0 <= i < |results| ==> rows[i] == RowOf(schemaId, results[i])
  {
    seq(|results|, i requires 0 <= i < |results| => RowOf(schemaId, results[i]))
  }

  /** A result that qualifies for a baseline: PASS with a non-zero status code. */
  predicate BaselineCandidate(r: TestResult) {
    r.status == Pass && r.statusCode != 0
  }

  /** The schema stored with a new baseline: the one-level schema of a truthy body, else none. */
  function BaselineSchema(body: Option<Value>): Option<Schema> {
    if body.Some? && Truthy(body.value) then Stored(Some(OneLevelSchema(body.value))) else None
  }

  /**
   * `_establish_baseline_if_needed` after the PASS check: a baseline is written only when the
   * lookup finds none and the step does not raise; a raising step leaves the table unchanged.
   */
  function BaselineStep(baselines: map<EndpointKey, BaselineRecord>, schemaId: string, tr: TimedResult, fails: bool)
    : (r: map<EndpointKey, BaselineRecord>)
  {
    var res := tr.0;
    if BaselineCandidate(res) && !fails && LookupKey(schemaId, res.httpMethod, res.path) !in baselines then
      baselines[(schemaId, res.httpMethod, res.path) := BaselineRecord(res.statusCode, tr.1, BaselineSchema(res.responseBody))]
    else baselines
  }

  /** The baselines table after the baseline steps of the first `n` results. */
  function BaselinesAfter(base: map<EndpointKey, BaselineRecord>, schemaId: string, results: seq<TimedResult>,
                          n: nat, baselineFails: set<nat>): map<EndpointKey, BaselineRecord>
    requires n <= |results|
  {
    if n == 0 then base
    else BaselineStep(BaselinesAfter(base, schemaId, results, n - 1, baselineFails), schemaId, results[n - 1], (n - 1) in baselineFails)
  }

  /** Methods as the tester produces them, upper case, so the key written is the key looked up. */
  predicate UpperMethods(results: seq<TimedResult>) {
    forall i :: 0 <= i < |results| ==> results[i].0.httpMethod == Upper(results[i].0.httpMethod)
  }

  /** An existing baseline is never overwritten. */
  lemma {:induction false} BaselinesKept(base: map<EndpointKey, BaselineRecord>, schemaId: string, results: seq<TimedResult>,
                                         n: nat, baselineFails: set<nat>)
    requires n <= |results| && UpperMethods(results)
    ensures var after := BaselinesAfter(base, schemaId, results, n, baselineFails);
      forall k :: k in base ==> k in after && after[k] == base[k]
  {
    if n > 0 {
      BaselinesKept(base, schemaId, results, n - 1, baselineFails);
      var res := results[n - 1].0;
      assert LookupKey(schemaId, res.httpMethod, res.path) == (schemaId, res.httpMethod, res.path);
    }
  }

  /** Every new baseline comes from a PASS result with a non-zero status code. */
  lemma {:induction false} BaselinesFromPasses(base: map<EndpointKey, BaselineRecord>, schemaId: string, results: seq<TimedResult>,
                                               n: nat, baselineFails: set<nat>)
    requires n <= |results|
    ensures var after := BaselinesAfter(base, schemaId, results, n, baselineFails);
      forall k :: k in after && k !in base ==>
        exists i :: 0 <= i < n && BaselineCandidate(results[i].0) && k == (schemaId, results[i].0.httpMethod, results[i].0.path)
  {
    if n > 0 {
      BaselinesFromPasses(base, schemaId, results, n - 1, baselineFails);
    }
  }

  /** After the steps, every passing endpoint whose step did not fail has a baseline. */
  lemma {:induction false} PassesHaveBaselines(base: map<EndpointKey, BaselineRecord>, schemaId: string, results: seq<TimedResult>,
                                               n: nat, baselineFails: set<nat>, i: nat)
    requires i < n <= |results| && UpperMethods(results)
    requires BaselineCandidate(results[i].0) && i !in baselineFails
    ensures LookupKey(schemaId, results[i].0.httpMethod, results[i].0.path) in BaselinesAfter(base, schemaId, results, n, baselineFails)
  {
    if i < n - 1 {
      PassesHaveBaselines(base, schemaId, results, n - 1, baselineFails, i);
    }
  }

  /** The first result position whose row insert raises, or the number of results when none does. */
  function FirstFailure(n: nat, saveFails: set<nat>): (k: nat)
    ensures k <= n
    ensures forall i :: 0 <= i < k ==> i !in saveFails
    ensures k < n ==> k in saveFails
  {
    if n == 0 then 0
    else
      var k := FirstFailure(n - 1, saveFails);
      if k < n - 1 then k else if (n - 1) in saveFails then n - 1 else n
  }

  /** What ended a save: a database error re-raised from a row insert, or reading an attribute the result lacks. */
  datatype SaveError = DatabaseError | AttributeError

  /**
   * `save_test_results` as written: the row insert passes `result.auth_attempts` and
   * `result.auth_succeeded`, which TestResult does not have, so the first result raises
   * AttributeError before anything is written; only an empty run succeeds.
   */
  function SaveOutcomeAsWritten(results: seq<TimedResult>): (r: Result<nat, SaveError>)
    ensures r.Ok? <==> results == []
  {
    if results == [] then Ok(0) else Err(AttributeError)
  }

  class TestHistory {
    /** The test_results table. */
    var saved: seq<SavedRow>
    /** The baselines table. */
    var baselines: map<EndpointKey, BaselineRecord>

    constructor (saved: seq<SavedRow>, baselines: map<EndpointKey, BaselineRecord>)
      ensures this.saved == saved && this.baselines == baselines
    {
      this.saved := saved;
      this.baselines := baselines;
    }

    /**
     * `save_test_results`, with the authentication columns taking the table's defaults: one
     * row per result in order, each followed by its baseline step. A failing row insert
     * re-raises and ends the run, keeping the rows already written; a failing baseline step
     * is swallowed. Without failures the count is the number of results.
     */
    method SaveTestResults(schemaId: string, results: seq<TimedResult>, saveFails: set<nat>, baselineFails: set<nat>)
      returns (r: Result<nat, SaveError>)
      modifies this
      ensures var k := FirstFailure(|results|, saveFails);
        saved == old(saved) + Rows(schemaId, results[..k]) &&
        baselines == BaselinesAfter(old(baselines), schemaId, results, k, baselineFails)
      ensures r.Ok? <==> forall i :: 0 <= i < |results| ==> i !in saveFails
      ensures r.Ok? ==> r.value == |results|
      ensures r.Err? ==> r.error == DatabaseError
    {
      var savedCount := 0;
      var i := 0;
      while i < |results|
        invariant 0 <= i <= |results| && savedCount == i
        invariant forall j :: 0 <= j < i ==> j !in saveFails
        invariant FirstFailure(i, saveFails) == i
        invariant saved == old(saved) + Rows(schemaId, results[..i])
        invariant baselines == BaselinesAfter(old(baselines), schemaId, results, i, baselineFails)
      {
        if i in saveFails {
          assert FirstFailure(|results|, saveFails) == i by {
            FirstFailureAt(|results|, saveFails, i);
          }
          return Err(DatabaseError);
        }
        saved := saved + [RowOf(schemaId, results[i])];
        savedCount := savedCount + 1;
        var res := results[i].0;
        if BaselineCandidate(res) && i !in baselineFails {
          EstablishBaselineIfNeeded(schemaId, res.httpMethod, res.path, res.statusCode, results[i].1, res.responseBody);
        }
        assert results[..i + 1] == results[..i] + [results[i]];
        i := i + 1;
      }
      return Ok(savedCount);
    }

    /** `_establish_baseline_if_needed` when the database works: write a baseline only when none exists. */
    method EstablishBaselineIfNeeded(schemaId: string, httpMethod: string, path: string, statusCode: int,
                                     responseTimeMs: real, body: Option<Value>)
      modifies this
      ensures LookupKey(schemaId, httpMethod, path) in old(baselines) ==> baselines == old(baselines)
      ensures LookupKey(schemaId, httpMethod, path) !in old(baselines) ==>
        baselines == old(baselines)[(schemaId, httpMethod, path) := BaselineRecord(statusCode, responseTimeMs, BaselineSchema(body))]
      ensures saved == old(saved)
    {
      if LookupKey(schemaId, httpMethod, path) !in baselines {
        var schema: Option<Schema> := None;
        if body.Some? && Truthy(body.value) {
          schema := Some(OneLevelSchema(body.value));
        }
        baselines := baselines[(schemaId, httpMethod, path) := BaselineRecord(statusCode, responseTimeMs, Stored(schema))];
      }
    }
  }

  /** A position in the failure set with no earlier one is the first failure. */
  lemma {:induction false} FirstFailureAt(n: nat, saveFails: set<nat>, i: nat)
    requires i < n && i in saveFails && forall j :: 0 <= j < i ==> j !in saveFails
    ensures FirstFailure(n, saveFails) == i
  {
    if n - 1 > i {
      FirstFailureAt(n - 1, saveFails, i);
    }
  }

  /** Evidence for the finding: one passing result is saved by the corrected run but not by the code as written. */
  method OneResultRun(h: TestHistory, res: TestResult)
    returns (asWritten: Result<nat, SaveError>, corrected: Result<nat, SaveError>)
    modifies h
    ensures asWritten == Err(AttributeError)
    ensures corrected == Ok(1) && |h.saved| == |old(h.saved)| + 1
  {
    asWritten := SaveOutcomeAsWritten([(res, 0.0)]);
    corrected := h.SaveTestResults("schema.yaml", [(res, 0.0)], {}, {});
  }
}
