/**
 * The validation interface for AI-generated test cases (apitest/ai/validation.py): the
 * feedback record and its dict form, the choice of the cases to review, the grouping of
 * stored cases by endpoint, the mapping of a reviewer's choice to feedback, and saving it.
 *
 * Storage reads (a stored case by id, the pending and all cases of a schema) are
 * parameters; the storage writes of `save_feedback` are the fields of `ValidationUI`.
 * Console prompts are parameters holding the reviewer's answers. A Python exception is None.
 */
module Validation {
  import opened Wrappers
  import opened Json
  import opened Strings
  import opened OrderedDict

  const Pending := "pending"
  const Approved := "approved"
  const Rejected := "rejected"
  const NeedsImprovement := "needs_improvement"

  // ---------------------------------------------------------------------------
  // ValidationFeedback
  // ---------------------------------------------------------------------------

  /** The `ValidationFeedback` dataclass; None fields are `Null`. */
  datatype ValidationFeedback = ValidationFeedback(
    testCaseId: Value, status: Value, feedbackText: Value, annotations: Value,
    suggestedImprovements: Value, validatedBy: Value)

  /** `to_dict`: falsy annotations become `{}` and falsy suggestions `[]`. */
  function ToDict(f: ValidationFeedback): Value {
    Dict([("test_case_id", f.testCaseId), ("status", f.status), ("feedback_text", f.feedbackText),
          ("annotations", if Truthy(f.annotations) then f.annotations else EmptyDict),
          ("suggested_improvements", if Truthy(f.suggestedImprovements) then f.suggestedImprovements else List([])),
          ("validated_by", f.validatedBy)])
  }

  /** `from_dict`: the id and the status are required, every other field defaults to None. */
  function FromDict(data: Value): (r: Option<ValidationFeedback>)
    ensures r.Some? <==> Has(data, "test_case_id") && Has(data, "status")
  {
    if Has(data, "test_case_id") && Has(data, "status") then
      Some(ValidationFeedback(GetOr(data, "test_case_id", Null), GetOr(data, "status", Null),
                              GetOr(data, "feedback_text", Null), GetOr(data, "annotations", Null),
                              GetOr(data, "suggested_improvements", Null), GetOr(data, "validated_by", Null)))
    else None
  }

  /** The feedback as `to_dict` stores it. */
  function Normalised(f: ValidationFeedback): ValidationFeedback {
    f.(annotations := if Truthy(f.annotations) then f.annotations else EmptyDict,
       suggestedImprovements := if Truthy(f.suggestedImprovements) then f.suggestedImprovements else List([]))
  }

  /** The dict `to_dict` builds holds each field under its own key. */
  lemma ToDictFields(f: ValidationFeedback)
    ensures var d := ToDict(f);
      Has(d, "test_case_id") && Has(d, "status") &&
      GetOr(d, "test_case_id", Null) == f.testCaseId && GetOr(d, "status", Null) == f.status &&
      GetOr(d, "feedback_text", Null) == f.feedbackText &&
      GetOr(d, "annotations", Null) == Normalised(f).annotations &&
      GetOr(d, "suggested_improvements", Null) == Normalised(f).suggestedImprovements &&
      GetOr(d, "validated_by", Null) == f.validatedBy
  {
    var n := Normalised(f);
    FeedbackEntries(f.testCaseId, f.status, f.feedbackText, n.annotations, n.suggestedImprovements, f.validatedBy);
    assert ToDict(f).entries ==
      [("test_case_id", f.testCaseId), ("status", f.status), ("feedback_text", f.feedbackText),
       ("annotations", n.annotations), ("suggested_improvements", n.suggestedImprovements),
       ("validated_by", f.validatedBy)];
  }

  /** Each of the six keys finds its own value, whatever the values are. */
  lemma FeedbackEntries(id: Value, status: Value, text: Value, annotations: Value, suggestions: Value, validator: Value)
    ensures var e := [("test_case_id", id), ("status", status), ("feedback_text", text),
                      ("annotations", annotations), ("suggested_improvements", suggestions), ("validated_by", validator)];
      Lookup(e, "test_case_id") == Some(id) && Lookup(e, "status") == Some(status) &&
      Lookup(e, "feedback_text") == Some(text) && Lookup(e, "annotations") == Some(annotations) &&
      Lookup(e, "suggested_improvements") == Some(suggestions) && Lookup(e, "validated_by") == Some(validator)
  {
    var e := [("test_case_id", id), ("status", status), ("feedback_text", text),
              ("annotations", annotations), ("suggested_improvements", suggestions), ("validated_by", validator)];
    LookupAt(e, 0);
    LookupAt(e, 1);
    LookupAt(e, 2);
    LookupAt(e, 3);
    LookupAt(e, 4);
    LookupAt(e, 5);
  }

  /**
   * `from_dict(to_dict(f))` is `f` with falsy annotations and suggestions normalised to
   * `{}` and `[]`; it is `f` itself exactly when those are truthy or already empty.
   */
  lemma RoundTrip(f: ValidationFeedback)
    ensures FromDict(ToDict(f)) == Some(Normalised(f))
    ensures FromDict(ToDict(f)) == Some(f) <==>
      (Truthy(f.annotations) || f.annotations == EmptyDict) &&
      (Truthy(f.suggestedImprovements) || f.suggestedImprovements == List([]))
  {
    ToDictFields(f);
  }

  // ---------------------------------------------------------------------------
  // _get_test_cases_to_review
  // ---------------------------------------------------------------------------

  /** Storage's `get_test_case`: the stored case for an id, a falsy value when there is none. */
  type CaseLookup = Value -> Value

  /** The stored cases of the ids, in order, skipping ids with no stored case. */
  function CasesByIds(ids: seq<Value>, lookup: CaseLookup): seq<Value>
    decreases |ids|
  {
    if ids == [] then []
    else
      var found := lookup(ids[|ids| - 1]);
      CasesByIds(ids[..|ids| - 1], lookup) + (if Truthy(found) then [found] else [])
  }

  /** A test result that names an AI-generated case. */
  predicate NamesAiCase(result: Value) {
    Truthy(GetOr(result, "is_ai_generated", Null)) && Truthy(GetOr(result, "test_case_id", Null))
  }

  /**
   * The stored cases named by the AI-generated results, in order; None where a result is not
   * a dict.
   */
  function CasesFromResults(results: seq<Value>, lookup: CaseLookup): (r: Option<seq<Value>>)
    decreases |results|
  {
    if results == [] then Some([])
    else
      var result := results[|results| - 1];
      match CasesFromResults(results[..|results| - 1], lookup)
      case None => None
      case Some(before) =>
        if !result.Dict? then None
        else if NamesAiCase(result) && Truthy(lookup(GetOr(result, "test_case_id", Null))) then
          Some(before + [lookup(GetOr(result, "test_case_id", Null))])
        else Some(before)
  }

  /**
   * `_get_test_cases_to_review`: the cases of the explicit ids when there are any, else
   * those named by the test results when there are any, else the pending cases.
   */
  function CasesToReview(results: Value, ids: Value, pending: seq<Value>, lookup: CaseLookup): Option<seq<Value>> {
    if Truthy(ids) then
      match Iter(ids)
      case None => None
      case Some(xs) => Some(CasesByIds(xs, lookup))
    else if Truthy(results) then
      match Iter(results)
      case None => None
      case Some(rs) => CasesFromResults(rs, lookup)
    else Some(pending)
  }

  /**
   * The cases come from the first source available: explicit ids make the results and the
   * pending cases irrelevant, results make the pending cases irrelevant, and with neither
   * the pending cases are returned.
   */
  lemma ReviewSourcePriority(results: Value, ids: Value, pending: seq<Value>, lookup: CaseLookup,
                             otherResults: Value, otherPending: seq<Value>)
    ensures Truthy(ids) ==> CasesToReview(results, ids, pending, lookup) == CasesToReview(otherResults, ids, otherPending, lookup)
    ensures !Truthy(ids) && Truthy(results) ==>
      CasesToReview(results, ids, pending, lookup) == CasesToReview(results, ids, otherPending, lookup)
    ensures !Truthy(ids) && !Truthy(results) ==> CasesToReview(results, ids, pending, lookup) == Some(pending)
  {
  }

  /** The cases of explicit ids are the stored cases of those ids, unknown ids skipped. */
  lemma {:induction false} CasesByIdsMembers(ids: seq<Value>, lookup: CaseLookup)
    ensures |CasesByIds(ids, lookup)| <= |ids|
    ensures forall x :: x in CasesByIds(ids, lookup) <==> exists i :: 0 <= i < |ids| && Truthy(lookup(ids[i])) && x == lookup(ids[i])
    decreases |ids|
  {
    if ids != [] {
      var init := ids[..|ids| - 1];
      CasesByIdsMembers(init, lookup);
      assert forall i :: 0 <= i < |init| ==> init[i] == ids[i];
    }
  }

  /**
   * The cases of test results are the stored cases of the AI-generated results that carry
   * an id; any result that is not a dict raises.
   */
  lemma {:induction false} CasesFromResultsMembers(results: seq<Value>, lookup: CaseLookup)
    ensures CasesFromResults(results, lookup).Some? <==> forall i :: 0 <= i < |results| ==> results[i].Dict?
    ensures CasesFromResults(results, lookup).Some? ==> forall x :: x in CasesFromResults(results, lookup).value <==>
      exists i :: 0 <= i < |results| && NamesAiCase(results[i]) &&
        Truthy(lookup(GetOr(results[i], "test_case_id", Null))) && x == lookup(GetOr(results[i], "test_case_id", Null))
    decreases |results|
  {
    if results != [] {
      var init := results[..|results| - 1];
      CasesFromResultsMembers(init, lookup);
      assert forall i :: 0 <= i < |init| ==> init[i] == results[i];
    }
  }

  /** `_get_test_cases_to_review`, looping over the chosen source. */
  method GetTestCasesToReview(results: Value, ids: Value, pending: seq<Value>, lookup: CaseLookup)
    returns (r: Option<seq<Value>>)
    ensures r == CasesToReview(results, ids, pending, lookup)
  {
    if Truthy(ids) {
      var xs := Iter(ids);
      if xs.None? {
        return None;
      }
      var testCases := CollectByIds(xs.value, lookup);
      return Some(testCases);
    } else if Truthy(results) {
      var rs := Iter(results);
      if rs.None? {
        return None;
      }
      r := CollectFromResults(rs.value, lookup);
    } else {
      return Some(pending);
    }
  }

  /** The loop over explicit ids, keeping the cases found. */
  method CollectByIds(ids: seq<Value>, lookup: CaseLookup) returns (testCases: seq<Value>)
    ensures testCases == CasesByIds(ids, lookup)
  {
    testCases := [];
    for i := 0 to |ids|
      invariant testCases == CasesByIds(ids[..i], lookup)
    {
      assert ids[..i + 1][..i] == ids[..i];
      var testCase := lookup(ids[i]);
      if Truthy(testCase) {
        testCases := testCases + [testCase];
      }
    }
    assert ids[..|ids|] == ids;
  }

  /** The loop over test results, keeping the cases of the AI-generated ones. */
  method CollectFromResults(results: seq<Value>, lookup: CaseLookup) returns (r: Option<seq<Value>>)
    ensures r == CasesFromResults(results, lookup)
  {
    var testCases: seq<Value> := [];
    for i := 0 to |results|
      invariant CasesFromResults(results[..i], lookup) == Some(testCases)
    {
      assert results[..i + 1][..i] == results[..i];
      var result := results[i];
      if !result.Dict? {
        ResultsPrefix(results, lookup, i + 1);
        return None;
      }
      if NamesAiCase(result) {
        var testCase := lookup(GetOr(result, "test_case_id", Null));
        if Truthy(testCase) {
          testCases := testCases + [testCase];
        }
      }
    }
    assert results[..|results|] == results;
    r := Some(testCases);
  }

  /** Once a prefix of the results raises, all of them do. */
  lemma {:induction false} ResultsPrefix(results: seq<Value>, lookup: CaseLookup, n: nat)
    requires n <= |results| && CasesFromResults(results[..n], lookup).None?
    ensures CasesFromResults(results, lookup).None?
    decreases |results| - n
  {
    if n < |results| {
      assert results[..n + 1][..n] == results[..n];
      ResultsPrefix(results, lookup, n + 1);
    } else {
      assert results[..n] == results;
    }
  }

  // ---------------------------------------------------------------------------
  // get_all_test_cases_by_endpoint
  // ---------------------------------------------------------------------------

  /** The cases passing `test`, in order (a list comprehension); None where `test` raises. */
  function Keep(cases: seq<Value>, test: Value -> Option<bool>): Option<seq<Value>>
    decreases |cases|
  {
    if cases == [] then Some([])
    else
      match Keep(cases[..|cases| - 1], test)
      case None => None
      case Some(before) =>
        match test(cases[|cases| - 1])
        case None => None
        case Some(keep) => Some(before + if keep then [cases[|cases| - 1]] else [])
  }

  /** A comprehension keeps exactly the cases its test accepts, and raises when the test raises on any. */
  lemma {:induction false} KeepMembers(cases: seq<Value>, test: Value -> Option<bool>)
    ensures Keep(cases, test).Some? <==> forall i :: 0 <= i < |cases| ==> test(cases[i]).Some?
    ensures Keep(cases, test).Some? ==> forall x :: x in Keep(cases, test).value <==> x in cases && test(x) == Some(true)
    decreases |cases|
  {
    if cases != [] {
      var init := cases[..|cases| - 1];
      KeepMembers(init, test);
      SplitLast(cases);
      assert forall i :: 0 <= i < |init| ==> init[i] == cases[i];
    }
  }

  /** `tc['method'].upper() == method.upper()`; None where the case has no string method. */
  function MethodIs(tc: Value, httpMethod: string): Option<bool> {
    if Has(tc, "method") && GetOr(tc, "method", Null).Str? then
      Some(Upper(GetOr(tc, "method", Null).s) == Upper(httpMethod))
    else None
  }

  /** `tc['path'] == path`; None where the case has no path. */
  function PathIs(tc: Value, path: string): Option<bool> {
    if Has(tc, "path") then Some(GetOr(tc, "path", Null) == Str(path)) else None
  }

  /** A filter argument that is given and not empty (`if method:`). */
  predicate Given(filter: Option<string>) {
    filter.Some? && filter.value != ""
  }

  /** The cases left after the optional method and path filters. */
  function Filtered(all: seq<Value>, httpMethod: Option<string>, path: Option<string>): Option<seq<Value>> {
    var byMethod := if Given(httpMethod) then Keep(all, tc => MethodIs(tc, httpMethod.value)) else Some(all);
    if byMethod.None? then None
    else if Given(path) then Keep(byMethod.value, tc => PathIs(tc, path.value))
    else byMethod
  }

  /**
   * The `(method, path)` key of a case; None where either is missing (KeyError) or is a
   * list or dict (the TypeError of hashing the tuple).
   */
  function EndpointKey(tc: Value): (r: Option<(Value, Value)>)
    ensures r.Some? <==> Has(tc, "method") && Has(tc, "path") &&
                         Hashable(GetOr(tc, "method", Null)) && Hashable(GetOr(tc, "path", Null))
    ensures r.Some? ==> r.value == (GetOr(tc, "method", Null), GetOr(tc, "path", Null))
  {
    if Has(tc, "method") && Has(tc, "path") then
      var key := (GetOr(tc, "method", Null), GetOr(tc, "path", Null));
      if Hashable(key.0) && Hashable(key.1) then Some(key) else None
    else None
  }

  type Groups = seq<((Value, Value), seq<Value>)>

  function Append(tc: Value): seq<Value> -> seq<Value> {
    xs => xs + [tc]
  }

  /** The defaultdict(list) grouping, keys in order of first appearance. */
  function Grouped(cases: seq<Value>): Option<Groups>
    decreases |cases|
  {
    if cases == [] then Some([])
    else
      var tc := cases[|cases| - 1];
      match Grouped(cases[..|cases| - 1])
      case None => None
      case Some(groups) =>
        match EndpointKey(tc)
        case None => None
        case Some(key) => Some(Upsert(groups, key, [], Append(tc)))
  }

  /** The reference grouping: the cases with endpoint `key`, in their order. */
  function WithKey(cases: seq<Value>, key: (Value, Value)): seq<Value>
    decreases |cases|
  {
    if cases == [] then []
    else
      var tc := cases[|cases| - 1];
      WithKey(cases[..|cases| - 1], key) + if EndpointKey(tc) == Some(key) then [tc] else []
  }

  lemma {:induction false} WithKeyMembers(cases: seq<Value>, key: (Value, Value))
    ensures forall x :: x in WithKey(cases, key) <==> x in cases && EndpointKey(x) == Some(key)
    decreases |cases|
  {
    if cases != [] {
      var init := cases[..|cases| - 1];
      WithKeyMembers(init, key);
      SplitLast(cases);
    }
  }

  /**
   * The grouping raises exactly when some case lacks its method or path, or has a list or
   * dict there; otherwise its keys
   * are distinct and each key maps to the cases with that endpoint, in order, and a key is
   * present exactly when some case has it.
   */
  lemma {:induction false} GroupedShape(cases: seq<Value>)
    ensures Grouped(cases).Some? <==> forall i :: 0 <= i < |cases| ==> EndpointKey(cases[i]).Some?
    ensures Grouped(cases).Some? ==> Distinct(KeysOf(Grouped(cases).value))
    ensures Grouped(cases).Some? ==> forall key ::
      At(Grouped(cases).value, key) == if WithKey(cases, key) == [] then None else Some(WithKey(cases, key))
    decreases |cases|
  {
    if cases != [] {
      var init := cases[..|cases| - 1];
      var tc := cases[|cases| - 1];
      GroupedShape(init);
      assert forall i :: 0 <= i < |init| ==> init[i] == cases[i];
      if Grouped(cases).Some? {
        var groups := Grouped(init).value;
        var k := EndpointKey(tc).value;
        UpsertDistinct(groups, k, [], Append(tc));
        forall key
          ensures At(Grouped(cases).value, key) == if WithKey(cases, key) == [] then None else Some(WithKey(cases, key))
        {
          AtUpsert(groups, k, [], Append(tc), key);
          assert Grouped(cases).value == Upsert(groups, k, [], Append(tc));
          assert WithKey(cases, key) == WithKey(init, key) + if EndpointKey(tc) == Some(key) then [tc] else [];
          assert At(groups, key) == if WithKey(init, key) == [] then None else Some(WithKey(init, key));
          if key == k {
            assert At(groups, k).GetOr([]) == WithKey(init, key);
            assert Append(tc)(At(groups, k).GetOr([])) == WithKey(init, key) + [tc];
          } else {
            assert WithKey(cases, key) == WithKey(init, key);
          }
        }
      }
    }
  }

  /** `get_all_test_cases_by_endpoint`, given the schema's stored cases. */
  function CasesByEndpoint(all: seq<Value>, httpMethod: Option<string>, path: Option<string>): Option<Groups> {
    match Filtered(all, httpMethod, path)
    case None => None
    case Some(cases) => Grouped(cases)
  }

  /**
   * Every group's key satisfies the filters given: its method equals the requested one up to
   * case, its path is the requested one.
   */
  lemma EndpointFilters(all: seq<Value>, httpMethod: Option<string>, path: Option<string>)
    requires CasesByEndpoint(all, httpMethod, path).Some?
    ensures forall key :: key in KeysOf(CasesByEndpoint(all, httpMethod, path).value) ==>
      (Given(httpMethod) ==> key.0.Str? && Upper(key.0.s) == Upper(httpMethod.value)) &&
      (Given(path) ==> key.1 == Str(path.value))
  {
    var cases := Filtered(all, httpMethod, path).value;
    var groups := CasesByEndpoint(all, httpMethod, path).value;
    GroupedShape(cases);
    var byMethod := if Given(httpMethod) then Keep(all, tc => MethodIs(tc, httpMethod.value)) else Some(all);
    if Given(httpMethod) {
      KeepMembers(all, tc => MethodIs(tc, httpMethod.value));
    }
    if Given(path) {
      KeepMembers(byMethod.value, tc => PathIs(tc, path.value));
    }
    forall key: (Value, Value) | key in KeysOf(groups)
      ensures (Given(httpMethod) ==> key.0.Str? && Upper(key.0.s) == Upper(httpMethod.value)) &&
              (Given(path) ==> key.1 == Str(path.value))
    {
      AtKeys(groups, key);
      WithKeyMembers(cases, key);
      var tc := WithKey(cases, key)[0];
      assert tc in WithKey(cases, key);
      assert tc in byMethod.value;
    }
  }

  /** `get_all_test_cases_by_endpoint`: the comprehensions, then the grouping loop. */
  method GetAllTestCasesByEndpoint(all: seq<Value>, httpMethod: Option<string>, path: Option<string>)
    returns (r: Option<Groups>)
    ensures r == CasesByEndpoint(all, httpMethod, path)
  {
    var filtered := Filtered(all, httpMethod, path);
    if filtered.None? {
      return None;
    }
    var cases := filtered.value;
    var groups: Groups := [];
    for i := 0 to |cases|
      invariant Grouped(cases[..i]) == Some(groups)
    {
      assert cases[..i + 1][..i] == cases[..i];
      var key := EndpointKey(cases[i]);
      if key.None? {
        GroupedPrefix(cases, i + 1);
        return None;
      }
      groups := Upsert(groups, key.value, [], Append(cases[i]));
    }
    assert cases[..|cases|] == cases;
    return Some(groups);
  }

  /** Once a prefix of the cases cannot be grouped, none can. */
  lemma {:induction false} GroupedPrefix(cases: seq<Value>, n: nat)
    requires n <= |cases| && Grouped(cases[..n]).None?
    ensures Grouped(cases).None?
    decreases |cases| - n
  {
    if n < |cases| {
      assert cases[..n + 1][..n] == cases[..n];
      GroupedPrefix(cases, n + 1);
    } else {
      assert cases[..n] == cases;
    }
  }

  // ---------------------------------------------------------------------------
  // _review_single_test_case
  // ---------------------------------------------------------------------------

  /** The answers typed at the improvements prompt, up to the first blank one. */
  function UntilBlank(answers: seq<string>): (r: seq<string>)
    ensures r <= answers
    ensures forall i :: 0 <= i < |r| ==> !IsBlank(r[i])
    ensures |r| < |answers| ==> IsBlank(answers[|r|])
  {
    if answers == [] || IsBlank(answers[0]) then [] else [answers[0]] + UntilBlank(answers[1..])
  }

  /** The prompt loop for suggested improvements: read answers until a blank one. */
  method ReadImprovements(answers: seq<string>) returns (improvements: seq<string>)
    ensures improvements == UntilBlank(answers)
  {
    improvements := [];
    var i := 0;
    while i < |answers| && !IsBlank(answers[i])
      invariant 0 <= i <= |answers|
      invariant improvements == answers[..i]
      invariant forall j :: 0 <= j < i ==> !IsBlank(answers[j])
    {
      improvements := improvements + [answers[i]];
      i := i + 1;
    }
  }

  /** The status each reviewing choice records. */
  function StatusOf(choice: string): string {
    if choice == "a" then Approved else if choice == "r" then Rejected else NeedsImprovement
  }

  /**
   * `_review_single_test_case` after the prompts: `choice` is the validated choice,
   * `feedbackAnswer` the answer at the feedback prompt and `improvementAnswers` the answers
   * at the improvements prompt. None is the exception of a case without an id or with a
   * `test_case_json` that is not a dict; Some(None) is a skip or quit.
   */
  method ReviewSingleTestCase(testCase: Value, choice: string, feedbackAnswer: string, improvementAnswers: seq<string>)
    returns (r: Option<Option<ValidationFeedback>>)
    requires choice in ["a", "r", "i", "s", "q"]
    ensures r.None? <==> !Has(testCase, "id") || !GetOr(testCase, "test_case_json", EmptyDict).Dict?
    ensures r.Some? ==> (r.value.None? <==> choice == "s" || choice == "q")
    ensures r.Some? && r.value.Some? ==>
      var f := r.value.value;
      f.testCaseId == GetOr(testCase, "id", Null) &&
      f.status == Str(StatusOf(choice)) &&
      f.annotations == Null && f.validatedBy == Null
    ensures r.Some? && r.value.Some? ==>
      var f := r.value.value;
      (f.feedbackText != Null <==> (choice == "r" || choice == "i") && !IsBlank(feedbackAnswer)) &&
      (f.feedbackText != Null ==> f.feedbackText == Str(feedbackAnswer))
    ensures r.Some? && r.value.Some? ==>
      var f := r.value.value;
      (f.suggestedImprovements != Null <==>
        choice == "i" && improvementAnswers != [] && !IsBlank(improvementAnswers[0])) &&
      (f.suggestedImprovements != Null ==> f.suggestedImprovements == List(Strs(UntilBlank(improvementAnswers))))
  {
    if !Has(testCase, "id") {
      return None;
    }
    var testCaseId := GetOr(testCase, "id", Null);
    var testCaseJson := GetOr(testCase, "test_case_json", EmptyDict);
    if !testCaseJson.Dict? {
      return None;
    }
    if choice == "q" || choice == "s" {
      return Some(None);
    }
    var status := StatusOf(choice);
    var feedbackText := Null;
    if choice == "r" || choice == "i" {
      feedbackText := if IsBlank(feedbackAnswer) then Null else Str(feedbackAnswer);
    }
    var suggested := Null;
    if choice == "i" {
      var improvements := ReadImprovements(improvementAnswers);
      suggested := if improvements != [] then List(Strs(improvements)) else Null;
    }
    return Some(Some(ValidationFeedback(testCaseId, Str(status), feedbackText, Null, suggested, Null)));
  }

  // ---------------------------------------------------------------------------
  // save_feedback
  // ---------------------------------------------------------------------------

  /** A row of the validation feedback table: `save_validation` takes no suggestions. */
  datatype SavedValidation = SavedValidation(testCaseId: Value, status: Value, feedbackText: Value, annotations: Value)

  /** How the storage calls for one feedback end: both succeed, `save_validation` raises, or `update_validation_status` raises. */
  datatype SaveOutcome = Stored | SaveFails | UpdateFails

  function Record(f: ValidationFeedback): SavedValidation {
    SavedValidation(f.testCaseId, f.status, f.feedbackText, f.annotations)
  }

  /** The rows saved for the feedback list, given how each entry's storage calls end. */
  function Persisted(feedback: seq<ValidationFeedback>, outcomes: seq<SaveOutcome>): seq<SavedValidation>
    requires |outcomes| == |feedback|
    decreases |feedback|
  {
    if feedback == [] then []
    else
      var n := |feedback| - 1;
      Persisted(feedback[..n], outcomes[..n]) + if outcomes[n] == SaveFails then [] else [Record(feedback[n])]
  }

  /** The validation status per test case after the updates that succeed. */
  function StatusesAfter(statuses: map<Value, Value>, feedback: seq<ValidationFeedback>, outcomes: seq<SaveOutcome>): map<Value, Value>
    requires |outcomes| == |feedback|
    decreases |feedback|
  {
    if feedback == [] then statuses
    else
      var n := |feedback| - 1;
      var before := StatusesAfter(statuses, feedback[..n], outcomes[..n]);
      if outcomes[n] == Stored then before[feedback[n].testCaseId := feedback[n].status] else before
  }

  /**
   * An error on one entry does not stop the others: the saved rows are, in order, those of
   * every entry whose `save_validation` did not raise.
   */
  lemma {:induction false} PersistedMembers(feedback: seq<ValidationFeedback>, outcomes: seq<SaveOutcome>)
    requires |outcomes| == |feedback|
    ensures |Persisted(feedback, outcomes)| <= |feedback|
    ensures forall row :: row in Persisted(feedback, outcomes) <==>
      exists i :: 0 <= i < |feedback| && outcomes[i] != SaveFails && row == Record(feedback[i])
    decreases |feedback|
  {
    if feedback != [] {
      var n := |feedback| - 1;
      PersistedMembers(feedback[..n], outcomes[..n]);
      assert forall i :: 0 <= i < n ==> feedback[..n][i] == feedback[i] && outcomes[..n][i] == outcomes[i];
    }
  }

  /**
   * The status of a test case is the one of its last feedback entry, when that entry's
   * storage calls both succeed.
   */
  lemma {:induction false} StatusOfLastEntry(statuses: map<Value, Value>, feedback: seq<ValidationFeedback>,
                                             outcomes: seq<SaveOutcome>, i: nat)
    requires |outcomes| == |feedback| && i < |feedback| && outcomes[i] == Stored
    requires forall j :: i < j < |feedback| ==> feedback[j].testCaseId != feedback[i].testCaseId
    ensures var after := StatusesAfter(statuses, feedback, outcomes);
      feedback[i].testCaseId in after && after[feedback[i].testCaseId] == feedback[i].status
    decreases |feedback|
  {
    var n := |feedback| - 1;
    if i < n {
      StatusOfLastEntry(statuses, feedback[..n], outcomes[..n], i);
    }
  }

  /** Test cases without a fully stored entry keep their status. */
  lemma {:induction false} StatusUntouched(statuses: map<Value, Value>, feedback: seq<ValidationFeedback>,
                                           outcomes: seq<SaveOutcome>, id: Value)
    requires |outcomes| == |feedback|
    requires forall i :: 0 <= i < |feedback| && feedback[i].testCaseId == id ==> outcomes[i] != Stored
    ensures var after := StatusesAfter(statuses, feedback, outcomes);
      (id in after <==> id in statuses) && (id in statuses ==> after[id] == statuses[id])
    decreases |feedback|
  {
    if feedback != [] {
      var n := |feedback| - 1;
      StatusUntouched(statuses, feedback[..n], outcomes[..n], id);
    }
  }

  /** Suggested improvements and the reviewer never reach storage. */
  lemma {:induction false} SuggestionsNotPersisted(feedback: seq<ValidationFeedback>, other: seq<ValidationFeedback>,
                                                   outcomes: seq<SaveOutcome>, statuses: map<Value, Value>)
    requires |outcomes| == |feedback| == |other|
    requires forall i :: 0 <= i < |feedback| ==>
      other[i] == feedback[i].(suggestedImprovements := other[i].suggestedImprovements, validatedBy := other[i].validatedBy)
    ensures Persisted(feedback, outcomes) == Persisted(other, outcomes)
    ensures StatusesAfter(statuses, feedback, outcomes) == StatusesAfter(statuses, other, outcomes)
    decreases |feedback|
  {
    if feedback != [] {
      var n := |feedback| - 1;
      SuggestionsNotPersisted(feedback[..n], other[..n], outcomes[..n], statuses);
    }
  }

  /** The storage tables `save_feedback` writes to. */
  class ValidationUI {
    /** The validation feedback table, in insertion order; a row's id is its position plus one. */
    var validations: seq<SavedValidation>
    /** The validation status column of the AI test cases. */
    var statuses: map<Value, Value>

    constructor(statuses: map<Value, Value>)
      ensures validations == [] && this.statuses == statuses
    {
      validations := [];
      this.statuses := statuses;
    }

    /**
     * `save_feedback`: saves each entry, then updates its case's status; an error on one
     * entry is logged and the loop goes on. `outcomes[i]` says how entry i's storage calls end.
     */
    method SaveFeedback(feedback: seq<ValidationFeedback>, outcomes: seq<SaveOutcome>)
      requires |outcomes| == |feedback|
      modifies this
      ensures validations == old(validations) + Persisted(feedback, outcomes)
      ensures statuses == StatusesAfter(old(statuses), feedback, outcomes)
    {
      for i := 0 to |feedback|
        invariant validations == old(validations) + Persisted(feedback[..i], outcomes[..i])
        invariant statuses == StatusesAfter(old(statuses), feedback[..i], outcomes[..i])
      {
        assert feedback[..i + 1][..i] == feedback[..i];
        assert outcomes[..i + 1][..i] == outcomes[..i];
        if outcomes[i] != SaveFails {
          validations := validations + [Record(feedback[i])];
          if outcomes[i] == Stored {
            statuses := statuses[feedback[i].testCaseId := feedback[i].status];
          }
        }
      }
      assert feedback[..|feedback|] == feedback;
      assert outcomes[..|outcomes|] == outcomes;
    }
  }
}
