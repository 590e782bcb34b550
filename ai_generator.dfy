/**
 * The AI test generator (apitest/ai/ai_generator.py): for each endpoint it takes the context
 * the context builder made, picks a prompt template, asks the Groq client, parses the answer
 * and turns every parsed case into an AI-generated test case. An error on one endpoint skips
 * that endpoint and the loop goes on.
 *
 * What the context builder returned, what the SDK answers and which fenced blocks the answer
 * holds are given per endpoint; the prompt text itself is not built here, so the loop records
 * the endpoint information and template name each prompt would be built from.
 */
module AiGenerator {
  import opened Wrappers
  import opened Json
  import opened Strings
  import Config
  import GroqClient
  import ResponseParser
  import PromptBuilder
  import ContextBuilder

  // ---------------------------------------------------------------------------
  // _create_ai_client
  // ---------------------------------------------------------------------------

  datatype ClientError = ValueError(message: string) | NotImplementedError(message: string)

  /**
   * Why no client can be made for a configuration, or None when a Groq client is made: only
   * the groq provider with a truthy api key works; openai and anthropic are not implemented;
   * anything else is unsupported.
   */
  function ProviderError(cfg: Config.AIConfig): (e: Option<ClientError>)
    ensures e.None? <==> Lower(cfg.provider) == "groq" && Truthy(cfg.apiKey)
    ensures (Lower(cfg.provider) == "openai" || Lower(cfg.provider) == "anthropic") <==>
            e.Some? && e.value.NotImplementedError?
  {
    var provider := Lower(cfg.provider);
    if provider == "groq" then
      if Truthy(cfg.apiKey) then None
      else Some(ValueError("Groq API key is required. Set GROQ_API_KEY environment variable or provide in config."))
    else if provider == "openai" then Some(NotImplementedError("OpenAI provider not yet implemented"))
    else if provider == "anthropic" then Some(NotImplementedError("Anthropic provider not yet implemented"))
    else Some(ValueError("Unsupported AI provider: " + provider))
  }

  lemma LowerOfLower(s: string)
    requires forall i :: 0 <= i < |s| ==> !('A' <= s[i] <= 'Z')
    ensures Lower(s) == s
  {
  }

  /**
   * A configuration the loader accepted never hits the unsupported-provider error: it gets a
   * client, or NotImplementedError, or the missing-key ValueError.
   */
  lemma AcceptedConfigProvider(v: Value, env: map<string, string>)
    requires Config.ParseAiConfig(v, env).Ok?
    ensures var cfg := Config.ParseAiConfig(v, env).value;
      var e := ProviderError(cfg);
      e.Some? && e.value.ValueError? ==> cfg.provider == "groq" && !Truthy(cfg.apiKey)
  {
    var cfg := Config.ParseAiConfig(v, env).value;
    LowerOfLower("groq");
    LowerOfLower("openai");
    LowerOfLower("anthropic");
  }

  // ---------------------------------------------------------------------------
  // _select_template
  // ---------------------------------------------------------------------------

  /** Below this success share the edge-cases template is chosen. */
  const LowSuccessRate := 0.7

  /** `success_rate < 0.7`, or None where Python raises TypeError (a string, list or dict). */
  function RateBelow(rate: Value): Option<bool> {
    match rate
    case Bool(b) => Some(!b)
    case Int(i) => Some((i as real) < LowSuccessRate)
    case Float(x) => Some(x < LowSuccessRate)
    case _ => None
  }

  /** `context.get('history', {})`. */
  function HistoryOf(context: Value): Value {
    GetOr(context, "history", EmptyDict)
  }

  /** `history.get('success_rate')`. */
  function RateOf(context: Value): Value {
    GetOr(HistoryOf(context), "success_rate", Null)
  }

  /**
   * The template for an endpoint: edge cases when the history's success share is known and
   * below 0.7; else advanced when there are validated examples or patterns; else basic.
   * None when the context or its history is not a dict or the share does not compare.
   */
  function SelectTemplate(context: Value): (r: Option<string>)
    ensures r.Some? <==>
      context.Dict? && HistoryOf(context).Dict? && (RateOf(context).Null? || RateBelow(RateOf(context)).Some?)
    ensures r.Some? ==>
      r.value in {PromptBuilder.TemplateBasic, PromptBuilder.TemplateAdvanced, PromptBuilder.TemplateEdgeCases}
    ensures r.Some? ==> (r.value == PromptBuilder.TemplateEdgeCases <==> RateBelow(RateOf(context)) == Some(true))
    ensures r.Some? && r.value != PromptBuilder.TemplateEdgeCases ==>
      (r.value == PromptBuilder.TemplateAdvanced <==>
         Truthy(GetOr(context, "validated_examples", Null)) || Truthy(GetOr(context, "patterns", Null)))
  {
    if !context.Dict? || !HistoryOf(context).Dict? then None
    else
      var rate := RateOf(context);
      if !rate.Null? && RateBelow(rate).None? then None
      else if !rate.Null? && RateBelow(rate) == Some(true) then Some(PromptBuilder.TemplateEdgeCases)
      else if Truthy(GetOr(context, "validated_examples", Null)) then Some(PromptBuilder.TemplateAdvanced)
      else if Truthy(GetOr(context, "patterns", Null)) then Some(PromptBuilder.TemplateAdvanced)
      else Some(PromptBuilder.TemplateBasic)
  }

  /**
   * For a context the builder assembled: without history the edge-cases template is never
   * picked; with a known success share it is picked exactly when fewer than 70% of the
   * stored runs succeeded; otherwise examples or patterns decide between advanced and basic.
   */
  lemma TemplateFollowsHistory(info: Entries, rows: Option<seq<Value>>, examples: seq<Value>,
                               patterns: seq<Value>, schemaFile: string)
    ensures var h := ContextBuilder.HistoryContext(rows);
      var t := SelectTemplate(ContextBuilder.Assemble(info, h, examples, patterns, schemaFile));
      t.Some? &&
      (Lookup(h, "success_rate") == Some(Null) ==>
         t.value == (if examples != [] || patterns != [] then PromptBuilder.TemplateAdvanced else PromptBuilder.TemplateBasic)) &&
      (Lookup(h, "success_rate") != Some(Null) ==>
         (t.value == PromptBuilder.TemplateEdgeCases <==>
            (ContextBuilder.Successes(rows.value) as real / |rows.value| as real) < LowSuccessRate)) &&
      (rows.None? ==> t.value != PromptBuilder.TemplateEdgeCases)
  {
    var h := ContextBuilder.HistoryContext(rows);
    var t := SelectTemplate(ContextBuilder.Assemble(info, h, examples, patterns, schemaFile));
    ContextBuilder.HistoryShape(rows);
    if rows.None? {
      LookupAt(ContextBuilder.NoHistory, 2);
      assert Lookup(h, "success_rate") == Some(Null);
    }
    var rate := Lookup(h, "success_rate").GetOr(Null);
    if rate != Null {
      var q := ContextBuilder.Successes(rows.value) as real / |rows.value| as real;
      assert rate == Float(q);
      TemplateOfKnownRate(info, h, examples, patterns, schemaFile, q);
    } else {
      TemplateOfAssembled(info, h, examples, patterns, schemaFile);
    }
  }

  /** With a known success share, the edge-case template is picked exactly below 70%. */
  lemma TemplateOfKnownRate(info: Entries, h: Entries, examples: seq<Value>, patterns: seq<Value>, schemaFile: string,
                            share: real)
    requires Lookup(h, "success_rate") == Some(Float(share))
    ensures var t := SelectTemplate(ContextBuilder.Assemble(info, h, examples, patterns, schemaFile));
      t.Some? && (t.value == PromptBuilder.TemplateEdgeCases <==> share < LowSuccessRate)
  {
    TemplateOfAssembled(info, h, examples, patterns, schemaFile);
  }

  /** The template for an assembled context, whatever its history dict holds. */
  lemma TemplateOfAssembled(info: Entries, h: Entries, examples: seq<Value>, patterns: seq<Value>, schemaFile: string)
    requires Lookup(h, "success_rate").GetOr(Null).Null? || RateBelow(Lookup(h, "success_rate").GetOr(Null)).Some?
    ensures var rate := Lookup(h, "success_rate").GetOr(Null);
      var t := SelectTemplate(ContextBuilder.Assemble(info, h, examples, patterns, schemaFile));
      t.Some? &&
      (t.value == PromptBuilder.TemplateEdgeCases <==> RateBelow(rate) == Some(true)) &&
      (t.value != PromptBuilder.TemplateEdgeCases ==>
         (t.value == PromptBuilder.TemplateAdvanced <==> examples != [] || patterns != []))
  {
    AssembledFields(info, h, examples, patterns, schemaFile);
  }

  /** What the template choice reads from an assembled context. */
  lemma AssembledFields(info: Entries, h: Entries, examples: seq<Value>, patterns: seq<Value>, schemaFile: string)
    ensures var context := ContextBuilder.Assemble(info, h, examples, patterns, schemaFile);
      context.Dict? && HistoryOf(context) == Dict(h) &&
      RateOf(context) == Lookup(h, "success_rate").GetOr(Null) &&
      GetOr(context, "validated_examples", Null) == List(examples) &&
      GetOr(context, "patterns", Null) == List(patterns)
  {
    var es := ContextBuilder.Assemble(info, h, examples, patterns, schemaFile).entries;
    LookupAt(es, 1);
    LookupAt(es, 2);
    LookupAt(es, 3);
  }

  // ---------------------------------------------------------------------------
  // The endpoint information a prompt is built from
  // ---------------------------------------------------------------------------

  /** The endpoint dict rebuilt from the operation when the context's is empty. */
  function FallbackEndpointInfo(httpMethod: string, path: string, operation: Value): (r: Option<Entries>)
    ensures r.Some? <==> operation.Dict?
    ensures r.Some? ==>
      Keys(r.value) == ["method", "path", "summary", "description", "operation_id", "tags", "parameters",
                        "request_body", "responses", "request_schema", "response_schemas"]
    ensures r.Some? ==> Lookup(r.value, "method") == Some(Str(Upper(httpMethod)))
    ensures r.Some? ==> Lookup(r.value, "path") == Some(Str(path))
  {
    if !operation.Dict? then None
    else
      var info := [("method", Str(Upper(httpMethod))),
                   ("path", Str(path)),
                   ("summary", GetOr(operation, "summary", Str(""))),
                   ("description", GetOr(operation, "description", Str(""))),
                   ("operation_id", GetOr(operation, "operationId", Str(""))),
                   ("tags", GetOr(operation, "tags", List([]))),
                   ("parameters", GetOr(operation, "parameters", List([]))),
                   ("request_body", GetOr(operation, "requestBody", EmptyDict)),
                   ("responses", GetOr(operation, "responses", EmptyDict)),
                   ("request_schema", EmptyDict),
                   ("response_schemas", EmptyDict)];
      FallbackKeys(info[0].1, info[1].1, info[2].1, info[3].1, info[4].1, info[5].1, info[6].1, info[7].1,
                   info[8].1, info[9].1, info[10].1);
      LookupAt(info, 1);
      Some(info)
  }

  /** The keys of the rebuilt endpoint dict, whatever values it holds. */
  lemma FallbackKeys(m: Value, p: Value, summary: Value, description: Value, operationId: Value, tags: Value,
                     parameters: Value, requestBody: Value, responses: Value, requestSchema: Value, responseSchemas: Value)
    ensures Keys([("method", m), ("path", p), ("summary", summary), ("description", description),
                  ("operation_id", operationId), ("tags", tags), ("parameters", parameters),
                  ("request_body", requestBody), ("responses", responses), ("request_schema", requestSchema),
                  ("response_schemas", responseSchemas)]) ==
      ["method", "path", "summary", "description", "operation_id", "tags", "parameters",
       "request_body", "responses", "request_schema", "response_schemas"]
  {
    var info := [("method", m), ("path", p), ("summary", summary), ("description", description),
                 ("operation_id", operationId), ("tags", tags), ("parameters", parameters),
                 ("request_body", requestBody), ("responses", responses), ("request_schema", requestSchema),
                 ("response_schemas", responseSchemas)];
    var want := ["method", "path", "summary", "description", "operation_id", "tags", "parameters",
                 "request_body", "responses", "request_schema", "response_schemas"];
    assert forall i :: 0 <= i < 11 ==> Keys(info)[i] == want[i];
  }

  /**
   * `context.get('endpoint', {})`, replaced by the rebuilt dict when falsy. What comes out is
   * never empty. None where Python raises (a context or an operation that is not a dict).
   */
  function EndpointInfoOf(context: Value, httpMethod: string, path: string, operation: Value): (r: Option<Value>)
    ensures r.Some? ==> Truthy(r.value)
    ensures r.Some? && !Truthy(GetOr(context, "endpoint", EmptyDict)) ==>
      FallbackEndpointInfo(httpMethod, path, operation).Some? &&
      r == Some(Dict(FallbackEndpointInfo(httpMethod, path, operation).value))
  {
    match PyGet(context, "endpoint", EmptyDict)
    case None => None
    case Some(endpoint) =>
      if Truthy(endpoint) then Some(endpoint)
      else
        match FallbackEndpointInfo(httpMethod, path, operation)
        case None => None
        case Some(info) =>
          assert |Keys(info)| == 11;
          Some(Dict(info))
  }

  /** A context the builder made always carries its own endpoint dict, so nothing is rebuilt. */
  lemma BuiltContextNeedsNoFallback(schema: Value, schemaFile: string, httpMethod: string, path: string,
                                    history: Option<seq<Value>>, validated: Option<seq<Value>>,
                                    patterns: Option<seq<Value>>, operation: Value)
    requires ContextBuilder.Context(schema, schemaFile, httpMethod, path, history, validated, patterns).Some?
    ensures var context := ContextBuilder.Context(schema, schemaFile, httpMethod, path, history, validated, patterns).value;
      EndpointInfoOf(context, httpMethod, path, operation) ==
        Some(Dict(ContextBuilder.EndpointInfo(schema, httpMethod, path).value))
  {
    var info := ContextBuilder.EndpointInfo(schema, httpMethod, path).value;
    var context := ContextBuilder.Context(schema, schemaFile, httpMethod, path, history, validated, patterns).value;
    assert context == ContextBuilder.Assemble(info, ContextBuilder.HistoryContext(history),
      ContextBuilder.Examples(validated, httpMethod, path), ContextBuilder.TopPatterns(patterns), schemaFile);
    assert context.entries[0] == ("endpoint", Dict(info));
    assert GetOr(context, "endpoint", EmptyDict) == Dict(info);
    assert |Keys(info)| == 12;
    assert Truthy(Dict(info));
  }

  // ---------------------------------------------------------------------------
  // _create_test_case
  // ---------------------------------------------------------------------------

  /** A generated test case: the constructor arguments of `TestCase`. */
  datatype AITestCase = AITestCase(
    httpMethod: string,
    path: string,
    requestBody: Value,
    expectedResponse: Value,
    testScenario: Value,
    isAiGenerated: bool,
    aiMetadata: Entries)

  /** The metadata recorded with each case; `timestamp` stands for the UTC time in ISO form. */
  function Metadata(cfg: Config.AIConfig, tokensUsed: int, timestamp: string): Entries {
    [("model", cfg.model),
     ("provider", Str(cfg.provider)),
     ("prompt_version", Str("default")),
     ("generation_timestamp", Str(timestamp)),
     ("temperature", Float(cfg.temperature)),
     ("max_tokens", Int(cfg.maxTokens)),
     ("tokens_used", Int(tokensUsed)),
     ("tokens_limit", Null)]
  }

  /** The metadata copies the configuration's model, provider, temperature and token cap, and the client's counter. */
  lemma MetadataCopiesConfig(cfg: Config.AIConfig, tokensUsed: int, timestamp: string)
    ensures var m := Metadata(cfg, tokensUsed, timestamp);
      UniqueKeys(m) &&
      Lookup(m, "model") == Some(cfg.model) && Lookup(m, "provider") == Some(Str(cfg.provider)) &&
      Lookup(m, "temperature") == Some(Float(cfg.temperature)) && Lookup(m, "max_tokens") == Some(Int(cfg.maxTokens)) &&
      Lookup(m, "tokens_used") == Some(Int(tokensUsed))
  {
    var m := Metadata(cfg, tokensUsed, timestamp);
    assert "temperature"[1] != "tokens_used"[1];
    LookupAt(m, 4);
    LookupAt(m, 5);
    LookupAt(m, 6);
  }

  function DefaultScenario(httpMethod: string, path: string): string {
    "AI-generated test for " + httpMethod + " " + path
  }

  /**
   * One parsed case as a test case for the endpoint: its request body (None when absent),
   * its expected response (`{}` when absent) and its scenario (a default naming the
   * endpoint when absent). None where Python raises: an expected response that is not a dict.
   */
  function CreateTestCase(cfg: Config.AIConfig, parsed: Entries, httpMethod: string, path: string,
                          tokensUsed: int, timestamp: string): (r: Option<AITestCase>)
    ensures r.Some? <==> Lookup(parsed, "expected_response").GetOr(EmptyDict).Dict?
    ensures r.Some? ==> r.value.isAiGenerated && r.value.httpMethod == httpMethod && r.value.path == path
    ensures r.Some? ==> r.value.testScenario == Lookup(parsed, "test_scenario").GetOr(Str(DefaultScenario(httpMethod, path)))
    ensures r.Some? ==> r.value.requestBody == Lookup(parsed, "request_body").GetOr(Null)
    ensures r.Some? && !HasKey(parsed, "expected_response") ==> r.value.expectedResponse == EmptyDict
    ensures r.Some? ==> r.value.aiMetadata == Metadata(cfg, tokensUsed, timestamp)
  {
    var expected := GetOr(Dict(parsed), "expected_response", EmptyDict);
    if !expected.Dict? then None
    else
      Some(AITestCase(httpMethod, path,
                      GetOr(Dict(parsed), "request_body", Null),
                      expected,
                      GetOr(Dict(parsed), "test_scenario", Str(DefaultScenario(httpMethod, path))),
                      true,
                      Metadata(cfg, tokensUsed, timestamp)))
  }

  /** A case in the parser's normal form always converts, and its expected response carries a status code. */
  lemma NormalCaseConverts(cfg: Config.AIConfig, parsed: Entries, httpMethod: string, path: string,
                           tokensUsed: int, timestamp: string)
    requires ResponseParser.NormalForm(parsed)
    ensures var r := CreateTestCase(cfg, parsed, httpMethod, path, tokensUsed, timestamp);
      r.Some? && r.value.expectedResponse.Dict? && HasKey(r.value.expectedResponse.entries, "status_code")
  {
  }

  /**
   * The parsed cases converted in order until the first that raises: the cases before it
   * were already appended when the exception left the endpoint's loop.
   */
  function Converted(cfg: Config.AIConfig, parsed: seq<Entries>, httpMethod: string, path: string,
                     tokensUsed: int, timestamp: string): (r: seq<AITestCase>)
    ensures |r| <= |parsed|
    ensures forall i :: 0 <= i < |r| ==> CreateTestCase(cfg, parsed[i], httpMethod, path, tokensUsed, timestamp) == Some(r[i])
    ensures |r| < |parsed| ==> CreateTestCase(cfg, parsed[|r|], httpMethod, path, tokensUsed, timestamp).None?
  {
    if parsed == [] then []
    else
      match CreateTestCase(cfg, parsed[0], httpMethod, path, tokensUsed, timestamp)
      case None => []
      case Some(tc) => [tc] + Converted(cfg, parsed[1..], httpMethod, path, tokensUsed, timestamp)
  }

  /** The converted cases are the only sequence that converts a prefix and stops at the first failure. */
  lemma ConvertedUnique(cfg: Config.AIConfig, parsed: seq<Entries>, httpMethod: string, path: string,
                        tokensUsed: int, timestamp: string, r: seq<AITestCase>)
    requires |r| <= |parsed|
    requires forall i :: 0 <= i < |r| ==> CreateTestCase(cfg, parsed[i], httpMethod, path, tokensUsed, timestamp) == Some(r[i])
    requires |r| < |parsed| ==> CreateTestCase(cfg, parsed[|r|], httpMethod, path, tokensUsed, timestamp).None?
    ensures r == Converted(cfg, parsed, httpMethod, path, tokensUsed, timestamp)
  {
  }

  /** Every case the parser returns becomes a test case: nothing is lost in conversion. */
  lemma ParsedCasesAllConvert(cfg: Config.AIConfig, answer: string, blocks: seq<string>, decode: ResponseParser.Decoder,
                              httpMethod: string, path: string, tokensUsed: int, timestamp: string)
    ensures var parsed := ResponseParser.Parsed(answer, blocks, decode);
      |Converted(cfg, parsed, httpMethod, path, tokensUsed, timestamp)| == |parsed|
  {
    var parsed := ResponseParser.Parsed(answer, blocks, decode);
    ResponseParser.ParsedNormal(answer, blocks, decode);
    var r := Converted(cfg, parsed, httpMethod, path, tokensUsed, timestamp);
    if |r| < |parsed| {
      assert parsed[|r|] in parsed;
      NormalCaseConverts(cfg, parsed[|r|], httpMethod, path, tokensUsed, timestamp);
    }
  }

  // ---------------------------------------------------------------------------
  // generate_tests
  // ---------------------------------------------------------------------------

  /** An entry of `endpoints`: method, path and operation. */
  datatype Endpoint = Endpoint(httpMethod: string, path: string, operation: Value)

  /**
   * What the world gives for one endpoint: the context `build_context` returned (None when it
   * raised), the SDK's outcome per attempt, and the fenced blocks of the answer.
   */
  datatype Exchange = Exchange(context: Option<Value>, sdk: nat -> GroqClient.Outcome, blocks: seq<string>)

  /** What a prompt is built from: the endpoint information and the template name. */
  datatype PromptInput = PromptInput(endpointInfo: Value, template: string)

  /** One endpoint's contribution: its cases, the prompt asked for, and the client's counter after it. */
  datatype Step = Step(cases: seq<AITestCase>, prompt: Option<PromptInput>, tokensUsed: int)

  /**
   * Whether `build_prompt` can prepare its template variables for this context and endpoint
   * information; which of the two prompt formats the builder uses does not matter for that
   * (PromptBuilder.PrepareVariablesFormatFree).
   */
  predicate PromptBuilds(context: Value, info: Value) {
    context.Dict? && info.Dict? && PromptBuilder.PrepareVariables(context.entries, info.entries, PromptBuilder.Markdown).Some?
  }

  /**
   * What the prompt for an endpoint is built from; None when the context is missing or a step
   * before the SDK call raises: the endpoint information, the template choice, or
   * `build_prompt` itself.
   */
  function PromptFor(ep: Endpoint, ex: Exchange): (r: Option<PromptInput>)
    ensures r.Some? <==> (
      ex.context.Some? &&
      EndpointInfoOf(ex.context.value, ep.httpMethod, ep.path, ep.operation).Some? &&
      SelectTemplate(ex.context.value).Some? &&
      PromptBuilds(ex.context.value, EndpointInfoOf(ex.context.value, ep.httpMethod, ep.path, ep.operation).value))
  {
    if ex.context.None? then None
    else
      match EndpointInfoOf(ex.context.value, ep.httpMethod, ep.path, ep.operation)
      case None => None
      case Some(info) =>
        match SelectTemplate(ex.context.value)
        case None => None
        case Some(template) =>
          if PromptBuilds(ex.context.value, info) then Some(PromptInput(info, template)) else None
  }

  /**
   * An endpoint whose prompt cannot be built (for instance tags that do not join as strings)
   * is skipped before the SDK is called: no case, no prompt, the counter unchanged.
   */
  lemma PromptFailureSkips(cfg: Config.AIConfig, installed: bool, decode: ResponseParser.Decoder, timestamp: string,
                           ep: Endpoint, ex: Exchange, tokens: int)
    requires ex.context.Some? && ex.context.value.Dict?
    requires var info := EndpointInfoOf(ex.context.value, ep.httpMethod, ep.path, ep.operation);
      info.Some? && info.value.Dict? &&
      PromptBuilder.PrepareVariables(ex.context.value.entries, info.value.entries, PromptBuilder.Xml).None?
    ensures EndpointStep(cfg, installed, decode, timestamp, ep, ex, tokens) == Step([], None, tokens)
  {
    var info := EndpointInfoOf(ex.context.value, ep.httpMethod, ep.path, ep.operation).value;
    PromptBuilder.PrepareVariablesFormatFree(ex.context.value.entries, info.entries, PromptBuilder.Xml, PromptBuilder.Markdown);
  }

  /** Asking the client and converting its parsed answer: nothing when the request raises. */
  function Answer(cfg: Config.AIConfig, installed: bool, decode: ResponseParser.Decoder, timestamp: string,
                  ep: Endpoint, ex: Exchange, tokens: int): (s: (seq<AITestCase>, int))
    ensures forall i :: 0 <= i < |s.0| ==>
      s.0[i].isAiGenerated && s.0[i].httpMethod == ep.httpMethod && s.0[i].path == ep.path
  {
    if !installed then ([], tokens)
    else
      var run := GroqClient.Attempts(ex.sdk, 0, GroqClient.DefaultMaxRetries, cfg.model, tokens);
      if run.result.Err? then ([], run.tokensUsed)
      else
        var parsed := ResponseParser.Parsed(run.result.value.content, ex.blocks, decode);
        (Converted(cfg, parsed, ep.httpMethod, ep.path, run.tokensUsed, timestamp), run.tokensUsed)
  }

  /** The body of the `try` for one endpoint; every failure leaves the cases appended so far. */
  function EndpointStep(cfg: Config.AIConfig, installed: bool, decode: ResponseParser.Decoder, timestamp: string,
                        ep: Endpoint, ex: Exchange, tokens: int): (s: Step)
    ensures forall i :: 0 <= i < |s.cases| ==>
      s.cases[i].isAiGenerated && s.cases[i].httpMethod == ep.httpMethod && s.cases[i].path == ep.path
    ensures s.prompt.None? ==> s.cases == [] && s.tokensUsed == tokens
  {
    match PromptFor(ep, ex)
    case None => Step([], None, tokens)
    case Some(prompt) =>
      var (cases, used) := Answer(cfg, installed, decode, timestamp, ep, ex, tokens);
      Step(cases, Some(prompt), used)
  }

  /** A request that raises, or no library, or no context: the endpoint adds no case and leaves the counter. */
  lemma FailedRequestAddsNothing(cfg: Config.AIConfig, installed: bool, decode: ResponseParser.Decoder, timestamp: string,
                                 ep: Endpoint, ex: Exchange, tokens: int)
    requires ex.context.None? || !installed ||
             GroqClient.Attempts(ex.sdk, 0, GroqClient.DefaultMaxRetries, cfg.model, tokens).result.Err?
    ensures var s := EndpointStep(cfg, installed, decode, timestamp, ep, ex, tokens);
      s.cases == [] && s.tokensUsed == tokens
  {
  }

  /** With a prompt, the endpoint's step is the answer to it. */
  lemma EndpointStepAnswers(cfg: Config.AIConfig, installed: bool, decode: ResponseParser.Decoder, timestamp: string,
                            ep: Endpoint, ex: Exchange, tokens: int)
    requires PromptFor(ep, ex).Some?
    ensures var a := Answer(cfg, installed, decode, timestamp, ep, ex, tokens);
      EndpointStep(cfg, installed, decode, timestamp, ep, ex, tokens) == Step(a.0, PromptFor(ep, ex), a.1)
  {
  }

  /** Without the library, or when the request raises, the answer is empty and the counter is the client's. */
  lemma AnswerFails(cfg: Config.AIConfig, installed: bool, decode: ResponseParser.Decoder, timestamp: string,
                    ep: Endpoint, ex: Exchange, tokens: int)
    requires !installed || GroqClient.Attempts(ex.sdk, 0, GroqClient.DefaultMaxRetries, cfg.model, tokens).result.Err?
    ensures var run := GroqClient.Attempts(ex.sdk, 0, GroqClient.DefaultMaxRetries, cfg.model, tokens);
      Answer(cfg, installed, decode, timestamp, ep, ex, tokens) == ([], if installed then run.tokensUsed else tokens)
  {
  }

  /** A reply is parsed and converted with the counter the request left. */
  lemma AnswerSucceeds(cfg: Config.AIConfig, installed: bool, decode: ResponseParser.Decoder, timestamp: string,
                       ep: Endpoint, ex: Exchange, tokens: int)
    requires installed && GroqClient.Attempts(ex.sdk, 0, GroqClient.DefaultMaxRetries, cfg.model, tokens).result.Ok?
    ensures var run := GroqClient.Attempts(ex.sdk, 0, GroqClient.DefaultMaxRetries, cfg.model, tokens);
      var parsed := ResponseParser.Parsed(run.result.value.content, ex.blocks, decode);
      Answer(cfg, installed, decode, timestamp, ep, ex, tokens) ==
        (Converted(cfg, parsed, ep.httpMethod, ep.path, run.tokensUsed, timestamp), run.tokensUsed)
  {
  }

  /** The results so far: all cases, all prompt inputs, and the client's counter. */
  datatype Batch = Batch(cases: seq<AITestCase>, prompts: seq<PromptInput>, tokensUsed: int)

  /** The loop over the first `n` endpoints, in order, threading the client's token counter. */
  function Generation(cfg: Config.AIConfig, installed: bool, decode: ResponseParser.Decoder, timestamp: string,
                      work: seq<(Endpoint, Exchange)>, n: nat, tokens: int): (b: Batch)
    requires n <= |work|
    ensures |b.prompts| <= n
  {
    if n == 0 then Batch([], [], tokens)
    else
      var before := Generation(cfg, installed, decode, timestamp, work, n - 1, tokens);
      var s := EndpointStep(cfg, installed, decode, timestamp, work[n - 1].0, work[n - 1].1, before.tokensUsed);
      Batch(before.cases + s.cases,
            before.prompts + (if s.prompt.Some? then [s.prompt.value] else []),
            s.tokensUsed)
  }

  /** One more endpoint: its step runs on the counter the ones before it left. */
  lemma GenerationStep(cfg: Config.AIConfig, installed: bool, decode: ResponseParser.Decoder, timestamp: string,
                       work: seq<(Endpoint, Exchange)>, i: nat, tokens: int)
    requires i < |work|
    ensures var before := Generation(cfg, installed, decode, timestamp, work, i, tokens);
      var s := EndpointStep(cfg, installed, decode, timestamp, work[i].0, work[i].1, before.tokensUsed);
      Generation(cfg, installed, decode, timestamp, work, i + 1, tokens) ==
        Batch(before.cases + s.cases, before.prompts + (if s.prompt.Some? then [s.prompt.value] else []), s.tokensUsed)
  {
  }

  /** The method and path of the first `n` endpoints, in order. */
  function Routes(work: seq<(Endpoint, Exchange)>, n: nat): (rs: seq<(string, string)>)
    requires n <= |work|
    ensures |rs| == n
  {
    if n == 0 then [] else Routes(work, n - 1) + [(work[n - 1].0.httpMethod, work[n - 1].0.path)]
  }

  /** Every generated case is AI-generated and carries the method and path of an endpoint asked for. */
  lemma {:induction false} CasesFromEndpoints(cfg: Config.AIConfig, installed: bool, decode: ResponseParser.Decoder,
                                              timestamp: string, work: seq<(Endpoint, Exchange)>, n: nat, tokens: int)
    requires n <= |work|
    ensures forall c :: c in Generation(cfg, installed, decode, timestamp, work, n, tokens).cases ==>
      c.isAiGenerated && (c.httpMethod, c.path) in Routes(work, n)
  {
    if n > 0 {
      CasesFromEndpoints(cfg, installed, decode, timestamp, work, n - 1, tokens);
      var before := Generation(cfg, installed, decode, timestamp, work, n - 1, tokens);
      var s := EndpointStep(cfg, installed, decode, timestamp, work[n - 1].0, work[n - 1].1, before.tokensUsed);
      forall c | c in before.cases + s.cases
        ensures c.isAiGenerated && (c.httpMethod, c.path) in Routes(work, n)
      {
        if c in s.cases {
          var j :| 0 <= j < |s.cases| && s.cases[j] == c;
          assert (c.httpMethod, c.path) == Routes(work, n)[n - 1];
        } else {
          assert c in before.cases;
          assert (c.httpMethod, c.path) in Routes(work, n - 1);
        }
      }
    }
  }

  /** An endpoint that fails at any counter value: it adds no case and leaves the counter. */
  ghost predicate AlwaysFails(cfg: Config.AIConfig, installed: bool, decode: ResponseParser.Decoder, timestamp: string,
                        item: (Endpoint, Exchange)) {
    forall t: int {:trigger EndpointStep(cfg, installed, decode, timestamp, item.0, item.1, t)} ::
      EndpointStep(cfg, installed, decode, timestamp, item.0, item.1, t).cases == [] &&
      EndpointStep(cfg, installed, decode, timestamp, item.0, item.1, t).tokensUsed == t
  }

  lemma {:induction false} DropPrefix(cfg: Config.AIConfig, installed: bool, decode: ResponseParser.Decoder, timestamp: string,
                                      work: seq<(Endpoint, Exchange)>, k: nat, n: nat, tokens: int)
    requires k < |work| && n <= k
    ensures var rest := work[..k] + work[k + 1..];
      Generation(cfg, installed, decode, timestamp, work, n, tokens) ==
      Generation(cfg, installed, decode, timestamp, rest, n, tokens)
  {
    if n > 0 {
      DropPrefix(cfg, installed, decode, timestamp, work, k, n - 1, tokens);
      assert (work[..k] + work[k + 1..])[n - 1] == work[n - 1];
    }
  }

  lemma {:induction false} DropSuffix(cfg: Config.AIConfig, installed: bool, decode: ResponseParser.Decoder, timestamp: string,
                                      work: seq<(Endpoint, Exchange)>, k: nat, n: nat, tokens: int)
    requires k < n <= |work|
    requires AlwaysFails(cfg, installed, decode, timestamp, work[k])
    ensures var rest := work[..k] + work[k + 1..];
      var a := Generation(cfg, installed, decode, timestamp, work, n, tokens);
      var b := Generation(cfg, installed, decode, timestamp, rest, n - 1, tokens);
      a.cases == b.cases && a.tokensUsed == b.tokensUsed
  {
    var rest := work[..k] + work[k + 1..];
    if n == k + 1 {
      DropPrefix(cfg, installed, decode, timestamp, work, k, k, tokens);
      var before := Generation(cfg, installed, decode, timestamp, work, k, tokens);
      var s := EndpointStep(cfg, installed, decode, timestamp, work[k].0, work[k].1, before.tokensUsed);
      assert s.cases == [] && s.tokensUsed == before.tokensUsed;
      assert before.cases + s.cases == before.cases;
    } else {
      DropSuffix(cfg, installed, decode, timestamp, work, k, n - 1, tokens);
      assert rest[n - 2] == work[n - 1];
    }
  }

  /**
   * An endpoint whose processing fails whatever the counter is (no context, a request that
   * raises, ...) is simply skipped: the cases and the counter are those of the run without it.
   */
  lemma FailingEndpointDropped(cfg: Config.AIConfig, installed: bool, decode: ResponseParser.Decoder, timestamp: string,
                               work: seq<(Endpoint, Exchange)>, k: nat, tokens: int)
    requires k < |work| && AlwaysFails(cfg, installed, decode, timestamp, work[k])
    ensures var a := Generation(cfg, installed, decode, timestamp, work, |work|, tokens);
      var b := Generation(cfg, installed, decode, timestamp, work[..k] + work[k + 1..], |work| - 1, tokens);
      a.cases == b.cases && a.tokensUsed == b.tokensUsed
  {
    DropSuffix(cfg, installed, decode, timestamp, work, k, |work|, tokens);
  }

  /** An endpoint whose first SDK call is refused for authentication always fails. */
  lemma AuthenticationFailureFails(cfg: Config.AIConfig, installed: bool, decode: ResponseParser.Decoder, timestamp: string,
                                   item: (Endpoint, Exchange))
    requires item.1.sdk(0).Raised?
    requires GroqClient.MentionsAuth(Lower(item.1.sdk(0).message))
    requires !GroqClient.MentionsRateLimit(Lower(item.1.sdk(0).message))
    ensures AlwaysFails(cfg, installed, decode, timestamp, item)
  {
    forall t: int
      ensures EndpointStep(cfg, installed, decode, timestamp, item.0, item.1, t).cases == [] &&
              EndpointStep(cfg, installed, decode, timestamp, item.0, item.1, t).tokensUsed == t
    {
      GroqClient.AuthenticationNotRetried(item.1.sdk, GroqClient.DefaultMaxRetries, cfg.model, t);
    }
  }

  // ---------------------------------------------------------------------------
  // Loading and constructing as written

  /** The names `apitest/core/test_generator.py` defines at module level. */
  const TestGeneratorModuleNames: set<string> := {"Dict", "Any", "Optional", "TestGenerator"}

  /** `from apitest.core.test_generator import TestCase` as written: Err stands for the ImportError. */
  function ImportAsWritten(): (r: Result<(), string>)
    ensures r.Ok? <==> "TestCase" in TestGeneratorModuleNames
  {
    if "TestCase" in TestGeneratorModuleNames then Ok(())
    else Err("cannot import name 'TestCase' from 'apitest.core.test_generator'")
  }

  /** As written, the module cannot be loaded at all: the class it imports does not exist. */
  lemma ImportFailsAsWritten()
    ensures ImportAsWritten().Err?
  {
    assert "TestCase" !in TestGeneratorModuleNames;
  }

  /** The attributes an `AIConfig` instance has: its dataclass fields. */
  const AIConfigAttributes: set<string> := {"provider", "model", "api_key", "mode", "temperature", "max_tokens", "enabled"}

  /** Why `AITestGenerator(ai_config)` raises as written: a missing attribute, or the client check. */
  datatype InitError = AttributeError(attribute: string) | ClientFailed(error: ClientError)

  /**
   * `AITestGenerator.__init__` as written: it reads `ai_config.schema_format` and
   * `ai_config.prompt_format` before `_create_ai_client`; Ok stands for a generator.
   */
  function InitAsWritten(cfg: Config.AIConfig): (r: Result<(), InitError>)
    ensures r.Ok? ==> ProviderError(cfg).None?
    ensures r.Err? && r.error.ClientFailed? ==> ProviderError(cfg) == Some(r.error.error)
  {
    if "schema_format" !in AIConfigAttributes then Err(AttributeError("schema_format"))
    else if "prompt_format" !in AIConfigAttributes then Err(AttributeError("prompt_format"))
    else
      match ProviderError(cfg)
      case Some(e) => Err(ClientFailed(e))
      case None => Ok(())
  }

  /** As written, no configuration yields a generator: the `schema_format` read raises first. */
  lemma NoGeneratorAsWritten(cfg: Config.AIConfig)
    ensures InitAsWritten(cfg) == Err(AttributeError("schema_format"))
  {
    assert "schema_format" !in AIConfigAttributes;
  }

  /** `AITestGenerator`: the configuration and the client it made. */
  class AITestGenerator {
    const config: Config.AIConfig
    const client: GroqClient.GroqClient

    /** The client asks for the configured model. */
    predicate Valid() {
      client.model == config.model
    }

    /** The generator for a configuration that yields a Groq client. */
    constructor (config: Config.AIConfig)
      requires ProviderError(config).None?
      ensures Valid()
      ensures this.config == config && fresh(client)
      ensures client.apiKey == config.apiKey && client.model == config.model
      ensures client.temperature == config.temperature && client.maxTokens == config.maxTokens
      ensures client.tokensUsed == 0
    {
      this.config := config;
      client := new GroqClient.GroqClient(config.apiKey, config.model, config.temperature, config.maxTokens);
    }

    /** `_create_test_case` for each parsed case in turn, stopping at the first that raises. */
    method ConvertCases(parsed: seq<Entries>, httpMethod: string, path: string, timestamp: string)
      returns (converted: seq<AITestCase>)
      ensures converted == Converted(config, parsed, httpMethod, path, client.tokensUsed, timestamp)
    {
      converted := [];
      var i := 0;
      while i < |parsed|
        invariant 0 <= i <= |parsed| && |converted| == i
        invariant forall j :: 0 <= j < i ==>
          CreateTestCase(config, parsed[j], httpMethod, path, client.tokensUsed, timestamp) == Some(converted[j])
      {
        var tc := CreateTestCase(config, parsed[i], httpMethod, path, client.tokensUsed, timestamp);
        if tc.None? {
          break;
        }
        converted := converted + [tc.value];
        i := i + 1;
      }
      ConvertedUnique(config, parsed, httpMethod, path, client.tokensUsed, timestamp, converted);
    }

    /**
     * `generate_tests`: the endpoints in order; per endpoint its prompt input is recorded, the
     * client asked, and the parsed cases appended; a failure skips to the next endpoint.
     */
    method GenerateTests(installed: bool, decode: ResponseParser.Decoder, timestamp: string,
                         work: seq<(Endpoint, Exchange)>)
      returns (cases: seq<AITestCase>, prompts: seq<PromptInput>)
      requires Valid()
      modifies client
      ensures var b := Generation(config, installed, decode, timestamp, work, |work|, old(client.tokensUsed));
        cases == b.cases && prompts == b.prompts && client.tokensUsed == b.tokensUsed
    {
      cases := [];
      prompts := [];
      ghost var start := client.tokensUsed;
      for i := 0 to |work|
        invariant Batch(cases, prompts, client.tokensUsed) == Generation(config, installed, decode, timestamp, work, i, start)
      {
        var (ep, ex) := work[i];
        GenerationStep(config, installed, decode, timestamp, work, i, start);
        var s := ProcessEndpoint(installed, decode, timestamp, ep, ex);
        cases := cases + s.cases;
        prompts := prompts + (if s.prompt.Some? then [s.prompt.value] else []);
      }
    }

    /** The `try` block for one endpoint: any failure ends it with what was appended so far. */
    method ProcessEndpoint(installed: bool, decode: ResponseParser.Decoder, timestamp: string, ep: Endpoint, ex: Exchange)
      returns (s: Step)
      requires Valid()
      modifies client
      ensures s == EndpointStep(config, installed, decode, timestamp, ep, ex, old(client.tokensUsed))
      ensures client.tokensUsed == s.tokensUsed
    {
      var prompt := PromptFor(ep, ex);
      if prompt.None? {
        return Step([], None, client.tokensUsed);
      }
      ghost var tokens := client.tokensUsed;
      ghost var run := GroqClient.Attempts(ex.sdk, 0, GroqClient.DefaultMaxRetries, config.model, tokens);
      EndpointStepAnswers(config, installed, decode, timestamp, ep, ex, tokens);
      var reply := client.Generate(installed, ex.sdk);
      if reply.Err? {
        assert !installed || run.result.Err?;
        AnswerFails(config, installed, decode, timestamp, ep, ex, tokens);
        return Step([], prompt, client.tokensUsed);
      }
      assert installed;
      assert run.result.Ok? && reply.value == run.result.value.content && client.tokensUsed == run.tokensUsed;
      var parsed := ResponseParser.ParseTestCases(reply.value, ex.blocks, decode);
      var converted := ConvertCases(parsed, ep.httpMethod, ep.path, timestamp);
      assert converted == Converted(config, ResponseParser.Parsed(run.result.value.content, ex.blocks, decode),
        ep.httpMethod, ep.path, run.tokensUsed, timestamp);
      AnswerSucceeds(config, installed, decode, timestamp, ep, ex, tokens);
      return Step(converted, prompt, client.tokensUsed);
    }
  }

  /** `AITestGenerator(ai_config)`: the generator, or the error `_create_ai_client` raises. */
  method NewGenerator(cfg: Config.AIConfig) returns (r: Result<AITestGenerator, ClientError>)
    ensures r.Err? <==> ProviderError(cfg).Some?
    ensures r.Err? ==> r.error == ProviderError(cfg).value
    ensures r.Ok? ==> fresh(r.value) && r.value.config == cfg && r.value.client.tokensUsed == 0 && r.value.Valid()
  {
    var e := ProviderError(cfg);
    if e.Some? {
      return Err(e.value);
    }
    var g := new AITestGenerator(cfg);
    return Ok(g);
  }
}
