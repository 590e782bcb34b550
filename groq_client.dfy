/**
 * The Groq chat client (apitest/ai/groq_client.py): one request is a bounded series of SDK
 * calls; each failure is classified by the words in its message and is retried after an
 * exponentially growing pause, or raised at once.
 *
 * The SDK is the parameter `sdk`: the outcome of the call made at each attempt. Pauses are
 * not taken; they are returned, in seconds, as the list of pauses the client would sleep.
 */
module GroqClient {
  import opened Wrappers
  import opened Json
  import opened Strings

  /** What one SDK call gives: the first choice's content and the usage's total tokens, or the error it raised. */
  datatype Outcome =
    | Completed(content: string, totalTokens: Option<int>)
    | Raised(message: string)

  /** The exception classes: `GroqRateLimitError`, `GroqAuthenticationError`, and their base `GroqAPIError`. */
  datatype ErrorKind = RateLimitError | AuthenticationError | APIError

  datatype GroqError = GroqError(kind: ErrorKind, message: string)

  /** `GroqResponse`: content, tokens used and model (the token limit is never set). */
  datatype GroqResponse = GroqResponse(content: string, tokensUsed: int, model: Value)

  /** How a failure is handled, decided by substrings of its lower-cased message. */
  datatype Failure = RateLimited | Unauthorized | ServerFault | Unexpected

  predicate MentionsRateLimit(text: string) {
    Contains(text, "429") || Contains(text, "rate limit") || Contains(text, "quota")
  }

  predicate MentionsAuth(text: string) {
    Contains(text, "401") || Contains(text, "403") || Contains(text, "unauthorized") || Contains(text, "forbidden")
  }

  predicate MentionsServer(text: string) {
    Contains(text, "400") || Contains(text, "500") || Contains(text, "502") || Contains(text, "503")
  }

  /** The tests in their order: rate limit first, then authentication, then server errors. */
  function Classify(message: string): (f: Failure)
    ensures f == RateLimited <==> MentionsRateLimit(Lower(message))
    ensures f == Unauthorized <==> !MentionsRateLimit(Lower(message)) && MentionsAuth(Lower(message))
    ensures f == ServerFault <==>
      !MentionsRateLimit(Lower(message)) && !MentionsAuth(Lower(message)) && MentionsServer(Lower(message))
    ensures f == Unexpected <==>
      !MentionsRateLimit(Lower(message)) && !MentionsAuth(Lower(message)) && !MentionsServer(Lower(message))
  {
    var text := Lower(message);
    if MentionsRateLimit(text) then RateLimited
    else if MentionsAuth(text) then Unauthorized
    else if MentionsServer(text) then ServerFault
    else Unexpected
  }

  /** Whether a failure is retried while attempts remain. */
  predicate Retried(f: Failure) {
    f == RateLimited || f == ServerFault
  }

  /** `2 ** n`. */
  function Pow2(n: nat): (p: nat)
    ensures p >= 1
  {
    if n == 0 then 1 else 2 * Pow2(n - 1)
  }

  /** The pauses before attempts 1 .. k: 1, 2, 4, ... seconds. */
  function Pauses(k: nat): (ws: seq<nat>)
    ensures |ws| == k && forall i :: 0 <= i < k ==> ws[i] == Pow2(i)
  {
    seq(k, i requires 0 <= i < k => Pow2(i))
  }

  /** What a request does from one attempt on: its result, SDK calls made, pauses taken and the tokens counter after it. */
  datatype Run = Run(result: Result<GroqResponse, GroqError>, calls: nat, pauses: seq<nat>, tokensUsed: int)

  /** The error raised for a failure that is not retried (again). */
  function Raise(f: Failure, message: string, maxRetries: int): GroqError {
    match f
    case RateLimited =>
      GroqError(RateLimitError, "Rate limit exceeded after " + IntText(maxRetries) + " attempts. Please wait before trying again.")
    case Unauthorized => GroqError(AuthenticationError, "Authentication failed: " + message + ". Please check your API key.")
    case ServerFault => GroqError(APIError, "API error after " + IntText(maxRetries) + " attempts: " + message)
    case Unexpected => GroqError(APIError, "Unexpected error: " + message)
  }

  /**
   * The `for attempt in range(max_retries)` loop from `attempt` on. A completed call returns
   * its content and sets the counter to its total tokens when it reports usage. A rate-limit
   * or server failure before the last attempt pauses `2 ** attempt` seconds and goes on; any
   * other failure, or one on the last attempt, raises. Running out of attempts raises too.
   */
  function Attempts(sdk: nat -> Outcome, attempt: nat, maxRetries: int, model: Value, tokens: int): (run: Run)
    ensures attempt < maxRetries ==> 1 <= run.calls <= maxRetries - attempt
    ensures attempt >= maxRetries ==> run.calls == 0
    ensures run.calls >= 1 ==> |run.pauses| == run.calls - 1
    ensures forall i :: 0 <= i < |run.pauses| ==> run.pauses[i] == Pow2(attempt + i)
    ensures run.result.Err? ==> run.tokensUsed == tokens
    decreases maxRetries - attempt
  {
    if attempt >= maxRetries then
      Run(Err(GroqError(APIError, "Failed after " + IntText(maxRetries) + " attempts")), 0, [], tokens)
    else
      match sdk(attempt)
      case Completed(content, total) =>
        var used := total.GetOr(tokens);
        Run(Ok(GroqResponse(content, used, model)), 1, [], used)
      case Raised(message) =>
        var f := Classify(message);
        if Retried(f) && attempt < maxRetries - 1 then
          var rest := Attempts(sdk, attempt + 1, maxRetries, model, tokens);
          Run(rest.result, rest.calls + 1, [Pow2(attempt)] + rest.pauses, rest.tokensUsed)
        else Run(Err(Raise(f, message, maxRetries)), 1, [], tokens)
  }

  /** The runs from attempt 0 and from attempt k agree once the first k attempts were retried failures. */
  predicate RetriedBefore(sdk: nat -> Outcome, k: nat, maxRetries: int) {
    forall i :: 0 <= i < k ==> sdk(i).Raised? && Retried(Classify(sdk(i).message)) && i < maxRetries - 1
  }

  lemma {:induction false} AttemptsAfterRetries(sdk: nat -> Outcome, k: nat, maxRetries: int, model: Value, tokens: int)
    requires RetriedBefore(sdk, k, maxRetries)
    ensures var whole := Attempts(sdk, 0, maxRetries, model, tokens);
      var rest := Attempts(sdk, k, maxRetries, model, tokens);
      whole == Run(rest.result, k + rest.calls, Pauses(k) + rest.pauses, rest.tokensUsed)
  {
    if k > 0 {
      AttemptsAfterRetries(sdk, k - 1, maxRetries, model, tokens);
      var rest := Attempts(sdk, k, maxRetries, model, tokens);
      var o := sdk(k - 1);
      assert o.Raised? && Retried(Classify(o.message)) && k - 1 < maxRetries - 1;
      assert Attempts(sdk, k - 1, maxRetries, model, tokens) ==
        Run(rest.result, rest.calls + 1, [Pow2(k - 1)] + rest.pauses, rest.tokensUsed);
      PausesShift(k, rest.pauses);
    }
  }

  /** One more pause moves from the tail to the end of the first k. */
  lemma PausesShift(k: nat, tail: seq<nat>)
    requires k > 0
    ensures Pauses(k - 1) + ([Pow2(k - 1)] + tail) == Pauses(k) + tail
  {
    assert Pauses(k) == Pauses(k - 1) + [Pow2(k - 1)];
  }

  /** The pauses between attempts strictly increase. */
  lemma PausesIncrease(sdk: nat -> Outcome, maxRetries: int, model: Value, tokens: int)
    ensures var ps := Attempts(sdk, 0, maxRetries, model, tokens).pauses;
      forall i, j :: 0 <= i < j < |ps| ==> ps[i] < ps[j]
  {
    var ps := Attempts(sdk, 0, maxRetries, model, tokens).pauses;
    forall i, j | 0 <= i < j < |ps| ensures ps[i] < ps[j] {
      Pow2Increasing(i, j);
    }
  }

  lemma {:induction false} Pow2Increasing(i: nat, j: nat)
    requires i < j
    ensures Pow2(i) < Pow2(j)
    decreases j
  {
    if i < j - 1 {
      Pow2Increasing(i, j - 1);
    }
  }

  /** A failure mentioning authentication is raised at the first attempt, without a retry, unless it also mentions a rate limit. */
  lemma AuthenticationNotRetried(sdk: nat -> Outcome, maxRetries: int, model: Value, tokens: int)
    requires maxRetries >= 1 && sdk(0).Raised?
    requires MentionsAuth(Lower(sdk(0).message)) && !MentionsRateLimit(Lower(sdk(0).message))
    ensures var run := Attempts(sdk, 0, maxRetries, model, tokens);
      run.calls == 1 && run.pauses == [] && run.result.Err? && run.result.error.kind == AuthenticationError
  {
  }

  /** When every call hits the rate limit, all attempts are made and a rate-limit error is raised. */
  lemma {:induction false} RateLimitedThroughout(sdk: nat -> Outcome, attempt: nat, maxRetries: int, model: Value, tokens: int)
    requires attempt < maxRetries
    requires forall i :: attempt <= i < maxRetries ==> sdk(i).Raised? && MentionsRateLimit(Lower(sdk(i).message))
    ensures var run := Attempts(sdk, attempt, maxRetries, model, tokens);
      run.calls == maxRetries - attempt && run.result == Err(Raise(RateLimited, "", maxRetries))
    decreases maxRetries - attempt
  {
    if attempt < maxRetries - 1 {
      RateLimitedThroughout(sdk, attempt + 1, maxRetries, model, tokens);
    }
  }

  /**
   * When every call fails with a server error (400, 500, 502 or 503, and neither a rate limit nor
   * authentication), all attempts are made and the last failure is raised as an API error.
   */
  lemma {:induction false} ServerFaultThroughout(sdk: nat -> Outcome, attempt: nat, maxRetries: int, model: Value, tokens: int)
    requires attempt < maxRetries
    requires forall i :: attempt <= i < maxRetries ==> sdk(i).Raised? && Classify(sdk(i).message) == ServerFault
    ensures var run := Attempts(sdk, attempt, maxRetries, model, tokens);
      run.calls == maxRetries - attempt &&
      run.result == Err(Raise(ServerFault, sdk(maxRetries - 1).message, maxRetries)) &&
      run.result.error.kind == APIError
    decreases maxRetries - attempt
  {
    if attempt < maxRetries - 1 {
      ServerFaultThroughout(sdk, attempt + 1, maxRetries, model, tokens);
    }
  }

  /** A failure that mentions no rate limit, authentication or server error is raised at the first call, with no pause. */
  lemma UnexpectedNotRetried(sdk: nat -> Outcome, maxRetries: int, model: Value, tokens: int)
    requires maxRetries >= 1 && sdk(0).Raised? && Classify(sdk(0).message) == Unexpected
    ensures var run := Attempts(sdk, 0, maxRetries, model, tokens);
      run.calls == 1 && run.pauses == [] &&
      run.result == Err(GroqError(APIError, "Unexpected error: " + sdk(0).message))
  {
  }

  /** A success returns the content, and the counter becomes the reported total tokens. */
  lemma SuccessRecordsTokens(sdk: nat -> Outcome, maxRetries: int, model: Value, tokens: int)
    requires maxRetries >= 1 && sdk(0).Completed?
    ensures var run := Attempts(sdk, 0, maxRetries, model, tokens);
      run.result == Ok(GroqResponse(sdk(0).content, sdk(0).totalTokens.GetOr(tokens), model)) &&
      run.tokensUsed == sdk(0).totalTokens.GetOr(tokens) && run.calls == 1
  {
  }

  const DefaultMaxRetries := 3

  /** `GroqClient`: the call settings and the token counter of a session. */
  class GroqClient {
    const apiKey: Value
    const model: Value
    const temperature: real
    const maxTokens: int
    /** `_tokens_used`: the total tokens the last completed call reported. */
    var tokensUsed: int

    constructor (apiKey: Value, model: Value, temperature: real, maxTokens: int)
      ensures this.apiKey == apiKey && this.model == model
      ensures this.temperature == temperature && this.maxTokens == maxTokens
      ensures tokensUsed == 0
    {
      this.apiKey := apiKey;
      this.model := model;
      this.temperature := temperature;
      this.maxTokens := maxTokens;
      tokensUsed := 0;
    }

    /**
     * `_make_request`: without the groq library installed, an API error; otherwise the
     * attempts loop, returning the response or the error together with the pauses taken
     * and the number of SDK calls made.
     */
    method MakeRequest(installed: bool, sdk: nat -> Outcome, maxRetries: int)
      returns (r: Result<GroqResponse, GroqError>, pauses: seq<nat>, calls: nat)
      modifies this
      ensures !installed ==>
        r == Err(GroqError(APIError, "Groq library not installed. Install it with: pip install groq")) &&
        pauses == [] && calls == 0 && tokensUsed == old(tokensUsed)
      ensures installed ==>
        var run := Attempts(sdk, 0, maxRetries, model, old(tokensUsed));
        r == run.result && pauses == run.pauses && calls == run.calls && tokensUsed == run.tokensUsed
    {
      if !installed {
        return Err(GroqError(APIError, "Groq library not installed. Install it with: pip install groq")), [], 0;
      }
      pauses := [];
      var attempt: nat := 0;
      while attempt < maxRetries
        invariant RetriedBefore(sdk, attempt, maxRetries)
        invariant pauses == Pauses(attempt)
        invariant tokensUsed == old(tokensUsed)
        decreases maxRetries - attempt
      {
        match sdk(attempt)
        case Completed(content, total) =>
          AttemptsAfterRetries(sdk, attempt, maxRetries, model, old(tokensUsed));
          if total.Some? {
            tokensUsed := total.value;
          }
          return Ok(GroqResponse(content, tokensUsed, model)), pauses, attempt + 1;
        case Raised(message) =>
          var f := Classify(message);
          if Retried(f) && attempt < maxRetries - 1 {
            pauses := pauses + [Pow2(attempt)];
            attempt := attempt + 1;
          } else {
            AttemptsAfterRetries(sdk, attempt, maxRetries, model, old(tokensUsed));
            return Err(Raise(f, message, maxRetries)), pauses, attempt + 1;
          }
      }
      AttemptsAfterRetries(sdk, attempt, maxRetries, model, old(tokensUsed));
      r := Err(GroqError(APIError, "Failed after " + IntText(maxRetries) + " attempts"));
      calls := attempt;
    }

    /** `generate`: the content of a request with the default three attempts, or the error it raised. */
    method Generate(installed: bool, sdk: nat -> Outcome) returns (r: Result<string, GroqError>)
      modifies this
      ensures installed ==>
        var run := Attempts(sdk, 0, DefaultMaxRetries, model, old(tokensUsed));
        (r.Ok? <==> run.result.Ok?) &&
        (r.Ok? ==> r.value == run.result.value.content) &&
        (r.Err? ==> r.error == run.result.error) &&
        tokensUsed == run.tokensUsed && run.calls <= DefaultMaxRetries
      ensures !installed ==> r.Err? && r.error.kind == APIError && tokensUsed == old(tokensUsed)
    {
      var response, _, _ := MakeRequest(installed, sdk, DefaultMaxRetries);
      if response.Ok? {
        r := Ok(response.value.content);
      } else {
        r := Err(response.error);
      }
    }

    /** `tokens_used`. */
    function TokensUsed(): int
      reads this
    {
      tokensUsed
    }
  }
}
