/**
 * Profile configuration: which files are read, how each profile entry is turned into a
 * profile, and the ordered validation rules for OAuth2 and AI settings.  File contents
 * arrive already parsed; the environment is a map.
 */
module Config {
  import opened Wrappers
  import opened Json
  import opened Strings
  import Utils

  // ---------------------------------------------------------------------------
  // ConfigManager._expand_env_vars: the pattern `\$(\w+|\{(\w+)\})`

  /** The reference at the start of `s`: the looked-up name (group 1) and the match length. */
  function MatchRef(s: string): (m: Option<(string, nat)>)
    ensures m.Some? ==> 1 < m.value.1 <= |s| && m.value.0 == s[1..m.value.1]
  {
    if |s| < 2 || s[0] != '$' then None
    else if Utils.IdentChar(s[1]) then
      var n := Utils.IdentRun(s[1..]);
      Some((s[1..1 + n], 1 + n))
    else if s[1] == '{' then
      var n := Utils.IdentRun(s[2..]);
      if n > 0 && 2 + n < |s| && s[2 + n] == '}' then Some((s[1..3 + n], 3 + n)) else None
    else None
  }

  /**
   * Every reference becomes the value of the variable named by group 1, or stays as it is.
   * For `${NAME}` group 1 is `{NAME}`, braces included.
   */
  function ExpandVars(s: string, env: map<string, string>): string
    decreases |s|
  {
    if s == [] then []
    else
      match MatchRef(s)
      case Some((name, len)) =>
        (if name in env then env[name] else s[..len]) + ExpandVars(s[len..], env)
      case None => [s[0]] + ExpandVars(s[1..], env)
  }

  /** Text without '$' is unchanged. */
  lemma {:induction false} ExpandVarsNoDollar(s: string, env: map<string, string>)
    requires '$' !in s
    ensures ExpandVars(s, env) == s
    decreases |s|
  {
    if s != [] {
      ExpandVarsNoDollar(s[1..], env);
      assert s == [s[0]] + s[1..];
    }
  }

  /** A reference to an unset variable is left unchanged. */
  lemma {:induction false} ExpandVarsUnset(s: string)
    ensures ExpandVars(s, map[]) == s
    decreases |s|
  {
    if s != [] {
      match MatchRef(s)
      case Some((name, len)) =>
        ExpandVarsUnset(s[len..]);
        assert s == s[..len] + s[len..];
      case None =>
        ExpandVarsUnset(s[1..]);
        assert s == [s[0]] + s[1..];
    }
  }

  /** A word after '$' (the longest run of word characters) is replaced by its value. */
  lemma ExpandVarsPlain(name: string, env: map<string, string>)
    requires name != [] && (forall i :: 0 <= i < |name| ==> Utils.IdentChar(name[i])) && name in env
    ensures ExpandVars("$" + name, env) == env[name]
  {
    var s := "$" + name;
    assert s[1..] == name;
    assert Utils.IdentRun(name) == |name|;
    assert s[1..1 + |name|] == name;
    assert s[1 + |name|..] == [];
  }

  /** `${NAME}` looks up `{NAME}`, so with no such variable it stays literal even when NAME is set. */
  lemma ExpandVarsBraced(name: string, env: map<string, string>)
    requires name != [] && (forall i :: 0 <= i < |name| ==> Utils.IdentChar(name[i]))
    requires "{" + name + "}" !in env
    ensures ExpandVars("${" + name + "}", env) == "${" + name + "}"
  {
    var s := "${" + name + "}";
    assert s[2..] == name + "}";
    assert Utils.IdentRun(s[2..]) == |name| by {
      assert !Utils.IdentChar(s[2..][|name|]);
    }
    assert s[1..3 + |name|] == "{" + name + "}";
    assert s[..3 + |name|] == s && s[3 + |name|..] == [];
  }

  /** The two expansion routines disagree on `${NAME}`: the generic one substitutes, this one does not. */
  lemma ExpansionVariantsDiffer()
    ensures Utils.ExpandEnvVars(Str("${A}"), map["A" := "x"]) == Str("x")
    ensures ExpandVars("${A}", map["A" := "x"]) == "${A}"
  {
    var env := map["A" := "x"];
    assert Utils.BracedName("A");
    Utils.BracedSet("A", env);
    assert "${" + "A" + "}" == "${A}";
    Utils.NoDollarUnchanged("x", env);
    ExpandVarsBraced("A", env);
  }

  /** `_expand_env_vars(value)` applies `str()` first. */
  function ExpandValue(v: Value, env: map<string, string>): string {
    ExpandVars(PyStr(v), env)
  }

  // ---------------------------------------------------------------------------
  // Validation errors

  datatype ConfigError =
    | NotOAuth | MissingGrantType | UnsupportedGrantType
    | MissingTokenUrl | MissingClientId | MissingClientSecret
    | MissingUsername | MissingPassword
    | AiConfigNotDict | InvalidProvider | InvalidMode | InvalidTemperature | InvalidMaxTokens

  /** A validation error (ValueError) escapes loading; any other failure only skips the file. */
  datatype Failure = ValueError(error: ConfigError) | OtherError

  // ---------------------------------------------------------------------------
  // _parse_oauth_config

  /** The fields of an accepted OAuth2 configuration, in insertion order. */
  function OAuthKeys(hasScope: bool, password: bool): seq<string> {
    ["type", "grant_type", "token_url", "client_id", "client_secret"]
    + (if hasScope then ["scope"] else [])
    + (if password then ["username", "password"] else [])
  }

  /** The accepted configuration before the password-grant credentials are added. */
  function OAuthBase(auth: Entries, env: map<string, string>): (e: Entries)
    ensures Keys(e) == OAuthKeys(HasKey(auth, "scope"), false)
  {
    var d := Dict(auth);
    [("type", Str("oauth2")), ("grant_type", GetOr(d, "grant_type", Null)),
     ("token_url", Str(ExpandValue(GetOr(d, "token_url", Null), env))),
     ("client_id", Str(ExpandValue(GetOr(d, "client_id", Null), env))),
     ("client_secret", Str(ExpandValue(GetOr(d, "client_secret", Null), env)))]
    + (if HasKey(auth, "scope") then [("scope", Str(ExpandValue(Lookup(auth, "scope").value, env)))] else [])
  }

  /** The password-grant credentials, expanded. */
  function OAuthCredentials(auth: Entries, env: map<string, string>): (e: Entries)
    ensures Keys(e) == ["username", "password"]
  {
    var d := Dict(auth);
    [("username", Str(ExpandValue(GetOr(d, "username", Null), env))),
     ("password", Str(ExpandValue(GetOr(d, "password", Null), env)))]
  }

  /**
   * Checks in order: type, grant type present and supported, token_url, client_id,
   * client_secret, then for the password grant username and password.  The checks look at
   * the raw values; expansion happens afterwards.
   */
  function ParseOAuth(auth: Entries, env: map<string, string>): (r: Result<Value, ConfigError>)
    ensures Lookup(auth, "type") != Some(Str("oauth2")) ==> r == Err(NotOAuth)
    ensures r.Ok? ==> (r.value.Dict? &&
      Keys(r.value.entries) == OAuthKeys(HasKey(auth, "scope"), Lookup(auth, "grant_type") == Some(Str("password"))))
  {
    var d := Dict(auth);
    var grant := GetOr(d, "grant_type", Null);
    if GetOr(d, "type", Null) != Str("oauth2") then Err(NotOAuth)
    else if !Truthy(grant) then Err(MissingGrantType)
    else if grant != Str("client_credentials") && grant != Str("password") then Err(UnsupportedGrantType)
    else if !Truthy(GetOr(d, "token_url", Null)) then Err(MissingTokenUrl)
    else if !Truthy(GetOr(d, "client_id", Null)) then Err(MissingClientId)
    else if !Truthy(GetOr(d, "client_secret", Null)) then Err(MissingClientSecret)
    else if grant == Str("password") then
      if !Truthy(GetOr(d, "username", Null)) then Err(MissingUsername)
      else if !Truthy(GetOr(d, "password", Null)) then Err(MissingPassword)
      else
        OAuthKeysWithCredentials(auth, env);
        Ok(Dict(OAuthBase(auth, env) + OAuthCredentials(auth, env)))
    else Ok(Dict(OAuthBase(auth, env)))
  }

  /** The password grant appends the two credentials after the base fields. */
  lemma OAuthKeysWithCredentials(auth: Entries, env: map<string, string>)
    ensures Keys(OAuthBase(auth, env) + OAuthCredentials(auth, env)) == OAuthKeys(HasKey(auth, "scope"), true)
  {
    KeysAppend(OAuthBase(auth, env), OAuthCredentials(auth, env));
    var hasScope := HasKey(auth, "scope");
    var head := ["type", "grant_type", "token_url", "client_id", "client_secret"] + (if hasScope then ["scope"] else []);
    assert OAuthKeys(hasScope, false) == head + [];
    assert OAuthKeys(hasScope, true) == head + ["username", "password"];
  }

  /**
   * Each rejection is the first failing rule: every earlier rule passed and this one fails;
   * an accepted configuration passed them all.
   */
  lemma OAuthRuleOrder(auth: Entries, env: map<string, string>)
    ensures var d := Dict(auth); var grant := GetOr(d, "grant_type", Null);
      var typed := GetOr(d, "type", Null) == Str("oauth2");
      var supported := typed && Truthy(grant) && (grant == Str("client_credentials") || grant == Str("password"));
      var complete := supported && Truthy(GetOr(d, "token_url", Null)) && Truthy(GetOr(d, "client_id", Null)) &&
        Truthy(GetOr(d, "client_secret", Null));
      var r := ParseOAuth(auth, env);
      (r == Err(MissingGrantType) <==> typed && !Truthy(grant)) &&
      (r == Err(UnsupportedGrantType) <==> typed && Truthy(grant) && !supported) &&
      (r == Err(MissingTokenUrl) <==> supported && !Truthy(GetOr(d, "token_url", Null))) &&
      (r == Err(MissingClientId) <==> supported && Truthy(GetOr(d, "token_url", Null)) && !Truthy(GetOr(d, "client_id", Null))) &&
      (r == Err(MissingClientSecret) <==>
        supported && Truthy(GetOr(d, "token_url", Null)) && Truthy(GetOr(d, "client_id", Null)) && !Truthy(GetOr(d, "client_secret", Null))) &&
      (r == Err(MissingUsername) <==> complete && grant == Str("password") && !Truthy(GetOr(d, "username", Null))) &&
      (r == Err(MissingPassword) <==>
        complete && grant == Str("password") && Truthy(GetOr(d, "username", Null)) && !Truthy(GetOr(d, "password", Null))) &&
      (r.Ok? <==> complete && (grant == Str("password") ==> Truthy(GetOr(d, "username", Null)) && Truthy(GetOr(d, "password", Null))))
  {
  }

  lemma OAuthBaseLookup(auth: Entries, env: map<string, string>, f: string)
    requires f == "token_url" || f == "client_id" || f == "client_secret"
    ensures Lookup(OAuthBase(auth, env), f) == Some(Str(ExpandValue(GetOr(Dict(auth), f, Null), env)))
  {
    var d := Dict(auth);
    var head := [("type", Str("oauth2")), ("grant_type", GetOr(d, "grant_type", Null)),
                 ("token_url", Str(ExpandValue(GetOr(d, "token_url", Null), env))),
                 ("client_id", Str(ExpandValue(GetOr(d, "client_id", Null), env))),
                 ("client_secret", Str(ExpandValue(GetOr(d, "client_secret", Null), env)))];
    var tail := if HasKey(auth, "scope") then [("scope", Str(ExpandValue(Lookup(auth, "scope").value, env)))] else [];
    assert OAuthBase(auth, env) == head + tail;
    LookupAppend(head, tail, f);
    var i := if f == "token_url" then 2 else if f == "client_id" then 3 else 4;
    LookupAt(head, i);
  }

  /** The required fields are checked raw and stored expanded. */
  lemma ParseOAuthStoresExpanded(auth: Entries, env: map<string, string>, f: string)
    requires ParseOAuth(auth, env).Ok?
    requires f == "token_url" || f == "client_id" || f == "client_secret"
    ensures Lookup(auth, f).Some? && Truthy(Lookup(auth, f).value)
    ensures Lookup(ParseOAuth(auth, env).value.entries, f) == Some(Str(ExpandValue(Lookup(auth, f).value, env)))
  {
    var base := OAuthBase(auth, env);
    OAuthBaseLookup(auth, env, f);
    if Lookup(auth, "grant_type") == Some(Str("password")) {
      LookupAppend(base, OAuthCredentials(auth, env), f);
    }
  }

  /** A reference to an unset variable passes validation and is kept literally. */
  lemma ExpandVarsPlainUnset(name: string, env: map<string, string>)
    requires name != [] && (forall i :: 0 <= i < |name| ==> Utils.IdentChar(name[i])) && name !in env
    ensures ExpandVars("$" + name, env) == "$" + name
  {
    var s := "$" + name;
    assert s[1..] == name;
    assert Utils.IdentRun(name) == |name|;
    assert s[1..1 + |name|] == name;
    assert s[..1 + |name|] == s && s[1 + |name|..] == [];
  }

  /** An accepted configuration whose token_url is `$NAME` with NAME unset keeps `$NAME`. */
  lemma UnsetTokenUrlKeptLiterally(auth: Entries, env: map<string, string>, name: string)
    requires ParseOAuth(auth, env).Ok? && Lookup(auth, "token_url") == Some(Str("$" + name))
    requires name != [] && (forall i :: 0 <= i < |name| ==> Utils.IdentChar(name[i])) && name !in env
    ensures Lookup(ParseOAuth(auth, env).value.entries, "token_url") == Some(Str("$" + name))
  {
    ParseOAuthStoresExpanded(auth, env, "token_url");
    ExpandVarsPlainUnset(name, env);
  }

  // ---------------------------------------------------------------------------
  // _parse_ai_config

  datatype AIConfig = AIConfig(
    provider: string,
    model: Value,
    apiKey: Value,       // None when neither the file nor the environment gives one
    mode: string,
    temperature: real,
    maxTokens: int,
    enabled: bool)

  /** `AIConfig()`. */
  const DefaultAIConfig := AIConfig("groq", Str("llama-3-groq-70b"), Null, "schema", 0.7, 2000, false)

  /** The environment variable consulted for a provider's api key. */
  function ApiKeyVariable(provider: string): string {
    if provider == "groq" then "GROQ_API_KEY"
    else if provider == "openai" then "OPENAI_API_KEY"
    else "ANTHROPIC_API_KEY"
  }

  /** The model used when none is configured. */
  function DefaultModel(provider: string): string {
    if provider == "openai" then "gpt-4"
    else if provider == "anthropic" then "claude-3-opus-20240229"
    else "llama-3-groq-70b"
  }

  /** `isinstance(x, (int, float))` read as a number (True is 1). */
  function NumberValue(v: Value): real
    requires IsNumber(v)
  {
    match v
    case Bool(b) => if b then 1.0 else 0.0
    case Int(i) => i as real
    case Float(r) => r
  }

  /** `isinstance(x, int)`, which bool satisfies too. */
  predicate IsInt(v: Value) {
    v.Int? || v.Bool?
  }

  function IntValue(v: Value): int
    requires IsInt(v)
  {
    if v.Int? then v.i else if v.b then 1 else 0
  }

  /** What an accepted AI configuration satisfies. */
  predicate AcceptableAi(v: Value) {
    v.Dict? &&
    GetOr(v, "provider", Str("groq")) in {Str("groq"), Str("openai"), Str("anthropic")} &&
    GetOr(v, "mode", Str("schema")) in {Str("schema"), Str("ai"), Str("hybrid")} &&
    IsNumber(GetOr(v, "temperature", Float(0.7))) &&
    0.0 <= NumberValue(GetOr(v, "temperature", Float(0.7))) <= 2.0 &&
    IsInt(GetOr(v, "max_tokens", Int(2000))) && IntValue(GetOr(v, "max_tokens", Int(2000))) >= 1
  }

  /**
   * Rejects, in order: a non-dict, an unknown provider, an unknown mode, a temperature that
   * is not a number in [0, 2], and max_tokens that is not an integer of at least 1.
   */
  function ParseAiConfig(v: Value, env: map<string, string>): (r: Result<AIConfig, ConfigError>)
    ensures r.Ok? <==> AcceptableAi(v)
    ensures r.Ok? ==> r.value.provider in {"groq", "openai", "anthropic"} && r.value.mode in {"schema", "ai", "hybrid"}
    ensures r.Ok? ==> 0.0 <= r.value.temperature <= 2.0 && r.value.maxTokens >= 1
    ensures r.Ok? && !Truthy(GetOr(v, "model", Null)) ==> r.value.model == Str(DefaultModel(r.value.provider))
    ensures r.Ok? && !Truthy(GetOr(v, "api_key", Null)) ==>
      r.value.apiKey == if ApiKeyVariable(r.value.provider) in env && env[ApiKeyVariable(r.value.provider)] != ""
                        then Str(ExpandVars(env[ApiKeyVariable(r.value.provider)], env))
                        else if ApiKeyVariable(r.value.provider) in env then Str("") else Null
    ensures !v.Dict? ==> r == Err(AiConfigNotDict)
  {
    if !v.Dict? then Err(AiConfigNotDict)
    else
      var provider := GetOr(v, "provider", Str("groq"));
      if provider !in {Str("groq"), Str("openai"), Str("anthropic")} then Err(InvalidProvider)
      else
        var configured := GetOr(v, "api_key", Null);
        var apiKey :=
          if Truthy(configured) then configured
          else if ApiKeyVariable(provider.s) in env then Str(env[ApiKeyVariable(provider.s)])
          else Null;
        var apiKey := if apiKey.Str? && apiKey.s != "" then Str(ExpandVars(apiKey.s, env)) else apiKey;
        var model := GetOr(v, "model", Null);
        var model := if Truthy(model) then model else Str(DefaultModel(provider.s));
        var mode := GetOr(v, "mode", Str("schema"));
        if mode !in {Str("schema"), Str("ai"), Str("hybrid")} then Err(InvalidMode)
        else
          var temperature := GetOr(v, "temperature", Float(0.7));
          if !IsNumber(temperature) || NumberValue(temperature) < 0.0 || NumberValue(temperature) > 2.0 then
            Err(InvalidTemperature)
          else
            var maxTokens := GetOr(v, "max_tokens", Int(2000));
            if !IsInt(maxTokens) || IntValue(maxTokens) < 1 then Err(InvalidMaxTokens)
            else
              Ok(AIConfig(provider.s, model, apiKey, mode.s, NumberValue(temperature), IntValue(maxTokens),
                          Truthy(GetOr(v, "enabled", Bool(false)))))
  }

  /** An empty AI section is accepted and gives the defaults, taking the key from the environment. */
  lemma EmptyAiConfigIsDefault(env: map<string, string>)
    requires "GROQ_API_KEY" !in env
    ensures ParseAiConfig(EmptyDict, env) == Ok(DefaultAIConfig)
  {
  }

  // ---------------------------------------------------------------------------
  // Profiles

  datatype Profile = Profile(
    name: string,
    baseUrl: Value,
    auth: Value,
    pathParams: Entries,
    timeout: Value,
    description: Value,
    aiConfig: Option<AIConfig>)

  /** A truthy auth setting: a dict is an OAuth2 configuration, list items and strings are expanded. */
  function ParseAuthSetting(auth: Value, env: map<string, string>): (r: Result<Value, ConfigError>)
    ensures auth.Str? && auth.s != "" ==> r == Ok(Str(ExpandVars(auth.s, env)))
    ensures auth.List? ==> r.Ok? && r.value.List? && |r.value.items| == |auth.items|
    ensures !auth.Dict? ==> r.Ok?
  {
    if !Truthy(auth) then Ok(auth)
    else
      match auth
      case Dict(entries) => ParseOAuth(entries, env)
      case List(items) => Ok(List(seq(|items|, i requires 0 <= i < |items| => Str(ExpandValue(items[i], env)))))
      case Str(text) => Ok(Str(ExpandVars(text, env)))
      case _ => Ok(auth)
  }

  /** String path parameters are expanded, others kept; a value that is not a dict cannot be iterated. */
  function ParsePathParams(data: Value, env: map<string, string>): (r: Option<Entries>)
    ensures r.Some? ==> data.Dict? && Keys(r.value) == Keys(data.entries)
    ensures r.None? <==> !data.Dict?
  {
    if !data.Dict? then None
    else Some(seq(|data.entries|, i requires 0 <= i < |data.entries| =>
      (data.entries[i].0,
       if data.entries[i].1.Str? then Str(ExpandVars(data.entries[i].1.s, env)) else data.entries[i].1)))
  }

  /** One profile entry: auth first, then path parameters, then the AI section. */
  function ParseProfile(name: string, data: Entries, env: map<string, string>): (r: Result<Profile, Failure>)
    ensures r.Ok? ==> r.value.name == name
    ensures ParseAuthSetting(GetOr(Dict(data), "auth", Null), env).Err? ==> r.Err? && r.error.ValueError?
    ensures r == Err(OtherError) <==>
      ParseAuthSetting(GetOr(Dict(data), "auth", Null), env).Ok? && !GetOr(Dict(data), "path_params", EmptyDict).Dict?
    ensures r.Ok? ==> (GetOr(Dict(data), "path_params", EmptyDict).Dict? &&
      Keys(r.value.pathParams) == Keys(GetOr(Dict(data), "path_params", EmptyDict).entries))
    ensures r.Ok? ==> (r.value.aiConfig.Some? <==> Truthy(GetOr(Dict(data), "ai_config", Null)))
  {
    var d := Dict(data);
    match ParseAuthSetting(GetOr(d, "auth", Null), env)
    case Err(e) => Err(ValueError(e))
    case Ok(auth) =>
      match ParsePathParams(GetOr(d, "path_params", EmptyDict), env)
      case None => Err(OtherError)
      case Some(pathParams) =>
        var aiData := GetOr(d, "ai_config", Null);
        if Truthy(aiData) && ParseAiConfig(aiData, env).Err? then Err(ValueError(ParseAiConfig(aiData, env).error))
        else
          var ai := if Truthy(aiData) then Some(ParseAiConfig(aiData, env).value) else None;
          Ok(Profile(name, GetOr(d, "base_url", Null), auth, pathParams,
                     GetOr(d, "timeout", Null), GetOr(d, "description", Null), ai))
  }

  /**
   * The profiles after the entries are processed in order, each valid one written under its
   * name; entries that are not dicts are skipped, and the first failure stops the walk with
   * what was written so far kept.
   */
  function FoldProfiles(acc: map<string, Profile>, entries: Entries, env: map<string, string>): (map<string, Profile>, Option<Failure>)
    decreases |entries|
  {
    if entries == [] then (acc, None)
    else if !entries[0].1.Dict? then FoldProfiles(acc, entries[1..], env)
    else
      match ParseProfile(entries[0].0, entries[0].1.entries, env)
      case Err(f) => (acc, Some(f))
      case Ok(p) => FoldProfiles(acc[entries[0].0 := p], entries[1..], env)
  }

  /** `_parse_profiles`: a document that is not a dict adds nothing; a 'profiles' value that is not a dict fails. */
  function ParseProfilesSpec(acc: map<string, Profile>, doc: Value, env: map<string, string>): (map<string, Profile>, Option<Failure>) {
    if !doc.Dict? then (acc, None)
    else
      var section := GetOr(doc, "profiles", EmptyDict);
      if !section.Dict? then (acc, Some(OtherError))
      else FoldProfiles(acc, section.entries, env)
  }

  /**
   * `_load_config` over the files found, in order: an unreadable file (None) or one whose
   * profiles fail for another reason is skipped, a validation error stops loading.
   */
  function LoadSpec(acc: map<string, Profile>, docs: seq<Option<Value>>, env: map<string, string>): (map<string, Profile>, Option<ConfigError>)
    decreases |docs|
  {
    if docs == [] then (acc, None)
    else if docs[0].None? then LoadSpec(acc, docs[1..], env)
    else
      var data := if Truthy(docs[0].value) then docs[0].value else EmptyDict;
      var (next, failure) := ParseProfilesSpec(acc, data, env);
      if failure.Some? && failure.value.ValueError? then (next, Some(failure.value.error))
      else LoadSpec(next, docs[1..], env)
  }

  /** Processing entries never removes a profile, and names not among the entries keep their profile. */
  lemma {:induction false} FoldKeepsOthers(acc: map<string, Profile>, entries: Entries, env: map<string, string>, n: string)
    requires n in acc
    ensures n in FoldProfiles(acc, entries, env).0
    ensures !HasKey(entries, n) ==> FoldProfiles(acc, entries, env).0[n] == acc[n]
    decreases |entries|
  {
    if entries != [] {
      assert !HasKey(entries, n) ==> !HasKey(entries[1..], n) && entries[0].0 != n by {
        if HasKey(entries[1..], n) {
          var i :| 0 <= i < |entries[1..]| && entries[1..][i].0 == n;
          assert entries[i + 1].0 == n;
        }
      }
      if entries[0].1.Dict? {
        match ParseProfile(entries[0].0, entries[0].1.entries, env)
        case Err(_) =>
        case Ok(p) => FoldKeepsOthers(acc[entries[0].0 := p], entries[1..], env, n);
      } else {
        FoldKeepsOthers(acc, entries[1..], env, n);
      }
    }
  }

  /**
   * When the walk completes, a dict-valued entry's profile is what its name ends up with
   * (names are unique in a parsed document).
   */
  lemma {:induction false} FoldSetsEntry(acc: map<string, Profile>, entries: Entries, env: map<string, string>, i: nat)
    requires UniqueKeys(entries) && i < |entries| && entries[i].1.Dict?
    requires FoldProfiles(acc, entries, env).1.None?
    ensures ParseProfile(entries[i].0, entries[i].1.entries, env).Ok?
    ensures entries[i].0 in FoldProfiles(acc, entries, env).0
    ensures FoldProfiles(acc, entries, env).0[entries[i].0] == ParseProfile(entries[i].0, entries[i].1.entries, env).value
    decreases |entries|
  {
    var n := entries[i].0;
    if i == 0 {
      var p := ParseProfile(n, entries[0].1.entries, env);
      assert p.Ok?;
      forall j | 0 <= j < |entries[1..]| ensures entries[1..][j].0 != n {
        assert entries[1..][j] == entries[j + 1];
      }
      FoldKeepsOthers(acc[n := p.value], entries[1..], env, n);
    } else {
      assert UniqueKeys(entries[1..]) by {
        forall a, b | 0 <= a < b < |entries[1..]| ensures entries[1..][a].0 != entries[1..][b].0 {
          assert entries[1..][a] == entries[a + 1] && entries[1..][b] == entries[b + 1];
        }
      }
      assert entries[1..][i - 1] == entries[i];
      if entries[0].1.Dict? {
        var p := ParseProfile(entries[0].0, entries[0].1.entries, env);
        FoldSetsEntry(acc[entries[0].0 := p.value], entries[1..], env, i - 1);
      } else {
        FoldSetsEntry(acc, entries[1..], env, i - 1);
      }
    }
  }

  /** A profile defined in a later file replaces the same name from an earlier one. */
  lemma LaterFileWins(acc: map<string, Profile>, first: Value, second: Value, env: map<string, string>, i: nat)
    requires LoadSpec(acc, [Some(first)], env).1.None?
    requires second.Dict? && Truthy(second)
    requires Has(second, "profiles") && Get(second, "profiles").value.Dict?
    requires var entries := Get(second, "profiles").value.entries;
      UniqueKeys(entries) && i < |entries| && entries[i].1.Dict? &&
      FoldProfiles(LoadSpec(acc, [Some(first)], env).0, entries, env).1.None?
    ensures var entries := Get(second, "profiles").value.entries;
      var parsed := ParseProfile(entries[i].0, entries[i].1.entries, env);
      var result := LoadSpec(acc, [Some(first), Some(second)], env);
      parsed.Ok? && entries[i].0 in result.0 && result.0[entries[i].0] == parsed.value
  {
    var entries := Get(second, "profiles").value.entries;
    var docs := [Some(first), Some(second)];
    var mid := LoadSpec(acc, [Some(first)], env).0;
    assert LoadSpec(acc, docs, env) == LoadSpec(mid, [Some(second)], env) by {
      assert docs[1..] == [Some(second)];
      assert [Some(first)][1..] == [];
    }
    assert GetOr(second, "profiles", EmptyDict) == Get(second, "profiles").value;
    assert LoadSpec(mid, [Some(second)], env) == (FoldProfiles(mid, entries, env).0, None) by {
      assert [Some(second)][1..] == [];
    }
    FoldSetsEntry(mid, entries, env, i);
  }

  // ---------------------------------------------------------------------------
  // Which files are read

  datatype ConfigSource = ProjectFile | ExplicitFile | DefaultUserFile

  /**
   * The project file when it exists, then the explicitly given file when it exists, or the
   * default user file when none was given and it exists.
   */
  function ConfigPaths(projectExists: bool, explicit: Option<bool>, defaultExists: bool): (paths: seq<ConfigSource>)
    ensures ProjectFile in paths <==> projectExists
    ensures projectExists ==> paths[0] == ProjectFile
    ensures explicit.Some? ==> DefaultUserFile !in paths
    ensures ExplicitFile in paths <==> explicit == Some(true)
    ensures |paths| <= 2
  {
    (if projectExists then [ProjectFile] else [])
    + (if explicit.Some? then (if explicit.value then [ExplicitFile] else [])
       else if defaultExists then [DefaultUserFile] else [])
  }

  class ConfigManager {
    var profiles: map<string, Profile>

    constructor ()
      ensures profiles == map[]
    {
      profiles := map[];
    }

    /** `_parse_profiles`: writes each valid profile entry as it goes. */
    method ParseProfiles(doc: Value, env: map<string, string>) returns (failure: Option<Failure>)
      modifies this
      ensures (profiles, failure) == ParseProfilesSpec(old(profiles), doc, env)
    {
      if !doc.Dict? {
        return None;
      }
      var section := GetOr(doc, "profiles", EmptyDict);
      if !section.Dict? {
        return Some(OtherError);
      }
      var entries := section.entries;
      var i := 0;
      while i < |entries|
        invariant 0 <= i <= |entries|
        invariant FoldProfiles(old(profiles), entries, env) == FoldProfiles(profiles, entries[i..], env)
      {
        assert entries[i..][1..] == entries[i + 1..];
        var (name, data) := entries[i];
        if data.Dict? {
          var parsed := ParseProfile(name, data.entries, env);
          if parsed.Err? {
            return Some(parsed.error);
          }
          profiles := profiles[name := parsed.value];
        }
        i := i + 1;
      }
      return None;
    }

    /** `_load_config`, given the parsed documents of the files `ConfigPaths` selects. */
    method LoadConfig(docs: seq<Option<Value>>, env: map<string, string>) returns (error: Option<ConfigError>)
      modifies this
      ensures (profiles, error) == LoadSpec(old(profiles), docs, env)
    {
      var i := 0;
      while i < |docs|
        invariant 0 <= i <= |docs|
        invariant LoadSpec(old(profiles), docs, env) == LoadSpec(profiles, docs[i..], env)
      {
        assert docs[i..][1..] == docs[i + 1..];
        if docs[i].Some? {
          var data := if Truthy(docs[i].value) then docs[i].value else EmptyDict;
          var failure := ParseProfiles(data, env);
          if failure.Some? && failure.value.ValueError? {
            return Some(failure.value.error);
          }
        }
        i := i + 1;
      }
      return None;
    }

    /** `get_profile`: None for an unknown name. */
    function GetProfile(name: string): (p: Option<Profile>)
      reads this
      ensures p.Some? <==> name in profiles
      ensures p.Some? ==> p.value == profiles[name]
    {
      if name in profiles then Some(profiles[name]) else None
    }

    /** `get_ai_config`: the profile's own AI settings, else the defaults. */
    function GetAiConfig(name: Option<string>): (c: AIConfig)
      reads this
      ensures name.None? || name.value == "" || name.value !in profiles ==> c == DefaultAIConfig
      ensures name.Some? && name.value in profiles && profiles[name.value].aiConfig.None? ==> c == DefaultAIConfig
      ensures name.Some? && name.value != "" && name.value in profiles && profiles[name.value].aiConfig.Some? ==>
        c == profiles[name.value].aiConfig.value
    {
      if name.Some? && name.value != "" then
        match GetProfile(name.value)
        case Some(p) => if p.aiConfig.Some? then p.aiConfig.value else DefaultAIConfig
        case None => DefaultAIConfig
      else DefaultAIConfig
    }

    /** `list_profiles`: a copy of the name-to-profile table. */
    method ListProfiles() returns (all: map<string, Profile>)
      ensures all == profiles
    {
      all := profiles;
    }
  }
}
