# API-Tester-CLI core, modelled in Dafny

API-Tester-CLI reads an OpenAPI 3 or Swagger 2 document and calls every endpoint it
describes. It judges each response against the documented status code and response schema,
and keeps a history of the runs in which it learns value patterns and baselines and reports
regressions. An optional AI pipeline builds a prompt from that history, asks a Groq model for
test cases and parses the answer. Reviewers then approve or reject the generated cases, and
their feedback is turned into refined prompt versions.

This project models the deterministic core of that tool, one Dafny module per source file:

- credentials and configuration: `Auth`, `Utils`, `Config`, `TokenStore`;
- planning a run without the network: `Tester`, `SchemaParser`, `Validator`, `TestGenerator`,
  `DataGenerator`;
- learning and regression: `PatternExtractor`, `Baseline`, `History`, `TestCaseLibrary`;
- the AI pipeline: `ResponseParser`, `PromptBuilder`, `ContextBuilder`, `AiGenerator`,
  `GroqClient`, `FeedbackAnalyzer`, `PromptRefiner`, `Validation`.

Six shared modules support them:

- `Wrappers`: Option and Result.
- `Json`: a Python dict, list or scalar. A dict is an ordered association list with unique
  keys, as Python's insertion-ordered dict is.
- `Strings`: `split`, `lower`, `replace`, `strip` and similar helpers.
- `Numbers`: Python's `int()` and `float()` applied to text.
- `OrderedDict`: a defaultdict-style grouping.
- `Sorting`: a stable sort by a descending key, and Python's order on strings with `sorted` of string-keyed items.

Some conventions hold throughout:

- A Python exception is the `None` of an `Option` or the `Err` of a `Result`. Where Python
  returns `None`, the model returns `Some(None)` or `Null`.
- Whatever the program reads from outside is a parameter or a field: the environment, the
  clock, the OS keyring, the file system, the SQLite store, the HTTP responses and the Groq SDK.
- Objects whose methods update their fields are classes with those fields. The same goes for
  the storage tables that their methods write. Loops are methods proved equal to a
  specification function, and the source's promises are lemmas about that function.

Where the source's tests expect behaviour that the shown code does not have, the model follows
the code. Examples:

- an OAuth token manager;
- fallback across several credentials after a 401 or 403;
- a base URL of `/api` replaced by localhost, whereas `apitest/tester.py:94` only replaces an
  empty or blank URL.

## Model

| member | source | states |
|---|---|---|
| Auth.ParseAtFirstEquals | apitest/auth.py:32-37 | the text before the first `=` (lowercased) picks the kind and everything after it is the value |
| Auth.ParseRender | apitest/auth.py:32-58 | every credential the parser accepts is recovered from its `kind=value` text (bearer, apikey with or without a location, header) |
| Auth.ParseWithoutEquals | apitest/auth.py:32-33 | a string without `=` is rejected with the invalid-format error, whatever else it holds |
| Auth.ParseBearerKeepsLaterEquals | apitest/auth.py:35-41 | `bearer` in any case gives a bearer token holding everything after the first `=`, later `=` included |
| Auth.ParseApiKeyNeedsTwoParts | apitest/auth.py:44-46 | an apikey value without `:` is rejected with the api-key-format error |
| Auth.ParseHeaderNeedsColon | apitest/auth.py:54-56 | a header value without `:` is rejected with the header-format error |
| Auth.AuthHandler.constructor | apitest/auth.py:11-17 | a fresh handler has no type, token or key, location `header`, no custom headers, and yields no headers and no query parameters |
| Auth.AuthHandler.ParseAuthString | apitest/auth.py:19-60 | fails exactly when the text does not parse, and then leaves the handler unchanged; bearer sets type and token only; apikey sets type, name, value and (when given, lowercased) the location only; header adds one custom header only |
| Auth.AuthHandler.Headers | apitest/auth.py:62-79 | every custom header is sent with its value; a non-empty bearer token gives `Authorization: Bearer T` and a header-located api key gives its name/value unless a custom header of that name overrides it; no other header appears |
| Auth.AuthHandler.QueryParams | apitest/auth.py:81-93 | a parameter is present exactly when a non-empty api key is located in `query`, and it carries the key's value |
| Auth.ApiKeyOtherLocation | apitest/auth.py:71-93 | an api key located anywhere but `header` or `query` is sent neither as header nor as query parameter |
| Auth.BearerHasNoQueryParams | apitest/auth.py:88-93 | a bearer credential never produces query parameters |
| Utils.DeepGet | apitest/utils.py:10-31 | the result is the value reached by following the `.`-separated keys, or the default at the first missing key or non-dict step |
| Utils.WalkAppend | apitest/utils.py:25-29 | following two key paths in turn is following their concatenation, and a failed first walk fails the whole |
| Utils.WalkNonDict | apitest/utils.py:26-29 | a value that is not a dict (None included) yields the default for every path |
| Utils.EmptyPathIsEmptyKey | apitest/utils.py:22 | the empty path is the single key `''`: the lookup is `data['']` when present, else the default |
| Utils.NameEnd | apitest/utils.py:82 | the `[^}:]+` name of the braced pattern ends at the first `}` or `:` and nowhere earlier |
| Utils.IdentRun | apitest/utils.py:84 | the `[A-Za-z0-9_]*` run is the longest prefix of identifier characters |
| Utils.MatchBraced | apitest/utils.py:82 | a braced match at the start of the text covers a non-empty part of it |
| Utils.MatchPlain | apitest/utils.py:84 | a `$NAME` match has a non-empty name that fits in the text |
| Utils.ExpandEnvVars | apitest/utils.py:50-86 | a non-string is returned unchanged; a string goes through the braced pass and then the `$NAME` pass over the braced pass's output |
| Utils.NoDollarUnchanged | apitest/utils.py:82-84 | text without `$` passes both substitutions unchanged |
| Utils.PlainUnsetUnchanged | apitest/utils.py:84 | with no variable set, every `$NAME` stays as written |
| Utils.MatchBracedName | apitest/utils.py:82 | `${NAME}` matches as one reference to NAME with no default |
| Utils.MatchBracedDefault | apitest/utils.py:82 | `${NAME:-d}` matches as one reference to NAME with default d |
| Utils.SubstBracedWhole | apitest/utils.py:68-82 | text that is one braced reference is replaced by that reference's replacement |
| Utils.BracedSet | apitest/utils.py:68-84 | `${NAME}` with NAME set becomes its value, which the `$NAME` pass then rescans |
| Utils.BracedDefault | apitest/utils.py:68-84 | `${NAME:-d}` with NAME unset becomes d (possibly empty), rescanned by the `$NAME` pass |
| Utils.BracedUnsetStays | apitest/utils.py:77-79 | `${NAME}` with NAME unset and no default stays literally in the output |
| Utils.PlainSet | apitest/utils.py:84 | `$NAME` with NAME set becomes its value |
| Utils.DollarDigitsUnchanged | apitest/utils.py:84 | `$100` is left unchanged: a digit cannot start a name |
| Utils.Rescan | apitest/utils.py:82-84 | since the passes run in sequence, `${A}` where A is `$B` (B a name) expands to the value of B |
| Config.MatchRef | apitest/config.py:173 | a match of `\$(\w+\|\{(\w+)\})` at the start of the text has group 1 right after the `$` (braces included for `${NAME}`) |
| Config.ExpandVarsNoDollar | apitest/config.py:161-173 | text without `$` is returned unchanged |
| Config.ExpandVarsUnset | apitest/config.py:168-173 | with no variable set, every reference is left as written |
| Config.ExpandVarsPlain | apitest/config.py:168-173 | `$NAME` (the longest run of word characters) becomes the variable's value when set |
| Config.ExpandVarsBraced | apitest/config.py:168-173 | `${NAME}` looks up the name `{NAME}`, braces included, so it stays literal even when NAME is set |
| Config.ExpansionVariantsDiffer | apitest/config.py:161-173 | the two expansion routines disagree: with A=`x`, the generic one turns `${A}` into `x` and this one keeps `${A}` |
| Config.ExpandVarsPlainUnset | apitest/config.py:170 | `$NAME` with NAME unset is kept literally |
| Config.OAuthBase | apitest/config.py:234-245 | the accepted OAuth dict has type, grant_type, token_url, client_id and client_secret, then scope exactly when the input has a scope key |
| Config.OAuthCredentials | apitest/config.py:263-264 | the password grant adds exactly username and then password |
| Config.ParseOAuth | apitest/config.py:175-266 | a type other than `oauth2` is rejected first; an accepted result holds exactly the five required keys, scope iff given, and username/password iff the grant is `password` |
| Config.OAuthRuleOrder | apitest/config.py:190-264 | each rejection (missing or unsupported grant, missing token_url, client_id, client_secret, then username and password for the password grant) happens exactly when all earlier rules pass and this one fails; acceptance is all rules passing |
| Config.OAuthBaseLookup | apitest/config.py:229-241 | token_url, client_id and client_secret are stored expanded |
| Config.ParseOAuthStoresExpanded | apitest/config.py:211-241 | the required fields are checked raw (present and truthy) and stored after expansion |
| Config.UnsetTokenUrlKeptLiterally | apitest/config.py:211-232 | a token_url `$NAME` with NAME unset passes validation and is kept as `$NAME` |
| Config.ParseAiConfig | apitest/config.py:268-363 | accepted exactly when the section is a dict with a known provider, a known mode, a numeric temperature in [0, 2] and an int max_tokens of at least 1; a missing model takes the provider's default and a missing key comes from the provider's environment variable |
| Config.EmptyAiConfigIsDefault | apitest/config.py:289-363 | an empty AI section gives `AIConfig()` when the groq key variable is unset |
| Config.ParseAuthSetting | apitest/config.py:114-125 | a string is expanded, a list keeps its length with every item expanded, and only a dict (OAuth2) can be rejected |
| Config.ParsePathParams | apitest/config.py:127-132 | the parameters keep their keys in order; anything but a dict cannot be iterated and fails |
| Config.ParseProfile | apitest/config.py:110-159 | the profile carries its name; an auth rejection is a validation error; a non-dict path_params is a non-validation failure; the AI settings are present exactly when the section is truthy |
| Config.FoldKeepsOthers | apitest/config.py:110-159 | processing entries never removes a profile, and names not among the entries keep theirs |
| Config.FoldSetsEntry | apitest/config.py:110-159 | when no entry fails, each dict-valued entry's parsed profile is what its name maps to |
| Config.LaterFileWins | apitest/config.py:84-95 | a profile in the second file read replaces the same name from the first, despite the comment that the project file overrides |
| Config.ConfigPaths | apitest/config.py:67-83 | the project file comes first when it exists; then the explicit file when given and existing, else the default user file when it exists; at most two files |
| Config.ConfigManager.constructor | apitest/config.py:56-65 | a new manager starts with no profiles before loading |
| Config.ConfigManager.ParseProfiles | apitest/config.py:97-159 | the profiles and the failure are those of processing the document's entries in order, skipping non-dict entries and stopping at the first failure |
| Config.ConfigManager.LoadConfig | apitest/config.py:67-95 | files are processed in order; an unreadable file or a non-validation failure skips the file, a validation error stops loading and escapes |
| Config.ConfigManager.GetProfile | apitest/config.py:383-393 | the profile of a known name, None for an unknown one |
| Config.ConfigManager.GetAiConfig | apitest/config.py:365-381 | the named profile's own AI settings when it has them, otherwise `AIConfig()` |
| Config.ConfigManager.ListProfiles | apitest/config.py:395-397 | a copy of the whole name-to-profile table |
| TokenStore.TokenKey | apitest/storage/token_store.py:49-59 | an identifier's token entry is named `token:` followed by the identifier |
| TokenStore.MetadataKey | apitest/storage/token_store.py:61-63 | an identifier's metadata entry is named `metadata:` followed by the identifier |
| TokenStore.KeysSeparate | apitest/storage/token_store.py:49-63 | a token key never equals a metadata key, and distinct identifiers never share a key name |
| TokenStore.SecretText | apitest/storage/token_store.py:95-96 | serialized metadata is never the empty text |
| TokenStore.IsoRoundTrip | apitest/storage/token_store.py:90 | reading back a written expiry timestamp gives the timestamp |
| TokenStore.FromIsoFormat | apitest/storage/token_store.py:169-172 | a timestamp text parses exactly when it is well formed |
| TokenStore.MetadataFields | apitest/storage/token_store.py:88-94 | the metadata holds token_type, expires_at (None without expiry), refresh_token and created_at, and a caller's key overrides the field of the same name |
| TokenStore.CreateIdentifier | apitest/storage/token_store.py:237-254 | the identifier is the (absolute when the file exists) schema path, `:`, the base URL without trailing `/`, `:`, the auth type |
| TokenStore.TrailingSlashIgnored | apitest/storage/token_store.py:252 | base URLs that differ only in a trailing `/` give the same identifier |
| TokenStore.TokenStore.constructor | apitest/storage/token_store.py:25-47 | the store keeps its service name, the keyring contents and whether the backend works; an unavailable backend is only warned about |
| TokenStore.TokenStore.Password | apitest/storage/token_store.py:115 | a text is found exactly for a key stored under this service |
| TokenStore.TokenStore.StoreToken | apitest/storage/token_store.py:65-101 | with a working backend, the token entry and then the metadata entry are overwritten and nothing else changes; a failing backend raises and writes nothing |
| TokenStore.TokenStore.GetTokenMetadata | apitest/storage/token_store.py:132-152 | metadata is returned only when a non-empty metadata entry exists and decodes, and it is the stored dict |
| TokenStore.TokenStore.IsTokenExpired | apitest/storage/token_store.py:154-172 | false without metadata or without a truthy expires_at or with an unparsable one; true exactly when the clock has reached a parsable expiry; a truthy non-string expiry raises |
| TokenStore.TokenStore.GetToken | apitest/storage/token_store.py:103-130 | the token is returned exactly when the backend works, the token entry is non-empty and the expiry check says not expired (an exception there gives None) |
| TokenStore.TokenStore.GetRefreshToken | apitest/storage/token_store.py:174-188 | the metadata's refresh_token when metadata exists and the field is set and not None, otherwise None |
| TokenStore.TokenStore.DeleteToken | apitest/storage/token_store.py:190-206 | both entries are removed when the token entry exists; a missing token entry raises and is swallowed, leaving the metadata entry in place |
| TokenStore.TokenStore.ListTokenIdentifiers | apitest/storage/token_store.py:221-235 | listing is unsupported and always gives the empty list |
| TokenStore.StoreThenGetNoExpiry | apitest/storage/token_store.py:65-127 | a non-empty token stored without expiry is returned by `get_token` at any later time |
| TokenStore.StoreThenGetWithExpiry | apitest/storage/token_store.py:65-172 | a token stored with expiry e is returned exactly while the clock is before e |
| TokenStore.TokenStore.TokenExists | apitest/storage/token_store.py:208-219 | a token exists only when the backend works, a non-empty token entry is stored and the expiry check says it has not expired |
| TokenStore.StoreThenExists | apitest/storage/token_store.py:65-219 | after `store_token` with a non-empty token, `token_exists` holds exactly while the clock is before the expiry, and always without one |
| TokenStore.StoredRefreshToken | apitest/storage/token_store.py:88-188 | the refresh token passed to `store_token` is what `get_refresh_token` returns, unless the caller's metadata overrides it |
| Tester.WithStatus | apitest/tester.py:52-66 | the results with one status keep their original order: every one listed has that status, and every result with that status is listed |
| Tester.WithStatusAppend | apitest/tester.py:52-66 | the per-status lists distribute over concatenation of result lists |
| Tester.StatusCountsSum | apitest/tester.py:52-66 | passed, failed, warning and error results together account for every result exactly once |
| Tester.TestResults.constructor | apitest/tester.py:43-46 | a new collection holds no results |
| Tester.TestResults.AddResult | apitest/tester.py:48-50 | the result is appended at the end and nothing else changes |
| Tester.AddedResultCounts | apitest/tester.py:48-66 | after adding a result, only the list for its own status grows, by that result at its end |
| Tester.TestResults.HasFailures | apitest/tester.py:68-70 | true exactly when some result failed or errored; warnings alone do not count |
| Tester.TestResults.GetSuccessRate | apitest/tester.py:72-77 | 0 for no results, otherwise the passed share as a percentage in [0, 100], 100 when every result passed |
| Tester.Percentage | apitest/tester.py:72-77 | a part of a total, as a percentage, lies in [0, 100] and is 100 for the whole |
| Tester.Setup | apitest/tester.py:92-100 | the schema's base URL is used when it is a non-blank string; an empty or blank one is replaced by `http://localhost:8000`; a truthy non-string base URL raises |
| Tester.SetupReflectsBaseUrl | apitest/tester.py:92-100 | when the servers section is missing, empty or starts with a dict, the updated schema yields the same base URL the tester uses |
| Tester.ParamNames | apitest/tester.py:336 | every captured path-parameter name is non-empty and contains no `}` |
| Tester.NoBraceNoParams | apitest/tester.py:336 | a path without `{` has no parameters |
| Tester.FirstPathParamDecides | apitest/tester.py:368-387 | the first parameter declared `in: path` with the name decides the value by its schema type and format; later ones are not consulted |
| Tester.NoPathParamIsOne | apitest/tester.py:368-391 | without a matching path parameter the value falls back to 1 |
| Tester.PathParamValue | apitest/tester.py:367-391 | without an operation the value is 1 |
| Tester.SubstituteWarnings | apitest/tester.py:338-351 | each default-parameter warning is recorded once, after the earlier ones, which stay in place |
| Tester.SubstitutePathOnly | apitest/tester.py:338-351 | the URL a path becomes does not depend on which warnings were recorded before |
| Tester.SuppliedParamsNoWarning | apitest/tester.py:341-343 | parameters the caller supplies are substituted without any warning |
| Tester.JoinUrl | apitest/tester.py:329-355 | the URL is the base without trailing slashes, a `/`, then the substituted path |
| Tester.PlainPathUrl | apitest/tester.py:329-355 | a path without parameters is used unchanged and records no warning |
| Tester.OneParamName | apitest/tester.py:336 | a path with one `{name}` placeholder and no other `{` has exactly the parameter `name` |
| Tester.ReplacePlainPrefixSuffix | apitest/tester.py:353 | replacing a placeholder preceded by text that cannot start it keeps the text on both sides and puts the value in its place |
| Tester.SuppliedNoWarnings | apitest/tester.py:338-353 | for any path, when the caller supplies every parameter the URL never fails and no warning is recorded: each placeholder is replaced by `str` of its supplied value, in order |
| Tester.OneSuppliedParam | apitest/tester.py:336-353 | any path `prefix{name}suffix` with `name` supplied becomes `prefix` + `str(value)` + `suffix`, with no warning |
| Tester.SuppliedParamExample | apitest/tester.py:338-353 | `/users/{id}` with a supplied `id = 42` becomes `users/42` (an instance of OneSuppliedParam) |
| Tester.APITester.BuildUrl | apitest/tester.py:321-355 | the URL is the substitution of every parameter in the stripped path followed by the join; the warnings become those of the substitution; base URL, schema and supplied parameters are unchanged |
| Tester.FirstSuccessCode | apitest/tester.py:398-400 | a code found is one of 200, 201, 202, 204 |
| Tester.FirstSuccessCodeDict | apitest/tester.py:398-400 | for a dict of responses the first success code present, in the order 200, 201, 202, 204, is found |
| Tester.NoSuccessCodeDict | apitest/tester.py:398-400 | with none of those codes present nothing is found |
| Tester.ExpectedStatusCode | apitest/tester.py:393-408 | an operation that is a dict with a dict of responses never raises |
| Tester.ExpectedPrefersSuccess | apitest/tester.py:398-400 | a success code present is expected before any other key |
| Tester.ExpectedFirstKey | apitest/tester.py:402-408 | otherwise the first response key is expected when it is all digits, and nothing when it is not or there are no responses |
| Tester.RefFreeUnchanged | apitest/tester.py:544-572 | a schema with no `$ref` comes back unchanged |
| Tester.RefInlined | apitest/tester.py:553-560 | a reference to a reference-free component schema is replaced by that schema |
| Tester.SelfReferenceDiverges | apitest/tester.py:553-560 | a component that refers to itself never resolves (the source recurses without end) |
| Tester.RequestHeaders | apitest/tester.py:193-198 | POST, PUT and PATCH get a `Content-Type` header, keeping one the credential already set; other headers are unchanged, and other methods send the credential headers as they are |
| Tester.RequestJson | apitest/tester.py:200-208 | only POST, PUT and PATCH with a truthy request body send a JSON body; otherwise none is sent |
| Tester.ListContentRaises | apitest/tester.py:201-208 | a POST whose `requestBody` has a list as `content` raises while its body is generated |
| Tester.EndpointResult | apitest/tester.py:251-317 | a transport failure is an error with status code 0 and a message; a response is never an error: it fails exactly when a known non-zero expected code differs, warns exactly when it did not fail and the JSON schema check found errors, and is marked a schema mismatch exactly when that check found errors |
| Tester.MethodCases | apitest/tester.py:126-129 | every case of a path item is one of its listed methods, upper-cased, with that method's operation |
| Tester.TestCases | apitest/tester.py:121-129 | every collected case belongs to a path of the schema, and there are at most seven per path |
| Tester.CollectTestCases | apitest/tester.py:121-129 | the loop collects exactly the cases of the specification, in order |
| Tester.APITester.constructor | apitest/tester.py:83-103 | the tester keeps its base URL, schema, supplied parameters and timeout, with no warnings yet |
| Tester.SubstituteRecords | apitest/tester.py:338-353 | the warnings the substitution loop records depend only on the parameter names, the supplied values and the operation, never on the path being rewritten |
| Tester.CaseWarningsOnce | apitest/tester.py:347-349 | building one case's URL keeps the earlier warnings in place and records each message at most once |
| Tester.CaseResult | apitest/tester.py:186-317 | `_test_endpoint` raises exactly when the case's URL, expected status code or request body cannot be computed; otherwise its result carries the case's method and path, is an error for a transport failure and otherwise has the status code received and a verdict other than error |
| Tester.APITester.TestEndpoint | apitest/tester.py:174-317 | the result is CaseResult of the case (URL built from the supplied parameters, which do not depend on earlier warnings), the warnings become those the URL's substitution records, and base URL, schema and supplied parameters are unchanged |
| Tester.APITester.RunTests | apitest/tester.py:105-145 | sequentially, the run raises exactly when some case's URL, expected status code or request body cannot be computed (those steps precede the `try` of `_test_endpoint`); otherwise one result per collected case in the same order, each exactly CaseResult of its case (so with the case's method and path, an error for every transport failure and the received status code with a non-error verdict for every response); base URL, schema and supplied parameters are unchanged |
| SchemaParser.Parse | apitest/schema_parser.py:14-53 | a missing file raises file-not-found; otherwise the schema is the decoded document exactly when it decodes to a dict, and any other outcome raises |
| SchemaParser.HostUrl | apitest/schema_parser.py:74-78 | the Swagger 2.0 URL exists exactly when the first scheme (default `https`) can be taken |
| SchemaParser.HostUrlDefaults | apitest/schema_parser.py:74-78 | without `schemes` and `basePath` the base URL is `https://` followed by the host |
| SchemaParser.GetBaseUrl | apitest/schema_parser.py:55-80 | a non-empty server list decides by its first entry (a dict's `url` or default `''`, or a plain string); any other first entry, or no servers, falls through to the host rule, and then to `''` |
| SchemaParser.GetPaths | apitest/schema_parser.py:82-84 | the `paths` section when present, else an empty dict |
| SchemaParser.GetSecuritySchemes | apitest/schema_parser.py:86-89 | `components.securitySchemes` when components is a dict, an empty dict when components is absent, and an exception when components is not a dict |
| SchemaParser.GetSecurityRequirements | apitest/schema_parser.py:91-93 | the global `security` list when present, else an empty list |
| Validator.NewValidationResult | apitest/validator.py:10-18 | warnings given as None become an empty list; validity and errors are kept |
| Validator.PathItemErrors | apitest/validator.py:75-85 | a path item adds at most one error, and none exactly when it is a dict with at least one HTTP method |
| Validator.PathErrors | apitest/validator.py:74-85 | the path loop adds at most one error per path |
| Validator.PathErrorsEmpty | apitest/validator.py:74-85 | the path loop adds no error exactly when every path item is a dict defining an HTTP method |
| Validator.InfoErrors | apitest/validator.py:67-71 | a missing `info` section gives the OpenAPI 3.0 info error; a dict `info` gives the title error exactly when it has no `title` |
| Validator.Swagger2Errors | apitest/validator.py:89-101 | a Swagger 2.0 document has no errors exactly when it has both `info` and `host` |
| Validator.VersionFindings | apitest/validator.py:42-49 | a missing or empty version adds neither errors nor warnings |
| Validator.ValidateSpec | apitest/validator.py:24-61 | valid exactly when there are no errors; a document naming neither `openapi` nor `swagger` starts with the version error; a missing `paths` ends with the paths error; an empty `paths` ends the warnings with the no-endpoints warning; otherwise the warnings are those of the version check |
| Validator.UnsupportedVersionOnlyWarns | apitest/validator.py:48-49 | a version other than 2.x or 3.x adds only the unsupported-version warning and leaves the document valid |
| Validator.OpenApi3Valid | apitest/validator.py:24-87 | a 3.x document with a titled info section and well-formed path items is valid with no errors or warnings |
| Validator.SchemaValidator.ValidateOpenApi3 | apitest/validator.py:63-87 | the method gives exactly the errors of the info check followed by those of the path checks, and fails where the source raises |
| Validator.SchemaValidator.AppendPathErrors | apitest/validator.py:75-85 | the loop appends to the errors so far exactly one error per path item that is not a dict or has no HTTP method, in order |
| Validator.SchemaValidator.Validate | apitest/validator.py:24-61 | the method builds exactly the result the specification gives |
| TestGenerator.ToFloat | apitest/core/test_generator.py:102 | `float(v)` succeeds exactly on numbers and on strings `float()` reads: an integer or bool becomes the equal float, a float is kept, a string gives the number it spells |
| TestGenerator.StringSample | apitest/core/test_generator.py:86-98 | a string property always gets a non-empty string, `test` when the format is not a string |
| TestGenerator.NestedValue | apitest/core/test_generator.py:124-130 | a nested property gets None exactly when its type is neither `string` nor `integer` |
| TestGenerator.NestedSample | apitest/core/test_generator.py:120-133 | the nested object exists exactly when every nested schema is a dict, and then has exactly the nested property names as keys |
| TestGenerator.NestedSampleValue | apitest/core/test_generator.py:123-130 | each nested property holds the value its declared type (default `string`) calls for |
| TestGenerator.PropertySample | apitest/core/test_generator.py:71-133 | a property's `example` wins, then the first `enum` value, then the type default (`test` with no type or format, the `minimum` or 1 for integers, `true` for booleans, ...); a property of unknown type writes no entry |
| TestGenerator.SampleProperties | apitest/core/test_generator.py:67-135 | the data exists exactly when every property can be sampled, and its keys are property names |
| TestGenerator.SampledValue | apitest/core/test_generator.py:71-133 | every property maps to the value picked for it, and a property of unknown type has no entry |
| TestGenerator.KnownTypesAllSampled | apitest/core/test_generator.py:71-133 | when every property has an example, an enum or a known type, the keys are the property names in their order |
| TestGenerator.JsonContent | apitest/core/test_generator.py:50-54 | the JSON media type can be read only from a dict request body |
| TestGenerator.ContentExample | apitest/core/test_generator.py:57-64 | the media type's `example` wins; there is no example exactly when there is neither an `example` nor a truthy `examples` |
| TestGenerator.PlainTestData | apitest/core/test_generator.py:49-135 | the content `example` is returned as is; otherwise the first of `examples` (its `value` when it is a dict holding one); a schema without properties gives an empty dict |
| TestGenerator.GeneratedProperties | apitest/core/test_generator.py:66-135 | without an example, each schema property maps in the result to the value picked for it |
| TestGenerator.TestData | apitest/core/test_generator.py:33-47 | with smart generation on and a schema file named, the smart generator's result is used unless it raised; otherwise the schema-based generator runs |
| TestGenerator.FillNested | apitest/core/test_generator.py:122-131 | the nested loop builds exactly the nested object of the specification |
| TestGenerator.PropertyValue | apitest/core/test_generator.py:73-133 | the branches for one property compute exactly the specified value |
| TestGenerator.FillProperties | apitest/core/test_generator.py:67-135 | the property loop builds exactly the specified data |
| TestGenerator.GenerateTestData | apitest/core/test_generator.py:15-135 | the whole generator returns exactly what the specification gives |
| DataGenerator.Trunc | apitest/learning/data_generator.py:253-255 | `int` of a float truncates toward zero: it is within one below a non-negative value and within one above a negative one |
| DataGenerator.TruncMonotone | apitest/learning/data_generator.py:253-255 | truncation preserves order, so the truncated average stays between the truncated bounds |
| DataGenerator.Repeat | apitest/learning/data_generator.py:242-246 | `'x' * n` is exactly n copies of the character |
| Numbers.ParseInt | apitest/learning/data_generator.py:378-381 | `int(s)` succeeds exactly when `s`, stripped of surrounding whitespace, is an optional sign and digits with single underscores between digits; plain digits read as their value |
| Numbers.ParseIntPadded | apitest/learning/data_generator.py:378-381 | whitespace around the text never changes what `int` reads (`" 42"` reads as `42`) |
| Numbers.ParseIntUnderscore | apitest/learning/data_generator.py:378-381 | an underscore between two digits never changes the value (`"4_2"` reads as 42) |
| Numbers.SignedDigitPart | apitest/learning/data_generator.py:378-381 | the unstripped grammar: succeeds exactly on an optional sign and a digit part, and a bare digit part is its value |
| Numbers.ParseIntText | apitest/learning/data_generator.py:378-381 | an integer's decimal text reads back as that integer |
| Numbers.UnsignedDecimal | apitest/learning/data_generator.py:383-386 | `digits`, `digits.`, `digits.digits` or `.digits` reads as a non-negative number, and a digit part alone as its value |
| Numbers.ParseFloat | apitest/learning/data_generator.py:383-386 | after stripping whitespace, a leading `-` negates what the unsigned grammar reads and a leading `+` keeps it |
| Numbers.ParseFloatPadded | apitest/learning/data_generator.py:383-386 | whitespace around the text never changes what `float` reads |
| Numbers.ParseFloatExponent | apitest/learning/data_generator.py:383-386 | digits, `e` or `E`, and a signed exponent read as the digits times ten to the exponent (`"1e-05"` is 1/100000) |
| Numbers.IntIsFloat | apitest/learning/data_generator.py:378-386 | every text `int` reads, `float` reads as the same number |
| Numbers.ParseFloatText | apitest/learning/data_generator.py:383-386 | an integral float's text (`n.0`) reads back as that float |
| DataGenerator.PyMax | apitest/learning/data_generator.py:257-259 | `max(schema_min, avg)` is one of the two and at least both, and raises when the schema minimum is not a number |
| DataGenerator.FormattedString | apitest/learning/data_generator.py:396-417 | the literal for a format is the same one the schema-based generator writes for a string of that format |
| DataGenerator.FormattedStringDetected | apitest/learning/data_generator.py:396-415 | the literal generated for each of email, uuid, date, date-time and uri is detected as that format again by the pattern extractor |
| DataGenerator.EmailDetected | apitest/learning/data_generator.py:406-407 | the email literal is detected as an email |
| DataGenerator.UuidDetected | apitest/learning/data_generator.py:408-409 | the uuid literal is detected as a uuid |
| DataGenerator.DateDetected | apitest/learning/data_generator.py:410-411 | the date literal is detected as a date |
| DataGenerator.DateTimeDetected | apitest/learning/data_generator.py:412-413 | the date-time literal is detected as a date-time |
| DataGenerator.UriDetected | apitest/learning/data_generator.py:414-415 | the uri literal is detected as a uri |
| DataGenerator.ConvertToType | apitest/learning/data_generator.py:364-394 | integers parse or fall back to 1, numbers parse or fall back to 1.0, booleans are false exactly for `false`, `0`, `no`, `off` in any case, and other types keep the string |
| DataGenerator.ConvertRoundTrip | apitest/learning/data_generator.py:364-394 | a value counted by the pattern extractor as its text converts back to itself when the schema declares its type |
| DataGenerator.PatternString | apitest/learning/data_generator.py:229-248 | without a learned format but with a minimum length, the string is non-empty and all `x` |
| DataGenerator.PatternInteger | apitest/learning/data_generator.py:250-267 | with a learned range the value is the truncated average (or the truncated midpoint), raised to the schema minimum when one is given |
| DataGenerator.PatternNumber | apitest/learning/data_generator.py:269-286 | with a learned range the value is the average (or the midpoint), raised to the schema minimum when one is given |
| DataGenerator.FromPatterns | apitest/learning/data_generator.py:213-291 | the schema type, or the learned one, picks the generator: strings from the format or lengths, integers and numbers from the learned range, booleans `true` |
| DataGenerator.LearnedFormatReproduced | apitest/learning/data_generator.py:231-234 | a field whose learned values had a format gets the literal of the first format in sorted order, which is detected as that format again |
| DataGenerator.SortedOrder | apitest/learning/data_generator.py:232-233 | the recorded formats, joined and split on `\|`, give back one of the five known formats first |
| DataGenerator.LearnedLengthRespected | apitest/learning/data_generator.py:237-242 | a string learned with lengths and no format gets `x` repeated between the shortest and longest learned length (at least 1) |
| DataGenerator.LearnedRangeRespected | apitest/learning/data_generator.py:252-260 | an integer learned from numbers, without a schema minimum, lies between the truncated learned minimum and maximum |
| DataGenerator.FieldValue | apitest/learning/data_generator.py:178-211 | an unlearned field gives nothing; otherwise the most common value converted to the schema type, else the value generated from the learned constraints |
| DataGenerator.MostCommonUsed | apitest/learning/data_generator.py:198-204 | the value used for a learned field is the one seen most often |
| DataGenerator.FromSchema | apitest/learning/data_generator.py:293-362 | the fallback is the schema-based generator's value for the property, and None for a type it does not know |
| DataGenerator.RelatedValue | apitest/learning/data_generator.py:138-176 | a field without a relationship has no related value |
| DataGenerator.RelatedValueDirect | apitest/learning/data_generator.py:152-163 | whatever else the relationships hold, a target that is a key of the related data gives `related_data[target]` |
| DataGenerator.DirectTargetWins | apitest/learning/data_generator.py:160-163 | a target present as a key is read directly, before any dotted path is tried |
| DataGenerator.DefaultTargetIsId | apitest/learning/data_generator.py:155-163 | a relationship without `target_field` reads the related data's `id` |
| DataGenerator.DottedTargetFollowed | apitest/learning/data_generator.py:166-174 | a target `a.b` that is not itself a key reaches `related[a][b]` |
| DataGenerator.RelatedValueDotted | apitest/learning/data_generator.py:160-174 | a dotted target that is not a key is followed part by part through the related data, giving None where a part is missing |
| DataGenerator.GetRelatedValue | apitest/learning/data_generator.py:138-176 | the method with its part-by-part loop returns exactly the specified related value |
| DataGenerator.SmartValue | apitest/learning/data_generator.py:84-103 | a property present in the accumulated context takes that value |
| DataGenerator.SmartValuePriority | apitest/learning/data_generator.py:84-103 | otherwise a related value wins, then a learned value, then the schema fallback; an exception in any step consulted propagates |
| DataGenerator.NothingLearnedFallsBack | apitest/learning/data_generator.py:84-103 | with nothing learned and no context, every property takes the schema fallback |
| DataGenerator.SmartProperties | apitest/learning/data_generator.py:80-105 | the data exists exactly when every property's value can be chosen, and has exactly the property names as keys |
| DataGenerator.SmartValueAt | apitest/learning/data_generator.py:84-103 | each property holds the value chosen for it |
| DataGenerator.ExampleAgrees | apitest/learning/data_generator.py:66-77 | a content example is returned exactly as the schema-based generator returns it |
| DataGenerator.SmartPropertiesWritten | apitest/learning/data_generator.py:80-105 | without an example, every schema property maps to the value chosen for it |
| DataGenerator.ContextAccumulates | apitest/learning/data_generator.py:56-57 | context given to two calls in turn: the later value of a key wins, then the earlier, then the original |
| DataGenerator.SmartDataGenerator.constructor | apitest/learning/data_generator.py:21-37 | the generator keeps its schema file, method and path, with empty caches and no context |
| DataGenerator.SmartDataGenerator.GetPatterns | apitest/learning/data_generator.py:107-122 | the patterns are extracted once and cached (an empty dict when extraction fails); later calls return the cache; nothing else changes |
| DataGenerator.SmartDataGenerator.GetRelationships | apitest/learning/data_generator.py:124-136 | the relationships are fetched once and cached (an empty dict when fetching fails); later calls return the cache; nothing else changes |
| DataGenerator.SmartDataGenerator.FillSmartProperties | apitest/learning/data_generator.py:80-105 | the property loop builds exactly the specified data |
| DataGenerator.SmartDataGenerator.GenerateSmartTestData | apitest/learning/data_generator.py:39-105 | non-empty given context is merged in, both caches are filled, and the result is the specified data for the merged context and the cached patterns and relationships |
| PatternExtractor.DetectFormat | apitest/learning/pattern_extractor.py:238-276 | the first match in the order email, uuid, date, date-time, uri: each format is reported exactly when every earlier pattern fails and its own matches, and nothing exactly when none matches |
| PatternExtractor.DetectFormatExact | apitest/learning/pattern_extractor.py:250-276 | the five patterns never overlap, so each format is reported exactly when its own pattern matches, whatever the order of the checks |
| PatternExtractor.TimestampIsDateTime | apitest/learning/pattern_extractor.py:262-269 | a full timestamp is a date-time, not a date, because the date pattern is anchored at the end |
| PatternExtractor.KeyPath | apitest/learning/pattern_extractor.py:201 | a dict entry's path is the bare key at the root and `parent.key` below it |
| PatternExtractor.IndexPath | apitest/learning/pattern_extractor.py:205 | a list item's path extends its parent's and ends with the `[i]` index |
| PatternExtractor.Leaves | apitest/learning/pattern_extractor.py:190-206 | the walk reaches only primitive values, and a primitive is its own single leaf at the current path |
| PatternExtractor.FlatDictLeaves | apitest/learning/pattern_extractor.py:199-202 | a flat dict of primitives yields one leaf per key, at `path.key`, in key order |
| PatternExtractor.CountOne | apitest/learning/pattern_extractor.py:221-222 | counting either bumps an existing entry or appends the new value with count 1 |
| PatternExtractor.CountOneCounts | apitest/learning/pattern_extractor.py:221-222 | counting a value raises its count by one and leaves every other count alone |
| PatternExtractor.Record | apitest/learning/pattern_extractor.py:209-236 | recording a primitive counts its text unless it is None, records its type, appends a string's length (and adds its detected format) or a number's value (booleans count as numbers) |
| PatternExtractor.RecordAt | apitest/learning/pattern_extractor.py:209-218 | recording under a path adds that path to the fields and no other |
| PatternExtractor.RecordAllAppend | apitest/learning/pattern_extractor.py:190-206 | recording two runs of leaves in turn is recording their concatenation |
| PatternExtractor.PatternAccumulator.constructor | apitest/learning/pattern_extractor.py:87-93 | the accumulator starts with no fields |
| PatternExtractor.PatternAccumulator.Analyze | apitest/learning/pattern_extractor.py:190-236 | analysing a body records every leaf under the path in the walk's order |
| PatternExtractor.KeepCommon | apitest/learning/pattern_extractor.py:105-108 | the kept values are exactly those counted at least `min_occurrences` times |
| PatternExtractor.InsertByCount | apitest/learning/pattern_extractor.py:106 | inserting keeps the counts descending and adds exactly the one entry |
| PatternExtractor.SortByCount | apitest/learning/pattern_extractor.py:106 | `most_common()` orders by descending count and is a permutation of the counter |
| PatternExtractor.CommonValues | apitest/learning/pattern_extractor.py:105-108 | the common values are exactly the values seen often enough, most frequent first |
| PatternExtractor.MinNat | apitest/learning/pattern_extractor.py:129 | `min` of the lengths is one of them and at most each |
| PatternExtractor.MaxNat | apitest/learning/pattern_extractor.py:130 | `max` of the lengths is one of them and at least each |
| PatternExtractor.MinReal | apitest/learning/pattern_extractor.py:135 | `min` of the numbers is one of them and at most each |
| PatternExtractor.MaxReal | apitest/learning/pattern_extractor.py:136 | `max` of the numbers is one of them and at least each |
| PatternExtractor.InOrder | apitest/learning/pattern_extractor.py:140-142 | the ordered formats are exactly the recorded formats that are among the known ones |
| PatternExtractor.PatternInfoOf | apitest/learning/pattern_extractor.py:119-145 | a field with lengths or numbers has pattern information, whose length bounds are the least and greatest length |
| PatternExtractor.FieldInfoOf | apitest/learning/pattern_extractor.py:105-148 | a field is reported exactly when it has a common value, a length or a number; its common values are those computed, and without them it has pattern information |
| PatternExtractor.LengthAverageBetween | apitest/learning/pattern_extractor.py:128-131 | the reported average length lies between the reported shortest and longest |
| PatternExtractor.ValueAverageBetween | apitest/learning/pattern_extractor.py:134-137 | the reported average value lies between the reported minimum and maximum |
| PatternExtractor.PassedRows | apitest/learning/pattern_extractor.py:70-73 | the rows learned from are exactly those with status `pass` and a status code below 400 |
| PatternExtractor.RequestBodies | apitest/learning/pattern_extractor.py:153-188 | no ids give no bodies, and there is at most one body per stored row |
| PatternExtractor.RequestBodiesAppend | apitest/learning/pattern_extractor.py:167-186 | the bodies of a table read in two parts are those of the first part followed by those of the second, so the table order is kept |
| PatternExtractor.RequestBodiesOne | apitest/learning/pattern_extractor.py:167-186 | one stored row gives its body exactly when its test id is among the ids passed |
| PatternExtractor.RequestBodiesMembers | apitest/learning/pattern_extractor.py:167-186 | a body is returned exactly when some stored row of one of the passed tests holds it |
| PatternExtractor.CommonValuesByField | apitest/learning/pattern_extractor.py:32-151 | no passing test gives an empty result; every reported common value was seen at least `min_occurrences` times, most frequent first; every reported field has common values or pattern information |
| PatternExtractor.RareValuesNotCommon | apitest/learning/pattern_extractor.py:105-111 | a field whose values are all rare is reported only for its lengths or numbers |
| PatternExtractor.ExtractCommonValues | apitest/learning/pattern_extractor.py:32-151 | the method's filter, fetch, analysis and summary loops compute exactly the specified result |
| PatternExtractor.AnalyzeAll | apitest/learning/pattern_extractor.py:95-99 | the analysis loop records exactly the truthy bodies, in order |
| PatternExtractor.SummariesAdd | apitest/learning/pattern_extractor.py:103-148 | summarising one more field adds its entry, if it has one, and changes nothing else |
| PatternExtractor.Summarize | apitest/learning/pattern_extractor.py:102-148 | the summary loop builds one entry per field with something to report |
| PatternExtractor.IdFields | apitest/learning/pattern_extractor.py:405-436 | every identifier value found is an int (or bool) or a string, and a primitive has none |
| PatternExtractor.IdFieldsExact | apitest/learning/pattern_extractor.py:405-436 | a path is reported exactly when it is an `id` or `*_id` key with an int or string value at some depth of nested dicts and lists, reached by dotted keys and `[i]` indexes; no other path is reported |
| PatternExtractor.IdFoldKeys | apitest/learning/pattern_extractor.py:418-429 | the dict loop finds a path exactly when some entry is that identifier or some entry's nested result has it |
| PatternExtractor.UpdateAllKeys | apitest/learning/pattern_extractor.py:431-434 | the list loop finds a path exactly when some item's nested result has it |
| PatternExtractor.TopLevelIdFound | apitest/learning/pattern_extractor.py:418-429 | an `id` or `*_id` key with an int or string value at the top of a dict is reported under its path |
| PatternExtractor.IdFoldHasKey | apitest/learning/pattern_extractor.py:419-429 | a key found by the dict loop is not lost by later merges |
| PatternExtractor.ExtractIdFields | apitest/learning/pattern_extractor.py:405-436 | the method with its dict and list loops computes exactly the specified identifier fields |
| PatternExtractor.ExtractDictIds | apitest/learning/pattern_extractor.py:418-429 | the dict loop, recursing into each value, computes exactly the specified identifier fields of the dict |
| PatternExtractor.ExtractListIds | apitest/learning/pattern_extractor.py:431-434 | the list loop, recursing into each item under its index path, computes exactly the specified identifier fields of the list |
| Baseline.FindSchema | apitest/learning/baseline.py:252-255 | a property's schema is found exactly when the property is named |
| Baseline.FindFirst | apitest/learning/baseline.py:252-255 | the schema found for a property is the one stored under its first entry |
| Baseline.ValueSchema | apitest/learning/baseline.py:205-225 | a bool is `boolean` (tested before int), an int `integer`, a float `number`, a string or None `string`; a dict is `object` with each key mapped to its value's schema in order; a list is `array` whose `items` is the first item's schema, or `{}` for an empty list; `object` and `array` arise exactly for dicts and lists |
| Baseline.ValueSchemaDistinct | apitest/learning/baseline.py:215-218 | the schema of a value names each property once |
| Baseline.ExtractSchema | apitest/learning/baseline.py:177-203 | no schema exactly for a missing body; otherwise the body's schema is that of the same value nested anywhere |
| Baseline.EmptyMatches | apitest/learning/baseline.py:227-264 | the empty schema `{}` matches exactly the schemas without a type |
| Baseline.MatchReflexive | apitest/learning/baseline.py:227-264 | every schema matches itself |
| Baseline.ExtractedSchemaMatchesItself | apitest/learning/baseline.py:161-165 | an unchanged body never shows a schema change |
| Baseline.KindChangeDetected | apitest/learning/baseline.py:239-240 | a body of a different JSON kind always is a schema change; a bool is not an int |
| Baseline.KeyChangeDetected | apitest/learning/baseline.py:244-249 | a dict body that gained or lost a key always is a schema change |
| Baseline.Stored | apitest/learning/baseline.py:81-93 | an empty or missing schema is stored as NULL and reads back as none; any other schema reads back unchanged |
| Baseline.StatusRegression | apitest/learning/baseline.py:134-142 | a status regression is reported exactly when the code changed, as an error exactly when the new code is 400 or above, with both codes |
| Baseline.TimeRegression | apitest/learning/baseline.py:145-158 | a time regression is reported exactly when the time exceeds threshold times the baseline; a zero baseline time then raises division by zero |
| Baseline.SchemaRegression | apitest/learning/baseline.py:161-173 | a schema regression, always a warning, is reported exactly when the body is truthy, a schema is stored and the schemas do not match |
| Baseline.RegressionsOrdered | apitest/learning/baseline.py:122-175 | the regressions come in the order status, time, schema, at most one of each, all for the endpoint |
| Baseline.SameRunNoRegression | apitest/learning/baseline.py:122-175 | a run repeating the baseline's status code and body within the time threshold shows no regression |
| Baseline.BaselineManager.constructor | apitest/learning/baseline.py:44-51 | the manager reads the baselines it is given |
| Baseline.BaselineManager.GetBaseline | apitest/learning/baseline.py:266-278 | a baseline is found exactly when one is stored for the schema file, method and path |
| Baseline.BaselineManager.EstablishBaseline | apitest/learning/baseline.py:53-96 | a baseline is written, and true returned, exactly when none existed; it holds the status, time and the body's stored schema; otherwise nothing changes |
| Baseline.BaselineManager.DetectRegressions | apitest/learning/baseline.py:98-175 | no baseline gives no regressions; otherwise the status, time and schema checks against it, for the endpoint `METHOD path` |
| Baseline.EstablishThenDetect | apitest/learning/baseline.py:53-175 | establishing a baseline from a run and then checking the same run reports nothing |
| History.NormalizeSchemaIdentifier | apitest/storage/history.py:223-238 | an existing file is identified by its absolute path, anything else by the text as given |
| History.PropertyShape | apitest/storage/history.py:153-167 | a property value is typed without looking inside it, and gets `items` exactly when it is a non-empty list starting with a dict |
| History.OneLevelSchema | apitest/storage/history.py:138-169 | a non-dict body is typed by its Python type name; a dict gets type `object` and exactly one flat property per key |
| History.FlatBodiesAgree | apitest/storage/history.py:138-169 | for a dict of scalars this schema is exactly the one the learning baselines extract |
| History.ListBodiesDisagree | apitest/storage/history.py:148-149 | a list body is typed `list` here but `array` by the learning baselines, so the two schemas never match |
| History.RowOf | apitest/storage/history.py:49-62 | the row saved for a result has the schema identifier and the result's method, path, status, status code and time |
| History.Rows | apitest/storage/history.py:47-62 | one row per result, in order |
| History.BaselinesKept | apitest/storage/history.py:117-119 | an existing baseline is never overwritten |
| History.BaselinesFromPasses | apitest/storage/history.py:84-92 | every new baseline comes from a PASS result with a non-zero status code |
| History.PassesHaveBaselines | apitest/storage/history.py:84-136 | after the run, every passing endpoint whose baseline step did not fail has a baseline |
| History.FirstFailure | apitest/storage/history.py:46-99 | the first position whose row insert raises, or the number of results when none does |
| History.SaveOutcomeAsWritten | apitest/storage/history.py:49-62 | as written, the row insert reads attributes TestResult lacks, so only an empty run succeeds |
| History.TestHistory.constructor | apitest/storage/history.py:21-28 | the history reads the rows and baselines it is given |
| History.TestHistory.SaveTestResults | apitest/storage/history.py:30-99 | (corrected) the rows of the results before the first failing insert are appended in order, each followed by its baseline step; the count of all results is returned exactly when no insert fails, and a failing insert re-raises |
| History.TestHistory.EstablishBaselineIfNeeded | apitest/storage/history.py:101-136 | a baseline with the status, time and body schema is written only when none exists; the rows are unchanged |
| History.OneResultRun | apitest/storage/history.py:46-99 | one passing result raises as written but is saved, with a count of 1, by the corrected run |
| TestCaseLibrary.MapChar | apitest/storage/test_case_library.py:52 | replacing a character by text without it removes the character, and adds no character absent from both |
| TestCaseLibrary.ReplaceOneChar | apitest/storage/test_case_library.py:52 | `replace` with a one-character pattern replaces each occurrence of that character |
| TestCaseLibrary.SafePath | apitest/storage/test_case_library.py:52 | the sanitised path contains no `/`, `{` or `}` |
| TestCaseLibrary.LastComponent | apitest/storage/test_case_library.py:53 | the name of a path is one of its components, or empty |
| TestCaseLibrary.PathName | apitest/storage/test_case_library.py:53 | the name of a path contains no `/` |
| TestCaseLibrary.LastDot | apitest/storage/test_case_library.py:63-64 | the suffix starts at the last `.` of the name, and a name without `.` has none |
| TestCaseLibrary.Suffix | apitest/storage/test_case_library.py:64 | a suffix is empty or one `.` followed by text without `.` |
| TestCaseLibrary.StemSuffix | apitest/storage/test_case_library.py:63-65 | a name is its stem followed by its suffix |
| TestCaseLibrary.DefaultFilename | apitest/storage/test_case_library.py:45-55 | the generated name ends with `.json`, and exists exactly when the path, and a schema file other than `unknown`, are strings |
| TestCaseLibrary.DefaultFilenameParts | apitest/storage/test_case_library.py:45-55 | the generated name is `<schema stem>_<method>_<sanitised path>_v<version>.json` |
| TestCaseLibrary.CandidateInjective | apitest/storage/test_case_library.py:62-66 | different counters give different candidate names, so the search for a free name moves on |
| TestCaseLibrary.JsonEntries | apitest/storage/test_case_library.py:115 | exactly the `.json` files are globbed, with their modification times |
| TestCaseLibrary.ListingSpec | apitest/storage/test_case_library.py:102-116 | the listing holds exactly the `.json` files, newest first |
| TestCaseLibrary.EndpointCases | apitest/storage/test_case_library.py:135-148 | every case returned matches the schema file, the method (in any case) and the path, and there is at most one per listed file |
| TestCaseLibrary.EndpointCasesComplete | apitest/storage/test_case_library.py:135-148 | every listed readable file that matches the endpoint is returned |
| TestCaseLibrary.TestCaseLibrary.constructor | apitest/storage/test_case_library.py:17-21 | the library holds the files it is given |
| TestCaseLibrary.TestCaseLibrary.Load | apitest/storage/test_case_library.py:76-99 | a missing file raises file-not-found, and an existing file that is not JSON raises a decode error |
| TestCaseLibrary.TestCaseLibrary.FreeName | apitest/storage/test_case_library.py:57-66 | the name found is free: the name itself when free, else the first free `<stem>_<counter><suffix>` counting from 1 |
| TestCaseLibrary.TestCaseLibrary.Save | apitest/storage/test_case_library.py:24-73 | a new file is created under the given or generated name, or the first free numbered variant; no other file changes, and loading it gives the test case back; without a name, a non-string path or schema file raises and nothing is written |
| TestCaseLibrary.TestCaseLibrary.Delete | apitest/storage/test_case_library.py:151-169 | the answer is true exactly when the file existed; afterwards it is gone, and loading it raises file-not-found |
| TestCaseLibrary.TestCaseLibrary.GetTestCasesByEndpoint | apitest/storage/test_case_library.py:119-148 | the loop over the newest-first listing returns exactly the specified matching cases |
| TestCaseLibrary.TestCaseLibrary.LoadMatching | apitest/storage/test_case_library.py:135-146 | the loop over a listing computes exactly the specified matching cases |
| ResponseParser.Keep | apitest/ai/response_parser.py:249 | an entry survives the final filter exactly when its value is not None |
| ResponseParser.ExpectedResponse | apitest/ai/response_parser.py:227-246 | the expected response always is a dict with `status_code`: a dict with one is kept, a dict without one gains 200 at its end, a missing one becomes `{status_code: 200}`, and any other value is wrapped as its `body` |
| ResponseParser.LookupKeep | apitest/ai/response_parser.py:249 | looking past a kept entry finds it exactly when its key matches and it was not None |
| ResponseParser.NormalizeLookup | apitest/ai/response_parser.py:209-251 | in a normalised case each of the four keys finds its own part: the scenario (default `Generated test case`), the request body, the expected response, the rationale, each absent when None |
| ResponseParser.NormalizeIsNormal | apitest/ai/response_parser.py:175-251 | normalising any case yields the normal form, with unique keys, and the result passes validation |
| ResponseParser.NormalizeIdempotentUnlessNullScenario | apitest/ai/response_parser.py:209-251 | normalising twice changes nothing exactly when `test_scenario` is not an explicit None (the first pass drops it, the second puts the default back) |
| ResponseParser.ValidCases | apitest/ai/response_parser.py:155-171 | a list yields at most one case per item |
| ResponseParser.CollectValid | apitest/ai/response_parser.py:155-171 | the loop collects exactly the specified normalised valid cases |
| ResponseParser.ParseJsonResponse | apitest/ai/response_parser.py:133-173 | the method returns exactly the cases the specification reads from the decoded text |
| ResponseParser.ValidCasesNormal | apitest/ai/response_parser.py:155-171 | every case read from a list is in normal form |
| ResponseParser.CasesNormal | apitest/ai/response_parser.py:150-173 | every case read from a document, of whichever shape, is in normal form |
| ResponseParser.ValidCasesFixed | apitest/ai/response_parser.py:155-171 | a list of cases already in normal form reads back as those cases, in order |
| ResponseParser.FirstDecodable | apitest/ai/response_parser.py:88-98 | the block returned is the first fenced block that decodes once stripped, and none is returned exactly when no block decodes |
| ResponseParser.ExtractJsonFromMarkdown | apitest/ai/response_parser.py:70-98 | the loop returns exactly the first decodable block |
| ResponseParser.FirstBalanced | apitest/ai/response_parser.py:116-122 | the scan stops at the first end where the braces balance, and finds none exactly when they never balance |
| ResponseParser.ExtractJsonFromText | apitest/ai/response_parser.py:100-131 | the brace-counting loop returns exactly the specified block |
| ResponseParser.OpenUntilBalanced | apitest/ai/response_parser.py:116-122 | from a `{` the count stays positive until it first returns to zero |
| ResponseParser.BraceBlockShape | apitest/ai/response_parser.py:100-131 | the block returned starts at the first `{` of the text, ends with `}`, is balanced with no balanced proper prefix, and decodes |
| ResponseParser.ParseTestCases | apitest/ai/response_parser.py:30-68 | the method runs the fenced-block, whole-text and brace strategies in order, returning exactly the specified cases |
| ResponseParser.ParsedNormal | apitest/ai/response_parser.py:30-68 | every case returned is in normal form, whichever strategy found it |
| ResponseParser.ParseRoundTrip | apitest/ai/response_parser.py:30-173 | an answer that is exactly a `{"test_cases": [...]}` document of cases without a None scenario parses back to their normalised forms |
| PromptBuilder.DefaultTemplate | apitest/ai/prompt_builder.py:805-811 | the built-in template in the builder's format, under the name when it is known and under the basic template otherwise |
| PromptBuilder.LoadTemplate | apitest/ai/prompt_builder.py:778-811 | with a store, the active stored prompt wins, then the latest stored one; a failing store, or none, gives the built-in template |
| PromptBuilder.LoadTemplateWithoutStore | apitest/ai/prompt_builder.py:789-811 | without a store, or with one that raises, the template depends only on the name and the format |
| PromptBuilder.OrNA | apitest/ai/prompt_builder.py:884-887 | `v or 'N/A'` is always truthy and keeps a truthy value |
| PromptBuilder.JoinTags | apitest/ai/prompt_builder.py:831 | joining tags succeeds exactly for a string, a dict, or a list of strings (what `', '.join` can iterate as strings); the text is empty exactly when there is nothing to join or one empty item; a string of n characters joins to n characters and n-1 separators |
| PromptBuilder.JoinSingles | apitest/ai/prompt_builder.py:831 | joining one-character items gives each item plus one separator between neighbours |
| PromptBuilder.TopCodesDominate | apitest/ai/prompt_builder.py:861-863 | with numeric counts, at most five codes are shown, all from the dict, and no code left out has a larger count than a code shown |
| PromptBuilder.StatusCodesText | apitest/ai/prompt_builder.py:858-869 | a dict of counts is written exactly when its counts can be sorted (all numbers, or a single entry), any other value always; the text is never empty; it is `N/A` for an empty dict and for a value that is neither dict nor list |
| PromptBuilder.PrepareVariables | apitest/ai/prompt_builder.py:813-899 | summary, description, operation id and tags are always truthy (`N/A` when empty), the method defaults to `GET`, the success rate is shown exactly when the history has one and is then a number; preparation raises when the request or response examples, validated examples or patterns hold a non-dict among the items shown, or a shown pattern's effectiveness is not a number |
| PromptBuilder.TextEffectivenessFails | apitest/ai/prompt_builder.py:1189-1198 | a pattern whose effectiveness is the text `high` makes the preparation raise |
| PromptBuilder.PrepareVariablesFormatFree | apitest/ai/prompt_builder.py:813-899 | whether the template variables can be prepared does not depend on the prompt format |
| PromptBuilder.RenderCapped | apitest/ai/prompt_builder.py:1097-1111 | the capped loop writes the lines of the first items, numbered from 1, in order |
| PromptBuilder.CapIgnoresTail | apitest/ai/prompt_builder.py:1026 | items past the cap never reach the prompt |
| PromptBuilder.AllLinesAt | apitest/ai/prompt_builder.py:1026-1047 | each item's lines sit between those of the items before it and those after it |
| PromptBuilder.Dicts | apitest/ai/prompt_builder.py:1097-1101 | the shown results are read exactly item by item, and only when every one of them is a dict |
| PromptBuilder.RecentResultsCapped | apitest/ai/prompt_builder.py:1097 | items after the fifth result, of any kind, never change the recent-results text |
| PromptBuilder.DictsOfList | apitest/ai/prompt_builder.py:1097 | a list of result dicts is read back as its first five |
| PromptBuilder.FormatRecentResults | apitest/ai/prompt_builder.py:1089-1112 | no results give `No recent test results`; otherwise the loop writes exactly the specified lines |
| PromptBuilder.FormatExamples | apitest/ai/prompt_builder.py:1020-1049 | no examples give `No <title> available`; otherwise the lines of the first three examples, stripped |
| PromptBuilder.FormatValidatedExamples | apitest/ai/prompt_builder.py:1114-1142 | no examples give `No validated examples available`; otherwise the lines of the first three |
| PromptBuilder.FormatPatterns | apitest/ai/prompt_builder.py:1183-1211 | no patterns give `No learned patterns available`; otherwise the lines of the first three |
| PromptBuilder.FormatResponseExamples | apitest/ai/prompt_builder.py:1051-1087 | the statuses are visited in sorted string order; the fixed message when no status has an example; otherwise the blocks of the statuses with examples, stripped |
| PromptBuilder.StatusesSorted | apitest/ai/prompt_builder.py:1059 | a dict listing `404` before `200` is shown with `200` first |
| Sorting.SortByKey | apitest/ai/prompt_builder.py:1059 | `sorted(d.items())` gives the items with keys in ascending string order, and exactly the items given (a permutation) |
| Sorting.InsertByKey | apitest/ai/prompt_builder.py:1059 | inserting one item into items with ascending keys keeps the keys ascending and adds exactly that item |
| Sorting.StrLeTotal | apitest/ai/prompt_builder.py:1059 | any two status strings are ordered one way or the other |
| Sorting.StrLeTrans | apitest/ai/prompt_builder.py:1059 | the string order is transitive |
| Sorting.StrLeAntisymmetric | apitest/ai/prompt_builder.py:1059 | two strings each at most the other are equal, so distinct statuses have one sorted order |
| PromptBuilder.StatusBlockBound | apitest/ai/prompt_builder.py:1061-1085 | a status block shows its heading and at most two examples, so later examples never change it |
| PromptBuilder.KeyStatusEntries | apitest/ai/prompt_builder.py:700-701 | exactly the entries whose status is 200, 201, 400 or 404 are kept, in order |
| PromptBuilder.FirstOnly | apitest/ai/prompt_builder.py:709 | `v[:1]` succeeds exactly on lists and strings, and keeps at most the first item |
| PromptBuilder.FirstOfEach | apitest/ai/prompt_builder.py:709 | every value is cut to its first item, keys kept in order, and it raises exactly when one value cannot be sliced |
| PromptBuilder.KeyStatusFirstExamples | apitest/ai/prompt_builder.py:707-709 | the kept examples are those of the key statuses, one each, in order |
| PromptBuilder.BatchEndpoint | apitest/ai/prompt_builder.py:658-776 | a batch endpoint shows at most one request example, and only key-status response schemas (exactly those of the endpoint) and examples |
| PromptBuilder.EndpointsList | apitest/ai/prompt_builder.py:658-776 | as intended, the batch lists every endpoint's view in order, and succeeds exactly when every endpoint's view does |
| PromptBuilder.EndpointsListAsWritten | apitest/ai/prompt_builder.py:696-711 | as written, whenever the batch succeeds it lists exactly the intended views |
| PromptBuilder.AsWrittenOnceBound | apitest/ai/prompt_builder.py:696-711 | once `key_statuses` has been assigned, the code as written behaves as intended for all later endpoints |
| PromptBuilder.AsWrittenFails | apitest/ai/prompt_builder.py:696-711 | as written, the batch fails exactly when the intended one does or some endpoint has response examples while neither it nor any endpoint before it has response schemas |
| PromptBuilder.UnboundKeyStatuses | apitest/ai/prompt_builder.py:707-709 | a batch whose first endpoint has response examples and no response schemas fails as written and succeeds as intended |
| PromptBuilder.SeedOne | apitest/ai/prompt_builder.py:1342-1365 | seeding one template never touches another name's versions or active version |
| PromptBuilder.PromptStore.constructor | apitest/ai/prompt_builder.py:1321-1334 | the store starts with no prompts and no active versions |
| PromptBuilder.PromptStore.InitializeDefaultPrompts | apitest/ai/prompt_builder.py:1321-1365 | the loop seeds the basic, advanced and edge-case templates in turn, exactly as the specification gives |
| PromptBuilder.SeedAllLeavesOthers | apitest/ai/prompt_builder.py:1336-1342 | a name outside the seeded templates keeps its versions and its active version |
| PromptBuilder.SeedingOutcome | apitest/ai/prompt_builder.py:1342-1365 | a seeded name without a stored version whose steps did not fail gets the Markdown built-in as active version 1; a name with a version, or whose lookup or save failed, is unchanged; the batch template is never touched |
| ContextBuilder.SchemasOf | apitest/ai/context_builder.py:118-125 | response schemas are only recorded under status codes of the responses |
| ContextBuilder.SchemasOfLookup | apitest/ai/context_builder.py:118-125 | a status code has a response schema exactly when its response declares content, and it is the schema of the first content type (`{}` when that has none) |
| ContextBuilder.SchemasStayFailed | apitest/ai/context_builder.py:119-123 | once a response that is not a dict is met, the whole extraction raises |
| ContextBuilder.EndpointInfo | apitest/ai/context_builder.py:74-127 | the endpoint information has the upper-cased method, the path, and exactly the twelve fields in the source's order |
| ContextBuilder.UndocumentedEndpoint | apitest/ai/context_builder.py:87-115 | an endpoint missing from the schema is described by the upper-cased method, the path and empty defaults |
| ContextBuilder.RequestSchemaOfFirstType | apitest/ai/context_builder.py:105-115 | the request schema is the schema of the first content type, or `{}` when that has none |
| ContextBuilder.ExtractEndpointInfo | apitest/ai/context_builder.py:74-127 | the method builds exactly the specified endpoint information, and fails exactly where the specification fails |
| ContextBuilder.CollectSchemas | apitest/ai/context_builder.py:118-125 | the loop over the responses builds exactly the specified `response_schemas`, failing on the first response that is not a dict |
| ContextBuilder.Successes | apitest/ai/context_builder.py:160 | the successes are counted among the rows |
| ContextBuilder.Codes | apitest/ai/context_builder.py:164 | only truthy status codes are tallied, in row order |
| ContextBuilder.CodeKeyIsText | apitest/ai/context_builder.py:165-167 | status codes are tallied under their text |
| ContextBuilder.TallyCounts | apitest/ai/context_builder.py:164-167 | the tally holds exactly the codes that occur, each with its number of occurrences |
| ContextBuilder.TallyStep | apitest/ai/context_builder.py:166-167 | tallying one more code adds one to its count |
| ContextBuilder.Rate | apitest/ai/context_builder.py:159-161 | the success rate lies in [0, 1] |
| ContextBuilder.RecentOf | apitest/ai/context_builder.py:170-177 | at most the first five rows are kept, each reduced to status, status code, timestamp and time |
| ContextBuilder.HistoryContext | apitest/ai/context_builder.py:129-192 | the empty summary is given exactly when the query raised, returned no rows, or returned rows the summary cannot read |
| ContextBuilder.HistoryShape | apitest/ai/context_builder.py:150-184 | the summary has count, recent results, success rate and status codes; the rate is None exactly when the count is 0 and otherwise the share of `success` rows; at most five recent results |
| ContextBuilder.TallyCodes | apitest/ai/context_builder.py:165-167 | the tallying loop computes exactly the specified tally |
| ContextBuilder.SummariseHistory | apitest/ai/context_builder.py:129-192 | the method with its loops computes exactly the specified summary |
| ContextBuilder.CollectRecent | apitest/ai/context_builder.py:170-177 | the loop over the first five rows collects exactly their reduced forms, in order |
| ContextBuilder.Matching | apitest/ai/context_builder.py:214-217 | exactly the tests for the endpoint (method in any case, same path) are kept, in order |
| ContextBuilder.Examples | apitest/ai/context_builder.py:194-234 | at most five examples, and none when the query raised |
| ContextBuilder.MatchingIgnoresCase | apitest/ai/context_builder.py:216 | the filter keeps the same tests whatever the case of the requested method |
| ContextBuilder.ExamplesIgnoreCase | apitest/ai/context_builder.py:214-231 | asking for `get`, `GET` or `Get` gives the same examples |
| ContextBuilder.ExamplesFromMatches | apitest/ai/context_builder.py:220-229 | every example comes from a stored test for the endpoint, with its validation status |
| ContextBuilder.ValidatedExamples | apitest/ai/context_builder.py:194-234 | the loop computes exactly the specified examples |
| ContextBuilder.ShownSimplified | apitest/ai/context_builder.py:264-268 | the effectiveness shown is the score the patterns were sorted by |
| ContextBuilder.TopPatterns | apitest/ai/context_builder.py:249-270 | at most five patterns, highest score first |
| ContextBuilder.TopPatternsDominate | apitest/ai/context_builder.py:256-263 | no pattern left out scores higher than a pattern shown, and all are shown when there are at most five |
| ContextBuilder.RelevantPatterns | apitest/ai/context_builder.py:236-273 | the loop computes exactly the specified patterns |
| ContextBuilder.CacheKeyInjective | apitest/ai/context_builder.py:53 | without `:` in the schema file and the method, distinct requests have distinct cache keys |
| ContextBuilder.Context | apitest/ai/context_builder.py:61-67 | a context is built exactly when the endpoint can be read from the schema |
| ContextBuilder.Cached | apitest/ai/context_builder.py:54-58 | a cached context is served exactly while it is younger than the time to live |
| ContextBuilder.CachedAfterStore | apitest/ai/context_builder.py:54-70 | a context stored at time t is served again exactly until t plus the time to live |
| ContextBuilder.ContextBuilder.constructor | apitest/ai/context_builder.py:27-36 | the cache starts empty with a time to live of 300 seconds |
| ContextBuilder.ContextBuilder.BuildContext | apitest/ai/context_builder.py:38-72 | a fresh cached context is returned and nothing changes; otherwise the context is built and cached with the current time, and a failed build leaves the cache alone |
| ContextBuilder.ContextBuilder.ClearCache | apitest/ai/context_builder.py:275-278 | every cached context is forgotten |
| AiGenerator.ProviderError | apitest/ai/ai_generator.py:63-89 | a client is made exactly for the groq provider (in any case) with a truthy api key; openai and anthropic, in any case, raise not-implemented |
| AiGenerator.AcceptedConfigProvider | apitest/ai/ai_generator.py:63-89 | for a configuration the loader accepted, a value error can only be the missing groq api key |
| AiGenerator.SelectTemplate | apitest/ai/ai_generator.py:175-203 | edge cases exactly when a known success rate is below 0.7; otherwise advanced exactly when there are validated examples or patterns; otherwise basic; it raises when the context or history is not a dict or the rate does not compare |
| AiGenerator.TemplateFollowsHistory | apitest/ai/ai_generator.py:186-203 | for a context the builder assembled: without history edge cases is never picked; with a known rate it is picked exactly when fewer than 70% of the runs succeeded |
| AiGenerator.TemplateOfAssembled | apitest/ai/ai_generator.py:186-203 | for an assembled context, edge cases follows the rate and advanced follows non-empty examples or patterns |
| AiGenerator.AssembledFields | apitest/ai/ai_generator.py:190-200 | the template choice reads the history, its rate, the examples and the patterns the builder put in the context |
| AiGenerator.FallbackEndpointInfo | apitest/ai/ai_generator.py:120-133 | the rebuilt endpoint exists exactly for a dict operation, with the upper-cased method, the path and exactly the eleven fields in the source's order |
| AiGenerator.EndpointInfoOf | apitest/ai/ai_generator.py:117-133 | the endpoint information used is never empty, and is rebuilt from the operation when the context's is falsy |
| AiGenerator.BuiltContextNeedsNoFallback | apitest/ai/ai_generator.py:109-133 | a context the builder made carries its own endpoint information, so nothing is rebuilt |
| AiGenerator.MetadataCopiesConfig | apitest/ai/ai_generator.py:224-233 | the metadata copies the configuration's model, provider, temperature and token cap, and the client's counter |
| AiGenerator.CreateTestCase | apitest/ai/ai_generator.py:205-246 | a case converts exactly when its expected response is a dict or absent; the result is AI-generated for the endpoint, with the parsed request body, the expected response (`{}` when absent), the scenario or the default naming the endpoint, and the metadata |
| AiGenerator.NormalCaseConverts | apitest/ai/ai_generator.py:205-246 | a case in the parser's normal form always converts, and its expected response carries a status code |
| AiGenerator.Converted | apitest/ai/ai_generator.py:153-160 | the cases are converted in order up to the first that raises, which ends the endpoint's loop |
| AiGenerator.ConvertedUnique | apitest/ai/ai_generator.py:153-160 | the converted cases are the only sequence that converts a prefix and stops at the first failure |
| AiGenerator.ParsedCasesAllConvert | apitest/ai/ai_generator.py:150-160 | every case the parser returns becomes a test case |
| AiGenerator.Answer | apitest/ai/ai_generator.py:147-160 | every case from the answer is AI-generated for the endpoint asked about |
| AiGenerator.PromptFor | apitest/ai/ai_generator.py:107-143 | a prompt is built exactly when the context is there, the endpoint information and the template can be computed, and `build_prompt` can prepare its template variables |
| AiGenerator.PromptFailureSkips | apitest/ai/ai_generator.py:139-143 | an endpoint whose template variables cannot be prepared (for instance tags `[1]`) is skipped before the SDK is called: no case, no prompt, counter unchanged |
| AiGenerator.EndpointStep | apitest/ai/ai_generator.py:107-171 | every case an endpoint adds is for that endpoint; an endpoint that fails before its prompt adds nothing and leaves the counter |
| AiGenerator.FailedRequestAddsNothing | apitest/ai/ai_generator.py:164-171 | a request that raises, a missing library or a missing context adds no case and leaves the counter |
| AiGenerator.Generation | apitest/ai/ai_generator.py:106-173 | at most one prompt per endpoint |
| AiGenerator.CasesFromEndpoints | apitest/ai/ai_generator.py:104-173 | every generated case is AI-generated and carries the method and path of an endpoint asked for |
| AiGenerator.FailingEndpointDropped | apitest/ai/ai_generator.py:164-171 | an endpoint that always fails is simply skipped: cases and counter are those of the run without it |
| AiGenerator.AuthenticationFailureFails | apitest/ai/ai_generator.py:164-167 | an endpoint whose first request is refused for authentication always fails |
| AiGenerator.AITestGenerator.constructor | apitest/ai/ai_generator.py:29-81 | the generator keeps its configuration and gets a new Groq client with the configuration's key, model, temperature and token cap, and a zero counter |
| AiGenerator.NewGenerator | apitest/ai/ai_generator.py:29-89 | as intended (the format options read from a configuration that has them), a generator is made exactly when the provider check passes, and otherwise the check's error is raised |
| AiGenerator.InitAsWritten | apitest/ai/ai_generator.py:36-60 | as written, construction succeeds only where the provider check passes, and a client failure is the check's error |
| AiGenerator.NoGeneratorAsWritten | apitest/ai/ai_generator.py:44 | as written, every configuration fails with AttributeError on `schema_format`, before the provider check |
| AiGenerator.ImportAsWritten | apitest/ai/ai_generator.py:16 | the module loads exactly when `apitest/core/test_generator.py` defines `TestCase` |
| AiGenerator.ImportFailsAsWritten | apitest/ai/ai_generator.py:16 | as written the import raises ImportError, so the module cannot be loaded |
| AiGenerator.AITestGenerator.ConvertCases | apitest/ai/ai_generator.py:153-160 | the loop converts exactly the specified prefix of cases |
| AiGenerator.AITestGenerator.ProcessEndpoint | apitest/ai/ai_generator.py:107-162 | one endpoint's `try` block gives exactly the specified step (skipped with no SDK call when the prompt cannot be built), and the client's counter follows it |
| AiGenerator.AITestGenerator.GenerateTests | apitest/ai/ai_generator.py:91-173 | the loop over the endpoints gives exactly the specified cases, prompt inputs and counter |
| GroqClient.Classify | apitest/ai/groq_client.py:141-178 | a failure is a rate limit exactly when its lower-cased text mentions 429, rate limit or quota; an authentication failure exactly when it does not but mentions 401, 403, unauthorized or forbidden; a server fault exactly when it mentions neither but mentions 400, 500, 502 or 503; unexpected exactly when it mentions none of these |
| GroqClient.Pauses | apitest/ai/groq_client.py:146-150 | the pause before retry i is `2 ** i` seconds |
| GroqClient.Attempts | apitest/ai/groq_client.py:111-181 | the attempts loop makes between one and the remaining number of calls (none when no attempt is left), pauses once less than it calls, `2 ** attempt` seconds each, and leaves the token counter unchanged when it raises |
| GroqClient.AttemptsAfterRetries | apitest/ai/groq_client.py:111-175 | after k retried failures the loop is the loop from attempt k, preceded by k calls and the pauses 1, 2, ..., `2 ** (k-1)` |
| GroqClient.PausesIncrease | apitest/ai/groq_client.py:146-170 | the pauses of one request strictly increase (exponential backoff) |
| GroqClient.AuthenticationNotRetried | apitest/ai/groq_client.py:158-162 | an authentication failure that is not a rate limit is raised at the first call, with no pause |
| GroqClient.RateLimitedThroughout | apitest/ai/groq_client.py:145-156 | when every call hits the rate limit, every attempt is made and a rate-limit error is raised |
| GroqClient.ServerFaultThroughout | apitest/ai/groq_client.py:164-175 | when every call fails with a server error, every remaining attempt is made and the last failure is raised as "API error after N attempts: <message>" |
| GroqClient.UnexpectedNotRetried | apitest/ai/groq_client.py:177-178 | a failure matching no known class is raised at the first call as "Unexpected error: <message>", with no pause |
| GroqClient.SuccessRecordsTokens | apitest/ai/groq_client.py:125-139 | a first call that completes returns its content with the model, after one call, and the counter becomes the reported total tokens (unchanged when no usage is reported) |
| GroqClient.GroqClient.constructor | apitest/ai/groq_client.py:45-61 | the client keeps the key, model, temperature and token cap, and starts with no tokens used |
| GroqClient.GroqClient.MakeRequest | apitest/ai/groq_client.py:85-181 | without the groq library, the not-installed API error with no call; otherwise exactly the attempts loop's result, pauses, calls and token counter |
| GroqClient.GroqClient.Generate | apitest/ai/groq_client.py:63-83 | the content of a request with three attempts, or the error it raised; the counter follows the request |
| FeedbackAnalyzer.PromptVersion | apitest/ai/feedback_analyzer.py:150-187 | 'unknown' when the entry has no test case id or the stored case is missing; raising when the entry is not a dict |
| FeedbackAnalyzer.VersionFromMetadata | apitest/ai/feedback_analyzer.py:170-187 | a stored case whose metadata carries a version gives that version's text, and 'unknown' for a falsy one |
| FeedbackAnalyzer.UndecodableCaseIsUnknown | apitest/ai/feedback_analyzer.py:170-176 | a stored case whose JSON text does not decode counts as 'unknown' |
| FeedbackAnalyzer.Labelled | apitest/ai/feedback_analyzer.py:115-119 | each entry's prompt version and status, in order, and an error exactly when one entry's version or status raises |
| FeedbackAnalyzer.Group | apitest/ai/feedback_analyzer.py:108-127 | the versions are distinct and each has a positive total at least the sum of its three status counts |
| FeedbackAnalyzer.GroupCounts | apitest/ai/feedback_analyzer.py:108-127 | a version is present exactly when some entry carries it, and then its counts are its entries and its entries with each status |
| FeedbackAnalyzer.VersionCountsStep | apitest/ai/feedback_analyzer.py:115-127 | one more entry changes a version's counts only when it carries that version |
| FeedbackAnalyzer.Percent | apitest/ai/feedback_analyzer.py:134-136 | a share of a total is between 0 and 100, and positive for a positive count |
| FeedbackAnalyzer.Rates | apitest/ai/feedback_analyzer.py:129-148 | only versions with a positive total are reported |
| FeedbackAnalyzer.RatesKeepGroups | apitest/ai/feedback_analyzer.py:129-148 | every grouped version is reported, with its statistics |
| FeedbackAnalyzer.CalculateSuccessRates | apitest/ai/feedback_analyzer.py:97-148 | the rates of the grouped labels, or an error when an entry raises |
| FeedbackAnalyzer.CountByVersion | apitest/ai/feedback_analyzer.py:107-127 | the counting loop gives exactly the grouped counts |
| FeedbackAnalyzer.RatesOf | apitest/ai/feedback_analyzer.py:129-148 | the rates loop gives exactly the rates of the groups |
| FeedbackAnalyzer.SuccessRatesCount | apitest/ai/feedback_analyzer.py:115-148 | per reported version the three status counts sum to at most the total, the total is the number of entries with that version and is positive, and the approved count is the number of its approved entries |
| FeedbackAnalyzer.Problematic | apitest/ai/feedback_analyzer.py:200-203 | exactly the rejected and needs-improvement entries, and an error exactly when an entry has no status |
| FeedbackAnalyzer.FeedbackTexts | apitest/ai/feedback_analyzer.py:209-212 | at most one text per entry, and an error exactly when a truthy text is not a string |
| FeedbackAnalyzer.IssueTypesDistinct | apitest/ai/feedback_analyzer.py:215-222 | the six issue types are distinct |
| FeedbackAnalyzer.TallyText | apitest/ai/feedback_analyzer.py:229-234 | one text keeps the issue types distinct |
| FeedbackAnalyzer.IssueTally | apitest/ai/feedback_analyzer.py:225-234 | the tally's issue types are distinct |
| FeedbackAnalyzer.Mentioning | apitest/ai/feedback_analyzer.py:228-231 | the texts mentioning a keyword are among the texts |
| FeedbackAnalyzer.TallyTextAt | apitest/ai/feedback_analyzer.py:229-234 | after one text an issue type changes exactly when the text mentions one of its keywords, and then its count grows by one and the text is kept while fewer than three are |
| FeedbackAnalyzer.IssueTallyAt | apitest/ai/feedback_analyzer.py:225-234 | an issue type is present exactly when some text mentions one of its keywords; its count is the number of such texts and its examples the first three of them, cut to 200 characters |
| FeedbackAnalyzer.IssuesSorted | apitest/ai/feedback_analyzer.py:238 | issues come most frequent first |
| FeedbackAnalyzer.IssueCounted | apitest/ai/feedback_analyzer.py:236-246 | each issue is one of the six types, counted by the texts mentioning it (so positive), with at most three examples of at most 200 characters and a percentage in (0, 100] |
| FeedbackAnalyzer.IssueReported | apitest/ai/feedback_analyzer.py:228-246 | every issue type some text mentions is reported |
| FeedbackAnalyzer.IdentifyCommonIssues | apitest/ai/feedback_analyzer.py:189-246 | the method gives exactly the specified common issues |
| FeedbackAnalyzer.ProblematicEntries | apitest/ai/feedback_analyzer.py:200-203 | the comprehension gives exactly the problematic entries |
| FeedbackAnalyzer.LoweredTexts | apitest/ai/feedback_analyzer.py:209-212 | the loop gives exactly the lower-cased texts |
| FeedbackAnalyzer.TallyIssues | apitest/ai/feedback_analyzer.py:224-234 | the nested loop gives exactly the specified tally |
| FeedbackAnalyzer.Suggested | apitest/ai/feedback_analyzer.py:286-297 | falsy annotations suggest nothing; `.get` raises exactly on truthy annotations that are not a dict |
| FeedbackAnalyzer.PatternTotals | apitest/ai/feedback_analyzer.py:258-304 | every entry is counted once in each view: the status, endpoint and method counts and both yes/no pairs sum to the corpus size; text 'yes' counts the entries with a text, and each status count the entries with that status |
| FeedbackAnalyzer.TallyStep | apitest/ai/feedback_analyzer.py:266-297 | the patterns of one more entry are the old patterns with that entry tallied |
| FeedbackAnalyzer.UncountableRaises | apitest/ai/feedback_analyzer.py:266-297 | one entry without a known status, a hashable method or a readable suggestion makes the whole extraction raise |
| FeedbackAnalyzer.ExtractPatterns | apitest/ai/feedback_analyzer.py:248-304 | the loop gives exactly the specified patterns |
| FeedbackAnalyzer.PercentHalf | apitest/ai/feedback_analyzer.py:392-412 | a share is below (above) 50% exactly when twice the count is below (above) the total |
| FeedbackAnalyzer.PercentMonotone | apitest/ai/feedback_analyzer.py:134-136 | a larger count is a larger share of one total |
| FeedbackAnalyzer.VersionInsight | apitest/ai/feedback_analyzer.py:324-347 | a high prompt-version insight exactly when some two versions' approval rates differ by more than 10 points; it names the highest and the lowest rate |
| FeedbackAnalyzer.TopIssueInsight | apitest/ai/feedback_analyzer.py:349-363 | the common-issue insight appears exactly when some issue exceeds 30% |
| FeedbackAnalyzer.MethodIssues | apitest/ai/feedback_analyzer.py:366-377 | the methods listed are exactly enough to witness a method rejected more than half the time, and each listed one is |
| FeedbackAnalyzer.MethodInsight | apitest/ai/feedback_analyzer.py:379-387 | a medium method-pattern insight carrying the listed method with the highest rejection rate |
| FeedbackAnalyzer.MethodInsightWhen | apitest/ai/feedback_analyzer.py:365-387 | the method insight appears exactly when some method is rejected in more than half of its entries |
| FeedbackAnalyzer.TextInsight | apitest/ai/feedback_analyzer.py:389-404 | a low feedback-quality insight exactly when the corpus is empty or fewer than half of it carries a text |
| FeedbackAnalyzer.ApprovalInsight | apitest/ai/feedback_analyzer.py:406-423 | a high overall-performance insight exactly when some statuses are counted and fewer than half are approvals |
| FeedbackAnalyzer.WithPriority | apitest/ai/feedback_analyzer.py:425-427 | exactly the insights of one priority |
| FeedbackAnalyzer.ByPrioritySorted | apitest/ai/feedback_analyzer.py:425-427 | the sorted insights are in priority order, a permutation of the collected ones, and keep the collected order within a priority (a stable sort) |
| FeedbackAnalyzer.SortedMembers | apitest/ai/feedback_analyzer.py:425-427 | an insight is sorted in exactly when it was collected |
| FeedbackAnalyzer.CollectedFrom | apitest/ai/feedback_analyzer.py:389-423 | an overall-performance or feedback-quality insight is collected exactly when its check produced it |
| FeedbackAnalyzer.InsightsMembers | apitest/ai/feedback_analyzer.py:322-429 | the result holds exactly the collected insights |
| FeedbackAnalyzer.OverallPerformanceWhen | apitest/ai/feedback_analyzer.py:406-423 | an overall-performance insight, always high, is reported exactly when fewer than half of a non-empty corpus is approved |
| FeedbackAnalyzer.FeedbackQualityWhen | apitest/ai/feedback_analyzer.py:389-404 | a feedback-quality insight, always low, is reported exactly when the corpus is empty or fewer than half of it carries a text |
| FeedbackAnalyzer.ExtractActionableInsights | apitest/ai/feedback_analyzer.py:306-429 | the method gives exactly the specified insights |
| FeedbackAnalyzer.Analyze | apitest/ai/feedback_analyzer.py:39-95 | an empty corpus gives the empty analysis; otherwise the analysis exists exactly when the version labels, common issues and patterns do, counts the corpus and carries the storage's summary |
| FeedbackAnalyzer.AnalyzeFeedback | apitest/ai/feedback_analyzer.py:39-95 | the method gives exactly the specified analysis |
| PromptRefiner.InsightIssue | apitest/ai/prompt_refiner.py:92-118 | an insight without a category raises; only common-issue, overall-performance and method-pattern insights contribute an issue |
| PromptRefiner.CommonIssueText | apitest/ai/prompt_refiner.py:122-130 | a common issue contributes exactly when its percentage exceeds 30; it raises exactly when it is not a dict or the percentage is not a number |
| PromptRefiner.GatherItems | apitest/ai/prompt_refiner.py:88-130 | gathering raises exactly when one item raises; otherwise the texts are exactly those the items contribute |
| PromptRefiner.GatherPrefix | apitest/ai/prompt_refiner.py:92-118 | once an item raises, the whole pass raises |
| PromptRefiner.InsightItems | apitest/ai/prompt_refiner.py:91 | the insights can only be read from a dict analysis |
| PromptRefiner.FiledShape | apitest/ai/prompt_refiner.py:88-132 | both prompts receive every text in order, and no other prompt is keyed |
| PromptRefiner.FileTexts | apitest/ai/prompt_refiner.py:92-130 | one pass raises exactly when one of its items does, and otherwise files every contributed text for both prompts |
| PromptRefiner.IdentifyPromptIssues | apitest/ai/prompt_refiner.py:78-132 | nothing when no text qualifies; otherwise the same texts under 'test_generation_basic' and then 'test_generation_advanced' |
| PromptRefiner.SuggestionsFrom | apitest/ai/prompt_refiner.py:205-242 | a suggestion is given for an issue exactly when one of its rule's keywords occurs in the lower-cased issue |
| PromptRefiner.SuggestedFrom | apitest/ai/prompt_refiner.py:205-242 | the suggestions of the issues are those of each issue |
| PromptRefiner.RecommendedFrom | apitest/ai/prompt_refiner.py:245-250 | the recommendations add the high-priority truthy texts and nothing else, and raise exactly when an insight is not a dict or such a text is not a string |
| PromptRefiner.ImprovementMembers | apitest/ai/prompt_refiner.py:191-252 | an improvement is a rule suggestion whose keyword occurs in some issue or a high-priority recommendation, and every such one is listed |
| PromptRefiner.ListOfSet | apitest/ai/prompt_refiner.py:252 | each member once, empty exactly for an empty list |
| PromptRefiner.SuggestForIssues | apitest/ai/prompt_refiner.py:203-242 | the issue loop appends, issue by issue and rule by rule, the suggestion of every rule a keyword of which occurs in the lower-cased issue |
| PromptRefiner.AddRecommendations | apitest/ai/prompt_refiner.py:245-250 | the insight loop appends each new high-priority recommendation once, and raises exactly where an insight is not a dict or a truthy recommendation is not a string |
| PromptRefiner.GenerateImprovements | apitest/ai/prompt_refiner.py:191-252 | the loop gives the specified improvements without duplicates, and none exactly when none is specified |
| PromptRefiner.RecommendedPrefix | apitest/ai/prompt_refiner.py:245-250 | once an insight raises, the whole pass raises |
| PromptRefiner.Bullets | apitest/ai/prompt_refiner.py:295 | each improvement as a `- ` bullet |
| PromptRefiner.InsertBlock | apitest/ai/prompt_refiner.py:269-302 | a template with neither instructions heading nor tag is unchanged |
| PromptRefiner.ApplyImprovements | apitest/ai/prompt_refiner.py:254-326 | the method rebinds the template to exactly the specified result |
| PromptRefiner.FirstAtUnique | apitest/ai/prompt_refiner.py:275 | `find` has one first occurrence |
| PromptRefiner.MarkdownInsertion | apitest/ai/prompt_refiner.py:272-288 | with a '## Instructions' heading the block goes at the first blank line after the first heading, or at the end, with the rest of the template around it |
| PromptRefiner.XmlInsertion | apitest/ai/prompt_refiner.py:289-302 | otherwise, with an `<instructions>` tag in any case, the XML block goes just before the first closing tag after it, and with none the template is unchanged |
| PromptRefiner.BlocksList | apitest/ai/prompt_refiner.py:280-296 | each block lists the first three improvements, and the Markdown header keeps the literal '{next_version}' |
| PromptRefiner.NotesNeedHeading | apitest/ai/prompt_refiner.py:304-324 | without a '## Instructions' heading no issue adds a note |
| PromptRefiner.TemplateUnchanged | apitest/ai/prompt_refiner.py:269-326 | a template with neither heading nor tag is returned unchanged |
| PromptRefiner.NotesStable | apitest/ai/prompt_refiner.py:309-324 | a text that already has the word 'format' and both notes is left as it is |
| PromptRefiner.PutNoteKeepsHeading | apitest/ai/prompt_refiner.py:312-324 | a note put before the heading is in the text, and so is the heading |
| PromptRefiner.NotesPresent | apitest/ai/prompt_refiner.py:304-324 | each note step keeps the heading; an issue mentioning 'missing' or 'required' leaves the required-fields note in the text, and one mentioning 'data' or 'invalid' the data-quality note |
| PromptRefiner.MaxOf | apitest/ai/prompt_refiner.py:172 | the largest member of a non-empty list |
| PromptRefiner.VersionNumbers | apitest/ai/prompt_refiner.py:172 | each listed row's integer version, in order |
| PromptRefiner.NextVersion | apitest/ai/prompt_refiner.py:171-172 | one past the current version when none is listed; otherwise one past the largest listed version, greater than every listed one |
| PromptRefiner.Names | apitest/ai/prompt_refiner.py:182-189 | the prompt names of the updates, in order |
| PromptRefiner.PromptRefiner.constructor | apitest/ai/prompt_refiner.py:35-42 | nothing is saved and no version is active |
| PromptRefiner.PromptRefiner.RefineSinglePrompt | apitest/ai/prompt_refiner.py:134-189 | an update exactly when the prompt is refinable; no update exactly when no active or latest prompt is stored or no improvement is generated; the update carries the improved template, the next version and the metadata |
| PromptRefiner.PromptRefiner.RefinePrompts | apitest/ai/prompt_refiner.py:44-76 | no update when no issue is identified; otherwise one update per refinable prompt, basic before advanced; a prompt that raises is skipped, while a failure identifying issues propagates |
| PromptRefiner.PromptRefiner.SaveRefinedPrompt | apitest/ai/prompt_refiner.py:328-355 | the update's template, metadata and version are appended to the saved prompts, the version becomes active only when asked, and the result is the new prompt's id |
| PromptRefiner.ExpectedPair | apitest/ai/prompt_refiner.py:67-71 | over two prompts the updates are those of the first then the second that are refinable |
| Validation.FromDict | apitest/ai/validation.py:59-68 | a feedback is made exactly when the id and the status are present; every other field defaults to None |
| Validation.ToDictFields | apitest/ai/validation.py:47-58 | each field is stored under its own key, with falsy annotations and suggestions written as `{}` and `[]` |
| Validation.RoundTrip | apitest/ai/validation.py:47-68 | reading back a written feedback gives it with falsy annotations and suggestions normalised, and gives it unchanged exactly when those are truthy or already empty |
| Validation.ReviewSourcePriority | apitest/ai/validation.py:120-143 | explicit ids win over results, results win over the pending cases, and with neither the pending cases are returned |
| Validation.CasesByIdsMembers | apitest/ai/validation.py:126-131 | the cases of explicit ids are the stored cases of those ids, unknown ids skipped |
| Validation.CasesFromResultsMembers | apitest/ai/validation.py:132-138 | the cases of results are the stored cases of the AI-generated results that carry an id, and a result that is not a dict raises |
| Validation.GetTestCasesToReview | apitest/ai/validation.py:120-143 | the cases come from the explicit ids, else from the results, else the pending cases, exactly as specified |
| Validation.CollectByIds | apitest/ai/validation.py:128-131 | the loop over the ids keeps exactly the stored cases found, in order |
| Validation.CollectFromResults | apitest/ai/validation.py:134-138 | the loop over the results keeps exactly the stored cases of AI-generated results, and fails on a result that is not a dict |
| Validation.ResultsPrefix | apitest/ai/validation.py:134-138 | once a result raises, the whole pass raises |
| Validation.KeepMembers | apitest/ai/validation.py:185-188 | a comprehension keeps exactly the cases its test accepts, and raises exactly when the test raises on one |
| Validation.EndpointKey | apitest/ai/validation.py:194-195 | a case has a key exactly when it has a method and a path that can be hashed (neither a list nor a dict), and the key is that pair |
| Validation.WithKeyMembers | apitest/ai/validation.py:194-196 | a group holds exactly the cases with its endpoint |
| Validation.GroupedShape | apitest/ai/validation.py:190-198 | the grouping raises exactly when a case lacks its method or path, or has a list or dict there; otherwise the keys are distinct, a key is present exactly when some case has it, and it maps to those cases in order |
| Validation.EndpointFilters | apitest/ai/validation.py:184-188 | every group's method equals the requested one up to case, and its path is the requested one |
| Validation.GetAllTestCasesByEndpoint | apitest/ai/validation.py:164-198 | the comprehensions and the grouping loop give exactly the specified groups |
| Validation.GroupedPrefix | apitest/ai/validation.py:194-196 | once a case cannot be grouped, the whole grouping raises |
| Validation.UntilBlank | apitest/ai/validation.py:276-280 | the answers kept are a prefix of those typed, none blank, ending just before the first blank one |
| Validation.ReadImprovements | apitest/ai/validation.py:274-281 | the prompt loop reads exactly the answers up to the first blank one |
| Validation.ReviewSingleTestCase | apitest/ai/validation.py:200-291 | raising exactly for a case without an id or with non-dict JSON; nothing for skip and quit; otherwise the case's id and mapped status, a text exactly for reject or improve with a non-blank answer, and the suggestions exactly for improve with a non-blank first answer |
| Validation.PersistedMembers | apitest/ai/validation.py:300-319 | an error on one entry does not stop the others: the saved rows are those of the entries whose save did not raise |
| Validation.StatusOfLastEntry | apitest/ai/validation.py:300-314 | a case's status becomes that of its last entry whose storage calls both succeed |
| Validation.StatusUntouched | apitest/ai/validation.py:300-319 | cases without a fully stored entry keep their status |
| Validation.SuggestionsNotPersisted | apitest/ai/validation.py:303-314 | suggested improvements and the reviewer never reach storage |
| Validation.ValidationUI.constructor | apitest/ai/validation.py:78-86 | nothing is saved and the statuses are the given ones |
| Validation.ValidationUI.SaveFeedback | apitest/ai/validation.py:293-321 | the saved rows grow by exactly the persisted rows, and the statuses become the specified ones |

## Left out

General:
- HTTP traffic, SQLite, the OS keyring and the file system are not performed. Each is an input, or a field of the class that writes it.
- The console, Rich tables and prompts, and logging are not modelled. The CLI (`apitest/cli.py`) and the reporters are not part of this model.
- Floats are exact reals. Python's `round(x, 2)` and the formatting of numbers into text are not modelled.
- `lower()` and `upper()` map ASCII letters only. Unicode case mapping is not modelled.
- Dict keys are strings. YAML integer keys, such as `responses: {200: ...}`, are not modelled.
- Most regular expressions are explicit left-to-right scanners. Two are not: the fenced-block search (`re.findall` at `apitest/ai/response_parser.py:89`) is a parameter, the list of blocks found per pattern, and config's `\w` is ASCII only (see ExpandVarsPlain below).
- JSON and YAML encoding and decoding are parameters, and so is `jsonschema.validate`.
- The learning engine, the package `__init__` files and `setup.py` are not part of this model.
- `utils.format_duration` is float formatting and is not modelled.

Number parsing:
- Numbers.ParseInt: only ASCII digits and ASCII whitespace are read. Python's `int()` also accepts other Unicode decimal digits and Unicode whitespace.
- Numbers.ParseFloat: digits and whitespace are ASCII, as for ParseInt. `inf`, `infinity` and `nan` (in any case) fail here, because a real cannot hold them, while Python returns the IEEE special values. The value is the exact decimal rather than the nearest double, so a huge exponent gives a huge real where Python gives `inf`.
- DataGenerator.ConvertToType: inherits the limits of Numbers.ParseInt and Numbers.ParseFloat above, and nothing else.
- TestGenerator.ToFloat: inherits the limits of Numbers.ParseFloat above, and nothing else.

Tester:
- The parallel run (`ThreadPoolExecutor`) and response timing are not modelled: the runs are sequential, and each request's outcome and time are given.
- Only the verdict rule of `_test_endpoint` is modelled. `_validate_response_schema` lookups are left out, and the schema errors are given.
- Tester.TestCases: the schema is taken to have passed validation, so `paths` and each path item are dicts (the parameter type is the dict entries). A non-dict `paths` would raise at `paths.items()` (apitest/tester.py:122) and is not modelled.
- Tester.RefInlined: `_resolve_schema_refs` recurses with a `fuel` bound. Running out of fuel stands for the RecursionError of a reference cycle.
- Tester.RequestJson: `_generate_test_data` is the algorithm of `apitest/core/test_generator.py`, so the request body uses `TestGenerator.PlainTestData`.
- Tester.APITester.RunTests: does not state the warnings recorded over the whole run; TestEndpoint's contract states those for one case.

Configuration and credentials:
- ExpandVarsPlain: `\w` in `apitest/config.py:173` is modelled as ASCII letters, digits and `_`. Python 3 also matches non-ASCII letters and digits, so `$CAFÉ` reads the name `CAFÉ` in Python and `CAF` here. Config.MatchRef, Config.ExpandVarsBraced and the other expansion lemmas share this limit.
- `ConfigManager.create_default_config` and `get_config_file_path` write and locate files, so they are not modelled. The files read are inputs.
- `TokenStore._verify_keyring_available` checks the keyring backend, which is a map here.

Learning and storage:
- `PatternExtractor.learn_data_relationships` is left out. It queries the `request_responses` table, which the database never creates, so its result is always empty. The data generator takes relationships as a parameter.
- PatternExtractor.DetectFormat: `\d` is an ASCII digit here. In Python 3 it also matches other Unicode decimal digits, so a date written in, say, full-width digits is a `date` in Python and nothing here.
- PatternExtractor.PatternInfoOf: the pattern's `type` is the first type recorded. Python takes the most common entry of a set, and ties are broken in an unspecified order.
- `Baseline.get_all_baselines` is a database pass-through, so it is not modelled.
- `History.get_test_history`, `get_baseline` and `get_all_baselines` are database reads, so they are not modelled. `close` and the context manager are not modelled either.
- History.TestHistory.SaveTestResults: payload storage (`apitest/storage/history.py:66-81`) is not modelled. It never runs, because `TestResult` has no `request_headers` attribute.
- `get_library_dir` and directory creation are the `files` map of the library.

AI pipeline:
- ResponseParser.ExpectedResponse: when a case's `expected_response` dict has no `status_code`, Python adds `status_code: 200` to that very dict (`apitest/ai/response_parser.py:222`, `:228-233`), so the caller's decoded document changes too. The model builds a new value and leaves its input as it was: this aliasing is not modelled.
- ResponseParser.ExtractJsonFromMarkdown: the matches of the four fenced-block patterns (`apitest/ai/response_parser.py:81-89`) are a parameter, one list of blocks per pattern. The `re.findall` search itself is not modelled.
- ContextBuilder.TopPatterns: any pattern whose score is not a number gives no patterns. Python sorts without error a single pattern (nothing to compare) and patterns whose scores are all strings (text order); those cases are not modelled.
- PromptBuilder.PrepareVariables: a template is identified by its name and format; its text is not spelled out. The YAML/JSON dumps are parameters, and so is the two-decimal rendering. The percentage text of the success rate is left out. Failures of the schema, response-schema and parameter formatters (`_format_schema`, `_format_response_schemas`, `_format_parameters`) on malformed input are not modelled.
- PromptBuilder.StatusCodesText: counts that are all strings (or all lists) also sort in Python, by text order. Here a dict of two or more such counts fails like any other non-numeric mix.
- `PromptBuilder._render_template`, `build_prompt`, the assembly of `build_batch_prompt`, `_format_schema`, `_format_parameters` and `_format_response_schemas` are text rendering, so they are not modelled.
- The TOON schema format is not modelled.
- Seeding stores the Markdown templates, while the builder defaults to the XML set. This is modelled as written.
- AiGenerator.AITestGenerator.constructor: the configuration class `AIConfig` (`apitest/config.py:25-34`) has no `schema_format` or `prompt_format`, but `apitest/ai/ai_generator.py:44-51` reads them. The failure as written is AiGenerator.InitAsWritten (see Findings); the constructor models the intended generator and leaves the format choice out.
- AiGenerator.NewGenerator: models the intended construction. As written, the AttributeError at `apitest/ai/ai_generator.py:44` comes before the provider check, so no generator is ever made (AiGenerator.NoGeneratorAsWritten).
- The prompt text is not built. The generator records the endpoint information and the template each prompt would use.
- The `status_code` default at `apitest/ai/ai_generator.py:221` is never used, so it is not modelled.
- The `TestCase` class that `apitest/ai/ai_generator.py` imports is not defined in `apitest/core/test_generator.py` (AiGenerator.ImportFailsAsWritten, see Findings). An `AITestCase` datatype records its constructor's arguments instead.
- `GroqClient`: the SDK is a function from attempt number to outcome. The pauses are returned, not slept. The `tokens_used` property is the `tokensUsed` field.
- FeedbackAnalyzer.Rates: rates are exact percentages, not rounded to two decimals.
- FeedbackAnalyzer.PatternTotals: a status outside approved, rejected and needs_improvement makes the patterns fail. This is the KeyError of `apitest/ai/feedback_analyzer.py:274`.
- FeedbackAnalyzer.VersionInsight: the insight and recommendation texts are not modelled; only the data of each insight is.
- PromptRefiner.GenerateImprovements: the order of the result is left unspecified, because `list(set(...))` has no defined order.
- PromptRefiner.AddRecommendations: the improvements are strings, so a truthy recommendation that is not a string makes the model fail. Python appends a number or a boolean and fails only on an unhashable one, at the `set` call of `apitest/ai/prompt_refiner.py:252`.
- PromptRefiner.InsightIssue: the issue texts are built from the values they mention. The text of a float is not exact Python `str`.
- PromptRefiner.NextVersion: versions are integers.
- `PromptRefiner.compare_prompt_versions` and `_get_timestamp` are not modelled. The timestamp is a parameter.
- Validation.EndpointKey: the groups compare keys as values, so method or path values that Python hashes alike (`1`, `True` and `1.0`) form separate groups here but one group in Python.
- Validation.ReviewSingleTestCase: the display of the case is not modelled. The reviewer's answers are parameters, and the choice is one of a, r, i, s and q.
- `ValidationUI.review_ai_tests`, `get_pending_test_cases`, `export_to_json` and `import_from_json` drive the console or pass storage through, so they are not modelled. The pending cases are a parameter.
- Validation.ValidationUI.SaveFeedback: the final "Saved N" message is not modelled. It counts every entry given, saved or not.

## Findings

| source | as written | input that shows it | evidently intended | confidence | as-written member | corrected member |
|---|---|---|---|---|---|---|
| apitest/storage/history.py:49-62 | each row insert reads `result.auth_attempts` and `result.auth_succeeded`, which `TestResult` (`apitest/tester.py:26-38`) does not have, so AttributeError is raised and re-raised | a run with one result | the result's own fields are saved and the count of saved rows is returned | high, not executed | History.SaveOutcomeAsWritten | History.TestHistory.SaveTestResults |
| apitest/ai/prompt_builder.py:696-711 | `key_statuses` is assigned only inside `if response_schemas:` and read by the response-examples filter, so the first endpoint with response examples and no response schemas (before any endpoint with schemas) raises UnboundLocalError (in both the XML and the Markdown branch, lines 750-765) and the whole batch prompt fails | one endpoint `{'response_examples': {'200': []}}` (PromptBuilder.UnboundKeyStatuses) | the key statuses are a fixed list available to both filters, so every endpoint is listed | high, not executed | PromptBuilder.EndpointsListAsWritten | PromptBuilder.EndpointsList |
| apitest/ai/ai_generator.py:44-51 | `__init__` reads `ai_config.schema_format` and `ai_config.prompt_format`, which the `AIConfig` dataclass (`apitest/config.py:26-34`) does not define, so AttributeError is raised before the provider check | any `AIConfig`, such as the default one (AiGenerator.NoGeneratorAsWritten) | the formats come from the configuration when it has them, and the generator is made exactly when the provider check passes | high, not executed | AiGenerator.InitAsWritten | AiGenerator.NewGenerator |
| apitest/ai/ai_generator.py:16 | imports `TestCase` from `apitest.core.test_generator`, which defines only `TestGenerator`, so loading the module raises ImportError | importing the module (AiGenerator.ImportFailsAsWritten) | a test-case record built from each parsed case | high, not executed | AiGenerator.ImportAsWritten | AiGenerator.CreateTestCase |
