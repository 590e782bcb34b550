/**
 * Credentials given on the command line as `bearer=TOKEN`, `apikey=NAME:VALUE[:location]`
 * or `header=NAME:VALUE`, and the request headers and query parameters they produce.
 */
module Auth {
  import opened Wrappers
  import opened Strings

  /** The three ValueError messages of the parser. */
  datatype AuthError =
    | InvalidFormat                  // no '=' at all
    | ApiKeyFormat                   // apikey value with fewer than two ':'-separated parts
    | HeaderFormat                   // header value without ':'
    | UnsupportedType(kind: string)  // kind other than bearer/apikey/header

  /** What one credential string says, before it is stored in the handler. */
  datatype Credential =
    | Bearer(token: string)
    | ApiKey(name: string, value: string, location: Option<string>)  // None: location left as it was
    | Header(name: string, value: string)

  /** The kind is the lower-cased text before the first '=', the value everything after it. */
  function Parse(s: string): Result<Credential, AuthError> {
    match IndexOf(s, '=')
    case None => Err(InvalidFormat)
    case Some(i) => ParseKind(Lower(s[..i]), s[i + 1..])
  }

  /** An api key value is split at every ':', a header value at the first ':' only. */
  function ParseKind(kind: string, value: string): Result<Credential, AuthError> {
    if kind == "bearer" then Ok(Bearer(value))
    else if kind == "apikey" then
      var parts := Split(value, ':');
      if |parts| < 2 then Err(ApiKeyFormat)
      else Ok(ApiKey(parts[0], parts[1], if |parts| > 2 then Some(Lower(parts[2])) else None))
    else if kind == "header" then
      match IndexOf(value, ':')
      case None => Err(HeaderFormat)
      case Some(j) => Ok(Header(value[..j], value[j + 1..]))
    else Err(UnsupportedType(kind))
  }

  /** Only the first '=' separates the kind from the value. */
  lemma ParseAtFirstEquals(kind: string, value: string)
    requires '=' !in kind
    ensures Parse(kind + "=" + value) == ParseKind(Lower(kind), value)
  {
    var s := kind + "=" + value;
    IndexOfAfter(kind, '=', value);
    assert s[..|kind|] == kind && s[|kind| + 1..] == value;
  }

  /** The command-line spelling of a credential. */
  function Render(c: Credential): string {
    match c
    case Bearer(t) => "bearer=" + t
    case ApiKey(n, v, loc) => "apikey=" + n + ":" + v + (if loc.Some? then ":" + loc.value else "")
    case Header(n, v) => "header=" + n + ":" + v
  }

  /** A credential whose parts can be written without ambiguity. */
  predicate Renderable(c: Credential) {
    match c
    case Bearer(_) => true
    case ApiKey(n, v, loc) => ':' !in n && ':' !in v && (loc.Some? ==> ':' !in loc.value && Lower(loc.value) == loc.value)
    case Header(n, _) => ':' !in n
  }

  lemma LowerLiteral(kind: string)
    requires kind == "bearer" || kind == "apikey" || kind == "header"
    ensures Lower(kind) == kind
  {
  }

  /** Parsing the rendering of a credential gives the credential back. */
  lemma ParseRender(c: Credential)
    requires Renderable(c)
    ensures Parse(Render(c)) == Ok(c)
  {
    match c
    case Bearer(t) => ParseRenderBearer(t);
    case ApiKey(n, v, loc) => ParseRenderApiKey(n, v, loc);
    case Header(n, v) => ParseRenderHeader(n, v);
  }

  lemma ParseRenderBearer(t: string)
    ensures Parse(Render(Bearer(t))) == Ok(Bearer(t))
  {
    assert Render(Bearer(t)) == "bearer" + "=" + t;
    ParseAtFirstEquals("bearer", t);
    LowerLiteral("bearer");
    assert ParseKind("bearer", t) == Ok(Bearer(t));
  }

  lemma ParseRenderApiKey(n: string, v: string, loc: Option<string>)
    requires Renderable(ApiKey(n, v, loc))
    ensures Parse(Render(ApiKey(n, v, loc))) == Ok(ApiKey(n, v, loc))
  {
    if loc.Some? {
      ParseRenderApiKeyAt(n, v, loc.value);
    } else {
      ParseRenderApiKeyPlain(n, v);
    }
  }

  lemma ParseRenderApiKeyPlain(n: string, v: string)
    requires ':' !in n && ':' !in v
    ensures Parse(Render(ApiKey(n, v, None))) == Ok(ApiKey(n, v, None))
  {
    var value := n + ":" + v;
    assert Render(ApiKey(n, v, None)) == "apikey" + "=" + value;
    LowerLiteral("apikey");
    ParseAtFirstEquals("apikey", value);
    ApiKeyTwoParts(n, v);
  }

  lemma ParseRenderApiKeyAt(n: string, v: string, loc: string)
    requires ':' !in n && ':' !in v && ':' !in loc && Lower(loc) == loc
    ensures Parse(Render(ApiKey(n, v, Some(loc)))) == Ok(ApiKey(n, v, Some(loc)))
  {
    var value := n + ":" + v + (":" + loc);
    assert Render(ApiKey(n, v, Some(loc))) == "apikey" + "=" + value;
    LowerLiteral("apikey");
    ParseAtFirstEquals("apikey", value);
    ApiKeyThreeParts(n, v, loc);
  }

  lemma ApiKeyTwoParts(n: string, v: string)
    requires ':' !in n && ':' !in v
    ensures Split(n + ":" + v, ':') == [n, v]
  {
    assert n + ":" + v == n + [':'] + v;
    SplitCons(n, ':', v);
    SplitNone(v, ':');
  }

  lemma ApiKeyThreeParts(n: string, v: string, loc: string)
    requires ':' !in n && ':' !in v && ':' !in loc
    ensures Split(n + ":" + v + (":" + loc), ':') == [n, v, loc]
  {
    assert n + ":" + v + (":" + loc) == n + [':'] + (v + [':'] + loc);
    SplitCons(n, ':', v + [':'] + loc);
    SplitCons(v, ':', loc);
    SplitNone(loc, ':');
  }

  lemma ParseRenderHeader(n: string, v: string)
    requires ':' !in n
    ensures Parse(Render(Header(n, v))) == Ok(Header(n, v))
  {
    var value := n + [':'] + v;
    assert Render(Header(n, v)) == "header" + "=" + value;
    ParseAtFirstEquals("header", value);
    LowerLiteral("header");
    HeaderValueSplits(n, v);
  }

  lemma HeaderValueSplits(n: string, v: string)
    requires ':' !in n
    ensures ParseKind("header", n + [':'] + v) == Ok(Header(n, v))
  {
    var value := n + [':'] + v;
    IndexOfAfter(n, ':', v);
    assert value[..|n|] == n;
    assert value[|n| + 1..] == v;
  }

  /** Text without '=' is rejected whatever else it holds. */
  lemma ParseWithoutEquals(s: string)
    requires '=' !in s
    ensures Parse(s) == Err(InvalidFormat)
  {
  }

  /** The kind is case-insensitive and only the first '=' separates it: `BEARER=a=b` carries token `a=b`. */
  lemma ParseBearerKeepsLaterEquals(kind: string, value: string)
    requires Lower(kind) == "bearer" && '=' !in kind
    ensures Parse(kind + "=" + value) == Ok(Bearer(value))
  {
    ParseAtFirstEquals(kind, value);
  }

  /** An api key value with a single part is rejected. */
  lemma ParseApiKeyNeedsTwoParts(value: string)
    requires ':' !in value
    ensures Parse("apikey=" + value) == Err(ApiKeyFormat)
  {
    assert "apikey=" + value == "apikey" + "=" + value;
    ParseAtFirstEquals("apikey", value);
    LowerLiteral("apikey");
    SplitNone(value, ':');
    assert ParseKind("apikey", value) == Err(ApiKeyFormat);
  }

  /** A header value without ':' is rejected. */
  lemma ParseHeaderNeedsColon(value: string)
    requires ':' !in value
    ensures Parse("header=" + value) == Err(HeaderFormat)
  {
    assert "header=" + value == "header" + "=" + value;
    ParseAtFirstEquals("header", value);
    LowerLiteral("header");
    assert IndexOf(value, ':').None?;
    assert ParseKind("header", value) == Err(HeaderFormat);
  }

  class AuthHandler {
    var authType: Option<string>
    var token: Option<string>
    var apiKeyName: Option<string>
    var apiKeyValue: Option<string>
    var apiKeyLocation: string
    var customHeaders: map<string, string>

    /** Each kind that has been set carries the fields it needs. */
    predicate Valid()
      reads this
    {
      (authType == Some("bearer") ==> token.Some?) &&
      (authType == Some("apikey") ==> apiKeyName.Some? && apiKeyValue.Some?)
    }

    constructor ()
      ensures Valid()
      ensures authType == None && token == None && apiKeyName == None && apiKeyValue == None
      ensures apiKeyLocation == "header" && customHeaders == map[]
      ensures Headers() == map[] && QueryParams() == map[]
    {
      authType := None;
      token := None;
      apiKeyName := None;
      apiKeyValue := None;
      apiKeyLocation := "header";
      customHeaders := map[];
    }

    /**
     * Stores one credential.  Every rejection happens before any field is assigned, so a
     * failed parse leaves the handler as it was.
     */
    method ParseAuthString(s: string) returns (r: Result<(), AuthError>)
      requires Valid()
      modifies this
      ensures Valid()
      ensures r.Err? <==> Parse(s).Err?
      ensures r.Err? ==> r.error == Parse(s).error && unchanged(this)
      ensures Parse(s).Ok? && Parse(s).value.Bearer? ==>
        authType == Some("bearer") && token == Some(Parse(s).value.token) &&
        apiKeyName == old(apiKeyName) && apiKeyValue == old(apiKeyValue) &&
        apiKeyLocation == old(apiKeyLocation) && customHeaders == old(customHeaders)
      ensures Parse(s).Ok? && Parse(s).value.ApiKey? ==>
        var c := Parse(s).value;
        authType == Some("apikey") && apiKeyName == Some(c.name) && apiKeyValue == Some(c.value) &&
        apiKeyLocation == c.location.GetOr(old(apiKeyLocation)) &&
        token == old(token) && customHeaders == old(customHeaders)
      ensures Parse(s).Ok? && Parse(s).value.Header? ==>
        var c := Parse(s).value;
        authType == Some("header") && customHeaders == old(customHeaders)[c.name := c.value] &&
        token == old(token) && apiKeyName == old(apiKeyName) && apiKeyValue == old(apiKeyValue) &&
        apiKeyLocation == old(apiKeyLocation)
    {
      var eq := IndexOf(s, '=');
      if eq.None? {
        return Err(InvalidFormat);
      }
      var kind := Lower(s[..eq.value]);
      var value := s[eq.value + 1..];
      assert Parse(s) == ParseKind(kind, value);
      if kind == "bearer" {
        authType := Some("bearer");
        token := Some(value);
      } else if kind == "apikey" {
        var keyParts := Split(value, ':');
        if |keyParts| < 2 {
          return Err(ApiKeyFormat);
        }
        authType := Some("apikey");
        apiKeyName := Some(keyParts[0]);
        apiKeyValue := Some(keyParts[1]);
        if |keyParts| > 2 {
          apiKeyLocation := Lower(keyParts[2]);
        }
      } else if kind == "header" {
        var colon := IndexOf(value, ':');
        if colon.None? {
          return Err(HeaderFormat);
        }
        authType := Some("header");
        customHeaders := customHeaders[value[..colon.value] := value[colon.value + 1..]];
      } else {
        return Err(UnsupportedType(kind));
      }
      return Ok(());
    }

    /** The bearer token is sent when the kind is bearer and the token is non-empty. */
    predicate SendsBearer()
      reads this
    {
      authType == Some("bearer") && token.Some? && token.value != ""
    }

    /** The api key is sent when the kind is apikey and the value is non-empty. */
    predicate SendsApiKey(location: string)
      reads this
    {
      authType == Some("apikey") && apiKeyName.Some? && apiKeyValue.Some? &&
      apiKeyValue.value != "" && apiKeyLocation == location
    }

    /**
     * Request headers: the bearer Authorization header or a header-located api key, then
     * the custom headers, which override a header of the same name.
     */
    function Headers(): (h: map<string, string>)
      reads this
      ensures forall k :: k in customHeaders ==> k in h && h[k] == customHeaders[k]
      ensures SendsBearer() && "Authorization" !in customHeaders ==>
        "Authorization" in h && h["Authorization"] == "Bearer " + token.value
      ensures SendsApiKey("header") && apiKeyName.value !in customHeaders ==>
        apiKeyName.value in h && h[apiKeyName.value] == apiKeyValue.value
      ensures forall k :: k in h && k !in customHeaders ==>
        (SendsBearer() && k == "Authorization") || (SendsApiKey("header") && k == apiKeyName.value)
    {
      var base :=
        if SendsBearer() then map["Authorization" := "Bearer " + token.value]
        else if SendsApiKey("header") then map[apiKeyName.value := apiKeyValue.value]
        else map[];
      base + customHeaders
    }

    /** Query parameters: only a query-located api key. */
    function QueryParams(): (q: map<string, string>)
      reads this
      ensures forall k :: k in q <==> SendsApiKey("query") && k == apiKeyName.value
      ensures forall k :: k in q ==> q[k] == apiKeyValue.value
    {
      if SendsApiKey("query") then map[apiKeyName.value := apiKeyValue.value] else map[]
    }
  }

  /** An api key placed anywhere but 'header' or 'query' is sent nowhere. */
  lemma ApiKeyOtherLocation(h: AuthHandler)
    requires h.authType == Some("apikey") && h.apiKeyLocation != "header" && h.apiKeyLocation != "query"
    ensures h.QueryParams() == map[]
    ensures h.Headers() == h.customHeaders
  {
  }

  /** A bearer credential never produces query parameters. */
  lemma BearerHasNoQueryParams(h: AuthHandler)
    requires h.authType == Some("bearer")
    ensures h.QueryParams() == map[]
  {
  }
}
