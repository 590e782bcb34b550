// Token cache kept in the operating system's keyring (apitest/storage/token_store.py).
//
// The keyring is a map from (service, key name) to a stored secret; the clock and the file
// system are passed in as parameters. A timestamp is a count of seconds; its text form is
// the decimal numeral standing for `isoformat()`.

module TokenStore {
  import opened Wrappers
  import opened Json
  import opened Strings

  const KeyringService := "apitest-cli"

  /** Key name of an identifier's token entry. */
  function TokenKey(identifier: string): (k: string)
    ensures |k| >= 6 && k[..6] == "token:" && k[6..] == identifier
  {
    "token:" + identifier
  }

  /** Key name of an identifier's metadata entry. */
  function MetadataKey(identifier: string): (k: string)
    ensures |k| >= 9 && k[..9] == "metadata:" && k[9..] == identifier
  {
    "metadata:" + identifier
  }

  /** The two key names of one identifier never coincide with any key name of another identifier. */
  lemma KeysSeparate(a: string, b: string)
    ensures TokenKey(a) != MetadataKey(b)
    ensures TokenKey(a) == TokenKey(b) <==> a == b
    ensures MetadataKey(a) == MetadataKey(b) <==> a == b
  {
    assert TokenKey(a)[0] == 't' && MetadataKey(b)[0] == 'm';
    if TokenKey(a) == TokenKey(b) {
      assert a == TokenKey(a)[6..] == TokenKey(b)[6..] == b;
    }
    if MetadataKey(a) == MetadataKey(b) {
      assert a == MetadataKey(a)[9..] == MetadataKey(b)[9..] == b;
    }
  }

  /**
   * What the keyring holds under one key: plain text, or a dict that was serialised with
   * `json.dumps` (the model keeps the dict itself, since `json.loads` gives it back).
   */
  datatype Secret = Text(text: string) | Serialized(doc: Entries)

  /** The password text the keyring returns for a stored secret. */
  function SecretText(s: Secret): (text: string)
    ensures s.Serialized? ==> text != ""
  {
    match s
    case Text(t) => t
    case Serialized(doc) => Repr(Dict(doc))
  }

  /** `isoformat()` of a timestamp. */
  function IsoFormat(t: nat): (s: string)
    ensures IsDigits(s)
  {
    NatToString(t)
  }

  /** `datetime.fromisoformat(s)`: None where it raises ValueError. */
  function FromIsoFormat(s: string): (r: Option<nat>)
    ensures r.Some? <==> IsDigits(s)
  {
    if IsDigits(s) then Some(ParseNat(s)) else None
  }

  /** Reading back a written timestamp gives the timestamp. */
  lemma IsoRoundTrip(t: nat)
    ensures FromIsoFormat(IsoFormat(t)) == Some(t)
  {
    ParseNatToString(t);
  }

  /**
   * The metadata dict `store_token` writes: the four fixed fields, then the caller's
   * metadata merged over them.
   */
  function MetadataDict(expiresAt: Option<nat>, refreshToken: Option<string>, tokenType: string,
                        extra: Entries, now: nat): (d: Entries)
  {
    Update([("token_type", Str(tokenType)),
            ("expires_at", if expiresAt.Some? then Str(IsoFormat(expiresAt.value)) else Null),
            ("refresh_token", if refreshToken.Some? then Str(refreshToken.value) else Null),
            ("created_at", Str(IsoFormat(now)))],
           extra)
  }

  /** A caller's metadata key overrides the field of the same name; the other fields are as written. */
  lemma MetadataFields(expiresAt: Option<nat>, refreshToken: Option<string>, tokenType: string,
                       extra: Entries, now: nat, k: string)
    requires UniqueKeys(extra)
    ensures var d := MetadataDict(expiresAt, refreshToken, tokenType, extra, now);
      HasKey(extra, k) ==> Lookup(d, k) == Lookup(extra, k)
    ensures var d := MetadataDict(expiresAt, refreshToken, tokenType, extra, now);
      !HasKey(extra, k) ==>
        (k == "token_type" ==> Lookup(d, k) == Some(Str(tokenType))) &&
        (k == "expires_at" ==> Lookup(d, k) == Some(if expiresAt.Some? then Str(IsoFormat(expiresAt.value)) else Null)) &&
        (k == "refresh_token" ==> Lookup(d, k) == Some(if refreshToken.Some? then Str(refreshToken.value) else Null)) &&
        (k == "created_at" ==> Lookup(d, k) == Some(Str(IsoFormat(now))))
  {
    var base := [("token_type", Str(tokenType)),
                 ("expires_at", if expiresAt.Some? then Str(IsoFormat(expiresAt.value)) else Null),
                 ("refresh_token", if refreshToken.Some? then Str(refreshToken.value) else Null),
                 ("created_at", Str(IsoFormat(now)))];
    UpdateLookup(base, extra, k);
    BaseLookups(base[0].1, base[1].1, base[2].1, base[3].1);
  }

  /** Each of the four base keys finds its own value, whatever the values are. */
  lemma BaseLookups(tokenType: Value, expiresAt: Value, refreshToken: Value, createdAt: Value)
    ensures var base := [("token_type", tokenType), ("expires_at", expiresAt),
                         ("refresh_token", refreshToken), ("created_at", createdAt)];
      Lookup(base, "token_type") == Some(tokenType) && Lookup(base, "expires_at") == Some(expiresAt) &&
      Lookup(base, "refresh_token") == Some(refreshToken) && Lookup(base, "created_at") == Some(createdAt)
  {
    var base := [("token_type", tokenType), ("expires_at", expiresAt),
                 ("refresh_token", refreshToken), ("created_at", createdAt)];
    LookupAt(base, 1);
    LookupAt(base, 2);
    LookupAt(base, 3);
  }

  /** How `store_token` ended. */
  datatype StoreError = BackendError

  /** `create_identifier`; `absolutePath` is the absolute path when the schema file exists. */
  function CreateIdentifier(schemaFile: string, absolutePath: Option<string>, baseUrl: string, authType: string): (id: string)
    ensures absolutePath.None? ==> |id| > |schemaFile| && id[..|schemaFile|] == schemaFile
    ensures EndsWith(id, ":" + authType)
  {
    var schema := absolutePath.GetOr(schemaFile);
    var r := schema + ":" + RStrip(baseUrl, '/') + ":" + authType;
    assert r[|r| - |":" + authType|..] == ":" + authType;
    r
  }

  /** Identifiers for base URLs that differ only in trailing slashes coincide. */
  lemma TrailingSlashIgnored(schemaFile: string, absolutePath: Option<string>, baseUrl: string, authType: string)
    ensures CreateIdentifier(schemaFile, absolutePath, baseUrl + "/", authType)
         == CreateIdentifier(schemaFile, absolutePath, baseUrl, authType)
  {
    assert (baseUrl + "/")[..|baseUrl + "/"| - 1] == baseUrl;
  }

  class TokenStore {
    const service: string
    /** The keyring's entries, shared by every service. */
    var keyring: map<(string, string), Secret>
    /** Whether the keyring backend works; when it does not, every keyring call raises. */
    var available: bool

    constructor (service: string, keyring: map<(string, string), Secret>, available: bool)
      ensures this.service == service && this.keyring == keyring && this.available == available
    {
      this.service := service;
      this.keyring := keyring;
      this.available := available;
    }

    /** `keyring.get_password`: the text stored under a key of this service, if any. */
    function Password(key: string): (p: Option<string>)
      reads this
      requires available
      ensures p.Some? <==> (service, key) in keyring
    {
      if (service, key) in keyring then Some(SecretText(keyring[(service, key)])) else None
    }

    /** `store_token`: writes the token entry, then the metadata entry; a backend failure is raised. */
    method StoreToken(identifier: string, token: string, expiresAt: Option<nat>, refreshToken: Option<string>,
                      tokenType: string, metadata: Entries, now: nat) returns (r: Result<(), StoreError>)
      modifies this
      ensures old(available) ==> r.Ok? && keyring == old(keyring)
        [(service, TokenKey(identifier)) := Text(token)]
        [(service, MetadataKey(identifier)) := Serialized(MetadataDict(expiresAt, refreshToken, tokenType, metadata, now))]
      ensures !old(available) ==> r.Err? && keyring == old(keyring)
      ensures available == old(available)
    {
      if !available {
        return Err(BackendError);
      }
      keyring := keyring[(service, TokenKey(identifier)) := Text(token)];
      var dict := MetadataDict(expiresAt, refreshToken, tokenType, metadata, now);
      keyring := keyring[(service, MetadataKey(identifier)) := Serialized(dict)];
      return Ok(());
    }

    /**
     * `get_token_metadata`: the stored dict; None when the entry is missing or empty, when its
     * text is not JSON, or when the backend fails.
     */
    function GetTokenMetadata(identifier: string): (m: Option<Entries>)
      reads this
      ensures m.Some? ==> available && (service, MetadataKey(identifier)) in keyring
      ensures m.Some? ==> keyring[(service, MetadataKey(identifier))] == Serialized(m.value)
    {
      if !available then None
      else
        match Password(MetadataKey(identifier))
        case None => None
        case Some(text) =>
          if text == "" then None
          else
            match keyring[(service, MetadataKey(identifier))]
            case Serialized(doc) => Some(doc)
            case Text(_) => None
    }

    /**
     * `is_token_expired` at time `now`: Ok(false) without metadata or without a truthy
     * expires_at, or when it does not parse; otherwise whether `now` has reached it.
     * Err stands for the TypeError raised when a caller's expires_at is truthy but not a string.
     */
    function IsTokenExpired(identifier: string, now: nat): (r: Result<bool, ()>)
      reads this
      ensures GetTokenMetadata(identifier).None? ==> r == Ok(false)
      ensures r == Ok(true) <==> (GetTokenMetadata(identifier).Some? &&
        var e := GetOr(Dict(GetTokenMetadata(identifier).value), "expires_at", Null);
        e.Str? && FromIsoFormat(e.s).Some? && now >= FromIsoFormat(e.s).value)
      ensures r.Err? <==> (GetTokenMetadata(identifier).Some? &&
        var e := GetOr(Dict(GetTokenMetadata(identifier).value), "expires_at", Null); Truthy(e) && !e.Str?)
    {
      match GetTokenMetadata(identifier)
      case None => Ok(false)
      case Some(metadata) =>
        var expires := GetOr(Dict(metadata), "expires_at", Null);
        if metadata == [] || !Truthy(expires) then Ok(false)
        else
          if !expires.Str? then Err(())
          else
            match FromIsoFormat(expires.s)
            case None => Ok(false)
            case Some(t) => Ok(now >= t)
    }

    /** `get_token` at time `now`: the stored token unless it is missing, empty or expired. */
    function GetToken(identifier: string, now: nat): (t: Option<string>)
      reads this
      ensures t.Some? <==>
        available && (service, TokenKey(identifier)) in keyring &&
        SecretText(keyring[(service, TokenKey(identifier))]) != "" &&
        IsTokenExpired(identifier, now) == Ok(false)
      ensures t.Some? ==> t.value == SecretText(keyring[(service, TokenKey(identifier))])
    {
      if !available then None
      else
        match Password(TokenKey(identifier))
        case None => None
        case Some(token) =>
          if token == "" then None
          else if IsTokenExpired(identifier, now) != Ok(false) then None
          else Some(token)
    }

    /** `get_refresh_token`: the metadata's refresh_token (None for a missing or null one). */
    function GetRefreshToken(identifier: string): (t: Option<Value>)
      reads this
      ensures GetTokenMetadata(identifier).None? ==> t.None?
      ensures t.Some? <==> (GetTokenMetadata(identifier).Some? &&
        Lookup(GetTokenMetadata(identifier).value, "refresh_token").Some? &&
        Lookup(GetTokenMetadata(identifier).value, "refresh_token").value != Null)
      ensures t.Some? ==> t.value == Lookup(GetTokenMetadata(identifier).value, "refresh_token").value
    {
      match GetTokenMetadata(identifier)
      case None => None
      case Some(metadata) =>
        match Lookup(metadata, "refresh_token")
        case Some(v) => if v == Null then None else Some(v)
        case None => None
    }

    /** `token_exists`: whether `get_token` finds a live token. */
    predicate TokenExists(identifier: string, now: nat)
      reads this
      ensures TokenExists(identifier, now) ==>
        available && (service, TokenKey(identifier)) in keyring && SecretText(keyring[(service, TokenKey(identifier))]) != ""
      ensures TokenExists(identifier, now) ==> IsTokenExpired(identifier, now) == Ok(false)
    {
      GetToken(identifier, now).Some?
    }

    /**
     * `delete_token`: deletes the token entry, then the metadata entry; deleting a missing
     * entry raises, which is logged and ends the deletion.
     */
    method DeleteToken(identifier: string)
      modifies this
      ensures available == old(available)
      ensures !old(available) || (service, TokenKey(identifier)) !in old(keyring) ==> keyring == old(keyring)
      ensures old(available) && (service, TokenKey(identifier)) in old(keyring) ==>
        keyring == old(keyring) - {(service, TokenKey(identifier)), (service, MetadataKey(identifier))}
    {
      if !available || (service, TokenKey(identifier)) !in keyring {
        return;
      }
      keyring := keyring - {(service, TokenKey(identifier))};
      if (service, MetadataKey(identifier)) !in keyring {
        return;
      }
      keyring := keyring - {(service, MetadataKey(identifier))};
    }

    /** `list_token_identifiers`: listing is not supported, so it is always empty. */
    method ListTokenIdentifiers() returns (ids: seq<string>)
      ensures ids == []
    {
      ids := [];
    }
  }

  /** A token stored without expiry is returned by `get_token` at any later time. */
  lemma StoreThenGetNoExpiry(s: TokenStore, identifier: string, token: string, refreshToken: Option<string>,
                             tokenType: string, metadata: Entries, created: nat, now: nat)
    requires s.available && token != ""
    requires UniqueKeys(metadata) && !HasKey(metadata, "expires_at")
    requires (s.service, MetadataKey(identifier)) in s.keyring && s.keyring[(s.service, MetadataKey(identifier))] ==
      Serialized(MetadataDict(None, refreshToken, tokenType, metadata, created))
    requires (s.service, TokenKey(identifier)) in s.keyring && s.keyring[(s.service, TokenKey(identifier))] == Text(token)
    ensures s.GetToken(identifier, now) == Some(token)
  {
    MetadataFields(None, refreshToken, tokenType, metadata, created, "expires_at");
  }

  /** A token stored with expiry `e` is returned exactly while the clock is before `e`. */
  lemma StoreThenGetWithExpiry(s: TokenStore, identifier: string, token: string, e: nat, refreshToken: Option<string>,
                               tokenType: string, metadata: Entries, created: nat, now: nat)
    requires s.available && token != ""
    requires UniqueKeys(metadata) && !HasKey(metadata, "expires_at")
    requires (s.service, MetadataKey(identifier)) in s.keyring && s.keyring[(s.service, MetadataKey(identifier))] ==
      Serialized(MetadataDict(Some(e), refreshToken, tokenType, metadata, created))
    requires (s.service, TokenKey(identifier)) in s.keyring && s.keyring[(s.service, TokenKey(identifier))] == Text(token)
    ensures s.GetToken(identifier, now) == (if now < e then Some(token) else None)
  {
    MetadataFields(Some(e), refreshToken, tokenType, metadata, created, "expires_at");
    IsoRoundTrip(e);
    assert IsoFormat(e) != "";
  }

  /** The refresh token passed to `store_token` is the one `get_refresh_token` returns. */
  lemma StoredRefreshToken(s: TokenStore, identifier: string, expiresAt: Option<nat>, refreshToken: string,
                           tokenType: string, metadata: Entries, created: nat)
    requires s.available
    requires UniqueKeys(metadata) && !HasKey(metadata, "refresh_token")
    requires (s.service, MetadataKey(identifier)) in s.keyring && s.keyring[(s.service, MetadataKey(identifier))] ==
      Serialized(MetadataDict(expiresAt, Some(refreshToken), tokenType, metadata, created))
    ensures s.GetRefreshToken(identifier) == Some(Str(refreshToken))
  {
    MetadataFields(expiresAt, Some(refreshToken), tokenType, metadata, created, "refresh_token");
    var d := MetadataDict(expiresAt, Some(refreshToken), tokenType, metadata, created);
    assert d != [] by {
      assert Lookup(d, "refresh_token").Some?;
    }
    assert Repr(Dict(d)) != "";
  }

  /** A stored non-empty token exists exactly while it has not expired; without expiry, always. */
  lemma StoreThenExists(s: TokenStore, identifier: string, token: string, expiresAt: Option<nat>,
                        refreshToken: Option<string>, tokenType: string, metadata: Entries, created: nat, now: nat)
    requires s.available && token != ""
    requires UniqueKeys(metadata) && !HasKey(metadata, "expires_at")
    requires (s.service, MetadataKey(identifier)) in s.keyring && s.keyring[(s.service, MetadataKey(identifier))] ==
      Serialized(MetadataDict(expiresAt, refreshToken, tokenType, metadata, created))
    requires (s.service, TokenKey(identifier)) in s.keyring && s.keyring[(s.service, TokenKey(identifier))] == Text(token)
    ensures s.TokenExists(identifier, now) <==> expiresAt.None? || now < expiresAt.value
  {
    if expiresAt.Some? {
      StoreThenGetWithExpiry(s, identifier, token, expiresAt.value, refreshToken, tokenType, metadata, created, now);
    } else {
      StoreThenGetNoExpiry(s, identifier, token, refreshToken, tokenType, metadata, created, now);
    }
  }
}
