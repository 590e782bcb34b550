// OpenAPI / Swagger document accessors (apitest/schema_parser.py).

module SchemaParser {
  import opened Wrappers
  import opened Json
  import opened Strings

  /** Why a schema file is refused. */
  datatype ParseError = FileNotFound | InvalidFormat | NotAnObject

  /**
   * `parse`, once the file has been read and decoded: `parsed` is None when the YAML or
   * JSON text does not decode.
   */
  function Parse(fileExists: bool, parsed: Option<Value>): (r: Result<Entries, ParseError>)
    ensures r.Ok? <==> fileExists && parsed.Some? && parsed.value.Dict?
    ensures r.Ok? ==> r.value == parsed.value.entries
    ensures !fileExists ==> r == Err(FileNotFound)
  {
    if !fileExists then Err(FileNotFound)
    else if parsed.None? then Err(InvalidFormat)
    else if !parsed.value.Dict? then Err(NotAnObject)
    else Ok(parsed.value.entries)
  }

  /** The Swagger 2.0 rule: `<first scheme, default https>://<host><basePath or ''>`. */
  function HostUrl(schema: Entries): (r: Option<Value>)
    requires HasKey(schema, "host")
    ensures r.Some? <==> Index0(GetOr(Dict(schema), "schemes", List([Str("https")]))).Some?
  {
    var doc := Dict(schema);
    match Index0(GetOr(doc, "schemes", List([Str("https")])))
    case None => None
    case Some(protocol) =>
      Some(Str(PyStr(protocol) + "://" + PyStr(Get(doc, "host").value) + PyStr(GetOr(doc, "basePath", Str("")))))
  }

  /** Without schemes and basePath, the host rule gives `https://<host>`. */
  lemma HostUrlDefaults(schema: Entries)
    requires HasKey(schema, "host") && !HasKey(schema, "schemes") && !HasKey(schema, "basePath")
    ensures HostUrl(schema) == Some(Str("https://" + PyStr(Lookup(schema, "host").value)))
  {
    var doc := Dict(schema);
    assert GetOr(doc, "schemes", List([Str("https")])) == List([Str("https")]);
    assert GetOr(doc, "basePath", Str("")) == Str("");
    assert "https" + "://" + PyStr(Get(doc, "host").value) + "" == "https://" + PyStr(Lookup(schema, "host").value);
  }

  /**
   * `get_base_url`: the first server of a non-empty `servers` (its 'url', or the string
   * itself), else the Swagger host rule, else ''. None stands for an exception.
   */
  function GetBaseUrl(schema: Entries): (r: Option<Value>)
    ensures !Truthy(GetOr(Dict(schema), "servers", Null)) && !HasKey(schema, "host") ==> r == Some(Str(""))
    ensures var servers := GetOr(Dict(schema), "servers", Null);
      servers.List? && servers.items != [] && servers.items[0].Dict? ==>
        r == Some(GetOr(servers.items[0], "url", Str("")))
    ensures var servers := GetOr(Dict(schema), "servers", Null);
      servers.List? && servers.items != [] && servers.items[0].Str? ==> r == Some(servers.items[0])
    ensures var servers := GetOr(Dict(schema), "servers", Null);
      servers.List? && servers.items != [] && !servers.items[0].Dict? && !servers.items[0].Str? ==>
        r == if HasKey(schema, "host") then HostUrl(schema) else Some(Str(""))
  {
    var doc := Dict(schema);
    var servers := GetOr(doc, "servers", Null);
    var first := if Truthy(servers) then Index0(servers) else Some(Null);
    if first.None? then None
    else if first.value.Dict? then Some(GetOr(first.value, "url", Str("")))
    else if first.value.Str? then Some(first.value)
    else if HasKey(schema, "host") then HostUrl(schema)
    else Some(Str(""))
  }

  /** `get_paths`: the 'paths' section, or an empty dict. */
  function GetPaths(schema: Entries): (r: Value)
    ensures !HasKey(schema, "paths") ==> r == EmptyDict
    ensures HasKey(schema, "paths") ==> Some(r) == Lookup(schema, "paths")
  {
    GetOr(Dict(schema), "paths", EmptyDict)
  }

  /** `get_security_schemes`: components.securitySchemes, or an empty dict; None when components is not a dict. */
  function GetSecuritySchemes(schema: Entries): (r: Option<Value>)
    ensures !HasKey(schema, "components") ==> r == Some(EmptyDict)
    ensures r.Some? <==> !HasKey(schema, "components") || Lookup(schema, "components").value.Dict?
    ensures HasKey(schema, "components") && Lookup(schema, "components").value.Dict? ==>
      r == Some(GetOr(Lookup(schema, "components").value, "securitySchemes", EmptyDict))
  {
    PyGet(GetOr(Dict(schema), "components", EmptyDict), "securitySchemes", EmptyDict)
  }

  /** `get_security_requirements`: the global 'security' list, or an empty list. */
  function GetSecurityRequirements(schema: Entries): (r: Value)
    ensures !HasKey(schema, "security") ==> r == List([])
    ensures HasKey(schema, "security") ==> Some(r) == Lookup(schema, "security")
  {
    GetOr(Dict(schema), "security", List([]))
  }
}
