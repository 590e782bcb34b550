// Structural checks on an OpenAPI / Swagger document (apitest/validator.py).

module Validator {
  import opened Wrappers
  import opened Json
  import opened Strings

  datatype ValidationResult = ValidationResult(isValid: bool, errors: seq<string>, warnings: seq<string>)

  /** The dataclass constructor: warnings given as None become an empty list. */
  function NewValidationResult(isValid: bool, errors: seq<string>, warnings: Option<seq<string>>): (r: ValidationResult)
    ensures warnings.None? ==> r.warnings == []
    ensures warnings.Some? ==> r.warnings == warnings.value
    ensures r.isValid == isValid && r.errors == errors
  {
    ValidationResult(isValid, errors, warnings.GetOr([]))
  }

  const HttpMethods: seq<string> := ["get", "post", "put", "delete", "patch", "head", "options"]

  predicate HasHttpMethod(item: Entries) {
    exists k :: 0 <= k < |HttpMethods| && HasKey(item, HttpMethods[k])
  }

  /** The error one path item contributes, if any. */
  function PathItemErrors(path: string, item: Value): (errs: seq<string>)
    ensures |errs| <= 1
    ensures errs == [] <==> item.Dict? && HasHttpMethod(item.entries)
  {
    if !item.Dict? then [NotObjectError(path)]
    else if !HasHttpMethod(item.entries) then [NoMethodError(path)]
    else []
  }

  /** The error for a path item that is not a dict. */
  function NotObjectError(path: string): string {
    "Path '" + path + "' must be an object"
  }

  /** The error for a path item without an HTTP method. */
  function NoMethodError(path: string): string {
    "Path '" + path + "' must define at least one HTTP method"
  }

  /** The errors of the path loop, for the items in order. */
  function PathErrors(paths: Entries): (errs: seq<string>)
    ensures |errs| <= |paths|
    decreases |paths|
  {
    if paths == [] then []
    else PathErrors(paths[..|paths| - 1]) + PathItemErrors(paths[|paths| - 1].0, paths[|paths| - 1].1)
  }

  /** One more path item adds its own errors. */
  lemma PathErrorsStep(paths: Entries, i: nat)
    requires i < |paths|
    ensures PathErrors(paths[..i + 1]) == PathErrors(paths[..i]) + PathItemErrors(paths[i].0, paths[i].1)
  {
    assert paths[..i + 1][..i] == paths[..i];
  }

  /** No path errors exactly when every path item is a dict with at least one HTTP method. */
  lemma {:induction false} PathErrorsEmpty(paths: Entries)
    ensures PathErrors(paths) == [] <==>
      forall i :: 0 <= i < |paths| ==> paths[i].1.Dict? && HasHttpMethod(paths[i].1.entries)
    decreases |paths|
  {
    if paths != [] {
      var init := paths[..|paths| - 1];
      PathErrorsEmpty(init);
      assert forall i :: 0 <= i < |init| ==> init[i] == paths[i];
    }
  }

  /** The info-section check of `_validate_openapi3`; None stands for an exception. */
  function InfoErrors(schema: Entries): (r: Option<seq<string>>)
    ensures !HasKey(schema, "info") ==> r == Some(["OpenAPI 3.0 requires 'info' section"])
    ensures HasKey(schema, "info") && Lookup(schema, "info").value.Dict? ==>
      r == if HasKey(Lookup(schema, "info").value.entries, "title") then Some([])
           else Some(["'info' section must contain 'title'"])
  {
    if !HasKey(schema, "info") then Some(["OpenAPI 3.0 requires 'info' section"])
    else
      match PyIn("title", Lookup(schema, "info").value)
      case None => None
      case Some(found) => if found then Some([]) else Some(["'info' section must contain 'title'"])
  }

  /**
   * `_validate_openapi3`: an info section with a title, then one error per bad path item.
   * None stands for an exception ('info' or 'paths' of the wrong type).
   */
  function OpenApi3Errors(schema: Entries): (r: Option<seq<string>>)
  {
    var paths := GetOr(Dict(schema), "paths", EmptyDict);
    match InfoErrors(schema)
    case None => None
    case Some(infoErrors) => if !paths.Dict? then None else Some(infoErrors + PathErrors(paths.entries))
  }

  /** `_validate_swagger2`: 'info' and 'host' are required. */
  function Swagger2Errors(schema: Entries): (errs: seq<string>)
    ensures errs == [] <==> HasKey(schema, "info") && HasKey(schema, "host")
  {
    (if !HasKey(schema, "info") then ["Swagger 2.0 requires 'info' section"] else [])
    + (if !HasKey(schema, "host") then ["Swagger 2.0 requires 'host' field"] else [])
  }

  /** `schema.get('openapi') or schema.get('swagger', '')`. */
  function Version(schema: Entries): Value {
    var openapi := GetOr(Dict(schema), "openapi", Null);
    if Truthy(openapi) then openapi else GetOr(Dict(schema), "swagger", Str(""))
  }

  /** The errors and warnings the version check adds; None stands for an exception. */
  function VersionFindings(schema: Entries): (r: Option<(seq<string>, seq<string>)>)
    ensures !Truthy(Version(schema)) ==> r == Some(([], []))
  {
    var version := Version(schema);
    if !Truthy(version) then Some(([], []))
    else if !version.Str? then None
    else if StartsWith(version.s, "3.") then
      match OpenApi3Errors(schema)
      case None => None
      case Some(errs) => Some((errs, []))
    else if StartsWith(version.s, "2.") then Some((Swagger2Errors(schema), []))
    else Some(([], ["Unsupported OpenAPI version: " + version.s]))
  }

  /** `validate`: the version, version-specific and paths checks, in that order. */
  function ValidateSpec(schema: Entries): (r: Option<ValidationResult>)
    ensures r.Some? ==> (r.value.isValid <==> r.value.errors == [])
    ensures r.Some? && !HasKey(schema, "openapi") && !HasKey(schema, "swagger") ==>
      r.value.errors != [] && r.value.errors[0] == "Schema must specify 'openapi' (v3) or 'swagger' (v2) version" && !r.value.isValid
    ensures r.Some? && !HasKey(schema, "paths") ==>
      r.value.errors != [] && r.value.errors[|r.value.errors| - 1] == "Schema must contain 'paths' section" && !r.value.isValid
    ensures r.Some? && HasKey(schema, "paths") && !Truthy(Lookup(schema, "paths").value) ==>
      r.value.warnings != [] && r.value.warnings[|r.value.warnings| - 1] == "Schema has no endpoints defined in 'paths'"
    ensures r.Some? && HasKey(schema, "paths") && Truthy(Lookup(schema, "paths").value) ==>
      VersionFindings(schema).Some? && r.value.warnings == VersionFindings(schema).value.1
  {
    var missing := if !HasKey(schema, "openapi") && !HasKey(schema, "swagger")
      then ["Schema must specify 'openapi' (v3) or 'swagger' (v2) version"] else [];
    match VersionFindings(schema)
    case None => None
    case Some((versionErrors, versionWarnings)) =>
      var pathErrors := if !HasKey(schema, "paths") then ["Schema must contain 'paths' section"] else [];
      var pathWarnings := if HasKey(schema, "paths") && !Truthy(Lookup(schema, "paths").value)
        then ["Schema has no endpoints defined in 'paths'"] else [];
      var errors := missing + versionErrors + pathErrors;
      var warnings := versionWarnings + pathWarnings;
      Some(ValidationResult(errors == [], errors, warnings))
  }

  /** A version other than 2.x or 3.x adds a warning and no error. */
  lemma UnsupportedVersionOnlyWarns(schema: Entries)
    requires Version(schema).Str? && Version(schema).s != ""
    requires !StartsWith(Version(schema).s, "3.") && !StartsWith(Version(schema).s, "2.")
    requires HasKey(schema, "paths") && Truthy(Lookup(schema, "paths").value)
    ensures ValidateSpec(schema).Some?
    ensures ValidateSpec(schema).value.isValid
    ensures ValidateSpec(schema).value.warnings == ["Unsupported OpenAPI version: " + Version(schema).s]
  {
  }

  /** A 3.x document with a titled info section and good path items is valid. */
  lemma OpenApi3Valid(schema: Entries, version: string, info: Entries, paths: Entries)
    requires Lookup(schema, "openapi") == Some(Str(version)) && StartsWith(version, "3.")
    requires Lookup(schema, "info") == Some(Dict(info)) && HasKey(info, "title")
    requires Lookup(schema, "paths") == Some(Dict(paths)) && paths != []
    requires forall i :: 0 <= i < |paths| ==> paths[i].1.Dict? && HasHttpMethod(paths[i].1.entries)
    ensures ValidateSpec(schema) == Some(ValidationResult(true, [], []))
  {
    OpenApi3NoErrors(schema, info, paths);
    assert Version(schema) == Str(version) by {
      assert version != [];
    }
    assert VersionFindings(schema) == Some(([], []));
    CleanFindingsValid(schema);
  }

  /** A titled info section and good path items give no 3.x errors. */
  lemma OpenApi3NoErrors(schema: Entries, info: Entries, paths: Entries)
    requires Lookup(schema, "info") == Some(Dict(info)) && HasKey(info, "title")
    requires Lookup(schema, "paths") == Some(Dict(paths))
    requires forall i :: 0 <= i < |paths| ==> paths[i].1.Dict? && HasHttpMethod(paths[i].1.entries)
    ensures OpenApi3Errors(schema) == Some([])
  {
    PathErrorsEmpty(paths);
    assert InfoErrors(schema) == Some([]);
    assert GetOr(Dict(schema), "paths", EmptyDict) == Dict(paths);
    assert PathErrors(paths) == [] && [] + PathErrors(paths) == [];
  }

  /** With a version and a non-empty 'paths', no version findings means a valid schema with no warnings. */
  lemma CleanFindingsValid(schema: Entries)
    requires VersionFindings(schema) == Some(([], [])) && HasKey(schema, "openapi")
    requires HasKey(schema, "paths") && Truthy(Lookup(schema, "paths").value)
    ensures ValidateSpec(schema) == Some(ValidationResult(true, [], []))
  {
  }

  class SchemaValidator {
    constructor ()
    {
    }

    /** `_validate_openapi3`, appending to a local list. */
    method ValidateOpenApi3(schema: Entries) returns (r: Option<seq<string>>)
      ensures r == OpenApi3Errors(schema)
    {
      var info := InfoErrors(schema);
      if info.None? {
        return None;
      }
      var errors := info.value;
      var paths := GetOr(Dict(schema), "paths", EmptyDict);
      if !paths.Dict? {
        return None;
      }
      errors := AppendPathErrors(errors, paths.entries);
      return Some(errors);
    }

    /** The loop of `_validate_openapi3` over the path items, appending their errors. */
    method AppendPathErrors(start: seq<string>, entries: Entries) returns (errors: seq<string>)
      ensures errors == start + PathErrors(entries)
    {
      errors := start;
      var i := 0;
      while i < |entries|
        invariant 0 <= i <= |entries|
        invariant errors == start + PathErrors(entries[..i])
      {
        var (path, item) := entries[i];
        ghost var before := errors;
        if !item.Dict? {
          errors := errors + [NotObjectError(path)];
        } else {
          if !HasHttpMethod(item.entries) {
            errors := errors + [NoMethodError(path)];
          }
        }
        assert errors == before + PathItemErrors(path, item);
        PathErrorsStep(entries, i);
        assert (start + PathErrors(entries[..i])) + PathItemErrors(path, item) == start + (PathErrors(entries[..i]) + PathItemErrors(path, item));
        i := i + 1;
      }
      assert entries[..i] == entries;
    }

    /** `validate`, appending to local error and warning lists. */
    method Validate(schema: Entries) returns (r: Option<ValidationResult>)
      ensures r == ValidateSpec(schema)
    {
      var errors: seq<string> := [];
      var warnings: seq<string> := [];
      if !HasKey(schema, "openapi") && !HasKey(schema, "swagger") {
        errors := errors + ["Schema must specify 'openapi' (v3) or 'swagger' (v2) version"];
      }
      var version := Version(schema);
      ghost var findings := VersionFindings(schema);
      ghost var before := errors;
      if Truthy(version) {
        if !version.Str? {
          return None;
        }
        if StartsWith(version.s, "3.") {
          var more := ValidateOpenApi3(schema);
          if more.None? {
            return None;
          }
          errors := errors + more.value;
        } else if StartsWith(version.s, "2.") {
          errors := errors + Swagger2Errors(schema);
        } else {
          warnings := warnings + ["Unsupported OpenAPI version: " + version.s];
        }
      }
      assert findings.Some? && errors == before + findings.value.0 && warnings == findings.value.1;
      ghost var afterVersion := errors;
      ghost var versionWarnings := warnings;
      if !HasKey(schema, "paths") {
        errors := errors + ["Schema must contain 'paths' section"];
      } else if !Truthy(Lookup(schema, "paths").value) {
        warnings := warnings + ["Schema has no endpoints defined in 'paths'"];
      }
      assert errors == afterVersion + (if !HasKey(schema, "paths") then ["Schema must contain 'paths' section"] else []);
      assert warnings == versionWarnings + (if HasKey(schema, "paths") && !Truthy(Lookup(schema, "paths").value)
        then ["Schema has no endpoints defined in 'paths'"] else []);
      assert before == if !HasKey(schema, "openapi") && !HasKey(schema, "swagger")
        then ["Schema must specify 'openapi' (v3) or 'swagger' (v2) version"] else [];
      assert errors == before + findings.value.0 + (if !HasKey(schema, "paths") then ["Schema must contain 'paths' section"] else []);
      return Some(NewValidationResult(|errors| == 0, errors, Some(warnings)));
    }
  }
}
