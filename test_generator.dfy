// Request-body synthesis from an OpenAPI request body (apitest/core/test_generator.py).
// `APITester._generate_test_data` (apitest/tester.py) is the same algorithm and uses
// `PlainTestData` below.

module TestGenerator {
  import opened Wrappers
  import opened Json
  import opened Strings
  import Numbers

  // ---------------------------------------------------------------------------
  // One property

  /** `float(x)`: a number, or a string `float()` reads; None where it raises. */
  function ToFloat(v: Value): (r: Option<Value>)
    ensures r.Some? <==> IsNumber(v) || (v.Str? && Numbers.ParseFloat(v.s).Some?)
    ensures r.Some? ==> r.value.Float?
    ensures IsNumber(v) ==> r == Some(Float(AsNumber(v).value))
    ensures v.Str? && r.Some? ==> r == Some(Float(Numbers.ParseFloat(v.s).value))
  {
    match v
    case Int(i) => Some(Float(i as real))
    case Float(x) => Some(Float(x))
    case Bool(b) => Some(Float(if b then 1.0 else 0.0))
    case Str(s) => (if Numbers.ParseFloat(s).Some? then Some(Float(Numbers.ParseFloat(s).value)) else None)
    case _ => None
  }

  /** The value generated for a string property with the given format. */
  function StringSample(format: Value): (r: Value)
    ensures r.Str? && r.s != ""
    ensures !format.Str? ==> r == Str("test")
  {
    if format == Str("email") then Str("test@example.com")
    else if format == Str("date") then Str("2024-01-01")
    else if format == Str("date-time") then Str("2024-01-01T00:00:00Z")
    else if format == Str("uri") then Str("https://example.com")
    else if format == Str("uuid") then Str("123e4567-e89b-12d3-a456-426614174000")
    else Str("test")
  }

  /** The value of one nested property: 'test' for strings, 1 for integers, None otherwise. */
  function NestedValue(nestedType: Value): (r: Value)
    ensures r == Null <==> nestedType != Str("string") && nestedType != Str("integer")
  {
    if nestedType == Str("string") then Str("test")
    else if nestedType == Str("integer") then Int(1)
    else Null
  }

  /**
   * The nested object generated from `properties`, filled entry by entry; None stands for the
   * exception a nested schema that is not a dict raises.
   */
  function NestedSample(props: Entries): (r: Option<Entries>)
    ensures r.Some? <==> forall i :: 0 <= i < |props| ==> props[i].1.Dict?
    ensures r.Some? ==> forall k :: HasKey(r.value, k) <==> HasKey(props, k)
    decreases |props|
  {
    if props == [] then Some([])
    else
      var n := |props| - 1;
      var init := props[..n];
      assert forall i :: 0 <= i < n ==> init[i] == props[i];
      match NestedSample(init)
      case None => None
      case Some(nested) =>
        if !props[n].1.Dict? then None
        else
          var r := Put(nested, props[n].0, NestedValue(GetOr(props[n].1, "type", Str("string"))));
          assert forall k :: HasKey(r, k) <==> HasKey(props, k) by {
            forall k ensures HasKey(r, k) <==> HasKey(props, k) {
              HasKeyInit(props, k);
              PutHasKey(nested, props[n].0, NestedValue(GetOr(props[n].1, "type", Str("string"))), k);
            }
          }
          Some(r)
  }

  /** Each nested property holds the value its declared type (default 'string') calls for. */
  lemma {:induction false} NestedSampleValue(props: Entries, i: nat)
    requires UniqueKeys(props) && i < |props|
    requires NestedSample(props).Some?
    ensures Lookup(NestedSample(props).value, props[i].0) == Some(NestedValue(GetOr(props[i].1, "type", Str("string"))))
    decreases |props|
  {
    var n := |props| - 1;
    var init := props[..n];
    assert forall j :: 0 <= j < n ==> init[j] == props[j];
    assert UniqueKeys(init);
    if i < n {
      NestedSampleValue(init, i);
    }
  }

  /**
   * The value generated for one property: the outer None stands for an exception, the inner
   * None for a declared type the generator does not know, which writes no entry.  The order
   * of preference is the property's example, the first enum value, then the type default.
   */
  function PropertySample(ps: Value): (r: Option<Option<Value>>)
    ensures r.Some? ==> ps.Dict?
    ensures ps.Dict? && HasKey(ps.entries, "example") ==> r == Some(Lookup(ps.entries, "example"))
    ensures ps.Dict? && !HasKey(ps.entries, "example") && HasKey(ps.entries, "enum") ==>
      (Lookup(ps.entries, "enum").value.List? && Lookup(ps.entries, "enum").value.items != [] ==>
        r == Some(Some(Lookup(ps.entries, "enum").value.items[0])))
    ensures r.Some? ==> (r.value.Some? <==> KnownType(ps))
    ensures ps.Dict? && !HasKey(ps.entries, "example") && !HasKey(ps.entries, "enum") ==>
      (!HasKey(ps.entries, "type") && !HasKey(ps.entries, "format") ==> r == Some(Some(Str("test")))) &&
      (Lookup(ps.entries, "type") == Some(Str("integer")) ==> r == Some(Some(Lookup(ps.entries, "minimum").GetOr(Int(1))))) &&
      (Lookup(ps.entries, "type") == Some(Str("boolean")) ==> r == Some(Some(Bool(true)))) &&
      (Lookup(ps.entries, "type") == Some(Str("array")) && !HasKey(ps.entries, "items") ==> r == Some(Some(List([])))) &&
      (Lookup(ps.entries, "type") == Some(Str("object")) && !HasKey(ps.entries, "properties") ==> r == Some(Some(EmptyDict)))
  {
    if !ps.Dict? then None
    else if HasKey(ps.entries, "example") then Some(Lookup(ps.entries, "example"))
    else if HasKey(ps.entries, "enum") && Truthy(Lookup(ps.entries, "enum").value) then
      match Index0(Lookup(ps.entries, "enum").value)
      case None => None
      case Some(first) => Some(Some(first))
    else
      var t := GetOr(ps, "type", Str("string"));
      var format := GetOr(ps, "format", Str(""));
      if t == Str("string") then Some(Some(StringSample(format)))
      else if t == Str("integer") then Some(Some(if HasKey(ps.entries, "minimum") then Lookup(ps.entries, "minimum").value else Int(1)))
      else if t == Str("number") then
        if HasKey(ps.entries, "minimum") then
          match ToFloat(Lookup(ps.entries, "minimum").value)
          case None => None
          case Some(f) => Some(Some(f))
        else Some(Some(Float(1.0)))
      else if t == Str("boolean") then Some(Some(Bool(true)))
      else if t == Str("array") then
        var items := GetOr(ps, "items", EmptyDict);
        if !Truthy(items) then Some(Some(List([])))
        else if !items.Dict? then None
        else
          var it := GetOr(items, "type", Str("string"));
          Some(Some(if it == Str("string") then List([Str("test")]) else if it == Str("integer") then List([Int(1)]) else List([])))
      else if t == Str("object") then
        var nested := GetOr(ps, "properties", EmptyDict);
        if !Truthy(nested) then Some(Some(EmptyDict))
        else if !nested.Dict? then None
        else
          match NestedSample(nested.entries)
          case None => None
          case Some(obj) => Some(Some(Dict(obj)))
      else Some(None)
  }

  /** The property schemas the generator writes a value for. */
  predicate KnownType(ps: Value) {
    ps.Dict? &&
    (HasKey(ps.entries, "example") ||
     (HasKey(ps.entries, "enum") && Truthy(Lookup(ps.entries, "enum").value)) ||
     GetOr(ps, "type", Str("string")) in [Str("string"), Str("integer"), Str("number"), Str("boolean"), Str("array"), Str("object")])
  }

  // ---------------------------------------------------------------------------
  // All properties

  /** The loop over `properties`, writing `data[name]` entry by entry; None stands for an exception. */
  function SampleProperties(props: Entries): (r: Option<Entries>)
    ensures r.Some? <==> forall i :: 0 <= i < |props| ==> PropertySample(props[i].1).Some?
    ensures r.Some? ==> forall k :: HasKey(r.value, k) ==> HasKey(props, k)
    decreases |props|
  {
    if props == [] then Some([])
    else
      var n := |props| - 1;
      var init := props[..n];
      assert forall i :: 0 <= i < n ==> init[i] == props[i];
      match SampleProperties(init)
      case None => None
      case Some(data) =>
        match PropertySample(props[n].1)
        case None => None
        case Some(v) =>
          var r := if v.Some? then Put(data, props[n].0, v.value) else data;
          assert forall k :: HasKey(r, k) ==> HasKey(props, k) by {
            forall k | HasKey(r, k) ensures HasKey(props, k) {
              HasKeyInit(props, k);
              if v.Some? {
                PutHasKey(data, props[n].0, v.value, k);
              }
            }
          }
          Some(r)
  }

  /**
   * Every property gets the value `PropertySample` picks for it, and a property of unknown
   * type gets no entry at all.
   */
  lemma {:induction false} SampledValue(props: Entries, i: nat)
    requires UniqueKeys(props) && i < |props|
    requires SampleProperties(props).Some?
    ensures PropertySample(props[i].1).Some?
    ensures Lookup(SampleProperties(props).value, props[i].0) == PropertySample(props[i].1).value
    decreases |props|
  {
    var n := |props| - 1;
    SamplePropertiesSnoc(props);
    UniqueKeysInit(props);
    var data := SampleProperties(props[..n]).value;
    var v := PropertySample(props[n].1).value;
    if i < n {
      assert props[..n][i] == props[i];
      assert props[i].0 != props[n].0;
      SampledValue(props[..n], i);
      assert Lookup(SampleProperties(props).value, props[i].0) == Lookup(data, props[i].0);
    } else {
      assert !HasKey(data, props[n].0);
      assert Lookup(SampleProperties(props).value, props[n].0) == v;
    }
  }

  /** One more property: the data so far, with the property's value put when it has one. */
  lemma SamplePropertiesSnoc(props: Entries)
    requires props != [] && SampleProperties(props).Some?
    ensures var n := |props| - 1;
      SampleProperties(props[..n]).Some? && PropertySample(props[n].1).Some? &&
      SampleProperties(props).value ==
        if PropertySample(props[n].1).value.Some? then
          Put(SampleProperties(props[..n]).value, props[n].0, PropertySample(props[n].1).value.value)
        else SampleProperties(props[..n]).value
  {
  }

  /** When every property has an example, an enum or a known type, the keys are the property names in order. */
  lemma {:induction false} KnownTypesAllSampled(props: Entries)
    requires UniqueKeys(props)
    requires forall i :: 0 <= i < |props| ==> KnownType(props[i].1)
    requires SampleProperties(props).Some?
    ensures Keys(SampleProperties(props).value) == Keys(props)
    decreases |props|
  {
    if props != [] {
      KnownTypesInit(props);
      KnownTypesAllSampled(props[..|props| - 1]);
      KnownTypeStep(props);
    }
  }

  /** Without its last property, a sampled list of known-type properties still meets the same conditions. */
  lemma KnownTypesInit(props: Entries)
    requires props != [] && UniqueKeys(props)
    requires forall i :: 0 <= i < |props| ==> KnownType(props[i].1)
    requires SampleProperties(props).Some?
    ensures var init := props[..|props| - 1];
      UniqueKeys(init) && (forall i :: 0 <= i < |init| ==> KnownType(init[i].1)) && SampleProperties(init).Some?
  {
    var n := |props| - 1;
    SamplePropertiesSnoc(props);
    UniqueKeysInit(props);
    assert forall j :: 0 <= j < n ==> props[..n][j] == props[j];
  }

  /** The step of `KnownTypesAllSampled`: a last property of known type adds its name. */
  lemma KnownTypeStep(props: Entries)
    requires props != [] && UniqueKeys(props) && KnownType(props[|props| - 1].1)
    requires SampleProperties(props).Some?
    requires Keys(SampleProperties(props[..|props| - 1]).value) == Keys(props[..|props| - 1])
    ensures Keys(SampleProperties(props).value) == Keys(props)
  {
    var n := |props| - 1;
    var init := props[..n];
    var last := props[n];
    SplitLast(props);
    SamplePropertiesSnoc(props);
    UniqueKeysInit(props);
    var data := SampleProperties(init).value;
    var v := PropertySample(last.1).value;
    assert !HasKey(data, last.0) by {
      assert HasKey(data, last.0) ==> HasKey(init, last.0);
    }
    PutNewKeys(data, init, last.0, v.value, last);
  }



  // ---------------------------------------------------------------------------
  // The request body

  /** The 'application/json' media type of the request body and its schema; None stands for an exception. */
  function JsonContent(requestBody: Value): (r: Option<(Entries, Value)>)
    ensures r.Some? ==> requestBody.Dict?
  {
    match PyGet(requestBody, "content", EmptyDict)
    case None => None
    case Some(content) =>
      match PyGet(content, "application/json", EmptyDict)
      case None => None
      case Some(jsonContent) =>
        match PyGet(jsonContent, "schema", EmptyDict)
        case None => None
        case Some(schema) => Some((jsonContent.entries, schema))
  }

  /**
   * The example the media type supplies: its 'example', else the first of its 'examples'
   * (the 'value' inside it when it is a dict holding one). Some(None) when there is none,
   * None for an exception.
   */
  function ContentExample(jsonContent: Entries): (r: Option<Option<Value>>)
    ensures HasKey(jsonContent, "example") ==> r == Some(Lookup(jsonContent, "example"))
    ensures r == Some(None) <==> !HasKey(jsonContent, "example") && !(HasKey(jsonContent, "examples") && Truthy(Lookup(jsonContent, "examples").value))
  {
    if HasKey(jsonContent, "example") then Some(Lookup(jsonContent, "example"))
    else if HasKey(jsonContent, "examples") && Truthy(Lookup(jsonContent, "examples").value) then
      var examples := Lookup(jsonContent, "examples").value;
      if !examples.Dict? then None
      else
        var first := examples.entries[0].1;
        if first.Dict? && HasKey(first.entries, "value") then Some(Lookup(first.entries, "value"))
        else Some(Some(first))
    else Some(None)
  }

  /**
   * The schema-based generator: a content example wins, otherwise one value per property.
   * None stands for an exception.
   */
  function PlainTestData(requestBody: Value): (r: Option<Value>)
    ensures JsonContent(requestBody).Some? && HasKey(JsonContent(requestBody).value.0, "example") ==>
      r == Lookup(JsonContent(requestBody).value.0, "example")
    ensures var jc := JsonContent(requestBody);
      jc.Some? && !HasKey(jc.value.0, "example") && HasKey(jc.value.0, "examples") &&
      Lookup(jc.value.0, "examples").value.Dict? && Lookup(jc.value.0, "examples").value.entries != [] ==>
        var first := Lookup(jc.value.0, "examples").value.entries[0].1;
        r == if first.Dict? && HasKey(first.entries, "value") then Lookup(first.entries, "value") else Some(first)
    ensures var jc := JsonContent(requestBody);
      jc.Some? && ContentExample(jc.value.0) == Some(None) && jc.value.1.Dict? && Lookup(jc.value.1.entries, "properties") == None ==>
        r == Some(EmptyDict)
  {
    match JsonContent(requestBody)
    case None => None
    case Some((jsonContent, schema)) =>
      match ContentExample(jsonContent)
      case None => None
      case Some(Some(example)) => Some(example)
      case Some(None) =>
        match PyGet(schema, "properties", EmptyDict)
        case None => None
        case Some(properties) =>
          if !properties.Dict? then None
          else
            match SampleProperties(properties.entries)
            case None => None
            case Some(data) => Some(Dict(data))
  }

  /** Without an example, each property of the schema maps to the value picked for it. */
  lemma GeneratedProperties(requestBody: Value, props: Entries, i: nat)
    requires JsonContent(requestBody).Some? && ContentExample(JsonContent(requestBody).value.0) == Some(None)
    requires JsonContent(requestBody).value.1.Dict?
    requires Lookup(JsonContent(requestBody).value.1.entries, "properties") == Some(Dict(props))
    requires UniqueKeys(props) && i < |props|
    requires PlainTestData(requestBody).Some?
    ensures PlainTestData(requestBody).value.Dict?
    ensures Lookup(PlainTestData(requestBody).value.entries, props[i].0) == PropertySample(props[i].1).value
  {
    SampledValue(props, i);
  }

  /**
   * `generate_test_data`: with smart generation on and a schema file named, the smart
   * generator's result (`smart`; None when it raised, in which case the schema-based
   * generator runs instead).
   */
  function TestData(requestBody: Value, schemaFile: Option<string>, useSmart: bool, smart: Option<Value>): (r: Option<Value>)
    ensures useSmart && schemaFile.Some? && schemaFile.value != "" && smart.Some? ==> r == smart
    ensures !useSmart || schemaFile.None? || schemaFile.value == "" || smart.None? ==> r == PlainTestData(requestBody)
  {
    if useSmart && schemaFile.Some? && schemaFile.value != "" && smart.Some? then smart
    else PlainTestData(requestBody)
  }

  // ---------------------------------------------------------------------------
  // The generator as written: dicts filled entry by entry

  /** The inner loop filling `nested_data`. */
  method FillNested(props: Entries) returns (r: Option<Entries>)
    ensures r == NestedSample(props)
  {
    var nested: Entries := [];
    var i := 0;
    while i < |props|
      invariant 0 <= i <= |props|
      invariant NestedSample(props[..i]) == Some(nested)
    {
      var (name, schema) := props[i];
      assert props[..i + 1][..i] == props[..i];
      if !schema.Dict? {
        assert NestedSample(props[..i + 1]) == None;
        assert props[..i + 1][i] == props[i];
        return None;
      }
      var nestedType := GetOr(schema, "type", Str("string"));
      var value;
      if nestedType == Str("string") {
        value := Str("test");
      } else if nestedType == Str("integer") {
        value := Int(1);
      } else {
        value := Null;
      }
      assert NestedSample(props[..i + 1]) == Some(Put(nested, name, value));
      nested := Put(nested, name, value);
      i := i + 1;
    }
    assert props[..i] == props;
    return Some(nested);
  }

  /** The branches for one property, running the nested loop for objects. */
  method PropertyValue(ps: Value) returns (r: Option<Option<Value>>)
    ensures r == PropertySample(ps)
  {
    if !ps.Dict? {
      return None;
    }
    if HasKey(ps.entries, "example") {
      return Some(Lookup(ps.entries, "example"));
    }
    if HasKey(ps.entries, "enum") && Truthy(Lookup(ps.entries, "enum").value) {
      var first := Index0(Lookup(ps.entries, "enum").value);
      if first.None? {
        return None;
      }
      return Some(Some(first.value));
    }
    var t := GetOr(ps, "type", Str("string"));
    var format := GetOr(ps, "format", Str(""));
    if t == Str("string") {
      r := Some(Some(StringSample(format)));
    } else if t == Str("integer") {
      r := Some(Some(if HasKey(ps.entries, "minimum") then Lookup(ps.entries, "minimum").value else Int(1)));
    } else if t == Str("number") {
      if HasKey(ps.entries, "minimum") {
        var f := ToFloat(Lookup(ps.entries, "minimum").value);
        if f.None? {
          return None;
        }
        r := Some(f);
      } else {
        r := Some(Some(Float(1.0)));
      }
    } else if t == Str("boolean") {
      r := Some(Some(Bool(true)));
    } else if t == Str("array") {
      var items := GetOr(ps, "items", EmptyDict);
      if !Truthy(items) {
        r := Some(Some(List([])));
      } else if !items.Dict? {
        r := None;
      } else {
        var it := GetOr(items, "type", Str("string"));
        if it == Str("string") {
          r := Some(Some(List([Str("test")])));
        } else if it == Str("integer") {
          r := Some(Some(List([Int(1)])));
        } else {
          r := Some(Some(List([])));
        }
      }
    } else if t == Str("object") {
      var nested := GetOr(ps, "properties", EmptyDict);
      if !Truthy(nested) {
        r := Some(Some(EmptyDict));
      } else if !nested.Dict? {
        r := None;
      } else {
        var obj := FillNested(nested.entries);
        if obj.None? {
          return None;
        }
        r := Some(Some(Dict(obj.value)));
      }
    } else {
      r := Some(None);
    }
  }

  /** The outer loop filling `data`, one property at a time. */
  method FillProperties(props: Entries) returns (r: Option<Entries>)
    ensures r == SampleProperties(props)
  {
    var data: Entries := [];
    var i := 0;
    while i < |props|
      invariant 0 <= i <= |props|
      invariant SampleProperties(props[..i]) == Some(data)
    {
      var (name, ps) := props[i];
      assert props[..i + 1][..i] == props[..i];
      assert props[..i + 1][i] == props[i];
      var v := PropertyValue(ps);
      if v.None? {
        assert SampleProperties(props[..i + 1]) == None;
        return None;
      }
      if v.value.Some? {
        data := Put(data, name, v.value.value);
      }
      i := i + 1;
    }
    assert props[..i] == props;
    return Some(data);
  }

  /** `generate_test_data` as written: the smart branch, the examples, then the property loop. */
  method GenerateTestData(requestBody: Value, schemaFile: Option<string>, useSmart: bool, smart: Option<Value>)
    returns (r: Option<Value>)
    ensures r == TestData(requestBody, schemaFile, useSmart, smart)
  {
    if useSmart && schemaFile.Some? && schemaFile.value != "" && smart.Some? {
      return smart;
    }
    var jc := JsonContent(requestBody);
    if jc.None? {
      return None;
    }
    var (jsonContent, schema) := jc.value;
    var example := ContentExample(jsonContent);
    if example.None? {
      return None;
    }
    if example.value.Some? {
      return example.value;
    }
    var properties := PyGet(schema, "properties", EmptyDict);
    if properties.None? || !properties.value.Dict? {
      return None;
    }
    var data := FillProperties(properties.value.entries);
    if data.None? {
      return None;
    }
    return Some(Dict(data.value));
  }
}
