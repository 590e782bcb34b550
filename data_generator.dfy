// Request-body synthesis from learned patterns (apitest/learning/data_generator.py).

module DataGenerator {
  import opened Wrappers
  import opened Json
  import opened Strings
  import TestGenerator
  import PatternExtractor
  import Utils
  import Numbers

  // ---------------------------------------------------------------------------
  // Python conversions

  /** `int(x)` for a float: truncation toward zero. */
  function Trunc(x: real): (r: int)
    ensures 0.0 <= x ==> r as real <= x < r as real + 1.0
    ensures x < 0.0 ==> r as real - 1.0 < x <= r as real
  {
    if x >= 0.0 then x.Floor else -((-x).Floor)
  }

  /** `c * n`: the character repeated n times. */
  function Repeat(c: char, n: nat): (r: string)
    ensures |r| == n && forall i :: 0 <= i < n ==> r[i] == c
  {
    seq(n, _ => c)
  }

  /** Python's `max(a, b)` for a number `a`: `a` unless `b` is larger; None where the comparison raises. */
  function PyMax(a: Value, b: Value): (r: Option<Value>)
    requires IsNumber(b)
    ensures r.Some? <==> IsNumber(a)
    ensures r.Some? ==>
      (r.value == a || r.value == b) &&
      PatternExtractor.NumberValue(a) <= PatternExtractor.NumberValue(r.value) &&
      PatternExtractor.NumberValue(b) <= PatternExtractor.NumberValue(r.value)
  {
    if !IsNumber(a) then None
    else if PatternExtractor.NumberValue(b) > PatternExtractor.NumberValue(a) then Some(b)
    else Some(a)
  }

  // ---------------------------------------------------------------------------
  // Pure value generators

  /** `_generate_formatted_string`: the same literal the schema generator uses for a string of that format. */
  function FormattedString(format: string): (r: string)
    ensures r == TestGenerator.StringSample(Str(format)).s
  {
    if format == "email" then "test@example.com"
    else if format == "uuid" then "123e4567-e89b-12d3-a456-426614174000"
    else if format == "date" then "2024-01-01"
    else if format == "date-time" then "2024-01-01T00:00:00Z"
    else if format == "uri" then "https://example.com"
    else "test"
  }

  /** The literal generated for each of the five formats is detected as that format again. */
  lemma FormattedStringDetected(format: string)
    requires format in ["email", "uuid", "date", "date-time", "uri"]
    ensures PatternExtractor.DetectFormat(FormattedString(format)) == Some(format)
  {
    if format == "email" {
      EmailDetected();
    } else if format == "uuid" {
      UuidDetected();
    } else if format == "date" {
      DateDetected();
    } else if format == "date-time" {
      DateTimeDetected();
    } else {
      UriDetected();
    }
  }

  lemma EmailDetected()
    ensures PatternExtractor.DetectFormat("test@example.com") == Some("email")
  {
    var s := "test@example.com";
    var d := s[5..];
    assert d == "example.com";
    assert d[7] == '.';
    assert forall k :: 0 <= k < 7 ==> PatternExtractor.IsDomainChar(d[k]);
    assert forall k :: 7 < k < |d| ==> PatternExtractor.IsAsciiLetter(d[k]);
    assert PatternExtractor.IsEmailDomain(d);
    assert s[4] == '@';
    assert forall k :: 0 <= k < 4 ==> PatternExtractor.IsLocalChar(s[k]);
    assert PatternExtractor.IsEmail(s);
  }

  /** A string without '@' is no email address, with or without a final newline. */
  lemma NoAt(s: string)
    requires '@' !in s
    ensures !PatternExtractor.MatchesEmail(s)
  {
    if s != [] {
      var p := s[..|s| - 1];
      assert forall k :: 0 <= k < |p| ==> p[k] == s[k];
    }
  }

  lemma UuidDetected()
    ensures PatternExtractor.DetectFormat("123e4567-e89b-12d3-a456-426614174000") == Some("uuid")
  {
    var s := "123e4567-e89b-12d3-a456-426614174000";
    NoAt(s);
    UuidLiteral();
  }

  lemma UuidLiteral()
    ensures PatternExtractor.IsUuid("123e4567-e89b-12d3-a456-426614174000")
  {
    var s := "123e4567-e89b-12d3-a456-426614174000";
    assert s[8] == '-' && s[13] == '-' && s[18] == '-' && s[23] == '-';
    assert forall k :: 0 <= k < 8 || 8 < k < 13 || 13 < k < 18 || 18 < k < 23 || 23 < k < 36 ==>
      PatternExtractor.IsHexDigit(s[k]);
  }

  lemma DateDetected()
    ensures PatternExtractor.DetectFormat("2024-01-01") == Some("date")
  {
    var s := "2024-01-01";
    NoAt(s);
    assert |s| == 10 && s[|s| - 1] != '\n';
    assert !PatternExtractor.MatchesUuid(s);
    assert PatternExtractor.IsDatePrefix(s);
  }

  lemma DateTimeDetected()
    ensures PatternExtractor.DetectFormat("2024-01-01T00:00:00Z") == Some("date-time")
  {
    var s := "2024-01-01T00:00:00Z";
    NoAt(s);
    assert |s| == 20 && s[|s| - 1] != '\n';
    assert !PatternExtractor.MatchesUuid(s) && !PatternExtractor.MatchesDate(s);
    assert PatternExtractor.IsDateTimePrefix(s);
  }

  lemma UriDetected()
    ensures PatternExtractor.DetectFormat("https://example.com") == Some("uri")
  {
    var s := "https://example.com";
    NoAt(s);
    assert !PatternExtractor.IsDatePrefix(s) by {
      assert !IsDigit(s[0]);
    }
    assert StartsWith(s, "https://");
  }

  // ---------------------------------------------------------------------------
  // Values from learned patterns

  /** `_convert_to_type`: the learned string read back as the schema's type; None stands for an exception. */
  function ConvertToType(valueStr: string, ps: Value): (r: Option<Value>)
    ensures r.Some? <==> ps.Dict?
    ensures ps.Dict? && GetOr(ps, "type", Str("string")) == Str("integer") ==> r == Some(Int(Numbers.ParseInt(valueStr).GetOr(1)))
    ensures ps.Dict? && GetOr(ps, "type", Str("string")) == Str("number") ==> r == Some(Float(Numbers.ParseFloat(valueStr).GetOr(1.0)))
    ensures ps.Dict? && GetOr(ps, "type", Str("string")) == Str("boolean") ==>
      r == Some(Bool(Lower(valueStr) !in ["false", "0", "no", "off"]))
    ensures ps.Dict? && GetOr(ps, "type", Str("string")) !in [Str("integer"), Str("number"), Str("boolean")] ==>
      r == Some(Str(valueStr))
  {
    if !ps.Dict? then None
    else
      var propType := GetOr(ps, "type", Str("string"));
      if propType == Str("integer") then
        match Numbers.ParseInt(valueStr)
        case Some(n) => Some(Int(n))
        case None => Some(Int(1))
      else if propType == Str("number") then
        match Numbers.ParseFloat(valueStr)
        case Some(x) => Some(Float(x))
        case None => Some(Float(1.0))
      else if propType == Str("boolean") then
        var lowered := Lower(valueStr);
        if lowered in ["true", "1", "yes", "on"] then Some(Bool(true))
        else if lowered in ["false", "0", "no", "off"] then Some(Bool(false))
        else Some(Bool(true))
      else Some(Str(valueStr))
  }

  /**
   * A value the pattern extractor counted as `str(v)` converts back to `v` when the schema
   * declares v's type (integral floats only; see `Json.PyStr`).
   */
  lemma ConvertRoundTrip(v: Value, ps: Value)
    requires ps.Dict?
    requires var t := GetOr(ps, "type", Str("string"));
      (v.Int? && t == Str("integer")) ||
      (v.Float? && v.r == v.r.Floor as real && t == Str("number")) ||
      (v.Bool? && t == Str("boolean")) ||
      (v.Str? && t !in [Str("integer"), Str("number"), Str("boolean")])
    ensures ConvertToType(PyStr(v), ps) == Some(v)
  {
    match v
    case Int(n) => Numbers.ParseIntText(n);
    case Float(x) => Numbers.ParseFloatText(x);
    case Bool(b) =>
      assert Lower("True") == "true" && Lower("False") == "false";
    case Str(_) =>
  }

  /** `(a + b) // 2` for integers: floor division. */
  function Midpoint(a: int, b: int): int {
    (a + b) / 2
  }

  /** The string `_generate_from_patterns` produces from the learned format or lengths. */
  function PatternString(info: PatternExtractor.PatternInfo): (r: string)
    ensures info.format.None? && info.minLength.Some? ==> r != [] && forall i :: 0 <= i < |r| ==> r[i] == 'x'
  {
    if info.format.Some? then FormattedString(Split(info.format.value, '|')[0])
    else if info.minLength.Some? && info.maxLength.Some? then
      var avg := if info.avgLength.Some? then Trunc(info.avgLength.value) else Midpoint(info.minLength.value, info.maxLength.value);
      Repeat('x', if avg < 1 then 1 else avg)
    else if info.minLength.Some? then
      Repeat('x', if info.minLength.value < 1 then 1 else info.minLength.value)
    else if info.maxLength.Some? then
      var n := if info.maxLength.value < 50 then info.maxLength.value else 50;
      Repeat('x', if n < 1 then 1 else n)
    else "test"
  }

  /** The integer `_generate_from_patterns` produces; None stands for an exception. */
  function PatternInteger(info: PatternExtractor.PatternInfo, ps: Entries): (r: Option<Value>)
    ensures info.minValue.Some? && info.maxValue.Some? ==>
      var avg := if info.avgValue.Some? then Trunc(info.avgValue.value) else Midpoint(Trunc(info.minValue.value), Trunc(info.maxValue.value));
      (GetOr(Dict(ps), "minimum", Null) == Null ==> r == Some(Int(avg))) &&
      (IsNumber(GetOr(Dict(ps), "minimum", Null)) ==>
        r.Some? && IsNumber(r.value) && PatternExtractor.NumberValue(r.value) >= avg as real &&
        PatternExtractor.NumberValue(r.value) >= PatternExtractor.NumberValue(GetOr(Dict(ps), "minimum", Null)))
  {
    if info.minValue.Some? && info.maxValue.Some? then
      var lo := Trunc(info.minValue.value);
      var hi := Trunc(info.maxValue.value);
      var avg := if info.avgValue.Some? then Trunc(info.avgValue.value) else Midpoint(lo, hi);
      var schemaMin := GetOr(Dict(ps), "minimum", Null);
      if schemaMin != Null then PyMax(schemaMin, Int(avg)) else Some(Int(avg))
    else if info.minValue.Some? then Some(Int(Trunc(info.minValue.value)))
    else if info.maxValue.Some? then Some(Int(Trunc(info.maxValue.value)))
    else Some(if HasKey(ps, "minimum") then Lookup(ps, "minimum").value else Int(1))
  }

  /** The float `_generate_from_patterns` produces; None stands for an exception. */
  function PatternNumber(info: PatternExtractor.PatternInfo, ps: Entries): (r: Option<Value>)
    ensures info.minValue.Some? && info.maxValue.Some? ==>
      var avg := info.avgValue.GetOr((info.minValue.value + info.maxValue.value) / 2.0);
      (GetOr(Dict(ps), "minimum", Null) == Null ==> r == Some(Float(avg))) &&
      (IsNumber(GetOr(Dict(ps), "minimum", Null)) ==>
        r.Some? && IsNumber(r.value) && PatternExtractor.NumberValue(r.value) >= avg &&
        PatternExtractor.NumberValue(r.value) >= PatternExtractor.NumberValue(GetOr(Dict(ps), "minimum", Null)))
  {
    if info.minValue.Some? && info.maxValue.Some? then
      var avg := info.avgValue.GetOr((info.minValue.value + info.maxValue.value) / 2.0);
      var schemaMin := GetOr(Dict(ps), "minimum", Null);
      if schemaMin != Null then PyMax(schemaMin, Float(avg)) else Some(Float(avg))
    else if info.minValue.Some? then Some(Float(info.minValue.value))
    else if info.maxValue.Some? then Some(Float(info.maxValue.value))
    else if HasKey(ps, "minimum") then TestGenerator.ToFloat(Lookup(ps, "minimum").value)
    else Some(Float(1.0))
  }

  /**
   * `_generate_from_patterns`: the schema's declared type, or the learned one, chooses the
   * generator. None stands for an exception and Null for "no value".
   */
  function FromPatterns(info: PatternExtractor.PatternInfo, ps: Value): (r: Option<Value>)
    ensures r.Some? ==> ps.Dict?
    ensures ps.Dict? && GetOr(ps, "type", Str("string")) == Str("string") ==> r == Some(Str(PatternString(info)))
    ensures ps.Dict? && GetOr(ps, "type", Str("string")) == Str("integer") && info.typeName != Some("str") ==>
      r == PatternInteger(info, ps.entries)
    ensures ps.Dict? && GetOr(ps, "type", Str("string")) == Str("boolean") && info.typeName !in [Some("str"), Some("int"), Some("float")] ==>
      r == Some(Bool(true))
  {
    if !ps.Dict? then None
    else
      var propType := GetOr(ps, "type", Str("string"));
      var detected := if info.typeName.Some? then Str(info.typeName.value) else propType;
      if propType == Str("string") || detected == Str("str") then Some(Str(PatternString(info)))
      else if propType == Str("integer") || detected == Str("int") then PatternInteger(info, ps.entries)
      else if propType == Str("number") || detected == Str("float") then PatternNumber(info, ps.entries)
      else if propType == Str("boolean") || detected == Str("bool") then Some(Bool(true))
      else Some(Null)
  }

  /** Splitting a join of parts without the separator at the separator gives back the first part first. */
  lemma SplitJoinFirst(parts: seq<string>, c: char)
    requires parts != [] && forall i :: 0 <= i < |parts| ==> c !in parts[i]
    ensures Split(Join(parts, [c]), c)[0] == parts[0]
  {
    if |parts| == 1 {
      SplitNone(parts[0], c);
    } else {
      assert Join(parts, [c]) == parts[0] + [c] + Join(parts[1..], [c]);
      SplitCons(parts[0], c, Join(parts[1..], [c]));
    }
  }

  /**
   * A field whose learned values had a format gets a string of the first format, in sorted
   * order, and that string is detected as the format again.
   */
  lemma LearnedFormatReproduced(st: PatternExtractor.FieldStats, ps: Value)
    requires st.formats != {} && st.formats <= {"email", "uuid", "date", "date-time", "uri"}
    requires ps.Dict? && GetOr(ps, "type", Str("string")) == Str("string")
    ensures PatternExtractor.PatternInfoOf(st).Some?
    ensures var order := PatternExtractor.InOrder(PatternExtractor.SortedFormats, st.formats);
      order != [] &&
      FromPatterns(PatternExtractor.PatternInfoOf(st).value, ps) == Some(Str(FormattedString(order[0]))) &&
      PatternExtractor.DetectFormat(FormattedString(order[0])) == Some(order[0])
  {
    var order := PatternExtractor.InOrder(PatternExtractor.SortedFormats, st.formats);
    SortedOrder(st.formats);
    var info := PatternExtractor.PatternInfoOf(st).value;
    assert info.format == Some(PatternExtractor.JoinSorted(st.formats));
    SplitJoinFirst(order, '|');
    assert PatternString(info) == FormattedString(order[0]);
    FormattedStringDetected(order[0]);
  }

  lemma NoBarInFormats()
    ensures forall f :: f in PatternExtractor.SortedFormats ==> '|' !in f
  {
    assert '|' !in "date" && '|' !in "date-time" && '|' !in "email" && '|' !in "uri" && '|' !in "uuid";
  }

  /** The recorded formats in sorted order: at least one, each one of the five, none containing '|'. */
  lemma SortedOrder(formats: set<string>)
    requires formats != {} && formats <= {"email", "uuid", "date", "date-time", "uri"}
    ensures var order := PatternExtractor.InOrder(PatternExtractor.SortedFormats, formats);
      order != [] && order[0] in ["email", "uuid", "date", "date-time", "uri"] &&
      forall i :: 0 <= i < |order| ==> '|' !in order[i]
  {
    var order := PatternExtractor.InOrder(PatternExtractor.SortedFormats, formats);
    var f :| f in formats;
    assert f in PatternExtractor.SortedFormats;
    assert f in order;
    NoBarInFormats();
    forall i | 0 <= i < |order| ensures '|' !in order[i] {
      assert order[i] in order;
    }
    assert order[0] in order;
  }

  /** `int(x)` is monotone. */
  lemma TruncMonotone(x: real, y: real)
    requires x <= y
    ensures Trunc(x) <= Trunc(y)
  {
  }

  /**
   * A field learned from strings with lengths but no format gets a string of 'x' whose length
   * lies between the shortest and the longest learned length (and is at least 1).
   */
  lemma LearnedLengthRespected(st: PatternExtractor.FieldStats, ps: Value)
    requires st.lengths != [] && st.formats == {}
    requires ps.Dict? && GetOr(ps, "type", Str("string")) == Str("string")
    ensures PatternExtractor.PatternInfoOf(st).Some?
    ensures FromPatterns(PatternExtractor.PatternInfoOf(st).value, ps).Some?
    ensures var r := FromPatterns(PatternExtractor.PatternInfoOf(st).value, ps).value;
      var lo := PatternExtractor.MinNat(st.lengths);
      var hi := PatternExtractor.MaxNat(st.lengths);
      r.Str? && (if lo < 1 then 1 else lo) <= |r.s| <= (if hi < 1 then 1 else hi)
  {
    var lo := PatternExtractor.MinNat(st.lengths);
    var hi := PatternExtractor.MaxNat(st.lengths);
    var avg := PatternExtractor.SumNat(st.lengths) as real / |st.lengths| as real;
    PatternExtractor.LengthAverageBetween(st.lengths);
    TruncMonotone(lo as real, avg);
    TruncMonotone(avg, hi as real);
    assert Trunc(lo as real) == lo && Trunc(hi as real) == hi;
  }

  /**
   * An integer field learned from numbers, with no schema minimum, gets a value between the
   * truncated learned minimum and maximum.
   */
  lemma LearnedRangeRespected(st: PatternExtractor.FieldStats, ps: Value)
    requires st.numericValues != []
    requires ps.Dict? && GetOr(ps, "type", Str("string")) == Str("integer")
    requires st.types == [] || st.types[0] != "str"
    requires !HasKey(ps.entries, "minimum")
    ensures PatternExtractor.PatternInfoOf(st).Some?
    ensures var r := FromPatterns(PatternExtractor.PatternInfoOf(st).value, ps);
      r.Some? && r.value.Int? &&
      Trunc(PatternExtractor.MinReal(st.numericValues)) <= r.value.i <= Trunc(PatternExtractor.MaxReal(st.numericValues))
  {
    var values := st.numericValues;
    PatternExtractor.ValueAverageBetween(values);
    var avg := PatternExtractor.SumReal(values) / |values| as real;
    TruncMonotone(PatternExtractor.MinReal(values), avg);
    TruncMonotone(avg, PatternExtractor.MaxReal(values));
  }

  /**
   * `_generate_field_value`: the most common learned value converted to the schema type, else a
   * value from the learned constraints. None stands for an exception and Null for "no value".
   */
  function FieldValue(name: string, ps: Value, patterns: map<string, PatternExtractor.FieldInfo>): (r: Option<Value>)
    ensures name !in patterns ==> r == Some(Null)
    ensures name in patterns && patterns[name].commonValues != [] ==>
      r == ConvertToType(patterns[name].commonValues[0].0, ps)
    ensures name in patterns && patterns[name].commonValues == [] ==>
      r == if patterns[name].patterns.Some? then FromPatterns(patterns[name].patterns.value, ps) else Some(Null)
  {
    if name !in patterns then Some(Null)
    else
      var fieldPatterns := patterns[name];
      if fieldPatterns.commonValues != [] then ConvertToType(fieldPatterns.commonValues[0].0, ps)
      else if fieldPatterns.patterns.Some? then FromPatterns(fieldPatterns.patterns.value, ps)
      else Some(Null)
  }

  /** The value used for a learned field is the one seen most often. */
  lemma MostCommonUsed(name: string, ps: Value, patterns: map<string, PatternExtractor.FieldInfo>)
    requires name in patterns && patterns[name].commonValues != []
    requires PatternExtractor.DescendingCounts(patterns[name].commonValues)
    ensures var common := patterns[name].commonValues;
      FieldValue(name, ps, patterns) == ConvertToType(common[0].0, ps) &&
      forall x :: x in common ==> x.1 <= common[0].1
  {
    var common := patterns[name].commonValues;
    forall x | x in common ensures x.1 <= common[0].1 {
      var j :| 0 <= j < |common| && common[j] == x;
      if j > 0 {
        assert common[0].1 >= common[j].1;
      }
    }
  }

  /**
   * `_generate_from_schema`: the schema generator's value for the property, with Null written
   * where that generator writes nothing. None stands for an exception.
   */
  function FromSchema(ps: Value): (r: Option<Value>)
    ensures r.Some? <==> TestGenerator.PropertySample(ps).Some?
    ensures r.Some? && TestGenerator.KnownType(ps) ==> TestGenerator.PropertySample(ps) == Some(Some(r.value))
    ensures r.Some? && !TestGenerator.KnownType(ps) ==> r.value == Null
  {
    match TestGenerator.PropertySample(ps)
    case None => None
    case Some(None) => Some(Null)
    case Some(Some(v)) => Some(v)
  }

  // ---------------------------------------------------------------------------
  // Related values

  /**
   * `_get_related_value`: the target field of the related response, directly or along a
   * dotted path. None stands for an exception and Null for "no value".
   */
  function RelatedValue(name: string, relationships: Entries): (r: Option<Value>)
    ensures var frs := GetOr(Dict(relationships), "field_relationships", EmptyDict);
      frs.Dict? && !HasKey(frs.entries, name) ==> r == Some(Null)
  {
    var frs := GetOr(Dict(relationships), "field_relationships", EmptyDict);
    match PyIn(name, frs)
    case None => None
    case Some(found) =>
      if !found then Some(Null)
      else if !frs.Dict? then None
      else
        var relationship := Lookup(frs.entries, name).value;
        if !relationship.Dict? then None
        else
          var related := GetOr(relationship, "related_data", EmptyDict);
          var target := GetOr(relationship, "target_field", Str("id"));
          if !related.Dict? then Some(Null)
          else if !target.Str? then None
          else if HasKey(related.entries, target.s) then Lookup(related.entries, target.s)
          else if Contains(target.s, ".") then Some(Utils.Walk(related, Split(target.s, '.')).GetOr(Null))
          else Some(Null)
  }

  /** The relationships document recording one field's related response and target. */
  function OneRelationship(name: string, related: Entries, target: string): Entries {
    [("field_relationships", Dict([(name, Dict([("related_data", Dict(related)), ("target_field", Str(target))]))]))]
  }

  /** A target 'a.b' missing as a key reaches `related['a']['b']`. */
  lemma DottedTargetFollowed(name: string, related: Entries, a: string, b: string, inner: Entries, v: Value)
    requires '.' !in a && '.' !in b
    requires !HasKey(related, a + "." + b)
    requires Lookup(related, a) == Some(Dict(inner)) && Lookup(inner, b) == Some(v)
    ensures RelatedValue(name, OneRelationship(name, related, a + "." + b)) == Some(v)
  {
    var target := a + "." + b;
    OneRelationshipParts(name, related, target);
    SplitDot(a, b);
    WalkTwo(related, a, b, inner, v);
    RelatedValueDotted(name, OneRelationship(name, related, target), related, target);
  }

  /** A target that is a key of the related data is read directly, dotted or not. */
  lemma DirectTargetWins(name: string, related: Entries, target: string, v: Value)
    requires Lookup(related, target) == Some(v)
    ensures RelatedValue(name, OneRelationship(name, related, target)) == Some(v)
  {
    OneRelationshipParts(name, related, target);
    RelatedValueDirect(name, OneRelationship(name, related, target), related, target);
  }

  /** Without a `target_field`, the related data's `id` is the value. */
  lemma DefaultTargetIsId(name: string, related: Entries, v: Value)
    requires Lookup(related, "id") == Some(v)
    ensures RelatedValue(name, [("field_relationships", Dict([(name, Dict([("related_data", Dict(related))]))]))]) == Some(v)
  {
    var rel := Dict([("related_data", Dict(related))]);
    var relationships := [("field_relationships", Dict([(name, rel)]))];
    assert Lookup([(name, rel)], name) == Some(rel);
    assert GetOr(rel, "target_field", Str("id")) == Str("id");
    RelatedValueDirect(name, relationships, related, "id");
  }

  /** Whatever the relationships document holds, a target that is a key of the related data is read directly. */
  lemma RelatedValueDirect(name: string, relationships: Entries, related: Entries, target: string)
    requires var frs := GetOr(Dict(relationships), "field_relationships", EmptyDict);
      frs.Dict? && HasKey(frs.entries, name) &&
      var rel := Lookup(frs.entries, name).value;
      rel.Dict? && GetOr(rel, "related_data", EmptyDict) == Dict(related) &&
      GetOr(rel, "target_field", Str("id")) == Str(target)
    requires HasKey(related, target)
    ensures RelatedValue(name, relationships) == Lookup(related, target)
  {
  }

  /** What `_get_related_value` reads out of a one-field relationships document. */
  lemma OneRelationshipParts(name: string, related: Entries, target: string)
    ensures var frs := GetOr(Dict(OneRelationship(name, related, target)), "field_relationships", EmptyDict);
      frs.Dict? && HasKey(frs.entries, name) &&
      var rel := Lookup(frs.entries, name).value;
      rel.Dict? && GetOr(rel, "related_data", EmptyDict) == Dict(related) &&
      GetOr(rel, "target_field", Str("id")) == Str(target)
  {
    var rel := Dict([("related_data", Dict(related)), ("target_field", Str(target))]);
    assert rel.entries[0].0 != rel.entries[1].0;
    LookupAt(rel.entries, 1);
    assert Lookup([(name, rel)], name) == Some(rel);
  }

  /** A dotted target that is not itself a key is followed through the related data. */
  lemma RelatedValueDotted(name: string, relationships: Entries, related: Entries, target: string)
    requires var frs := GetOr(Dict(relationships), "field_relationships", EmptyDict);
      frs.Dict? && HasKey(frs.entries, name) &&
      var rel := Lookup(frs.entries, name).value;
      rel.Dict? && GetOr(rel, "related_data", EmptyDict) == Dict(related) &&
      GetOr(rel, "target_field", Str("id")) == Str(target)
    requires !HasKey(related, target) && Contains(target, ".")
    ensures RelatedValue(name, relationships) == Some(Utils.Walk(Dict(related), Split(target, '.')).GetOr(Null))
  {
  }

  lemma WalkTwo(related: Entries, a: string, b: string, inner: Entries, v: Value)
    requires Lookup(related, a) == Some(Dict(inner)) && Lookup(inner, b) == Some(v)
    ensures Utils.Walk(Dict(related), [a, b]) == Some(v)
  {
    assert [a, b][1..] == [b] && [b][1..] == [];
    assert Utils.Walk(v, []) == Some(v);
    assert Utils.Walk(Dict(inner), [b]) == Some(v);
  }

  /** 'a.b' contains a '.' and splits into a and b. */
  lemma SplitDot(a: string, b: string)
    requires '.' !in a && '.' !in b
    ensures Split(a + "." + b, '.') == [a, b] && Contains(a + "." + b, ".")
  {
    var target := a + "." + b;
    assert target == a + ['.'] + b;
    SplitCons(a, '.', b);
    SplitNone(b, '.');
    assert StartsWith(target[|a|..], ".") by {
      assert target[|a|] == '.';
    }
  }

  /** `_get_related_value` as written, walking the dotted path part by part. */
  method GetRelatedValue(name: string, relationships: Entries) returns (r: Option<Value>)
    ensures r == RelatedValue(name, relationships)
  {
    var frs := GetOr(Dict(relationships), "field_relationships", EmptyDict);
    var found := PyIn(name, frs);
    if found.None? {
      return None;
    }
    if !found.value {
      return Some(Null);
    }
    if !frs.Dict? {
      return None;
    }
    var relationship := Lookup(frs.entries, name).value;
    if !relationship.Dict? {
      return None;
    }
    var related := GetOr(relationship, "related_data", EmptyDict);
    var target := GetOr(relationship, "target_field", Str("id"));
    if !related.Dict? {
      return Some(Null);
    }
    if !target.Str? {
      return None;
    }
    if HasKey(related.entries, target.s) {
      return Lookup(related.entries, target.s);
    }
    if !Contains(target.s, ".") {
      return Some(Null);
    }
    var parts := Split(target.s, '.');
    var value := related;
    var i := 0;
    while i < |parts|
      invariant 0 <= i <= |parts|
      invariant Utils.Walk(related, parts[..i]) == Some(value)
    {
      Utils.WalkAppend(related, parts[..i], [parts[i]]);
      assert parts[..i + 1] == parts[..i] + [parts[i]];
      if value.Dict? && HasKey(value.entries, parts[i]) {
        value := Lookup(value.entries, parts[i]).value;
      } else {
        assert Utils.Walk(related, parts[..i + 1]) == None;
        Utils.WalkAppend(related, parts[..i + 1], parts[i + 1..]);
        assert parts[..i + 1] + parts[i + 1..] == parts;
        return Some(Null);
      }
      i := i + 1;
    }
    assert parts[..i] == parts;
    return Some(value);
  }

  // ---------------------------------------------------------------------------
  // The smart generator

  /**
   * The value chosen for one property, in order of preference: the accumulated context, a
   * related value, a learned value, the schema fallback. None stands for an exception.
   */
  function SmartValue(name: string, ps: Value, context: Entries, relationships: Entries,
                      patterns: map<string, PatternExtractor.FieldInfo>): (r: Option<Value>)
    ensures HasKey(context, name) ==> r == Lookup(context, name)
  {
    if HasKey(context, name) then Lookup(context, name)
    else
      match RelatedValue(name, relationships)
      case None => None
      case Some(related) =>
        if related != Null then Some(related)
        else
          match FieldValue(name, ps, patterns)
          case None => None
          case Some(smart) => if smart != Null then Some(smart) else FromSchema(ps)
  }

  /** Without a context value, a related value wins, then a learned value, then the schema fallback. */
  lemma SmartValuePriority(name: string, ps: Value, context: Entries, relationships: Entries,
                           patterns: map<string, PatternExtractor.FieldInfo>)
    requires !HasKey(context, name)
    ensures RelatedValue(name, relationships).Some? && RelatedValue(name, relationships).value != Null ==>
      SmartValue(name, ps, context, relationships, patterns) == RelatedValue(name, relationships)
    ensures (RelatedValue(name, relationships) == Some(Null) &&
             FieldValue(name, ps, patterns).Some? && FieldValue(name, ps, patterns).value != Null) ==>
      SmartValue(name, ps, context, relationships, patterns) == FieldValue(name, ps, patterns)
    ensures RelatedValue(name, relationships) == Some(Null) && FieldValue(name, ps, patterns) == Some(Null) ==>
      SmartValue(name, ps, context, relationships, patterns) == FromSchema(ps)
    ensures RelatedValue(name, relationships).None? || (RelatedValue(name, relationships) == Some(Null) && FieldValue(name, ps, patterns).None?) ==>
      SmartValue(name, ps, context, relationships, patterns).None?
  {
  }

  /** With nothing learned and no context, every property takes the schema fallback. */
  lemma NothingLearnedFallsBack(name: string, ps: Value)
    ensures SmartValue(name, ps, [], [], map[]) == FromSchema(ps)
  {
    assert RelatedValue(name, []) == Some(Null);
  }

  /** The loop over `properties`, writing `data[name]` for every property; None stands for an exception. */
  function SmartProperties(props: Entries, context: Entries, relationships: Entries,
                           patterns: map<string, PatternExtractor.FieldInfo>): (r: Option<Entries>)
    ensures r.Some? <==> forall i :: 0 <= i < |props| ==> SmartValue(props[i].0, props[i].1, context, relationships, patterns).Some?
    ensures r.Some? ==> forall k :: HasKey(r.value, k) <==> HasKey(props, k)
    decreases |props|
  {
    if props == [] then Some([])
    else
      var n := |props| - 1;
      var init := props[..n];
      assert forall i :: 0 <= i < n ==> init[i] == props[i];
      match SmartProperties(init, context, relationships, patterns)
      case None => None
      case Some(data) =>
        match SmartValue(props[n].0, props[n].1, context, relationships, patterns)
        case None => None
        case Some(v) =>
          var r := Put(data, props[n].0, v);
          assert forall k :: HasKey(r, k) <==> HasKey(props, k) by {
            forall k ensures HasKey(r, k) <==> HasKey(props, k) {
              HasKeyInit(props, k);
              PutHasKey(data, props[n].0, v, k);
            }
          }
          Some(r)
  }

  /** One step of the loop: the last property is written into the dict built for the ones before it. */
  lemma SmartPropertiesSnoc(props: Entries, context: Entries, relationships: Entries,
                            patterns: map<string, PatternExtractor.FieldInfo>)
    requires props != [] && SmartProperties(props, context, relationships, patterns).Some?
    ensures SmartProperties(props[..|props| - 1], context, relationships, patterns).Some?
    ensures SmartValue(props[|props| - 1].0, props[|props| - 1].1, context, relationships, patterns).Some?
    ensures SmartProperties(props, context, relationships, patterns).value ==
      Put(SmartProperties(props[..|props| - 1], context, relationships, patterns).value, props[|props| - 1].0,
          SmartValue(props[|props| - 1].0, props[|props| - 1].1, context, relationships, patterns).value)
  {
  }

  /** Writing the last property leaves the values of the ones before it alone. */
  lemma SmartValueKeepsInit(props: Entries, context: Entries, relationships: Entries,
                            patterns: map<string, PatternExtractor.FieldInfo>, i: nat)
    requires UniqueKeys(props) && i < |props| - 1
    requires SmartProperties(props, context, relationships, patterns).Some?
    ensures Lookup(SmartProperties(props, context, relationships, patterns).value, props[i].0) ==
      Lookup(SmartProperties(props[..|props| - 1], context, relationships, patterns).value, props[i].0)
  {
    var n := |props| - 1;
    UniqueKeysInit(props);
    SmartPropertiesSnoc(props, context, relationships, patterns);
    assert props[..n][i] == props[i];
  }

  /** Each property holds the value chosen for it. */
  lemma {:induction false} SmartValueAt(props: Entries, context: Entries, relationships: Entries,
                                       patterns: map<string, PatternExtractor.FieldInfo>, i: nat)
    requires UniqueKeys(props) && i < |props|
    requires SmartProperties(props, context, relationships, patterns).Some?
    ensures Lookup(SmartProperties(props, context, relationships, patterns).value, props[i].0) ==
      SmartValue(props[i].0, props[i].1, context, relationships, patterns)
    decreases |props|
  {
    var n := |props| - 1;
    if i < n {
      UniqueKeysInit(props);
      SmartPropertiesInit(props, context, relationships, patterns);
      SmartValueAt(props[..n], context, relationships, patterns, i);
      SmartValueFromInit(props, context, relationships, patterns, i);
    } else {
      SmartValueLast(props, context, relationships, patterns);
    }
  }

  /** A property before the last keeps the value it had without the last one. */
  lemma SmartValueFromInit(props: Entries, context: Entries, relationships: Entries,
                           patterns: map<string, PatternExtractor.FieldInfo>, i: nat)
    requires UniqueKeys(props) && i < |props| - 1
    requires SmartProperties(props, context, relationships, patterns).Some?
    requires var init := props[..|props| - 1];
      SmartProperties(init, context, relationships, patterns).Some? &&
      Lookup(SmartProperties(init, context, relationships, patterns).value, init[i].0) ==
        SmartValue(init[i].0, init[i].1, context, relationships, patterns)
    ensures Lookup(SmartProperties(props, context, relationships, patterns).value, props[i].0) ==
      SmartValue(props[i].0, props[i].1, context, relationships, patterns)
  {
    SmartValueKeepsInit(props, context, relationships, patterns, i);
    assert props[..|props| - 1][i] == props[i];
  }

  /** Without its last property, the properties still all have values. */
  lemma SmartPropertiesInit(props: Entries, context: Entries, relationships: Entries,
                            patterns: map<string, PatternExtractor.FieldInfo>)
    requires props != [] && SmartProperties(props, context, relationships, patterns).Some?
    ensures SmartProperties(props[..|props| - 1], context, relationships, patterns).Some?
  {
    SmartPropertiesSnoc(props, context, relationships, patterns);
  }

  /** The last property holds the value chosen for it. */
  lemma SmartValueLast(props: Entries, context: Entries, relationships: Entries,
                       patterns: map<string, PatternExtractor.FieldInfo>)
    requires props != [] && SmartProperties(props, context, relationships, patterns).Some?
    ensures var last := props[|props| - 1];
      Lookup(SmartProperties(props, context, relationships, patterns).value, last.0) ==
        SmartValue(last.0, last.1, context, relationships, patterns)
  {
    SmartPropertiesSnoc(props, context, relationships, patterns);
  }

  /** `generate_smart_test_data` after the caches are filled: a content example wins, otherwise one value per property. */
  function SmartSpec(requestBody: Value, context: Entries, relationships: Entries,
                     patterns: map<string, PatternExtractor.FieldInfo>): (r: Option<Value>)
  {
    match TestGenerator.JsonContent(requestBody)
    case None => None
    case Some((jsonContent, schema)) =>
      match TestGenerator.ContentExample(jsonContent)
      case None => None
      case Some(Some(example)) => Some(example)
      case Some(None) =>
        match PyGet(schema, "properties", EmptyDict)
        case None => None
        case Some(properties) =>
          if !properties.Dict? then None
          else
            match SmartProperties(properties.entries, context, relationships, patterns)
            case None => None
            case Some(data) => Some(Dict(data))
  }

  /** A content example is returned by both generators alike. */
  lemma ExampleAgrees(requestBody: Value, context: Entries, relationships: Entries,
                      patterns: map<string, PatternExtractor.FieldInfo>)
    requires TestGenerator.JsonContent(requestBody).Some?
    requires TestGenerator.ContentExample(TestGenerator.JsonContent(requestBody).value.0) != Some(None)
    ensures SmartSpec(requestBody, context, relationships, patterns) == TestGenerator.PlainTestData(requestBody)
  {
  }

  /** Without an example, every property of the schema gets the value chosen for it. */
  lemma SmartPropertiesWritten(requestBody: Value, context: Entries, relationships: Entries,
                               patterns: map<string, PatternExtractor.FieldInfo>, props: Entries, i: nat)
    requires TestGenerator.JsonContent(requestBody).Some?
    requires TestGenerator.ContentExample(TestGenerator.JsonContent(requestBody).value.0) == Some(None)
    requires TestGenerator.JsonContent(requestBody).value.1.Dict?
    requires Lookup(TestGenerator.JsonContent(requestBody).value.1.entries, "properties") == Some(Dict(props))
    requires UniqueKeys(props) && i < |props|
    requires SmartSpec(requestBody, context, relationships, patterns).Some?
    ensures SmartSpec(requestBody, context, relationships, patterns).value.Dict?
    ensures Lookup(SmartSpec(requestBody, context, relationships, patterns).value.entries, props[i].0) ==
      SmartValue(props[i].0, props[i].1, context, relationships, patterns)
  {
    SmartValueAt(props, context, relationships, patterns, i);
  }

  /** Context given to two calls in turn: the later value of a key wins, then the earlier, then what was there. */
  lemma ContextAccumulates(base: Entries, first: Entries, second: Entries, k: string)
    requires UniqueKeys(first) && UniqueKeys(second)
    ensures Lookup(Update(Update(base, first), second), k) ==
      if HasKey(second, k) then Lookup(second, k)
      else if HasKey(first, k) then Lookup(first, k)
      else Lookup(base, k)
  {
    UpdateLookup(Update(base, first), second, k);
    UpdateLookup(base, first, k);
  }

  /** The minimum number of occurrences the generator asks the pattern extractor for. */
  const MinOccurrences := 2

  /** The patterns learned from a history, or {} when reading it raised. */
  function LearnedPatterns(history: Option<(seq<PatternExtractor.HistoryRow>, seq<(int, Option<Value>)>)>): map<string, PatternExtractor.FieldInfo> {
    if history.Some? then PatternExtractor.CommonValuesByField(history.value.0, history.value.1, MinOccurrences) else map[]
  }

  /**
   * `SmartDataGenerator`: generation state for one schema file. The test history the pattern
   * extractor reads and the relationships document are passed in, None standing for a fetch
   * that raised.
   */
  class SmartDataGenerator {
    const schemaFile: string
    const httpMethod: Option<string>
    const path: Option<string>
    var patternsCache: Option<map<string, PatternExtractor.FieldInfo>>
    var relationshipsCache: Option<Entries>
    var contextData: Entries

    constructor (schemaFile: string, httpMethod: Option<string>, path: Option<string>)
      ensures this.schemaFile == schemaFile && this.httpMethod == httpMethod && this.path == path
      ensures patternsCache == None && relationshipsCache == None && contextData == []
    {
      this.schemaFile := schemaFile;
      this.httpMethod := httpMethod;
      this.path := path;
      patternsCache := None;
      relationshipsCache := None;
      contextData := [];
    }

    /** `_get_patterns`: extracted once, {} cached when extraction raised. */
    method GetPatterns(history: Option<(seq<PatternExtractor.HistoryRow>, seq<(int, Option<Value>)>)>)
      returns (patterns: map<string, PatternExtractor.FieldInfo>)
      modifies this
      ensures old(patternsCache).Some? ==> patterns == old(patternsCache).value
      ensures old(patternsCache).None? ==> patterns == LearnedPatterns(history)
      ensures patternsCache == Some(patterns)
      ensures relationshipsCache == old(relationshipsCache) && contextData == old(contextData)
    {
      if patternsCache.None? {
        if history.Some? {
          var extracted := PatternExtractor.ExtractCommonValues(history.value.0, history.value.1, MinOccurrences);
          patternsCache := Some(extracted);
        } else {
          patternsCache := Some(map[]);
        }
      }
      patterns := patternsCache.value;
    }

    /** `_get_relationships`: fetched once, {} cached when the fetch raised. */
    method GetRelationships(fetched: Option<Entries>) returns (relationships: Entries)
      modifies this
      ensures old(relationshipsCache).Some? ==> relationships == old(relationshipsCache).value
      ensures old(relationshipsCache).None? ==> relationships == fetched.GetOr([])
      ensures relationshipsCache == Some(relationships)
      ensures patternsCache == old(patternsCache) && contextData == old(contextData)
    {
      if relationshipsCache.None? {
        relationshipsCache := Some(fetched.GetOr([]));
      }
      relationships := relationshipsCache.value;
    }

    /** The property loop of `generate_smart_test_data`. */
    method FillSmartProperties(props: Entries, context: Entries, relationships: Entries,
                               patterns: map<string, PatternExtractor.FieldInfo>) returns (r: Option<Entries>)
      ensures r == SmartProperties(props, context, relationships, patterns)
    {
      var data: Entries := [];
      var i := 0;
      while i < |props|
        invariant 0 <= i <= |props|
        invariant SmartProperties(props[..i], context, relationships, patterns) == Some(data)
      {
        var (name, ps) := props[i];
        assert props[..i + 1][..i] == props[..i];
        var value: Value;
        if HasKey(context, name) {
          value := Lookup(context, name).value;
        } else {
          var related := GetRelatedValue(name, relationships);
          if related.None? {
            assert SmartProperties(props[..i + 1], context, relationships, patterns).None?;
            assert !SmartValue(props[i].0, props[i].1, context, relationships, patterns).Some?;
            return None;
          }
          if related.value != Null {
            value := related.value;
          } else {
            var smart := FieldValue(name, ps, patterns);
            if smart.None? {
              assert !SmartValue(props[i].0, props[i].1, context, relationships, patterns).Some?;
              return None;
            }
            if smart.value != Null {
              value := smart.value;
            } else {
              var fallback := FromSchema(ps);
              if fallback.None? {
                assert !SmartValue(props[i].0, props[i].1, context, relationships, patterns).Some?;
                return None;
              }
              value := fallback.value;
            }
          }
        }
        assert SmartValue(name, ps, context, relationships, patterns) == Some(value);
        data := Put(data, name, value);
        assert SmartProperties(props[..i + 1], context, relationships, patterns) == Some(data);
        i := i + 1;
      }
      assert props[..i] == props;
      return Some(data);
    }

    /**
     * `generate_smart_test_data`: merge the given context, fill the caches, then generate.
     * None stands for an exception (after the context and caches have been updated).
     */
    method GenerateSmartTestData(requestBody: Value, given: Option<Entries>,
                                 history: Option<(seq<PatternExtractor.HistoryRow>, seq<(int, Option<Value>)>)>,
                                 fetchedRelationships: Option<Entries>) returns (r: Option<Value>)
      modifies this
      ensures contextData == if given.Some? && given.value != [] then Update(old(contextData), given.value) else old(contextData)
      ensures patternsCache == Some(if old(patternsCache).Some? then old(patternsCache).value else LearnedPatterns(history))
      ensures relationshipsCache == Some(if old(relationshipsCache).Some? then old(relationshipsCache).value else fetchedRelationships.GetOr([]))
      ensures r == SmartSpec(requestBody, contextData, relationshipsCache.value, patternsCache.value)
    {
      if given.Some? && given.value != [] {
        contextData := Update(contextData, given.value);
      }
      var patterns := GetPatterns(history);
      var relationships := GetRelationships(fetchedRelationships);
      var jc := TestGenerator.JsonContent(requestBody);
      if jc.None? {
        return None;
      }
      var (jsonContent, schema) := jc.value;
      var example := TestGenerator.ContentExample(jsonContent);
      if example.None? {
        return None;
      }
      if example.value.Some? {
        return Some(example.value.value);
      }
      var properties := PyGet(schema, "properties", EmptyDict);
      if properties.None? || !properties.value.Dict? {
        return None;
      }
      var data := FillSmartProperties(properties.value.entries, contextData, relationships, patterns);
      if data.None? {
        return None;
      }
      return Some(Dict(data.value));
    }
  }
}
