// Learning value patterns from the request bodies of passing tests, and finding ID fields
// (apitest/learning/pattern_extractor.py). The test-history database is an input: the
// history rows and the stored request bodies, already decoded (None where the stored text is
// empty or does not decode).

module PatternExtractor {
  import opened Wrappers
  import opened Json
  import opened Strings

  // ---------------------------------------------------------------------------
  // Formats

  predicate IsAsciiLetter(ch: char) {
    'a' <= ch <= 'z' || 'A' <= ch <= 'Z'
  }

  /** `[0-9a-f]` under `re.IGNORECASE`. */
  predicate IsHexDigit(ch: char) {
    IsDigit(ch) || 'a' <= ch <= 'f' || 'A' <= ch <= 'F'
  }

  /** `[a-zA-Z0-9._%+-]`, the characters of an address's local part. */
  predicate IsLocalChar(ch: char) {
    IsAsciiLetter(ch) || IsDigit(ch) || ch in "._%+-"
  }

  /** `[a-zA-Z0-9.-]`, the characters of a domain before its last label. */
  predicate IsDomainChar(ch: char) {
    IsAsciiLetter(ch) || IsDigit(ch) || ch in ".-"
  }

  /** `[a-zA-Z0-9.-]+\.[a-zA-Z]{2,}` over the whole string. */
  predicate IsEmailDomain(d: string) {
    exists j :: 0 < j < |d| - 2 && d[j] == '.' &&
      (forall k :: 0 <= k < j ==> IsDomainChar(d[k])) &&
      (forall k :: j < k < |d| ==> IsAsciiLetter(d[k]))
  }

  /** `[a-zA-Z0-9._%+-]+@` followed by an email domain, over the whole string. */
  predicate IsEmail(s: string) {
    exists i :: 0 < i < |s| && s[i] == '@' &&
      (forall k :: 0 <= k < i ==> IsLocalChar(s[k])) &&
      IsEmailDomain(s[i + 1..])
  }

  /** Eight, four, four, four and twelve hex digits joined by '-'. */
  predicate IsUuid(s: string) {
    |s| == 36 &&
    forall k :: 0 <= k < 36 ==> if k in {8, 13, 18, 23} then s[k] == '-' else IsHexDigit(s[k])
  }

  /** `\d{4}-\d{2}-\d{2}` at the start of the string. */
  predicate IsDatePrefix(s: string) {
    |s| >= 10 &&
    forall k :: 0 <= k < 10 ==> if k in {4, 7} then s[k] == '-' else IsDigit(s[k])
  }

  /** `\d{4}-\d{2}-\d{2}T\d{2}:\d{2}:\d{2}` at the start of the string. */
  predicate IsDateTimePrefix(s: string) {
    IsDatePrefix(s) && |s| >= 19 && s[10] == 'T' &&
    forall k :: 11 <= k < 19 ==> if k in {13, 16} then s[k] == ':' else IsDigit(s[k])
  }

  /**
   * A pattern ending in `$` as `re.match` applies it: the whole string, or the string without
   * one final newline, must match.
   */
  predicate AnchoredAtEnd(s: string, whole: bool, withoutNewline: bool) {
    whole || (s != [] && s[|s| - 1] == '\n' && withoutNewline)
  }

  predicate MatchesEmail(s: string) {
    AnchoredAtEnd(s, IsEmail(s), s != [] && IsEmail(s[..|s| - 1]))
  }

  predicate MatchesUuid(s: string) {
    AnchoredAtEnd(s, IsUuid(s), s != [] && IsUuid(s[..|s| - 1]))
  }

  predicate MatchesDate(s: string) {
    AnchoredAtEnd(s, IsDatePrefix(s) && |s| == 10, |s| == 11 && IsDatePrefix(s))
  }

  /** `^https?://`. */
  predicate MatchesUri(s: string) {
    StartsWith(s, "http://") || StartsWith(s, "https://")
  }

  /** `_detect_format`: the first of email, uuid, date, date-time and uri the value matches. */
  function DetectFormat(value: string): (r: Option<string>)
    ensures r.Some? ==> r.value in ["email", "uuid", "date", "date-time", "uri"]
    ensures r == Some("email") <==> MatchesEmail(value)
    ensures r == Some("uuid") <==> !MatchesEmail(value) && MatchesUuid(value)
    ensures r == Some("date") <==> !MatchesEmail(value) && !MatchesUuid(value) && MatchesDate(value)
    ensures r == Some("date-time") <==>
      !MatchesEmail(value) && !MatchesUuid(value) && !MatchesDate(value) && IsDateTimePrefix(value)
    ensures r == Some("uri") <==>
      !MatchesEmail(value) && !MatchesUuid(value) && !MatchesDate(value) && !IsDateTimePrefix(value) &&
      MatchesUri(value)
    ensures r.None? <==>
      !MatchesEmail(value) && !MatchesUuid(value) && !MatchesDate(value) &&
      !IsDateTimePrefix(value) && !MatchesUri(value)
  {
    if MatchesEmail(value) then Some("email")
    else if MatchesUuid(value) then Some("uuid")
    else if MatchesDate(value) then Some("date")
    else if IsDateTimePrefix(value) then Some("date-time")
    else if MatchesUri(value) then Some("uri")
    else None
  }

  /**
   * The five patterns never overlap, so the order of the checks does not matter: each format
   * is reported exactly when its own pattern matches.
   */
  lemma DetectFormatExact(value: string)
    ensures DetectFormat(value) == Some("email") <==> MatchesEmail(value)
    ensures DetectFormat(value) == Some("uuid") <==> MatchesUuid(value)
    ensures DetectFormat(value) == Some("date") <==> MatchesDate(value)
    ensures DetectFormat(value) == Some("date-time") <==> IsDateTimePrefix(value)
    ensures DetectFormat(value) == Some("uri") <==> MatchesUri(value)
  {
    if MatchesEmail(value) {
      EmailExcludes(value);
    } else if MatchesUuid(value) {
      assert !MatchesDate(value) && !IsDateTimePrefix(value) && !MatchesUri(value) by {
        UuidExcludes(value);
      }
    } else if MatchesDate(value) {
      assert !IsDateTimePrefix(value) && !MatchesUri(value) by {
        assert |value| <= 11;
        assert IsDigit(value[0]);
      }
    } else if IsDateTimePrefix(value) {
      assert !MatchesUri(value) by {
        assert IsDigit(value[0]);
      }
    }
  }

  /** An email matches none of the other four patterns. */
  lemma EmailExcludes(value: string)
    requires MatchesEmail(value)
    ensures !MatchesUuid(value) && !MatchesDate(value) && !IsDateTimePrefix(value) && !MatchesUri(value)
  {
    var i := EmailAt(value);
    EmailNotUuid(value, i);
    EmailNotDate(value, i);
    EmailNotUri(value, i);
  }

  /** Where an email's `@` is: after a non-empty run of local-part characters. */
  lemma EmailAt(value: string) returns (i: nat)
    requires MatchesEmail(value)
    ensures 0 < i < |value| && value[i] == '@' && (forall k :: 0 <= k < i ==> IsLocalChar(value[k]))
    ensures !IsUuid(value) ==> i < |value| - 1
  {
    var e := if IsEmail(value) then value else value[..|value| - 1];
    assert IsEmail(e);
    i :| 0 < i < |e| && e[i] == '@' && (forall k :: 0 <= k < i ==> IsLocalChar(e[k])) && IsEmailDomain(e[i + 1..]);
    assert e[i] == value[i];
    assert forall k :: 0 <= k < i ==> e[k] == value[k];
    if e != value {
      assert i < |value| - 1;
    } else {
      var d := e[i + 1..];
      var j :| 0 < j < |d| - 2 && d[j] == '.';
    }
  }

  lemma EmailNotUuid(value: string, i: nat)
    requires 0 < i < |value| && value[i] == '@'
    requires !IsUuid(value) ==> i < |value| - 1
    ensures !MatchesUuid(value)
  {
    if !IsUuid(value) {
      assert value[..|value| - 1][i] == '@';
    }
  }

  lemma EmailNotDate(value: string, i: nat)
    requires 0 < i < |value| && value[i] == '@' && (forall k :: 0 <= k < i ==> IsLocalChar(value[k]))
    ensures !MatchesDate(value) && !IsDateTimePrefix(value)
  {
    if i < 10 {
      assert !IsDatePrefix(value);
    } else if i < 19 {
      assert !IsDateTimePrefix(value);
      assert !MatchesDate(value);
    } else {
      assert IsLocalChar(value[13]);
    }
  }

  lemma EmailNotUri(value: string, i: nat)
    requires 0 < i < |value| && value[i] == '@' && (forall k :: 0 <= k < i ==> IsLocalChar(value[k]))
    ensures !MatchesUri(value)
  {
    EmailNotScheme(value, i, "http://", 4);
    EmailNotScheme(value, i, "https://", 5);
  }

  /** A scheme prefix holding no `@` and a `:` at `colon` cannot start an email. */
  lemma EmailNotScheme(value: string, i: nat, scheme: string, colon: nat)
    requires 0 < i < |value| && value[i] == '@' && (forall k :: 0 <= k < i ==> IsLocalChar(value[k]))
    requires '@' !in scheme && colon < |scheme| && scheme[colon] == ':'
    ensures !StartsWith(value, scheme)
  {
    if |value| < |scheme| {
    } else if i < |scheme| {
      assert scheme[i] != '@';
      assert value[..|scheme|][i] == '@';
    } else {
      assert IsLocalChar(value[colon]);
      assert value[..|scheme|][colon] == value[colon];
    }
  }

  /** A uuid is neither a date, a date-time nor a uri. */
  lemma UuidExcludes(value: string)
    requires MatchesUuid(value)
    ensures !MatchesDate(value) && !IsDateTimePrefix(value) && !MatchesUri(value)
  {
    var u := if IsUuid(value) then value else value[..|value| - 1];
    assert IsUuid(u);
    assert u[4] == value[4] && u[0] == value[0];
    assert IsHexDigit(value[4]) && IsHexDigit(value[0]);
  }

  /** A full timestamp is a date-time, not a date: the date pattern is anchored at the end. */
  lemma TimestampIsDateTime(s: string)
    requires IsDateTimePrefix(s) && !MatchesEmail(s) && !MatchesUuid(s)
    ensures DetectFormat(s) == Some("date-time")
  {
    assert |s| >= 19;
  }

  // ---------------------------------------------------------------------------
  // Field paths

  /** The path of a dict entry: `parent.key`, or the bare key at the root. */
  function KeyPath(path: string, key: string): (p: string)
    ensures path == "" ==> p == key
    ensures path != "" ==> StartsWith(p, path + ".")
  {
    if path != "" then path + "." + key else key
  }

  /** The path of a list item: `parent[i]`. */
  function IndexPath(path: string, i: nat): (p: string)
    ensures StartsWith(p, path) && EndsWith(p, "]")
  {
    path + "[" + NatToString(i) + "]"
  }

  /** The concatenation of a sequence of sequences, in order. */
  function Flatten<T>(ss: seq<seq<T>>): (r: seq<T>)
    decreases |ss|
  {
    if ss == [] then [] else Flatten(ss[..|ss| - 1]) + ss[|ss| - 1]
  }

  /** Everything in a flattened sequence comes from one of its parts. */
  lemma {:induction false} FlattenMember<T>(ss: seq<seq<T>>, x: T)
    requires x in Flatten(ss)
    ensures exists i :: 0 <= i < |ss| && x in ss[i]
    decreases |ss|
  {
    var n := |ss| - 1;
    if x !in ss[n] {
      FlattenMember(ss[..n], x);
      var i :| 0 <= i < n && x in ss[..n][i];
      assert ss[i] == ss[..n][i];
    }
  }

  /** A value that is neither a dict nor a list. */
  predicate Primitive(v: Value) {
    !v.Dict? && !v.List?
  }

  /**
   * The primitive values under `v` with their field paths, in the order the recursive walk
   * of `_analyze_request_body` visits them.
   */
  function Leaves(v: Value, path: string): (r: seq<(string, Value)>)
    ensures forall leaf :: leaf in r ==> Primitive(leaf.1)
    ensures Primitive(v) ==> r == [(path, v)]
    decreases v
  {
    match v
    case Dict(e) =>
      var parts := seq(|e|, i requires 0 <= i < |e| => Leaves(e[i].1, KeyPath(path, e[i].0)));
      var r := Flatten(parts);
      assert forall leaf :: leaf in r ==> Primitive(leaf.1) by {
        forall leaf | leaf in r ensures Primitive(leaf.1) {
          FlattenMember(parts, leaf);
        }
      }
      r
    case List(items) =>
      var parts := seq(|items|, i requires 0 <= i < |items| => Leaves(items[i], IndexPath(path, i)));
      var r := Flatten(parts);
      assert forall leaf :: leaf in r ==> Primitive(leaf.1) by {
        forall leaf | leaf in r ensures Primitive(leaf.1) {
          FlattenMember(parts, leaf);
        }
      }
      r
    case _ => [(path, v)]
  }

  /** A flat dict of primitives yields one leaf per key, at `path.key`, in key order. */
  lemma {:induction false} FlatDictLeaves(e: Entries, path: string)
    requires forall i :: 0 <= i < |e| ==> Primitive(e[i].1)
    ensures Leaves(Dict(e), path) == seq(|e|, i requires 0 <= i < |e| => (KeyPath(path, e[i].0), e[i].1))
  {
    var parts := seq(|e|, i requires 0 <= i < |e| => Leaves(e[i].1, KeyPath(path, e[i].0)));
    var want := seq(|e|, i requires 0 <= i < |e| => (KeyPath(path, e[i].0), e[i].1));
    FlattenSingletons(parts, want);
  }

  /** Flattening one-element parts gives their elements. */
  lemma {:induction false} FlattenSingletons<T>(parts: seq<seq<T>>, xs: seq<T>)
    requires |parts| == |xs| && forall i :: 0 <= i < |parts| ==> parts[i] == [xs[i]]
    ensures Flatten(parts) == xs
    decreases |parts|
  {
    if parts != [] {
      var n := |parts| - 1;
      FlattenSingletons(parts[..n], xs[..n]);
      assert xs == xs[..n] + [xs[n]];
    }
  }

  // ---------------------------------------------------------------------------
  // Per-field statistics

  /**
   * What is accumulated for one field path: a counter of `str(value)` in first-seen order,
   * string lengths, numeric values, detected formats and type names (first-seen order).
   */
  datatype FieldStats = FieldStats(
    values: seq<(string, nat)>,
    lengths: seq<nat>,
    numericValues: seq<real>,
    formats: set<string>,
    types: seq<string>)

  const EmptyStats := FieldStats([], [], [], {}, [])

  /** `counter[s] += 1`. */
  function CountOne(counter: seq<(string, nat)>, s: string): (r: seq<(string, nat)>)
    ensures |r| == |counter| || r == counter + [(s, 1)]
    decreases |counter|
  {
    if counter == [] then [(s, 1)]
    else if counter[0].0 == s then [(s, counter[0].1 + 1)] + counter[1..]
    else [counter[0]] + CountOne(counter[1..], s)
  }

  /** The number of times `s` has been counted. */
  function CountOf(counter: seq<(string, nat)>, s: string): nat
    decreases |counter|
  {
    if counter == [] then 0
    else if counter[0].0 == s then counter[0].1
    else CountOf(counter[1..], s)
  }

  /** Counting a value raises its count by one and leaves the others alone. */
  lemma {:induction false} CountOneCounts(counter: seq<(string, nat)>, s: string, t: string)
    ensures CountOf(CountOne(counter, s), t) == CountOf(counter, t) + (if t == s then 1 else 0)
    decreases |counter|
  {
    if counter != [] && counter[0].0 != s {
      CountOneCounts(counter[1..], s, t);
    }
  }

  /** `float(v)` for a number (a bool counts as 0 or 1). */
  function NumberValue(v: Value): real
    requires IsNumber(v)
  {
    match v
    case Bool(b) => if b then 1.0 else 0.0
    case Int(i) => i as real
    case Float(x) => x
  }

  /** `_analyze_request_body` on one primitive value. */
  function Record(st: FieldStats, v: Value): (r: FieldStats)
    requires Primitive(v)
    ensures v != Null ==> CountOf(r.values, PyStr(v)) == CountOf(st.values, PyStr(v)) + 1
    ensures v == Null ==> r.values == st.values
    ensures TypeName(v) in r.types
    ensures v.Str? ==> r.lengths == st.lengths + [|v.s|] && r.numericValues == st.numericValues
    ensures IsNumber(v) ==> r.numericValues == st.numericValues + [NumberValue(v)] && r.lengths == st.lengths
    ensures v.Str? ==> r.formats == st.formats + (if DetectFormat(v.s).Some? then {DetectFormat(v.s).value} else {})
  {
    var values := if v != Null then CountOne(st.values, PyStr(v)) else st.values;
    CountOneCounts(st.values, PyStr(v), PyStr(v));
    var types := if TypeName(v) in st.types then st.types else st.types + [TypeName(v)];
    if v.Str? then
      var format := DetectFormat(v.s);
      FieldStats(values, st.lengths + [|v.s|], st.numericValues,
        if format.Some? then st.formats + {format.value} else st.formats, types)
    else if IsNumber(v) then
      FieldStats(values, st.lengths, st.numericValues + [NumberValue(v)], st.formats, types)
    else
      FieldStats(values, st.lengths, st.numericValues, st.formats, types)
  }

  /** Record one leaf under its path, starting a fresh entry for a new path. */
  function RecordAt(acc: map<string, FieldStats>, path: string, v: Value): (r: map<string, FieldStats>)
    requires Primitive(v)
    ensures r.Keys == acc.Keys + {path}
  {
    acc[path := Record(if path in acc then acc[path] else EmptyStats, v)]
  }

  /** Record leaves in order (`Leaves` only yields primitives; anything else would be passed over). */
  function RecordAll(acc: map<string, FieldStats>, leaves: seq<(string, Value)>): (r: map<string, FieldStats>)
    decreases |leaves|
  {
    if leaves == [] then acc
    else
      var n := |leaves| - 1;
      var before := RecordAll(acc, leaves[..n]);
      if Primitive(leaves[n].1) then RecordAt(before, leaves[n].0, leaves[n].1) else before
  }

  /** Recording two runs of leaves is recording their concatenation. */
  lemma {:induction false} RecordAllAppend(acc: map<string, FieldStats>, a: seq<(string, Value)>, b: seq<(string, Value)>)
    ensures RecordAll(acc, a + b) == RecordAll(RecordAll(acc, a), b)
    decreases |b|
  {
    if b == [] {
      assert a + b == a;
    } else {
      var n := |b| - 1;
      var ab := a + b;
      RecordAllAppend(acc, a, b[..n]);
      assert ab[..|ab| - 1] == a + b[..n];
      assert ab[|ab| - 1] == b[n];
    }
  }

  /** Recording a single leaf is one `RecordAt`. */
  lemma RecordAllSingle(acc: map<string, FieldStats>, path: string, v: Value)
    requires Primitive(v)
    ensures RecordAll(acc, [(path, v)]) == RecordAt(acc, path, v)
  {
    assert [(path, v)][..0] == [];
  }

  /** Recording the leaves of one more part extends the record of the parts before it. */
  lemma RecordPartsStep(acc: map<string, FieldStats>, parts: seq<seq<(string, Value)>>, i: nat)
    requires i < |parts|
    ensures RecordAll(acc, Flatten(parts[..i + 1])) == RecordAll(RecordAll(acc, Flatten(parts[..i])), parts[i])
  {
    assert parts[..i + 1][..i] == parts[..i];
    assert Flatten(parts[..i + 1]) == Flatten(parts[..i]) + parts[i];
    RecordAllAppend(acc, Flatten(parts[..i]), parts[i]);
  }

  /**
   * `_analyze_request_body` writing into the shared `field_patterns` accumulator: every
   * primitive under the body is recorded at its field path.
   */
  class PatternAccumulator {
    var stats: map<string, FieldStats>

    constructor ()
      ensures stats == map[]
    {
      stats := map[];
    }

    method Analyze(body: Value, path: string)
      modifies this
      ensures stats == RecordAll(old(stats), Leaves(body, path))
      decreases body
    {
      match body {
        case Dict(e) =>
          ghost var start := stats;
          ghost var parts: seq<seq<(string, Value)>> := seq(|e|, j requires 0 <= j < |e| => Leaves(e[j].1, KeyPath(path, e[j].0)));
          var i := 0;
          while i < |e|
            invariant 0 <= i <= |e|
            invariant stats == RecordAll(start, Flatten(parts[..i]))
          {
            var (key, value) := e[i];
            assert value == e[i].1;
            Analyze(value, KeyPath(path, key));
            RecordPartsStep(start, parts, i);
            i := i + 1;
          }
          assert parts[..i] == parts;
          assert Leaves(body, path) == Flatten(parts);
        case List(items) =>
          ghost var start := stats;
          ghost var parts: seq<seq<(string, Value)>> := seq(|items|, j requires 0 <= j < |items| => Leaves(items[j], IndexPath(path, j)));
          var i := 0;
          while i < |items|
            invariant 0 <= i <= |items|
            invariant stats == RecordAll(start, Flatten(parts[..i]))
          {
            Analyze(items[i], IndexPath(path, i));
            RecordPartsStep(start, parts, i);
            i := i + 1;
          }
          assert parts[..i] == parts;
          assert Leaves(body, path) == Flatten(parts);
        case _ =>
          RecordAllSingle(stats, path, body);
          stats := RecordAt(stats, path, body);
      }
    }
  }

  // ---------------------------------------------------------------------------
  // Common values

  /** Counts never increase from left to right. */
  predicate DescendingCounts(s: seq<(string, nat)>) {
    forall i, j :: 0 <= i < j < |s| ==> s[i].1 >= s[j].1
  }

  /** The counted values seen at least `minOccurrences` times, in first-seen order. */
  function KeepCommon(counter: seq<(string, nat)>, minOccurrences: int): (r: seq<(string, nat)>)
    ensures forall x :: x in r <==> x in counter && x.1 >= minOccurrences
    decreases |counter|
  {
    if counter == [] then []
    else
      var n := |counter| - 1;
      var init := KeepCommon(counter[..n], minOccurrences);
      SplitLast(counter);
      if counter[n].1 >= minOccurrences then init + [counter[n]] else init
  }

  /** Insert after every entry with at least the same count (ties keep their order). */
  function InsertByCount(sorted: seq<(string, nat)>, x: (string, nat)): (r: seq<(string, nat)>)
    requires DescendingCounts(sorted)
    ensures DescendingCounts(r)
    ensures multiset(r) == multiset(sorted) + multiset{x}
    decreases |sorted|
  {
    if sorted == [] then [x]
    else if sorted[0].1 >= x.1 then
      var tail := sorted[1..];
      var rest := InsertByCount(tail, x);
      assert sorted == [sorted[0]] + tail;
      HeadDominates(sorted[0], tail, x, rest);
      [sorted[0]] + rest
    else [x] + sorted
  }

  /** A head count at least every count after it, and at least x's, stays in front of the insertion. */
  lemma HeadDominates(head: (string, nat), tail: seq<(string, nat)>, x: (string, nat), rest: seq<(string, nat)>)
    requires DescendingCounts([head] + tail) && head.1 >= x.1
    requires DescendingCounts(rest) && multiset(rest) == multiset(tail) + multiset{x}
    ensures DescendingCounts([head] + rest)
  {
    forall j | 0 <= j < |rest| ensures head.1 >= rest[j].1 {
      assert rest[j] in multiset(rest);
      if rest[j] != x {
        assert rest[j] in multiset(tail);
        var k :| 0 <= k < |tail| && tail[k] == rest[j];
        assert ([head] + tail)[0] == head && ([head] + tail)[k + 1] == tail[k];
      }
    }
    var r := [head] + rest;
    forall i, j | 0 <= i < j < |r| ensures r[i].1 >= r[j].1 {
      assert r[j] == rest[j - 1];
      if i > 0 {
        assert r[i] == rest[i - 1];
      }
    }
  }

  /** `Counter.most_common()`: a stable sort by descending count. */
  function SortByCount(s: seq<(string, nat)>): (r: seq<(string, nat)>)
    ensures DescendingCounts(r)
    ensures multiset(r) == multiset(s)
    decreases |s|
  {
    if s == [] then []
    else
      var n := |s| - 1;
      SplitLast(s);
      InsertByCount(SortByCount(s[..n]), s[n])
  }

  /**
   * `[(value, count) for value, count in counter.most_common() if count >= min_occurrences]`:
   * exactly the values seen often enough, most frequent first.
   */
  function CommonValues(counter: seq<(string, nat)>, minOccurrences: int): (r: seq<(string, nat)>)
    ensures DescendingCounts(r)
    ensures multiset(r) == multiset(KeepCommon(counter, minOccurrences))
    ensures forall x :: x in r <==> x in counter && x.1 >= minOccurrences
  {
    var r := SortByCount(KeepCommon(counter, minOccurrences));
    assert forall x :: x in r <==> x in multiset(r);
    r
  }

  // ---------------------------------------------------------------------------
  // Field summaries

  /** The pattern part of a field summary; absent keys are None. */
  datatype PatternInfo = PatternInfo(
    typeName: Option<string>,
    minLength: Option<nat>, maxLength: Option<nat>, avgLength: Option<real>,
    minValue: Option<real>, maxValue: Option<real>, avgValue: Option<real>,
    format: Option<string>)

  /** What `extract_common_values` reports for one field; an empty `commonValues` is an absent key. */
  datatype FieldInfo = FieldInfo(commonValues: seq<(string, nat)>, patterns: Option<PatternInfo>)

  function MinNat(s: seq<nat>): (m: nat)
    requires s != []
    ensures m in s && forall x :: x in s ==> m <= x
    decreases |s|
  {
    if |s| == 1 then s[0]
    else
      var n := |s| - 1;
      SplitLast(s);
      var m := MinNat(s[..n]);
      if s[n] < m then s[n] else m
  }

  function MaxNat(s: seq<nat>): (m: nat)
    requires s != []
    ensures m in s && forall x :: x in s ==> x <= m
    decreases |s|
  {
    if |s| == 1 then s[0]
    else
      var n := |s| - 1;
      assert s == s[..n] + [s[n]];
      var m := MaxNat(s[..n]);
      if s[n] > m then s[n] else m
  }

  function SumNat(s: seq<nat>): nat
    decreases |s|
  {
    if s == [] then 0 else SumNat(s[..|s| - 1]) + s[|s| - 1]
  }

  function MinReal(s: seq<real>): (m: real)
    requires s != []
    ensures m in s && forall x :: x in s ==> m <= x
    decreases |s|
  {
    if |s| == 1 then s[0]
    else
      var n := |s| - 1;
      assert s == s[..n] + [s[n]];
      var m := MinReal(s[..n]);
      if s[n] < m then s[n] else m
  }

  function MaxReal(s: seq<real>): (m: real)
    requires s != []
    ensures m in s && forall x :: x in s ==> x <= m
    decreases |s|
  {
    if |s| == 1 then s[0]
    else
      var n := |s| - 1;
      assert s == s[..n] + [s[n]];
      var m := MaxReal(s[..n]);
      if s[n] > m then s[n] else m
  }

  function SumReal(s: seq<real>): real
    decreases |s|
  {
    if s == [] then 0.0 else SumReal(s[..|s| - 1]) + s[|s| - 1]
  }

  /** A sum of naturals lies between length times the least and length times the greatest element. */
  lemma {:induction false} SumNatBounds(s: seq<nat>, lo: nat, hi: nat)
    requires forall x :: x in s ==> lo <= x <= hi
    ensures |s| * lo <= SumNat(s) <= |s| * hi
    decreases |s|
  {
    if s != [] {
      var n := |s| - 1;
      assert s[n] in s;
      assert forall x :: x in s[..n] ==> x in s;
      SumNatBounds(s[..n], lo, hi);
      TimesSucc(n, lo);
      TimesSucc(n, hi);
    }
  }

  /** One more copy of `x` adds `x`. */
  lemma TimesSucc(n: nat, x: nat)
    ensures (n + 1) * x == n * x + x
  {
  }

  /** One more copy of the real `x` adds `x`. */
  lemma TimesSuccReal(n: nat, x: real)
    ensures (n + 1) as real * x == n as real * x + x
  {
  }

  /** Converting a product of naturals to a real commutes with the multiplication. */
  lemma {:induction false} ProductAsReal(a: nat, b: nat)
    ensures (a * b) as real == a as real * b as real
    decreases a
  {
    if a > 0 {
      ProductAsReal(a - 1, b);
      assert a * b == (a - 1) * b + b;
      assert a as real * b as real == (a - 1) as real * b as real + b as real;
    }
  }

  /** A sum of reals lies between length times the least and length times the greatest element. */
  lemma {:induction false} SumRealBounds(s: seq<real>, lo: real, hi: real)
    requires forall x :: x in s ==> lo <= x <= hi
    ensures |s| as real * lo <= SumReal(s) <= |s| as real * hi
    decreases |s|
  {
    if s != [] {
      var n := |s| - 1;
      assert s[n] in s;
      assert forall x :: x in s[..n] ==> x in s;
      SumRealBounds(s[..n], lo, hi);
      TimesSuccReal(n, lo);
      TimesSuccReal(n, hi);
    }
  }

  /** `sum(s) / len(s)` lies between the least and the greatest element. */
  lemma AverageBetween(sum: real, n: nat, lo: real, hi: real)
    requires n > 0 && n as real * lo <= sum <= n as real * hi
    ensures lo <= sum / n as real <= hi
  {
    var avg := sum / n as real;
    assert sum == avg * n as real;
  }

  /** The formats `_detect_format` reports, in sorted order. */
  const SortedFormats: seq<string> := ["date", "date-time", "email", "uri", "uuid"]

  /** The members of `formats` among `order`, in that order. */
  function InOrder(order: seq<string>, formats: set<string>): (r: seq<string>)
    ensures forall f :: f in r <==> f in order && f in formats
    decreases |order|
  {
    if order == [] then []
    else (if order[0] in formats then [order[0]] else []) + InOrder(order[1..], formats)
  }

  /**
   * `'|'.join(sorted(formats))`. The formats recorded are always among the five
   * `_detect_format` returns, so ordering them along `SortedFormats` sorts them.
   */
  function JoinSorted(formats: set<string>): string {
    Join(InOrder(SortedFormats, formats), "|")
  }

  /** The pattern part of a field summary, or None when it would be empty. */
  function PatternInfoOf(st: FieldStats): (r: Option<PatternInfo>)
    ensures st.lengths != [] || st.numericValues != [] ==> r.Some?
    ensures r.Some? && st.lengths != [] ==>
      r.value.minLength == Some(MinNat(st.lengths)) && r.value.maxLength == Some(MaxNat(st.lengths))
  {
    var info := PatternInfo(
      if st.types != [] then Some(st.types[0]) else None,
      if st.lengths != [] then Some(MinNat(st.lengths)) else None,
      if st.lengths != [] then Some(MaxNat(st.lengths)) else None,
      if st.lengths != [] then Some(SumNat(st.lengths) as real / |st.lengths| as real) else None,
      if st.numericValues != [] then Some(MinReal(st.numericValues)) else None,
      if st.numericValues != [] then Some(MaxReal(st.numericValues)) else None,
      if st.numericValues != [] then Some(SumReal(st.numericValues) / |st.numericValues| as real) else None,
      if st.formats != {} then Some(JoinSorted(st.formats)) else None);
    if info == PatternInfo(None, None, None, None, None, None, None, None) then None else Some(info)
  }

  /** The summary of one field, or None when it has no common value, length or number. */
  function FieldInfoOf(st: FieldStats, minOccurrences: int): (r: Option<FieldInfo>)
    ensures r.Some? <==> CommonValues(st.values, minOccurrences) != [] || st.lengths != [] || st.numericValues != []
    ensures r.Some? ==> r.value.commonValues == CommonValues(st.values, minOccurrences)
    ensures r.Some? && r.value.commonValues == [] ==> r.value.patterns.Some?
  {
    var common := CommonValues(st.values, minOccurrences);
    if common == [] && st.lengths == [] && st.numericValues == [] then None
    else Some(FieldInfo(common, PatternInfoOf(st)))
  }

  /** The average of naturals lies between any bounds of its elements. */
  lemma NatAverageBounded(s: seq<nat>, lo: nat, hi: nat)
    requires s != [] && forall x :: x in s ==> lo <= x <= hi
    ensures lo as real <= SumNat(s) as real / |s| as real <= hi as real
  {
    SumNatBounds(s, lo, hi);
    ProductAsReal(|s|, lo);
    ProductAsReal(|s|, hi);
    AverageBetween(SumNat(s) as real, |s|, lo as real, hi as real);
  }

  /** The average of reals lies between any bounds of its elements. */
  lemma RealAverageBounded(s: seq<real>, lo: real, hi: real)
    requires s != [] && forall x :: x in s ==> lo <= x <= hi
    ensures lo <= SumReal(s) / |s| as real <= hi
  {
    SumRealBounds(s, lo, hi);
    AverageBetween(SumReal(s), |s|, lo, hi);
  }

  /** The reported average length lies between the reported shortest and longest. */
  lemma LengthAverageBetween(lengths: seq<nat>)
    requires lengths != []
    ensures MinNat(lengths) as real <= SumNat(lengths) as real / |lengths| as real <= MaxNat(lengths) as real
  {
    NatAverageBounded(lengths, MinNat(lengths), MaxNat(lengths));
  }

  /** The reported average value lies between the reported minimum and maximum. */
  lemma ValueAverageBetween(values: seq<real>)
    requires values != []
    ensures MinReal(values) <= SumReal(values) / |values| as real <= MaxReal(values)
  {
    RealAverageBounded(values, MinReal(values), MaxReal(values));
  }

  // ---------------------------------------------------------------------------
  // extract_common_values

  /** One row of the test history. */
  datatype HistoryRow = HistoryRow(id: int, status: string, statusCode: int)

  /** The rows pattern extraction learns from. */
  predicate Passed(row: HistoryRow) {
    row.status == "pass" && row.statusCode < 400
  }

  function PassedRows(rows: seq<HistoryRow>): (r: seq<HistoryRow>)
    ensures forall row :: row in r <==> row in rows && Passed(row)
    decreases |rows|
  {
    if rows == [] then []
    else
      var n := |rows| - 1;
      SplitLast(rows);
      PassedRows(rows[..n]) + (if Passed(rows[n]) then [rows[n]] else [])
  }

  function Ids(rows: seq<HistoryRow>): (ids: seq<int>)
    ensures |ids| == |rows| && forall i :: 0 <= i < |rows| ==> ids[i] == rows[i].id
  {
    seq(|rows|, i requires 0 <= i < |rows| => rows[i].id)
  }

  /**
   * `_get_request_bodies`: the stored bodies (rows with a non-NULL body, as decoded) of the
   * given tests, in table order.
   */
  function RequestBodies(ids: seq<int>, stored: seq<(int, Option<Value>)>): (r: seq<Option<Value>>)
    ensures ids == [] ==> r == []
    ensures |r| <= |stored|
    decreases |stored|
  {
    if ids == [] || stored == [] then []
    else
      var n := |stored| - 1;
      RequestBodies(ids, stored[..n]) + (if stored[n].0 in ids then [stored[n].1] else [])
  }

  /** The bodies of a table read in two parts are those of the first part, then those of the second. */
  lemma {:induction false} RequestBodiesAppend(ids: seq<int>, a: seq<(int, Option<Value>)>, b: seq<(int, Option<Value>)>)
    ensures RequestBodies(ids, a + b) == RequestBodies(ids, a) + RequestBodies(ids, b)
    decreases |b|
  {
    if b == [] {
      assert a + b == a;
    } else if ids != [] {
      var n := |b| - 1;
      RequestBodiesAppend(ids, a, b[..n]);
      assert (a + b)[..|a + b| - 1] == a + b[..n];
    }
  }

  /** One stored row contributes its body exactly when its test is among the ids. */
  lemma RequestBodiesOne(ids: seq<int>, row: (int, Option<Value>))
    ensures RequestBodies(ids, [row]) == if row.0 in ids then [row.1] else []
  {
    assert [row][..0] == [];
  }

  /** A body is returned exactly when some stored row of one of the tests holds it. */
  lemma {:induction false} RequestBodiesMembers(ids: seq<int>, stored: seq<(int, Option<Value>)>, b: Option<Value>)
    ensures b in RequestBodies(ids, stored) <==> exists i :: 0 <= i < |stored| && stored[i].0 in ids && stored[i].1 == b
    decreases |stored|
  {
    if ids != [] && stored != [] {
      var n := |stored| - 1;
      RequestBodiesMembers(ids, stored[..n], b);
      if exists i :: 0 <= i < |stored| && stored[i].0 in ids && stored[i].1 == b {
        var i :| 0 <= i < |stored| && stored[i].0 in ids && stored[i].1 == b;
        if i < n {
          assert stored[..n][i] == stored[i];
        }
      }
      if exists i :: 0 <= i < n && stored[..n][i].0 in ids && stored[..n][i].1 == b {
        var i :| 0 <= i < n && stored[..n][i].0 in ids && stored[..n][i].1 == b;
        assert stored[i] == stored[..n][i];
      }
    }
  }

  /** The analysis loop: every truthy body recorded from the root path. */
  function AnalyzeBodies(acc: map<string, FieldStats>, bodies: seq<Option<Value>>): map<string, FieldStats>
    decreases |bodies|
  {
    if bodies == [] then acc
    else
      var n := |bodies| - 1;
      var before := AnalyzeBodies(acc, bodies[..n]);
      if bodies[n].Some? && Truthy(bodies[n].value) then RecordAll(before, Leaves(bodies[n].value, "")) else before
  }

  /** The summaries of the fields in `keys`, dropping fields with nothing useful. */
  function Summaries(stats: map<string, FieldStats>, keys: set<string>, minOccurrences: int): map<string, FieldInfo> {
    map k | k in keys && k in stats && FieldInfoOf(stats[k], minOccurrences).Some? :: FieldInfoOf(stats[k], minOccurrences).value
  }

  /** `extract_common_values` over the given history and stored bodies. */
  function CommonValuesByField(rows: seq<HistoryRow>, stored: seq<(int, Option<Value>)>, minOccurrences: int): (r: map<string, FieldInfo>)
    ensures PassedRows(rows) == [] ==> r == map[]
    ensures forall k :: k in r ==> forall x :: x in r[k].commonValues ==> x.1 >= minOccurrences
    ensures forall k :: k in r ==> DescendingCounts(r[k].commonValues)
    ensures forall k :: k in r ==> r[k].commonValues != [] || r[k].patterns.Some?
  {
    var passed := PassedRows(rows);
    if passed == [] then map[]
    else
      var bodies := RequestBodies(Ids(passed), stored);
      if bodies == [] then map[]
      else
        var stats := AnalyzeBodies(map[], bodies);
        Summaries(stats, stats.Keys, minOccurrences)
  }

  /** A field whose values all occur fewer than `minOccurrences` times is reported only for its lengths or numbers. */
  lemma RareValuesNotCommon(stats: map<string, FieldStats>, k: string, minOccurrences: int)
    requires k in stats && forall x :: x in stats[k].values ==> x.1 < minOccurrences
    ensures k in Summaries(stats, stats.Keys, minOccurrences) ==>
      Summaries(stats, stats.Keys, minOccurrences)[k].commonValues == [] &&
      (stats[k].lengths != [] || stats[k].numericValues != [])
  {
    var common := CommonValues(stats[k].values, minOccurrences);
    assert forall x :: x !in common;
  }

  /** `extract_common_values` as written: filter, fetch, analyse every body, then summarise each field. */
  method ExtractCommonValues(rows: seq<HistoryRow>, stored: seq<(int, Option<Value>)>, minOccurrences: int)
    returns (result: map<string, FieldInfo>)
    ensures result == CommonValuesByField(rows, stored, minOccurrences)
  {
    var passed := PassedRows(rows);
    if passed == [] {
      return map[];
    }
    var bodies := RequestBodies(Ids(passed), stored);
    if bodies == [] {
      return map[];
    }
    var stats := AnalyzeAll(bodies);
    result := Summarize(stats, minOccurrences);
  }

  /** The analysis loop of `extract_common_values`, on a fresh accumulator. */
  method AnalyzeAll(bodies: seq<Option<Value>>) returns (stats: map<string, FieldStats>)
    ensures stats == AnalyzeBodies(map[], bodies)
  {
    var fieldPatterns := new PatternAccumulator();
    var i := 0;
    while i < |bodies|
      invariant 0 <= i <= |bodies|
      invariant fieldPatterns.stats == AnalyzeBodies(map[], bodies[..i])
    {
      assert bodies[..i + 1][..i] == bodies[..i];
      if bodies[i].Some? && Truthy(bodies[i].value) {
        fieldPatterns.Analyze(bodies[i].value, "");
      }
      i := i + 1;
    }
    assert bodies[..i] == bodies;
    stats := fieldPatterns.stats;
  }

  /** Summarising one more field adds its entry, if it has one, and changes nothing else. */
  lemma SummariesAdd(stats: map<string, FieldStats>, done: set<string>, k: string, minOccurrences: int)
    requires k in stats
    ensures var info := FieldInfoOf(stats[k], minOccurrences);
      Summaries(stats, done + {k}, minOccurrences) ==
        if info.Some? then Summaries(stats, done, minOccurrences)[k := info.value] else Summaries(stats, done, minOccurrences)
  {
  }

  /** The summary loop of `extract_common_values`: one entry per field that has something to report. */
  method Summarize(stats: map<string, FieldStats>, minOccurrences: int) returns (result: map<string, FieldInfo>)
    ensures result == Summaries(stats, stats.Keys, minOccurrences)
  {
    result := map[];
    var todo := stats.Keys;
    ghost var done: set<string> := {};
    while todo != {}
      invariant todo <= stats.Keys && done == stats.Keys - todo
      invariant result == Summaries(stats, done, minOccurrences)
      decreases |todo|
    {
      var fieldPath :| fieldPath in todo;
      var info := FieldInfoOf(stats[fieldPath], minOccurrences);
      SummariesAdd(stats, done, fieldPath, minOccurrences);
      if info.Some? {
        result := result[fieldPath := info.value];
      }
      todo := todo - {fieldPath};
      done := done + {fieldPath};
    }
  }

  // ---------------------------------------------------------------------------
  // ID fields

  /** A key that names an identifier: ending in '_id' or equal to 'id', ignoring case. */
  predicate IsIdKey(key: string) {
    EndsWith(Lower(key), "_id") || Lower(key) == "id"
  }

  /** `isinstance(value, (int, str))`; a bool is an int. */
  predicate IsIdValue(v: Value) {
    v.Int? || v.Bool? || v.Str?
  }

  /** The entries of a dict loop: an ID entry itself, then whatever its value contains. */
  function IdFold(e: Entries, nested: seq<Entries>, prefix: string): Entries
    requires |nested| == |e|
    decreases |e|
  {
    if e == [] then []
    else
      var n := |e| - 1;
      var acc := IdFold(e[..n], nested[..n], prefix);
      var acc' := if IsIdKey(e[n].0) && IsIdValue(e[n].1) then Put(acc, KeyPath(prefix, e[n].0), e[n].1) else acc;
      Update(acc', nested[n])
  }

  /** `id_fields.update(...)` for each item's result in turn. */
  function UpdateAll(acc: Entries, nested: seq<Entries>): Entries
    decreases |nested|
  {
    if nested == [] then acc else Update(UpdateAll(acc, nested[..|nested| - 1]), nested[|nested| - 1])
  }

  predicate AllIdValues(entries: Entries) {
    forall x :: x in entries ==> IsIdValue(x.1)
  }

  lemma {:induction false} IdFoldValues(e: Entries, nested: seq<Entries>, prefix: string)
    requires |nested| == |e| && forall j :: 0 <= j < |nested| ==> AllIdValues(nested[j])
    ensures AllIdValues(IdFold(e, nested, prefix))
    decreases |e|
  {
    if e != [] {
      var n := |e| - 1;
      IdFoldValues(e[..n], nested[..n], prefix);
      var acc := IdFold(e[..n], nested[..n], prefix);
      var acc' := if IsIdKey(e[n].0) && IsIdValue(e[n].1) then Put(acc, KeyPath(prefix, e[n].0), e[n].1) else acc;
      PutEntries(acc, KeyPath(prefix, e[n].0), e[n].1);
      assert AllIdValues(acc');
      UpdateEntries(acc', nested[n]);
    }
  }

  lemma {:induction false} UpdateAllValues(acc: Entries, nested: seq<Entries>)
    requires AllIdValues(acc) && forall j :: 0 <= j < |nested| ==> AllIdValues(nested[j])
    ensures AllIdValues(UpdateAll(acc, nested))
    decreases |nested|
  {
    if nested != [] {
      var n := |nested| - 1;
      UpdateAllValues(acc, nested[..n]);
      UpdateEntries(UpdateAll(acc, nested[..n]), nested[n]);
    }
  }

  /** `_extract_id_fields`: the identifier fields at every depth, keyed by their path; every value found is an int or a string. */
  function IdFields(data: Value, prefix: string): (r: Entries)
    ensures AllIdValues(r)
    ensures !data.Dict? && !data.List? ==> r == []
    decreases data
  {
    match data
    case Dict(e) =>
      var nested := seq(|e|, i requires 0 <= i < |e| => IdFields(e[i].1, KeyPath(prefix, e[i].0)));
      IdFoldValues(e, nested, prefix);
      IdFold(e, nested, prefix)
    case List(items) =>
      var nested := seq(|items|, i requires 0 <= i < |items| => IdFields(items[i], IndexPath(prefix, i)));
      UpdateAllValues([], nested);
      UpdateAll([], nested)
    case _ => []
  }

  /** A key the dict loop has passed stays found. */
  lemma IdFoldHasKey(e: Entries, nested: seq<Entries>, prefix: string, i: nat)
    requires |nested| == |e| && i < |e| && IsIdKey(e[i].0) && IsIdValue(e[i].1)
    ensures HasKey(IdFold(e, nested, prefix), KeyPath(prefix, e[i].0))
  {
    assert IdEntry(e[i], prefix, KeyPath(prefix, e[i].0));
    IdFoldKeys(e, nested, prefix, KeyPath(prefix, e[i].0));
  }

  /** An ID key with an int or string value at the top level of a dict is reported under its path. */
  lemma TopLevelIdFound(e: Entries, prefix: string, i: nat)
    requires i < |e| && IsIdKey(e[i].0) && IsIdValue(e[i].1)
    ensures HasKey(IdFields(Dict(e), prefix), KeyPath(prefix, e[i].0))
  {
    var nested := seq(|e|, j requires 0 <= j < |e| => IdFields(e[j].1, KeyPath(prefix, e[j].0)));
    IdFoldHasKey(e, nested, prefix, i);
  }

  /** Path `p` names an identifier somewhere inside `data`, reached from `prefix`: an `id`/`*_id` key of a dict with an int or string value, at any depth of dicts and lists. */
  ghost predicate IdPathIn(data: Value, prefix: string, p: string)
    decreases data
  {
    match data
    case Dict(e) =>
      exists i :: 0 <= i < |e| && (IdEntry(e[i], prefix, p) || IdPathIn(e[i].1, KeyPath(prefix, e[i].0), p))
    case List(items) =>
      exists i :: 0 <= i < |items| && IdPathIn(items[i], IndexPath(prefix, i), p)
    case _ => false
  }

  /** The dict entry `kv` is itself an identifier stored at path `p`. */
  predicate IdEntry(kv: (string, Value), prefix: string, p: string) {
    IsIdKey(kv.0) && IsIdValue(kv.1) && p == KeyPath(prefix, kv.0)
  }

  /** The dict loop finds a path exactly when some entry is it or some entry's nested result has it. */
  lemma {:induction false} IdFoldKeys(e: Entries, nested: seq<Entries>, prefix: string, p: string)
    requires |nested| == |e|
    ensures HasKey(IdFold(e, nested, prefix), p) <==>
      exists i :: 0 <= i < |e| && (IdEntry(e[i], prefix, p) || HasKey(nested[i], p))
    decreases |e|
  {
    if e != [] {
      var n := |e| - 1;
      IdFoldKeys(e[..n], nested[..n], prefix, p);
      IdFoldStepKeys(e, nested, prefix, p);
      FoldHitSnoc(e, nested, prefix, p);
    }
  }

  /** One dict-loop step finds a path exactly when it was found before, or the last entry is it or has it. */
  lemma IdFoldStepKeys(e: Entries, nested: seq<Entries>, prefix: string, p: string)
    requires |nested| == |e| && e != []
    ensures var n := |e| - 1;
      HasKey(IdFold(e, nested, prefix), p) <==>
        HasKey(IdFold(e[..n], nested[..n], prefix), p) || IdEntry(e[n], prefix, p) || HasKey(nested[n], p)
  {
    var n := |e| - 1;
    var acc := IdFold(e[..n], nested[..n], prefix);
    var put := IsIdKey(e[n].0) && IsIdValue(e[n].1);
    PutHasKey(acc, KeyPath(prefix, e[n].0), e[n].1, p);
    UpdateHasKey(if put then Put(acc, KeyPath(prefix, e[n].0), e[n].1) else acc, nested[n], p);
  }

  /** Some entry is or holds path `p` exactly when some entry before the last does, or the last does. */
  lemma FoldHitSnoc(e: Entries, nested: seq<Entries>, prefix: string, p: string)
    requires |nested| == |e| && e != []
    ensures var n := |e| - 1;
      (exists i :: 0 <= i < |e| && (IdEntry(e[i], prefix, p) || HasKey(nested[i], p))) <==>
        (exists i :: 0 <= i < n && (IdEntry(e[..n][i], prefix, p) || HasKey(nested[..n][i], p))) ||
        IdEntry(e[n], prefix, p) || HasKey(nested[n], p)
  {
    var n := |e| - 1;
    if exists i :: 0 <= i < |e| && (IdEntry(e[i], prefix, p) || HasKey(nested[i], p)) {
      var i :| 0 <= i < |e| && (IdEntry(e[i], prefix, p) || HasKey(nested[i], p));
      if i < n {
        assert e[..n][i] == e[i] && nested[..n][i] == nested[i];
      }
    }
    if exists i :: 0 <= i < n && (IdEntry(e[..n][i], prefix, p) || HasKey(nested[..n][i], p)) {
      var i :| 0 <= i < n && (IdEntry(e[..n][i], prefix, p) || HasKey(nested[..n][i], p));
      assert e[..n][i] == e[i] && nested[..n][i] == nested[i];
    }
  }

  /** The list loop finds a path exactly when the start has it or some item's result has it. */
  lemma {:induction false} UpdateAllKeys(acc: Entries, nested: seq<Entries>, p: string)
    ensures HasKey(UpdateAll(acc, nested), p) <==>
      HasKey(acc, p) || exists i :: 0 <= i < |nested| && HasKey(nested[i], p)
    decreases |nested|
  {
    if nested != [] {
      var n := |nested| - 1;
      UpdateAllKeys(acc, nested[..n], p);
      UpdateHasKey(UpdateAll(acc, nested[..n]), nested[n], p);
      if exists i :: 0 <= i < |nested| && HasKey(nested[i], p) {
        var i :| 0 <= i < |nested| && HasKey(nested[i], p);
        if i < n {
          assert nested[..n][i] == nested[i];
        }
      }
      if exists i :: 0 <= i < n && HasKey(nested[..n][i], p) {
        var i :| 0 <= i < n && HasKey(nested[..n][i], p);
        assert nested[..n][i] == nested[i];
      }
    }
  }

  /** `_extract_id_fields` reports exactly the identifier paths: every `id`/`*_id` key with an int or string value, at every depth, under its dotted or indexed path, and no other path. */
  lemma {:induction false} IdFieldsExact(data: Value, prefix: string, p: string)
    ensures HasKey(IdFields(data, prefix), p) <==> IdPathIn(data, prefix, p)
    decreases data
  {
    match data
    case Dict(e) =>
      var nested := seq(|e|, i requires 0 <= i < |e| => IdFields(e[i].1, KeyPath(prefix, e[i].0)));
      forall i | 0 <= i < |e|
        ensures HasKey(nested[i], p) <==> IdPathIn(e[i].1, KeyPath(prefix, e[i].0), p)
      {
        assert e[i] in e;
        IdFieldsExact(e[i].1, KeyPath(prefix, e[i].0), p);
      }
      IdFoldKeys(e, nested, prefix, p);
    case List(items) =>
      var nested := seq(|items|, i requires 0 <= i < |items| => IdFields(items[i], IndexPath(prefix, i)));
      forall i | 0 <= i < |items|
        ensures HasKey(nested[i], p) <==> IdPathIn(items[i], IndexPath(prefix, i), p)
      {
        assert items[i] in items;
        IdFieldsExact(items[i], IndexPath(prefix, i), p);
      }
      UpdateAllKeys([], nested, p);
    case _ =>
  }

  /** One more step of the dict loop. */
  lemma IdFoldSnoc(e: Entries, nested: seq<Entries>, prefix: string, i: nat)
    requires |nested| == |e| && i < |e|
    ensures var acc := IdFold(e[..i], nested[..i], prefix);
      IdFold(e[..i + 1], nested[..i + 1], prefix) ==
        Update(if IsIdKey(e[i].0) && IsIdValue(e[i].1) then Put(acc, KeyPath(prefix, e[i].0), e[i].1) else acc, nested[i])
  {
    assert e[..i + 1][..i] == e[..i] && nested[..i + 1][..i] == nested[..i];
  }

  /** One pass of the dict loop extends the fold by the next entry. */
  lemma DictStepIds(e: Entries, nested: seq<Entries>, prefix: string, i: nat, acc: Entries, nestedIds: Entries, r: Entries)
    requires |nested| == |e| && i < |e| && acc == IdFold(e[..i], nested[..i], prefix) && nestedIds == nested[i]
    requires r == Update(if IsIdKey(e[i].0) && IsIdValue(e[i].1) then Put(acc, KeyPath(prefix, e[i].0), e[i].1) else acc, nestedIds)
    ensures r == IdFold(e[..i + 1], nested[..i + 1], prefix)
  {
    IdFoldSnoc(e, nested, prefix, i);
  }

  /** `_extract_id_fields` as written: a dict loop and a list loop, each merging the recursive results. */
  method ExtractIdFields(data: Value, prefix: string) returns (idFields: Entries)
    ensures idFields == IdFields(data, prefix)
    decreases data, 1
  {
    match data {
      case Dict(e) =>
        idFields := ExtractDictIds(e, prefix);
      case List(items) =>
        idFields := ExtractListIds(items, prefix);
      case _ =>
        idFields := [];
    }
  }

  /** The dict loop of `_extract_id_fields`. */
  method ExtractDictIds(e: Entries, prefix: string) returns (idFields: Entries)
    ensures idFields == IdFields(Dict(e), prefix)
    decreases Dict(e), 0
  {
    idFields := [];
    ghost var nested := seq(|e|, j requires 0 <= j < |e| => IdFields(e[j].1, KeyPath(prefix, e[j].0)));
    var i := 0;
    while i < |e|
      invariant 0 <= i <= |e|
      invariant idFields == IdFold(e[..i], nested[..i], prefix)
    {
      ghost var accBefore := idFields;
      var key, value := e[i].0, e[i].1;
      var fieldPath := KeyPath(prefix, key);
      assert value < Dict(e) by {
        assert e[i] in e;
      }
      if IsIdKey(key) && IsIdValue(value) {
        idFields := Put(idFields, fieldPath, value);
      }
      var nestedIds := ExtractIdFields(value, fieldPath);
      idFields := Update(idFields, nestedIds);
      DictStepIds(e, nested, prefix, i, accBefore, nestedIds, idFields);
      i := i + 1;
    }
    assert e[..i] == e && nested[..i] == nested;
  }

  /** The list loop of `_extract_id_fields`. */
  method ExtractListIds(items: seq<Value>, prefix: string) returns (idFields: Entries)
    ensures idFields == IdFields(List(items), prefix)
    decreases List(items), 0
  {
    idFields := [];
    ghost var nested := seq(|items|, j requires 0 <= j < |items| => IdFields(items[j], IndexPath(prefix, j)));
    var i := 0;
    while i < |items|
      invariant 0 <= i <= |items|
      invariant idFields == UpdateAll([], nested[..i])
    {
      assert items[i] < List(items) by {
        assert items[i] in items;
      }
      var nestedIds := ExtractIdFields(items[i], IndexPath(prefix, i));
      assert nestedIds == nested[i];
      idFields := Update(idFields, nestedIds);
      assert nested[..i + 1][..i] == nested[..i];
      i := i + 1;
    }
    assert nested[..i] == nested;
  }
}
