/**
 * Building the prompt sent to the AI model (apitest/ai/prompt_builder.py): choosing the
 * template, preparing the values put into it, the capped lists it shows, the filtered view
 * of each endpoint in a batch prompt, and seeding the prompt store with the defaults.
 *
 * The built-in template texts are large constants; a template is identified here by its name
 * and its format rather than spelled out. YAML/JSON dumps of schemas and examples are the
 * parameter `dump`, and the two-decimal rendering of a number is the parameter `fixed2`.
 */
module PromptBuilder {
  import opened Wrappers
  import opened Json
  import opened Strings
  import opened Sorting

  datatype PromptFormat = Markdown | Xml
  datatype SchemaFormat = JsonFormat | Yaml | Toon

  const TemplateBasic := "test_generation_basic"
  const TemplateAdvanced := "test_generation_advanced"
  const TemplateEdgeCases := "test_generation_edge_cases"
  const TemplateBatch := "test_generation_batch"

  /** The names the built-in template sets define. */
  const TemplateNames: seq<string> := [TemplateBasic, TemplateAdvanced, TemplateEdgeCases, TemplateBatch]

  /** A template: a built-in one of the given format, or the content of a stored prompt row. */
  datatype Template = Builtin(name: string, format: PromptFormat) | Stored(content: Value)

  /** The outcome of one prompt-store lookup: the row it returned (Null for none), or an exception. */
  datatype Fetch = Row(row: Value) | Raised

  // ---------------------------------------------------------------------------
  // Template selection
  // ---------------------------------------------------------------------------

  /** `self._default_templates[name]`, falling back to the basic template for an unknown name. */
  function DefaultTemplate(name: string, format: PromptFormat): (t: Template)
    ensures t.Builtin? && t.format == format && t.name in TemplateNames
    ensures t.name == name <==> name in TemplateNames
    ensures name !in TemplateNames ==> t.name == TemplateBasic
  {
    if name in TemplateNames then Builtin(name, format) else Builtin(TemplateBasic, format)
  }

  /** A stored row that `_load_template` uses: a truthy row, read with `.get` (a non-dict raises). */
  predicate Usable(f: Fetch) {
    f.Row? && Truthy(f.row) && f.row.Dict?
  }

  /** A lookup that lets the search go on to the next source: it returned a falsy row. */
  predicate Empty(f: Fetch) {
    f.Row? && !Truthy(f.row)
  }

  /**
   * `_load_template`: the active stored prompt, else the latest stored prompt, else the
   * built-in template; any exception while consulting the store goes straight to the built-ins.
   */
  function LoadTemplate(hasStorage: bool, active: Fetch, latest: Fetch, name: string, format: PromptFormat): (t: Template)
    ensures t.Stored? <==> hasStorage && (Usable(active) || (Empty(active) && Usable(latest)))
    ensures hasStorage && Usable(active) ==> t == Stored(GetOr(active.row, "prompt_template", Str("")))
    ensures hasStorage && Empty(active) && Usable(latest) ==> t == Stored(GetOr(latest.row, "prompt_template", Str("")))
    ensures t.Builtin? ==> t == DefaultTemplate(name, format)
  {
    var fallback := DefaultTemplate(name, format);
    if !hasStorage then fallback
    else if active.Raised? then fallback
    else if Truthy(active.row) then
      if active.row.Dict? then Stored(GetOr(active.row, "prompt_template", Str(""))) else fallback
    else if Usable(latest) then Stored(GetOr(latest.row, "prompt_template", Str("")))
    else fallback
  }

  /** Without a store, or with a store that fails, the template depends only on the name and the format. */
  lemma LoadTemplateWithoutStore(active: Fetch, latest: Fetch, name: string, format: PromptFormat)
    ensures LoadTemplate(false, active, latest, name, format) == DefaultTemplate(name, format)
    ensures LoadTemplate(true, Raised, latest, name, format) == DefaultTemplate(name, format)
    ensures LoadTemplate(true, Row(Null), Raised, name, format) == DefaultTemplate(name, format)
  {
  }

  // ---------------------------------------------------------------------------
  // Template variables
  // ---------------------------------------------------------------------------

  /** `v or 'N/A'`. */
  function OrNA(v: Value): (r: Value)
    ensures Truthy(r)
    ensures Truthy(v) ==> r == v
  {
    if Truthy(v) then v else Str("N/A")
  }

  /**
   * `', '.join(tags)`: Python joins whatever it can iterate as long as every item is a
   * string, so a list of strings, a dict (its keys) and a string (its characters) all join;
   * None stands for the TypeError any other value raises.
   */
  function JoinTags(tags: Value): (r: Option<string>)
    ensures r.Some? <==> tags.Str? || tags.Dict? || (tags.List? && forall i :: 0 <= i < |tags.items| ==> tags.items[i].Str?)
    ensures r.Some? ==> (r.value == "" <==> Iter(tags).value == [] || Iter(tags).value == [Str("")])
    ensures tags.Str? ==> r.Some? && |r.value| == if tags.s == [] then 0 else 3 * |tags.s| - 2
  {
    var items := Iter(tags);
    if items.Some? && forall i :: 0 <= i < |items.value| ==> items.value[i].Str? then
      var names := seq(|items.value|, i requires 0 <= i < |items.value| => items.value[i].s);
      JoinEmpty(names, ", ");
      assert names == [""] ==> items.value == [Str("")];
      if tags.Str? then
        JoinSingles(names, ", ");
        Some(Join(names, ", "))
      else Some(Join(names, ", "))
    else None
  }

  /** Joining with a non-empty separator gives the empty string only for no parts or one empty part. */
  lemma JoinEmpty(parts: seq<string>, sep: string)
    requires sep != ""
    ensures Join(parts, sep) == "" <==> parts == [] || parts == [""]
  {
    if |parts| > 1 {
      JoinLength(parts, sep);
    }
  }

  /** Joining one-character parts: each part and, between two parts, one separator. */
  lemma {:induction false} JoinSingles(parts: seq<string>, sep: string)
    requires forall i :: 0 <= i < |parts| ==> |parts[i]| == 1
    ensures |Join(parts, sep)| == if parts == [] then 0 else |parts| + (|parts| - 1) * |sep|
  {
    if |parts| > 1 {
      JoinSingles(parts[1..], sep);
    }
  }

  /** A join of two or more parts holds at least one separator. */
  lemma {:induction false} JoinLength(parts: seq<string>, sep: string)
    requires |parts| > 1
    ensures |Join(parts, sep)| >= |sep|
  {
    if |parts| > 2 {
      JoinLength(parts[1..], sep);
    }
  }

  /**
   * Whether `sorted(..., key=count)` can order the status-code counts: a single entry is never
   * compared, and numbers (bools and floats included) compare with each other.
   */
  predicate SortableCounts(e: Entries) {
    |e| <= 1 || forall i :: 0 <= i < |e| ==> IsNumber(e[i].1)
  }

  /** The sort key of a `(code, count)` item: the count's numeric value. */
  function CountKey(p: (string, Value)): real {
    AsNumber(p.1).GetOr(0.0)
  }

  /** The five codes with the largest counts, largest first (ties in dict order). */
  function TopCodes(e: Entries): seq<(string, Value)> {
    Take(SortDescending(e, CountKey), 5)
  }

  /**
   * The shown codes are at most five, all from the dict, and no code left out has a larger
   * count than a code shown.
   */
  lemma TopCodesDominate(e: Entries)
    requires forall i :: 0 <= i < |e| ==> IsNumber(e[i].1)
    ensures |TopCodes(e)| == if |e| < 5 then |e| else 5
    ensures forall p :: p in TopCodes(e) ==> p in e
    ensures forall p, q :: p in TopCodes(e) && q in e && q !in TopCodes(e) ==>
      AsNumber(p.1).value >= AsNumber(q.1).value
  {
    TopDominates(e, CountKey, 5);
    var top := TopCodes(e);
    forall p, q | p in top && q in e && q !in top ensures AsNumber(p.1).value >= AsNumber(q.1).value {
      assert CountKey(p) >= CountKey(q);
    }
  }

  /** One `f"{code}({count})"` entry. */
  function CodeText(p: (string, Value)): string {
    p.0 + "(" + PyStr(p.1) + ")"
  }

  /**
   * `common_status_codes` as prompt text: for a dict the five most frequent codes as
   * 'code(count)', for a list its first five codes; 'N/A' when that is empty and for any
   * other value. None stands for the TypeError of comparing counts that are not numbers.
   */
  function StatusCodesText(codes: Value): (r: Option<string>)
    ensures codes.Dict? ==> (r.Some? <==> SortableCounts(codes.entries))
    ensures !codes.Dict? ==> r.Some?
    ensures r.Some? ==> r.value != ""
    ensures (codes.Dict? && codes.entries == []) || !(codes.Dict? || codes.List?) ==> r == Some("N/A")
  {
    match codes
    case Dict(e) =>
      if !SortableCounts(e) then None
      else
        var top := TopCodes(e);
        var s := Join(seq(|top|, i requires 0 <= i < |top| => CodeText(top[i])), ", ");
        Some(if s == "" then "N/A" else s)
    case List(items) =>
      var first := Take(items, 5);
      var s := Join(seq(|first|, i requires 0 <= i < |first| => PyStr(first[i])), ", ");
      Some(if s == "" then "N/A" else s)
    case _ => Some("N/A")
  }

  /** The template values `_prepare_template_variables` decides (the dumped texts are left out). */
  datatype Variables = Variables(
    httpMethod: Value,
    path: Value,
    summary: Value,
    description: Value,
    operationId: Value,
    tags: Value,
    historyCount: Value,
    successRate: Option<Value>,
    commonStatusCodes: string,
    recentResults: string)

  /**
   * A list the example and pattern formatters read without raising: falsy (the fixed message),
   * or a list whose first `cap` items are dicts. A truthy non-list cannot be sliced into
   * dicts, and a non-dict item fails at its `.get`.
   */
  predicate ListOfDicts(v: Value, cap: nat) {
    !Truthy(v) || (v.List? && Dicts(Take(v.items, cap)).Some?)
  }

  /** `_format_response_examples` reads it: falsy, or a dict whose every example list is readable. */
  predicate ResponseExamplesReadable(v: Value) {
    !Truthy(v) ||
    (v.Dict? && forall k :: 0 <= k < |v.entries| ==> ListOfDicts(v.entries[k].1, ResponseExamplesCap))
  }

  /** `_format_patterns` (any schema format) reads it: the first three are dicts whose effectiveness formats with `.2f`. */
  predicate PatternsReadable(v: Value) {
    ListOfDicts(v, PatternsCap) &&
    (Truthy(v) ==> forall k :: 0 <= k < |v.items| && k < PatternsCap ==> IsNumber(GetOr(v.items[k], "effectiveness", Int(0))))
  }

  /**
   * `_prepare_template_variables`: the endpoint fields with their defaults ('GET', '', and
   * 'N/A' for an empty summary, description, operation id or tag list) and the history
   * summary. None stands for an exception: tags that do not join as strings, request or
   * response examples, validated examples or patterns the formatters cannot read, a history
   * that is not a dict, a success rate that is not a number, status-code counts that cannot
   * be sorted or unreadable recent results.
   */
  function PrepareVariables(context: Entries, endpoint: Entries, format: PromptFormat): (r: Option<Variables>)
    ensures r.Some? ==> Truthy(r.value.summary) && Truthy(r.value.description) &&
                        Truthy(r.value.operationId) && Truthy(r.value.tags)
    ensures r.Some? ==> r.value.httpMethod == Lookup(endpoint, "method").GetOr(Str("GET"))
    ensures r.Some? && !HasKey(endpoint, "summary") ==> r.value.summary == Str("N/A")
    ensures r.Some? ==> (r.value.successRate.None? <==>
                         GetOr(Lookup(context, "history").GetOr(Dict([])), "success_rate", Null).Null?)
    ensures r.Some? ==> r.value.successRate.None? || IsNumber(r.value.successRate.value)
    ensures !ListOfDicts(Lookup(endpoint, "request_examples").GetOr(List([])), RequestExamplesCap) ==> r.None?
    ensures !ResponseExamplesReadable(Lookup(endpoint, "response_examples").GetOr(Dict([]))) ==> r.None?
    ensures !ListOfDicts(Lookup(context, "validated_examples").GetOr(List([])), ValidatedExamplesCap) ==> r.None?
    ensures !PatternsReadable(Lookup(context, "patterns").GetOr(List([]))) ==> r.None?
  {
    var tags := JoinTags(Lookup(endpoint, "tags").GetOr(List([])));
    var history := Lookup(context, "history").GetOr(Dict([]));
    if tags.None? || !history.Dict? then None
    else if !ListOfDicts(Lookup(endpoint, "request_examples").GetOr(List([])), RequestExamplesCap) ||
            !ResponseExamplesReadable(Lookup(endpoint, "response_examples").GetOr(Dict([]))) ||
            !ListOfDicts(Lookup(context, "validated_examples").GetOr(List([])), ValidatedExamplesCap) ||
            !PatternsReadable(Lookup(context, "patterns").GetOr(List([])))
    then None
    else
      var rate := Lookup(history.entries, "success_rate").GetOr(Null);
      var codes := StatusCodesText(GetOr(history, "common_status_codes", Dict([])));
      var recent := RecentResultsText(GetOr(history, "recent_results", List([])), format);
      if !(rate.Null? || IsNumber(rate)) || codes.None? || recent.None? then None
      else
        Some(Variables(
          Lookup(endpoint, "method").GetOr(Str("GET")),
          Lookup(endpoint, "path").GetOr(Str("")),
          OrNA(Lookup(endpoint, "summary").GetOr(Str(""))),
          OrNA(Lookup(endpoint, "description").GetOr(Str(""))),
          OrNA(Lookup(endpoint, "operation_id").GetOr(Str(""))),
          OrNA(Str(tags.value)),
          Lookup(history.entries, "count").GetOr(Int(0)),
          if rate.Null? then None else Some(rate),
          codes.value,
          recent.value))
  }

  /** A pattern whose effectiveness is text makes the preparation fail, as `{effectiveness:.2f}` raises. */
  lemma TextEffectivenessFails(context: Entries, endpoint: Entries, format: PromptFormat, p: Entries)
    requires Lookup(context, "patterns") == Some(List([Dict(p)]))
    requires Lookup(p, "effectiveness") == Some(Str("high"))
    ensures PrepareVariables(context, endpoint, format).None?
  {
    var patterns := List([Dict(p)]);
    assert GetOr(patterns.items[0], "effectiveness", Int(0)) == Str("high");
    assert !PatternsReadable(patterns);
  }

  /** Whether the template variables can be prepared does not depend on the prompt format. */
  lemma PrepareVariablesFormatFree(context: Entries, endpoint: Entries, f1: PromptFormat, f2: PromptFormat)
    ensures PrepareVariables(context, endpoint, f1).None? <==> PrepareVariables(context, endpoint, f2).None?
  {
    var history := Lookup(context, "history").GetOr(Dict([]));
    RecentResultsFormatFree(GetOr(history, "recent_results", List([])), f1, f2);
  }

  /** Whether the recent results can be read does not depend on the prompt format. */
  lemma RecentResultsFormatFree(results: Value, f1: PromptFormat, f2: PromptFormat)
    ensures RecentResultsText(results, f1).None? <==> RecentResultsText(results, f2).None?
  {
  }

  // ---------------------------------------------------------------------------
  // Capped lists
  // ---------------------------------------------------------------------------

  const RequestExamplesCap: nat := 3
  const ResponseExamplesCap: nat := 2
  const RecentResultsCap: nat := 5
  const ValidatedExamplesCap: nat := 3
  const PatternsCap: nat := 3

  /** How one item is written, given its 1-based position. */
  type Render = (nat, Entries) -> seq<string>

  /** The lines written for the items, numbering them from `from`. */
  function AllLines(items: seq<Entries>, render: Render, from: nat): seq<string>
    decreases |items|
  {
    if items == [] then [] else render(from, items[0]) + AllLines(items[1..], render, from + 1)
  }

  lemma {:induction false} AllLinesSnoc(items: seq<Entries>, x: Entries, render: Render, from: nat)
    ensures AllLines(items + [x], render, from) == AllLines(items, render, from) + render(from + |items|, x)
    decreases |items|
  {
    if items != [] {
      assert (items + [x])[1..] == items[1..] + [x];
      AllLinesSnoc(items[1..], x, render, from + 1);
    } else {
      assert AllLines([x], render, from) == render(from, x) + AllLines([], render, from + 1);
    }
  }

  /** `for i, item in enumerate(items[:cap], 1)`: writes the lines of the first `cap` items in order. */
  method RenderCapped(items: seq<Entries>, cap: nat, render: Render) returns (lines: seq<string>)
    ensures lines == AllLines(Take(items, cap), render, 1)
  {
    var shown := Take(items, cap);
    lines := [];
    var i := 0;
    while i < |shown|
      invariant 0 <= i <= |shown|
      invariant lines == AllLines(shown[..i], render, 1)
    {
      AllLinesSnoc(shown[..i], shown[i], render, 1);
      assert shown[..i + 1] == shown[..i] + [shown[i]];
      lines := lines + render(i + 1, shown[i]);
      i := i + 1;
    }
    assert shown[..i] == shown;
  }

  /** Items past the cap never reach the prompt. */
  lemma CapIgnoresTail(items: seq<Entries>, more: seq<Entries>, cap: nat, render: Render)
    requires |items| >= cap
    ensures AllLines(Take(items + more, cap), render, 1) == AllLines(Take(items, cap), render, 1)
  {
    assert Take(items + more, cap) == (items + more)[..cap] == items[..cap] == Take(items, cap);
  }

  /** The lines of two item lists written one after the other, numbering on. */
  lemma {:induction false} AllLinesAppend(a: seq<Entries>, b: seq<Entries>, render: Render, from: nat)
    ensures AllLines(a + b, render, from) == AllLines(a, render, from) + AllLines(b, render, from + |a|)
    decreases |a|
  {
    if a != [] {
      assert (a + b)[0] == a[0] && (a + b)[1..] == a[1..] + b;
      AllLinesAppend(a[1..], b, render, from + 1);
    } else {
      assert a + b == b;
    }
  }

  /** The k-th item's lines sit between the lines of the items before it and those after it. */
  lemma AllLinesAt(items: seq<Entries>, render: Render, from: nat, k: nat)
    requires k < |items|
    ensures AllLines(items, render, from) ==
            AllLines(items[..k], render, from) + render(from + k, items[k]) + AllLines(items[k + 1..], render, from + k + 1)
  {
    assert items == items[..k] + ([items[k]] + items[k + 1..]);
    AllLinesAppend(items[..k], [items[k]] + items[k + 1..], render, from);
    assert ([items[k]] + items[k + 1..])[1..] == items[k + 1..];
  }

  /** One recent result: status, code and time, in the prompt's format. */
  function RecentLine(format: PromptFormat, r: Entries): string {
    var status := PyStr(Lookup(r, "status").GetOr(Str("unknown")));
    var code := PyStr(Lookup(r, "status_code").GetOr(Str("N/A")));
    var time := PyStr(Lookup(r, "response_time_ms").GetOr(Str("N/A")));
    if format == Xml then
      "<result status='" + status + "' status_code='" + code + "' response_time_ms='" + time +
      "' timestamp='" + PyStr(Lookup(r, "timestamp").GetOr(Str("N/A"))) + "' />"
    else "- " + status + " (status: " + code + ", time: " + time + "ms)"
  }

  /** The recent-results renderer: one line per result. */
  function RecentRender(format: PromptFormat): Render {
    (i: nat, r: Entries) => [RecentLine(format, r)]
  }

  /** The dicts among some items; None when one of them is not a dict (its `.get` would raise). */
  function Dicts(vs: seq<Value>): (r: Option<seq<Entries>>)
    ensures r.Some? <==> forall i :: 0 <= i < |vs| ==> vs[i].Dict?
    ensures r.Some? ==> |r.value| == |vs| && forall i :: 0 <= i < |vs| ==> vs[i] == Dict(r.value[i])
  {
    if forall i :: 0 <= i < |vs| ==> vs[i].Dict? then
      Some(seq(|vs|, i requires 0 <= i < |vs| => vs[i].entries))
    else None
  }

  /**
   * `_format_recent_results`: a fixed message for no results, else one line per result for
   * the first five. Only `recent_results[:5]` is read, so None stands for the exception a
   * truthy non-list value, or a non-dict among the first five items, raises.
   */
  function RecentResultsText(results: Value, format: PromptFormat): Option<string> {
    if !Truthy(results) then Some("No recent test results")
    else if !results.List? then None
    else match Dicts(Take(results.items, RecentResultsCap))
      case None => None
      case Some(rs) => Some(Join(AllLines(rs, RecentRender(format), 1), "\n"))
  }

  /** A list value holding the given dicts. */
  function ListOf(rs: seq<Entries>): (v: Value)
    ensures v.List? && |v.items| == |rs|
    ensures forall i :: 0 <= i < |rs| ==> v.items[i] == Dict(rs[i])
  {
    List(seq(|rs|, i requires 0 <= i < |rs| => Dict(rs[i])))
  }

  /** A list of dicts is read back as its first five dicts. */
  lemma DictsOfList(rs: seq<Entries>)
    ensures Dicts(Take(ListOf(rs).items, RecentResultsCap)) == Some(Take(rs, RecentResultsCap))
  {
    var t := Take(ListOf(rs).items, RecentResultsCap);
    var shown := Take(rs, RecentResultsCap);
    assert forall i :: 0 <= i < |t| ==> t[i] == Dict(shown[i]);
    assert Dicts(t).value == shown;
  }

  /**
   * Items after the fifth never change the recent-results text, whatever they are: five
   * result dicts followed by anything at all read like the five alone.
   */
  lemma RecentResultsCapped(rs: seq<Entries>, more: seq<Value>, format: PromptFormat)
    requires |rs| >= RecentResultsCap
    ensures RecentResultsText(List(ListOf(rs).items + more), format) == RecentResultsText(ListOf(rs), format)
  {
    var items := ListOf(rs).items;
    assert Take(items + more, RecentResultsCap) == Take(items, RecentResultsCap);
  }

  /** Writes the recent results of a list of dicts. */
  method FormatRecentResults(rs: seq<Entries>, format: PromptFormat) returns (text: string)
    ensures rs != [] ==> Some(text) == RecentResultsText(ListOf(rs), format)
    ensures rs == [] ==> text == "No recent test results"
  {
    if rs == [] {
      return "No recent test results";
    }
    DictsOfList(rs);
    assert Truthy(ListOf(rs));
    var lines := RenderCapped(rs, RecentResultsCap, RecentRender(format));
    text := Join(lines, "\n");
  }

  /** An example's heading line: its name (default 'Example i') and summary if any. */
  function ExampleHeading(i: nat, e: Entries, indent: string): string {
    var name := PyStr(Lookup(e, "name").GetOr(Str("Example " + NatToString(i))));
    var summary := Lookup(e, "summary").GetOr(Str(""));
    if Truthy(summary) then indent + name + " (" + PyStr(summary) + "):" else indent + name + ":"
  }

  /** `_format_examples` per example: heading, dumped value, blank line. */
  function ExampleRender(dump: Value -> string): Render {
    (i: nat, e: Entries) => [ExampleHeading(i, e, ""), dump(Lookup(e, "value").GetOr(Dict([]))), ""]
  }

  /** `_format_examples`: the first three examples, or 'No <title> available'. */
  method FormatExamples(examples: seq<Entries>, title: string, dump: Value -> string) returns (text: string)
    ensures examples == [] ==> text == "No " + Lower(title) + " available"
    ensures examples != [] ==> text == Strip(Join(AllLines(Take(examples, RequestExamplesCap), ExampleRender(dump), 1), "\n"))
  {
    if examples == [] {
      return "No " + Lower(title) + " available";
    }
    var lines := RenderCapped(examples, RequestExamplesCap, ExampleRender(dump));
    text := Strip(Join(lines, "\n"));
  }

  /** `_format_response_examples` for one status: heading, then its first two examples indented. */
  function StatusExampleRender(dump: Value -> string): Render {
    (i: nat, e: Entries) =>
      [ExampleHeading(i, e, "  "), IndentLines(dump(Lookup(e, "value").GetOr(Dict([])))), ""]
  }

  /** Every line of a dumped value indented by four spaces. */
  function IndentLines(s: string): string {
    var parts := Split(s, '\n');
    Join(seq(|parts|, i requires 0 <= i < |parts| => "    " + parts[i]), "\n")
  }

  /** `_format_validated_examples` per example: scenario and status, then the request body if any. */
  function ValidatedRender(schemaFormat: SchemaFormat, dump: Value -> string): Render {
    (i: nat, e: Entries) =>
      var scenario := PyStr(Lookup(e, "test_scenario").GetOr(Str("N/A")));
      var status := PyStr(Lookup(e, "validation_status").GetOr(Str("N/A")));
      var body := Lookup(e, "request_body").GetOr(Null);
      ["Example " + NatToString(i) + ": " + scenario + " (status: " + status + ")"] +
      (if !Truthy(body) then []
       else if schemaFormat == Yaml then ["  Request:\n" + dump(body)]
       else ["  Request: " + dump(body)])
  }

  /** `_format_patterns` per pattern: type and effectiveness, then its data if any. */
  function PatternRender(schemaFormat: SchemaFormat, dump: Value -> string, fixed2: Value -> string): Render {
    (i: nat, p: Entries) =>
      var kind := PyStr(Lookup(p, "pattern_type").GetOr(Str("unknown")));
      var data := Lookup(p, "pattern_data").GetOr(Dict([]));
      ["- " + kind + " (effectiveness: " + fixed2(Lookup(p, "effectiveness").GetOr(Int(0))) + ")"] +
      (if !Truthy(data) then []
       else if schemaFormat == Yaml then ["  Data:\n" + dump(data)]
       else ["  Data: " + dump(data)])
  }

  /** `_format_validated_examples` (JSON or YAML): the first three validated examples. */
  method FormatValidatedExamples(examples: seq<Entries>, schemaFormat: SchemaFormat, dump: Value -> string)
    returns (text: string)
    requires schemaFormat != Toon
    ensures examples == [] ==> text == "No validated examples available"
    ensures examples != [] ==>
      text == Join(AllLines(Take(examples, ValidatedExamplesCap), ValidatedRender(schemaFormat, dump), 1), "\n")
  {
    if examples == [] {
      return "No validated examples available";
    }
    var lines := RenderCapped(examples, ValidatedExamplesCap, ValidatedRender(schemaFormat, dump));
    text := Join(lines, "\n");
  }

  /** `_format_patterns` (JSON or YAML): the first three patterns. */
  method FormatPatterns(patterns: seq<Entries>, schemaFormat: SchemaFormat, dump: Value -> string, fixed2: Value -> string)
    returns (text: string)
    requires schemaFormat != Toon
    ensures patterns == [] ==> text == "No learned patterns available"
    ensures patterns != [] ==>
      text == Join(AllLines(Take(patterns, PatternsCap), PatternRender(schemaFormat, dump, fixed2), 1), "\n")
  {
    if patterns == [] {
      return "No learned patterns available";
    }
    var lines := RenderCapped(patterns, PatternsCap, PatternRender(schemaFormat, dump, fixed2));
    text := Join(lines, "\n");
  }

  /** The lines for one status of `_format_response_examples`: nothing for a status without examples. */
  function StatusBlock(status: string, examples: seq<Entries>, dump: Value -> string): seq<string> {
    if examples == [] then []
    else ["Status " + status + " Examples:"] + AllLines(Take(examples, ResponseExamplesCap), StatusExampleRender(dump), 1)
  }

  /** All status blocks, statuses in the order given (the caller sorts them). */
  function StatusBlocks(byStatus: seq<(string, seq<Entries>)>, dump: Value -> string): seq<string>
    decreases |byStatus|
  {
    if byStatus == [] then []
    else
      var n := |byStatus| - 1;
      StatusBlocks(byStatus[..n], dump) + StatusBlock(byStatus[n].0, byStatus[n].1, dump)
  }

  /**
   * `_format_response_examples`: the statuses in sorted (string) order, at most two examples
   * per status; the fixed message when there are no examples at all.
   */
  method FormatResponseExamples(byStatus: seq<(string, seq<Entries>)>, dump: Value -> string) returns (text: string)
    ensures StatusBlocks(SortByKey(byStatus), dump) == [] ==> text == "No response examples available"
    ensures StatusBlocks(SortByKey(byStatus), dump) != [] ==> text == Strip(Join(StatusBlocks(SortByKey(byStatus), dump), "\n"))
  {
    var sorted := SortByKey(byStatus);
    var lines: seq<string> := [];
    var i := 0;
    while i < |sorted|
      invariant 0 <= i <= |sorted|
      invariant lines == StatusBlocks(sorted[..i], dump)
    {
      assert sorted[..i + 1][..i] == sorted[..i];
      var examples := sorted[i].1;
      if examples != [] {
        var shown := RenderCapped(examples, ResponseExamplesCap, StatusExampleRender(dump));
        lines := lines + ["Status " + sorted[i].0 + " Examples:"] + shown;
      }
      i := i + 1;
    }
    assert sorted[..i] == sorted;
    if lines == [] {
      return "No response examples available";
    }
    text := Strip(Join(lines, "\n"));
  }

  /** Statuses are taken in string order, whatever the order of the dict: `404` before `200` is shown `200` first. */
  lemma StatusesSorted(x: seq<Entries>, y: seq<Entries>)
    ensures SortByKey([("404", x), ("200", y)]) == [("200", y), ("404", x)]
  {
    assert [("404", x), ("200", y)][..1] == [("404", x)];
    assert StrLe("200", "404");
    assert !StrLe("404", "200");
  }

  /** A status block shows the heading and at most two examples' worth of lines. */
  lemma StatusBlockBound(status: string, examples: seq<Entries>, more: seq<Entries>, dump: Value -> string)
    requires |examples| >= ResponseExamplesCap
    ensures StatusBlock(status, examples + more, dump) == StatusBlock(status, examples, dump)
    ensures |StatusBlock(status, examples, dump)| == 1 + 3 * ResponseExamplesCap
  {
    CapIgnoresTail(examples, more, ResponseExamplesCap, StatusExampleRender(dump));
    var t := Take(examples, ResponseExamplesCap);
    var r := StatusExampleRender(dump);
    assert AllLines(t, r, 1) == r(1, t[0]) + (r(2, t[1]) + AllLines(t[2..], r, 3));
  }

  // ---------------------------------------------------------------------------
  // Batch prompts
  // ---------------------------------------------------------------------------

  /** The statuses a batch prompt keeps. */
  const KeyStatuses: seq<string> := ["200", "201", "400", "404"]

  /** `{k: v for k, v in d.items() if k in key_statuses}`. */
  function KeyStatusEntries(d: Entries): (r: Entries)
    ensures forall i :: 0 <= i < |r| ==> r[i].0 in KeyStatuses
    ensures forall p :: p in r <==> p in d && p.0 in KeyStatuses
    ensures |r| <= |d|
    decreases |d|
  {
    if d == [] then []
    else
      var n := |d| - 1;
      SplitLast(d);
      KeyStatusEntries(d[..n]) + (if d[n].0 in KeyStatuses then [d[n]] else [])
  }

  /** `v[:1]` for a list or string; None stands for the TypeError other values raise. */
  function FirstOnly(v: Value): (r: Option<Value>)
    ensures r.Some? <==> v.List? || v.Str?
    ensures r.Some? && v.List? ==> r.value.List? && |r.value.items| <= 1 && |r.value.items| <= |v.items| && r.value.items == v.items[..|r.value.items|]
  {
    match v
    case List(items) => Some(List(Take(items, 1)))
    case Str(s) => Some(Str(Take(s, 1)))
    case _ => None
  }

  /** `v[:1]` for every value of a dict, keys kept in order; None when one value cannot be sliced. */
  function FirstOfEach(e: Entries): (r: Option<Entries>)
    ensures r.None? <==> exists i :: 0 <= i < |e| && FirstOnly(e[i].1).None?
    ensures r.Some? ==> |r.value| == |e| && forall i :: 0 <= i < |e| ==> r.value[i] == (e[i].0, FirstOnly(e[i].1).value)
    decreases |e|
  {
    if e == [] then Some([])
    else
      var n := |e| - 1;
      var init := FirstOfEach(e[..n]);
      assert forall j :: 0 <= j < n ==> e[..n][j] == e[j];
      if init.None? || FirstOnly(e[n].1).None? then None
      else Some(init.value + [(e[n].0, FirstOnly(e[n].1).value)])
  }

  /** `{k: v[:1] for k, v in d.items() if k in key_statuses}`. */
  function KeyStatusFirstExamples(d: Entries): (r: Option<Entries>)
    ensures r.None? <==> exists p :: p in d && p.0 in KeyStatuses && FirstOnly(p.1).None?
    ensures r.Some? ==> forall i :: 0 <= i < |r.value| ==> r.value[i].0 in KeyStatuses
    ensures r.Some? ==>
              |r.value| == |KeyStatusEntries(d)| &&
              forall i :: 0 <= i < |r.value| ==> r.value[i] == (KeyStatusEntries(d)[i].0, FirstOnly(KeyStatusEntries(d)[i].1).value)
  {
    var kept := KeyStatusEntries(d);
    assert (exists p :: p in d && p.0 in KeyStatuses && FirstOnly(p.1).None?) <==>
           (exists i :: 0 <= i < |kept| && FirstOnly(kept[i].1).None?) by {
      forall p | p in d && p.0 in KeyStatuses && FirstOnly(p.1).None?
        ensures exists i :: 0 <= i < |kept| && FirstOnly(kept[i].1).None?
      {
        assert p in kept;
      }
    }
    FirstOfEach(kept)
  }

  /** What the batch prompt shows of one endpoint. */
  datatype BatchView = BatchView(
    httpMethod: Value,
    path: Value,
    requestExample: seq<Value>,
    responseSchemas: Entries,
    responseExamples: Entries)

  /**
   * One endpoint of `_format_endpoints_list`: method (default 'GET') and path, at most one
   * request example, and only the key statuses of the response schemas and examples, one
   * example each. None stands for a value of the wrong type, on which Python raises.
   */
  function BatchEndpoint(endpoint: Entries): (r: Option<BatchView>)
    ensures r.Some? ==> |r.value.requestExample| <= 1
    ensures r.Some? ==> forall i :: 0 <= i < |r.value.responseSchemas| ==> r.value.responseSchemas[i].0 in KeyStatuses
    ensures r.Some? ==> forall i :: 0 <= i < |r.value.responseExamples| ==> r.value.responseExamples[i].0 in KeyStatuses
    ensures r.Some? && HasKey(endpoint, "response_schemas") && Lookup(endpoint, "response_schemas").value.Dict? ==>
              forall p :: p in r.value.responseSchemas <==>
                p in Lookup(endpoint, "response_schemas").value.entries && p.0 in KeyStatuses
  {
    var examples := Lookup(endpoint, "request_examples").GetOr(List([]));
    var schemas := Lookup(endpoint, "response_schemas").GetOr(Dict([]));
    var responses := Lookup(endpoint, "response_examples").GetOr(Dict([]));
    if !(examples.List? || !Truthy(examples)) || !(schemas.Dict? || !Truthy(schemas)) || !(responses.Dict? || !Truthy(responses)) then None
    else
      var firstExamples := if Truthy(examples) then Take(examples.items, 1) else [];
      var keptSchemas := if Truthy(schemas) then KeyStatusEntries(schemas.entries) else [];
      var keptExamples := if Truthy(responses) then KeyStatusFirstExamples(responses.entries) else Some([]);
      if keptExamples.None? then None
      else
        Some(BatchView(
          Lookup(endpoint, "method").GetOr(Str("GET")),
          Lookup(endpoint, "path").GetOr(Str("")),
          firstExamples, keptSchemas, keptExamples.value))
  }

  /** `if response_schemas:` holds for an endpoint: the branch that assigns `key_statuses`. */
  predicate BindsKeyStatuses(endpoint: Entries) {
    Truthy(Lookup(endpoint, "response_schemas").GetOr(Dict([])))
  }

  /** `if response_examples:` holds for an endpoint: the branch that reads `key_statuses`. */
  predicate ReadsKeyStatuses(endpoint: Entries) {
    Truthy(Lookup(endpoint, "response_examples").GetOr(Dict([])))
  }

  /**
   * `_format_endpoints_list` as intended: every endpoint's view, in order; None when one of
   * them raises.
   */
  function EndpointsList(endpoints: seq<Entries>): (r: Option<seq<BatchView>>)
    ensures r.Some? <==> forall i :: 0 <= i < |endpoints| ==> BatchEndpoint(endpoints[i]).Some?
    ensures r.Some? ==> |r.value| == |endpoints|
    ensures r.Some? ==> forall i :: 0 <= i < |endpoints| ==> r.value[i] == BatchEndpoint(endpoints[i]).value
    decreases |endpoints|
  {
    if endpoints == [] then Some([])
    else
      var rest := EndpointsList(endpoints[1..]);
      assert forall i :: 1 <= i < |endpoints| ==> endpoints[1..][i - 1] == endpoints[i];
      if BatchEndpoint(endpoints[0]).None? || rest.None? then None
      else Some([BatchEndpoint(endpoints[0]).value] + rest.value)
  }

  /**
   * `_format_endpoints_list` as written: `key_statuses` is assigned only inside
   * `if response_schemas:`, so an endpoint with response examples raises (UnboundLocalError)
   * unless it, or an endpoint before it, had response schemas. `bound` says whether an
   * earlier endpoint assigned it.
   */
  function EndpointsListAsWritten(endpoints: seq<Entries>, bound: bool): (r: Option<seq<BatchView>>)
    ensures r.Some? ==> r == EndpointsList(endpoints)
    decreases |endpoints|
  {
    if endpoints == [] then Some([])
    else
      var bound' := bound || BindsKeyStatuses(endpoints[0]);
      if !bound' && ReadsKeyStatuses(endpoints[0]) then None
      else
        var rest := EndpointsListAsWritten(endpoints[1..], bound');
        if BatchEndpoint(endpoints[0]).None? || rest.None? then None
        else Some([BatchEndpoint(endpoints[0]).value] + rest.value)
  }

  /** Once `key_statuses` is bound, the code as written does what was intended. */
  lemma {:induction false} AsWrittenOnceBound(endpoints: seq<Entries>)
    ensures EndpointsListAsWritten(endpoints, true) == EndpointsList(endpoints)
    decreases |endpoints|
  {
    if endpoints != [] {
      AsWrittenOnceBound(endpoints[1..]);
    }
  }

  /** No endpoint up to position `i` has response schemas. */
  predicate UnboundAt(endpoints: seq<Entries>, i: nat)
    requires i < |endpoints|
  {
    forall j :: 0 <= j <= i ==> !BindsKeyStatuses(endpoints[j])
  }

  /**
   * The code as written fails exactly where the intended code fails, or where an endpoint
   * has response examples while neither it nor any endpoint before it has response schemas.
   */
  lemma {:induction false} AsWrittenFails(endpoints: seq<Entries>)
    ensures EndpointsListAsWritten(endpoints, false).None? <==>
      EndpointsList(endpoints).None? ||
      exists i :: 0 <= i < |endpoints| && ReadsKeyStatuses(endpoints[i]) && UnboundAt(endpoints, i)
    decreases |endpoints|
  {
    if endpoints != [] {
      var e0 := endpoints[0];
      var tail := endpoints[1..];
      var unboundHit := exists i :: 0 <= i < |endpoints| && ReadsKeyStatuses(endpoints[i]) && UnboundAt(endpoints, i);
      if BindsKeyStatuses(e0) {
        AsWrittenOnceBound(tail);
        assert !unboundHit by {
          forall i | 0 <= i < |endpoints| ensures !UnboundAt(endpoints, i) {
            assert BindsKeyStatuses(endpoints[0]);
          }
        }
      } else if ReadsKeyStatuses(e0) {
        assert UnboundAt(endpoints, 0);
      } else {
        AsWrittenFails(tail);
        var tailHit := exists i :: 0 <= i < |tail| && ReadsKeyStatuses(tail[i]) && UnboundAt(tail, i);
        assert unboundHit <==> tailHit by {
          if unboundHit {
            var i :| 0 <= i < |endpoints| && ReadsKeyStatuses(endpoints[i]) && UnboundAt(endpoints, i);
            assert i != 0;
            assert tail[i - 1] == endpoints[i];
            assert UnboundAt(tail, i - 1) by {
              forall j | 0 <= j <= i - 1 ensures !BindsKeyStatuses(tail[j]) {
                assert tail[j] == endpoints[j + 1];
              }
            }
          }
          if tailHit {
            var i :| 0 <= i < |tail| && ReadsKeyStatuses(tail[i]) && UnboundAt(tail, i);
            assert endpoints[i + 1] == tail[i];
            assert UnboundAt(endpoints, i + 1) by {
              forall j | 0 <= j <= i + 1 ensures !BindsKeyStatuses(endpoints[j]) {
                if j > 0 {
                  assert endpoints[j] == tail[j - 1];
                }
              }
            }
          }
        }
      }
    }
  }

  /**
   * The failure as written: a batch whose first endpoint has response examples but no
   * response schemas raises, while the intended code lists it.
   */
  lemma UnboundKeyStatuses()
    ensures var endpoint := [("response_examples", Dict([("200", List([]))]))];
      EndpointsListAsWritten([endpoint], false).None? && EndpointsList([endpoint]).Some?
  {
    var endpoint := [("response_examples", Dict([("200", List([]))]))];
    assert Lookup(endpoint, "response_schemas") == None;
    assert Lookup(endpoint, "request_examples") == None;
    assert KeyStatusFirstExamples([("200", List([]))]).Some?;
  }

  // ---------------------------------------------------------------------------
  // Seeding the prompt store
  // ---------------------------------------------------------------------------

  /** The templates `initialize_default_prompts` seeds, in order; the batch template is not among them. */
  const SeededTemplates: seq<string> := [TemplateBasic, TemplateAdvanced, TemplateEdgeCases]

  /** Where seeding one template raises, if it does: the lookup, the save or the activation. */
  datatype Failure = NoFailure | LookupFails | SaveFails | ActivateFails

  /** A name has a stored version. */
  predicate HasPrompt(prompts: map<(string, nat), Template>, name: string) {
    exists k :: k in prompts && k.0 == name
  }

  /**
   * Seeding one template: a name with a stored version is skipped; otherwise the Markdown
   * built-in is saved as version 1 and made active, as far as the steps before the failing
   * one got.
   */
  function SeedOne(prompts: map<(string, nat), Template>, active: map<string, nat>, name: string, f: Failure)
    : (r: (map<(string, nat), Template>, map<string, nat>))
    ensures forall k: (string, nat) :: k.0 != name ==> (k in r.0 <==> k in prompts) && (k in prompts ==> r.0[k] == prompts[k])
    ensures forall n :: n != name ==> (n in r.1 <==> n in active) && (n in active ==> r.1[n] == active[n])
  {
    if f == LookupFails || HasPrompt(prompts, name) || f == SaveFails then (prompts, active)
    else
      var saved := prompts[(name, 1) := Builtin(name, Markdown)];
      if f == ActivateFails then (saved, active) else (saved, active[name := 1])
  }

  /** Seeding the names in order. */
  function SeedAll(prompts: map<(string, nat), Template>, active: map<string, nat>, names: seq<string>, failures: string -> Failure)
    : (r: (map<(string, nat), Template>, map<string, nat>))
    decreases |names|
  {
    if names == [] then (prompts, active)
    else
      var n := |names| - 1;
      var before := SeedAll(prompts, active, names[..n], failures);
      SeedOne(before.0, before.1, names[n], failures(names[n]))
  }

  /** The prompt store `initialize_default_prompts` writes to: prompt versions and the active version per name. */
  class PromptStore {
    var prompts: map<(string, nat), Template>
    var active: map<string, nat>

    constructor()
      ensures prompts == map[] && active == map[]
    {
      prompts := map[];
      active := map[];
    }

    /**
     * `initialize_default_prompts`: seeds the basic, advanced and edge-case templates one
     * after the other; a failure on one template does not stop the others.
     */
    method InitializeDefaultPrompts(failures: string -> Failure)
      modifies this
      ensures (prompts, active) == SeedAll(old(prompts), old(active), SeededTemplates, failures)
    {
      var i := 0;
      while i < |SeededTemplates|
        invariant 0 <= i <= |SeededTemplates|
        invariant (prompts, active) == SeedAll(old(prompts), old(active), SeededTemplates[..i], failures)
      {
        var name := SeededTemplates[i];
        assert SeededTemplates[..i + 1][..i] == SeededTemplates[..i];
        var f := failures(name);
        if f == LookupFails || HasPrompt(prompts, name) {
          // skipped: the lookup raised, or the template already exists
        } else if f != SaveFails {
          prompts := prompts[(name, 1) := Builtin(name, Markdown)];
          if f != ActivateFails {
            active := active[name := 1];
          }
        }
        i := i + 1;
      }
      assert SeededTemplates[..i] == SeededTemplates;
    }
  }

  /** A name outside the seeded list keeps its versions and its active version. */
  lemma {:induction false} SeedAllLeavesOthers(prompts: map<(string, nat), Template>, active: map<string, nat>,
                                               names: seq<string>, failures: string -> Failure, other: string)
    requires other !in names
    ensures var r := SeedAll(prompts, active, names, failures);
      (forall v: nat :: ((other, v) in r.0 <==> (other, v) in prompts) &&
                       ((other, v) in prompts ==> r.0[(other, v)] == prompts[(other, v)])) &&
      (other in r.1 <==> other in active) && (other in active ==> r.1[other] == active[other])
    decreases |names|
  {
    if names != [] {
      var n := |names| - 1;
      assert forall x :: x in names[..n] ==> x in names;
      SeedAllLeavesOthers(prompts, active, names[..n], failures, other);
    }
  }

  /**
   * Each seeded template ends up as its own seeding step alone would leave it: a name that
   * had no version and did not fail has the Markdown built-in as active version 1, a name
   * that had a version is unchanged, and the batch template is never touched.
   */
  lemma SeedingOutcome(prompts: map<(string, nat), Template>, active: map<string, nat>, failures: string -> Failure)
    ensures var r := SeedAll(prompts, active, SeededTemplates, failures);
      forall k :: 0 <= k < |SeededTemplates| ==>
        var name := SeededTemplates[k];
        (!HasPrompt(prompts, name) && failures(name) == NoFailure ==>
           (name, 1) in r.0 && r.0[(name, 1)] == Builtin(name, Markdown) && name in r.1 && r.1[name] == 1) &&
        (HasPrompt(prompts, name) || failures(name) in {LookupFails, SaveFails} ==>
           (forall v: nat :: (name, v) in r.0 <==> (name, v) in prompts) && (name in r.1 <==> name in active))
    ensures var r := SeedAll(prompts, active, SeededTemplates, failures);
      (forall v: nat :: (TemplateBatch, v) in r.0 <==> (TemplateBatch, v) in prompts) &&
      (TemplateBatch in r.1 <==> TemplateBatch in active)
  {
    var r := SeedAll(prompts, active, SeededTemplates, failures);
    SeedAllLeavesOthers(prompts, active, SeededTemplates, failures, TemplateBatch);
    forall k | 0 <= k < |SeededTemplates|
      ensures var name := SeededTemplates[k];
        (!HasPrompt(prompts, name) && failures(name) == NoFailure ==>
           (name, 1) in r.0 && r.0[(name, 1)] == Builtin(name, Markdown) && name in r.1 && r.1[name] == 1) &&
        (HasPrompt(prompts, name) || failures(name) in {LookupFails, SaveFails} ==>
           (forall v: nat :: (name, v) in r.0 <==> (name, v) in prompts) && (name in r.1 <==> name in active))
    {
      var name := SeededTemplates[k];
      var before := SeedAll(prompts, active, SeededTemplates[..k], failures);
      SeedAllLeavesOthers(prompts, active, SeededTemplates[..k], failures, name);
      assert HasPrompt(before.0, name) <==> HasPrompt(prompts, name);
      var mid := SeedOne(before.0, before.1, name, failures(name));
      assert SeedAll(prompts, active, SeededTemplates[..k + 1], failures) == mid by {
        assert SeededTemplates[..k + 1][..k] == SeededTemplates[..k];
      }
      var rest := SeededTemplates[k + 1..];
      assert name !in rest;
      SeedAllAfter(prompts, active, SeededTemplates, k + 1, failures, name);
    }
  }

  /** The seeding steps after a name's own leave that name alone. */
  lemma SeedAllAfter(prompts: map<(string, nat), Template>, active: map<string, nat>, names: seq<string>,
                     j: nat, failures: string -> Failure, name: string)
    requires j <= |names| && name !in names[j..]
    ensures var a := SeedAll(prompts, active, names[..j], failures);
            var r := SeedAll(prompts, active, names, failures);
      (forall v: nat :: ((name, v) in r.0 <==> (name, v) in a.0) && ((name, v) in a.0 ==> r.0[(name, v)] == a.0[(name, v)])) &&
      (name in r.1 <==> name in a.1) && (name in a.1 ==> r.1[name] == a.1[name])
    decreases |names| - j
  {
    if j < |names| {
      var n := |names| - 1;
      assert names[..n][j..] == names[j..n];
      assert forall x :: x in names[j..n] ==> x in names[j..];
      SeedAllAfter(prompts, active, names[..n], j, failures, name);
      assert names[..n][..j] == names[..j];
      assert names[n] in names[j..];
    } else {
      assert names[..j] == names;
    }
  }
}
