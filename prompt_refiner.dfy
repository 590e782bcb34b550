/**
 * The prompt refiner (apitest/ai/prompt_refiner.py): from a feedback analysis it files
 * issue texts under the two test-generation prompts, derives improvement suggestions,
 * splices an improvements block and emphasis notes into the current template, and builds
 * the next prompt version.
 *
 * The analysis is the JSON-like dict the refiner receives. Prompt storage reads (the active
 * and latest prompt, the listed versions) are parameters; its writes are the fields of
 * `PromptRefiner`; the timestamp is a parameter. A Python exception is None.
 */
module PromptRefiner {
  import opened Wrappers
  import opened Json
  import opened Strings
  import opened OrderedDict
  import Sorting

  const Basic := "test_generation_basic"
  const Advanced := "test_generation_advanced"

  // ---------------------------------------------------------------------------
  // _identify_prompt_issues
  // ---------------------------------------------------------------------------

  /**
   * The issue text one actionable insight contributes: Some(None) when it contributes none,
   * None where Python raises (an insight without a category, data that is not a dict, an
   * approval rate that is not a number).
   */
  function InsightIssue(insight: Value): (r: Option<Option<string>>)
    ensures !Has(insight, "category") ==> r.None?
    ensures r.Some? && r.value.Some? ==>
      GetOr(insight, "category", Null) in {Str("common_issue"), Str("overall_performance"), Str("method_pattern")}
  {
    if !Has(insight, "category") then None
    else
      var category := GetOr(insight, "category", Null);
      var data := GetOr(insight, "data", EmptyDict);
      if category == Str("common_issue") then
        if !data.Dict? then None
        else
          var issueType := GetOr(data, "issue_type", Str(""));
          Some(if Truthy(issueType) then Some("Address " + PyStr(issueType) + " issues in test generation") else None)
      else if category == Str("overall_performance") then
        if !data.Dict? then None
        else
          var rate := GetOr(data, "approval_rate", Int(100));
          match AsNumber(rate)
          case None => None
          case Some(x) =>
            Some(if x < 50.0 then Some("Low approval rate (" + PyStr(rate) + "%) - improve prompt clarity and examples") else None)
      else if category == Str("method_pattern") then
        if !data.Dict? then None
        else
          var httpMethod := GetOr(data, "method", Str(""));
          Some(if Truthy(httpMethod) then Some("Improve test generation for " + PyStr(httpMethod) + " requests") else None)
      else Some(None)
  }

  /** The issue text one common issue contributes: one when more than 30% of the problems show it. */
  function CommonIssueText(issue: Value): (r: Option<Option<string>>)
    ensures r.None? <==> !issue.Dict? || !IsNumber(GetOr(issue, "percentage", Int(0)))
    ensures r.Some? ==> (r.value.Some? <==> AsNumber(GetOr(issue, "percentage", Int(0))).value > 30.0)
  {
    if !issue.Dict? then None
    else
      var issueType := GetOr(issue, "issue_type", Str(""));
      var percentage := GetOr(issue, "percentage", Int(0));
      match AsNumber(percentage)
      case None => None
      case Some(x) =>
        Some(if x > 30.0 then
               Some("High occurrence of " + PyStr(issueType) + " issues (" + PyStr(percentage) + "%) - add clearer instructions")
             else None)
  }

  /** The texts the items contribute, in order; None as soon as one item raises. */
  function Gather(items: seq<Value>, f: Value -> Option<Option<string>>): Option<seq<string>>
    decreases |items|
  {
    if items == [] then Some([])
    else
      match Gather(items[..|items| - 1], f)
      case None => None
      case Some(before) =>
        match f(items[|items| - 1])
        case None => None
        case Some(o) => Some(if o.Some? then before + [o.value] else before)
  }

  /**
   * Gathering fails exactly when one item raises; otherwise every text comes from an item
   * and every item's text is there.
   */
  lemma {:induction false} GatherItems(items: seq<Value>, f: Value -> Option<Option<string>>)
    ensures Gather(items, f).Some? <==> forall i :: 0 <= i < |items| ==> f(items[i]).Some?
    ensures Gather(items, f).Some? ==>
      forall x :: x in Gather(items, f).value <==> exists i :: 0 <= i < |items| && f(items[i]) == Some(Some(x))
    ensures Gather(items, f).Some? ==> |Gather(items, f).value| <= |items|
    decreases |items|
  {
    if items != [] {
      var init := items[..|items| - 1];
      GatherItems(init, f);
      assert forall i :: 0 <= i < |init| ==> init[i] == items[i];
    }
  }

  /** Once a prefix raises, the whole sequence raises. */
  lemma {:induction false} GatherPrefix(items: seq<Value>, f: Value -> Option<Option<string>>, n: nat)
    requires n <= |items| && Gather(items[..n], f).None?
    ensures Gather(items, f).None?
    decreases |items| - n
  {
    if n < |items| {
      assert items[..n + 1][..n] == items[..n];
      GatherPrefix(items, f, n + 1);
    } else {
      assert items[..n] == items;
    }
  }

  /** `feedback_analysis.get('actionable_insights', [])`, iterated; None where Python raises. */
  function InsightItems(analysis: Value): (r: Option<seq<Value>>)
    ensures r.Some? ==> analysis.Dict?
  {
    match PyGet(analysis, "actionable_insights", List([]))
    case None => None
    case Some(insights) => Iter(insights)
  }

  /**
   * Every issue text the analysis yields, in the order `_identify_prompt_issues` appends
   * them: those of the actionable insights, then those of the common issues.
   */
  function IssueTexts(analysis: Value): Option<seq<string>> {
    match InsightItems(analysis)
    case None => None
    case Some(items) =>
      match Gather(items, InsightIssue)
      case None => None
      case Some(fromInsights) =>
        match Iter(GetOr(analysis, "common_issues", List([])))
        case None => None
        case Some(issues) =>
          match Gather(issues, CommonIssueText)
          case None => None
          case Some(fromIssues) => Some(fromInsights + fromIssues)
  }

  /** `prompt_issues[name].append(text)` for both test-generation prompts. */
  function FileIssue(d: seq<(string, seq<string>)>, text: string): seq<(string, seq<string>)> {
    var append := (issues: seq<string>) => issues + [text];
    Upsert(Upsert(d, Basic, [], append), Advanced, [], append)
  }

  /** The defaultdict after filing each text in turn. */
  function Filed(texts: seq<string>): seq<(string, seq<string>)>
    decreases |texts|
  {
    if texts == [] then [] else FileIssue(Filed(texts[..|texts| - 1]), texts[|texts| - 1])
  }

  /** Both prompts receive every text in order, and no other prompt is keyed. */
  lemma {:induction false} FiledShape(texts: seq<string>)
    ensures Filed(texts) == if texts == [] then [] else [(Basic, texts), (Advanced, texts)]
    decreases |texts|
  {
    if texts != [] {
      var init, x := texts[..|texts| - 1], texts[|texts| - 1];
      var append := (issues: seq<string>) => issues + [x];
      FiledShape(init);
      assert init + [x] == texts;
      var d := Filed(init);
      var withBasic := Upsert(d, Basic, [], append);
      if init == [] {
        assert withBasic == [(Basic, init + [x])];
      } else {
        assert withBasic == [(Basic, init + [x])] + d[1..];
      }
      assert Upsert(withBasic, Advanced, [], append) == [withBasic[0]] + Upsert(withBasic[1..], Advanced, [], append);
    }
  }

  /**
   * One loop of `_identify_prompt_issues`: each item's issue text, if any, is appended for
   * both prompts; None as soon as an item raises.
   */
  method FileTexts(items: seq<Value>, f: Value -> Option<Option<string>>,
                   promptIssues: seq<(string, seq<string>)>, ghost filed: seq<string>)
    returns (r: Option<seq<(string, seq<string>)>>)
    requires promptIssues == Filed(filed)
    ensures r.None? <==> Gather(items, f).None?
    ensures r.Some? ==> r.value == Filed(filed + Gather(items, f).value)
  {
    var issues := promptIssues;
    ghost var texts: seq<string> := [];
    assert filed + texts == filed;
    for i := 0 to |items|
      invariant Gather(items[..i], f) == Some(texts)
      invariant issues == Filed(filed + texts)
    {
      assert items[..i + 1][..i] == items[..i];
      var issue := f(items[i]);
      if issue.None? {
        GatherPrefix(items, f, i + 1);
        return None;
      }
      if issue.value.Some? {
        var text := issue.value.value;
        assert (filed + texts + [text])[..|filed + texts|] == filed + texts;
        assert filed + (texts + [text]) == filed + texts + [text];
        issues := FileIssue(issues, text);
        texts := texts + [text];
      }
    }
    assert items[..|items|] == items;
    return Some(issues);
  }

  /**
   * `_identify_prompt_issues`: the issues filed per prompt. Empty when nothing qualifies;
   * otherwise the same texts under 'test_generation_basic' and then 'test_generation_advanced'.
   */
  method IdentifyPromptIssues(analysis: Value) returns (r: Option<seq<(string, seq<string>)>>)
    ensures r.None? <==> IssueTexts(analysis).None?
    ensures r.Some? ==> var texts := IssueTexts(analysis).value;
      r.value == if texts == [] then [] else [(Basic, texts), (Advanced, texts)]
  {
    var insights := InsightItems(analysis);
    if insights.None? {
      return None;
    }
    var fromInsights := FileTexts(insights.value, InsightIssue, [], []);
    if fromInsights.None? {
      return None;
    }
    var common := Iter(GetOr(analysis, "common_issues", List([])));
    if common.None? {
      return None;
    }
    ghost var texts := Gather(insights.value, InsightIssue).value;
    assert [] + texts == texts;
    r := FileTexts(common.value, CommonIssueText, fromInsights.value, texts);
    if r.Some? {
      FiledShape(IssueTexts(analysis).value);
    }
  }

  // ---------------------------------------------------------------------------
  // _generate_improvements
  // ---------------------------------------------------------------------------

  /**
   * The keyword tests of `_generate_improvements`, in the order the source applies them: a
   * suggestion is added when the lowered issue contains any of its keywords.
   */
  const ImprovementRules: seq<(seq<string>, string)> := [
    (["format"], "Add explicit instructions about data format requirements and validation"),
    (["data", "invalid"], "Add examples of valid data formats and emphasize using realistic test data"),
    (["missing"], "Strengthen instructions about including all required fields and parameters"),
    (["coverage", "test"], "Add guidance on generating comprehensive test scenarios including edge cases"),
    (["quality", "low", "approval"], "Enhance prompt clarity with more specific examples and clearer instructions"),
    (["post", "get", "put", "delete", "patch"], "Add method-specific guidance and examples for different HTTP methods")
  ]

  /** The suggestions the rules give for one lowered issue, in rule order. */
  function Suggestions(lowered: string, rules: seq<(seq<string>, string)>): seq<string>
    decreases |rules|
  {
    if rules == [] then []
    else
      var before := Suggestions(lowered, rules[..|rules| - 1]);
      var last := rules[|rules| - 1];
      if ContainsAny(lowered, last.0) then before + [last.1] else before
  }

  /** The suggestions for each issue in turn. */
  function Suggested(issues: seq<string>): seq<string>
    decreases |issues|
  {
    if issues == [] then []
    else Suggested(issues[..|issues| - 1]) + Suggestions(Lower(issues[|issues| - 1]), ImprovementRules)
  }

  /** A high-priority insight's recommendation in the form the model accepts. */
  predicate Recommends(insight: Value, text: string) {
    insight.Dict? && GetOr(insight, "priority", Null) == Str("high") &&
    GetOr(insight, "recommendation", Str("")) == Str(text) && text != ""
  }

  /**
   * The list after the recommendations of the high-priority insights not yet in it; None
   * where Python raises (an insight that is not a dict) or where a truthy recommendation is
   * not a string.
   */
  function Recommended(improvements: seq<string>, insights: seq<Value>): Option<seq<string>>
    decreases |insights|
  {
    if insights == [] then Some(improvements)
    else
      match Recommended(improvements, insights[..|insights| - 1])
      case None => None
      case Some(before) =>
        var insight := insights[|insights| - 1];
        if !insight.Dict? then None
        else if GetOr(insight, "priority", Null) != Str("high") then Some(before)
        else
          var recommendation := GetOr(insight, "recommendation", Str(""));
          if !Truthy(recommendation) then Some(before)
          else if !recommendation.Str? then None
          else if recommendation.s in before then Some(before)
          else Some(before + [recommendation.s])
  }

  /** The improvement list `_generate_improvements` builds before it removes duplicates. */
  function ImprovementList(issues: seq<string>, analysis: Value): Option<seq<string>> {
    match InsightItems(analysis)
    case None => None
    case Some(items) => Recommended(Suggested(issues), items)
  }

  /** A suggestion is given for an issue exactly when one of its rule's keywords occurs in it. */
  lemma {:induction false} SuggestionsFrom(lowered: string, rules: seq<(seq<string>, string)>)
    ensures forall x :: x in Suggestions(lowered, rules) <==>
      exists k :: 0 <= k < |rules| && ContainsAny(lowered, rules[k].0) && x == rules[k].1
    decreases |rules|
  {
    if rules != [] {
      var init := rules[..|rules| - 1];
      SuggestionsFrom(lowered, init);
      assert forall k :: 0 <= k < |init| ==> init[k] == rules[k];
    }
  }

  /** The suggestions of a list of issues are those of its members. */
  lemma {:induction false} SuggestedFrom(issues: seq<string>)
    ensures forall x :: x in Suggested(issues) <==>
      exists i :: 0 <= i < |issues| && x in Suggestions(Lower(issues[i]), ImprovementRules)
    decreases |issues|
  {
    if issues != [] {
      var init := issues[..|issues| - 1];
      SuggestedFrom(init);
      assert forall i :: 0 <= i < |init| ==> init[i] == issues[i];
    }
  }

  /**
   * The recommendations add the high-priority texts and nothing else; the list raises
   * exactly when an insight is not a dict or a high-priority truthy recommendation is not a
   * string.
   */
  lemma {:induction false} RecommendedFrom(improvements: seq<string>, insights: seq<Value>)
    ensures Recommended(improvements, insights).Some? <==>
      forall j :: 0 <= j < |insights| ==> (insights[j].Dict? &&
        (GetOr(insights[j], "priority", Null) == Str("high") && Truthy(GetOr(insights[j], "recommendation", Str(""))) ==>
         GetOr(insights[j], "recommendation", Str("")).Str?))
    ensures Recommended(improvements, insights).Some? ==>
      forall x :: x in Recommended(improvements, insights).value <==>
        x in improvements || exists j :: 0 <= j < |insights| && Recommends(insights[j], x)
    decreases |insights|
  {
    if insights != [] {
      var init := insights[..|insights| - 1];
      RecommendedFrom(improvements, init);
      assert forall j :: 0 <= j < |init| ==> init[j] == insights[j];
    }
  }

  /**
   * What `_generate_improvements` can return, as a set: the suggestions whose keywords occur
   * in some lowered issue, and the recommendations of high-priority insights.
   */
  lemma ImprovementMembers(issues: seq<string>, analysis: Value)
    requires ImprovementList(issues, analysis).Some?
    ensures forall x :: x in ImprovementList(issues, analysis).value <==>
      (exists i, k :: 0 <= i < |issues| && 0 <= k < |ImprovementRules| &&
         ContainsAny(Lower(issues[i]), ImprovementRules[k].0) && x == ImprovementRules[k].1) ||
      (exists j :: 0 <= j < |InsightItems(analysis).value| && Recommends(InsightItems(analysis).value[j], x))
  {
    var items := InsightItems(analysis).value;
    SuggestedFrom(issues);
    RecommendedFrom(Suggested(issues), items);
    forall i | 0 <= i < |issues| {
      SuggestionsFrom(Lower(issues[i]), ImprovementRules);
    }
  }

  /** `list(set(items))`: each member once, in an order Python leaves unspecified. */
  method ListOfSet(items: seq<string>) returns (r: seq<string>)
    ensures r == [] <==> items == []
    ensures Distinct(r)
    ensures forall x :: x in r <==> x in items
  {
    var remaining := set x | x in items;
    r := [];
    while remaining != {}
      invariant forall x :: x in r <==> x in items && x !in remaining
      invariant forall x :: x in remaining ==> x in items
      invariant Distinct(r)
      decreases |remaining|
    {
      var x :| x in remaining;
      r := r + [x];
      remaining := remaining - {x};
    }
    if items != [] {
      assert items[0] in r;
    }
    if r != [] {
      assert r[0] in items;
    }
  }

  /**
   * `_generate_improvements`: the rule suggestions for each issue, then the high-priority
   * recommendations not yet listed, with duplicates removed through a set.
   */
  method GenerateImprovements(issues: seq<string>, analysis: Value) returns (r: Option<seq<string>>)
    ensures r.None? <==> ImprovementList(issues, analysis).None?
    ensures r.Some? ==> Distinct(r.value) && forall x :: x in r.value <==> x in ImprovementList(issues, analysis).value
    ensures r.Some? ==> (r.value == [] <==> ImprovementList(issues, analysis).value == [])
  {
    var suggested := SuggestForIssues(issues);
    var insights := InsightItems(analysis);
    if insights.None? {
      return None;
    }
    var improvements := AddRecommendations(suggested, insights.value);
    if improvements.None? {
      return None;
    }
    var listed := ListOfSet(improvements.value);
    return Some(listed);
  }

  /** The high-priority recommendations appended in turn; None where Python raises. */
  method AddRecommendations(suggested: seq<string>, items: seq<Value>) returns (r: Option<seq<string>>)
    ensures r == Recommended(suggested, items)
  {
    var improvements := suggested;
    for j := 0 to |items|
      invariant Recommended(suggested, items[..j]) == Some(improvements)
    {
      assert items[..j + 1][..j] == items[..j];
      var insight := items[j];
      if !insight.Dict? {
        RecommendedPrefix(suggested, items, j + 1);
        return None;
      }
      if GetOr(insight, "priority", Null) == Str("high") {
        var recommendation := GetOr(insight, "recommendation", Str(""));
        if Truthy(recommendation) {
          if !recommendation.Str? {
            RecommendedPrefix(suggested, items, j + 1);
            return None;
          }
          if recommendation.s !in improvements {
            improvements := improvements + [recommendation.s];
          }
        }
      }
    }
    assert items[..|items|] == items;
    return Some(improvements);
  }

  /** The keyword suggestions for each issue in turn, repeats kept. */
  method SuggestForIssues(issues: seq<string>) returns (improvements: seq<string>)
    ensures improvements == Suggested(issues)
  {
    improvements := [];
    for i := 0 to |issues|
      invariant improvements == Suggested(issues[..i])
    {
      assert issues[..i + 1][..i] == issues[..i];
      var lowered := Lower(issues[i]);
      ghost var before := improvements;
      for k := 0 to |ImprovementRules|
        invariant improvements == before + Suggestions(lowered, ImprovementRules[..k])
      {
        assert ImprovementRules[..k + 1][..k] == ImprovementRules[..k];
        if ContainsAny(lowered, ImprovementRules[k].0) {
          improvements := improvements + [ImprovementRules[k].1];
        }
      }
      assert ImprovementRules[..|ImprovementRules|] == ImprovementRules;
    }
    assert issues[..|issues|] == issues;
  }

  /** Once the recommendations of a prefix raise, those of the whole sequence raise. */
  lemma {:induction false} RecommendedPrefix(improvements: seq<string>, insights: seq<Value>, n: nat)
    requires n <= |insights| && Recommended(improvements, insights[..n]).None?
    ensures Recommended(improvements, insights).None?
    decreases |insights| - n
  {
    if n < |insights| {
      assert insights[..n + 1][..n] == insights[..n];
      RecommendedPrefix(improvements, insights, n + 1);
    } else {
      assert insights[..n] == insights;
    }
  }

  // ---------------------------------------------------------------------------
  // _apply_improvements
  // ---------------------------------------------------------------------------

  const Marker := "## Instructions"
  const XmlOpen := "<instructions>"
  const XmlClose := "</instructions>"
  const BlankLine := "\n\n"

  /** The Markdown block header; `{next_version}` is literal text, not a substituted value. */
  const MarkdownHeader := "\n\n**IMPROVEMENTS (v{next_version})**:\n"

  const FormatNote := "\n**IMPORTANT**: Ensure all data follows the correct format as specified in the schema."
  const RequiredNote := "\n**CRITICAL**: Include ALL required fields and parameters in test cases."
  const QualityNote := "\n**DATA QUALITY**: Use realistic, valid test data that matches schema constraints."

  /** The Markdown block listing the first three improvements. */
  function MarkdownBlock(improvements: seq<string>): string {
    MarkdownHeader + "- " + Join(Sorting.Take(improvements, 3), "\n- ") + "\n"
  }

  /** Each improvement as a `- ` bullet. */
  function Bullets(improvements: seq<string>): (r: seq<string>)
    ensures |r| == |improvements| && forall i :: 0 <= i < |r| ==> r[i] == "- " + improvements[i]
  {
    seq(|improvements|, i requires 0 <= i < |improvements| => "- " + improvements[i])
  }

  /** The XML block listing the first three improvements. */
  function XmlBlock(improvements: seq<string>): string {
    "\n<improvements>\n" + Join(Bullets(Sorting.Take(improvements, 3)), "\n") + "\n</improvements>\n"
  }

  /**
   * The first step of `_apply_improvements`: with a '## Instructions' heading, the Markdown
   * block goes at the first blank line after it, or at the end; otherwise, with an
   * `<instructions>` tag in any case, the XML block goes just before the first closing tag
   * after it, and nowhere when there is none.
   */
  function InsertBlock(template: string, improvements: seq<string>): (r: string)
    ensures !Contains(template, Marker) && !Contains(Lower(template), XmlOpen) ==> r == template
  {
    if Contains(template, Marker) then
      var start := Find(template, Marker).value;
      var end := match FindFrom(template, BlankLine, start) case Some(e) => e case None => |template|;
      template[..end] + MarkdownBlock(improvements) + template[end..]
    else if Contains(Lower(template), XmlOpen) then
      var start := Find(Lower(template), XmlOpen).value;
      match FindFrom(template, XmlClose, start)
      case None => template
      case Some(end) => template[..end] + XmlBlock(improvements) + template[end..]
    else template
  }

  /** `text.replace('## Instructions', note + '\n## Instructions')`. */
  function PutNote(text: string, note: string): string {
    ReplaceAll(text, Marker, note + "\n" + Marker)
  }

  /** The format note, for a format issue when the text does not mention a format yet. */
  function FormatStep(text: string, lowered: string): string {
    if Contains(lowered, "format") && !Contains(Lower(text), "format") && Contains(text, Marker)
    then PutNote(text, FormatNote) else text
  }

  /** The required-fields note, for a missing or required issue when the note is absent. */
  function RequiredStep(text: string, lowered: string): string {
    if ContainsAny(lowered, ["missing", "required"]) && Contains(text, Marker) && !Contains(text, RequiredNote)
    then PutNote(text, RequiredNote) else text
  }

  /** The data-quality note, for a data or invalid issue when the note is absent. */
  function QualityStep(text: string, lowered: string): string {
    if ContainsAny(lowered, ["data", "invalid"]) && Contains(text, Marker) && !Contains(text, QualityNote)
    then PutNote(text, QualityNote) else text
  }

  /** The notes one issue adds, in the source's order. */
  function NoteStep(text: string, issue: string): string {
    var lowered := Lower(issue);
    QualityStep(RequiredStep(FormatStep(text, lowered), lowered), lowered)
  }

  /** The notes the issues add, one issue after the other. */
  function AddNotes(text: string, issues: seq<string>): string
    decreases |issues|
  {
    if issues == [] then text else NoteStep(AddNotes(text, issues[..|issues| - 1]), issues[|issues| - 1])
  }

  /** The whole of `_apply_improvements`. */
  function Applied(template: string, improvements: seq<string>, issues: seq<string>): string {
    AddNotes(InsertBlock(template, improvements), issues)
  }

  /** `_apply_improvements`, rebinding the template step by step. */
  method ApplyImprovements(template: string, improvements: seq<string>, issues: seq<string>) returns (improved: string)
    ensures improved == Applied(template, improvements, issues)
  {
    improved := template;
    if Contains(improved, Marker) || Contains(Lower(improved), XmlOpen) {
      if Contains(improved, Marker) {
        var start := Find(improved, Marker).value;
        var found := FindFrom(improved, BlankLine, start);
        var end := if found.Some? then found.value else |improved|;
        improved := improved[..end] + MarkdownBlock(improvements) + improved[end..];
      } else if Contains(Lower(improved), XmlOpen) {
        var start := Find(Lower(improved), XmlOpen).value;
        var end := FindFrom(improved, XmlClose, start);
        if end.Some? {
          improved := improved[..end.value] + XmlBlock(improvements) + improved[end.value..];
        }
      }
    }
    ghost var inserted := improved;
    for i := 0 to |issues|
      invariant improved == AddNotes(inserted, issues[..i])
    {
      assert issues[..i + 1][..i] == issues[..i];
      var lowered := Lower(issues[i]);
      if Contains(lowered, "format") && !Contains(Lower(improved), "format") {
        if Contains(improved, Marker) {
          improved := PutNote(improved, FormatNote);
        }
      }
      if ContainsAny(lowered, ["missing", "required"]) {
        if Contains(improved, Marker) && !Contains(improved, RequiredNote) {
          improved := PutNote(improved, RequiredNote);
        }
      }
      if ContainsAny(lowered, ["data", "invalid"]) {
        if Contains(improved, Marker) && !Contains(improved, QualityNote) {
          improved := PutNote(improved, QualityNote);
        }
      }
    }
    assert issues[..|issues|] == issues;
  }

  /** `p` first occurs in `s` at `at`, looking from `from` on. */
  predicate FirstAt(s: string, p: string, from: nat, at: nat) {
    from <= at && at + |p| <= |s| && StartsWith(s[at..], p) &&
    forall k :: from <= k < at ==> !StartsWith(s[k..], p)
  }

  /** There is only one first occurrence. */
  lemma FirstAtUnique(s: string, p: string, from: nat, a: nat, b: nat)
    requires FirstAt(s, p, from, a) && FirstAt(s, p, from, b)
    ensures a == b
  {
  }

  /** `end` is the first blank line at or after `start`, or the end of the text when there is none. */
  predicate BlankEnd(s: string, start: nat, end: nat) {
    start <= end <= |s| && (end == |s| || StartsWith(s[end..], BlankLine)) &&
    forall k :: start <= k < end ==> !StartsWith(s[k..], BlankLine)
  }

  /**
   * With a '## Instructions' heading, the Markdown block is spliced in at the first blank
   * line after the first heading, or at the end; the rest of the template is kept around it.
   */
  lemma MarkdownInsertion(template: string, improvements: seq<string>)
    requires Contains(template, Marker)
    ensures exists start: nat, end: nat :: (FirstAt(template, Marker, 0, start) && BlankEnd(template, start, end) &&
      InsertBlock(template, improvements) == template[..end] + MarkdownBlock(improvements) + template[end..])
  {
    var start := Find(template, Marker).value;
    var found := FindFrom(template, BlankLine, start);
    var end := if found.Some? then found.value else |template|;
    assert FirstAt(template, Marker, 0, start);
    if found.None? {
      forall k | start <= k < end ensures !StartsWith(template[k..], BlankLine) {
        if k > |template| - |BlankLine| {
          assert |template[k..]| < |BlankLine|;
        }
      }
    }
    assert BlankEnd(template, start, end);
  }

  /**
   * Without a '## Instructions' heading but with an `<instructions>` tag in any case, the XML
   * block is spliced in just before the first `</instructions>` after the first tag; with no
   * such closing tag the template is unchanged.
   */
  lemma XmlInsertion(template: string, improvements: seq<string>)
    requires !Contains(template, Marker) && Contains(Lower(template), XmlOpen)
    ensures exists start: nat :: (FirstAt(Lower(template), XmlOpen, 0, start) &&
      ((forall k :: start <= k <= |template| - |XmlClose| ==> !StartsWith(template[k..], XmlClose)) ==>
         InsertBlock(template, improvements) == template) &&
      (forall end: nat :: FirstAt(template, XmlClose, start, end) ==>
         InsertBlock(template, improvements) == template[..end] + XmlBlock(improvements) + template[end..]))
  {
    var start := Find(Lower(template), XmlOpen).value;
    assert FirstAt(Lower(template), XmlOpen, 0, start);
    var found := FindFrom(template, XmlClose, start);
    forall end: nat | FirstAt(template, XmlClose, start, end)
      ensures found == Some(end)
    {
      if found.None? {
        assert false;
      } else {
        FirstAtUnique(template, XmlClose, start, found.value, end);
      }
    }
  }

  /**
   * Each block lists the first three improvements (fewer when there are fewer), and the
   * Markdown header carries the literal text '{next_version}'.
   */
  lemma BlocksList(improvements: seq<string>)
    ensures forall i :: 0 <= i < |improvements| && i < 3 ==>
      Contains(MarkdownBlock(improvements), improvements[i]) && Contains(XmlBlock(improvements), "- " + improvements[i])
    ensures StartsWith(MarkdownBlock(improvements), MarkdownHeader) && Contains(MarkdownBlock(improvements), "{next_version}")
  {
    var top := Sorting.Take(improvements, 3);
    var md := Join(top, "\n- ");
    var xml := Join(Bullets(top), "\n");
    forall i | 0 <= i < |improvements| && i < 3
      ensures Contains(MarkdownBlock(improvements), improvements[i]) && Contains(XmlBlock(improvements), "- " + improvements[i])
    {
      assert top[i] == improvements[i];
      JoinContains(top, "\n- ", i);
      ContainsConcat(MarkdownHeader + "- ", md, improvements[i]);
      ContainsConcat(MarkdownHeader + "- " + md, "\n", improvements[i]);
      JoinContains(Bullets(top), "\n", i);
      ContainsConcat("\n<improvements>\n", xml, "- " + improvements[i]);
      ContainsConcat("\n<improvements>\n" + xml, "\n</improvements>\n", "- " + improvements[i]);
    }
    var block := MarkdownBlock(improvements);
    assert block[..|MarkdownHeader|] == MarkdownHeader;
    HeaderCarriesMark(block);
  }

  /** Text that starts with the Markdown header contains the literal '{next_version}'. */
  lemma HeaderCarriesMark(block: string)
    requires StartsWith(block, MarkdownHeader)
    ensures Contains(block, "{next_version}")
  {
    var pre, mark, post := "\n\n**IMPROVEMENTS (v", "{next_version}", ")**:\n";
    assert MarkdownHeader == pre + mark + post;
    assert |pre| == 19 && |mark| == 14;
    assert (pre + mark + post)[19..33] == mark;
    assert block[19..33] == MarkdownHeader[19..33];
    assert StartsWith(block[19..], mark);
  }

  /** Without a '## Instructions' heading no issue adds a note. */
  lemma {:induction false} NotesNeedHeading(text: string, issues: seq<string>)
    requires !Contains(text, Marker)
    ensures AddNotes(text, issues) == text
    decreases |issues|
  {
    if issues != [] {
      NotesNeedHeading(text, issues[..|issues| - 1]);
    }
  }

  /** A template with neither a '## Instructions' heading nor an `<instructions>` tag is returned unchanged. */
  lemma TemplateUnchanged(template: string, improvements: seq<string>, issues: seq<string>)
    requires !Contains(template, Marker) && !Contains(Lower(template), XmlOpen)
    ensures Applied(template, improvements, issues) == template
  {
    NotesNeedHeading(template, issues);
  }

  /** Notes are only added when absent: a text that already has all three is left as it is. */
  lemma {:induction false} NotesStable(text: string, issues: seq<string>)
    requires Contains(Lower(text), "format") && Contains(text, RequiredNote) && Contains(text, QualityNote)
    ensures AddNotes(text, issues) == text
    decreases |issues|
  {
    if issues != [] {
      NotesStable(text, issues[..|issues| - 1]);
    }
  }

  /** A note put before the heading is in the text, and the heading still is. */
  lemma PutNoteKeepsHeading(text: string, note: string)
    requires Contains(text, Marker)
    ensures Contains(PutNote(text, note), note) && Contains(PutNote(text, note), Marker)
  {
    var rep := note + "\n" + Marker;
    ReplaceIntroduces(text, Marker, rep);
    assert StartsWith(rep[0..], note);
    assert StartsWith(rep[|note| + 1..], Marker);
    ContainsTrans(PutNote(text, note), rep, note);
    ContainsTrans(PutNote(text, note), rep, Marker);
  }

  /**
   * Under a '## Instructions' heading each note step keeps the heading; an issue mentioning
   * 'missing' or 'required' leaves the required-fields note in the text and one mentioning
   * 'data' or 'invalid' the data-quality note, whether it was there before or is added now.
   */
  lemma NotesPresent(text: string, lowered: string)
    requires Contains(text, Marker)
    ensures Contains(FormatStep(text, lowered), Marker)
    ensures Contains(RequiredStep(text, lowered), Marker)
    ensures ContainsAny(lowered, ["missing", "required"]) ==> Contains(RequiredStep(text, lowered), RequiredNote)
    ensures Contains(QualityStep(text, lowered), Marker)
    ensures ContainsAny(lowered, ["data", "invalid"]) ==> Contains(QualityStep(text, lowered), QualityNote)
  {
    PutNoteKeepsHeading(text, FormatNote);
    PutNoteKeepsHeading(text, RequiredNote);
    PutNoteKeepsHeading(text, QualityNote);
  }

  // ---------------------------------------------------------------------------
  // _refine_single_prompt, refine_prompts, save_refined_prompt
  // ---------------------------------------------------------------------------

  /**
   * The prompt storage reads the refiner makes: the active and the latest row of a prompt
   * (`Null` when there is none) and the rows of all its versions.
   */
  datatype PromptSource = PromptSource(active: string -> Value, latest: string -> Value, versions: string -> seq<Value>)

  /** The `PromptUpdate` dataclass. */
  datatype PromptUpdate = PromptUpdate(promptName: string, newVersion: int, improvedTemplate: string,
                                       improvements: seq<string>, issuesAddressed: seq<string>, metadata: Value)

  /** The active prompt, or the latest one when there is no active one. */
  function CurrentPrompt(source: PromptSource, name: string): Value {
    if Truthy(source.active(name)) then source.active(name) else source.latest(name)
  }

  function TemplateOf(current: Value): Value {
    GetOr(current, "prompt_template", Str(""))
  }

  function VersionOf(current: Value): Value {
    GetOr(current, "prompt_version", Int(1))
  }

  /** The largest number of a non-empty list. */
  function MaxOf(ns: seq<int>): (m: int)
    requires ns != []
    ensures m in ns && forall x :: x in ns ==> x <= m
    decreases |ns|
  {
    if |ns| == 1 then ns[0]
    else
      var rest := MaxOf(ns[1..]);
      assert forall x :: x in ns ==> x == ns[0] || x in ns[1..];
      if ns[0] >= rest then ns[0] else rest
  }

  /** `[v['prompt_version'] for v in versions]`; None where a row is not a dict with an integer version. */
  function VersionNumbers(rows: seq<Value>): (r: Option<seq<int>>)
    ensures r.Some? ==> (|r.value| == |rows| &&
      forall i :: 0 <= i < |rows| ==> Has(rows[i], "prompt_version") && GetOr(rows[i], "prompt_version", Null) == Int(r.value[i]))
  {
    if forall i :: 0 <= i < |rows| ==> Has(rows[i], "prompt_version") && GetOr(rows[i], "prompt_version", Null).Int? then
      Some(seq(|rows|, i requires 0 <= i < |rows| => GetOr(rows[i], "prompt_version", Null).i))
    else None
  }

  /**
   * `max([...], default=current_version) + 1`: one past the largest listed version, or past
   * the current version when none is listed.
   */
  function NextVersion(rows: seq<Value>, current: Value): (r: Option<int>)
    ensures rows == [] ==> (r.Some? <==> current.Int?) && (current.Int? ==> r == Some(current.i + 1))
    ensures rows != [] ==> (r.Some? <==> VersionNumbers(rows).Some?)
    ensures r.Some? && rows != [] ==>
      (forall n :: n in VersionNumbers(rows).value ==> n < r.value) && r.value - 1 in VersionNumbers(rows).value
  {
    if rows == [] then (if current.Int? then Some(current.i + 1) else None)
    else
      match VersionNumbers(rows)
      case None => None
      case Some(ns) => Some(MaxOf(ns) + 1)
  }

  /** The metadata a refined prompt carries. */
  function Metadata(fromVersion: Value, issues: seq<string>, improvements: seq<string>, timestamp: string): Value {
    Dict([("refined_from_version", fromVersion), ("issues_addressed", List(Strs(issues))),
          ("improvements", List(Strs(improvements))), ("refined_at", Str(timestamp))])
  }

  /**
   * When `_refine_single_prompt` yields an update: the prompt is stored, its row is a dict,
   * improvements are generated and not empty, the template is a string and the next version
   * can be computed.
   */
  predicate Refinable(source: PromptSource, name: string, issues: seq<string>, analysis: Value) {
    var current := CurrentPrompt(source, name);
    Truthy(current) && current.Dict? &&
    ImprovementList(issues, analysis).Some? && ImprovementList(issues, analysis).value != [] &&
    TemplateOf(current).Str? && NextVersion(source.versions(name), VersionOf(current)).Some?
  }

  /**
   * What a refined update holds: the next version, the improvements (each once, in some
   * order), the template with those improvements applied, the issues and the metadata.
   */
  ghost predicate Refined(u: PromptUpdate, source: PromptSource, name: string, issues: seq<string>, analysis: Value, timestamp: string) {
    Refinable(source, name, issues, analysis) &&
    var current := CurrentPrompt(source, name);
    u.promptName == name &&
    u.newVersion == NextVersion(source.versions(name), VersionOf(current)).value &&
    Distinct(u.improvements) &&
    (forall x :: x in u.improvements <==> x in ImprovementList(issues, analysis).value) &&
    u.improvedTemplate == Applied(TemplateOf(current).s, u.improvements, issues) &&
    u.issuesAddressed == issues &&
    u.metadata == Metadata(VersionOf(current), issues, u.improvements, timestamp)
  }

  /** The prompt names of a list of updates. */
  function Names(updates: seq<PromptUpdate>): (r: seq<string>)
    ensures |r| == |updates| && forall i :: 0 <= i < |r| ==> r[i] == updates[i].promptName
  {
    seq(|updates|, i requires 0 <= i < |updates| => updates[i].promptName)
  }

  /** A saved prompt version: what `save_prompt` is given. */
  datatype SavedPrompt = SavedPrompt(name: string, template: string, metadata: Value, version: int)

  /**
   * The refiner. The prompt storage writes are its fields: the versions saved, in order (a
   * prompt id is the position in that log, from 1), and the active version per prompt.
   */
  class PromptRefiner {
    var saved: seq<SavedPrompt>
    var active: map<string, int>

    constructor()
      ensures saved == [] && active == map[]
    {
      saved := [];
      active := map[];
    }

    /**
     * `_refine_single_prompt`: Some(None) when the prompt is not stored or no improvement
     * is generated, None where Python raises, otherwise the refined update.
     */
    method RefineSinglePrompt(source: PromptSource, name: string, issues: seq<string>, analysis: Value, timestamp: string)
      returns (r: Option<Option<PromptUpdate>>)
      ensures (r.Some? && r.value.Some?) <==> Refinable(source, name, issues, analysis)
      ensures r == Some(None) <==>
        var current := CurrentPrompt(source, name);
        !Truthy(current) || (current.Dict? && ImprovementList(issues, analysis) == Some([]))
      ensures r.Some? && r.value.Some? ==> Refined(r.value.value, source, name, issues, analysis, timestamp)
    {
      var current := source.active(name);
      if !Truthy(current) {
        current := source.latest(name);
      }
      if !Truthy(current) {
        return Some(None);
      }
      if !current.Dict? {
        return None;
      }
      var template := GetOr(current, "prompt_template", Str(""));
      var version := GetOr(current, "prompt_version", Int(1));
      var improvements := GenerateImprovements(issues, analysis);
      if improvements.None? {
        return None;
      }
      if improvements.value == [] {
        return Some(None);
      }
      assert improvements.value[0] in ImprovementList(issues, analysis).value;
      if !template.Str? {
        return None;
      }
      var improved := ApplyImprovements(template.s, improvements.value, issues);
      var next := NextVersion(source.versions(name), version);
      if next.None? {
        return None;
      }
      var metadata := Metadata(version, issues, improvements.value, timestamp);
      return Some(Some(PromptUpdate(name, next.value, improved, improvements.value, issues, metadata)));
    }

    /**
     * `refine_prompts`: no update when no issue is identified; otherwise one update per
     * prompt that can be refined, basic before advanced. A failure while refining one prompt
     * skips that prompt; a failure while identifying issues propagates (None).
     */
    method RefinePrompts(source: PromptSource, analysis: Value, timestamp: string) returns (r: Option<seq<PromptUpdate>>)
      ensures r.None? <==> IssueTexts(analysis).None?
      ensures IssueTexts(analysis) == Some([]) ==> r == Some([])
      ensures r.Some? ==> var texts := IssueTexts(analysis).value;
        Names(r.value) == (if texts == [] then []
                           else (if Refinable(source, Basic, texts, analysis) then [Basic] else []) +
                                (if Refinable(source, Advanced, texts, analysis) then [Advanced] else []))
      ensures r.Some? ==> forall u :: u in r.value ==> Refined(u, source, u.promptName, IssueTexts(analysis).value, analysis, timestamp)
    {
      var promptIssues := IdentifyPromptIssues(analysis);
      if promptIssues.None? {
        return None;
      }
      if promptIssues.value == [] {
        return Some([]);
      }
      ghost var texts := IssueTexts(analysis).value;
      assert KeysOf(promptIssues.value) == [Basic, Advanced];
      var updates := RefineEach(source, analysis, promptIssues.value, texts, timestamp);
      ExpectedPair(source, analysis, Basic, Advanced, texts);
      return Some(updates);
    }

    /** The loop of `refine_prompts` over the filed prompts, all filed with the same issues. */
    method RefineEach(source: PromptSource, analysis: Value, entries: seq<(string, seq<string>)>,
                      ghost issues: seq<string>, timestamp: string) returns (updates: seq<PromptUpdate>)
      requires forall k :: 0 <= k < |entries| ==> entries[k].1 == issues
      ensures Names(updates) == Expected(source, analysis, KeysOf(entries), issues)
      ensures forall u :: u in updates ==> Refined(u, source, u.promptName, issues, analysis, timestamp)
    {
      updates := [];
      for i := 0 to |entries|
        invariant Names(updates) == Expected(source, analysis, KeysOf(entries)[..i], issues)
        invariant forall u :: u in updates ==> Refined(u, source, u.promptName, issues, analysis, timestamp)
      {
        var entry := entries[i];
        ExpectedStep(source, analysis, KeysOf(entries), i, issues);
        assert KeysOf(entries)[i] == entry.0 && entry.1 == issues;
        var update := RefineSinglePrompt(source, entry.0, entry.1, analysis, timestamp);
        if update.Some? && update.value.Some? {
          NamesSnoc(updates, update.value.value);
          updates := updates + [update.value.value];
        }
      }
      assert KeysOf(entries)[..|entries|] == KeysOf(entries);
    }

    /**
     * `save_refined_prompt`: saves the update's template and metadata under its version and
     * makes that version active only when asked to; the result is the saved prompt's id.
     */
    method SaveRefinedPrompt(update: PromptUpdate, setActive: bool) returns (promptId: nat)
      modifies this
      ensures saved == old(saved) + [SavedPrompt(update.promptName, update.improvedTemplate, update.metadata, update.newVersion)]
      ensures active == if setActive then old(active)[update.promptName := update.newVersion] else old(active)
      ensures promptId == |saved|
    {
      saved := saved + [SavedPrompt(update.promptName, update.improvedTemplate, update.metadata, update.newVersion)];
      promptId := |saved|;
      if setActive {
        active := active[update.promptName := update.newVersion];
      }
    }
  }

  /** The names of the prompts among `names` that can be refined, in order. */
  function Expected(source: PromptSource, analysis: Value, names: seq<string>, texts: seq<string>): seq<string>
    decreases |names|
  {
    if names == [] then []
    else
      var last := names[|names| - 1];
      Expected(source, analysis, names[..|names| - 1], texts) + (if Refinable(source, last, texts, analysis) then [last] else [])
  }

  /** One more name: it is expected exactly when that prompt can be refined. */
  lemma ExpectedStep(source: PromptSource, analysis: Value, names: seq<string>, i: nat, texts: seq<string>)
    requires i < |names|
    ensures Expected(source, analysis, names[..i + 1], texts) ==
      Expected(source, analysis, names[..i], texts) + (if Refinable(source, names[i], texts, analysis) then [names[i]] else [])
  {
    assert names[..i + 1][..i] == names[..i];
  }

  /** The names of one more update. */
  lemma NamesSnoc(updates: seq<PromptUpdate>, u: PromptUpdate)
    ensures Names(updates + [u]) == Names(updates) + [u.promptName]
  {
    assert forall k :: 0 <= k < |updates| ==> (updates + [u])[k] == updates[k];
  }

  lemma ExpectedPair(source: PromptSource, analysis: Value, first: string, second: string, texts: seq<string>)
    ensures Expected(source, analysis, [first, second], texts) ==
      (if Refinable(source, first, texts, analysis) then [first] else []) +
      (if Refinable(source, second, texts, analysis) then [second] else [])
  {
    assert [first, second][..1] == [first];
    assert [first][..0] == [];
    assert Expected(source, analysis, [first], texts) ==
      Expected(source, analysis, [], texts) + (if Refinable(source, first, texts, analysis) then [first] else []);
  }
}
