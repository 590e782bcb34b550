/**
 * The feedback analyzer (apitest/ai/feedback_analyzer.py): from the stored validation
 * feedback it computes per-prompt-version success rates, the common issues named in
 * rejection texts, counts by status, endpoint and method, and a list of prioritised
 * insights for refining the prompts.
 *
 * The feedback corpus and the summary statistics come from storage and are parameters; so
 * is the lookup of a stored test case by id and the JSON decoder. A Python exception is None.
 * Rates are exact percentages; Python rounds them to two decimals.
 */
module FeedbackAnalyzer {
  import opened Wrappers
  import opened Json
  import opened Strings
  import opened OrderedDict
  import Sorting

  const Approved := "approved"
  const Rejected := "rejected"
  const NeedsImprovement := "needs_improvement"

  // ---------------------------------------------------------------------------
  // _extract_prompt_version
  // ---------------------------------------------------------------------------

  /** Storage's `get_test_case`: the stored row for an id, None (`Null`) when there is none. */
  type CaseLookup = Value -> Value

  type Decoder = string -> Option<Value>

  /** A value that may hold JSON text: decoded when it is a string, None when that fails. */
  function Decoded(v: Value, decode: Decoder): Option<Value> {
    if v.Str? then decode(v.s) else Some(v)
  }

  /**
   * The prompt version of the test case a feedback entry refers to, 'unknown' when the id,
   * the stored case, the JSON or the version is missing, falsy or undecodable. None where
   * Python raises: an entry, a row, a decoded case or metadata that is not a dict.
   */
  function PromptVersion(feedback: Value, lookup: CaseLookup, decode: Decoder): (r: Option<string>)
    ensures feedback.Dict? && !Truthy(GetOr(feedback, "test_case_id", Null)) ==> r == Some("unknown")
    ensures (feedback.Dict? && Truthy(GetOr(feedback, "test_case_id", Null)) &&
             !Truthy(lookup(GetOr(feedback, "test_case_id", Null)))) ==> r == Some("unknown")
    ensures !feedback.Dict? ==> r.None?
  {
    if !feedback.Dict? then None
    else
      var id := GetOr(feedback, "test_case_id", Null);
      if !Truthy(id) then Some("unknown")
      else
        var row := lookup(id);
        if !Truthy(row) then Some("unknown")
        else if !row.Dict? then None
        else
          match Decoded(GetOr(row, "test_case_json", EmptyDict), decode)
          case None => Some("unknown")
          case Some(caseJson) =>
            if !caseJson.Dict? then None
            else
              match Decoded(GetOr(caseJson, "ai_metadata", EmptyDict), decode)
              case None => Some("unknown")
              case Some(metadata) =>
                if !metadata.Dict? then None
                else
                  var version := GetOr(metadata, "prompt_version", Str("unknown"));
                  if Truthy(version) then Some(PyStr(version)) else Some("unknown")
  }

  /** A stored case whose metadata names a version yields that version's text. */
  lemma VersionFromMetadata(feedback: Value, lookup: CaseLookup, decode: Decoder, version: Value)
    requires feedback.Dict? && Truthy(GetOr(feedback, "test_case_id", Null))
    requires lookup(GetOr(feedback, "test_case_id", Null)) ==
             Dict([("test_case_json", Dict([("ai_metadata", Dict([("prompt_version", version)]))]))])
    ensures PromptVersion(feedback, lookup, decode) == Some(if Truthy(version) then PyStr(version) else "unknown")
  {
  }

  /** A stored case whose JSON text does not decode counts as 'unknown'. */
  lemma UndecodableCaseIsUnknown(feedback: Value, lookup: CaseLookup, decode: Decoder, text: string)
    requires feedback.Dict? && Truthy(GetOr(feedback, "test_case_id", Null))
    requires lookup(GetOr(feedback, "test_case_id", Null)) == Dict([("test_case_json", Str(text))])
    requires decode(text).None?
    ensures PromptVersion(feedback, lookup, decode) == Some("unknown")
  {
  }

  // ---------------------------------------------------------------------------
  // _calculate_success_rates
  // ---------------------------------------------------------------------------

  /** `feedback['status']`; None where Python raises. */
  function StatusOf(feedback: Value): Option<Value> {
    if feedback.Dict? then Lookup(feedback.entries, "status") else None
  }

  /** Each entry's prompt version and status, in order; None when any entry raises. */
  function Labelled(corpus: seq<Value>, lookup: CaseLookup, decode: Decoder): (r: Option<seq<(string, Value)>>)
    ensures r.Some? ==> |r.value| == |corpus|
    ensures r.Some? <==> forall i :: 0 <= i < |corpus| ==>
      PromptVersion(corpus[i], lookup, decode).Some? && StatusOf(corpus[i]).Some?
    ensures r.Some? ==> forall i :: 0 <= i < |corpus| ==>
      r.value[i] == (PromptVersion(corpus[i], lookup, decode).value, StatusOf(corpus[i]).value)
  {
    if corpus == [] then Some([])
    else
      var version := PromptVersion(corpus[0], lookup, decode);
      var status := StatusOf(corpus[0]);
      if version.None? || status.None? then None
      else
        match Labelled(corpus[1..], lookup, decode)
        case None =>
          assert !forall i :: 0 <= i < |corpus| ==>
            PromptVersion(corpus[i], lookup, decode).Some? && StatusOf(corpus[i]).Some? by {
            var j :| 0 <= j < |corpus[1..]| &&
              !(PromptVersion(corpus[1..][j], lookup, decode).Some? && StatusOf(corpus[1..][j]).Some?);
            assert corpus[1..][j] == corpus[j + 1];
          }
          None
        case Some(rest) => Some([(version.value, status.value)] + rest)
  }

  /** The counts of one prompt version. */
  datatype Counts = Counts(approved: nat, rejected: nat, needsImprovement: nat, total: nat)

  const NoCounts := Counts(0, 0, 0, 0)

  function Indicator(b: bool): nat {
    if b then 1 else 0
  }

  /** One more entry with this status. */
  function Record(c: Counts, status: Value): Counts {
    Counts(c.approved + Indicator(status == Str(Approved)),
           c.rejected + Indicator(status == Str(Rejected)),
           c.needsImprovement + Indicator(status == Str(NeedsImprovement)),
           c.total + 1)
  }

  /** The update of a version's counts for one entry. */
  function RecordWith(status: Value): Counts -> Counts {
    c => Record(c, status)
  }

  /** Every entry counts toward the total; the three statuses are exclusive. */
  predicate Consistent(c: Counts) {
    c.approved + c.rejected + c.needsImprovement <= c.total
  }

  /** The defaultdict `by_prompt_version` after the given entries. */
  function Group(labelled: seq<(string, Value)>): (g: seq<(string, Counts)>)
    ensures Distinct(KeysOf(g))
    ensures forall i :: 0 <= i < |g| ==> Consistent(g[i].1) && g[i].1.total > 0
  {
    if labelled == [] then []
    else
      var before := Group(labelled[..|labelled| - 1]);
      var (version, status) := labelled[|labelled| - 1];
      var g := Upsert(before, version, NoCounts, RecordWith(status));
      UpsertDistinct(before, version, NoCounts, RecordWith(status));
      forall i | 0 <= i < |g| ensures Consistent(g[i].1) && g[i].1.total > 0 {
        if g[i].0 == version {
          AtUpsert(before, version, NoCounts, RecordWith(status), version);
          AtKeys(before, version);
          AtFirst(g, i);
          if version in KeysOf(before) {
            var j :| 0 <= j < |before| && before[j].0 == version;
            AtFirst(before, j);
          }
        } else {
          UpsertKeys(before, version, NoCounts, RecordWith(status));
          assert KeysOf(g)[i] != version;
          assert i < |before|;
        }
      }
      g
  }

  /** How many entries carry the version, and how many carry it with the status. */
  function WithVersion(labelled: seq<(string, Value)>, version: string): nat {
    if labelled == [] then 0
    else WithVersion(labelled[..|labelled| - 1], version) + Indicator(labelled[|labelled| - 1].0 == version)
  }

  function WithVersionStatus(labelled: seq<(string, Value)>, version: string, status: string): (n: nat)
    ensures n <= WithVersion(labelled, version)
  {
    if labelled == [] then 0
    else WithVersionStatus(labelled[..|labelled| - 1], version, status) +
         Indicator(labelled[|labelled| - 1] == (version, Str(status)))
  }

  /** The counts a version should have. */
  function VersionCounts(labelled: seq<(string, Value)>, version: string): Counts {
    Counts(WithVersionStatus(labelled, version, Approved),
           WithVersionStatus(labelled, version, Rejected),
           WithVersionStatus(labelled, version, NeedsImprovement),
           WithVersion(labelled, version))
  }

  /** Adding one entry changes a version's expected counts only when it carries that version. */
  lemma VersionCountsStep(labelled: seq<(string, Value)>, version: string)
    requires labelled != []
    ensures var init := labelled[..|labelled| - 1];
            var last := labelled[|labelled| - 1];
            VersionCounts(labelled, version) ==
              if last.0 == version then Record(VersionCounts(init, version), last.1)
              else VersionCounts(init, version)
  {
  }

  /** A version's counts are exactly its entries and its entries with each status. */
  lemma {:induction false} GroupCounts(labelled: seq<(string, Value)>, version: string)
    ensures WithVersion(labelled, version) == 0 ==> At(Group(labelled), version).None?
    ensures WithVersion(labelled, version) > 0 ==>
      At(Group(labelled), version) == Some(VersionCounts(labelled, version))
  {
    if labelled == [] {
      assert At(Group(labelled), version) == None;
    } else {
      var init := labelled[..|labelled| - 1];
      var (v, status) := labelled[|labelled| - 1];
      GroupCounts(init, version);
      VersionCountsStep(labelled, version);
      var before := Group(init);
      assert Group(labelled) == Upsert(before, v, NoCounts, RecordWith(status));
      AtUpsert(before, v, NoCounts, RecordWith(status), version);
      if v == version {
        var c := At(before, v).GetOr(NoCounts);
        assert RecordWith(status)(c) == Record(c, status);
        assert c == VersionCounts(init, version);
      }
    }
  }

  /** The statistics reported for a version. */
  datatype VersionStats = VersionStats(counts: Counts, approvedRate: real, rejectedRate: real, improvementRate: real)

  /** `n / total * 100`. */
  function Percent(n: nat, total: nat): (p: real)
    requires total > 0
    ensures 0.0 <= p && (n > 0 ==> 0.0 < p)
    ensures n <= total ==> p <= 100.0
  {
    assert n <= total ==> (n as real) * 100.0 <= (total as real) * 100.0;
    (n as real) * 100.0 / (total as real)
  }

  function Stats(c: Counts): VersionStats
    requires c.total > 0
  {
    VersionStats(c, Percent(c.approved, c.total), Percent(c.rejected, c.total), Percent(c.needsImprovement, c.total))
  }

  /** `success_rates`: the versions with a positive total, in first-seen order. */
  function Rates(g: seq<(string, Counts)>): (r: seq<(string, VersionStats)>)
    ensures |r| <= |g|
    ensures forall i :: 0 <= i < |r| ==> r[i].1.counts.total > 0
  {
    if g == [] then []
    else
      var before := Rates(g[..|g| - 1]);
      var (version, c) := g[|g| - 1];
      if c.total > 0 then before + [(version, Stats(c))] else before
  }

  /** Every group is reported, since each group has at least one entry. */
  lemma {:induction false} RatesKeepGroups(g: seq<(string, Counts)>)
    requires forall i :: 0 <= i < |g| ==> g[i].1.total > 0
    ensures |Rates(g)| == |g|
    ensures forall i :: 0 <= i < |g| ==> Rates(g)[i] == (g[i].0, Stats(g[i].1))
  {
    if g != [] {
      RatesKeepGroups(g[..|g| - 1]);
    }
  }

  /**
   * `_calculate_success_rates`: counts per version in one pass, then the rates of the
   * versions with entries.
   */
  method CalculateSuccessRates(corpus: seq<Value>, lookup: CaseLookup, decode: Decoder)
    returns (r: Option<seq<(string, VersionStats)>>)
    ensures var labelled := Labelled(corpus, lookup, decode);
      r == if labelled.None? then None else Some(Rates(Group(labelled.value)))
  {
    var labelled := Labelled(corpus, lookup, decode);
    if labelled.None? {
      return None;
    }
    var groups := CountByVersion(labelled.value);
    var rates := RatesOf(groups);
    return Some(rates);
  }

  /** The first loop of `_calculate_success_rates`: the defaultdict of counts per version. */
  method CountByVersion(items: seq<(string, Value)>) returns (groups: seq<(string, Counts)>)
    ensures groups == Group(items)
  {
    groups := [];
    for i := 0 to |items|
      invariant groups == Group(items[..i])
    {
      var version := items[i].0;
      var status := items[i].1;
      assert items[..i + 1][..i] == items[..i];
      assert Group(items[..i + 1]) == Upsert(Group(items[..i]), version, NoCounts, RecordWith(status));
      groups := Upsert(groups, version, NoCounts, RecordWith(status));
    }
    assert items[..|items|] == items;
  }

  /** The second loop of `_calculate_success_rates`: the statistics of each version with entries. */
  method RatesOf(groups: seq<(string, Counts)>) returns (rates: seq<(string, VersionStats)>)
    ensures rates == Rates(groups)
  {
    rates := [];
    for i := 0 to |groups|
      invariant rates == Rates(groups[..i])
    {
      assert groups[..i + 1][..i] == groups[..i];
      if groups[i].1.total > 0 {
        rates := rates + [(groups[i].0, Stats(groups[i].1))];
      }
    }
    assert groups[..|groups|] == groups;
  }

  /**
   * Per version: approved + rejected + needs_improvement <= total, the total is the number of
   * entries with that version, and only versions with entries are reported.
   */
  lemma SuccessRatesCount(labelled: seq<(string, Value)>, i: nat)
    requires i < |Rates(Group(labelled))|
    ensures var (version, stats) := Rates(Group(labelled))[i];
      Consistent(stats.counts) && stats.counts.total == WithVersion(labelled, version) > 0 &&
      stats.counts.approved == WithVersionStatus(labelled, version, Approved)
  {
    var g := Group(labelled);
    RatesKeepGroups(g);
    AtFirst(g, i);
    GroupCounts(labelled, g[i].0);
  }

  // ---------------------------------------------------------------------------
  // _identify_common_issues
  // ---------------------------------------------------------------------------

  /** `f['status'] in [rejected, needs_improvement]`. */
  predicate IsProblem(status: Value) {
    status == Str(Rejected) || status == Str(NeedsImprovement)
  }

  /** The rejected and needs-improvement entries, in order; None when an entry has no status. */
  function Problematic(corpus: seq<Value>): (r: Option<seq<Value>>)
    ensures r.Some? <==> forall i :: 0 <= i < |corpus| ==> StatusOf(corpus[i]).Some?
    ensures r.Some? ==> |r.value| <= |corpus|
    ensures r.Some? ==> forall f :: f in r.value ==> f in corpus && IsProblem(StatusOf(f).value)
    ensures r.Some? ==> forall i :: 0 <= i < |corpus| && IsProblem(StatusOf(corpus[i]).value) ==> corpus[i] in r.value
  {
    if corpus == [] then Some([])
    else
      var init := corpus[..|corpus| - 1];
      var last := corpus[|corpus| - 1];
      assert forall i :: 0 <= i < |init| ==> init[i] == corpus[i];
      match Problematic(init)
      case None => None
      case Some(before) =>
        match StatusOf(last)
        case None => None
        case Some(status) => Some(if IsProblem(status) then before + [last] else before)
  }

  /** `feedback.get('feedback_text')`. */
  function TextOf(f: Value): Value {
    GetOr(f, "feedback_text", Null)
  }

  /** The lower-cased texts of the entries that have one; None when a text is not a string. */
  function FeedbackTexts(problems: seq<Value>): (r: Option<seq<string>>)
    ensures r.Some? <==> forall i :: 0 <= i < |problems| ==> !Truthy(TextOf(problems[i])) || TextOf(problems[i]).Str?
    ensures r.Some? ==> |r.value| <= |problems|
  {
    if problems == [] then Some([])
    else
      var init := problems[..|problems| - 1];
      var last := problems[|problems| - 1];
      assert forall i :: 0 <= i < |init| ==> init[i] == problems[i];
      match FeedbackTexts(init)
      case None => None
      case Some(before) =>
        var text := TextOf(last);
        if !Truthy(text) then Some(before)
        else if text.Str? then Some(before + [Lower(text.s)])
        else None
  }

  /** The issue types, in the order they are tried, with the keywords that signal each. */
  const IssueKeywords: seq<(string, seq<string>)> := [
    ("invalid", ["invalid", "wrong", "incorrect", "bad"]),
    ("missing", ["missing", "absent", "not included", "lack"]),
    ("format", ["format", "structure", "syntax", "malformed"]),
    ("data", ["data", "value", "field", "parameter"]),
    ("coverage", ["coverage", "test", "scenario", "case"]),
    ("quality", ["quality", "poor", "low", "unclear"])
  ]

  lemma IssueTypesDistinct()
    ensures Distinct(KeysOf(IssueKeywords))
  {
    assert KeysOf(IssueKeywords) == ["invalid", "missing", "format", "data", "coverage", "quality"];
  }

  /** The count and the examples kept for one issue type. */
  datatype IssueAcc = IssueAcc(count: nat, examples: seq<string>)

  const NoIssue := IssueAcc(0, [])

  /** One more text with the issue; it becomes an example, cut to 200 characters, while fewer than 3 are kept. */
  function AddExample(text: string): IssueAcc -> IssueAcc {
    (a: IssueAcc) => IssueAcc(a.count + 1, if |a.examples| < 3 then a.examples + [Sorting.Take(text, 200)] else a.examples)
  }

  /** The inner loop: one text tried against each issue type in turn. */
  function TallyText(acc: seq<(string, IssueAcc)>, text: string, kinds: seq<(string, seq<string>)>): (r: seq<(string, IssueAcc)>)
    requires Distinct(KeysOf(acc))
    ensures Distinct(KeysOf(r))
    decreases |kinds|
  {
    if kinds == [] then acc
    else
      var (issueType, keywords) := kinds[0];
      if ContainsAny(text, keywords) then
        UpsertDistinct(acc, issueType, NoIssue, AddExample(text));
        TallyText(Upsert(acc, issueType, NoIssue, AddExample(text)), text, kinds[1..])
      else TallyText(acc, text, kinds[1..])
  }

  /** `issue_counts` and `issue_examples` after the given texts, keyed in first-seen order. */
  function IssueTally(texts: seq<string>): (r: seq<(string, IssueAcc)>)
    ensures Distinct(KeysOf(r))
  {
    if texts == [] then []
    else TallyText(IssueTally(texts[..|texts| - 1]), texts[|texts| - 1], IssueKeywords)
  }

  /** The texts that mention one of the keywords, in order. */
  function Mentioning(texts: seq<string>, keywords: seq<string>): (m: seq<string>)
    ensures |m| <= |texts|
  {
    if texts == [] then []
    else
      var before := Mentioning(texts[..|texts| - 1], keywords);
      if ContainsAny(texts[|texts| - 1], keywords) then before + [texts[|texts| - 1]] else before
  }

  /** What an issue type should record: one count per mentioning text, and the first three of them, cut to 200 characters. */
  function Expected(texts: seq<string>, keywords: seq<string>): IssueAcc {
    var m := Mentioning(texts, keywords);
    IssueAcc(|m|, seq(if |m| < 3 then |m| else 3, i requires 0 <= i < |m| => Sorting.Take(m[i], 200)))
  }

  lemma ExpectedStep(texts: seq<string>, keywords: seq<string>)
    requires texts != []
    ensures var init := texts[..|texts| - 1];
            var last := texts[|texts| - 1];
            Expected(texts, keywords) ==
              if ContainsAny(last, keywords) then AddExample(last)(Expected(init, keywords)) else Expected(init, keywords)
  {
    var init := texts[..|texts| - 1];
    var last := texts[|texts| - 1];
    if ContainsAny(last, keywords) {
      var m := Mentioning(init, keywords);
      assert Mentioning(texts, keywords) == m + [last];
      var e := Expected(init, keywords).examples;
      if |m| < 3 {
        assert Expected(texts, keywords).examples == e + [Sorting.Take(last, 200)];
      } else {
        assert Expected(texts, keywords).examples == e;
      }
    }
  }

  /** After one text, an issue type changes exactly when the text mentions one of its keywords. */
  lemma {:induction false} TallyTextAt(acc: seq<(string, IssueAcc)>, text: string, kinds: seq<(string, seq<string>)>, t: string)
    requires Distinct(KeysOf(acc)) && Distinct(KeysOf(kinds))
    ensures At(TallyText(acc, text, kinds), t) ==
      if At(kinds, t).Some? && ContainsAny(text, At(kinds, t).value) then Some(AddExample(text)(At(acc, t).GetOr(NoIssue)))
      else At(acc, t)
    decreases |kinds|
  {
    if kinds != [] {
      var issueType := kinds[0].0;
      var mentioned := ContainsAny(text, kinds[0].1);
      var next := if mentioned then Upsert(acc, issueType, NoIssue, AddExample(text)) else acc;
      if mentioned {
        UpsertDistinct(acc, issueType, NoIssue, AddExample(text));
      }
      assert TallyText(acc, text, kinds) == TallyText(next, text, kinds[1..]);
      assert KeysOf(kinds[1..]) == KeysOf(kinds)[1..];
      if mentioned {
        AtUpsert(acc, issueType, NoIssue, AddExample(text), t);
      }
      TallyTextAt(next, text, kinds[1..], t);
      if issueType == t {
        HeadKeyUnique(kinds);
        AtKeys(kinds[1..], t);
      }
    }
  }

  /**
   * An issue type is present exactly when some text mentions one of its keywords; its count
   * is the number of such texts and its examples are the first three of them, cut short.
   */
  lemma {:induction false} IssueTallyAt(texts: seq<string>, t: string)
    ensures At(IssueTally(texts), t) ==
      if At(IssueKeywords, t).Some? && Mentioning(texts, At(IssueKeywords, t).value) != [] then
        Some(Expected(texts, At(IssueKeywords, t).value))
      else None
  {
    if texts != [] {
      var init := texts[..|texts| - 1];
      IssueTallyAt(init, t);
      IssueTypesDistinct();
      TallyTextAt(IssueTally(init), texts[|texts| - 1], IssueKeywords, t);
      if At(IssueKeywords, t).Some? {
        ExpectedStep(texts, At(IssueKeywords, t).value);
      }
    }
  }

  /** One entry of `common_issues`. */
  datatype CommonIssue = CommonIssue(issueType: string, count: nat, percentage: real, examples: seq<string>)

  /** The sort key: an issue type's count. */
  function IssueCount(p: (string, IssueAcc)): real {
    p.1.count as real
  }

  /** The list built from the sorted tally; percentages are of the problematic entries. */
  function Report(sorted: seq<(string, IssueAcc)>, problems: nat): seq<CommonIssue>
    requires problems > 0
  {
    seq(|sorted|, i requires 0 <= i < |sorted| =>
      CommonIssue(sorted[i].0, sorted[i].1.count, Percent(sorted[i].1.count, problems), sorted[i].1.examples))
  }

  /** `_identify_common_issues`; None where Python raises. */
  function CommonIssues(corpus: seq<Value>): Option<seq<CommonIssue>> {
    match Problematic(corpus)
    case None => None
    case Some(problems) =>
      if problems == [] then Some([])
      else
        match FeedbackTexts(problems)
        case None => None
        case Some(texts) => Some(Report(Sorting.SortDescending(IssueTally(texts), IssueCount), |problems|))
  }

  /** The lower-cased texts the issues are drawn from (empty when nothing is problematic). */
  function IssueTexts(corpus: seq<Value>): seq<string>
    requires CommonIssues(corpus).Some?
  {
    FeedbackTexts(Problematic(corpus).value).value
  }

  /** Issues come most frequent first. */
  lemma IssuesSorted(corpus: seq<Value>)
    requires CommonIssues(corpus).Some?
    ensures var issues := CommonIssues(corpus).value;
      forall i, j :: 0 <= i < j < |issues| ==> issues[i].count >= issues[j].count
  {
    var problems := Problematic(corpus).value;
    if problems != [] {
      var sorted := Sorting.SortDescending(IssueTally(IssueTexts(corpus)), IssueCount);
      assert forall i, j :: 0 <= i < j < |sorted| ==> IssueCount(sorted[i]) >= IssueCount(sorted[j]);
    }
  }

  /**
   * Each reported issue is one of the six types; its count is the number of texts mentioning
   * one of its keywords (so it is positive and at most the number of problematic entries),
   * and it keeps the first three such texts, each cut to at most 200 characters.
   */
  lemma IssueCounted(corpus: seq<Value>, i: nat)
    requires CommonIssues(corpus).Some? && i < |CommonIssues(corpus).value|
    ensures var issue := CommonIssues(corpus).value[i];
      var keywords := At(IssueKeywords, issue.issueType);
      keywords.Some? &&
      issue.count == |Mentioning(IssueTexts(corpus), keywords.value)| > 0 &&
      issue.examples == Expected(IssueTexts(corpus), keywords.value).examples &&
      |issue.examples| <= 3 && (forall e :: e in issue.examples ==> |e| <= 200) &&
      0.0 < issue.percentage <= 100.0
  {
    var problems := Problematic(corpus).value;
    var texts := IssueTexts(corpus);
    var tally := IssueTally(texts);
    var sorted := Sorting.SortDescending(tally, IssueCount);
    assert sorted[i] in multiset(tally);
    var j :| 0 <= j < |tally| && tally[j] == sorted[i];
    AtFirst(tally, j);
    IssueTallyAt(texts, sorted[i].0);
    assert sorted[i].1.count <= |problems|;
  }

  /** Every issue type that some text mentions is reported. */
  lemma IssueReported(corpus: seq<Value>, t: string)
    requires CommonIssues(corpus).Some?
    requires At(IssueKeywords, t).Some? && Mentioning(IssueTexts(corpus), At(IssueKeywords, t).value) != []
    ensures exists i :: 0 <= i < |CommonIssues(corpus).value| && CommonIssues(corpus).value[i].issueType == t
  {
    var texts := IssueTexts(corpus);
    var tally := IssueTally(texts);
    var sorted := Sorting.SortDescending(tally, IssueCount);
    IssueTallyAt(texts, t);
    AtKeys(tally, t);
    var j :| 0 <= j < |KeysOf(tally)| && KeysOf(tally)[j] == t;
    assert tally[j] in multiset(sorted);
    var i :| 0 <= i < |sorted| && sorted[i] == tally[j];
    assert CommonIssues(corpus).value[i].issueType == t;
  }

  /** `_identify_common_issues`, loop by loop. */
  method IdentifyCommonIssues(corpus: seq<Value>) returns (r: Option<seq<CommonIssue>>)
    ensures r == CommonIssues(corpus)
  {
    var problems := ProblematicEntries(corpus);
    if problems.None? {
      return None;
    }
    if problems.value == [] {
      return Some([]);
    }
    var texts := LoweredTexts(problems.value);
    if texts.None? {
      return None;
    }
    var tally := TallyIssues(texts.value);
    var sorted := Sorting.SortDescending(tally, IssueCount);
    var issues: seq<CommonIssue> := [];
    for i := 0 to |sorted|
      invariant issues == Report(sorted, |problems.value|)[..i]
    {
      var count := sorted[i].1.count;
      issues := issues + [CommonIssue(sorted[i].0, count, Percent(count, |problems.value|), sorted[i].1.examples)];
    }
    assert Report(sorted, |problems.value|)[..|sorted|] == Report(sorted, |problems.value|);
    return Some(issues);
  }

  /** The list comprehension selecting rejected and needs-improvement entries. */
  method ProblematicEntries(corpus: seq<Value>) returns (r: Option<seq<Value>>)
    ensures r == Problematic(corpus)
  {
    var problems: seq<Value> := [];
    for i := 0 to |corpus|
      invariant Problematic(corpus[..i]) == Some(problems)
    {
      assert corpus[..i + 1][..i] == corpus[..i];
      var status := StatusOf(corpus[i]);
      if status.None? {
        return None;
      }
      if IsProblem(status.value) {
        problems := problems + [corpus[i]];
      }
    }
    assert corpus[..|corpus|] == corpus;
    return Some(problems);
  }

  /** The loop collecting lower-cased feedback texts. */
  method LoweredTexts(problems: seq<Value>) returns (r: Option<seq<string>>)
    ensures r == FeedbackTexts(problems)
  {
    var texts: seq<string> := [];
    for i := 0 to |problems|
      invariant FeedbackTexts(problems[..i]) == Some(texts)
    {
      assert problems[..i + 1][..i] == problems[..i];
      var text := TextOf(problems[i]);
      if Truthy(text) {
        if !text.Str? {
          return None;
        }
        texts := texts + [Lower(text.s)];
      }
    }
    assert problems[..|problems|] == problems;
    return Some(texts);
  }

  /** The nested loop counting issue types and keeping examples. */
  method TallyIssues(texts: seq<string>) returns (tally: seq<(string, IssueAcc)>)
    ensures tally == IssueTally(texts)
  {
    tally := [];
    for i := 0 to |texts|
      invariant tally == IssueTally(texts[..i])
    {
      var text := texts[i];
      assert texts[..i + 1][..i] == texts[..i];
      var j := 0;
      while j < |IssueKeywords|
        invariant 0 <= j <= |IssueKeywords|
        invariant Distinct(KeysOf(tally))
        invariant TallyText(tally, text, IssueKeywords[j..]) == IssueTally(texts[..i + 1])
      {
        var issueType := IssueKeywords[j].0;
        assert IssueKeywords[j..][1..] == IssueKeywords[j + 1..];
        if ContainsAny(text, IssueKeywords[j].1) {
          UpsertDistinct(tally, issueType, NoIssue, AddExample(text));
          tally := Upsert(tally, issueType, NoIssue, AddExample(text));
        }
        j := j + 1;
      }
    }
    assert texts[..|texts|] == texts;
  }

  // ---------------------------------------------------------------------------
  // _extract_patterns
  // ---------------------------------------------------------------------------

  /** The counts kept per endpoint and per method: only the three review statuses. */
  datatype StatusCounts = StatusCounts(approved: nat, rejected: nat, needsImprovement: nat)

  const NoStatus := StatusCounts(0, 0, 0)

  /** The statuses a per-endpoint or per-method count has a slot for. */
  predicate KnownStatus(status: Value) {
    status == Str(Approved) || status == Str(Rejected) || status == Str(NeedsImprovement)
  }

  /** `counts[status] += 1`. */
  function Bump(status: Value): StatusCounts -> StatusCounts {
    (c: StatusCounts) =>
      StatusCounts(c.approved + Indicator(status == Str(Approved)),
                   c.rejected + Indicator(status == Str(Rejected)),
                   c.needsImprovement + Indicator(status == Str(NeedsImprovement)))
  }

  /** `sum(counts.values())`. */
  function Size(c: StatusCounts): nat {
    c.approved + c.rejected + c.needsImprovement
  }

  function Inc(n: nat): nat {
    n + 1
  }

  /** The `patterns` dict. */
  datatype Patterns = Patterns(
    byStatus: seq<(string, nat)>,
    byEndpoint: seq<(string, StatusCounts)>,
    byMethod: seq<(Value, StatusCounts)>,
    textYes: nat, textNo: nat,
    suggestedYes: nat, suggestedNo: nat)

  const NoPatterns := Patterns([], [], [], 0, 0, 0, 0)

  function MethodOf(f: Value): Value {
    GetOr(f, "method", Str("UNKNOWN"))
  }

  /** `f"{method} {path}"`, the two texts joined by a space. */
  function EndpointKey(f: Value): string {
    Join([PyStr(MethodOf(f)), PyStr(GetOr(f, "path", Str("UNKNOWN")))], " ")
  }

  /** `annotations_json`, decoded when it is text; `{}` when absent or undecodable. */
  function Annotations(f: Value, decode: Decoder): Value {
    var a := GetOr(f, "annotations_json", EmptyDict);
    if a.Str? then decode(a.s).GetOr(EmptyDict) else a
  }

  /** `annotations and annotations.get('suggested_improvements')`; None where `.get` raises. */
  function Suggested(f: Value, decode: Decoder): (r: Option<bool>)
    ensures !Truthy(Annotations(f, decode)) ==> r == Some(false)
    ensures r.None? <==> Truthy(Annotations(f, decode)) && !Annotations(f, decode).Dict?
  {
    var a := Annotations(f, decode);
    if !Truthy(a) then Some(false)
    else if !a.Dict? then None
    else Some(Truthy(GetOr(a, "suggested_improvements", Null)))
  }

  /**
   * An entry the loop body gets through: it has a status among the three (another status has
   * no slot in the per-endpoint counts, a KeyError), a hashable method and readable annotations.
   */
  predicate Countable(f: Value, decode: Decoder) {
    StatusOf(f).Some? && KnownStatus(StatusOf(f).value) && Hashable(MethodOf(f)) && Suggested(f, decode).Some?
  }

  /** The loop body on one entry. */
  function Tallied(p: Patterns, f: Value, decode: Decoder): Patterns
    requires Countable(f, decode)
  {
    var status := StatusOf(f).value;
    var text := Truthy(TextOf(f));
    var suggested := Suggested(f, decode).value;
    Patterns(
      Upsert(p.byStatus, status.s, 0, Inc),
      Upsert(p.byEndpoint, EndpointKey(f), NoStatus, Bump(status)),
      Upsert(p.byMethod, MethodOf(f), NoStatus, Bump(status)),
      p.textYes + Indicator(text), p.textNo + Indicator(!text),
      p.suggestedYes + Indicator(suggested), p.suggestedNo + Indicator(!suggested))
  }

  /** Python gets through the loop exactly when every entry is countable. */
  predicate AllCountable(corpus: seq<Value>, decode: Decoder) {
    forall i :: 0 <= i < |corpus| ==> Countable(corpus[i], decode)
  }

  /** The loop over countable entries. */
  function Tally(corpus: seq<Value>, decode: Decoder): Patterns
    requires AllCountable(corpus, decode)
  {
    if corpus == [] then NoPatterns
    else
      var init := corpus[..|corpus| - 1];
      assert forall i :: 0 <= i < |init| ==> init[i] == corpus[i];
      Tallied(Tally(init, decode), corpus[|corpus| - 1], decode)
  }

  /** `_extract_patterns`; None where Python raises. */
  function PatternsOf(corpus: seq<Value>, decode: Decoder): Option<Patterns> {
    if AllCountable(corpus, decode) then Some(Tally(corpus, decode)) else None
  }

  /** `sum(d.values())` for a dict of counts. */
  function Total<K>(d: seq<(K, nat)>): nat {
    if d == [] then 0 else d[0].1 + Total(d[1..])
  }

  /** The sum of the per-key status counts. */
  function Sizes<K>(d: seq<(K, StatusCounts)>): nat {
    if d == [] then 0 else Size(d[0].1) + Sizes(d[1..])
  }

  lemma {:induction false} TotalUpsert<K>(d: seq<(K, nat)>, k: K)
    ensures Total(Upsert(d, k, 0, Inc)) == Total(d) + 1
  {
    if d != [] && d[0].0 != k {
      TotalUpsert(d[1..], k);
      assert Upsert(d, k, 0, Inc)[1..] == Upsert(d[1..], k, 0, Inc);
    }
  }

  lemma {:induction false} SizesUpsert<K>(d: seq<(K, StatusCounts)>, k: K, status: Value)
    requires KnownStatus(status)
    ensures Sizes(Upsert(d, k, NoStatus, Bump(status))) == Sizes(d) + 1
  {
    if d != [] && d[0].0 != k {
      SizesUpsert(d[1..], k, status);
      assert Upsert(d, k, NoStatus, Bump(status))[1..] == Upsert(d[1..], k, NoStatus, Bump(status));
    }
  }

  /** How many entries carry the status. */
  function StatusCount(corpus: seq<Value>, status: string): nat {
    if corpus == [] then 0
    else StatusCount(corpus[..|corpus| - 1], status) + Indicator(StatusOf(corpus[|corpus| - 1]) == Some(Str(status)))
  }

  /** How many entries have a (truthy) feedback text. */
  function WithText(corpus: seq<Value>): nat {
    if corpus == [] then 0
    else WithText(corpus[..|corpus| - 1]) + Indicator(Truthy(TextOf(corpus[|corpus| - 1])))
  }

  /**
   * Every entry is counted once in each view: the status counts, the endpoint counts and the
   * method counts all sum to the corpus size, and so do yes + no for text and for suggestions.
   * 'yes' for text is the number of entries with a text, and each status count is the number of
   * entries with that status.
   */
  lemma {:induction false} PatternTotals(corpus: seq<Value>, decode: Decoder, status: string)
    requires PatternsOf(corpus, decode).Some?
    ensures var p := PatternsOf(corpus, decode).value;
      Total(p.byStatus) == |corpus| && Sizes(p.byEndpoint) == |corpus| && Sizes(p.byMethod) == |corpus| &&
      p.textYes + p.textNo == |corpus| && p.suggestedYes + p.suggestedNo == |corpus| &&
      p.textYes == WithText(corpus) &&
      CountOf(p.byStatus, status) == StatusCount(corpus, status)
  {
    if corpus != [] {
      var init := corpus[..|corpus| - 1];
      var last := corpus[|corpus| - 1];
      assert forall i :: 0 <= i < |init| ==> init[i] == corpus[i];
      PatternTotals(init, decode, status);
      var p := Tally(init, decode);
      var s := StatusOf(last).value;
      TotalUpsert(p.byStatus, s.s);
      SizesUpsert(p.byEndpoint, EndpointKey(last), s);
      SizesUpsert(p.byMethod, MethodOf(last), s);
      AtUpsert(p.byStatus, s.s, 0, Inc, status);
    }
  }

  /** One more countable entry extends the tally of the entries before it. */
  lemma TallyStep(corpus: seq<Value>, i: nat, decode: Decoder)
    requires i < |corpus| && AllCountable(corpus[..i], decode) && Countable(corpus[i], decode)
    ensures AllCountable(corpus[..i + 1], decode)
    ensures Tally(corpus[..i + 1], decode) == Tallied(Tally(corpus[..i], decode), corpus[i], decode)
  {
    assert corpus[..i + 1][..i] == corpus[..i];
    assert corpus[..i + 1][i] == corpus[i];
  }

  /** One entry Python cannot count makes the whole extraction raise. */
  lemma UncountableRaises(corpus: seq<Value>, i: nat, decode: Decoder)
    requires i < |corpus| && !Countable(corpus[i], decode)
    ensures PatternsOf(corpus, decode) == None
  {
  }

  /** `_extract_patterns`, one entry at a time. */
  method ExtractPatterns(corpus: seq<Value>, decode: Decoder) returns (r: Option<Patterns>)
    ensures r == PatternsOf(corpus, decode)
  {
    var byStatus: seq<(string, nat)> := [];
    var byEndpoint: seq<(string, StatusCounts)> := [];
    var byMethod: seq<(Value, StatusCounts)> := [];
    var textYes, textNo, suggestedYes, suggestedNo := 0, 0, 0, 0;
    for i := 0 to |corpus|
      invariant AllCountable(corpus[..i], decode)
      invariant Tally(corpus[..i], decode) ==
        Patterns(byStatus, byEndpoint, byMethod, textYes, textNo, suggestedYes, suggestedNo)
    {
      var f := corpus[i];
      var status := StatusOf(f);
      if status.None? || !KnownStatus(status.value) || !Hashable(MethodOf(f)) {
        UncountableRaises(corpus, i, decode);
        return None;
      }
      var suggested := Suggested(f, decode);
      if suggested.None? {
        UncountableRaises(corpus, i, decode);
        return None;
      }
      ghost var before := Patterns(byStatus, byEndpoint, byMethod, textYes, textNo, suggestedYes, suggestedNo);
      TallyStep(corpus, i, decode);
      byStatus := Upsert(byStatus, status.value.s, 0, Inc);
      byEndpoint := Upsert(byEndpoint, EndpointKey(f), NoStatus, Bump(status.value));
      byMethod := Upsert(byMethod, MethodOf(f), NoStatus, Bump(status.value));
      if Truthy(TextOf(f)) {
        textYes := textYes + 1;
      } else {
        textNo := textNo + 1;
      }
      if suggested.value {
        suggestedYes := suggestedYes + 1;
      } else {
        suggestedNo := suggestedNo + 1;
      }
      ghost var t := Tallied(before, f, decode);
      assert byStatus == t.byStatus;
      assert byEndpoint == t.byEndpoint;
      assert byMethod == t.byMethod;
      assert textYes == t.textYes && textNo == t.textNo;
      assert suggestedYes == t.suggestedYes && suggestedNo == t.suggestedNo;
      assert Patterns(byStatus, byEndpoint, byMethod, textYes, textNo, suggestedYes, suggestedNo) == t;
    }
    assert corpus[..|corpus|] == corpus;
    return Some(Patterns(byStatus, byEndpoint, byMethod, textYes, textNo, suggestedYes, suggestedNo));
  }

  // ---------------------------------------------------------------------------
  // _extract_actionable_insights
  // ---------------------------------------------------------------------------

  lemma MulPositive(x: real, y: real)
    requires x > 0.0 && y > 0.0
    ensures x * y > 0.0
  {
  }

  /** Dividing by a positive number keeps the order with a bound multiplied by it. */
  lemma DivCompare(a: real, b: real, c: real)
    requires b > 0.0
    ensures a / b < c <==> a < c * b
    ensures a / b > c <==> a > c * b
  {
    var q := a / b;
    assert q * b == a;
    if q < c {
      MulPositive(c - q, b);
      assert (c - q) * b == c * b - q * b;
    } else if q > c {
      MulPositive(q - c, b);
      assert (q - c) * b == q * b - c * b;
    }
  }

  /** A percentage compared with one half. */
  lemma PercentHalf(n: nat, total: nat)
    requires total > 0
    ensures Percent(n, total) < 50.0 <==> 2 * n < total
    ensures Percent(n, total) > 50.0 <==> 2 * n > total
  {
    DivCompare((n as real) * 100.0, total as real, 50.0);
  }

  /** A larger count is a larger share of the same total. */
  lemma PercentMonotone(a: nat, b: nat, total: nat)
    requires total > 0 && a <= b
    ensures Percent(a, total) <= Percent(b, total)
  {
    DivCompare((a as real) * 100.0, total as real, Percent(b, total));
  }

  datatype Priority = High | Medium | Low

  /** `priority_order`. */
  function Rank(p: Priority): nat {
    match p
    case High => 0
    case Medium => 1
    case Low => 2
  }

  const PromptVersionCategory := "prompt_version"
  const CommonIssueCategory := "common_issue"
  const MethodPatternCategory := "method_pattern"
  const FeedbackQualityCategory := "feedback_quality"
  const OverallPerformanceCategory := "overall_performance"

  /** The `data` of each kind of insight; the insight and recommendation texts are not modelled. */
  datatype InsightData =
    | VersionGap(bestVersion: string, bestRate: real, worstVersion: string, worstRate: real)
    | TopIssue(issueType: string, count: nat, percentage: real)
    | MethodRejections(httpMethod: Value, rejectedRate: real, total: nat)
    | TextRate(rate: real, total: nat)
    | Approval(rate: real, total: nat, approved: nat)

  datatype Insight = Insight(priority: Priority, category: string, data: InsightData)

  function ApprovedRate(e: (string, VersionStats)): real {
    e.1.approvedRate
  }

  /**
   * Insight 1: the best version (first with the highest approval rate) beats the worst (first
   * with the lowest) by more than 10 points, which is exactly when some two versions differ so.
   */
  function VersionInsight(rates: seq<(string, VersionStats)>): (r: Option<Insight>)
    ensures r.Some? <==> (exists i, j :: (0 <= i < |rates| && 0 <= j < |rates| &&
                                          rates[i].1.approvedRate > rates[j].1.approvedRate + 10.0))
    ensures r.Some? ==> (r.value.priority == High && r.value.category == PromptVersionCategory &&
      r.value.data.VersionGap? &&
      forall i :: 0 <= i < |rates| ==> r.value.data.worstRate <= rates[i].1.approvedRate <= r.value.data.bestRate)
  {
    if rates == [] then None
    else
      var best := rates[Sorting.FirstMax(rates, ApprovedRate)];
      var worst := rates[Sorting.FirstMin(rates, ApprovedRate)];
      assert forall i :: 0 <= i < |rates| ==> ApprovedRate(worst) <= ApprovedRate(rates[i]) <= ApprovedRate(best);
      if best.1.approvedRate > worst.1.approvedRate + 10.0 then
        Some(Insight(High, PromptVersionCategory, VersionGap(best.0, best.1.approvedRate, worst.0, worst.1.approvedRate)))
      else None
  }

  /** Insight 2: the first (most frequent) issue covers more than 30% of the problematic entries. */
  function IssueInsight(issues: seq<CommonIssue>): Option<Insight> {
    if issues != [] && issues[0].percentage > 30.0 then
      Some(Insight(High, CommonIssueCategory, TopIssue(issues[0].issueType, issues[0].count, issues[0].percentage)))
    else None
  }

  /** Because issues come most frequent first, insight 2 appears exactly when some issue exceeds 30%. */
  lemma TopIssueInsight(corpus: seq<Value>)
    requires CommonIssues(corpus).Some?
    ensures var issues := CommonIssues(corpus).value;
      IssueInsight(issues).Some? <==> exists i :: 0 <= i < |issues| && issues[i].percentage > 30.0
  {
    var issues := CommonIssues(corpus).value;
    IssuesSorted(corpus);
    var problems := Problematic(corpus).value;
    forall i | 0 <= i < |issues| ensures issues[i].percentage <= issues[0].percentage {
      PercentMonotone(issues[i].count, issues[0].count, |problems|);
    }
  }

  /** The share of rejections in a method's counts. */
  function RejectedRate(c: StatusCounts): real
    requires Size(c) > 0
  {
    Percent(c.rejected, Size(c))
  }

  /** The loop building `method_issues`: the methods rejected more than half the time. */
  function MethodIssues(byMethod: seq<(Value, StatusCounts)>): (r: seq<InsightData>)
    ensures forall x :: x in r ==> x.MethodRejections? && x.rejectedRate > 50.0 && x.total > 0
    ensures r != [] <==> exists i :: 0 <= i < |byMethod| && Size(byMethod[i].1) > 0 && RejectedRate(byMethod[i].1) > 50.0
  {
    if byMethod == [] then []
    else
      var init := byMethod[..|byMethod| - 1];
      var (m, c) := byMethod[|byMethod| - 1];
      assert forall i :: 0 <= i < |init| ==> init[i] == byMethod[i];
      var before := MethodIssues(init);
      if Size(c) > 0 && RejectedRate(c) > 50.0 then before + [MethodRejections(m, RejectedRate(c), Size(c))]
      else before
  }

  function RejectedRateOf(d: InsightData): real {
    if d.MethodRejections? then d.rejectedRate else 0.0
  }

  /** Insight 3: the method with the highest rejection rate among those above 50%. */
  function MethodInsight(byMethod: seq<(Value, StatusCounts)>): (r: Option<Insight>)
    ensures r.Some? ==> (r.value.priority == Medium && r.value.category == MethodPatternCategory &&
      r.value.data in MethodIssues(byMethod) &&
      forall x :: x in MethodIssues(byMethod) ==> RejectedRateOf(x) <= RejectedRateOf(r.value.data))
  {
    var issues := MethodIssues(byMethod);
    if byMethod == [] || issues == [] then None
    else
      var worst := issues[Sorting.FirstMax(issues, RejectedRateOf)];
      Some(Insight(Medium, MethodPatternCategory, worst))
  }

  /** Insight 3 appears exactly when some method is rejected in more than half of its entries. */
  lemma MethodInsightWhen(byMethod: seq<(Value, StatusCounts)>)
    ensures MethodInsight(byMethod).Some? <==>
      exists i :: 0 <= i < |byMethod| && Size(byMethod[i].1) > 0 && 2 * byMethod[i].1.rejected > Size(byMethod[i].1)
  {
    forall i | 0 <= i < |byMethod| && Size(byMethod[i].1) > 0 {
      PercentHalf(byMethod[i].1.rejected, Size(byMethod[i].1));
    }
  }

  /** Insight 4: fewer than half of the entries carry a text (or there are none). */
  function TextInsight(total: nat, withText: nat): (r: Option<Insight>)
    ensures r.Some? <==> total == 0 || 2 * withText < total
    ensures r.Some? ==> r.value.priority == Low && r.value.category == FeedbackQualityCategory
  {
    if total > 0 then PercentHalf(withText, total); TextInsightAt(if total > 0 then Percent(withText, total) else 0.0, total)
    else TextInsightAt(0.0, total)
  }

  function TextInsightAt(rate: real, total: nat): Option<Insight> {
    if rate < 50.0 then Some(Insight(Low, FeedbackQualityCategory, TextRate(rate, total))) else None
  }

  /** `by_status.get(status, 0)`. */
  function CountOf(byStatus: seq<(string, nat)>, status: string): nat {
    At(byStatus, status).GetOr(0)
  }

  /** Insight 5: fewer than half of the counted statuses are approvals. */
  function ApprovalInsight(byStatus: seq<(string, nat)>): (r: Option<Insight>)
    ensures r.Some? <==> Total(byStatus) > 0 && 2 * CountOf(byStatus, Approved) < Total(byStatus)
    ensures r.Some? ==> r.value.priority == High && r.value.category == OverallPerformanceCategory
  {
    var total := Total(byStatus);
    var approved := CountOf(byStatus, Approved);
    if total > 0 then
      PercentHalf(approved, total);
      if Percent(approved, total) < 50.0 then
        Some(Insight(High, OverallPerformanceCategory, Approval(Percent(approved, total), total, approved)))
      else None
    else None
  }

  function Present(o: Option<Insight>): seq<Insight> {
    if o.Some? then [o.value] else []
  }

  /** The insights in the order they are appended. */
  function Collected(corpusSize: nat, rates: seq<(string, VersionStats)>, issues: seq<CommonIssue>, p: Patterns): seq<Insight> {
    Present(VersionInsight(rates)) + Present(IssueInsight(issues)) + Present(MethodInsight(p.byMethod)) +
    Present(TextInsight(corpusSize, p.textYes)) + Present(ApprovalInsight(p.byStatus))
  }

  /** The insights of one priority, in order. */
  function WithPriority(s: seq<Insight>, pr: Priority): (r: seq<Insight>)
    ensures forall x :: x in r ==> x in s && x.priority == pr
    ensures forall x :: x in s && x.priority == pr ==> x in r
  {
    if s == [] then []
    else
      var before := WithPriority(s[..|s| - 1], pr);
      SplitLast(s);
      if s[|s| - 1].priority == pr then before + [s[|s| - 1]] else before
  }

  /** `insights.sort(key=priority_order)`: a stable sort on three keys. */
  function ByPriority(s: seq<Insight>): seq<Insight> {
    WithPriority(s, High) + WithPriority(s, Medium) + WithPriority(s, Low)
  }

  /** `_extract_actionable_insights`. */
  function Insights(corpusSize: nat, rates: seq<(string, VersionStats)>, issues: seq<CommonIssue>, p: Patterns): seq<Insight> {
    ByPriority(Collected(corpusSize, rates, issues, p))
  }

  lemma {:induction false} WithPriorityAppend(a: seq<Insight>, b: seq<Insight>, pr: Priority)
    ensures WithPriority(a + b, pr) == WithPriority(a, pr) + WithPriority(b, pr)
  {
    if b == [] {
      assert a + b == a;
    } else {
      var init := b[..|b| - 1];
      WithPriorityAppend(a, init, pr);
      assert (a + b)[..|a + b| - 1] == a + init;
    }
  }

  lemma {:induction false} WithPriorityTwice(s: seq<Insight>, q: Priority, pr: Priority)
    ensures WithPriority(WithPriority(s, q), pr) == if q == pr then WithPriority(s, q) else []
  {
    if s != [] {
      var init := s[..|s| - 1];
      WithPriorityTwice(init, q, pr);
      if s[|s| - 1].priority == q {
        WithPriorityAppend(WithPriority(init, q), [s[|s| - 1]], pr);
        assert WithPriority([s[|s| - 1]], pr) == if q == pr then [s[|s| - 1]] else [];
      }
    }
  }

  lemma {:induction false} PartitionPermutes(s: seq<Insight>)
    ensures multiset(ByPriority(s)) == multiset(s)
  {
    if s != [] {
      var init := s[..|s| - 1];
      PartitionPermutes(init);
      SplitLast(s);
    }
  }

  /**
   * The sorted insights are in priority order (high, medium, low), are a permutation of the
   * collected ones, and keep the collected order within each priority: the sort is stable.
   */
  lemma ByPrioritySorted(s: seq<Insight>)
    ensures var r := ByPriority(s);
      (forall i, j :: 0 <= i < j < |r| ==> Rank(r[i].priority) <= Rank(r[j].priority)) &&
      multiset(r) == multiset(s) &&
      forall pr :: WithPriority(r, pr) == WithPriority(s, pr)
  {
    ByPriorityOrdered(s);
    PartitionPermutes(s);
    ByPriorityStable(s);
  }

  /** The sorted insights are in priority order. */
  lemma ByPriorityOrdered(s: seq<Insight>)
    ensures var r := ByPriority(s);
      forall i, j :: 0 <= i < j < |r| ==> Rank(r[i].priority) <= Rank(r[j].priority)
  {
    var high, medium, low := WithPriority(s, High), WithPriority(s, Medium), WithPriority(s, Low);
    var r := ByPriority(s);
    forall i, j | 0 <= i < j < |r| ensures Rank(r[i].priority) <= Rank(r[j].priority) {
      if i < |high| {
        assert r[i] in high;
      } else if i < |high| + |medium| {
        assert r[i] == medium[i - |high|];
        assert r[i] in medium;
        assert r[j] == (medium + low)[j - |high|];
        assert r[j] in medium || r[j] in low;
      } else {
        assert r[i] == low[i - |high| - |medium|] && r[j] == low[j - |high| - |medium|];
        assert r[i] in low && r[j] in low;
      }
    }
  }

  /** The sort keeps the collected order within each priority. */
  lemma ByPriorityStable(s: seq<Insight>)
    ensures forall pr :: WithPriority(ByPriority(s), pr) == WithPriority(s, pr)
  {
    var high, medium, low := WithPriority(s, High), WithPriority(s, Medium), WithPriority(s, Low);
    forall pr ensures WithPriority(ByPriority(s), pr) == WithPriority(s, pr) {
      WithPriorityAppend(high + medium, low, pr);
      WithPriorityAppend(high, medium, pr);
      WithPriorityTwice(s, High, pr);
      WithPriorityTwice(s, Medium, pr);
      WithPriorityTwice(s, Low, pr);
    }
  }

  /** An insight is in the sorted list exactly when it was collected. */
  lemma SortedMembers(s: seq<Insight>, x: Insight)
    ensures x in ByPriority(s) <==> x in s
  {
    PartitionPermutes(s);
    assert x in multiset(ByPriority(s)) <==> x in multiset(s);
  }

  /** Each collected insight comes from one of the five checks, whose categories differ. */
  lemma CollectedFrom(corpusSize: nat, rates: seq<(string, VersionStats)>, issues: seq<CommonIssue>, p: Patterns, x: Insight)
    requires x in Collected(corpusSize, rates, issues, p)
    ensures x.category == OverallPerformanceCategory <==> ApprovalInsight(p.byStatus) == Some(x)
    ensures x.category == FeedbackQualityCategory <==> TextInsight(corpusSize, p.textYes) == Some(x)
  {
    var version, issue, byMethod := VersionInsight(rates), IssueInsight(issues), MethodInsight(p.byMethod);
    var text, approval := TextInsight(corpusSize, p.textYes), ApprovalInsight(p.byStatus);
    assert x in Present(version) + Present(issue) + Present(byMethod) + Present(text) + Present(approval);
    assert OverallPerformanceCategory != PromptVersionCategory && OverallPerformanceCategory != CommonIssueCategory &&
           OverallPerformanceCategory != MethodPatternCategory && OverallPerformanceCategory != FeedbackQualityCategory;
    assert FeedbackQualityCategory != PromptVersionCategory && FeedbackQualityCategory != CommonIssueCategory &&
           FeedbackQualityCategory != MethodPatternCategory;
    if x in Present(version) {
      PresentHolds(version, x);
    } else if x in Present(issue) {
      PresentHolds(issue, x);
    } else if x in Present(byMethod) {
      PresentHolds(byMethod, x);
    } else if x in Present(text) {
      PresentHolds(text, x);
    } else {
      PresentHolds(approval, x);
    }
  }

  /** An insight listed from an optional one is that one. */
  lemma PresentHolds(o: Option<Insight>, x: Insight)
    requires x in Present(o)
    ensures o == Some(x)
  {
  }

  /** An insight is sorted into the result exactly when it was collected. */
  lemma InsightsMembers(corpusSize: nat, rates: seq<(string, VersionStats)>, issues: seq<CommonIssue>, p: Patterns)
    ensures forall x :: x in Insights(corpusSize, rates, issues, p) <==> x in Collected(corpusSize, rates, issues, p)
  {
    forall x {
      SortedMembers(Collected(corpusSize, rates, issues, p), x);
    }
  }

  /**
   * An 'overall_performance' insight (always high priority) is reported exactly when fewer than
   * half of a non-empty corpus is approved.
   */
  lemma OverallPerformanceWhen(corpus: seq<Value>, decode: Decoder, rates: seq<(string, VersionStats)>, issues: seq<CommonIssue>)
    requires PatternsOf(corpus, decode).Some?
    ensures var insights := Insights(|corpus|, rates, issues, PatternsOf(corpus, decode).value);
      (exists x :: x in insights && x.category == OverallPerformanceCategory) <==>
        |corpus| > 0 && 2 * StatusCount(corpus, Approved) < |corpus|
    ensures var insights := Insights(|corpus|, rates, issues, PatternsOf(corpus, decode).value);
      forall x :: x in insights && x.category == OverallPerformanceCategory ==> x.priority == High
  {
    var p := PatternsOf(corpus, decode).value;
    var collected := Collected(|corpus|, rates, issues, p);
    PatternTotals(corpus, decode, Approved);
    InsightsMembers(|corpus|, rates, issues, p);
    forall x | x in collected {
      CollectedFrom(|corpus|, rates, issues, p, x);
    }
    var approval := ApprovalInsight(p.byStatus);
    if approval.Some? {
      assert approval.value in collected;
    }
  }

  /**
   * A low-priority 'feedback_quality' insight is reported exactly when fewer than half of the
   * entries carry a text (or there are none).
   */
  lemma FeedbackQualityWhen(corpus: seq<Value>, decode: Decoder, rates: seq<(string, VersionStats)>, issues: seq<CommonIssue>)
    requires PatternsOf(corpus, decode).Some?
    ensures var insights := Insights(|corpus|, rates, issues, PatternsOf(corpus, decode).value);
      (exists x :: x in insights && x.category == FeedbackQualityCategory) <==>
        |corpus| == 0 || 2 * WithText(corpus) < |corpus|
    ensures var insights := Insights(|corpus|, rates, issues, PatternsOf(corpus, decode).value);
      forall x :: x in insights && x.category == FeedbackQualityCategory ==> x.priority == Low
  {
    var p := PatternsOf(corpus, decode).value;
    var collected := Collected(|corpus|, rates, issues, p);
    PatternTotals(corpus, decode, Approved);
    InsightsMembers(|corpus|, rates, issues, p);
    forall x | x in collected {
      CollectedFrom(|corpus|, rates, issues, p, x);
    }
    var text := TextInsight(|corpus|, p.textYes);
    if text.Some? {
      assert text.value in collected;
    }
  }

  /** `_extract_actionable_insights`: the five checks in order, then the sort by priority. */
  method ExtractActionableInsights(corpusSize: nat, rates: seq<(string, VersionStats)>, issues: seq<CommonIssue>, p: Patterns)
    returns (r: seq<Insight>)
    ensures r == Insights(corpusSize, rates, issues, p)
  {
    var insights := Present(VersionInsight(rates)) + Present(IssueInsight(issues));
    var methodInsight: Option<Insight> := None;
    if p.byMethod != [] {
      var methodIssues: seq<InsightData> := [];
      for i := 0 to |p.byMethod|
        invariant methodIssues == MethodIssues(p.byMethod[..i])
      {
        assert p.byMethod[..i + 1][..i] == p.byMethod[..i];
        var counts := p.byMethod[i].1;
        var total := Size(counts);
        if total > 0 && RejectedRate(counts) > 50.0 {
          methodIssues := methodIssues + [MethodRejections(p.byMethod[i].0, RejectedRate(counts), total)];
        }
      }
      assert p.byMethod[..|p.byMethod|] == p.byMethod;
      if methodIssues != [] {
        methodInsight := Some(Insight(Medium, MethodPatternCategory, methodIssues[Sorting.FirstMax(methodIssues, RejectedRateOf)]));
      }
    }
    insights := insights + Present(methodInsight) + Present(TextInsight(corpusSize, p.textYes)) + Present(ApprovalInsight(p.byStatus));
    r := ByPriority(insights);
  }

  // ---------------------------------------------------------------------------
  // analyze_feedback
  // ---------------------------------------------------------------------------

  /** The result dict; `patterns` is None for the `{}` returned on an empty corpus. */
  datatype Analysis = Analysis(
    successRates: seq<(string, VersionStats)>,
    commonIssues: seq<CommonIssue>,
    patterns: Option<Patterns>,
    insights: seq<Insight>,
    summary: Value,
    totalAnalyzed: nat)

  /** The summary reported for an empty corpus. */
  const EmptySummary: Value := Dict([("total", Int(0)), ("by_status", EmptyDict)])

  /**
   * `analyze_feedback` on a loaded corpus (at most `limit` entries, chosen by storage) and
   * the storage's summary statistics; None where Python raises.
   */
  function Analyze(corpus: seq<Value>, stats: Value, lookup: CaseLookup, decode: Decoder): (r: Option<Analysis>)
    ensures corpus == [] ==> r == Some(Analysis([], [], None, [], EmptySummary, 0))
    ensures corpus != [] ==> (r.Some? <==>
      Labelled(corpus, lookup, decode).Some? && CommonIssues(corpus).Some? && PatternsOf(corpus, decode).Some?)
    ensures r.Some? && corpus != [] ==>
      r.value.totalAnalyzed == |corpus| && r.value.summary == stats && r.value.patterns.Some?
  {
    if corpus == [] then Some(Analysis([], [], None, [], EmptySummary, 0))
    else
      match Labelled(corpus, lookup, decode)
      case None => None
      case Some(labelled) =>
        match CommonIssues(corpus)
        case None => None
        case Some(issues) =>
          match PatternsOf(corpus, decode)
          case None => None
          case Some(p) =>
            var rates := Rates(Group(labelled));
            Some(Analysis(rates, issues, Some(p), Insights(|corpus|, rates, issues, p), stats, |corpus|))
  }

  /** `analyze_feedback`, calling each analysis in turn. */
  method AnalyzeFeedback(corpus: seq<Value>, stats: Value, lookup: CaseLookup, decode: Decoder) returns (r: Option<Analysis>)
    ensures r == Analyze(corpus, stats, lookup, decode)
  {
    if corpus == [] {
      return Some(Analysis([], [], None, [], EmptySummary, 0));
    }
    var rates := CalculateSuccessRates(corpus, lookup, decode);
    var issues := IdentifyCommonIssues(corpus);
    var patterns := ExtractPatterns(corpus, decode);
    if rates.None? || issues.None? || patterns.None? {
      return None;
    }
    var insights := ExtractActionableInsights(|corpus|, rates.value, issues.value, patterns.value);
    return Some(Analysis(rates.value, issues.value, patterns, insights, stats, |corpus|));
  }
}
