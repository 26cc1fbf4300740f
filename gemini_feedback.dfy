/**
 * process-gemini-feedback.js: a code-review comment is normalised, given a
 * category, a priority and a suggested agent, turned into recommendations
 * and actions, and logged.
 */
module GeminiFeedback {
  import opened Wrappers
  import opened Seqs
  import opened JsString

  // ---------------------------------------------------------------------------------------------
  // The rule tables

  datatype Priority = Critical | High | Medium | Low
  {
    function Name(): string
    {
      match this
      case Critical => "critical"
      case High => "high"
      case Medium => "medium"
      case Low => "low"
    }

    /** The keywords of `PRIORITY_RULES`; only the critical and high lists are ever consulted. */
    function Keywords(): seq<string>
    {
      match this
      case Critical => ["security", "vulnerability", "exploit", "injection", "xss", "csrf"]
      case High => ["performance", "memory leak", "deadlock", "architecture", "breaking"]
      case Medium => ["refactor", "improve", "optimize", "test", "coverage"]
      case Low => ["style", "format", "comment", "documentation", "typo"]
    }

    predicate AutoCreateIssue() { this != Low }
    predicate AutoTriggerAgent() { this == Critical || this == High }
    predicate EscalateImmediately() { this == Critical }
  }

  /** `PRIORITY_RULES[name]`: a rule exists for the four level names only. */
  function PriorityNamed(name: string): (r: Option<Priority>)
    ensures r.Some? ==> r.value.Name() == name
    ensures forall p: Priority :: p.Name() == name ==> r == Some(p)
  {
    if name == "critical" then Some(Critical)
    else if name == "high" then Some(High)
    else if name == "medium" then Some(Medium)
    else if name == "low" then Some(Low)
    else None
  }

  datatype Category =
    | SecurityVulnerability | PerformanceCritical | ArchitectureConcern | CodeQuality | Documentation | Testing
    | BestPractices
  {
    function Name(): string
    {
      match this
      case SecurityVulnerability => "security-vulnerability"
      case PerformanceCritical => "performance-critical"
      case ArchitectureConcern => "architecture-concern"
      case CodeQuality => "code-quality"
      case Documentation => "documentation"
      case Testing => "testing"
      case BestPractices => "best-practices"
    }

    /** The columns of `FEEDBACK_CATEGORIES`. */
    function DefaultPriority(): Priority
    {
      match this
      case SecurityVulnerability => Critical
      case PerformanceCritical => High
      case ArchitectureConcern => High
      case CodeQuality => Medium
      case Documentation => Low
      case Testing => Medium
      case BestPractices => Low
    }

    predicate AutoCreateIssue() { this != BestPractices }
    predicate AutoTriggerAgent() { this == SecurityVulnerability || this == PerformanceCritical }

    function SuggestedAgents(): seq<string>
    {
      match this
      case SecurityVulnerability => ["devops", "vibe-coder"]
      case PerformanceCritical => ["vibe-coder", "react-dev"]
      case ArchitectureConcern => ["vibe-coder", "devops"]
      case Documentation => ["docs-orchestrator"]
      case _ => ["vibe-coder"]
    }
  }

  /** `FEEDBACK_CATEGORIES[name]` */
  function CategoryNamed(name: string): (r: Option<Category>)
    ensures r.Some? ==> r.value.Name() == name
    ensures forall c: Category :: c.Name() == name ==> r == Some(c)
  {
    if name == "security-vulnerability" then Some(SecurityVulnerability)
    else if name == "performance-critical" then Some(PerformanceCritical)
    else if name == "architecture-concern" then Some(ArchitectureConcern)
    else if name == "code-quality" then Some(CodeQuality)
    else if name == "documentation" then Some(Documentation)
    else if name == "testing" then Some(Testing)
    else if name == "best-practices" then Some(BestPractices)
    else None
  }

  // ---------------------------------------------------------------------------------------------
  // Category and priority

  /** `words.some(w => content.includes(w))` */
  predicate AnyIncluded(content: string, words: seq<string>)
  {
    exists i | 0 <= i < |words| :: Includes(content, words[i])
  }

  /** `` `${title || ''} ${description || ''}`.toLowerCase() `` */
  function Content(title: Option<string>, description: Option<string>): string
  {
    ToLower(title.GetOr("") + " " + description.GetOr(""))
  }

  /** `categorizeFeedback` on the lower-cased content. */
  function Categorize(content: string): Category
  {
    if AnyIncluded(content, Critical.Keywords()) then SecurityVulnerability
    else if Includes(content, "performance") || Includes(content, "slow") || Includes(content, "memory") then
      PerformanceCritical
    else if Includes(content, "architecture") || Includes(content, "design pattern") || Includes(content, "coupling")
    then ArchitectureConcern
    else if Includes(content, "test") || Includes(content, "coverage") || Includes(content, "mock") then Testing
    else if Includes(content, "document") || Includes(content, "comment") || Includes(content, "readme") then
      Documentation
    else CodeQuality
  }

  /** The words of each check of `categorizeFeedback` after the critical one, in order. */
  const PerformanceWords: seq<string> := ["performance", "slow", "memory"]
  const ArchitectureWords: seq<string> := ["architecture", "design pattern", "coupling"]
  const TestingWords: seq<string> := ["test", "coverage", "mock"]
  const DocumentationWords: seq<string> := ["document", "comment", "readme"]

  /** Some word of the critical group or of the first `k` later groups is present. */
  predicate EarlierGroup(content: string, k: nat)
  {
    AnyIncluded(content, Critical.Keywords())
    || (k > 0 && AnyIncluded(content, PerformanceWords))
    || (k > 1 && AnyIncluded(content, ArchitectureWords))
    || (k > 2 && AnyIncluded(content, TestingWords))
    || (k > 3 && AnyIncluded(content, DocumentationWords))
  }

  /**
   * The checks run in order, so the first group of words present decides:
   * each category is chosen exactly when its own group is present and no
   * earlier one is, code quality exactly when no group is present, and best
   * practices is a category no feedback is ever put in.
   */
  lemma CategorizeOrder(content: string)
    ensures var c := Categorize(content);
      (c == SecurityVulnerability <==> AnyIncluded(content, Critical.Keywords()))
      && (c == PerformanceCritical <==> !EarlierGroup(content, 0) && AnyIncluded(content, PerformanceWords))
      && (c == ArchitectureConcern <==> !EarlierGroup(content, 1) && AnyIncluded(content, ArchitectureWords))
      && (c == Testing <==> !EarlierGroup(content, 2) && AnyIncluded(content, TestingWords))
      && (c == Documentation <==> !EarlierGroup(content, 3) && AnyIncluded(content, DocumentationWords))
      && (c == CodeQuality <==> !EarlierGroup(content, 4))
      && c != BestPractices
  {
    AnyOfThree(content, PerformanceWords);
    AnyOfThree(content, ArchitectureWords);
    AnyOfThree(content, TestingWords);
    AnyOfThree(content, DocumentationWords);
  }

  /** Some of three words is present exactly when the first, the second or the third is. */
  lemma AnyOfThree(content: string, words: seq<string>)
    requires |words| == 3
    ensures AnyIncluded(content, words)
      <==> Includes(content, words[0]) || Includes(content, words[1]) || Includes(content, words[2])
  {
    if Includes(content, words[0]) || Includes(content, words[1]) || Includes(content, words[2]) {
      var i := if Includes(content, words[0]) then 0 else if Includes(content, words[1]) then 1 else 2;
      assert Includes(content, words[i]);
    }
  }

  /** `determinePriority`: critical words, then high words, then the category's default, then medium. */
  function DeterminePriority(content: string, category: string): Priority
  {
    if AnyIncluded(content, Critical.Keywords()) then Critical
    else if AnyIncluded(content, High.Keywords()) then High
    else if CategoryNamed(category).Some? then CategoryNamed(category).value.DefaultPriority()
    else Medium
  }

  /**
   * On the same content, the priority is critical exactly when the category
   * is a security vulnerability: both test the same keywords first, and the
   * only category whose default is critical is that one.
   */
  lemma CriticalIffSecurity(content: string)
    ensures DeterminePriority(content, Categorize(content).Name()) == Critical
            <==> Categorize(content) == SecurityVulnerability
  {
    var c := Categorize(content);
    assert CategoryNamed(c.Name()) == Some(c);
  }

  // ---------------------------------------------------------------------------------------------
  // Suggested agent

  /** The regular expressions of `AGENT_ASSIGNMENT_RULES`: anchored suffixes and plain substrings. */
  datatype PathPattern = Suffix(suffix: string) | Contains(part: string) | ContainsAnyCase(lowerPart: string)
  {
    predicate Matches(path: string)
    {
      match this
      case Suffix(suffix) => EndsWith(path, suffix)
      case Contains(part) => Includes(path, part)
      case ContainsAnyCase(lowerPart) => Includes(ToLower(path), lowerPart)
    }
  }

  datatype AssignmentRule = AssignmentRule(kind: string, patterns: seq<PathPattern>, agents: seq<string>)

  const FrontendPatterns: seq<PathPattern> :=
    [Suffix(".ts"), Suffix(".tsx"), Suffix(".js"), Suffix(".jsx"), Suffix(".vue"), Suffix(".svelte"),
     Contains("components/"), Contains("pages/"), Contains("views/")]
  const BackendPatterns: seq<PathPattern> :=
    [Suffix(".php"), Contains("controllers/"), Contains("models/"), Contains("services/"), Contains("api/")]
  const InfrastructurePatterns: seq<PathPattern> :=
    [ContainsAnyCase("docker"), Suffix(".yml"), Suffix(".yaml"), Contains("terraform"), Contains("kubernetes"),
     Contains("deployment")]
  const DocumentationPatterns: seq<PathPattern> :=
    [Suffix(".md"), ContainsAnyCase("readme"), Contains("docs/"), Contains("documentation/")]

  /** The rules in the order `Object.entries` visits them; `\.tsx?$` is the two suffixes `.ts` and `.tsx`. */
  const AssignmentRules: seq<AssignmentRule> := [
    AssignmentRule("frontend", FrontendPatterns, ["react-dev", "svelte-dev", "node-dev"]),
    AssignmentRule("backend", BackendPatterns, ["laravel-dev", "node-dev"]),
    AssignmentRule("infrastructure", InfrastructurePatterns, ["devops"]),
    AssignmentRule("documentation", DocumentationPatterns, ["docs-orchestrator", "vibe-coder"]),
    AssignmentRule("general", [], ["vibe-coder"])
  ]

  /** `config.patterns.some(p => p.test(path))` */
  predicate RuleMatches(rule: AssignmentRule, path: string)
  {
    exists j | 0 <= j < |rule.patterns| :: rule.patterns[j].Matches(path)
  }

  /** The index of the first rule from `from` on that matches, or `|rules|`. */
  function FirstRule(rules: seq<AssignmentRule>, path: string, from: nat): (r: nat)
    requires from <= |rules|
    ensures from <= r <= |rules|
    ensures r < |rules| ==> RuleMatches(rules[r], path)
    ensures forall k | from <= k < r :: !RuleMatches(rules[k], path)
    decreases |rules| - from
  {
    if from == |rules| then from
    else if RuleMatches(rules[from], path) then from
    else FirstRule(rules, path, from + 1)
  }

  /** `suggestAgent`: the primary agent of the first rule that matches the path, or `vibe-coder`. */
  function SuggestAgentIn(rules: seq<AssignmentRule>, path: string): (r: string)
    requires forall k | 0 <= k < |rules| :: |rules[k].agents| > 0
    ensures r == "vibe-coder" || exists k | 0 <= k < |rules| :: RuleMatches(rules[k], path) && r == rules[k].agents[0]
  {
    var k := FirstRule(rules, path, 0);
    if k < |rules| then rules[k].agents[0] else "vibe-coder"
  }

  function SuggestAgent(filePath: Option<string>): string
  {
    SuggestAgentIn(AssignmentRules, filePath.GetOr(""))
  }

  /**
   * The rules are tried in turn: a path that matches an earlier rule never
   * reaches a later one, and a path that matches none gets `vibe-coder`.
   */
  lemma SuggestAgentFirstMatch(rules: seq<AssignmentRule>, path: string, k: nat)
    requires forall m | 0 <= m < |rules| :: |rules[m].agents| > 0
    requires k < |rules| && RuleMatches(rules[k], path)
    requires forall m | 0 <= m < k :: !RuleMatches(rules[m], path)
    ensures SuggestAgentIn(rules, path) == rules[k].agents[0]
  {
  }

  const DocsApiPath := "docs/api/users.md"

  /** A suffix whose last character differs from the string's is not a suffix of it. */
  lemma NotEndsWithLast(s: string, p: string)
    requires |s| > 0 && |p| > 0 && s[|s| - 1] != p[|p| - 1]
    ensures !EndsWith(s, p)
  {
    if |p| <= |s| {
      assert s[|s| - |p|..][|p| - 1] == s[|s| - 1];
    }
  }

  /** The six frontend suffixes all end in a letter other than `d`. */
  lemma DocsApiPathMissesFrontendSuffix(j: nat)
    requires j < 6
    ensures !FrontendPatterns[j].Matches(DocsApiPath)
  {
    var suffix := FrontendPatterns[j].suffix;
    assert suffix[|suffix| - 1] != 'd';
    NotEndsWithLast(DocsApiPath, suffix);
  }

  /** Each frontend directory name has a character the path lacks: `n`, `g` and `v`. */
  lemma DocsApiPathLacksFrontendParts()
    ensures !Includes(DocsApiPath, "components/")
    ensures !Includes(DocsApiPath, "pages/")
    ensures !Includes(DocsApiPath, "views/")
  {
    NotIncludesChar(DocsApiPath, "components/", 5);
    NotIncludesChar(DocsApiPath, "pages/", 2);
    NotIncludesChar(DocsApiPath, "views/", 0);
  }

  /** One frontend pattern at a time against `docs/api/users.md`. */
  lemma DocsApiPathMissesFrontendPattern(j: nat)
    requires j < |FrontendPatterns|
    ensures !FrontendPatterns[j].Matches(DocsApiPath)
  {
    if j < 6 {
      DocsApiPathMissesFrontendSuffix(j);
    } else {
      DocsApiPathLacksFrontendParts();
      assert FrontendPatterns[6..] == [Contains("components/"), Contains("pages/"), Contains("views/")];
    }
  }

  /** None of the frontend patterns matches `docs/api/users.md`. */
  lemma DocsApiPathNotFrontend()
    ensures !RuleMatches(AssignmentRules[0], DocsApiPath)
  {
    forall j | 0 <= j < |FrontendPatterns| ensures !FrontendPatterns[j].Matches(DocsApiPath) {
      DocsApiPathMissesFrontendPattern(j);
    }
  }

  /** `api/` in `docs/api/users.md` is a backend pattern. */
  lemma DocsApiPathBackend()
    ensures RuleMatches(AssignmentRules[1], DocsApiPath)
  {
    assert OccursAt(DocsApiPath, "api/", 5);
    assert BackendPatterns[4].Matches(DocsApiPath);
  }

  /** A path that no frontend pattern matches and some backend pattern does goes to `laravel-dev`. */
  lemma BackendPathSuggestion(path: string)
    requires !RuleMatches(AssignmentRules[0], path) && RuleMatches(AssignmentRules[1], path)
    ensures SuggestAgent(Some(path)) == "laravel-dev"
  {
    SuggestAgentFirstMatch(AssignmentRules, path, 1);
  }

  /** `docs/api/users.md` is backend work: `api/` is tried before the `.md` suffix. */
  lemma DocsApiPathIsBackend()
    ensures SuggestAgent(Some(DocsApiPath)) == "laravel-dev"
  {
    DocsApiPathNotFrontend();
    DocsApiPathBackend();
    BackendPathSuggestion(DocsApiPath);
  }

  // ---------------------------------------------------------------------------------------------
  // Recommendations

  /** The characters `.` does not match in a regular expression. */
  predicate LineTerminator(c: char)
  {
    c == '\n' || c == '\r' || c == '\U{2028}' || c == '\U{2029}'
  }

  /** The end of the line that starts at `i`. */
  function LineEnd(s: string, i: nat): (r: nat)
    requires i <= |s|
    ensures i <= r <= |s|
    ensures forall k | i <= k < r :: !LineTerminator(s[k])
    ensures r < |s| ==> LineTerminator(s[r])
    decreases |s| - i
  {
    if i == |s| || LineTerminator(s[i]) then i else LineEnd(s, i + 1)
  }

  /**
   * `description.match(/- (.*)/g)` with the leading `- ` removed from each
   * match: from each `- `, the rest of its line, scanning on after it.
   */
  function ActionItems(s: string, from: nat): (r: seq<string>)
    requires from <= |s|
    ensures forall m | 0 <= m < |r| :: forall k | 0 <= k < |r[m]| :: !LineTerminator(r[m][k])
    ensures r == [] <==> IndexFrom(s, "- ", from) == -1
    decreases |s| - from
  {
    var k := IndexFrom(s, "- ", from);
    if k == -1 then []
    else
      var e := LineEnd(s, k + 2);
      [s[k + 2..e]] + ActionItems(s, e)
  }

  const DefaultRecommendation := "Review and address the identified issue"

  /** What `extractRecommendations` collects before falling back to the default. */
  function Collected(suggestions: Option<seq<string>>, fixSuggestions: Option<seq<string>>,
                     description: Option<string>): seq<string>
  {
    suggestions.GetOr([]) + fixSuggestions.GetOr([])
    + (if description.Some? && description.value != "" then ActionItems(description.value, 0) else [])
  }

  /** `extractRecommendations` */
  function ExtractRecommendations(suggestions: Option<seq<string>>, fixSuggestions: Option<seq<string>>,
                                  description: Option<string>): (r: seq<string>)
    ensures |r| > 0
  {
    var collected := Collected(suggestions, fixSuggestions, description);
    if |collected| > 0 then collected else [DefaultRecommendation]
  }

  /**
   * The list is never empty: it holds the suggestions and the fix
   * suggestions first, then the description's action items, and the default
   * when there are none of those.
   */
  lemma RecommendationsOrigin(suggestions: Option<seq<string>>, fixSuggestions: Option<seq<string>>,
                              description: Option<string>)
    ensures var r := ExtractRecommendations(suggestions, fixSuggestions, description);
      var given := suggestions.GetOr([]) + fixSuggestions.GetOr([]);
      var itemized := description.Some? && description.value != "" && IndexFrom(description.value, "- ", 0) != -1;
      (|given| <= |r| ==> r[..|given|] == given)
      && (itemized ==> |r| > |given| && r[|given|..] == ActionItems(description.value, 0))
      && (given == [] && !itemized ==> r == [DefaultRecommendation])
      && (given != [] || itemized ==> r == Collected(suggestions, fixSuggestions, description))
  {
    var given := suggestions.GetOr([]) + fixSuggestions.GetOr([]);
    var collected := Collected(suggestions, fixSuggestions, description);
    var itemized := description.Some? && description.value != "" && IndexFrom(description.value, "- ", 0) != -1;
    if itemized {
      var items := ActionItems(description.value, 0);
      assert collected == given + items && |items| > 0;
      assert collected[|given|..] == items;
    }
    assert given != [] || itemized ==> |collected| > 0;
    if given != [] {
      assert collected[..|given|] == given;
    }
  }

  // ---------------------------------------------------------------------------------------------
  // Normalisation

  /** The payload as parsed; `None` is an absent or null field. */
  datatype RawFeedback = RawFeedback(
    repository: Option<string>, branch: Option<string>, pullRequest: Option<string>, commitSha: Option<string>,
    title: Option<string>, summary: Option<string>, description: Option<string>, details: Option<string>,
    filePath: Option<string>, file: Option<string>, lineNumbers: Option<seq<int>>, lines: Option<seq<int>>,
    suggestions: Option<seq<string>>, fixSuggestions: Option<seq<string>>)

  datatype ProcessedFeedback = ProcessedFeedback(
    feedbackId: string, timestamp: string, repository: string, branch: string, pullRequest: Option<string>,
    commitSha: Option<string>, title: string, summary: string, details: string, filePath: Option<string>,
    lineNumbers: Option<seq<int>>, category: Category, priority: Priority, suggestedAgent: string,
    recommendations: seq<string>)

  /** `a || b` for optional strings: the empty string is falsy. */
  function OrText(a: Option<string>, b: Option<string>): Option<string>
  {
    if a.Some? && a.value != "" then a else if b.Some? && b.value != "" then b else None
  }

  /** `a || b` for optional arrays, which are truthy even when empty. */
  function OrList<T>(a: Option<T>, b: Option<T>): Option<T>
  {
    if a.Some? then a else b
  }

  /**
   * `processGeminiFeedback` with the id and timestamp given: the record is
   * normalised first and then classified, and the normalised record has no
   * description, so the category and priority come from the title alone.
   */
  function ProcessFeedback(raw: RawFeedback, feedbackId: string, timestamp: string): ProcessedFeedback
  {
    var title := OrText(raw.title, None).GetOr("Gemini Code Review Feedback");
    var descriptionStart := if raw.description.Some? then Some(Slice(raw.description.value, 0, 200)) else None;
    var filePath := OrText(raw.filePath, raw.file);
    var content := Content(Some(title), None);
    var category := Categorize(content);
    ProcessedFeedback(
      feedbackId, timestamp,
      OrText(raw.repository, None).GetOr("tuvens/unknown"),
      OrText(raw.branch, None).GetOr("main"),
      OrText(raw.pullRequest, None),
      OrText(raw.commitSha, None),
      title,
      OrText(raw.summary, descriptionStart).GetOr("No summary provided"),
      OrText(raw.description, raw.details).GetOr("No details provided"),
      filePath,
      OrList(raw.lineNumbers, raw.lines),
      category,
      DeterminePriority(content, category.Name()),
      SuggestAgent(filePath),
      ExtractRecommendations(raw.suggestions, raw.fixSuggestions, raw.description))
  }

  /**
   * Two payloads with the same title get the same category and priority,
   * whatever their descriptions say; the recommendations still come from
   * the raw payload, so they are never empty.
   */
  lemma ClassifiedByTitleOnly(a: RawFeedback, b: RawFeedback, id: string, time: string)
    requires a.title == b.title
    ensures ProcessFeedback(a, id, time).category == ProcessFeedback(b, id, time).category
    ensures ProcessFeedback(a, id, time).priority == ProcessFeedback(b, id, time).priority
    ensures |ProcessFeedback(a, id, time).recommendations| > 0
    ensures ProcessFeedback(a, id, time).priority == Critical
            <==> ProcessFeedback(a, id, time).category == SecurityVulnerability
  {
    var p := ProcessFeedback(a, id, time);
    CriticalIffSecurity(Content(Some(p.title), None));
  }

  // ---------------------------------------------------------------------------------------------
  // Actions

  datatype Actions = Actions(createIssue: bool, triggerAgent: bool, escalateImmediately: bool)

  /** `determineActions` on the category and priority names of a record. */
  function DetermineActions(category: string, priority: string): Actions
  {
    var c := CategoryNamed(category);
    var p := PriorityNamed(priority);
    Actions((c.Some? && c.value.AutoCreateIssue()) || (p.Some? && p.value.AutoCreateIssue()),
            (c.Some? && c.value.AutoTriggerAgent()) || (p.Some? && p.value.AutoTriggerAgent()),
            p.Some? && p.value.EscalateImmediately())
  }

  /**
   * For a processed record: an issue is always created, since the one
   * category that does not create one is never assigned; an agent is
   * triggered exactly for the security and performance categories or a
   * critical or high priority; and escalation happens exactly for security
   * vulnerabilities.
   */
  lemma ProcessedActions(raw: RawFeedback, id: string, time: string)
    ensures var p := ProcessFeedback(raw, id, time);
      var a := DetermineActions(p.category.Name(), p.priority.Name());
      a.createIssue
      && (a.triggerAgent <==> p.category in {SecurityVulnerability, PerformanceCritical} || p.priority in {Critical, High})
      && (a.escalateImmediately <==> p.category == SecurityVulnerability)
  {
    var p := ProcessFeedback(raw, id, time);
    CategorizeOrder(Content(Some(p.title), None));
    CriticalIffSecurity(Content(Some(p.title), None));
    assert CategoryNamed(p.category.Name()) == Some(p.category);
    assert PriorityNamed(p.priority.Name()) == Some(p.priority);
  }

  // ---------------------------------------------------------------------------------------------
  // The log

  datatype LogEntry = LogEntry(feedback: ProcessedFeedback, actionsTaken: Actions, loggedAt: string)

  const HistoryLimit := 100

  /** What `gemini-feedback.json` holds; a missing history is empty and a missing counter is 0. */
  class FeedbackLog {
    var history: seq<LogEntry>
    var lastUpdated: string
    var totalProcessed: int

    constructor()
      ensures history == [] && totalProcessed == 0
    {
      history, lastUpdated, totalProcessed := [], "", 0;
    }

    /**
     * `logFeedback` with the clock reading given. The script reads the
     * clock twice, once for the entry's `loggedAt` and once for
     * `lastUpdated`; one reading `now` stands for both.  `saveJSON` only
     * logs a failed write, so with `saveOk` false the file keeps its contents.
     */
    method LogFeedback(feedback: ProcessedFeedback, actions: Actions, now: string, saveOk: bool)
      modifies this
      ensures saveOk ==> history == PushFrontCapped(old(history), LogEntry(feedback, actions, now), HistoryLimit)
      ensures saveOk ==> totalProcessed == old(totalProcessed) + 1 && lastUpdated == now
      ensures !saveOk ==> unchanged(this)
    {
      if !saveOk {
        return;
      }
      var updated := [LogEntry(feedback, actions, now)] + history;
      if |updated| > HistoryLimit {
        updated := updated[..HistoryLimit];
      }
      history := updated;
      lastUpdated := now;
      totalProcessed := totalProcessed + 1;
    }
  }
}
