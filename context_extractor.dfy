/**
 * pattern-recognition/context-extractor.js: derives a task context from the
 * recent conversation when a request names no task. The regular expressions
 * that find tasks, entities and references are parameters; the message
 * window, the priority score, the task confidence and ranking, the entity
 * classification, the title and the combined context are modelled.
 */
module ContextExtractor {
  import opened Wrappers
  import opened Seqs
  import opened JsString

  /** A conversation message; `content` is `None` when the message has none. */
  datatype Message = Message(role: string, content: Option<string>)

  /** A message as `prepareMessages` hands it on, with its content defaulted. */
  datatype Prepared = Prepared(role: string, content: string)

  datatype Options = Options(lookbackLimit: int, includeUserMessages: bool, includeAssistantMessages: bool)

  /** The defaults of `extractContext`. */
  const DefaultOptions := Options(10, true, false)

  /** The role filter of `prepareMessages`. */
  predicate Kept(options: Options, role: string)
  {
    (options.includeUserMessages && role == "user") || (options.includeAssistantMessages && role == "assistant")
  }

  function PrepareOne(m: Message): Prepared
  {
    Prepared(m.role, m.content.GetOr(""))
  }

  /** `messages.slice(-lookbackLimit)` */
  function Window(messages: seq<Message>, limit: int): seq<Message>
  {
    SliceFrom(messages, -limit)
  }

  /**
   * A positive limit keeps the last `limit` messages; a limit of 0 keeps
   * them all, since `slice(-0)` is `slice(0)`; a negative limit drops the
   * first `-limit` messages.
   */
  lemma {:induction false} WindowIsSuffix(messages: seq<Message>, limit: int)
    ensures limit > 0 ==> Window(messages, limit) == if limit <= |messages| then messages[|messages| - limit..] else messages
    ensures limit == 0 ==> Window(messages, limit) == messages
    ensures limit < 0 ==> Window(messages, limit) == if -limit <= |messages| then messages[-limit..] else []
  {
    if limit > 0 {
      SliceFromNegative(messages, limit);
    }
  }

  /** The kept messages of the window, in conversation order, with their content defaulted. */
  function KeepPrepared(window: seq<Message>, options: Options): (r: seq<Prepared>)
    ensures |r| <= |window|
    ensures forall i | 0 <= i < |r| :: Kept(options, r[i].role)
    ensures r == [] <==> forall i | 0 <= i < |window| :: !Kept(options, window[i].role)
  {
    if window == [] then []
    else
      var init, last := window[..|window| - 1], window[|window| - 1];
      var r := KeepPrepared(init, options) + (if Kept(options, last.role) then [PrepareOne(last)] else []);
      assert forall i | 0 <= i < |init| :: init[i] == window[i];
      r
  }

  /** `prepareMessages`: the window, filtered by role, most recent first. */
  function PrepareMessages(messages: seq<Message>, options: Options): seq<Prepared>
  {
    Reverse(KeepPrepared(Window(messages, options.lookbackLimit), options))
  }

  /**
   * Every prepared message has a kept role; nothing is prepared exactly when
   * no message of the window has one; and when the newest message of the
   * window is kept it comes first.
   */
  lemma PreparedMostRecentFirst(messages: seq<Message>, options: Options)
    ensures var window, r := Window(messages, options.lookbackLimit), PrepareMessages(messages, options);
      (forall i | 0 <= i < |r| :: Kept(options, r[i].role))
      && (r == [] <==> forall i | 0 <= i < |window| :: !Kept(options, window[i].role))
      && (window != [] && Kept(options, window[|window| - 1].role) ==> r[0] == PrepareOne(window[|window| - 1]))
  {
  }

  // ---------------------------------------------------------------------------------------------
  // Priority

  datatype Level = Urgent | High | Medium | Low
  {
    /** What each hit of an indicator of this level adds to the score. */
    function Weight(): nat
    {
      match this
      case Urgent => 4
      case High => 3
      case Medium => 2
      case Low => 1
    }

    function Name(): string
    {
      match this
      case Urgent => "urgent"
      case High => "high"
      case Medium => "medium"
      case Low => "low"
    }
  }

  /** The priority indicators, level by level, each with its level. */
  const PriorityIndicators: seq<(Level, string)> := [
    (Urgent, "urgent"), (Urgent, "asap"), (Urgent, "immediately"), (Urgent, "critical"), (Urgent, "emergency"),
    (High, "important"), (High, "priority"), (High, "needed"), (High, "required"),
    (Medium, "should"), (Medium, "would be good"), (Medium, "nice to have"),
    (Low, "eventually"), (Low, "when possible"), (Low, "later")
  ]

  /** The weights of the indicators the (lower-cased) content includes. */
  function IndicatorScore(content: string, indicators: seq<(Level, string)>): nat
  {
    if indicators == [] then 0
    else
      var last := indicators[|indicators| - 1];
      IndicatorScore(content, indicators[..|indicators| - 1]) + (if Includes(content, last.1) then last.0.Weight() else 0)
  }

  /** The score `determinePriority` accumulates over all messages. */
  function PriorityScore(messages: seq<Prepared>): nat
  {
    if messages == [] then 0
    else
      PriorityScore(messages[..|messages| - 1])
      + IndicatorScore(ToLower(messages[|messages| - 1].content), PriorityIndicators)
  }

  /** The level a score maps to. */
  function LevelOf(score: nat): Level
  {
    if score >= 4 then Urgent else if score >= 3 then High else if score >= 2 then Medium else Low
  }

  datatype Priority = Priority(level: Level, score: nat)

  /** `determinePriority`: the nested loops over messages and indicators. */
  method DeterminePriority(messages: seq<Prepared>) returns (p: Priority)
    ensures p.score == PriorityScore(messages) && p.level == LevelOf(p.score)
  {
    var score := 0;
    var i := 0;
    while i < |messages|
      invariant 0 <= i <= |messages|
      invariant score == PriorityScore(messages[..i])
    {
      var content := ToLower(messages[i].content);
      var messageScore := 0;
      var k := 0;
      while k < |PriorityIndicators|
        invariant 0 <= k <= |PriorityIndicators|
        invariant messageScore == IndicatorScore(content, PriorityIndicators[..k])
      {
        var (level, indicator) := PriorityIndicators[k];
        assert PriorityIndicators[..k + 1][..k] == PriorityIndicators[..k];
        if Includes(content, indicator) {
          messageScore := messageScore + level.Weight();
        }
        k := k + 1;
      }
      assert PriorityIndicators[..k] == PriorityIndicators;
      assert messages[..i + 1][..i] == messages[..i];
      score := score + messageScore;
      i := i + 1;
    }
    assert messages[..i] == messages;
    var level := if score >= 4 then Urgent else if score >= 3 then High else if score >= 2 then Medium else Low;
    p := Priority(level, score);
  }

  /** An indicator score is zero exactly when the content includes none of the indicators. */
  lemma {:induction false} IndicatorScoreZero(content: string, indicators: seq<(Level, string)>)
    ensures IndicatorScore(content, indicators) == 0 <==> forall k | 0 <= k < |indicators| :: !Includes(content, indicators[k].1)
  {
    if indicators != [] {
      var init := indicators[..|indicators| - 1];
      IndicatorScoreZero(content, init);
      assert forall k | 0 <= k < |init| :: init[k] == indicators[k];
    }
  }

  /** Every indicator the content includes adds at least its weight. */
  lemma {:induction false} IndicatorScoreAtLeast(content: string, indicators: seq<(Level, string)>, k: nat)
    requires k < |indicators| && Includes(content, indicators[k].1)
    ensures IndicatorScore(content, indicators) >= indicators[k].0.Weight()
  {
    if k < |indicators| - 1 {
      IndicatorScoreAtLeast(content, indicators[..|indicators| - 1], k);
    }
  }

  /** The score is zero exactly when no message includes any indicator. */
  lemma {:induction false} PriorityScoreZero(messages: seq<Prepared>)
    ensures PriorityScore(messages) == 0 <==>
      forall i, k | 0 <= i < |messages| && 0 <= k < |PriorityIndicators| ::
        !Includes(ToLower(messages[i].content), PriorityIndicators[k].1)
  {
    if messages != [] {
      var init := messages[..|messages| - 1];
      PriorityScoreZero(init);
      IndicatorScoreZero(ToLower(messages[|messages| - 1].content), PriorityIndicators);
      assert forall i | 0 <= i < |init| :: init[i] == messages[i];
    }
  }

  /**
   * Without any indicator the level is low, not the `medium` the variable
   * starts at; one urgent indicator in any message makes it urgent.
   */
  lemma PriorityLevels(messages: seq<Prepared>)
    ensures (forall i, k | 0 <= i < |messages| && 0 <= k < |PriorityIndicators| ::
               !Includes(ToLower(messages[i].content), PriorityIndicators[k].1))
            ==> LevelOf(PriorityScore(messages)) == Low
    ensures (exists i, k | 0 <= i < |messages| && 0 <= k < |PriorityIndicators| ::
               PriorityIndicators[k].0 == Urgent && Includes(ToLower(messages[i].content), PriorityIndicators[k].1))
            ==> LevelOf(PriorityScore(messages)) == Urgent
  {
    PriorityScoreZero(messages);
    if exists i, k | 0 <= i < |messages| && 0 <= k < |PriorityIndicators| ::
         PriorityIndicators[k].0 == Urgent && Includes(ToLower(messages[i].content), PriorityIndicators[k].1)
    {
      var i, k :| 0 <= i < |messages| && 0 <= k < |PriorityIndicators|
                  && PriorityIndicators[k].0 == Urgent && Includes(ToLower(messages[i].content), PriorityIndicators[k].1);
      IndicatorScoreAtLeast(ToLower(messages[i].content), PriorityIndicators, k);
      PriorityScoreAtLeast(messages, i);
    }
  }

  /** The score of all messages is at least that of any one of them. */
  lemma {:induction false} PriorityScoreAtLeast(messages: seq<Prepared>, i: nat)
    requires i < |messages|
    ensures PriorityScore(messages) >= IndicatorScore(ToLower(messages[i].content), PriorityIndicators)
  {
    if i < |messages| - 1 {
      PriorityScoreAtLeast(messages[..|messages| - 1], i);
    }
  }

  // ---------------------------------------------------------------------------------------------
  // Task confidence

  /** The keywords that raise the confidence of a task of each category. */
  function CategoryKeywords(category: string): (r: seq<string>)
    ensures |r| <= 5
  {
    match category
    case "bugs" => ["error", "exception", "crash", "fail", "broken"]
    case "features" => ["new", "add", "implement", "create"]
    case "improvements" => ["better", "faster", "optimize", "enhance"]
    case "documentation" => ["docs", "guide", "explain", "document"]
    case "deployment" => ["deploy", "production", "live", "server"]
    case "ui" => ["interface", "design", "user", "visual"]
    case "api" => ["endpoint", "service", "backend", "data"]
    case _ => []
  }

  /** 0.05 for every keyword the lower-cased description includes. */
  function KeywordBoost(descLower: string, keywords: seq<string>): real
  {
    if keywords == [] then 0.0
    else KeywordBoost(descLower, keywords[..|keywords| - 1]) + (if Includes(descLower, keywords[|keywords| - 1]) then 0.05 else 0.0)
  }

  /** The confidence before the cap: the base, the length bonuses and the keyword boost. */
  function RawConfidence(description: string, category: string): real
  {
    0.5 + (if |description| > 20 then 0.1 else 0.0) + (if |description| > 50 then 0.1 else 0.0)
    + KeywordBoost(ToLower(description), CategoryKeywords(category))
  }

  /** `calculateTaskConfidence` */
  function TaskConfidence(description: string, category: string): real
  {
    var c := RawConfidence(description, category);
    if c < 1.0 then c else 1.0
  }

  /** The keyword boost is between 0 and 0.05 per keyword. */
  lemma {:induction false} KeywordBoostBounds(descLower: string, keywords: seq<string>)
    ensures 0.0 <= KeywordBoost(descLower, keywords) <= 0.05 * |keywords| as real
  {
    if keywords != [] {
      KeywordBoostBounds(descLower, keywords[..|keywords| - 1]);
    }
  }

  /**
   * The confidence starts at 0.5 and never exceeds 1.0; with at most five
   * keywords per category it in fact never exceeds 0.95, so the cap at 1.0
   * never takes effect.
   */
  lemma TaskConfidenceBounds(description: string, category: string)
    ensures 0.5 <= TaskConfidence(description, category) <= 0.95
    ensures TaskConfidence(description, category) == RawConfidence(description, category)
  {
    KeywordBoostBounds(ToLower(description), CategoryKeywords(category));
  }

  /** The loop of `calculateTaskConfidence`. */
  method CalculateTaskConfidence(description: string, category: string) returns (c: real)
    ensures c == TaskConfidence(description, category)
  {
    c := 0.5;
    if |description| > 20 {
      c := c + 0.1;
    }
    if |description| > 50 {
      c := c + 0.1;
    }
    var keywords := CategoryKeywords(category);
    var descLower := ToLower(description);
    var base := c;
    var k := 0;
    while k < |keywords|
      invariant 0 <= k <= |keywords|
      invariant c == base + KeywordBoost(descLower, keywords[..k])
    {
      assert keywords[..k + 1][..k] == keywords[..k];
      if Includes(descLower, keywords[k]) {
        c := c + 0.05;
      }
      k := k + 1;
    }
    assert keywords[..k] == keywords;
    if c > 1.0 {
      c := 1.0;
    }
  }

  // ---------------------------------------------------------------------------------------------
  // Tasks

  /** One task regular expression: its category and what its first group captures in a text. */
  datatype TaskPattern = TaskPattern(category: string, capture: string -> Option<string>)

  datatype TaskMatch = TaskMatch(category: string, description: string, confidence: real, messageIndex: nat)

  /** The matches one message gives, pattern by pattern; an empty group is skipped. */
  function MessageMatches(content: string, index: nat, patterns: seq<TaskPattern>): seq<TaskMatch>
  {
    if patterns == [] then []
    else
      var p := patterns[|patterns| - 1];
      var group := p.capture(content);
      MessageMatches(content, index, patterns[..|patterns| - 1])
      + (if group.Some? && group.value != "" then
           [TaskMatch(p.category, Trim(group.value), TaskConfidence(group.value, p.category), index)]
         else [])
  }

  /** All matches, message by message. */
  function TaskMatches(messages: seq<Prepared>, patterns: seq<TaskPattern>): seq<TaskMatch>
  {
    if messages == [] then []
    else TaskMatches(messages[..|messages| - 1], patterns)
         + MessageMatches(messages[|messages| - 1].content, |messages| - 1, patterns)
  }

  function Abs(x: real): real
  {
    if x < 0.0 then -x else x
  }

  /** The comparator of `extractTaskInformation`: negative when `a` goes before `b`. */
  function Compare(a: TaskMatch, b: TaskMatch): real
  {
    if Abs(a.confidence - b.confidence) < 0.1 then (a.messageIndex - b.messageIndex) as real
    else b.confidence - a.confidence
  }

  /** One insertion step: `x` goes before the first element that the comparator puts after it. */
  function InsertTask(sorted: seq<TaskMatch>, x: TaskMatch): (r: seq<TaskMatch>)
    ensures multiset(r) == multiset(sorted) + multiset{x}
  {
    if sorted == [] then [x]
    else if Compare(sorted[0], x) > 0.0 then [x] + sorted
    else
      assert sorted == [sorted[0]] + sorted[1..];
      [sorted[0]] + InsertTask(sorted[1..], x)
  }

  /** The matches ordered by the comparator, inserting them one by one. */
  function SortTasks(matches: seq<TaskMatch>): (r: seq<TaskMatch>)
    ensures multiset(r) == multiset(matches)
  {
    if matches == [] then []
    else
      assert matches == matches[..|matches| - 1] + [matches[|matches| - 1]];
      InsertTask(SortTasks(matches[..|matches| - 1]), matches[|matches| - 1])
  }

  /** The top three after sorting. */
  function TopTasks(matches: seq<TaskMatch>): seq<TaskMatch>
  {
    var sorted := SortTasks(matches);
    if |sorted| <= 3 then sorted else sorted[..3]
  }

  /** At most three tasks are returned, all of them matches, and fewer only when there are fewer. */
  lemma TopTasksBound(matches: seq<TaskMatch>)
    ensures |TopTasks(matches)| == if |matches| < 3 then |matches| else 3
    ensures forall t | t in TopTasks(matches) :: t in matches
  {
    var sorted := SortTasks(matches);
    assert |sorted| == |multiset(sorted)| == |matches|;
    forall t | t in TopTasks(matches) ensures t in matches {
      assert t in sorted;
      assert t in multiset(sorted);
    }
  }

  /** Every match carries its category's confidence for the untrimmed group and the trimmed group as description. */
  lemma {:induction false} MatchesFromGroups(messages: seq<Prepared>, patterns: seq<TaskPattern>, t: TaskMatch)
    requires t in TaskMatches(messages, patterns)
    ensures t.messageIndex < |messages|
    ensures exists k | 0 <= k < |patterns| ::
      var group := patterns[k].capture(messages[t.messageIndex].content);
      group.Some? && group.value != "" && t.category == patterns[k].category
      && t.description == Trim(group.value) && t.confidence == TaskConfidence(group.value, patterns[k].category)
  {
    var init := messages[..|messages| - 1];
    if t in TaskMatches(init, patterns) {
      MatchesFromGroups(init, patterns, t);
      assert init[t.messageIndex] == messages[t.messageIndex];
    } else {
      MessageMatchesFromGroups(messages[|messages| - 1].content, |messages| - 1, patterns, t);
    }
  }

  lemma {:induction false} MessageMatchesFromGroups(content: string, index: nat, patterns: seq<TaskPattern>, t: TaskMatch)
    requires t in MessageMatches(content, index, patterns)
    ensures t.messageIndex == index
    ensures exists k | 0 <= k < |patterns| ::
      var group := patterns[k].capture(content);
      group.Some? && group.value != "" && t.category == patterns[k].category
      && t.description == Trim(group.value) && t.confidence == TaskConfidence(group.value, patterns[k].category)
  {
    var init := patterns[..|patterns| - 1];
    if t in MessageMatches(content, index, init) {
      MessageMatchesFromGroups(content, index, init, t);
      var k :| 0 <= k < |init| && var group := init[k].capture(content);
        group.Some? && group.value != "" && t.category == init[k].category
        && t.description == Trim(group.value) && t.confidence == TaskConfidence(group.value, init[k].category);
      assert init[k] == patterns[k];
    } else {
      assert patterns[|patterns| - 1].capture(content).Some?;
    }
  }

  /** The matches of one message: the loop over the task patterns. */
  method MatchMessage(content: string, index: nat, patterns: seq<TaskPattern>) returns (found: seq<TaskMatch>)
    ensures found == MessageMatches(content, index, patterns)
  {
    found := [];
    var k := 0;
    while k < |patterns|
      invariant 0 <= k <= |patterns|
      invariant found == MessageMatches(content, index, patterns[..k])
    {
      assert patterns[..k + 1][..k] == patterns[..k];
      var group := patterns[k].capture(content);
      if group.Some? && group.value != "" {
        var confidence := CalculateTaskConfidence(group.value, patterns[k].category);
        found := found + [TaskMatch(patterns[k].category, Trim(group.value), confidence, index)];
      }
      k := k + 1;
    }
    assert patterns[..k] == patterns;
  }

  /** `extractTaskInformation`: collect every match, sort, keep the top three. */
  method ExtractTaskInformation(messages: seq<Prepared>, patterns: seq<TaskPattern>) returns (r: seq<TaskMatch>)
    ensures r == TopTasks(TaskMatches(messages, patterns))
  {
    var matches := [];
    var i := 0;
    while i < |messages|
      invariant 0 <= i <= |messages|
      invariant matches == TaskMatches(messages[..i], patterns)
    {
      var found := MatchMessage(messages[i].content, i, patterns);
      assert messages[..i + 1][..i] == messages[..i];
      matches := matches + found;
      i := i + 1;
    }
    assert messages[..i] == messages;
    var sorted := SortTasks(matches);
    r := if |sorted| <= 3 then sorted else sorted[..3];
  }

  // ---------------------------------------------------------------------------------------------
  // Entities

  datatype EntityType = JavascriptFile | PythonFile | PhpFile | DocumentationFile | ConfigFile
                      | Component | ApiEntity | DatabaseEntity | UnknownEntity
  {
    function Name(): string
    {
      match this
      case JavascriptFile => "javascript_file"
      case PythonFile => "python_file"
      case PhpFile => "php_file"
      case DocumentationFile => "documentation"
      case ConfigFile => "config_file"
      case Component => "component"
      case ApiEntity => "api"
      case DatabaseEntity => "database"
      case UnknownEntity => "unknown"
    }

    /** The order in which the types are tried. */
    function Rank(): nat
    {
      match this
      case JavascriptFile => 0
      case PythonFile => 1
      case PhpFile => 2
      case DocumentationFile => 3
      case ConfigFile => 4
      case Component => 5
      case ApiEntity => 6
      case DatabaseEntity => 7
      case UnknownEntity => 8
    }
  }

  /** The test each type stands for, on the lower-cased name. */
  predicate Applies(t: EntityType, name: string)
  {
    match t
    case JavascriptFile => EndsWith(name, ".js") || EndsWith(name, ".ts") || EndsWith(name, ".jsx") || EndsWith(name, ".tsx")
    case PythonFile => EndsWith(name, ".py")
    case PhpFile => EndsWith(name, ".php")
    case DocumentationFile => EndsWith(name, ".md") || EndsWith(name, ".txt")
    case ConfigFile => EndsWith(name, ".json") || EndsWith(name, ".yml") || EndsWith(name, ".yaml")
    case Component => Includes(name, "component")
    case ApiEntity => Includes(name, "api") || Includes(name, "endpoint")
    case DatabaseEntity => Includes(name, "database") || Includes(name, "db")
    case UnknownEntity => true
  }

  /** The tests of `classifyEntity` in order, on an already lower-cased name. */
  function ClassifyName(name: string): EntityType
  {
    if Applies(JavascriptFile, name) then JavascriptFile
    else if Applies(PythonFile, name) then PythonFile
    else if Applies(PhpFile, name) then PhpFile
    else if Applies(DocumentationFile, name) then DocumentationFile
    else if Applies(ConfigFile, name) then ConfigFile
    else if Applies(Component, name) then Component
    else if Applies(ApiEntity, name) then ApiEntity
    else if Applies(DatabaseEntity, name) then DatabaseEntity
    else UnknownEntity
  }

  /** `classifyEntity` */
  function ClassifyEntity(entityName: string): EntityType
  {
    ClassifyName(ToLower(entityName))
  }

  /** The type is the first in order whose test the lower-cased name passes. */
  lemma ClassifyFirstApplicable(entityName: string)
    ensures var name, r := ToLower(entityName), ClassifyEntity(entityName);
      Applies(r, name) && forall t: EntityType | t.Rank() < r.Rank() :: !Applies(t, name)
  {
    var name := ToLower(entityName);
    var r := ClassifyName(name);
    forall t: EntityType | t.Rank() < r.Rank() ensures !Applies(t, name) {
      match t
      case JavascriptFile =>
      case PythonFile =>
      case PhpFile =>
      case DocumentationFile =>
      case ConfigFile =>
      case Component =>
      case ApiEntity =>
      case DatabaseEntity =>
      case UnknownEntity =>
    }
  }

  /** A `.json` name is a configuration file: the `.js` test does not catch it. */
  lemma JsonIsConfig(entityName: string)
    requires EndsWith(ToLower(entityName), ".json")
    ensures ClassifyEntity(entityName) == ConfigFile
  {
    var name := ToLower(entityName);
    var n := |name|;
    assert name[n - 1] == 'n' && name[n - 2] == 'o' && name[n - 3] == 's' && name[n - 4] == 'j' && name[n - 5] == '.' by {
      assert name[n - 5..] == ".json";
    }
    assert !EndsWith(name, ".js") by { assert name[n - 1] != 's'; }
    assert !EndsWith(name, ".ts") by { assert name[n - 1] != 's'; }
    assert !EndsWith(name, ".jsx") by { assert name[n - 1] != 'x'; }
    assert !EndsWith(name, ".tsx") by { assert name[n - 1] != 'x'; }
    assert !EndsWith(name, ".py") by { assert name[n - 1] != 'y'; }
    assert !EndsWith(name, ".php") by { assert name[n - 1] != 'p'; }
    assert !EndsWith(name, ".md") by { assert name[n - 1] != 'd'; }
    assert !EndsWith(name, ".txt") by { assert name[n - 1] != 't'; }
  }

  /** An entity mentioned in a message. */
  datatype Entity = Entity(kind: EntityType, name: string, messageIndex: nat)

  /** A reference to earlier discussion found in a message. */
  datatype Reference = Reference(reference: string, possibleContext: seq<string>, messageIndex: nat)

  // ---------------------------------------------------------------------------------------------
  // The combined context

  datatype Context = Context(title: string, description: string, category: string, confidence: real,
                             priority: string, entities: seq<Entity>, contextNotes: seq<string>, source: string,
                             extractedTasks: seq<TaskMatch>, references: seq<Reference>)

  const Placeholder := "Please specify the task details"

  /** `createEmptyContext` */
  function EmptyContext(): Context
  {
    Context("New Task", Placeholder, "general", 0.0, "medium", [], ["No conversation context available"],
            "no_context", [], [])
  }

  /** The title prefix of each task category. */
  function TitlePrefix(category: string): string
  {
    match category
    case "bugs" => "Fix"
    case "features" => "Implement"
    case "improvements" => "Improve"
    case "documentation" => "Document"
    case "deployment" => "Deploy"
    case "ui" => "Update UI"
    case "api" => "API Work"
    case _ => "Work on"
  }

  /** A description of more than 30 characters is cut to 30 and marked with `...`. */
  function ShortDescription(description: string): (r: string)
    ensures |r| <= 33
    ensures |description| <= 30 ==> r == description
    ensures |description| > 30 ==> |r| == 33 && StartsWith(description, r[..30]) && EndsWith(r, "...")
  {
    if |description| > 30 then description[..30] + "..." else description
  }

  /** `generateTitle` */
  function GenerateTitle(category: string, description: string): string
  {
    TitlePrefix(category) + ": " + ShortDescription(description)
  }

  /** A category without a prefix of its own is titled "Work on". */
  lemma UnknownCategoryTitle(category: string, description: string)
    requires category !in {"bugs", "features", "improvements", "documentation", "deployment", "ui", "api"}
    ensures StartsWith(GenerateTitle(category, description), "Work on: ")
  {
  }

  function EntityNames(entities: seq<Entity>): seq<string>
  {
    seq(|entities|, i requires 0 <= i < |entities| => entities[i].name)
  }

  function EntityTypeNames(entities: seq<Entity>): seq<string>
  {
    seq(|entities|, i requires 0 <= i < |entities| => entities[i].kind.Name())
  }

  /** `combineContext` */
  function CombineContext(taskInfo: seq<TaskMatch>, entities: seq<Entity>, references: seq<Reference>,
                          priority: Priority): Context
  {
    var title := if taskInfo != [] then GenerateTitle(taskInfo[0].category, taskInfo[0].description)
                 else "Task from conversation";
    var description0 := if taskInfo != [] then taskInfo[0].description else Placeholder;
    var names := Join(EntityNames(entities), ", ");
    var description := if entities == [] then description0
                       else if description0 == Placeholder then "Work on: " + names
                       else description0 + " (related to: " + names + ")";
    var notes := (if references != [] then ["References previous discussion"] else [])
                 + (if entities != [] then ["Involves: " + Join(EntityTypeNames(entities), ", ")] else []);
    Context(title, description, if taskInfo != [] then taskInfo[0].category else "general",
            if taskInfo != [] then taskInfo[0].confidence else 0.0, priority.level.Name(), entities, notes,
            "conversation_analysis", if |taskInfo| <= 3 then taskInfo else taskInfo[..3], references)
  }

  /**
   * Without a task the context keeps the generic title, the `general`
   * category and confidence 0; its description is the placeholder, or
   * `Work on: ` and the entity names when there are entities.
   */
  lemma CombineWithoutTasks(entities: seq<Entity>, references: seq<Reference>, priority: Priority)
    ensures var c := CombineContext([], entities, references, priority);
      c.title == "Task from conversation" && c.category == "general" && c.confidence == 0.0
      && c.description == (if entities == [] then Placeholder else "Work on: " + Join(EntityNames(entities), ", "))
      && c.source == "conversation_analysis" && c.extractedTasks == []
  {
  }

  /**
   * With tasks the first one gives the title, category and confidence; the
   * entity names are appended to its description, unless the description is
   * the placeholder text itself, which is replaced as if there were no task.
   */
  lemma CombineWithTask(taskInfo: seq<TaskMatch>, entities: seq<Entity>, references: seq<Reference>, priority: Priority)
    requires taskInfo != []
    ensures var c, t := CombineContext(taskInfo, entities, references, priority), taskInfo[0];
      c.title == GenerateTitle(t.category, t.description) && c.category == t.category && c.confidence == t.confidence
      && (entities == [] ==> c.description == t.description)
      && (entities != [] && t.description != Placeholder ==>
            c.description == t.description + " (related to: " + Join(EntityNames(entities), ", ") + ")")
      && (entities != [] && t.description == Placeholder ==>
            c.description == "Work on: " + Join(EntityNames(entities), ", "))
  {
  }

  /** A note for references and one for entities, each only when there are some. */
  lemma CombineNotes(taskInfo: seq<TaskMatch>, entities: seq<Entity>, references: seq<Reference>, priority: Priority)
    ensures var c := CombineContext(taskInfo, entities, references, priority);
      |c.contextNotes| == (if references != [] then 1 else 0) + (if entities != [] then 1 else 0)
      && (references != [] ==> c.contextNotes[0] == "References previous discussion")
      && c.priority == priority.level.Name()
  {
  }

  /**
   * What `extractContext` returns: the empty context when no message is
   * left after preparing them; otherwise the top tasks, the entities and
   * references the extractors find, and the priority, combined.
   */
  function ContextFor(messages: seq<Message>, options: Options, patterns: seq<TaskPattern>,
                      extractEntities: seq<Prepared> -> seq<Entity>,
                      resolveReferences: seq<Prepared> -> seq<Reference>): Context
  {
    var relevant := PrepareMessages(messages, options);
    if relevant == [] then EmptyContext()
    else
      var score := PriorityScore(relevant);
      CombineContext(TopTasks(TaskMatches(relevant, patterns)), extractEntities(relevant),
                     resolveReferences(relevant), Priority(LevelOf(score), score))
  }

  /** `extractContext`, calling the loops of task extraction and priority. */
  method ExtractContext(messages: seq<Message>, options: Options, patterns: seq<TaskPattern>,
                        extractEntities: seq<Prepared> -> seq<Entity>,
                        resolveReferences: seq<Prepared> -> seq<Reference>) returns (c: Context)
    ensures c == ContextFor(messages, options, patterns, extractEntities, resolveReferences)
  {
    var relevant := PrepareMessages(messages, options);
    if relevant == [] {
      return EmptyContext();
    }
    var taskInfo := ExtractTaskInformation(relevant, patterns);
    var priority := DeterminePriority(relevant);
    c := CombineContext(taskInfo, extractEntities(relevant), resolveReferences(relevant), priority);
  }

  /**
   * When the window holds no message of a kept role the context is the
   * fixed empty one: title `New Task`, priority `medium`, source
   * `no_context`. Otherwise its source is the conversation analysis, and
   * without any indicator its priority is `low`.
   */
  lemma ExtractContextSource(messages: seq<Message>, options: Options, patterns: seq<TaskPattern>,
                             extractEntities: seq<Prepared> -> seq<Entity>,
                             resolveReferences: seq<Prepared> -> seq<Reference>)
    ensures var window := Window(messages, options.lookbackLimit);
      var c := ContextFor(messages, options, patterns, extractEntities, resolveReferences);
      ((forall i | 0 <= i < |window| :: !Kept(options, window[i].role)) ==>
         c == EmptyContext() && c.title == "New Task" && c.priority == "medium" && c.source == "no_context")
      && ((exists i | 0 <= i < |window| :: Kept(options, window[i].role)) ==>
            c.source == "conversation_analysis" && |c.extractedTasks| <= 3)
  {
    PreparedMostRecentFirst(messages, options);
    var relevant := PrepareMessages(messages, options);
    if relevant != [] {
      var score := PriorityScore(relevant);
      CombineSource(TopTasks(TaskMatches(relevant, patterns)), extractEntities(relevant),
                    resolveReferences(relevant), Priority(LevelOf(score), score));
    }
  }

  /** A combined context comes from the conversation analysis and keeps at most three tasks. */
  lemma CombineSource(taskInfo: seq<TaskMatch>, entities: seq<Entity>, references: seq<Reference>, priority: Priority)
    ensures var c := CombineContext(taskInfo, entities, references, priority);
      c.source == "conversation_analysis" && |c.extractedTasks| <= 3
  {
  }
}
