/**
 * pattern-recognition/pattern-matcher.js: recognises a request to start a
 * session with an agent. The regular expressions are parameters; what is
 * modelled is the agent-name resolution, the order the pattern families
 * are tried in, the result each builds and the standard command.
 */
module PatternMatcher {
  import opened Wrappers
  import opened JsString

  /** One agent and the names it answers to, in declaration order. */
  datatype Variations = Variations(canonical: string, variations: seq<string>)

  const AgentVariations: seq<Variations> := [
    Variations("vibe-coder", ["vibe-coder", "vibe coder", "vibecoder", "vibe", "system architect",
                              "documentation expert", "docs expert"]),
    Variations("react-dev", ["react-dev", "react dev", "react developer", "react", "frontend dev", "ui developer",
                             "frontend developer"]),
    Variations("laravel-dev", ["laravel-dev", "laravel dev", "laravel developer", "laravel", "backend dev",
                               "api developer", "backend developer"]),
    Variations("svelte-dev", ["svelte-dev", "svelte dev", "svelte developer", "svelte", "frontend", "ui dev"]),
    Variations("node-dev", ["node-dev", "node dev", "node developer", "node", "nodejs", "backend", "api dev"]),
    Variations("devops", ["devops", "dev ops", "infrastructure", "deployment", "ci/cd", "ops", "infrastructure engineer"])
  ]

  /** Some variation of the entry contains the name or is contained in it. */
  predicate PartialAt(v: Variations, name: string)
  {
    exists variation | variation in v.variations :: Related(variation, name)
  }

  /** The first loop of `resolveAgentName`: the first agent listing the name itself. */
  function ExactAgent(table: seq<Variations>, name: string): (r: Option<string>)
    ensures r.None? <==> forall i | 0 <= i < |table| :: name !in table[i].variations
    ensures r.Some? ==> exists i | 0 <= i < |table| ::
      table[i].canonical == r.value && name in table[i].variations
      && forall j | 0 <= j < i :: name !in table[j].variations
  {
    if table == [] then None
    else if name in table[0].variations then Some(table[0].canonical)
    else
      var r := ExactAgent(table[1..], name);
      assert forall j | 1 <= j < |table| :: table[j] == table[1..][j - 1];
      r
  }

  /** The second loop of `resolveAgentName`: the first agent with a variation overlapping the name. */
  function PartialAgent(table: seq<Variations>, name: string): (r: Option<string>)
    ensures r.None? <==> forall i | 0 <= i < |table| :: !PartialAt(table[i], name)
    ensures r.Some? ==> exists i | 0 <= i < |table| ::
      table[i].canonical == r.value && PartialAt(table[i], name)
      && forall j | 0 <= j < i :: !PartialAt(table[j], name)
  {
    if table == [] then None
    else if PartialAt(table[0], name) then Some(table[0].canonical)
    else
      var r := PartialAgent(table[1..], name);
      assert forall j | 1 <= j < |table| :: table[j] == table[1..][j - 1];
      r
  }

  /** `resolveAgentName` over a table: an exact variation first, else an overlapping one, on the lower-cased, trimmed name. */
  function ResolveIn(table: seq<Variations>, input: string): Option<string>
  {
    var name := Trim(ToLower(input));
    var exact := ExactAgent(table, name);
    if exact.Some? then exact else PartialAgent(table, name)
  }

  /** `resolveAgentName` itself, over the agents the matcher knows. */
  function ResolveAgentName(input: string): Option<string>
  {
    ResolveIn(AgentVariations, input)
  }

  /**
   * An agent listing the name itself always wins, whatever overlaps come
   * earlier; an overlap is used only when no agent lists the name. Either
   * way the result is one of the canonical names.
   */
  lemma ExactPreferred(table: seq<Variations>, input: string)
    ensures var name := Trim(ToLower(input));
      var r := ResolveIn(table, input);
      ((exists i | 0 <= i < |table| :: name in table[i].variations) ==>
         r == ExactAgent(table, name) && r.Some?)
      && ((forall i | 0 <= i < |table| :: name !in table[i].variations) ==>
         r == PartialAgent(table, name))
      && (r.Some? ==> exists i | 0 <= i < |table| :: table[i].canonical == r.value)
  {
  }

  /** The capture groups of a pattern: the agent, then up to two texts. */
  datatype Captures = Captures(agentInput: string, first: Option<string>, second: Option<string>)

  function Text(group: Option<string>): string
  {
    group.GetOr("")
  }

  /** The four families of patterns, in the order they are tried. */
  datatype PatternKind = Direct | Session | Handoff | ClaudeCode
  {
    function Confidence(): real
    {
      match this
      case Direct => 0.95
      case Session => 0.85
      case Handoff => 0.80
      case ClaudeCode => 0.90
    }

    function Name(): string
    {
      match this
      case Direct => "direct"
      case Session => "session"
      case Handoff => "handoff"
      case ClaudeCode => "claude-code"
    }

    /** The title used when no task was captured. */
    function Placeholder(): string
    {
      match this
      case Direct => ""
      case Session => "Session Task"
      case Handoff => "Handoff Task"
      case ClaudeCode => "Claude Code Task"
    }

    function Rank(): nat
    {
      match this
      case Direct => 0
      case Session => 1
      case Handoff => 2
      case ClaudeCode => 3
    }
  }

  datatype PatternResult = PatternResult(kind: PatternKind, confidence: real, agent: string, title: string,
                                         description: string, needsContext: bool)

  /** A direct match without its own description takes the trimmed title. */
  function DirectDescription(m: Captures): string
  {
    if Truthy(m.second) then m.second.value else Trim(Text(m.first))
  }

  /**
   * The object each `match*Patterns` returns for a match whose agent
   * resolved. The direct title falls back to the trimmed title group,
   * which is the empty string whenever the fallback is taken.
   */
  function Build(kind: PatternKind, agent: string, m: Captures): (r: PatternResult)
    ensures r.kind == kind && r.agent == agent && r.confidence == kind.Confidence()
  {
    if kind == Direct then
      PatternResult(Direct, 0.95, agent, Text(m.first), DirectDescription(m),
                    !Truthy(m.first) && !Truthy(m.second))
    else
      PatternResult(kind, kind.Confidence(), agent,
                    if Truthy(m.first) then m.first.value else kind.Placeholder(),
                    if Truthy(m.first) then m.first.value else "",
                    !Truthy(m.first))
  }

  /** One pattern tried on the input: a result when it matches and `resolve` accepts its agent. */
  function Attempt(resolve: string -> Option<string>, kind: PatternKind, m: Option<Captures>): (r: Option<PatternResult>)
    ensures r.Some? <==> m.Some? && resolve(m.value.agentInput).Some?
    ensures r.Some? ==> r.value == Build(kind, resolve(m.value.agentInput).value, m.value)
  {
    match m
    case None => None
    case Some(c) =>
      match resolve(c.agentInput)
      case None => None
      case Some(agent) => Some(Build(kind, agent, c))
  }

  /** `match*Patterns`: the patterns of one family in order, the first whose agent resolves. */
  function MatchKind(resolve: string -> Option<string>, kind: PatternKind, input: string, patterns: seq<string -> Option<Captures>>): (r: Option<PatternResult>)
    ensures r.Some? ==> r.value.kind == kind
  {
    if patterns == [] then None
    else
      var first := Attempt(resolve, kind, patterns[0](input));
      if first.Some? then first else MatchKind(resolve, kind, input, patterns[1..])
  }

  /**
   * A family gives no result exactly when none of its patterns does, and
   * otherwise the result of its first pattern that gives one.
   */
  lemma {:induction false} MatchKindFirst(resolve: string -> Option<string>, kind: PatternKind, input: string,
                                          patterns: seq<string -> Option<Captures>>) returns (i: nat)
    ensures var r := MatchKind(resolve, kind, input, patterns);
      (r.None? <==> forall j | 0 <= j < |patterns| :: Attempt(resolve, kind, patterns[j](input)).None?)
      && (r.Some? ==> i < |patterns| && r == Attempt(resolve, kind, patterns[i](input))
                      && forall j | 0 <= j < i :: Attempt(resolve, kind, patterns[j](input)).None?)
  {
    i := 0;
    if patterns != [] && Attempt(resolve, kind, patterns[0](input)).None? {
      var k := MatchKindFirst(resolve, kind, input, patterns[1..]);
      assert forall j | 1 <= j < |patterns| :: patterns[j] == patterns[1..][j - 1];
      i := k + 1;
    }
  }

  /**
   * Every result carries its family's fixed confidence. For the session,
   * handoff and Claude Code families, context is needed exactly when no
   * task was captured, and then the title is the family's placeholder and
   * the description is empty. A direct result needs context exactly when
   * neither title nor description was captured, and with a title only its
   * description is the trimmed title.
   */
  lemma BuildFields(kind: PatternKind, agent: string, m: Captures)
    ensures var r := Build(kind, agent, m);
      r.kind == kind && r.agent == agent && r.confidence == kind.Confidence()
      && (kind != Direct ==>
            (r.needsContext <==> !Truthy(m.first))
            && (r.needsContext ==> r.title == kind.Placeholder() && r.description == "")
            && (!r.needsContext ==> r.title == m.first.value && r.description == m.first.value))
      && (kind == Direct ==>
            (r.needsContext <==> !Truthy(m.first) && !Truthy(m.second))
            && (Truthy(m.first) && !Truthy(m.second) ==> r.title == m.first.value && r.description == Trim(m.first.value))
            && (!Truthy(m.first) ==> r.title == ""))
  {
  }

  /** The regular expressions of each family, in their order. */
  datatype Patterns = Patterns(direct: seq<string -> Option<Captures>>, session: seq<string -> Option<Captures>>,
                               handoff: seq<string -> Option<Captures>>, claudeCode: seq<string -> Option<Captures>>)
  {
    function Of(kind: PatternKind): seq<string -> Option<Captures>>
    {
      match kind
      case Direct => direct
      case Session => session
      case Handoff => handoff
      case ClaudeCode => claudeCode
    }
  }

  /** `recognizePattern` with a given agent-name resolver: the families in order on the trimmed input, the first that gives a result. */
  function RecognizeIn(resolve: string -> Option<string>, input: string, patterns: Patterns): Option<PatternResult>
  {
    RecognizeClean(resolve, Trim(input), patterns)
  }

  /** The families in order on an input already trimmed. */
  function RecognizeClean(resolve: string -> Option<string>, clean: string, patterns: Patterns): Option<PatternResult>
  {
    var direct := MatchKind(resolve, Direct, clean, patterns.direct);
    if direct.Some? then direct
    else
      var session := MatchKind(resolve, Session, clean, patterns.session);
      if session.Some? then session
      else
        var handoff := MatchKind(resolve, Handoff, clean, patterns.handoff);
        if handoff.Some? then handoff else MatchKind(resolve, ClaudeCode, clean, patterns.claudeCode)
  }

  /** `recognizePattern` itself, over the agents the matcher knows. */
  function RecognizePattern(input: string, patterns: Patterns): Option<PatternResult>
  {
    RecognizeIn(ResolveAgentName, input, patterns)
  }

  /**
   * The result comes from the first family, in the order direct, session,
   * handoff, Claude Code, with a pattern whose agent resolves; there is no
   * result only when no family has one.
   */
  lemma RecognizeInOrder(resolve: string -> Option<string>, input: string, patterns: Patterns)
    ensures var clean, r := Trim(input), RecognizeIn(resolve, input, patterns);
      (r.Some? ==> r == MatchKind(resolve, r.value.kind, clean, patterns.Of(r.value.kind))
                   && forall k: PatternKind | k.Rank() < r.value.kind.Rank() ::
                        MatchKind(resolve, k, clean, patterns.Of(k)).None?)
      && (r.None? <==> forall k: PatternKind :: MatchKind(resolve, k, clean, patterns.Of(k)).None?)
  {
    RecognizeCleanOrder(resolve, Trim(input), patterns);
  }

  lemma RecognizeCleanOrder(resolve: string -> Option<string>, clean: string, patterns: Patterns)
    ensures var r := RecognizeClean(resolve, clean, patterns);
      (r.Some? ==> r == MatchKind(resolve, r.value.kind, clean, patterns.Of(r.value.kind))
                   && forall k: PatternKind | k.Rank() < r.value.kind.Rank() ::
                        MatchKind(resolve, k, clean, patterns.Of(k)).None?)
      && (r.None? <==> forall k: PatternKind :: MatchKind(resolve, k, clean, patterns.Of(k)).None?)
  {
  }

  /** `toStandardFormat`: `/start-session <agent> "<title>" "<description>"`. */
  function ToStandardFormat(agent: string, title: string, description: string): string
  {
    "/start-session " + agent + " \"" + title + "\" \"" + description + "\""
  }

  /**
   * The standard command splits at its quotes back into the agent part,
   * the title and the description, when none of them holds a quote.
   */
  lemma StandardFormatSplits(agent: string, title: string, description: string)
    requires '"' !in agent && '"' !in title && '"' !in description
    ensures Split(ToStandardFormat(agent, title, description), '"')
            == ["/start-session " + agent + " ", title, " ", description, ""]
  {
    var parts := ["/start-session " + agent + " ", title, " ", description, ""];
    assert Join(parts[3..], "\"") == description + "\"" + "";
    assert Join(parts[2..], "\"") == " " + "\"" + description + "\"" + "";
    assert Join(parts[1..], "\"") == title + "\"" + " " + "\"" + description + "\"" + "";
    assert Join(parts, "\"") == ToStandardFormat(agent, title, description);
    SplitJoin(parts, '"');
  }
}
