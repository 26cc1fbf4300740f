/**
 * pattern-recognition/confirmation-handler.js: turns a recognised request
 * into a confirmation, an error or a clarification, and a reply to a
 * confirmation into the next action. The message texts are represented by
 * the template they are drawn from and the variables substituted into it;
 * the substitution itself is modelled on arbitrary template text.
 */
module ConfirmationHandler {
  import opened Wrappers
  import opened JsString
  import opened PatternMatcher
  import opened AgentResolution
  import opened ContextExtractor

  /**
   * The result object handed to `generateConfirmation`: a pattern result,
   * possibly enriched by the orchestrator. A falsy agent is `None` or `""`;
   * an absent title or description is `""`.
   */
  datatype Recognition = Recognition(kind: string, confidence: real, agent: Option<string>, title: string,
                                     description: string, needsContext: bool, matchMethod: Option<string>,
                                     matchedString: Option<string>, suggestions: Option<seq<Suggestion>>,
                                     input: string)

  /** A template variable: text, or the rounded confidence. */
  datatype Value = Text(s: string) | Number(n: int)

  /** `value || ''`: an empty string and the number 0 are both falsy and render as nothing. */
  function Render(v: Value): string
  {
    match v
    case Text(s) => s
    case Number(n) => if n == 0 then "" else IntToString(n)
  }

  /** `{key}` */
  function KeyPattern(key: string): (r: string)
    ensures |r| > 0 && r[0] == '{'
  {
    "{" + key + "}"
  }

  /** The template after substituting the variables one after the other. */
  function Interpolated(template: string, variables: seq<(string, Value)>): string
  {
    if variables == [] then template
    else
      var last := variables[|variables| - 1];
      ReplaceAll(Interpolated(template, variables[..|variables| - 1]), KeyPattern(last.0), Render(last.1))
  }

  /** `interpolateTemplate`: the loop over the variables. */
  method InterpolateTemplate(template: string, variables: seq<(string, Value)>) returns (result: string)
    ensures result == Interpolated(template, variables)
  {
    result := template;
    var k := 0;
    while k < |variables|
      invariant 0 <= k <= |variables|
      invariant result == Interpolated(template, variables[..k])
    {
      assert variables[..k + 1][..k] == variables[..k];
      var (key, value) := variables[k];
      result := ReplaceAll(result, KeyPattern(key), Render(value));
      k := k + 1;
    }
    assert variables[..k] == variables;
  }

  /** A text without any `{` has no placeholder, and no variable changes it. */
  lemma {:induction false} InterpolateNoPlaceholder(template: string, variables: seq<(string, Value)>)
    requires '{' !in template
    ensures Interpolated(template, variables) == template
  {
    if variables != [] {
      var last := variables[|variables| - 1];
      InterpolateNoPlaceholder(template, variables[..|variables| - 1]);
      ReplaceAllAbsent(template, KeyPattern(last.0), Render(last.1));
    }
  }

  /**
   * A single placeholder between texts without `{` is replaced by the
   * rendered value, and nothing else changes; a confidence of 0 renders as
   * nothing, not as `0`.
   */
  lemma InterpolateOne(a: string, key: string, b: string, v: Value)
    requires '{' !in a && '{' !in b
    ensures Interpolated(a + KeyPattern(key) + b, [(key, v)]) == a + Render(v) + b
    ensures v == Number(0) ==> Interpolated(a + KeyPattern(key) + b, [(key, v)]) == a + b
  {
    assert [(key, v)][..0] == [];
    ReplaceAllOne(a, KeyPattern(key), b, Render(v));
  }

  /** The message templates. */
  datatype Template = DirectTemplate | SessionTemplate | HandoffTemplate | ClaudeCodeTemplate | ContextExtracted
                    | FuzzyMatchTemplate | ClarificationNeeded | MultipleAgentsTemplate

  /** `this.templates[key]` */
  function TemplateByKey(key: string): Option<Template>
  {
    match key
    case "direct" => Some(DirectTemplate)
    case "session" => Some(SessionTemplate)
    case "handoff" => Some(HandoffTemplate)
    case "claude_code" => Some(ClaudeCodeTemplate)
    case "context_extracted" => Some(ContextExtracted)
    case "fuzzy_match" => Some(FuzzyMatchTemplate)
    case "clarification_needed" => Some(ClarificationNeeded)
    case "multiple_agents" => Some(MultipleAgentsTemplate)
    case _ => None
  }

  /** `getPatternTypeLabel`: the label of a known type, else the type itself. */
  function PatternTypeLabel(kind: string): string
  {
    match kind
    case "direct" => "Direct command"
    case "session" => "Natural language session"
    case "handoff" => "Agent handoff"
    case "claude_code" => "Claude Code specific"
    case "fuzzy" => "Fuzzy match"
    case _ => kind
  }

  /** `Math.round(confidence * 100)` */
  function Percent(confidence: real): int
  {
    (confidence * 100.0 + 0.5).Floor
  }

  /** `formatContextNotes`: empty without a context, else a header and one bullet per note. */
  function FormatContextNotes(context: Option<Context>): string
  {
    if context.None? then ""
    else "\n**Context Notes**:\n" + Join(Bullets(context.value.contextNotes), "\n")
  }

  function Bullets(notes: seq<string>): (r: seq<string>)
    ensures |r| == |notes|
  {
    seq(|notes|, i requires 0 <= i < |notes| => "• " + notes[i])
  }

  /** What a confirmation carries on to the reply handling. */
  datatype ConfirmationData = ConfirmationData(agent: string, title: string, description: string, confidence: real,
                                               patternType: string, userInput: string, context: Option<Context>)

  datatype ErrorKind = NoPattern | LowConfidence | InvalidAgent | UnknownError

  datatype ClarifyKind = AgentNeeded | MultipleAgents

  datatype Reply =
    | Confirm(template: Template, variables: seq<(string, Value)>, data: ConfirmationData)
    | Error(kind: ErrorKind, variables: seq<(string, Value)>, agentSuggestions: seq<Suggestion>)
    | Clarify(clarifyKind: ClarifyKind, variables: seq<(string, Value)>, options: seq<Recognition>)

  const AgentList := "vibe-coder, react-dev, laravel-dev, svelte-dev, node-dev, devops"

  /** `getUncertaintyDetails` */
  function UncertaintyDetails(r: Recognition): seq<string>
  {
    (if r.confidence < 0.3 then ["Very low pattern confidence"] else [])
    + (if !Truthy(r.agent) then ["Agent could not be determined"] else [])
    + (if r.title == "" && r.description == "" then ["Task details are unclear"] else [])
  }

  /** `generateErrorMessage`: no result, then low confidence, then suggestions, else unknown. */
  function GenerateErrorMessage(result: Option<Recognition>, userInput: string): (r: Reply)
    ensures r.Error?
  {
    if result.None? then
      Error(NoPattern, [("user_input", Text(userInput)), ("agent_list", Text(AgentList))], [])
    else if result.value.confidence < 0.5 then
      Error(LowConfidence, [("uncertainty_details", Text(Join(UncertaintyDetails(result.value), "\n• ")))], [])
    else if result.value.suggestions.Some? then
      Error(InvalidAgent, [("agent_input", Text(result.value.input))], result.value.suggestions.value)
    else Error(UnknownError, [("user_input", Text(userInput))], [])
  }

  /**
   * The error kinds are tried in order: no result, a confidence under 0.5,
   * a list of suggestions (even an empty one, since an array is truthy),
   * else the unknown error.
   */
  lemma ErrorOrder(result: Option<Recognition>, userInput: string)
    ensures var k := GenerateErrorMessage(result, userInput).kind;
      (k == NoPattern <==> result.None?)
      && (k == LowConfidence <==> result.Some? && result.value.confidence < 0.5)
      && (k == InvalidAgent <==> result.Some? && result.value.confidence >= 0.5 && result.value.suggestions.Some?)
      && (k == UnknownError <==> result.Some? && result.value.confidence >= 0.5 && result.value.suggestions.None?)
      && (k == InvalidAgent ==> GenerateErrorMessage(result, userInput).agentSuggestions == result.value.suggestions.value)
  {
  }

  /** The template key: extracted context, then the fuzzy method, then the type. */
  function TemplateKey(r: Recognition, context: Option<Context>): string
  {
    if r.needsContext && context.Some? then "context_extracted"
    else if r.matchMethod == Some("fuzzy_match") then "fuzzy_match"
    else r.kind
  }

  /** `generateConfirmation` */
  function GenerateConfirmation(result: Option<Recognition>, context: Option<Context>, userInput: string): Reply
  {
    if result.None? || !Truthy(result.value.agent) then GenerateErrorMessage(result, userInput)
    else
      var r := result.value;
      var agent := r.agent.value;
      var title := if r.title != "" then r.title else "Task from conversation";
      var description := if r.description != "" then r.description else "Please specify task details";
      var variables := [
        ("user_input", Text(userInput)), ("agent", Text(agent)), ("title", Text(title)),
        ("description", Text(description)), ("pattern_type", Text(PatternTypeLabel(r.kind))),
        ("confidence", Number(Percent(r.confidence))),
        ("context_source", Text(if context.Some? && context.value.source != "" then context.value.source else "conversation")),
        ("context_notes", Text(FormatContextNotes(context))),
        ("match_method", Text(if Truthy(r.matchMethod) then r.matchMethod.value else r.kind)),
        ("matched_string", Text(if Truthy(r.matchedString) then r.matchedString.value else agent))
      ];
      Confirm(TemplateByKey(TemplateKey(r, context)).GetOr(DirectTemplate), variables,
              ConfirmationData(agent, title, description, r.confidence, r.kind, userInput, context))
  }

  /**
   * A missing result or one without an agent is an error; otherwise the
   * confirmation uses the extracted-context template when context was
   * needed and given, else the fuzzy template for a fuzzy method, else the
   * template of the type, falling back to the direct one. Its data always
   * has a non-empty title and description.
   */
  lemma ConfirmationChoice(result: Option<Recognition>, context: Option<Context>, userInput: string)
    ensures var reply := GenerateConfirmation(result, context, userInput);
      (reply.Error? <==> result.None? || !Truthy(result.value.agent))
      && (reply.Error? ==> reply == GenerateErrorMessage(result, userInput))
      && (reply.Confirm? ==>
            var r := result.value;
            reply.data.agent == r.agent.value && reply.data.title != "" && reply.data.description != ""
            && (r.needsContext && context.Some? ==> reply.template == ContextExtracted)
            && (!(r.needsContext && context.Some?) && r.matchMethod == Some("fuzzy_match") ==> reply.template == FuzzyMatchTemplate)
            && (!(r.needsContext && context.Some?) && r.matchMethod != Some("fuzzy_match") ==>
                  reply.template == TemplateByKey(r.kind).GetOr(DirectTemplate)))
  {
  }

  /**
   * The pattern matcher names its Claude Code type `claude-code`, but the
   * template key is `claude_code`: such a result gets the direct template.
   */
  lemma ClaudeCodeGetsDirectTemplate(r: Recognition, userInput: string)
    requires r.kind == ClaudeCode.Name() && Truthy(r.agent) && !r.needsContext && r.matchMethod.None?
    ensures GenerateConfirmation(Some(r), None, userInput).template == DirectTemplate
  {
  }

  /**
   * The key the template table evidently means: `TemplateKey`, with the
   * matcher's `claude-code` spelled `claude_code` as the templates and the
   * labels spell it.
   */
  function TemplateKeyCorrected(r: Recognition, context: Option<Context>): (k: string)
    ensures k != TemplateKey(r, context) ==> TemplateKey(r, context) == ClaudeCode.Name() && k == "claude_code"
  {
    var k := TemplateKey(r, context);
    if k == ClaudeCode.Name() then "claude_code" else k
  }

  /**
   * With the corrected key, every kind of pattern the matcher reports has a
   * template of its own and a label of its own, the Claude Code kind its
   * Claude Code template.
   */
  lemma EveryKindHasTemplate(kind: PatternKind, r: Recognition)
    requires r.kind == kind.Name() && !r.needsContext && r.matchMethod.None?
    ensures TemplateByKey(TemplateKeyCorrected(r, None)).Some?
    ensures TemplateByKey(TemplateKeyCorrected(r, None)) != Some(DirectTemplate) <==> kind != Direct
    ensures kind == ClaudeCode ==> TemplateByKey(TemplateKeyCorrected(r, None)) == Some(ClaudeCodeTemplate)
    ensures PatternTypeLabel(TemplateKeyCorrected(r, None)) != TemplateKeyCorrected(r, None)
  {
  }

  /** `generateClarification` */
  function GenerateClarification(options: seq<Recognition>, userInput: string): Reply
  {
    if options == [] then GenerateErrorMessage(None, userInput)
    else if exists i | 0 <= i < |options| :: !Truthy(options[i].agent) then
      Clarify(AgentNeeded, [("clarification_reason", Text("I need to know which agent should handle this task.")),
                            ("agent_list", Text(AgentList))], options)
    else if |options| > 1 then
      Clarify(MultipleAgents, [("user_input", Text(userInput))], options)
    else GenerateConfirmation(Some(options[0]), None, userInput)
  }

  /**
   * No option is the no-pattern error; an option without an agent asks for
   * the agent; several options ask to choose; a single one is confirmed.
   */
  lemma ClarificationCases(options: seq<Recognition>, userInput: string)
    ensures var reply := GenerateClarification(options, userInput);
      (options == [] ==> reply.Error? && reply.kind == NoPattern)
      && ((exists i | 0 <= i < |options| :: !Truthy(options[i].agent)) ==> reply.Clarify? && reply.clarifyKind == AgentNeeded)
      && ((forall i | 0 <= i < |options| :: Truthy(options[i].agent)) && |options| > 1 ==>
            reply.Clarify? && reply.clarifyKind == MultipleAgents && reply.options == options)
      && ((forall i | 0 <= i < |options| :: Truthy(options[i].agent)) && |options| == 1 ==>
            reply.Confirm? && reply.data.agent == options[0].agent.value)
  {
  }

  /** `generateStandardCommand`: the standard command of the confirmed data. */
  function GenerateStandardCommand(data: ConfirmationData): string
  {
    ToStandardFormat(data.agent, data.title, data.description)
  }

  datatype Action = Execute(command: string, data: ConfirmationData) | Cancel | Modify(data: ConfirmationData) | ClarifyAction

  const YesWords: seq<string> := ["yes", "y", "proceed", "go", "continue"]
  const NoWords: seq<string> := ["no", "n", "cancel", "abort", "stop"]
  const ModifyWords: seq<string> := ["modify", "edit", "change", "update"]

  /** The reply to a normalised response. */
  function ActionFor(normalized: string, data: ConfirmationData): Action
  {
    if normalized in YesWords then Execute(GenerateStandardCommand(data), data)
    else if normalized in NoWords then Cancel
    else if normalized in ModifyWords then Modify(data)
    else ClarifyAction
  }

  /** `handleResponse`: the lower-cased, trimmed response decides. */
  function HandleResponse(response: string, data: ConfirmationData): Action
  {
    ActionFor(Trim(ToLower(response)), data)
  }

  /**
   * Each word list leads to its action, and everything else asks again;
   * executing carries the standard command, which splits at its quotes
   * back into the title and description when none of the fields holds a
   * quote.
   */
  lemma ResponseActions(normalized: string, data: ConfirmationData)
    ensures var a := ActionFor(normalized, data);
      (a.Execute? <==> normalized in YesWords)
      && (a.Cancel? <==> normalized !in YesWords && normalized in NoWords)
      && (a.Modify? <==> normalized !in YesWords && normalized !in NoWords && normalized in ModifyWords)
      && (a.ClarifyAction? <==> normalized !in YesWords + NoWords + ModifyWords)
      && (a.Execute? && '"' !in data.agent && '"' !in data.title && '"' !in data.description ==>
            Split(a.command, '"') == ["/start-session " + data.agent + " ", data.title, " ", data.description, ""])
  {
    if normalized in YesWords && '"' !in data.agent && '"' !in data.title && '"' !in data.description {
      StandardFormatSplits(data.agent, data.title, data.description);
    }
  }

  /** The word lists do not overlap, so the order among them never matters. */
  lemma WordListsDisjoint()
    ensures forall w | w in YesWords :: w !in NoWords && w !in ModifyWords
    ensures forall w | w in NoWords :: w !in ModifyWords
  {
  }
}
