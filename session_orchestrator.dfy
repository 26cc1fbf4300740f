/**
 * pattern-recognition/session-orchestrator.js: the flow from a message to a
 * started session: recognise the pattern, resolve the agent, extract
 * context when the request lacks a task, check the confidence, then confirm
 * or execute; and the state kept between messages.
 */
module SessionOrchestration {
  import opened Wrappers
  import opened JsString
  import opened PatternMatcher
  import opened AgentResolution
  import opened ContextExtractor
  import opened ConfirmationHandler

  datatype Settings = Settings(autoConfirm: bool, confidenceThreshold: real, enableFuzzyMatching: bool,
                               enableContextExtraction: bool, maxConversationHistory: int)

  const DefaultSettings := Settings(false, 0.6, true, true, 10)

  /** The options a caller passes; `None` is a key the object does not have. */
  datatype SettingsPatch = SettingsPatch(autoConfirm: Option<bool>, confidenceThreshold: Option<real>,
                                         enableFuzzyMatching: Option<bool>, enableContextExtraction: Option<bool>,
                                         maxConversationHistory: Option<int>)

  /** `{ ...settings, ...patch }` */
  function Merge(settings: Settings, patch: SettingsPatch): (r: Settings)
    ensures patch.autoConfirm.Some? ==> r.autoConfirm == patch.autoConfirm.value
    ensures patch.autoConfirm.None? ==> r.autoConfirm == settings.autoConfirm
    ensures patch.maxConversationHistory.Some? ==> r.maxConversationHistory == patch.maxConversationHistory.value
    ensures patch.maxConversationHistory.None? ==> r.maxConversationHistory == settings.maxConversationHistory
  {
    Settings(patch.autoConfirm.GetOr(settings.autoConfirm), patch.confidenceThreshold.GetOr(settings.confidenceThreshold),
             patch.enableFuzzyMatching.GetOr(settings.enableFuzzyMatching),
             patch.enableContextExtraction.GetOr(settings.enableContextExtraction),
             patch.maxConversationHistory.GetOr(settings.maxConversationHistory))
  }

  // ---------------------------------------------------------------------------------------------
  // Conversation history

  /** `updateConversationHistory` on the history value. */
  function NewHistory(history: seq<Message>, userInput: string, context: seq<Message>, max: int): seq<Message>
  {
    var withInput := [Message("user", Some(userInput))] + history;
    var merged := if context != [] then withInput[..1] + Slice(context, 0, max - 1) else withInput;
    Slice(merged, 0, max)
  }

  /**
   * With a non-negative maximum the history never grows past it; the
   * current input comes first; a non-empty context replaces the older
   * history by its first `max - 1` messages, and without one the older
   * history follows the input, cut to the maximum.
   */
  lemma HistoryShape(history: seq<Message>, userInput: string, context: seq<Message>, max: int)
    ensures var r := NewHistory(history, userInput, context, max);
      (max >= 0 ==> |r| <= max)
      && (max >= 1 ==> r[0] == Message("user", Some(userInput)))
      && (max >= 1 && context != [] ==> r[1..] == context[..if |context| < max - 1 then |context| else max - 1])
      && (max >= 1 && context == [] ==> r[1..] == history[..if |history| < max - 1 then |history| else max - 1])
  {
    var withInput := [Message("user", Some(userInput))] + history;
    if max >= 1 && context != [] {
      var kept := Slice(context, 0, max - 1);
      TakeIsPrefix(context, max - 1);
      var merged := withInput[..1] + kept;
      TakeIsPrefix(merged, max);
      assert merged[1..] == kept;
    } else if max >= 1 {
      TakeIsPrefix(withInput, max);
      assert withInput[1..] == history;
    }
  }

  // ---------------------------------------------------------------------------------------------
  // The processing steps

  /** The result under processing: the recognition, enriched step by step. */
  datatype Enriched = Enriched(rec: Recognition, agentResolution: Option<Resolution>, extractedContext: Option<Context>)

  /** A pattern result as the orchestrator starts from it. */
  function FromPattern(p: PatternResult): Recognition
  {
    Recognition(p.kind.Name(), p.confidence, Some(p.agent), p.title, p.description, p.needsContext, None, None, None, "")
  }

  /** `resolveAgent` once the resolver has answered for the recognised agent. */
  function WithResolution(e: Enriched, resolution: Resolution): (r: Enriched)
    ensures r.rec.title == e.rec.title && r.rec.description == e.rec.description && r.rec.kind == e.rec.kind
    ensures r.agentResolution == Some(resolution) && r.rec.confidence <= e.rec.confidence
    ensures resolution.agent.Some? ==>
              r.rec.agent == resolution.agent && r.rec.confidence == Min(e.rec.confidence, resolution.confidence)
    ensures resolution.agent.None? ==> r.rec.agent.None? && r.rec.confidence == e.rec.confidence
  {
    if resolution.agent.Some? then
      e.(rec := e.rec.(agent := resolution.agent, confidence := Min(e.rec.confidence, resolution.confidence)),
         agentResolution := Some(resolution))
    else e.(rec := e.rec.(agent := None), agentResolution := Some(resolution))
  }

  /** `extractContext` once the extractor has answered: fill in, never overwrite. */
  function WithContext(e: Enriched, context: Context): (r: Enriched)
    ensures e.rec.title != "" ==> r.rec.title == e.rec.title
    ensures e.rec.title == "" ==> r.rec.title == context.title
    ensures e.rec.description != "" ==> r.rec.description == e.rec.description
    ensures e.rec.description == "" ==> r.rec.description == context.description
    ensures r.rec.agent == e.rec.agent && r.extractedContext == Some(context)
    ensures r.rec.confidence <= e.rec.confidence
  {
    var contextConfidence := if context.confidence != 0.0 then context.confidence else 0.7;
    e.(rec := e.rec.(title := if e.rec.title != "" then e.rec.title else context.title,
                     description := if e.rec.description != "" then e.rec.description else context.description,
                     confidence := Min(e.rec.confidence, contextConfidence)),
       extractedContext := Some(context))
  }

  /** The recognition after agent resolution: the resolver is asked only about a truthy agent. */
  function Resolved(p: PatternResult, resolution: Resolution): Enriched
  {
    var e := Enriched(FromPattern(p), None, None);
    if Truthy(e.rec.agent) then WithResolution(e, resolution) else e
  }

  /** The result after the context step, which runs only when context is needed and extraction is enabled. */
  function Contextualised(settings: Settings, e: Enriched, context: Context): Enriched
  {
    if e.rec.needsContext && settings.enableContextExtraction then WithContext(e, context) else e
  }

  datatype Outcome =
    | NoPatternFound(input: string)
    | AgentNotFound(suggestions: seq<Suggestion>, input: string)
    | LowConfidenceResult(result: Enriched, input: string)
    | Confirmation(reply: Reply)
    | SessionStarted(command: string, agent: string, title: string, description: string)
    | NoPendingConfirmation
    | Cancelled
    | ModificationRequest(data: ConfirmationData)
    | ClarificationRequest

  /** `executeSession`: the standard command for the session; the automation it starts is not modelled. */
  function ExecuteSession(agent: string, title: string, description: string): Outcome
  {
    SessionStarted(ToStandardFormat(agent, title, description), agent, title, description)
  }

  /** The confirmation the flow generates for an enriched result. */
  function ConfirmationFor(e: Enriched, userInput: string): Reply
  {
    GenerateConfirmation(Some(e.rec), e.extractedContext, userInput)
  }

  /** Whether the flow gets as far as generating a confirmation. */
  predicate ReachesConfirmation(settings: Settings, recognition: Option<PatternResult>, resolution: Resolution,
                                context: Context)
  {
    recognition.Some? && Truthy(Resolved(recognition.value, resolution).rec.agent)
    && Contextualised(settings, Resolved(recognition.value, resolution), context).rec.confidence >= settings.confidenceThreshold
  }

  /** The steps of `processInput` after the recognition, given the resolver's and extractor's answers. */
  function Flow(settings: Settings, userInput: string, recognition: Option<PatternResult>, resolution: Resolution,
                context: Context): Outcome
  {
    if recognition.None? then NoPatternFound(userInput)
    else
      var resolved := Resolved(recognition.value, resolution);
      if !Truthy(resolved.rec.agent) then
        AgentNotFound(if resolved.agentResolution.Some? then resolved.agentResolution.value.suggestions else [], userInput)
      else
        var enriched := Contextualised(settings, resolved, context);
        if enriched.rec.confidence < settings.confidenceThreshold then LowConfidenceResult(enriched, userInput)
        else if settings.autoConfirm && enriched.rec.confidence > 0.9 then
          ExecuteSession(enriched.rec.agent.value, enriched.rec.title, enriched.rec.description)
        else Confirmation(ConfirmationFor(enriched, userInput))
  }

  /**
   * The checks come in this order: no pattern, an agent that does not
   * resolve, a confidence under the threshold, automatic confirmation above
   * 0.9, and otherwise a confirmation, which is never an error.
   */
  lemma FlowOrder(settings: Settings, userInput: string, recognition: Option<PatternResult>, resolution: Resolution,
                  context: Context)
    ensures var out := Flow(settings, userInput, recognition, resolution, context);
      (out.NoPatternFound? <==> recognition.None?)
      && (out.AgentNotFound? <==> recognition.Some? && !Truthy(Resolved(recognition.value, resolution).rec.agent))
      && (out.LowConfidenceResult? <==>
            recognition.Some? && Truthy(Resolved(recognition.value, resolution).rec.agent)
            && !ReachesConfirmation(settings, recognition, resolution, context))
      && (out.SessionStarted? <==>
            ReachesConfirmation(settings, recognition, resolution, context) && settings.autoConfirm
            && Contextualised(settings, Resolved(recognition.value, resolution), context).rec.confidence > 0.9)
      && (out.Confirmation? ==> out.reply.Confirm?)
  {
    if ReachesConfirmation(settings, recognition, resolution, context) {
      var enriched := Contextualised(settings, Resolved(recognition.value, resolution), context);
      ConfirmationChoice(Some(enriched.rec), enriched.extractedContext, userInput);
    }
  }

  /**
   * Enrichment only ever lowers the confidence, and it keeps a title or a
   * description the pattern already had: context fills gaps, it does not
   * overwrite.
   */
  lemma EnrichmentConservative(settings: Settings, p: PatternResult, resolution: Resolution, context: Context)
    ensures var e := Contextualised(settings, Resolved(p, resolution), context);
      e.rec.confidence <= p.confidence
      && (p.title != "" ==> e.rec.title == p.title)
      && (p.description != "" ==> e.rec.description == p.description)
      && (p.agent != "" && resolution.agent.None? ==> e.rec.agent.None?)
  {
  }

  /**
   * The outcome of a response to the pending confirmation, and the
   * confirmation left pending afterwards.
   */
  function ResponseOutcome(pending: Option<Reply>, response: string): (r: (Outcome, Option<Reply>))
    requires pending.Some? ==> pending.value.Confirm?
    ensures r.1.None? || r.1 == pending
  {
    if pending.None? then (NoPendingConfirmation, None)
    else
      var data := pending.value.data;
      match HandleResponse(response, data)
      case Execute(_, _) => (ExecuteSession(data.agent, data.title, data.description), None)
      case Cancel => (Cancelled, None)
      case Modify(_) => (ModificationRequest(data), pending)
      case ClarifyAction => (ClarificationRequest, pending)
  }

  /**
   * Without a pending confirmation nothing changes; executing and cancelling
   * clear it, a modification request or a clarification keeps it, and only
   * an affirmative response starts the confirmed session.
   */
  lemma ResponseKeepsOrClears(pending: Option<Reply>, response: string)
    requires pending.Some? ==> pending.value.Confirm?
    ensures var (out, after) := ResponseOutcome(pending, response);
      (pending.None? ==> out == NoPendingConfirmation && after.None?)
      && (pending.Some? ==>
            var data := pending.value.data;
            var normalized := Trim(ToLower(response));
            (out.SessionStarted? <==> normalized in YesWords)
            && (out.SessionStarted? ==> out == ExecuteSession(data.agent, data.title, data.description))
            && (after.None? <==> normalized in YesWords + NoWords)
            && (after.Some? ==> after == pending))
  {
    if pending.Some? {
      ResponseActions(Trim(ToLower(response)), pending.value.data);
    }
  }

  // ---------------------------------------------------------------------------------------------
  // The orchestrator

  /** `SessionOrchestrator`: its options, its collaborators and the state kept between messages. */
  class SessionOrchestrator {
    var settings: Settings
    /** The regular expressions of the pattern matcher and the context extractor. */
    const patterns: Patterns
    const taskPatterns: seq<TaskPattern>
    const extractEntities: seq<Prepared> -> seq<Entity>
    const resolveReferences: seq<Prepared> -> seq<Reference>
    const resolver: AgentResolver
    var lastRecognition: Option<PatternResult>
    var pendingConfirmation: Option<Reply>
    var conversationHistory: seq<Message>

    /** Only a confirmation is ever pending. */
    ghost predicate Valid()
      reads this
    {
      pendingConfirmation.Some? ==> pendingConfirmation.value.Confirm?
    }

    constructor(patch: SettingsPatch, patterns: Patterns, taskPatterns: seq<TaskPattern>,
                extractEntities: seq<Prepared> -> seq<Entity>, resolveReferences: seq<Prepared> -> seq<Reference>,
                resolver: AgentResolver)
      ensures Valid() && this.resolver == resolver
      ensures settings == Merge(DefaultSettings, patch)
      ensures this.patterns == patterns && this.taskPatterns == taskPatterns
      ensures this.extractEntities == extractEntities && this.resolveReferences == resolveReferences
      ensures lastRecognition.None? && pendingConfirmation.None? && conversationHistory == []
    {
      settings := Merge(DefaultSettings, patch);
      this.patterns := patterns;
      this.taskPatterns := taskPatterns;
      this.extractEntities := extractEntities;
      this.resolveReferences := resolveReferences;
      this.resolver := resolver;
      lastRecognition := None;
      pendingConfirmation := None;
      conversationHistory := [];
    }

    /** `new SessionOrchestrator(options)`, building its own agent resolver. */
    static method Create(patch: SettingsPatch, patterns: Patterns, taskPatterns: seq<TaskPattern>,
                         extractEntities: seq<Prepared> -> seq<Entity>, resolveReferences: seq<Prepared> -> seq<Reference>)
      returns (o: SessionOrchestrator)
      ensures fresh(o) && o.Valid() && o.resolver.Valid() && o.resolver.agentDatabase == Database
      ensures o.settings == Merge(DefaultSettings, patch)
      ensures o.lastRecognition.None? && o.pendingConfirmation.None? && o.conversationHistory == []
    {
      var resolver := new AgentResolver();
      o := new SessionOrchestrator(patch, patterns, taskPatterns, extractEntities, resolveReferences, resolver);
    }

    /** The context the extractor derives from the conversation, with the history maximum as its window. */
    function ContextOf(conversationContext: seq<Message>): Context
      reads this
    {
      ContextFor(conversationContext, Options(settings.maxConversationHistory, true, false), taskPatterns,
                 extractEntities, resolveReferences)
    }

    /** `updateConversationHistory` */
    method UpdateConversationHistory(userInput: string, conversationContext: seq<Message>)
      modifies this
      ensures conversationHistory == NewHistory(old(conversationHistory), userInput, conversationContext,
                                                settings.maxConversationHistory)
      ensures settings == old(settings) && lastRecognition == old(lastRecognition)
      ensures pendingConfirmation == old(pendingConfirmation)
    {
      conversationHistory := [Message("user", Some(userInput))] + conversationHistory;
      if conversationContext != [] {
        conversationHistory := conversationHistory[..1] + Slice(conversationContext, 0, settings.maxConversationHistory - 1);
      }
      conversationHistory := Slice(conversationHistory, 0, settings.maxConversationHistory);
    }

    /** `generateConfirmation`: the confirmation becomes the pending one. */
    method GenerateConfirmationFor(e: Enriched, userInput: string) returns (reply: Reply)
      modifies this
      ensures reply == ConfirmationFor(e, userInput) && pendingConfirmation == Some(reply)
      ensures settings == old(settings) && lastRecognition == old(lastRecognition)
      ensures conversationHistory == old(conversationHistory)
    {
      reply := ConfirmationFor(e, userInput);
      pendingConfirmation := Some(reply);
    }

    /**
     * `processInput` once the recognition and the resolver's answer are
     * known: the history is updated, the recognition recorded, and the
     * outcome follows the flow. A confirmation, and also an automatic
     * execution, leaves the generated confirmation pending; every earlier
     * exit leaves the pending confirmation as it was.
     */
    method Proceed(userInput: string, conversationContext: seq<Message>, recognition: Option<PatternResult>,
                   resolution: Resolution, context: Context) returns (out: Outcome)
      requires Valid()
      modifies this
      ensures Valid() && settings == old(settings)
      ensures conversationHistory == NewHistory(old(conversationHistory), userInput, conversationContext,
                                                settings.maxConversationHistory)
      ensures lastRecognition == recognition
      ensures out == Flow(settings, userInput, recognition, resolution, context)
      ensures ReachesConfirmation(settings, recognition, resolution, context) ==>
        pendingConfirmation == Some(ConfirmationFor(Contextualised(settings, Resolved(recognition.value, resolution),
                                                                   context), userInput))
      ensures !ReachesConfirmation(settings, recognition, resolution, context) ==>
        pendingConfirmation == old(pendingConfirmation)
    {
      UpdateConversationHistory(userInput, conversationContext);
      lastRecognition := recognition;
      if recognition.None? {
        return NoPatternFound(userInput);
      }
      var p := recognition.value;
      var resolved := Resolved(p, resolution);
      if !Truthy(resolved.rec.agent) {
        return AgentNotFound(if resolved.agentResolution.Some? then resolved.agentResolution.value.suggestions else [],
                             userInput);
      }
      var enriched := Contextualised(settings, resolved, context);
      if enriched.rec.confidence < settings.confidenceThreshold {
        return LowConfidenceResult(enriched, userInput);
      }
      var confirmation := GenerateConfirmationFor(enriched, userInput);
      ConfirmationChoice(Some(enriched.rec), enriched.extractedContext, userInput);
      if settings.autoConfirm && enriched.rec.confidence > 0.9 {
        return ExecuteSession(enriched.rec.agent.value, enriched.rec.title, enriched.rec.description);
      }
      out := Confirmation(confirmation);
    }

    /** `processInput`: recognise the pattern, ask the resolver about its agent, and proceed. */
    method ProcessInput(userInput: string, conversationContext: seq<Message>) returns (out: Outcome)
      requires Valid() && resolver.Valid()
      modifies this
      ensures Valid() && settings == old(settings) && lastRecognition == RecognizePattern(userInput, patterns)
      ensures conversationHistory == NewHistory(old(conversationHistory), userInput, conversationContext,
                                                settings.maxConversationHistory)
      ensures lastRecognition.None? ==> out == NoPatternFound(userInput) && pendingConfirmation == old(pendingConfirmation)
      ensures lastRecognition.Some? ==>
        out == Flow(settings, userInput, lastRecognition, Resolve(resolver.agentDatabase, lastRecognition.value.agent),
                    ContextOf(conversationContext))
    {
      var recognition := RecognizePattern(userInput, patterns);
      var resolution := Resolution(None, 0.0, NoMatch, "", [], "", []);
      if recognition.Some? {
        // The resolver only answers a query, so asking it before the state changes changes nothing.
        resolution := resolver.ResolveAgent(recognition.value.agent);
      }
      // Extraction only reads the conversation, so running it where the flow skips it changes nothing.
      var context := ExtractContext(conversationContext, Options(settings.maxConversationHistory, true, false),
                                    taskPatterns, extractEntities, resolveReferences);
      out := Proceed(userInput, conversationContext, recognition, resolution, context);
    }

    /**
     * `handleConfirmationResponse`: the outcome and the pending confirmation
     * afterwards are those of `ResponseOutcome`.
     */
    method HandleConfirmationResponse(response: string) returns (out: Outcome)
      requires Valid()
      modifies this
      ensures Valid()
      ensures settings == old(settings) && lastRecognition == old(lastRecognition)
      ensures conversationHistory == old(conversationHistory)
      ensures (out, pendingConfirmation) == ResponseOutcome(old(pendingConfirmation), response)
    {
      if pendingConfirmation.None? {
        return NoPendingConfirmation;
      }
      var data := pendingConfirmation.value.data;
      var action := HandleResponse(response, data);
      out := Perform(action, data);
    }

    /** The `switch` of `handleConfirmationResponse` on the action for the pending confirmation. */
    method Perform(action: Action, data: ConfirmationData) returns (out: Outcome)
      requires Valid()
      modifies this
      ensures Valid()
      ensures settings == old(settings) && lastRecognition == old(lastRecognition)
      ensures conversationHistory == old(conversationHistory)
      ensures pendingConfirmation == (if action.Execute? || action.Cancel? then None else old(pendingConfirmation))
      ensures out == match action
        case Execute(_, _) => ExecuteSession(data.agent, data.title, data.description)
        case Cancel => Cancelled
        case Modify(_) => ModificationRequest(data)
        case ClarifyAction => ClarificationRequest
    {
      match action
      case Execute(_, _) =>
        pendingConfirmation := None;
        out := ExecuteSession(data.agent, data.title, data.description);
      case Cancel =>
        pendingConfirmation := None;
        out := Cancelled;
      case Modify(_) =>
        out := ModificationRequest(data);
      case ClarifyAction =>
        out := ClarificationRequest;
    }

    /** `reset`: the three state fields are empty again. */
    method Reset()
      requires Valid()
      modifies this
      ensures Valid()
      ensures lastRecognition.None? && pendingConfirmation.None? && conversationHistory == []
      ensures settings == old(settings)
    {
      lastRecognition := None;
      pendingConfirmation := None;
      conversationHistory := [];
    }

    /** `updateOptions`: the given options replace the current ones. */
    method UpdateOptions(patch: SettingsPatch)
      requires Valid()
      modifies this
      ensures Valid()
      ensures settings == Merge(old(settings), patch)
      ensures lastRecognition == old(lastRecognition) && pendingConfirmation == old(pendingConfirmation)
      ensures conversationHistory == old(conversationHistory)
    {
      settings := Merge(settings, patch);
    }
  }
}
