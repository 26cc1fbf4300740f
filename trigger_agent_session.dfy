/**
 * trigger-agent-session.js: an agent session started for a piece of review
 * feedback.  The session context is built from the command-line options, the
 * branch it concerns is found or created in the central branch tracking and
 * marked as having an active agent session, and the session is logged.  The
 * session id and the clock are parameters.
 */
module AgentSessionTrigger {
  import opened Wrappers
  import opened Seqs
  import opened JsString
  import opened BranchTracking

  /** `AGENT_CONFIG[agent]?.capabilities`: the capabilities of the seven configured agents. */
  function Capabilities(agent: string): Option<seq<string>>
  {
    if agent == "vibe-coder" then Some(["code-review", "refactoring", "documentation", "workflow-automation"])
    else if agent == "react-dev" then Some(["react", "typescript", "frontend", "ui-components"])
    else if agent == "svelte-dev" then Some(["svelte", "frontend", "ui-components"])
    else if agent == "laravel-dev" then Some(["laravel", "php", "backend", "api"])
    else if agent == "node-dev" then Some(["nodejs", "javascript", "backend", "api"])
    else if agent == "devops" then Some(["docker", "ci-cd", "infrastructure", "security"])
    else if agent == "docs-orchestrator" then Some(["documentation", "markdown", "api-docs"])
    else None
  }

  /** The options the script is started with; all but the issue are required by its entry point. */
  datatype TriggerOptions = TriggerOptions(
    repository: string,
    branch: string,
    agent: string,
    issue: Option<string>,
    feedbackId: string,
    priority: string)

  datatype FeedbackContext = FeedbackContext(feedbackId: string, priority: string, source: string)

  datatype SessionContext = SessionContext(
    sessionId: string,
    createdAt: int,
    repository: string,
    branch: string,
    issueNumber: Option<string>,
    feedbackId: string,
    priority: string,
    assignedAgent: string,
    agentCapabilities: seq<string>,
    sessionType: string,
    autoStarted: bool,
    expectedDuration: string,
    taskDescription: string,
    relatedIssue: Option<string>,
    feedbackContext: FeedbackContext)

  /** `createSessionContext` with the generated id and the clock reading given. */
  function CreateSessionContext(o: TriggerOptions, sessionId: string, now: int): (c: SessionContext)
    ensures c.repository == o.repository && c.branch == o.branch && c.assignedAgent == o.agent
    ensures c.feedbackId == o.feedbackId && c.priority == o.priority && c.issueNumber == o.issue
    ensures c.expectedDuration == (if o.priority == "critical" then "2-4 hours" else "1-2 hours")
    ensures Truthy(o.issue) ==> c.relatedIssue == Some(o.repository + "#" + o.issue.value)
    ensures !Truthy(o.issue) ==> c.relatedIssue.None?
    ensures Capabilities(o.agent).None? ==> c.agentCapabilities == []
    ensures Capabilities(o.agent).Some? ==> c.agentCapabilities == Capabilities(o.agent).value
  {
    SessionContext(
      sessionId, now, o.repository, o.branch, o.issue, o.feedbackId, o.priority, o.agent,
      Capabilities(o.agent).GetOr([]),
      "gemini-triggered", true,
      if o.priority == "critical" then "2-4 hours" else "1-2 hours",
      "Address Gemini Code Review feedback in " + o.repository + "/" + o.branch,
      if Truthy(o.issue) then Some(o.repository + "#" + o.issue.value) else None,
      FeedbackContext(o.feedbackId, o.priority, "gemini-code-review"))
  }

  // ---------------------------------------------------------------------------------------------
  // Branch tracking

  /** `repository.split('/')[1]`: the second segment, or the key `undefined` when there is none. */
  function RepoKey(repository: string): string
  {
    var parts := Split(repository, '/');
    if |parts| > 1 then parts[1] else "undefined"
  }

  /** `owner/name` is tracked under `name`. */
  lemma RepoKeyOfOwnerAndName(owner: string, name: string)
    requires '/' !in owner && '/' !in name
    ensures RepoKey(owner + "/" + name) == name
  {
    SplitFirst(owner, '/', name);
    assert Split(name, '/') == [name];
  }

  /** `owner/name/more` is tracked under `name` as well: only the second segment counts. */
  lemma RepoKeyOfLongerPath(owner: string, name: string, more: string)
    requires '/' !in owner && '/' !in name
    ensures RepoKey(owner + "/" + name + "/" + more) == name
  {
    var rest := name + "/" + more;
    assert owner + "/" + name + "/" + more == owner + ['/'] + rest;
    SplitFirst(owner, '/', rest);
    SplitFirst(name, '/', more);
  }

  /** A repository without a `/` is tracked under the key `undefined`. */
  lemma RepoKeyWithoutOwner(repository: string)
    requires '/' !in repository
    ensures RepoKey(repository) == "undefined"
  {
  }

  /** The entry created for a branch the tracking does not know yet. */
  function SessionBranch(c: SessionContext, now: int): (b: Branch)
    ensures b.name == c.branch && b.status == "agent-assigned" && b.author == Some("gemini-integration")
    ensures b.issues == (if Truthy(c.relatedIssue) then [c.relatedIssue.value] else [])
  {
    Branch(c.branch, Some("gemini-integration"), now, now, None, "agent-assigned", None, c.assignedAgent, [],
           "https://github.com/" + c.repository + "/tree/" + c.branch,
           if Truthy(c.relatedIssue) then [c.relatedIssue.value] else [], None)
  }

  /** The branch marked as having the agent session: the related issue is added only if absent. */
  function WithSession(b: Branch, c: SessionContext, now: int): (r: Branch)
    ensures r.name == b.name && r.created == b.created && r.worktree == b.worktree && r.taskGroup == b.taskGroup
    ensures r.status == "agent-session-active" && r.agent == c.assignedAgent && r.lastActivity == now
    ensures r.geminiFeedback == Some(FeedbackLink(c.feedbackId, c.priority, c.sessionId, c.createdAt))
  {
    b.(lastActivity := now, agent := c.assignedAgent, status := "agent-session-active",
       geminiFeedback := Some(FeedbackLink(c.feedbackId, c.priority, c.sessionId, c.createdAt)),
       issues := if Truthy(c.relatedIssue) && c.relatedIssue.value !in b.issues then b.issues + [c.relatedIssue.value]
                 else b.issues)
  }

  /** The repository's list after `updateBranchTracking`: the named branch is updated where it is, or appended. */
  function SessionList(list: seq<Branch>, c: SessionContext, now: int): seq<Branch>
  {
    var i := FindIndex(list, c.branch);
    if i >= 0 then list[i := WithSession(list[i], c, now)]
    else list + [WithSession(SessionBranch(c, now), c, now)]
  }

  /**
   * The branch is reused when the list has it and created otherwise; either
   * way the first entry of that name now carries the session, and no other
   * entry changes.
   */
  lemma SessionListReusesOrCreates(list: seq<Branch>, c: SessionContext, now: int)
    ensures var r := SessionList(list, c, now);
      && |r| == (if FindIndex(list, c.branch) >= 0 then |list| else |list| + 1)
      && FindIndex(r, c.branch) >= 0
      && r[FindIndex(r, c.branch)].status == "agent-session-active"
      && r[FindIndex(r, c.branch)].agent == c.assignedAgent
      && forall k | 0 <= k < |list| && k != FindIndex(list, c.branch) :: r[k] == list[k]
  {
    var i := FindIndex(list, c.branch);
    var r := SessionList(list, c, now);
    if i < 0 {
      assert r[|list|].name == c.branch;
      assert FindIndex(r, c.branch) == |list|;
    } else {
      assert r[i].name == c.branch;
      assert forall k | 0 <= k < i :: r[k].name != c.branch;
      assert FindIndex(r, c.branch) == i;
    }
  }

  /** Adding the related issue only when it is absent keeps a branch's issues free of duplicates. */
  lemma SessionKeepsIssuesDistinct(b: Branch, c: SessionContext, now: int)
    requires NoDuplicates(b.issues)
    ensures NoDuplicates(WithSession(b, c, now).issues)
    ensures NoDuplicates(WithSession(SessionBranch(c, now), c, now).issues)
    ensures Truthy(c.relatedIssue) ==> c.relatedIssue.value in WithSession(b, c, now).issues
  {
  }

  /**
   * `updateBranchTracking`: the one document it writes is `active-branches.json`;
   * a failed write is only logged, so with `saveOk` false the file is as it was.
   */
  method UpdateBranchTracking(files: TrackingFiles, c: SessionContext, now: int, saveOk: bool) returns (r: Outcome)
    modifies files
    ensures r != Skipped
    ensures r == Threw <==> Lookup(old(files.branches), RepoKey(c.repository)) == NotAList
    ensures r == Threw || !saveOk ==> unchanged(files)
    ensures r == Saved && saveOk ==>
      files.branches == Some(old(files.branches).GetOr(map[])[RepoKey(c.repository) :=
        Listed(SessionList(ListOrEmpty(old(files.branches), RepoKey(c.repository)), c, now))])
    ensures r == Saved && saveOk ==>
      files.lastUpdated == Some(now) && files.generatedBy == Some("Gemini Integration - Agent Session Trigger")
    ensures files.taskGroups == old(files.taskGroups) && files.recentMerges == old(files.recentMerges)
    ensures files.eligibleForCleanup == old(files.eligibleForCleanup)
  {
    var key := RepoKey(c.repository);
    var found := Lookup(files.branches, key);
    if found.NotAList? {
      return Threw;
    }
    var list := ListOrEmpty(files.branches, key);
    var i := FindIndex(list, c.branch);
    if i >= 0 {
      list := list[i := WithSession(list[i], c, now)];
    } else {
      list := list + [WithSession(SessionBranch(c, now), c, now)];
    }
    if saveOk {
      files.branches := Some(files.branches.GetOr(map[])[key := Listed(list)]);
      files.lastUpdated := Some(now);
      files.generatedBy := Some("Gemini Integration - Agent Session Trigger");
    }
    r := Saved;
  }

  // ---------------------------------------------------------------------------------------------
  // Session log

  const SessionHistoryLimit := 50

  /** A history entry: the session context with the status `triggered`. */
  datatype HistoryEntry = HistoryEntry(session: SessionContext, status: string)

  /** What `agent-sessions.json` holds; missing lists are empty and a missing count is 0. */
  class AgentSessionsLog {
    var activeSessions: seq<SessionContext>
    var sessionHistory: seq<HistoryEntry>
    var lastUpdated: Option<int>
    var totalSessions: int

    constructor()
      ensures activeSessions == [] && sessionHistory == [] && lastUpdated.None? && totalSessions == 0
    {
      activeSessions, sessionHistory, lastUpdated, totalSessions := [], [], None, 0;
    }

    /** `logAgentSession`: appended to the active sessions, first in a history of at most fifty, counted. */
    /** A failed `saveJSON` is only logged, so with `saveOk` false the file keeps its contents. */
    method LogAgentSession(c: SessionContext, now: int, saveOk: bool)
      modifies this
      ensures saveOk ==> activeSessions == old(activeSessions) + [c]
      ensures saveOk ==>
        sessionHistory == PushFrontCapped(old(sessionHistory), HistoryEntry(c, "triggered"), SessionHistoryLimit)
      ensures saveOk ==> totalSessions == old(totalSessions) + 1 && lastUpdated == Some(now)
      ensures !saveOk ==> unchanged(this)
    {
      if !saveOk {
        return;
      }
      var history := [HistoryEntry(c, "triggered")] + sessionHistory;
      if |history| > SessionHistoryLimit {
        history := history[..SessionHistoryLimit];
      }
      activeSessions := activeSessions + [c];
      sessionHistory := history;
      lastUpdated := Some(now);
      totalSessions := totalSessions + 1;
    }
  }

  /** A history that starts within the limit stays within it, newest session first. */
  lemma HistoryBounded(history: seq<HistoryEntry>, c: SessionContext)
    requires |history| <= SessionHistoryLimit
    ensures var h := PushFrontCapped(history, HistoryEntry(c, "triggered"), SessionHistoryLimit);
      |h| <= SessionHistoryLimit && h[0].session == c
      && (|history| < SessionHistoryLimit ==> h[1..] == history)
  {
  }

  // ---------------------------------------------------------------------------------------------
  // Agent instructions

  /** The three "Priority Guidelines" sections of the task file. */
  datatype Guidelines = CriticalGuidelines | HighGuidelines | StandardGuidelines

  /** The parts of `generateAgentInstructions` that depend on the session: the issue line and the guidelines. */
  datatype Instructions = Instructions(issueLine: Option<string>, guidelines: Guidelines)

  function GenerateAgentInstructions(c: SessionContext): (r: Instructions)
    ensures r.guidelines == CriticalGuidelines <==> c.priority == "critical"
    ensures r.guidelines == HighGuidelines <==> c.priority == "high"
    ensures Truthy(c.relatedIssue) <==> r.issueLine.Some?
  {
    Instructions(
      if Truthy(c.relatedIssue) then Some("- **GitHub Issue**: " + c.relatedIssue.value) else None,
      if c.priority == "critical" then CriticalGuidelines
      else if c.priority == "high" then HighGuidelines
      else StandardGuidelines)
  }

  /**
   * For a context built by `createSessionContext`, the task file shows the
   * critical guidelines exactly when the session is expected to take two to
   * four hours, and links an issue exactly when one was given.
   */
  lemma InstructionsFollowContext(o: TriggerOptions, sessionId: string, now: int)
    ensures var c := CreateSessionContext(o, sessionId, now);
      && (GenerateAgentInstructions(c).guidelines == CriticalGuidelines <==> c.expectedDuration == "2-4 hours")
      && (GenerateAgentInstructions(c).issueLine.Some? <==> Truthy(o.issue))
  {
  }
}
