# tuvens-docs agentic-development scripts, modelled in Dafny

This project models the deterministic core of the `agentic-development/scripts`
tooling of tuvens-docs. These Node.js scripts coordinate parallel agent
"sub-sessions" and the bookkeeping around them. Each script has one Dafny module:

- `SubSessionManager` (`sub_session_manager.dfy`), for `sub-session-manager.js`: the sub-session registry as a class `Registry`: sessions, advisory read/write/exclusive file locks with co-readers, permission requests with auto-approval, a lock history capped at 100, first-match access checks.
- `CoordinationManager` (`coordination_manager.dfy`), for `coordination-manager.js`: conflict detection over the registry, resolution suggestions, auto-resolution, recommendations, health scoring, and the coordination records and their log (class `CoordinationLog`).
- `ClaudeAccessValidator` (`claude_access_validator.dfy`), for `claude-access-validator.js`: path extraction per operation and the per-path validation loop that consults the access check and takes write locks.
- `SubSessionIntegration` (`sub_session_integration.dfy`), for `sub-session-integration.js`: the threshold recommendations and quick actions.
- `AgentResolution` (`agent_resolver.dfy`), for `pattern-recognition/agent-resolver.js`: the agent database, its lookup maps, the strategy ladder of `resolveAgent`, the Levenshtein matrix, suggestions.
- `ResolverExamples` (`resolver_examples.dfy`), for `pattern-recognition/test-suite.js`, `agent-resolver.js`: the resolutions the project's own tests expect of the database.
- `PatternMatcher` (`pattern_matcher.dfy`), for `pattern-recognition/pattern-matcher.js`: agent-name resolution, pattern ordering, result construction.
- `ContextExtractor` (`context_extractor.dfy`), for `pattern-recognition/context-extractor.js`: message windows, priority, task ordering and confidence, entity classes, titles, context combination.
- `ConfirmationHandler` (`confirmation_handler.dfy`), for `pattern-recognition/confirmation-handler.js`: the confirmation-response state machine, template choice, interpolation, clarification, the standard command.
- `SessionOrchestration` (`session_orchestrator.dfy`), for `pattern-recognition/session-orchestrator.js`: the orchestrator's conversation window and pending confirmation (class `SessionOrchestrator`) and the decision flow of `processInput`.
- `GeminiFeedback` (`gemini_feedback.dfy`), for `process-gemini-feedback.js`: feedback categories, priorities, agent rules, actions, the feedback log capped at 100 (class `FeedbackLog`).
- `AgentSessionTrigger` (`trigger_agent_session.dfy`), for `trigger-agent-session.js`: session context, branch tracking update, the session log capped at 50.
- `BranchTracking` (`update_branch_tracking.dfy`), for `update-branch-tracking.js`: branch created, merged and deleted events on the tracking files (class `TrackingFiles`).
- `BranchDeduplication` (`deduplicate_branches.dfy`), for `deduplicate-branches.js`: deduplication of branch lists by name, keeping the latest, and portable worktree paths.
- `ScriptUtils` (`utils.dfy`), for `utils.js`: argument parsing and validation, the tracking directory.
- `ReferenceScanner` (`file_reference_scanner.dfy`), for `file-reference-scanner.js`: skip and script tests, expected test paths, line numbers, reference types, the scan counters (class `Scanner`), issue titles.
- `DocTree` (`generate_doc_tree.dfy`), for `generate-doc-tree.js`: directory and file filters, tree pruning and ordering, the ASCII rendering, summary counts (class `Stats`).
- `JsString`, `NodePath`, `Wrappers`, `Seqs`: the JavaScript string operations (`includes`, `indexOf`, `split`, `replace`, `trim`, `toLowerCase`), Node's `path` functions, `Option`/`Result` and sequence helpers.

Modelling choices that apply throughout:

- A script's JSON document is an in-memory value. Where a script updates it in place, it is the field of a class, and the methods change it as the script does. A `loadJSON` is a snapshot of the field; a `saveJSON` writes a whole copy back. This keeps the place where `endSubSession` writes back an old snapshot visible.
- Every `saveJSON` of a modelled operation has a boolean parameter saying whether the write succeeds, one per file written (`BranchTracking.Writes` for the four tracking files). The scripts catch a failed write and only log it, so that file keeps its old contents and the operation carries on. The clock (`Date.now()`, `new Date()`) is an integer parameter `now`, and the 30-minute, 2-hour and 4-hour windows are comparisons on it. Random identifiers are parameters.
- `String.prototype.includes` is sequence infix (`JsString.Includes`), exactly.
- Regular expressions that recognise natural language or extract references are function parameters: the model proves what the code does with their results, not what they match. Suffix and substring regexes are modelled directly.
- Confidences and ratios are exact reals. At the fuzzy-match threshold, where the program's double rounding decides the outcome, the model follows the double result; the other places where rounding matters are listed under "## Left out".
- `async` methods are modelled synchronously.

## Model

| member | source | states |
|---|---|---|
| SubSessionManager.AddLockHistory | agentic-development/scripts/sub-session-manager.js:91-104 | the new entry goes first, the previous entries follow in order, and the list is cut to the newest 100 |
| SubSessionManager.AddAllKeepsNewest | agentic-development/scripts/sub-session-manager.js:91-104 | however many entries are added, the history is the newest 100 of all entries ever added, newest first |
| SubSessionManager.CheckAutoApprovalRules | agentic-development/scripts/sub-session-manager.js:217-252 | `safe-read-path` is granted exactly for file-access requests whose resource contains a safe read path, `safe-documentation-write` exactly for those containing a safe write path; no other rule and no rule twice |
| SubSessionManager.DocsPathApprovedTwice | agentic-development/scripts/sub-session-manager.js:221-248 | a resource under `/docs/` is approved by both rules, the read rule first |
| SubSessionManager.CheckFileAccess | agentic-development/scripts/sub-session-manager.js:374-418 | access is allowed exactly when the session exists, no denied path matches, and an allowed path matches or the mode is expanded and no critical path matches; unknown sessions and denied paths get their own reasons |
| SubSessionManager.NewRequest | agentic-development/scripts/sub-session-manager.js:176-198 | a request is approved exactly for a file-access request on a safe read or write path, and then answered by the auto-approval system; otherwise it is pending and unanswered |
| SubSessionManager.ApprovedRequestGrantsAccess | agentic-development/scripts/sub-session-manager.js:194-201 | after an auto-approved request, every path containing the resource is accessible unless a denied path matches |
| SubSessionManager.AcquireOutcome | agentic-development/scripts/sub-session-manager.js:257-312 | on an unlocked path the lock is taken exactly when the write succeeds, then owned by the session and recorded in its acquisitions, and otherwise nothing changes; on a locked path the read is shared exactly when both locks are reads, adding the session to the co-readers and the path to its acquisitions when the write succeeds; every other request conflicts, naming the holder and its lock type, and changes nothing |
| SubSessionManager.ReleasedLock | agentic-development/scripts/sub-session-manager.js:331-352 | what is left of the lock no longer names the session and names no one new; an owner without co-readers removes it; a departing owner hands it to the first remaining co-reader; a co-reader's departure only removes it from the co-readers |
| SubSessionManager.ReleaseOutcome | agentic-development/scripts/sub-session-manager.js:317-369 | "File not locked" exactly when there is no lock; any other failure is "Lock not owned by this session"; success exactly when the session holds the lock and the write succeeds; on success the path leaves the session's acquisitions; other locks are unchanged; a failure changes nothing |
| SubSessionManager.ExpiredRequests | agentic-development/scripts/sub-session-manager.js:441-448 | the registry keeps its ids and no request of the session is still pending |
| SubSessionManager.CreatePreservesLocksRecorded | agentic-development/scripts/sub-session-manager.js:109-162 | creating a session keeps every lock holder a live session that lists the path |
| SubSessionManager.RequestPreservesLocksRecorded | agentic-development/scripts/sub-session-manager.js:167-212 | a permission request keeps every lock holder a live session that lists the path |
| SubSessionManager.AcquirePreservesLocksRecorded | agentic-development/scripts/sub-session-manager.js:257-312 | acquiring a lock keeps every lock holder a live session that lists the path |
| SubSessionManager.ReleasePreservesLocksRecorded | agentic-development/scripts/sub-session-manager.js:317-369 | releasing a lock keeps every lock holder a live session that lists the path |
| SubSessionManager.ReleaseAllDropsPaths | agentic-development/scripts/sub-session-manager.js:432-439 | after releasing a list of paths with every write succeeding, the session holds only locks it held before, on paths outside the list |
| SubSessionManager.ReleaseAllKeepsLocksRecorded | agentic-development/scripts/sub-session-manager.js:432-439 | releasing a list of paths keeps every lock holder a live session that lists the path |
| SubSessionManager.EndAfterReleasesKeepsLocksRecorded | agentic-development/scripts/sub-session-manager.js:423-463 | ending a session on the document as its releases left it leaves no lock naming the session and keeps the invariant |
| SubSessionManager.EndFromStaleSnapshotLeavesLocks | agentic-development/scripts/sub-session-manager.js:424-455 | as written, the final write stores the copy loaded before the releases, so a lock the session held survives while the session is gone and the invariant breaks |
| SubSessionManager.AddLockHistoryKeepsNoConflict | agentic-development/scripts/sub-session-manager.js:91-104 | adding an entry that is not a conflict keeps the history free of conflict entries |
| SubSessionManager.AcquireNeverRecordsConflicts | agentic-development/scripts/sub-session-manager.js:280-287 | no outcome of `acquireFileLock` writes a `lock-conflict` entry: the conflict branch returns without saving |
| SubSessionManager.ReleaseNeverRecordsConflicts | agentic-development/scripts/sub-session-manager.js:317-369 | releasing never writes a `lock-conflict` entry |
| SubSessionManager.AcquireOutcomeLogged | agentic-development/scripts/sub-session-manager.js:280-287 | with the conflict branch saving its copy, the result is unchanged, every other branch is as written, and a successful write puts the `lock-conflict` entry first without touching locks or sessions |
| SubSessionManager.ConflictEntries | agentic-development/scripts/sub-session-manager.js:498-506 | exactly the history entries whose action is `lock-conflict` |
| SubSessionManager.WithPath | agentic-development/scripts/sub-session-manager.js:501-504 | exactly the entries about the path |
| SubSessionManager.GroupByPath | agentic-development/scripts/sub-session-manager.js:498-506 | the distinct paths in order of first appearance, and for each path all its entries in order, never empty |
| SubSessionManager.ExpireRequests | agentic-development/scripts/sub-session-manager.js:441-448 | the expiry loop computes `ExpiredRequests` |
| SubSessionManager.SessionSummaries | agentic-development/scripts/sub-session-manager.js:481-495 | one summary per listed session, in listing order |
| SubSessionManager.ConflictSummaries | agentic-development/scripts/sub-session-manager.js:497-517 | one summary per distinct conflicting path, in order of the path's first conflict entry, each over all that path's entries |
| SubSessionManager.SummarizeGroups | agentic-development/scripts/sub-session-manager.js:508-517 | one summary per grouped path, in order |
| SubSessionManager.Registry.constructor | agentic-development/scripts/sub-session-manager.js:70-79 | a missing file reads as the default document |
| SubSessionManager.Registry.Save | agentic-development/scripts/sub-session-manager.js:58-68 | a successful write stores the copy stamped with the time; a failed one leaves the file as it was |
| SubSessionManager.Registry.CreateSubSession | agentic-development/scripts/sub-session-manager.js:109-162 | missing agents fail with the source's message and change nothing; otherwise the new session is written with no locks or requests and the given paths, and the id is returned only when the write succeeds |
| SubSessionManager.Registry.RequestPermission | agentic-development/scripts/sub-session-manager.js:167-212 | an unknown session fails and changes nothing; otherwise the request is recorded and the result reports auto-approval only when the write succeeds |
| SubSessionManager.Registry.AcquireFileLock | agentic-development/scripts/sub-session-manager.js:257-312 | an unknown session fails and changes nothing; otherwise the file and the result are `AcquireOutcome` |
| SubSessionManager.Registry.ReleaseFileLock | agentic-development/scripts/sub-session-manager.js:317-369 | an unknown session fails and changes nothing; otherwise the file and the result are `ReleaseOutcome` |
| SubSessionManager.Registry.ReleaseEach | agentic-development/scripts/sub-session-manager.js:432-439 | each release reloads and writes the file; the file and the released paths are `ReleaseAll` |
| SubSessionManager.Registry.EndSubSession | agentic-development/scripts/sub-session-manager.js:423-463 | an unknown session fails with "Session not found"; otherwise the releases happen and then the stale copy is written, so a successful end leaves the lock table as it was before the call |
| SubSessionManager.Registry.EndSubSessionReloaded | agentic-development/scripts/sub-session-manager.js:423-463 | with the final step applied to the reloaded document, the invariant holds afterwards and no lock names the ended session |
| SubSessionManager.Registry.GetSystemStatus | agentic-development/scripts/sub-session-manager.js:468-520 | the counts of sessions, locks and pending requests, one summary per session in listing order, the newest 10 history entries, and one conflict summary per distinct conflicting path |
| CoordinationManager.SuggestFileLockResolution | agentic-development/scripts/coordination-manager.js:236-273 | coordinate exactly for documentation paths (`/docs/` or `.md`), partition exactly for other paths with a source-code suffix, sequential exactly for the rest |
| CoordinationManager.RecentConflicts | agentic-development/scripts/coordination-manager.js:129-133 | exactly the history entries that are `lock-conflict` entries of the last 30 minutes |
| CoordinationManager.CurrentHolder | agentic-development/scripts/coordination-manager.js:149-156 | a holder exactly when the path has a lock with a non-empty `lockedBy` |
| CoordinationManager.ConflictPaths | agentic-development/scripts/coordination-manager.js:135-146 | exactly the paths of recent conflict entries, each once, each with at least one entry |
| CoordinationManager.FileLockReportContents | agentic-development/scripts/coordination-manager.js:147-159 | a report counts the path's recent conflict entries, names each session with such an entry exactly once, dates from the newest and gives the current holder |
| CoordinationManager.FileLockConflicts | agentic-development/scripts/coordination-manager.js:126-163 | one file-lock report per recently contested path, in order |
| CoordinationManager.DetectFileLockConflicts | agentic-development/scripts/coordination-manager.js:126-163 | the filtering, grouping and reporting loop computes `FileLockConflicts` |
| CoordinationManager.ReportGroups | agentic-development/scripts/coordination-manager.js:146-160 | the loop over the groups makes one report per path, in order |
| CoordinationManager.FileLockConflictReported | agentic-development/scripts/coordination-manager.js:126-163 | a path is reported if and only if the history has a recent conflict entry for it |
| CoordinationManager.NoConflictEntriesNoReports | agentic-development/scripts/coordination-manager.js:129-133 | a document with no `lock-conflict` entry gives no file-lock report |
| CoordinationManager.ConflictNeverReported | agentic-development/scripts/coordination-manager.js:129-133 | as written, a refused acquisition on such a document still leaves nothing to report |
| CoordinationManager.LoggedConflictReported | agentic-development/scripts/coordination-manager.js:126-163 | when the refused acquisition's entry is written, the path is reported and names the refused session |
| CoordinationManager.OnBranch | agentic-development/scripts/coordination-manager.js:172-180 | exactly the listed sessions whose parent branch is the given one |
| CoordinationManager.OthersOnBranch | agentic-development/scripts/coordination-manager.js:177-181 | exactly the other listed sessions on the same parent branch |
| CoordinationManager.Primaries | agentic-development/scripts/coordination-manager.js:171-193 | exactly the sessions that share their parent branch with another session |
| CoordinationManager.OverlappingSessions | agentic-development/scripts/coordination-manager.js:177-181 | the inner filter computes `OthersOnBranch` |
| CoordinationManager.DetectBranchConflicts | agentic-development/scripts/coordination-manager.js:168-196 | the loop computes `BranchConflicts` |
| CoordinationManager.OthersCount | agentic-development/scripts/coordination-manager.js:177-190 | a session on a branch shared by k sessions lists k - 1 others |
| CoordinationManager.PrimariesOnBranch | agentic-development/scripts/coordination-manager.js:168-196 | every session on a branch is reported when at least two share it, and none when one is alone |
| CoordinationManager.SharedBranchReports | agentic-development/scripts/coordination-manager.js:168-196 | k sessions sharing a parent branch give k reports in listing order, each naming the other k - 1 |
| CoordinationManager.BranchReportsCount | agentic-development/scripts/coordination-manager.js:184-190 | every report for a branch lists one session fewer than the branch has |
| CoordinationManager.ContentionReports | agentic-development/scripts/coordination-manager.js:215-228 | only keys counted more than three times are reported, each as an escalation |
| CoordinationManager.DetectResourceContention | agentic-development/scripts/coordination-manager.js:201-231 | the counting and reporting loops compute `ResourceContentions` |
| CoordinationManager.ReportCounts | agentic-development/scripts/coordination-manager.js:215-228 | the loop over the counts computes `ContentionReports` |
| CoordinationManager.ContentionReportsSound | agentic-development/scripts/coordination-manager.js:215-228 | every report is for a key counted more than three times, with its count |
| CoordinationManager.ContentionReportsComplete | agentic-development/scripts/coordination-manager.js:215-228 | every key counted more than three times is reported |
| CoordinationManager.ContentionKeyPieces | agentic-development/scripts/coordination-manager.js:208-217 | the report names the request's session and the resource up to its first `:` |
| CoordinationManager.ContentionTruncates | agentic-development/scripts/coordination-manager.js:217 | a resource `a:b` is reported as `a` |
| CoordinationManager.DetectConflicts | agentic-development/scripts/coordination-manager.js:103-121 | file-lock conflicts, then branch conflicts, then resource contention |
| CoordinationManager.AutoResolve | agentic-development/scripts/coordination-manager.js:309-339 | an access approval exactly for contention on a documentation path, a split exactly for a file-lock conflict on a `.md` path |
| CoordinationManager.AutoResolveConflicts | agentic-development/scripts/coordination-manager.js:309-339 | exactly the resolutions of the conflicts that have one |
| CoordinationManager.SplitOfMarkdownFile | agentic-development/scripts/coordination-manager.js:357-368 | `a.md` splits into `a-section-1.md` and `a-section-2.md` |
| CoordinationManager.ThresholdRecommendations | agentic-development/scripts/coordination-manager.js:405-433 | performance exactly above 10 locks, access control exactly above 5 pending requests, conflicts exactly when there is one |
| CoordinationManager.SessionRecommendations | agentic-development/scripts/coordination-manager.js:435-449 | one medium session-management recommendation per session running for more than four hours |
| CoordinationManager.Recommendations | agentic-development/scripts/coordination-manager.js:402-452 | each category appears exactly under its threshold, and the session recommendations come last |
| CoordinationManager.OtherCategoryKept | agentic-development/scripts/coordination-manager.js:435-449 | the per-session recommendations do not change which other categories are present |
| CoordinationManager.GenerateRecommendations | agentic-development/scripts/coordination-manager.js:402-452 | the threshold checks and the session loop compute `Recommendations` |
| CoordinationManager.StaleCount | agentic-development/scripts/coordination-manager.js:478-484 | zero exactly when no session has been idle for more than two hours |
| CoordinationManager.AssessSystemHealth | agentic-development/scripts/coordination-manager.js:457-495 | the score is the raw score clamped at zero and at most 100; healthy above 80, warning above 60, critical otherwise; recommendations exactly below 80; issues exactly below 100 |
| CoordinationManager.CoordinationLog.AddCoordinationLog | agentic-development/scripts/coordination-manager.js:72-94 | the entry goes first and the log keeps its newest 200 entries; a failed write changes nothing |
| CoordinationManager.FirstMissing | agentic-development/scripts/coordination-manager.js:504-509 | none exactly when every id has a session; otherwise the first id without one |
| CoordinationManager.FindMissing | agentic-development/scripts/coordination-manager.js:504-509 | the validation loop computes `FirstMissing` |
| CoordinationManager.WithCoordinationAppends | agentic-development/scripts/coordination-manager.js:523-528 | a participant listed n times gets the id n more times at the end of its list, and nothing else of it changes |
| CoordinationManager.AddCoordination | agentic-development/scripts/coordination-manager.js:523-528 | the loop computes `WithCoordination` |
| CoordinationManager.Coordinated | agentic-development/scripts/coordination-manager.js:511-535 | a new active coordination among the ids, each participant lists it, other sessions, coordinations, locks, requests and history unchanged |
| CoordinationManager.Messaged | agentic-development/scripts/coordination-manager.js:565-573 | the message is appended to that coordination's messages; status and other coordinations unchanged |
| CoordinationManager.ResolvedIn | agentic-development/scripts/coordination-manager.js:595-601 | the coordination becomes resolved with the new resolution; other coordinations unchanged |
| CoordinationManager.ResolvedStaysResolved | agentic-development/scripts/coordination-manager.js:500-612 | a resolved coordination stays resolved under messages, resolutions and new coordinations: nothing sets it back to active |
| CoordinationManager.CoordinateSessions | agentic-development/scripts/coordination-manager.js:500-547 | an unknown id fails with its message and changes nothing; otherwise the document becomes `Coordinated`, saved as the write allows, and the log gains its entry |
| CoordinationManager.FirstMissingAt | agentic-development/scripts/coordination-manager.js:504-509 | the first id without a session is the one reported |
| CoordinationManager.SendCoordinationMessage | agentic-development/scripts/coordination-manager.js:552-583 | an unknown coordination or a sender outside it fails with its message and changes nothing; otherwise the message is appended, even after resolution |
| CoordinationManager.ResolveCoordination | agentic-development/scripts/coordination-manager.js:588-612 | an unknown coordination fails and changes nothing; otherwise it becomes resolved, overwriting any earlier resolution, and the log gains its entry |
| ClaudeAccessValidator.ExtractFilePaths | agentic-development/scripts/claude-access-validator.js:42-76 | the file path for read, write, create and edit, the path for glob, the extracted paths for bash, each only when given, and nothing for any other operation |
| ClaudeAccessValidator.PermissionRequestSuggestion | agentic-development/scripts/claude-access-validator.js:183-191 | the suggested command asks for `file-access` to the path on behalf of the session, whatever the operation |
| ClaudeAccessValidator.ValidatePaths | agentic-development/scripts/claude-access-validator.js:124-177 | the loop never answers as for the main agent, a non-writing operation leaves the registry as it was, and only a writing operation can be refused for a lock conflict |
| ClaudeAccessValidator.ValidateOperation | agentic-development/scripts/claude-access-validator.js:110-178 | the registry and the answer are those `ValidateOutcome` gives for the registry before the call |
| ClaudeAccessValidator.CheckPaths | agentic-development/scripts/claude-access-validator.js:124-170 | the loop over the extracted paths computes `ValidatePaths` from an empty list and no lock acquired |
| ClaudeAccessValidator.CheckPath | agentic-development/scripts/claude-access-validator.js:124-169 | one pass either ends the loop with the refusal `ValidatePaths` gives or goes on with the remaining paths, the flag and the list `ValidatePaths` goes on with |
| ClaudeAccessValidator.AcquireKeepsAccess | agentic-development/scripts/claude-access-validator.js:141-146 | acquiring a lock changes no access decision |
| ClaudeAccessValidator.ValidatePathsStep | agentic-development/scripts/claude-access-validator.js:124-167 | a refused path ends the loop with an access refusal for that path; an allowed one, unless its lock conflicts, is listed and the loop goes on from the registry after its lock |
| ClaudeAccessValidator.ValidatedPathsAllowed | agentic-development/scripts/claude-access-validator.js:131-138 | a validated operation had every path allowed by the access check |
| ClaudeAccessValidator.ValidatedPathsListed | agentic-development/scripts/claude-access-validator.js:163-176 | a validated operation lists every path, made absolute, in input order, with the operation |
| ClaudeAccessValidator.FirstRefusedPath | agentic-development/scripts/claude-access-validator.js:131-138 | an access refusal names the first refused path, every earlier path having been allowed; later paths are not checked |
| ClaudeAccessValidator.NonWritingOperationKeepsRegistry | agentic-development/scripts/claude-access-validator.js:141 | read, glob, bash and unhandled operations never change the registry |
| ClaudeAccessValidator.UnhandledOperationAllowed | agentic-development/scripts/claude-access-validator.js:42-76 | with a session, an operation the extraction does not handle, such as `delete`, is allowed with no path and no lock |
| ClaudeAccessValidator.MainAgentUnrestricted | agentic-development/scripts/claude-access-validator.js:111-118 | without a session id the operation is allowed and the registry is untouched |
| ClaudeAccessValidator.ReadOnlyAcquiresNothing | agentic-development/scripts/claude-access-validator.js:141-161 | a non-writing validation reports no lock acquired |
| ClaudeAccessValidator.AcquireKeepsOtherLocks | agentic-development/scripts/claude-access-validator.js:142-147 | an acquisition leaves the locks on every other path as they were |
| ClaudeAccessValidator.ValidatedWriteLocksAll | agentic-development/scripts/claude-access-validator.js:141-177 | a validated writing operation whose writes succeed holds a write lock of the session on every path, keeps every earlier lock, and reports a lock acquired exactly when there was a path |
| ClaudeAccessValidator.RepeatedWriteConflictsWithItself | agentic-development/scripts/claude-access-validator.js:141-157 | writing a path a second time is refused as a conflict with the session's own lock |
| ClaudeAccessValidator.RefusalKeepsEarlierLock | agentic-development/scripts/claude-access-validator.js:124-170 | when a later path is refused, the lock taken for an earlier path stays |
| ClaudeAccessValidator.ClaudePromptAdditions | agentic-development/scripts/claude-access-validator.js:280-311 | empty exactly for an empty session id; otherwise the notice names the session |
| SubSessionIntegration.PushIf | agentic-development/scripts/sub-session-integration.js:266-304 | one threshold check adds its area exactly when its condition holds, after the earlier areas, with the area's priority and category |
| SubSessionIntegration.SystemRecommendations | agentic-development/scripts/sub-session-integration.js:262-306 | an area is recommended exactly when its strict threshold is exceeded, in the order performance, lock contention, conflicts, permissions, at most four |
| SubSessionIntegration.ThresholdsStrict | agentic-development/scripts/sub-session-integration.js:266-296 | exactly 5 sessions, 15 locks, 3 conflicts and 8 pending requests give no recommendation |
| SubSessionIntegration.QuickActions | agentic-development/scripts/sub-session-integration.js:434-476 | session details exactly with a session, the coordination report exactly with a conflict, pending review exactly with a pending request, in that order, always ending with the clean-up |
| AgentResolution.DistAtMostLonger | agentic-development/scripts/pattern-recognition/agent-resolver.js:260-289 | the edit distance never exceeds the longer length |
| AgentResolution.DistZeroIffEqual | agentic-development/scripts/pattern-recognition/agent-resolver.js:260-289 | the edit distance is zero exactly between equal strings |
| AgentResolution.SimilarityBounds | agentic-development/scripts/pattern-recognition/agent-resolver.js:260-289 | similarity lies in [0, 1] and is 1 exactly for equal strings |
| AgentResolution.FillStep | agentic-development/scripts/pattern-recognition/agent-resolver.js:276-283 | each cell of the distance matrix is the minimum of its three neighbours' costs |
| AgentResolution.CalculateSimilarity | agentic-development/scripts/pattern-recognition/agent-resolver.js:260-289 | the matrix filled row by row gives `Similarity`, one minus the Levenshtein distance over the longer length, 1 for two empty strings, 0 when one is empty |
| AgentResolution.FillRow | agentic-development/scripts/pattern-recognition/agent-resolver.js:275-284 | one pass of the outer loop fills row i with the distances of the prefixes and changes no other row |
| AgentResolution.ValidAgentsAreTheSix | agentic-development/scripts/pattern-recognition/agent-resolver.js:328-330 | an agent is valid exactly when it is one of the six database keys |
| AgentResolution.LastOwner | agentic-development/scripts/pattern-recognition/agent-resolver.js:73-82 | an alias or shortcut table has a key exactly when some agent lists it |
| AgentResolution.Owners | agentic-development/scripts/pattern-recognition/agent-resolver.js:84-98 | a role or technology table lists an agent once per listing of the key |
| AgentResolution.SetEach | agentic-development/scripts/pattern-recognition/agent-resolver.js:75-82 | setting each lower-cased item maps it to the agent and leaves every other key as it was |
| AgentResolution.PushEach | agentic-development/scripts/pattern-recognition/agent-resolver.js:84-98 | pushing each lower-cased item adds its keys in first-insertion order and appends the agent once per listing |
| AgentResolution.SetEntry | agentic-development/scripts/pattern-recognition/agent-resolver.js:72-82 | after the sets of one more entry the table is that of the longer database prefix |
| AgentResolution.PushEntry | agentic-development/scripts/pattern-recognition/agent-resolver.js:84-98 | after the pushes of one more entry the table is that of the longer database prefix |
| AgentResolution.AgentResolver.constructor | agentic-development/scripts/pattern-recognition/agent-resolver.js:11-64 | the resolver holds the six-agent database and its four built tables |
| AgentResolution.AgentResolver.InitializeLookupMaps | agentic-development/scripts/pattern-recognition/agent-resolver.js:66-100 | every alias, shortcut, role and technology of every agent, lower-cased, is in its table: aliases and shortcuts to the last agent listing them, roles and technologies to every lister in database order |
| AgentResolution.AgentResolver.ResolveAgent | agentic-development/scripts/pattern-recognition/agent-resolver.js:107-176 | on the constructor's tables the method computes `Resolve` of the database |
| AgentResolution.InsertDesc | agentic-development/scripts/pattern-recognition/agent-resolver.js:198 | inserting into a best-first list keeps it best first and adds exactly the element |
| AgentResolution.SortDesc | agentic-development/scripts/pattern-recognition/agent-resolver.js:198 | the sort is best first and a permutation of its input |
| AgentResolution.SortHead | agentic-development/scripts/pattern-recognition/agent-resolver.js:198-199 | the stable sort puts first the earliest best-scoring element |
| AgentResolution.EntryCandidates | agentic-development/scripts/pattern-recognition/agent-resolver.js:189-193 | exactly the table keys related to the input, each with its agent list and its similarity; none exactly when no key is related |
| AgentResolution.FirstLister | agentic-development/scripts/pattern-recognition/agent-resolver.js:84-98 | the first agent in database order that lists the key |
| AgentResolution.OwnersHead | agentic-development/scripts/pattern-recognition/agent-resolver.js:84-98 | a role or technology table lists first the earliest agent naming the key |
| AgentResolution.EntryMatchBest | agentic-development/scripts/pattern-recognition/agent-resolver.js:186-228 | a role or technology match exists exactly when some key is related to the input, and names the first agent listing a best-scoring related key, its confidence that similarity capped |
| AgentResolution.CollectMatches | agentic-development/scripts/pattern-recognition/agent-resolver.js:189-193 | the loop computes `EntryCandidates` |
| AgentResolution.FindEntryMatch | agentic-development/scripts/pattern-recognition/agent-resolver.js:186-228 | the method computes `EntryMatch` |
| AgentResolution.FuzzyScanBound | agentic-development/scripts/pattern-recognition/agent-resolver.js:230-252 | no string scores above both 0.6 and the final highest similarity |
| AgentResolution.FuzzyScanBest | agentic-development/scripts/pattern-recognition/agent-resolver.js:230-252 | the fuzzy match is the earliest string of greatest similarity when that similarity is above 0.6, with three quarters of it as confidence; otherwise there is none |
| AgentResolution.FuzzyScanSnoc | agentic-development/scripts/pattern-recognition/agent-resolver.js:238-248 | one more string replaces the running best exactly when it scores above both the highest so far and 0.6 |
| AgentResolution.ScanStrings | agentic-development/scripts/pattern-recognition/agent-resolver.js:238-248 | the inner loop continues `FuzzyScan` over one agent's strings |
| AgentResolution.FindFuzzyMatch | agentic-development/scripts/pattern-recognition/agent-resolver.js:230-252 | the method computes `FuzzyScan` over every agent's strings |
| AgentResolution.RankedAgents | agentic-development/scripts/pattern-recognition/agent-resolver.js:295-301 | every agent with its similarity to the input, in database order |
| AgentResolution.SortedAgents | agentic-development/scripts/pattern-recognition/agent-resolver.js:291-313 | every sorted entry is an agent with that agent's similarity |
| AgentResolution.SuggestionsOrdered | agentic-development/scripts/pattern-recognition/agent-resolver.js:291-313 | three suggestions (fewer only for a smaller database), each an agent, most similar first |
| AgentResolution.SuggestionsTop | agentic-development/scripts/pattern-recognition/agent-resolver.js:291-313 | no agent left out of the suggestions is more similar than a suggested one |
| AgentResolution.ResolveLadder | agentic-development/scripts/pattern-recognition/agent-resolver.js:107-176 | an alias wins, then a shortcut, then a related role, then a related technology, then a fuzzy match; confidences 1.0 and 0.95, at most 0.85 and 0.80, at least 0.6 for fuzzy; no agent exactly for no match, which has confidence 0 and the suggestions |
| AgentResolution.AcceptedFuzzyAbove | agentic-development/scripts/pattern-recognition/agent-resolver.js:156-165 | an accepted fuzzy match comes from a string of greatest similarity, and that similarity is at least 0.8 |
| AgentResolution.DecideFuzzy | agentic-development/scripts/pattern-recognition/agent-resolver.js:157-165 | the ladder takes the fuzzy match only with confidence at least 0.6 and reports it unchanged |
| AgentResolution.LastOwnerListed | agentic-development/scripts/pattern-recognition/agent-resolver.js:73-82 | the agent an alias or shortcut table holds is in the database |
| AgentResolution.CandidatesListed | agentic-development/scripts/pattern-recognition/agent-resolver.js:230-252 | every fuzzy string belongs to an agent of the database |
| AgentResolution.ResolvedAgentListed | agentic-development/scripts/pattern-recognition/agent-resolver.js:107-176 | whatever strategy succeeds names an agent of the database |
| PatternMatcher.ExactAgent | agentic-development/scripts/pattern-recognition/pattern-matcher.js:182-187 | the result is absent exactly when no agent lists the name among its variations, and otherwise the canonical name of the first agent that lists it |
| PatternMatcher.PartialAgent | agentic-development/scripts/pattern-recognition/pattern-matcher.js:189-196 | the result is absent exactly when no variation contains or is contained in the name, and otherwise the first agent (in declaration order) with such a variation |
| PatternMatcher.ExactPreferred | agentic-development/scripts/pattern-recognition/pattern-matcher.js:179-199 | on the lower-cased, trimmed input an agent listing the name always wins; an overlapping variation is used only when no agent lists it; any result is a canonical name |
| PatternMatcher.Build | agentic-development/scripts/pattern-recognition/pattern-matcher.js:94-101 | the result carries the pattern's kind, the resolved agent and the kind's fixed confidence (direct 0.95, session 0.85, handoff 0.80, claude-code 0.90) |
| PatternMatcher.BuildFields | agentic-development/scripts/pattern-recognition/pattern-matcher.js:89-168 | for session, handoff and claude-code results context is needed exactly when no task was captured, and then the title is the kind's placeholder and the description empty; a direct result needs context exactly when neither title nor description was captured, and with a title alone its description is the trimmed title |
| PatternMatcher.Attempt | agentic-development/scripts/pattern-recognition/pattern-matcher.js:88-103 | one pattern yields a result exactly when it matches and its agent resolves, and that result is built from the resolved agent |
| PatternMatcher.MatchKind | agentic-development/scripts/pattern-recognition/pattern-matcher.js:86-172 | a family's result always has that family's kind |
| PatternMatcher.MatchKindFirst | agentic-development/scripts/pattern-recognition/pattern-matcher.js:86-106 | a family gives no result exactly when none of its patterns does, and otherwise the result of its first pattern that gives one |
| PatternMatcher.RecognizeInOrder | agentic-development/scripts/pattern-recognition/pattern-matcher.js:64-84 | on the trimmed input the result comes from the first family, in the order direct, session, handoff, claude-code, that has one; there is no result exactly when no family has one |
| PatternMatcher.RecognizeCleanOrder | agentic-development/scripts/pattern-recognition/pattern-matcher.js:67-83 | the same first-family ordering for an input already trimmed |
| PatternMatcher.StandardFormatSplits | agentic-development/scripts/pattern-recognition/pattern-matcher.js:266-269 | the standard `/start-session` command splits at its quotes back into the agent part, the title and the description when none of them holds a quote |
| ContextExtractor.WindowIsSuffix | agentic-development/scripts/pattern-recognition/context-extractor.js:127 | `slice(-lookbackLimit)` keeps the last `limit` messages for a positive limit, all of them for 0, and drops the first `-limit` for a negative one |
| ContextExtractor.KeepPrepared | agentic-development/scripts/pattern-recognition/context-extractor.js:128-137 | the filter keeps only messages of an included role, never more than the window, and nothing exactly when no message of the window has an included role |
| ContextExtractor.PreparedMostRecentFirst | agentic-development/scripts/pattern-recognition/context-extractor.js:125-140 | every prepared message has an included role, none is prepared exactly when the window holds none, and the newest kept message comes first |
| ContextExtractor.DeterminePriority | agentic-development/scripts/pattern-recognition/context-extractor.js:242-269 | the nested loops accumulate the weighted indicator score (urgent 4, high 3, medium 2, low 1) and the level is the score's threshold level |
| ContextExtractor.IndicatorScoreZero | agentic-development/scripts/pattern-recognition/context-extractor.js:249-259 | one message scores zero exactly when its lower-cased content includes no indicator |
| ContextExtractor.IndicatorScoreAtLeast | agentic-development/scripts/pattern-recognition/context-extractor.js:251-257 | each indicator the content includes adds at least its level's weight |
| ContextExtractor.PriorityScoreZero | agentic-development/scripts/pattern-recognition/context-extractor.js:243-261 | the total score is zero exactly when no message includes any indicator |
| ContextExtractor.PriorityLevels | agentic-development/scripts/pattern-recognition/context-extractor.js:263-266 | with no indicator the level is low (not the initial medium); one urgent indicator anywhere makes it urgent |
| ContextExtractor.PriorityScoreAtLeast | agentic-development/scripts/pattern-recognition/context-extractor.js:246-261 | the total score is at least the score of any single message |
| ContextExtractor.CategoryKeywords | agentic-development/scripts/pattern-recognition/context-extractor.js:279-289 | each category has at most five keywords, and an unknown category none |
| ContextExtractor.KeywordBoostBounds | agentic-development/scripts/pattern-recognition/context-extractor.js:292-296 | the keyword boost lies between 0 and 0.05 per keyword |
| ContextExtractor.TaskConfidenceBounds | agentic-development/scripts/pattern-recognition/context-extractor.js:271-299 | the confidence lies between 0.5 and 0.95, so the cap at 1.0 never takes effect |
| ContextExtractor.CalculateTaskConfidence | agentic-development/scripts/pattern-recognition/context-extractor.js:271-299 | the loop computes the base, the length bonuses and the keyword boosts, capped at 1.0 |
| ContextExtractor.InsertTask | agentic-development/scripts/pattern-recognition/context-extractor.js:166-171 | an insertion step of the comparator sort adds exactly the inserted match |
| ContextExtractor.SortTasks | agentic-development/scripts/pattern-recognition/context-extractor.js:166-171 | the sort is a permutation of the matches |
| ContextExtractor.TopTasksBound | agentic-development/scripts/pattern-recognition/context-extractor.js:173 | at most three tasks are kept, all of them matches, fewer only when fewer were found |
| ContextExtractor.MatchesFromGroups | agentic-development/scripts/pattern-recognition/context-extractor.js:145-163 | every match comes from a message and a pattern whose captured group is non-empty, with that pattern's category, the trimmed group as description and the confidence of the untrimmed group |
| ContextExtractor.MessageMatchesFromGroups | agentic-development/scripts/pattern-recognition/context-extractor.js:149-161 | the same for the matches of one message, which carry its index |
| ContextExtractor.MatchMessage | agentic-development/scripts/pattern-recognition/context-extractor.js:149-162 | the pattern loop over one message collects exactly that message's matches |
| ContextExtractor.ExtractTaskInformation | agentic-development/scripts/pattern-recognition/context-extractor.js:142-174 | collecting every match, sorting and keeping three gives the top three of all matches |
| ContextExtractor.ClassifyFirstApplicable | agentic-development/scripts/pattern-recognition/context-extractor.js:301-314 | the entity type is the first in order whose test the lower-cased name passes |
| ContextExtractor.JsonIsConfig | agentic-development/scripts/pattern-recognition/context-extractor.js:301-314 | a `.json` name is classified as a configuration file, not as a JavaScript file |
| ContextExtractor.ShortDescription | agentic-development/scripts/pattern-recognition/context-extractor.js:380-382 | a description over 30 characters is cut to its first 30 and ends in `...`; a shorter one is unchanged |
| ContextExtractor.UnknownCategoryTitle | agentic-development/scripts/pattern-recognition/context-extractor.js:379 | a category without a prefix of its own is titled `Work on: ` |
| ContextExtractor.CombineWithoutTasks | agentic-development/scripts/pattern-recognition/context-extractor.js:316-341 | without a task the title, category and confidence keep their defaults and the description is the placeholder, or `Work on: ` and the entity names |
| ContextExtractor.CombineWithTask | agentic-development/scripts/pattern-recognition/context-extractor.js:325-341 | with tasks the first one gives title, category and confidence, and the entity names are appended to its description unless it is the placeholder text |
| ContextExtractor.CombineNotes | agentic-development/scripts/pattern-recognition/context-extractor.js:344-357 | one note for references and one for entities, each only when there are some; the priority is the level's name |
| ContextExtractor.CombineSource | agentic-development/scripts/pattern-recognition/context-extractor.js:352-362 | the combined context comes from the conversation analysis and keeps at most three tasks |
| ContextExtractor.ExtractContext | agentic-development/scripts/pattern-recognition/context-extractor.js:84-123 | extracting calls the task and priority loops and gives the specified context |
| ContextExtractor.ExtractContextSource | agentic-development/scripts/pattern-recognition/context-extractor.js:84-123 | with no message of an included role the context is the fixed empty one (`New Task`, `medium`, `no_context`); otherwise it comes from the conversation analysis with at most three tasks |
| ConfirmationHandler.KeyPattern | agentic-development/scripts/pattern-recognition/confirmation-handler.js:337 | a placeholder is never empty and starts with `{` |
| ConfirmationHandler.InterpolateTemplate | agentic-development/scripts/pattern-recognition/confirmation-handler.js:334-341 | the loop over the variables replaces every placeholder of each variable in turn, giving the specified interpolation |
| ConfirmationHandler.InterpolateNoPlaceholder | agentic-development/scripts/pattern-recognition/confirmation-handler.js:334-341 | a template without `{` comes back unchanged whatever the variables |
| ConfirmationHandler.InterpolateOne | agentic-development/scripts/pattern-recognition/confirmation-handler.js:337-338 | a single placeholder is replaced by the rendered value and nothing else changes; a value of 0 renders as nothing |
| ConfirmationHandler.Bullets | agentic-development/scripts/pattern-recognition/confirmation-handler.js:354-359 | one bullet line per context note |
| ConfirmationHandler.GenerateErrorMessage | agentic-development/scripts/pattern-recognition/confirmation-handler.js:207-252 | the reply is always an error reply |
| ConfirmationHandler.ErrorOrder | agentic-development/scripts/pattern-recognition/confirmation-handler.js:207-252 | the error kinds are tried in order: no result, a confidence under 0.5, a suggestion list (even an empty one), else the unknown error; the invalid-agent reply carries the suggestions |
| ConfirmationHandler.ConfirmationChoice | agentic-development/scripts/pattern-recognition/confirmation-handler.js:152-199 | a missing result or agent gives the error message; otherwise the context template when context was needed and given, else the fuzzy template for a fuzzy match, else the template keyed by type with the direct one as fallback, and the data has a non-empty title and description |
| ConfirmationHandler.ClaudeCodeGetsDirectTemplate | agentic-development/scripts/pattern-recognition/confirmation-handler.js:160-167 | as written, a result of type `claude-code` finds no template under that key and gets the direct template |
| ConfirmationHandler.TemplateKeyCorrected | agentic-development/scripts/pattern-recognition/confirmation-handler.js:52 | the corrected key differs from the written one only in spelling `claude-code` as `claude_code` |
| ConfirmationHandler.EveryKindHasTemplate | agentic-development/scripts/pattern-recognition/confirmation-handler.js:343-352 | with the corrected key every kind of pattern has a template, a non-direct kind a template other than the direct one, the Claude Code kind its own template, and every kind a label of its own |
| ConfirmationHandler.ClarificationCases | agentic-development/scripts/pattern-recognition/confirmation-handler.js:260-293 | no option is the no-pattern error, an option without an agent asks for the agent, several options ask to choose, and a single one is confirmed |
| ConfirmationHandler.ResponseActions | agentic-development/scripts/pattern-recognition/confirmation-handler.js:301-331 | each word list leads to its action and anything else asks again; the execute action carries the standard command, which splits back into title and description |
| ConfirmationHandler.WordListsDisjoint | agentic-development/scripts/pattern-recognition/confirmation-handler.js:304-319 | the yes, no and modify word lists do not overlap |
| SessionOrchestration.Merge | agentic-development/scripts/pattern-recognition/session-orchestrator.js:412-414 | each option given in the patch replaces the current one and every other option is kept |
| SessionOrchestration.HistoryShape | agentic-development/scripts/pattern-recognition/session-orchestrator.js:377-396 | the history never grows past the maximum, the current input comes first, and a non-empty context replaces the older history by its first `max - 1` messages; without one the older history follows, cut to the maximum |
| SessionOrchestration.WithResolution | agentic-development/scripts/pattern-recognition/session-orchestrator.js:187-209 | a resolved agent replaces the recognised one and the confidence becomes the smaller of the two; an unresolved agent becomes null with the confidence kept; title, description and type are untouched |
| SessionOrchestration.WithContext | agentic-development/scripts/pattern-recognition/session-orchestrator.js:211-227 | context fills an empty title or description and never overwrites one, keeps the agent, records the context and never raises the confidence |
| SessionOrchestration.FlowOrder | agentic-development/scripts/pattern-recognition/session-orchestrator.js:46-86 | the checks come in the order no pattern, an unresolved agent, a confidence under the threshold, automatic execution above 0.9, else a confirmation, which is never an error |
| SessionOrchestration.EnrichmentConservative | agentic-development/scripts/pattern-recognition/session-orchestrator.js:187-227 | resolution and context extraction only ever lower the confidence and keep a title or description the pattern already had; an unresolved agent stays null |
| SessionOrchestration.ResponseOutcome | agentic-development/scripts/pattern-recognition/session-orchestrator.js:93-131 | the pending confirmation afterwards is either cleared or the one that was pending |
| SessionOrchestration.ResponseKeepsOrClears | agentic-development/scripts/pattern-recognition/session-orchestrator.js:93-131 | without a pending confirmation nothing changes; only an affirmative response starts the confirmed session; executing and cancelling clear the pending confirmation, modification and clarification keep it |
| SessionOrchestration.SessionOrchestrator.constructor | agentic-development/scripts/pattern-recognition/session-orchestrator.js:18-38 | the options are the defaults overridden by the given ones and the state starts empty |
| SessionOrchestration.SessionOrchestrator.Create | agentic-development/scripts/pattern-recognition/session-orchestrator.js:18-38 | the orchestrator builds its own agent resolver over the agent database, with the merged options and an empty state |
| SessionOrchestration.SessionOrchestrator.UpdateConversationHistory | agentic-development/scripts/pattern-recognition/session-orchestrator.js:377-396 | the history becomes the specified new history and nothing else changes |
| SessionOrchestration.SessionOrchestrator.GenerateConfirmationFor | agentic-development/scripts/pattern-recognition/session-orchestrator.js:229-238 | the generated confirmation becomes the pending one and nothing else changes |
| SessionOrchestration.SessionOrchestrator.Proceed | agentic-development/scripts/pattern-recognition/session-orchestrator.js:49-81 | the history is updated, the recognition recorded and the outcome is the flow's; a confirmation (also before an automatic execution) is left pending, and every earlier exit leaves the pending confirmation as it was |
| SessionOrchestration.SessionOrchestrator.ProcessInput | agentic-development/scripts/pattern-recognition/session-orchestrator.js:46-86 | the recorded recognition is the pattern matcher's; no pattern gives the no-pattern outcome with the pending confirmation kept; otherwise the outcome is the flow over the resolver's answer and the extracted context |
| SessionOrchestration.SessionOrchestrator.HandleConfirmationResponse | agentic-development/scripts/pattern-recognition/session-orchestrator.js:93-131 | the outcome and the pending confirmation afterwards are those of the response specification; history, options and recognition are untouched |
| SessionOrchestration.SessionOrchestrator.Perform | agentic-development/scripts/pattern-recognition/session-orchestrator.js:106-130 | execute starts the confirmed session and cancel reports cancellation, both clearing the pending confirmation; modify and clarify keep it |
| SessionOrchestration.SessionOrchestrator.Reset | agentic-development/scripts/pattern-recognition/session-orchestrator.js:404-410 | recognition, pending confirmation and history are empty again and the options are kept |
| SessionOrchestration.SessionOrchestrator.UpdateOptions | agentic-development/scripts/pattern-recognition/session-orchestrator.js:412-414 | the options become the old ones merged with the given ones and the state is untouched |
| GeminiFeedback.PriorityNamed | agentic-development/scripts/process-gemini-feedback.js:77-102 | a priority rule exists exactly for the four level names, each under its own name |
| GeminiFeedback.CategoryNamed | agentic-development/scripts/process-gemini-feedback.js:29-72 | a category entry exists exactly for the category names, each under its own name |
| GeminiFeedback.CategorizeOrder | agentic-development/scripts/process-gemini-feedback.js:135-165 | the first group of words present decides: each of security, performance, architecture, testing and documentation is chosen exactly when one of its words is present and no word of an earlier group is; code quality exactly when no group's word is present; best practices is never assigned |
| GeminiFeedback.CriticalIffSecurity | agentic-development/scripts/process-gemini-feedback.js:170-189 | on the same content the priority is critical exactly when the category is a security vulnerability |
| GeminiFeedback.FirstRule | agentic-development/scripts/process-gemini-feedback.js:194-206 | the rule found matches the path and no rule before it does; none found means no rule from the start matches |
| GeminiFeedback.SuggestAgentIn | agentic-development/scripts/process-gemini-feedback.js:194-206 | the suggested agent is `vibe-coder` or the primary agent of a rule whose pattern matches the path |
| GeminiFeedback.SuggestAgentFirstMatch | agentic-development/scripts/process-gemini-feedback.js:196-203 | a path matching an earlier rule never reaches a later one: the first matching rule's primary agent is suggested |
| GeminiFeedback.DocsApiPathIsBackend | agentic-development/scripts/process-gemini-feedback.js:107-127 | `docs/api/users.md` goes to `laravel-dev`: the backend `api/` pattern is tried before the documentation `.md` suffix |
| GeminiFeedback.BackendPathSuggestion | agentic-development/scripts/process-gemini-feedback.js:108-114 | a path no frontend pattern matches and a backend pattern does goes to `laravel-dev` |
| GeminiFeedback.DocsApiPathNotFrontend | agentic-development/scripts/process-gemini-feedback.js:109 | no frontend pattern matches `docs/api/users.md` |
| GeminiFeedback.DocsApiPathBackend | agentic-development/scripts/process-gemini-feedback.js:113 | the backend `api/` pattern matches `docs/api/users.md` |
| GeminiFeedback.LineEnd | agentic-development/scripts/process-gemini-feedback.js:223 | the end of a line is the first line terminator from the start, or the end of the text |
| GeminiFeedback.ActionItems | agentic-development/scripts/process-gemini-feedback.js:223-226 | every action item lies within one line, and there are none exactly when the description holds no `- ` |
| GeminiFeedback.ExtractRecommendations | agentic-development/scripts/process-gemini-feedback.js:211-231 | the recommendations are never empty |
| GeminiFeedback.RecommendationsOrigin | agentic-development/scripts/process-gemini-feedback.js:211-231 | the suggestions and fix suggestions come first, then the description's action items, and the default recommendation only when there are none of those |
| GeminiFeedback.ClassifiedByTitleOnly | agentic-development/scripts/process-gemini-feedback.js:236-277 | the record is normalised before it is classified, so two payloads with the same title get the same category and priority whatever their descriptions; the recommendations are never empty and the priority is critical exactly for a security vulnerability |
| GeminiFeedback.ProcessedActions | agentic-development/scripts/process-gemini-feedback.js:282-291 | for a processed record an issue is always created, an agent is triggered exactly for the security or performance categories or a critical or high priority, and escalation happens exactly for a security vulnerability |
| GeminiFeedback.FeedbackLog.constructor | agentic-development/scripts/process-gemini-feedback.js:297-301 | a fresh log has no history and nothing processed |
| GeminiFeedback.FeedbackLog.LogFeedback | agentic-development/scripts/process-gemini-feedback.js:296-320 | with a successful write, the entry is put at the front of the history, which is capped at its limit, the processed count grows by one and the update time is the clock reading; a failed write leaves the log as it was |
| AgentSessionTrigger.CreateSessionContext | agentic-development/scripts/trigger-agent-session.js:74-106 | the context copies repository, branch, agent, feedback id, priority and issue; the expected duration is 2-4 hours exactly for a critical priority; the related issue is `repository#issue` exactly when an issue is given; the capabilities are the agent's, or none for an unknown agent |
| AgentSessionTrigger.RepoKeyOfOwnerAndName | agentic-development/scripts/trigger-agent-session.js:118 | `owner/name` is tracked under `name` |
| AgentSessionTrigger.RepoKeyOfLongerPath | agentic-development/scripts/trigger-agent-session.js:118 | `owner/name/more` is tracked under `name` too: only the second segment counts |
| AgentSessionTrigger.RepoKeyWithoutOwner | agentic-development/scripts/trigger-agent-session.js:118 | a repository without `/` is tracked under the key `undefined` |
| AgentSessionTrigger.SessionBranch | agentic-development/scripts/trigger-agent-session.js:127-143 | a branch the tracking does not know is created under its name, by `gemini-integration`, as `agent-assigned`, with the related issue if there is one |
| AgentSessionTrigger.WithSession | agentic-development/scripts/trigger-agent-session.js:145-158 | the branch keeps its name, creation time, worktree and task group, and becomes `agent-session-active` with the session's agent, the clock reading and the feedback link |
| AgentSessionTrigger.SessionListReusesOrCreates | agentic-development/scripts/trigger-agent-session.js:120-158 | the branch is reused when listed and appended otherwise; the first entry of that name carries the session and no other entry changes |
| AgentSessionTrigger.SessionKeepsIssuesDistinct | agentic-development/scripts/trigger-agent-session.js:156-158 | adding the related issue only when it is absent keeps the issues free of duplicates, and the related issue ends up listed |
| AgentSessionTrigger.UpdateBranchTracking | agentic-development/scripts/trigger-agent-session.js:111-165 | with a successful write, the repository's list becomes the specified session list, with the update time and generator set; a failed write, or a repository entry that is not a list (which throws), changes nothing; the other documents are untouched |
| AgentSessionTrigger.AgentSessionsLog.constructor | agentic-development/scripts/trigger-agent-session.js:171-179 | a fresh log has no sessions, no history, no update time and a count of zero |
| AgentSessionTrigger.AgentSessionsLog.LogAgentSession | agentic-development/scripts/trigger-agent-session.js:170-200 | with a successful write, the session is appended to the active sessions, put first in a history capped at fifty as `triggered`, and counted, with the update time set; a failed write leaves the log as it was |
| AgentSessionTrigger.HistoryBounded | agentic-development/scripts/trigger-agent-session.js:185-193 | a history within the limit stays within it, newest session first, and below the limit nothing is dropped |
| AgentSessionTrigger.GenerateAgentInstructions | agentic-development/scripts/trigger-agent-session.js:205-262 | the critical guidelines are shown exactly for a critical priority, the high ones exactly for a high priority, and an issue line exactly when there is a related issue |
| AgentSessionTrigger.InstructionsFollowContext | agentic-development/scripts/trigger-agent-session.js:74-106 | for a created context the critical guidelines appear exactly when the session is expected to take two to four hours, and an issue is linked exactly when one was given |
| BranchTracking.FindIndex | agentic-development/scripts/update-branch-tracking.js:117 | the index found is that of the first entry with the name, and -1 exactly when no entry has it |
| BranchTracking.RemoveAt | agentic-development/scripts/update-branch-tracking.js:124 | removing one entry keeps the entries before it and shifts the ones after it down by one |
| BranchTracking.NamedAppend | agentic-development/scripts/update-branch-tracking.js:92 | appending an entry adds one to the count of its name and leaves the other counts |
| BranchTracking.PrefixEnd | agentic-development/scripts/update-branch-tracking.js:59 | the prefix ends at the first `/` when a non-empty prefix precedes it, and there is none exactly when the name has no `/` or starts with one |
| BranchTracking.PrefixedBranch | agentic-development/scripts/update-branch-tracking.js:59-60 | a branch `agent/rest` belongs to `agent`, and its title is `rest` with spaces for dashes |
| BranchTracking.UnprefixedBranch | agentic-development/scripts/update-branch-tracking.js:60 | a branch without a `/`, or starting with one, has the agent `unknown` and keeps its whole name as title |
| BranchTracking.FirstMatchingGroup | agentic-development/scripts/update-branch-tracking.js:79-89 | the group found is the first whose title and the branch title contain one another ignoring case, or none |
| BranchTracking.FindTaskGroup | agentic-development/scripts/update-branch-tracking.js:79-89 | the loop stops at the first matching group |
| BranchTracking.EmptyTitleJoinsFirstGroup | agentic-development/scripts/update-branch-tracking.js:78-81 | a branch named `agent/` has an empty title, which every group title contains, so it joins the first group |
| BranchTracking.JoinGroup | agentic-development/scripts/update-branch-tracking.js:84-86 | the group records the branch for the repository only when it names none; otherwise it is unchanged |
| BranchTracking.NewBranch | agentic-development/scripts/update-branch-tracking.js:63-75 | the new entry is active, named after the branch, with the branch prefix as agent, no task group, the given or current creation time, the worktree if truthy and the given issues or none |
| BranchTracking.JoinedGroups | agentic-development/scripts/update-branch-tracking.js:79-89 | joining keeps every group's id and title and their number |
| BranchTracking.CreatedJoinsFirstGroup | agentic-development/scripts/update-branch-tracking.js:79-89 | a created branch joins exactly the first group whose title matches, that group records the branch unless it names one, and no other group changes |
| BranchTracking.MergeRecord | agentic-development/scripts/update-branch-tracking.js:131-140 | the merge entry names the repository and branch, is eligible for clean-up, and takes the task group and worktree of the removed entry and the given or current merge time |
| BranchTracking.LocalCreatePayload | agentic-development/scripts/update-branch-tracking.js:191-200 | a local create passes the repository and branch, the author or `local-user`, and the current time as creation time |
| BranchTracking.LocalCreateIgnoresAgent | agentic-development/scripts/update-branch-tracking.js:191-200 | the agent and task group of a local create are never read: the branch prefix names the agent |
| BranchTracking.AssignTaskGroup | agentic-development/scripts/update-branch-tracking.js:77-89 | the loop gives the entry with its first matching group and the groups after it recorded the branch |
| BranchTracking.TrackingFiles.constructor | agentic-development/scripts/update-branch-tracking.js:21-28 | the files hold the given branches and task groups and nothing else yet |
| BranchTracking.TrackingFiles.HandleBranchCreated | agentic-development/scripts/update-branch-tracking.js:44-101 | the new entry is always appended, even beside a branch of the same name, so the name's count grows by one; the first matching task group records it; active branches change exactly when their write succeeds, and the task groups only when the group's id is non-empty and their own write succeeds; a repository entry that is not a list throws and changes nothing |
| BranchTracking.TrackingFiles.HandleBranchMerged | agentic-development/scripts/update-branch-tracking.js:103-164 | nothing changes when the repository or branch is not tracked; otherwise, each file as its own write allows, the first entry of that name is removed, its merge is logged first in a log of at most fifty, and it is queued for clean-up exactly when it had a worktree |
| BranchTracking.TrackingFiles.HandleBranchDeleted | agentic-development/scripts/update-branch-tracking.js:166-184 | the first entry of that name is removed, and the file is saved only then and only when the write succeeds; otherwise nothing changes |
| BranchTracking.TrackingFiles.HandleLocalUpdate | agentic-development/scripts/update-branch-tracking.js:186-211 | `create`, `merge` and `delete` leave exactly the state their handlers leave (create with the local payload), and any other action changes nothing |
| BranchDeduplication.GroupMembers | agentic-development/scripts/deduplicate-branches.js:67-72 | a name's group holds exactly the entries of that name |
| BranchDeduplication.GroupNonEmpty | agentic-development/scripts/deduplicate-branches.js:67-72 | a name occurs in the list exactly when its group is non-empty |
| BranchDeduplication.LatestIndex | agentic-development/scripts/deduplicate-branches.js:84-88 | the entry the stable descending sort puts first is at least as recent as every entry of its group and strictly more recent than those before it |
| BranchDeduplication.MakePathPortable | agentic-development/scripts/deduplicate-branches.js:22-26 | a falsy path passes through, a path not containing the home directory is unchanged, and a path starting with it has that prefix replaced by `~` |
| BranchDeduplication.Portable | agentic-development/scripts/deduplicate-branches.js:91-99 | only the worktree of the kept entry may change, and only when it is an absolute path |
| BranchDeduplication.NameOrder | agentic-development/scripts/deduplicate-branches.js:78 | every name of the key order has a non-empty group |
| BranchDeduplication.DeduplicatedNames | agentic-development/scripts/deduplicate-branches.js:60-110 | after deduplication the names are pairwise distinct and there is exactly one entry for every name of the input, in order of first appearance |
| BranchDeduplication.KeptIsLatest | agentic-development/scripts/deduplicate-branches.js:83-101 | the entry kept for a name is one of its entries, at least as recent as every other entry of that name and strictly more recent than those of its group before it; only its worktree may differ |
| BranchDeduplication.SizesCoverAll | agentic-development/scripts/deduplicate-branches.js:67-72 | the groups of all distinct names together hold every entry |
| BranchDeduplication.DuplicatesRemovedCount | agentic-development/scripts/deduplicate-branches.js:79-81 | the duplicates counted for a repository are exactly the entries deduplication drops |
| BranchDeduplication.DistinctNamesKept | agentic-development/scripts/deduplicate-branches.js:78-102 | a repository whose names are already distinct keeps every entry and counts no duplicate |
| BranchDeduplication.GroupingStep | agentic-development/scripts/deduplicate-branches.js:67-72 | one more entry appends to its name's group or opens a new group at the end of the key order |
| BranchDeduplication.GroupByName | agentic-development/scripts/deduplicate-branches.js:66-72 | the grouping loop gives a group per name with the names in order of first appearance |
| BranchDeduplication.OverStep | agentic-development/scripts/deduplicate-branches.js:78-102 | one more name adds its kept entry, its excess entries and its fixed path to the totals |
| BranchDeduplication.KeepLatest | agentic-development/scripts/deduplicate-branches.js:74-102 | the loop over the groups gives the kept entries in key order, the duplicates removed and the paths fixed |
| BranchDeduplication.DeduplicateRepo | agentic-development/scripts/deduplicate-branches.js:65-109 | one repository's pass gives the deduplicated list and its removed and fixed counts |
| BranchDeduplication.DeduplicatedRepos | agentic-development/scripts/deduplicate-branches.js:60-110 | deduplication keeps the set of repositories |
| BranchDeduplication.DeduplicatedReposEach | agentic-development/scripts/deduplicate-branches.js:60-110 | every repository's list is deduplicated once, and a value that is not a list is kept |
| BranchDeduplication.ReposStep | agentic-development/scripts/deduplicate-branches.js:60-110 | handling one more repository changes only its own entry and adds its counts to the totals |
| BranchDeduplication.DeduplicateAll | agentic-development/scripts/deduplicate-branches.js:60-110 | the loop over the repositories gives the deduplicated document and the total counts |
| BranchDeduplication.DeduplicateBranches | agentic-development/scripts/deduplicate-branches.js:46-123 | a document without branches is left alone and not saved; otherwise the counts are reported and, when the write succeeds, every repository list is deduplicated and the update time and generator set; a failed write changes nothing |
| ScriptUtils.ParseArguments | agentic-development/scripts/utils.js:81-89 | the loop over the arguments fills the options object as the specified parse does |
| ScriptUtils.ParsedKeys | agentic-development/scripts/utils.js:83-87 | a key is set exactly when some argument names it |
| ScriptUtils.LastArgumentWins | agentic-development/scripts/utils.js:83-87 | the last argument naming a key decides its value |
| ScriptUtils.FlagArgument | agentic-development/scripts/utils.js:84-86 | `--name=value` without further `=` sets `name` to `value` |
| ScriptUtils.FirstDashes | agentic-development/scripts/utils.js:85 | only the first `--` of the key is removed |
| ScriptUtils.ValueTruncated | agentic-development/scripts/utils.js:84 | a value holding `=` is cut at it |
| ScriptUtils.BareArgument | agentic-development/scripts/utils.js:84-86 | an argument without `=` sets its key with no value |
| ScriptUtils.ValidateRequiredArguments | agentic-development/scripts/utils.js:97-103 | it returns normally exactly when every required field is truthy, and otherwise throws the message naming the first missing field |
| ScriptUtils.TrackingDirectoryIsSibling | agentic-development/scripts/utils.js:110-112 | for a plain absolute base directory the tracking directory is its sibling `branch-tracking`, one level up |
| ReferenceScanner.MentionsAnyIff | agentic-development/scripts/file-reference-scanner.js:85-98 | the loop over the excluded directory names finds one exactly when some name occurs in the path |
| ReferenceScanner.SkipsExcludedSubstring | agentic-development/scripts/file-reference-scanner.js:85-98 | a path containing an excluded name inside a longer one is skipped too |
| ReferenceScanner.KeptPathsAvoidExclusions | agentic-development/scripts/file-reference-scanner.js:85-98 | a kept path contains no excluded name and has no excluded extension |
| ReferenceScanner.TestPathsAreNotScripts | agentic-development/scripts/file-reference-scanner.js:305-307 | no path containing `test` is a script file |
| ReferenceScanner.ScriptFileShape | agentic-development/scripts/file-reference-scanner.js:300-314 | a script file has a lower-cased `.js` or `.sh` extension and contains none of `test`, `spec`, `node_modules`, `.git` |
| ReferenceScanner.Candidates | agentic-development/scripts/file-reference-scanner.js:326-336 | one candidate per directory prefix, each the prefix followed by the file name |
| ReferenceScanner.TestPathCandidates | agentic-development/scripts/file-reference-scanner.js:316-340 | a `.sh` script has four `.bats` candidates and a `.js` file five `.test.js` candidates, all named after the script's stem; any other extension has none |
| ReferenceScanner.UpperCaseScriptHasNoCandidates | agentic-development/scripts/file-reference-scanner.js:318-337 | as written, a script file whose extension is not exactly `.sh` or `.js` (such as `deploy.SH`) has no candidate test path |
| ReferenceScanner.ScriptFilesHaveCandidates | agentic-development/scripts/file-reference-scanner.js:301 | choosing by the lower-cased extension, every script file has at least four candidates, and one with a lower-case extension keeps the candidates it had |
| ReferenceScanner.SubstringEnd | agentic-development/scripts/file-reference-scanner.js:192 | the end index of `substring` is clamped into the text |
| ReferenceScanner.SplitPieces | agentic-development/scripts/file-reference-scanner.js:192 | splitting yields one piece more than there are separators |
| ReferenceScanner.LineNumberCountsNewlines | agentic-development/scripts/file-reference-scanner.js:191-193 | the line of an index is one more than the line feeds before it |
| ReferenceScanner.LineNumberMonotone | agentic-development/scripts/file-reference-scanner.js:191-193 | a later index is never on an earlier line |
| ReferenceScanner.ReferenceTypeAsWritten | agentic-development/scripts/file-reference-scanner.js:178-189 | as written, the type is one of the first four tests' or `relative-path`, since the stray `;` makes every later test unreachable |
| ReferenceScanner.TypesAsWritten | agentic-development/scripts/file-reference-scanner.js:178-189 | as written, only the load, agent and documentation patterns get their own type; the markdown pattern and the four after the relative-path one are typed `relative-path` |
| ReferenceScanner.TypesCorrected | agentic-development/scripts/file-reference-scanner.js:7-34 | with the stray `;` removed and the markdown test corrected, every pattern gets the type its comment names |
| ReferenceScanner.SourceTypes | agentic-development/scripts/file-reference-scanner.js:178-189 | the as-written and corrected types of each pattern |
| ReferenceScanner.ShortReference | agentic-development/scripts/file-reference-scanner.js:434 | a reference over 50 characters is cut to its first 47 and `...`; a shorter one is unchanged |
| ReferenceScanner.IssueTitleShape | agentic-development/scripts/file-reference-scanner.js:429-436 | the title starts with the fixed text, ends with the file and holds the shortened reference between them |
| ReferenceScanner.LongReferencesShareTitle | agentic-development/scripts/file-reference-scanner.js:434 | two long references agreeing on their first 47 characters get the same title in the same file |
| ReferenceScanner.ExistsWithExtensionIff | agentic-development/scripts/file-reference-scanner.js:205-209 | the extension loop succeeds exactly when some common extension completes the path to an existing one |
| ReferenceScanner.ValidateReferenceIff | agentic-development/scripts/file-reference-scanner.js:195-216 | a reference is valid exactly when its path exists, or it has no extension and exists with a common extension added |
| ReferenceScanner.Results | agentic-development/scripts/file-reference-scanner.js:232-241 | one result per reference |
| ReferenceScanner.ValidCount | agentic-development/scripts/file-reference-scanner.js:243-245 | the valid count never exceeds the number of results |
| ReferenceScanner.ResultsRecord | agentic-development/scripts/file-reference-scanner.js:235-239 | each result records its reference, whether it is valid and the file it was found in |
| ReferenceScanner.BrokenAreInvalid | agentic-development/scripts/file-reference-scanner.js:246-250 | the broken list holds exactly the invalid results, in order |
| ReferenceScanner.ValidPlusBroken | agentic-development/scripts/file-reference-scanner.js:243-250 | every result is valid or broken: the two counts add up to the number of results |
| ReferenceScanner.TallyCountsTypes | agentic-development/scripts/file-reference-scanner.js:257 | each reference type's count grows by the number of references of that type |
| ReferenceScanner.RecordAllCounts | agentic-development/scripts/file-reference-scanner.js:232-258 | after a file's loop the totals grow by its references, valid and invalid counts by its valid and broken results, the broken list by its broken results; the files are untouched |
| ReferenceScanner.TallyFileTypeStep | agentic-development/scripts/file-reference-scanner.js:255-256 | one more reference of a file adds one to its file-type key |
| ReferenceScanner.RecordAllTallies | agentic-development/scripts/file-reference-scanner.js:254-257 | after a file's loop its file-type count has grown by its references and each reference type by its own references |
| ReferenceScanner.RecordAllConsistent | agentic-development/scripts/file-reference-scanner.js:232-258 | the loop keeps the totals consistent: every counted reference is valid or invalid and the broken list holds the invalid ones |
| ReferenceScanner.ResultsStep | agentic-development/scripts/file-reference-scanner.js:232-258 | one more reference adds one result and one loop iteration |
| ReferenceScanner.Scanner.constructor | agentic-development/scripts/file-reference-scanner.js:56-67 | a new scanner starts with empty results |
| ReferenceScanner.Scanner.ScanFile | agentic-development/scripts/file-reference-scanner.js:218-265 | an unreadable file changes nothing; otherwise each reference is validated, counted and tallied in turn and the file's result is stored |
| ReferenceScanner.Scanner.AddReferences | agentic-development/scripts/file-reference-scanner.js:232-258 | the loop gives the file's results and its valid and invalid counts, and records them all |
| DocTree.ShouldIncludeDirIff | agentic-development/scripts/generate-doc-tree.js:90-92 | a directory is left out exactly when its name starts with `.` or is one of the five visible configured names |
| DocTree.RootNameIncluded | agentic-development/scripts/generate-doc-tree.js:128 | the name `root` a nameless root gets is not excluded |
| DocTree.WildcardSource | agentic-development/scripts/generate-doc-tree.js:83 | the regular-expression source never starts with `*` |
| DocTree.ParseWildcard | agentic-development/scripts/generate-doc-tree.js:83 | the expression built from a pattern reads every `*` as any run and every `.` as any character: the `.` of `*.log` is not escaped |
| DocTree.SearchAt | agentic-development/scripts/generate-doc-tree.js:84 | `regex.test` is not anchored: a match at any offset is a match |
| DocTree.MatchLiterals | agentic-development/scripts/generate-doc-tree.js:84 | literal tokens match a text that starts with them |
| DocTree.WildcardMatchesInside | agentic-development/scripts/generate-doc-tree.js:81-85 | as written, `*.` + `ext` excludes every name holding `ext` after any non-line-break character, wherever it stands |
| DocTree.SomeExcludesAsWrittenAt | agentic-development/scripts/generate-doc-tree.js:81 | one excluding pattern excludes the name |
| DocTree.LogInsideExcludedAsWritten | agentic-development/scripts/generate-doc-tree.js:77-88 | as written, a name holding `log` after one more character is never listed, whatever its extension |
| DocTree.GlobLiteral | agentic-development/scripts/generate-doc-tree.js:86 | a pattern without `*` matches its own text only |
| DocTree.GlobSuffix | agentic-development/scripts/generate-doc-tree.js:28-33 | a glob `*` + suffix matches exactly the names ending with the suffix |
| DocTree.ShouldIncludeFileIff | agentic-development/scripts/generate-doc-tree.js:77-88 | as intended, a file is listed exactly when its lower-cased extension is included, it is neither `.DS_Store` nor `Thumbs.db`, and it ends with neither `.log` nor `.tmp` |
| DocTree.ExcludesFour | agentic-development/scripts/generate-doc-tree.js:28-33 | two whole names and two `*` suffixes exclude exactly the names they spell or end with |
| DocTree.ExtnameOfName | agentic-development/scripts/generate-doc-tree.js:78 | the extension of a plain name is the text from its last `.` when that is not its first character |
| DocTree.BlogDiscrepancy | agentic-development/scripts/generate-doc-tree.js:31 | `blog.md` is excluded by the filter as written and listed by the intended one |
| DocTree.InsertEntry | agentic-development/scripts/generate-doc-tree.js:151-156 | inserting keeps the entries ordered directories first, then by name, and adds exactly the inserted entry |
| DocTree.SortEntries | agentic-development/scripts/generate-doc-tree.js:151-156 | the sort orders directories before files and each group by name, and is a permutation of the entries |
| DocTree.NameTotal | agentic-development/scripts/generate-doc-tree.js:155 | the name order is total |
| DocTree.NameTransitive | agentic-development/scripts/generate-doc-tree.js:155 | the name order is transitive |
| DocTree.KeyTotal | agentic-development/scripts/generate-doc-tree.js:151-156 | the comparator's order is total |
| DocTree.KeyTransitive | agentic-development/scripts/generate-doc-tree.js:151-156 | the comparator's order is transitive |
| DocTree.SortedBelow | agentic-development/scripts/generate-doc-tree.js:135-156 | the sorted entries come from the directory's listing |
| DocTree.StatEntries | agentic-development/scripts/generate-doc-tree.js:135-149 | the first loop keeps exactly the entries `fs.stat` succeeds on, in listing order |
| DocTree.GenerateDirectoryTree | agentic-development/scripts/generate-doc-tree.js:118-178 | the method builds the specified tree of the entry at the depth |
| DocTree.ProcessEntries | agentic-development/scripts/generate-doc-tree.js:159-171 | the loop over the sorted entries pushes their sub-trees and listed files in sorted order |
| DocTree.ChildrenStep | agentic-development/scripts/generate-doc-tree.js:159-171 | one more entry adds its own child nodes |
| DocTree.TreeIsPruned | agentic-development/scripts/generate-doc-tree.js:118-178 | a generated tree has no directory deeper than the maximum, none without children, none excluded below the root, and no file the filter as written drops |
| DocTree.ChildrenArePruned | agentic-development/scripts/generate-doc-tree.js:159-171 | every child the loop pushes is pruned one level deeper |
| DocTree.DirChild | agentic-development/scripts/generate-doc-tree.js:160-164 | a directory entry adds its sub-tree when there is one |
| DocTree.FileChild | agentic-development/scripts/generate-doc-tree.js:165-170 | a file entry adds its node exactly when the filter as written lists it |
| DocTree.TreeShape | agentic-development/scripts/generate-doc-tree.js:127-132 | a generated tree is a directory named after the entry, `root` when it has no name |
| DocTree.LoneDroppedFileNoTree | agentic-development/scripts/generate-doc-tree.js:173 | a directory whose one entry is a file the filter drops yields `null` |
| DocTree.BlogFolderEmptyAsWritten | agentic-development/scripts/generate-doc-tree.js:173 | as written, a folder whose one file is `blog.md` yields no tree, though the intended filter lists that file |
| DocTree.ChildKey | agentic-development/scripts/generate-doc-tree.js:140-144 | the node an entry adds keeps the entry's kind and name |
| DocTree.ChildrenBounded | agentic-development/scripts/generate-doc-tree.js:159-171 | children of entries no later than a bound are no later than it |
| DocTree.ChildrenAscending | agentic-development/scripts/generate-doc-tree.js:159-171 | the loop keeps the order of the sorted entries |
| DocTree.TreeChildrenOrdered | agentic-development/scripts/generate-doc-tree.js:151-171 | in a generated directory sub-directories come before files and each group is ordered by name |
| DocTree.Stats.constructor | agentic-development/scripts/generate-doc-tree.js:209 | the counters start at zero |
| DocTree.Stats.Traverse | agentic-development/scripts/generate-doc-tree.js:211-233 | traversal adds the tree's directory nodes and file nodes to the counters |
| DocTree.GenerateSummaryStats | agentic-development/scripts/generate-doc-tree.js:208-237 | the statistics count the directory nodes and the file nodes of the tree |
| DocTree.PrunedHasFile | agentic-development/scripts/generate-doc-tree.js:173 | a pruned tree holds at least one file, since no directory of it is empty |
| DocTree.GeneratedTreeCounts | agentic-development/scripts/generate-doc-tree.js:208-237 | the statistics of a generated tree count the root directory and at least one file |
| DocTree.ConnectorsPrintable | agentic-development/scripts/generate-doc-tree.js:185-197 | connectors and child prefixes hold no line break |
| DocTree.LabelPrintable | agentic-development/scripts/generate-doc-tree.js:186-192 | a label holds no line break when the node's texts hold none |
| DocTree.RenderLines | agentic-development/scripts/generate-doc-tree.js:181-206 | the rendered text has one line per node, as many lines as the statistics count directories and files |
| DocTree.RenderChildrenLines | agentic-development/scripts/generate-doc-tree.js:199-202 | the children's lines add up to their directories and files |
| ResolverExamples.ReactDeveloperResolves | agentic-development/scripts/pattern-recognition/test-suite.js:214 | `react developer` resolves to `react-dev` as an exact alias |
| ResolverExamples.VibeResolves | agentic-development/scripts/pattern-recognition/test-suite.js:213 | `vibe` is no alias and resolves to `vibe-coder` as a shortcut |
| ResolverExamples.LaravelResolves | agentic-development/scripts/pattern-recognition/test-suite.js:215 | `laravel` is no alias and resolves to `laravel-dev` as a shortcut |
| ResolverExamples.InvalidAgentNotListed | agentic-development/scripts/pattern-recognition/test-suite.js:216 | `invalid-agent` is neither an alias nor a shortcut of any agent, so the first two rungs of the ladder pass it on |
| ResolverExamples.InvalidClean | agentic-development/scripts/pattern-recognition/agent-resolver.js:108 | cleaning leaves `invalid-agent` as it is |
| ResolverExamples.NoMatchWhen | agentic-development/scripts/pattern-recognition/agent-resolver.js:107-176 | an input that is no alias or shortcut, related to no role or technology and less than 4/5 similar to every fuzzy candidate gets no agent and the no-match strategy |
| ResolverExamples.AliasWins | agentic-development/scripts/pattern-recognition/agent-resolver.js:110-119 | an input whose cleaned form is an alias resolves to that alias's agent by exact alias |
| ResolverExamples.ShortcutWins | agentic-development/scripts/pattern-recognition/agent-resolver.js:121-130 | an input that is no alias but a shortcut resolves to the shortcut's agent |
| ResolverExamples.LastOwnerIs | agentic-development/scripts/pattern-recognition/agent-resolver.js:73-82 | the lookup table maps a key to the last agent listing it, since `Map.set` keeps the last write |
| ResolverExamples.LastOwnerNone | agentic-development/scripts/pattern-recognition/agent-resolver.js:73-82 | no table maps a key no agent lists |
| ResolverExamples.KeyFrom | agentic-development/scripts/pattern-recognition/agent-resolver.js:73-98 | every key of a table comes from one entry of the database |
| ResolverExamples.DistAtLeastGap | agentic-development/scripts/pattern-recognition/agent-resolver.js:260-289 | the edit distance is at least the difference of the lengths |
| ResolverExamples.DistAtLeastMissing | agentic-development/scripts/pattern-recognition/agent-resolver.js:260-289 | each character of one string the other lacks costs an edit |
| ResolverExamples.SimilarityBelow | agentic-development/scripts/pattern-recognition/agent-resolver.js:285-288 | a distance above a fifth of the longer length keeps the similarity below 4/5 |
| ResolverExamples.UnrelatedBy | agentic-development/scripts/pattern-recognition/agent-resolver.js:186-228 | a string shorter than the input or lacking one of its characters, and longer or holding a character the input lacks, neither contains nor is contained in it |

## Left out

Number and string semantics:

- DocTree.NameLessEq: orders names by character code, not by `localeCompare`. Locale collation compares case-insensitively first, so `agents.md` sorts before `README.md` in the program but after it here. Names that mix case, `_`, `-` or accented letters can also come out in a different order. Modelling ICU collation is out of scope.
- DocTree.SortEntries: sorts by `NameLessEq`, so it has the same code-unit order instead of locale order.
- DocTree.TreeChildrenOrdered: states the order of children under `NameLessEq`, so it has the same code-unit order instead of locale order.
- ContextExtractor.Compare: uses exact reals where the program uses doubles. For confidences 0.6 and 0.5 the program computes |0.6 − 0.5| = 0.09999999999999998 < 0.1 and orders the two by message index; the model finds them 0.1 apart and orders them by confidence. This rounding is one of two reasons the model's task order can differ from the program's; the other is the sort itself (see `ContextExtractor.SortTasks` below).
- ContextExtractor.SortTasks: the comparator `extractTaskInformation` passes to `sort` is not a consistent order (matches less than 0.1 apart in confidence are ordered by message index, others by confidence, and that relation is not transitive), so ECMAScript leaves the result of `Array.prototype.sort` implementation-defined. The model sorts by linear insertion, placing each match before the first element the comparator puts after it, and proves only that the result is a permutation of the matches. Node's V8 sorts differently (TimSort: a leading run, reversed when descending, then binary insertion, and merging of runs for longer arrays). For matches from messages 0, 1 and 2 with confidences 0.6, 0.65 and 0.7, V8 keeps the order 0, 1, 2 and the model gives 2, 0, 1.
- ContextExtractor.InsertTask: is the insertion step of that sort, so it has the same divergence from V8's order.
- ContextExtractor.ExtractTaskInformation: its top three are the first three of the model's sort, so they can differ from the program's, as under `ContextExtractor.SortTasks`.
- ContextExtractor.ExtractContext: the title, category and confidence come from the first task of the model's sort, so they can come from a different message than in the program, as under `ContextExtractor.SortTasks`.
- SubSessionManager.GroupByPath: lists paths in order of first appearance. `Object.entries` lists integer-like keys such as `"2024"` first, in ascending numeric order, before the other keys in insertion order. A path equal to an `Object.prototype` member such as `constructor` or `__proto__` makes the `push` at sub-session-manager.js line 504 throw; the model groups it like any other path.
- SubSessionManager.AcquireOutcome: a file path equal to an `Object.prototype` member such as `constructor` reads as locked at sub-session-manager.js line 265, so the program takes the conflict branch with an undefined `conflictWith`; the model treats such a path as unlocked and grants the lock.
- SubSessionManager.ReleaseOutcome: a file path equal to an `Object.prototype` member reads the prototype at sub-session-manager.js line 324 instead of reporting `File not locked`; the model treats such a path as unlocked.
- CoordinationManager.CoordinateSessions: a session id equal to an `Object.prototype` member such as `constructor` passes the existence check at coordination-manager.js line 506, so the program attaches `coordinations` to the prototype object and succeeds; the model (through CoordinationManager.FirstMissing) reports such an id as unknown and changes nothing. A coordination id equal to such a member passes the checks at lines 555 and 591, after which the program throws a `TypeError` or succeeds without recording anything in the saved document; the model reports the coordination as unknown.
- SubSessionManager.Registry.RequestPermission: with a session id equal to an `Object.prototype` member, the lookups at sub-session-manager.js lines 170 and 190 (and the matching ones in `acquireFileLock`, `releaseFileLock` and `endSubSession`) reach the prototype. For `constructor`, the session's `permissionRequests` is undefined and the `push` throws a `TypeError`. The model answers that the session is not found.
- ClaudeAccessValidator.ClaudePromptAdditions: the notice is abridged. It keeps the banner without its lock emoji, the session line, the first restriction bullet and the request-permission command. It omits three restriction bullets, the other two available commands, the workflow steps and the closing line of claude-access-validator.js lines 285-310. Only the choice between the empty text and a notice naming the session is stated.
- SubSessionManager.ConflictSummaries: follows `GroupByPath`, so its summaries are in first-appearance order rather than `Object.entries` order, and a `constructor` or `__proto__` path is summarised where the program throws.
- CoordinationManager.FileLockConflicts: reports paths in order of first appearance. The program iterates `Object.entries(conflictsByFile)`, which lists integer-like paths first in ascending numeric order, and a `constructor` or `__proto__` path makes the `push` at coordination-manager.js line 141 throw; the model reports it like any other path.
- AgentResolution.Decide: accepts a fuzzy confidence of 0.6 and above, not just above 0.6. That matches the double product 0.8 × 0.75 = 0.6000000000000001, the one boundary that occurs. Other double roundings of `1 − d/n` are not modelled.
- JsString.ToLower: lowers ASCII `A`–`Z` only. Unicode case mapping is not modelled.
- JsString.ToLower: strings are sequences of code points, so lengths and indices count code points rather than the program's UTF-16 code units. The two differ only outside the Basic Multilingual Plane.
- ConfirmationHandler.InterpolateTemplate: inserts each value as literal text. `String.prototype.replace` with a string replacement expands `$&`, `$$`, `` $` `` and `$'` inside the value, so a title containing `$&` renders differently in the program.
- BranchDeduplication.NameOrder: lists names in order of first appearance. `Object.entries` lists integer-like keys such as `"123"` first, in ascending numeric order. Branch names equal to an `Object.prototype` member such as `constructor` or `__proto__` make `branchGroups[name].push` throw; the model groups them like any other name.
- BranchDeduplication.DeduplicateRepo: `lastActivity` is an integer timestamp; the program's `new Date(...)` parsing of the stored string is not modelled.
- NodePath.Normalize: drops a trailing `/`, which `path.normalize` keeps; no call site passes one.

Error paths that are not modelled:

- SessionOrchestration.SessionOrchestrator.ProcessInput: has no `try`/`catch` leading to `handleError`. Nothing it calls throws in the model, and the failure of `executeSession` (the spawned MCP automation) is not modelled.
- SubSessionManager.Registry.EndSubSession: takes one `releaseSavesOk` flag for all of the nested releases. A run where an early release's save succeeds and a later one fails is not expressible.
- AgentSessionTrigger.UpdateBranchTracking: assumes each branch record has an `issues` list; the program throws on one without it.
- BranchTracking.TrackingFiles.HandleBranchCreated: assumes each task-group entry has a `title` and a `branches` object; the program throws on one without them.
- ResolverExamples.InvalidAgentNotListed: proves only that `'invalid-agent'` passes the alias and shortcut rungs. That it also misses the role, technology and fuzzy rungs, as the program's test expects, is not proved: the proof over the whole database exceeds the verifier's resource limit.

Functions that are not modelled, by script:

- `sub-session-manager.js`: `loadJSON` and `saveJSON` (file I/O; a snapshot and a whole write of the registry instead), `generateSessionId` and `generateRequestId` (random; parameters instead), the CLI `main`.
- `coordination-manager.js`: `loadJSON`, `saveJSON` and `generateCoordinationId` (I/O and randomness), `generateCoordinationReport` and `getCoordinationStatus` (console and markdown output), the CLI `main`. `suggestBranchConflictResolution` and `suggestResourceContentionResolution` are kept only as the approach they choose; their description texts are output.
- `claude-access-validator.js`: `extractPathsFromBashCommand` (a regex over shell text; what it finds is the parameter `bashPaths`), `detectSubSession` and `extractSessionIdFromPath` (environment and working directory), `createClaudeValidationWrapper` (it calls a `requestPermission` the script never imports), the CLI `main`.
- `sub-session-integration.js`: everything except `generateSystemRecommendations` and `generateQuickActions` (workspace creation, git, dashboards and maintenance all run processes or touch the file system).
- `pattern-recognition/agent-resolver.js`: `getAllAgents` (a copy of the database). `findExactMatch` and `findShortcutMatch` are the map lookups inside the ladder.
- `pattern-recognition/pattern-matcher.js`: the constructor's and `initializePatterns`' natural-language regexes (parameters instead), `extractContext` and `generateConfirmation` (message text).
- `pattern-recognition/context-extractor.js`: `initializePatterns`, `extractEntities`, `resolveReferences` and `findReferenceContext` (regex extraction; their matches are parameters), `quickExtract` (a wrapper).
- `pattern-recognition/confirmation-handler.js`: the formatting helpers at lines 361-396 other than `getPatternTypeLabel` (display text).
- `pattern-recognition/session-orchestrator.js`: `executeSession`, `triggerMCPAutomation` and `parseAutomationOutput` (a spawned process), `handleNoPattern`, `handleAgentResolutionFailure`, `handleLowConfidence` and `handleError` (message text; the outcome kind is kept), `getState`.
- `process-gemini-feedback.js`: file I/O and the CLI `main`.
- `trigger-agent-session.js`: `generateSessionId` (random), `createAgentTaskFile` and `notifyAgent` (file and console output), the long instruction bodies other than the choice of priority section, the CLI `main`.
- `update-branch-tracking.js`: the file I/O inside `loadJSON` and `saveJSON` (a write's success is a parameter instead), `generateBranchId` (deterministic, unused), the CLI `main`.
- `deduplicate-branches.js`: the file I/O inside `loadJSON` and `saveJSON` (a write's success is a parameter instead), and the run at import.
- `utils.js`: `loadJSON`, `saveJSON`, `generateUniqueId`, `getCurrentTimestamp`, `ensureDirectoryExists` and `logMessage` (I/O, clock and randomness).
- `file-reference-scanner.js`: `getAllFiles` (a directory walk; the file list is a parameter), `extractReferences` and the reference regexes (their matches are parameters), `hasTestFile` and `scanTestCoverage` (file existence), `generateCoverageBaseline` and the coverage percentages (floating point), `getGitCommit` and the issue management at lines 394-684 other than `generateIssueTitle` (`execSync` of git and gh), `scan`, `saveResults`, `generateReport`, `printReport` and the CLI `main` (I/O).
- `generate-doc-tree.js`: the directory walk and `fs.stat` (entries are given as a value), `formatSize` and the `totalSize` sum of `generateSummaryStats` (floating point), the markdown file around the tree, and the run at import.
- Concurrency: no script locks its JSON file between load and save, so two processes can interleave; the model runs one operation at a time.

## Findings

| source | as written | input that shows it | evidently intended | confidence | as-written member | corrected member |
|---|---|---|---|---|---|---|
| agentic-development/scripts/sub-session-manager.js:423-463 | `endSubSession` loads the lock document at line 424, calls `releaseFileLock` for each lock (each reloads, edits and saves the file), then saves its own copy from line 424 at line 455 | a session holding a write lock on `docs/a.md` is ended: the final save writes back the lock, while the session is deleted | the doc comment at line 421 says the session's locks are released: the final step should work on the document the releases left | not executed | SubSessionManager.EndFromStaleSnapshotLeavesLocks | SubSessionManager.Registry.EndSubSessionReloaded, SubSessionManager.EndAfterReleasesKeepsLocksRecorded |
| agentic-development/scripts/sub-session-manager.js:280-287, agentic-development/scripts/coordination-manager.js:126-163 | the conflict branch of `acquireFileLock` adds a `lock-conflict` history entry to its in-memory copy and returns without `saveJSON`, so the entry is lost | session `s2` asks for a write lock on a path `s1` holds: the request is refused, and `detectFileLockConflicts` on the saved document reports nothing | the entry is written, so the coordination manager can report the conflict | not executed | SubSessionManager.AcquireNeverRecordsConflicts, CoordinationManager.ConflictNeverReported | SubSessionManager.AcquireOutcomeLogged, CoordinationManager.LoggedConflictReported |
| agentic-development/scripts/file-reference-scanner.js:178-189 | line 183 reads `if (...); return 'relative-path';`, so the `return` is unconditional and the four tests after it never run; the markdown test at line 179 probes for a string the markdown pattern's source does not contain | the `import` reference pattern is typed `relative-path`, not `import-statement`; the markdown-link pattern is typed `relative-path`, not `markdown-link` | every pattern gets the type its comment names | not executed | ReferenceScanner.ReferenceTypeAsWritten, ReferenceScanner.TypesAsWritten | ReferenceScanner.TypesCorrected |
| agentic-development/scripts/generate-doc-tree.js:28-31, 77-88 | `'*.log'` becomes `new RegExp('.*.log')`, unanchored and with an unescaped `.` | `blog.md` matches `.*.log`, so it is left out of the tree, and a folder holding only `blog.md` disappears | only names ending in `.log` or `.tmp` are excluded | not executed | DocTree.BlogDiscrepancy, DocTree.BlogFolderEmptyAsWritten | DocTree.ShouldIncludeFileIff |
| agentic-development/scripts/file-reference-scanner.js:301, 318-337 | `isScriptFile` compares the lower-cased extension, `getExpectedTestPath` the extension as written | `deploy.SH` is a script file with no candidate test path | the candidates are chosen by the lower-cased extension too | not executed | ReferenceScanner.UpperCaseScriptHasNoCandidates | ReferenceScanner.ScriptFilesHaveCandidates |
| agentic-development/scripts/pattern-recognition/pattern-matcher.js:161, agentic-development/scripts/pattern-recognition/confirmation-handler.js:52, 160-167 | the pattern matcher produces type `claude-code`, while the template and label tables use the key `claude_code` | a recognition result of type `claude-code` that needs no context and is no fuzzy match gets the generic direct template, not the Claude Code one | the type finds its own template | not executed | ConfirmationHandler.ClaudeCodeGetsDirectTemplate | ConfirmationHandler.TemplateKeyCorrected, ConfirmationHandler.EveryKindHasTemplate |
