/**
 * claude-access-validator.js: checks a tool operation of a sub-session
 * against its access rules before it runs, taking a write lock on each path
 * a writing operation touches.
 */
module ClaudeAccessValidator {
  import opened Wrappers
  import opened Seqs
  import opened JsString
  import opened SubSessionManager

  /** The operations that take a write lock on each path. */
  predicate IsWriteOperation(operation: string)
  {
    operation == "write" || operation == "create" || operation == "edit"
  }

  /** The tool-call parameters that name paths; an empty string stands for a missing one. */
  datatype ToolParams = ToolParams(filePath: string, path: string, command: string)

  /**
   * `extractFilePathsFromOperation`. `bashPaths` stands for what the
   * regular expressions of `extractPathsFromBashCommand` find in the command.
   */
  function ExtractFilePaths(operation: string, params: ToolParams, bashPaths: seq<string>): (r: seq<string>)
    ensures operation == "read" || IsWriteOperation(operation) ==>
      r == (if params.filePath != "" then [params.filePath] else [])
    ensures operation == "glob" ==> r == (if params.path != "" then [params.path] else [])
    ensures operation == "bash" ==> r == bashPaths
    ensures operation !in {"read", "write", "create", "edit", "glob", "bash"} ==> r == []
  {
    if operation == "read" || operation == "write" || operation == "create" || operation == "edit" then
      if params.filePath != "" then [params.filePath] else []
    else if operation == "glob" then
      if params.path != "" then [params.path] else []
    else if operation == "bash" then bashPaths
    else []
  }

  /** `path.isAbsolute(p) ? p : path.resolve(p)`, with the working-directory resolution as a parameter. */
  function AbsolutePath(p: string, resolve: string -> string): string
  {
    if StartsWith(p, "/") then p else resolve(p)
  }

  datatype PermissionSuggestion = PermissionSuggestion(command: string, description: string)

  /** `generatePermissionRequestSuggestion`: both branches of its request-type choice give 'file-access'. */
  function PermissionRequestSuggestion(sessionId: string, filePath: string, operation: string): (s: PermissionSuggestion)
    ensures Includes(s.command, " request-permission " + sessionId + " " + filePath + " file-access ")
  {
    var requestType := if operation == "read" then "file-access" else "file-access";
    var args := " request-permission " + sessionId + " " + filePath + " " + requestType + " ";
    var justification := "\"Required for Claude " + operation + " operation\"";
    var command := "node agentic-development/scripts/sub-session-manager.js" + args + justification;
    assert args == " request-permission " + sessionId + " " + filePath + " file-access ";
    IncludesSelf(args);
    IncludesConcat("node agentic-development/scripts/sub-session-manager.js", args, justification, args);
    PermissionSuggestion(command, "Request permission to " + operation + " " + filePath)
  }

  datatype ValidatedPath = ValidatedPath(filePath: string, operation: string, reason: string)

  /** The answer of `validateOperation`. */
  datatype Validation =
    | MainAgent
    | Validated(autoLockAcquired: bool, validatedPaths: seq<ValidatedPath>)
    | AccessDenied(filePath: string, reason: string, suggestion: PermissionSuggestion)
    | LockConflictRefusal(filePath: string, reason: string, conflictWith: string)
  {
    predicate Allowed()
    {
      MainAgent? || Validated?
    }
  }

  /**
   * The loop of `validateOperation` over the remaining paths, with the flag
   * and the validated paths so far: the registry afterwards and the answer.
   */
  function ValidatePaths(d: Snapshot, sessionId: string, operation: string, paths: seq<string>,
                         resolve: string -> string, now: int, saveOk: bool,
                         acquired: bool, done: seq<ValidatedPath>): (r: (Snapshot, Validation))
    ensures r.1 != MainAgent
    ensures !IsWriteOperation(operation) ==> r.0 == d
    ensures r.1.LockConflictRefusal? ==> IsWriteOperation(operation)
    decreases |paths|
  {
    if paths == [] then (d, Validated(acquired, done))
    else
      var p := AbsolutePath(paths[0], resolve);
      var access := CheckFileAccess(d, sessionId, p);
      if !access.allowed then
        (d, AccessDenied(p, "Access denied to " + p + ": " + access.reason,
                         PermissionRequestSuggestion(sessionId, p, operation)))
      else
        var entry := ValidatedPath(p, operation, access.reason);
        if IsWriteOperation(operation) then
          var (d', res) := AcquireOutcome(d, sessionId, p, Write, "Claude " + operation + " operation", [], now, saveOk);
          if res.Conflicted? then
            (d', LockConflictRefusal(p, "File lock conflict: " + p + " is locked by " + res.conflictWith, res.conflictWith))
          else
            ValidatePaths(d', sessionId, operation, paths[1..], resolve, now, saveOk,
                          acquired || res.Acquired?, done + [entry])
        else
          ValidatePaths(d, sessionId, operation, paths[1..], resolve, now, saveOk, acquired, done + [entry])
  }

  /** What `validateOperation` leaves in the registry and answers. */
  function ValidateOutcome(d: Snapshot, sessionId: string, operation: string, params: ToolParams,
                           bashPaths: seq<string>, resolve: string -> string, now: int, saveOk: bool)
    : (Snapshot, Validation)
  {
    if sessionId == "" then (d, MainAgent)
    else ValidatePaths(d, sessionId, operation, ExtractFilePaths(operation, params, bashPaths), resolve, now, saveOk, false, [])
  }

  /** `validateOperation`: each path is checked, and write operations lock it, until one is refused. */
  method ValidateOperation(registry: Registry, sessionId: string, operation: string, params: ToolParams,
                           bashPaths: seq<string>, resolve: string -> string, now: int, saveOk: bool)
    returns (r: Validation)
    modifies registry
    ensures (registry.Load(), r)
      == ValidateOutcome(old(registry.Load()), sessionId, operation, params, bashPaths, resolve, now, saveOk)
  {
    if sessionId == "" {
      return MainAgent;
    }
    var filePaths := ExtractFilePaths(operation, params, bashPaths);
    r := CheckPaths(registry, sessionId, operation, filePaths, resolve, now, saveOk);
  }

  /** The loop of `validateOperation` over the extracted paths. */
  method CheckPaths(registry: Registry, sessionId: string, operation: string, filePaths: seq<string>,
                    resolve: string -> string, now: int, saveOk: bool)
    returns (r: Validation)
    modifies registry
    ensures (registry.Load(), r)
      == ValidatePaths(old(registry.Load()), sessionId, operation, filePaths, resolve, now, saveOk, false, [])
  {
    ghost var start := registry.Load();
    var validated: seq<ValidatedPath> := [];
    var autoLockAcquired := false;
    var i := 0;
    while i < |filePaths|
      invariant 0 <= i <= |filePaths|
      invariant start == old(registry.Load())
      invariant ValidatePaths(start, sessionId, operation, filePaths, resolve, now, saveOk, false, [])
        == ValidatePaths(registry.Load(), sessionId, operation, filePaths[i..], resolve, now, saveOk,
                         autoLockAcquired, validated)
    {
      var refusal;
      assert filePaths[i..][1..] == filePaths[i + 1..];
      refusal, autoLockAcquired, validated :=
        CheckPath(registry, sessionId, operation, filePaths[i..], resolve, now, saveOk, autoLockAcquired, validated);
      if refusal.Some? {
        return refusal.value;
      }
      i := i + 1;
    }
    assert filePaths[i..] == [];
    r := Validated(autoLockAcquired, validated);
  }

  /**
   * One pass of the loop of `validateOperation`, on the first of `paths`:
   * either the refusal that ends the loop, or the flag and the validated
   * paths it goes on with.
   */
  method CheckPath(registry: Registry, sessionId: string, operation: string, paths: seq<string>,
                   resolve: string -> string, now: int, saveOk: bool, acquired: bool, done: seq<ValidatedPath>)
    returns (refusal: Option<Validation>, acquired': bool, done': seq<ValidatedPath>)
    requires paths != []
    modifies registry
    ensures refusal.Some? ==>
      (registry.Load(), refusal.value)
      == ValidatePaths(old(registry.Load()), sessionId, operation, paths, resolve, now, saveOk, acquired, done)
    ensures refusal.None? ==>
      ValidatePaths(old(registry.Load()), sessionId, operation, paths, resolve, now, saveOk, acquired, done)
      == ValidatePaths(registry.Load(), sessionId, operation, paths[1..], resolve, now, saveOk, acquired', done')
  {
    var absolutePath := AbsolutePath(paths[0], resolve);
    var access := CheckFileAccess(registry.Load(), sessionId, absolutePath);
    if !access.allowed {
      refusal := Some(AccessDenied(absolutePath, "Access denied to " + absolutePath + ": " + access.reason,
                                   PermissionRequestSuggestion(sessionId, absolutePath, operation)));
      return refusal, acquired, done;
    }
    var entry := ValidatedPath(absolutePath, operation, access.reason);
    acquired', done' := acquired, done + [entry];
    if IsWriteOperation(operation) {
      var lockResult := registry.AcquireFileLock(sessionId, absolutePath, Write,
                                                 "Claude " + operation + " operation", [], now, saveOk);
      assert lockResult.Success?;
      if lockResult.value.Conflicted? {
        refusal := Some(LockConflictRefusal(absolutePath,
          "File lock conflict: " + absolutePath + " is locked by " + lockResult.value.conflictWith,
          lockResult.value.conflictWith));
        return;
      }
      if lockResult.value.Acquired? {
        acquired' := true;
      }
    }
    refusal := None;
  }

  // ------------------------------------------------------------- properties

  /** An acquisition changes no access decision: it touches only lock lists and activity times. */
  lemma AcquireKeepsAccess(d: Snapshot, sessionId: string, filePath: string, lockType: LockType, reason: string,
                           relatedFiles: seq<string>, now: int, saveOk: bool, s: string, p: string)
    requires sessionId in d.activeSessions
    ensures CheckFileAccess(AcquireOutcome(d, sessionId, filePath, lockType, reason, relatedFiles, now, saveOk).0, s, p)
         == CheckFileAccess(d, s, p)
  {
    var d' := AcquireOutcome(d, sessionId, filePath, lockType, reason, relatedFiles, now, saveOk).0;
    if s in d.activeSessions {
      var (before, after) := (d.activeSessions[s], d'.activeSessions[s]);
      assert after.deniedPaths == before.deniedPaths && after.allowedPaths == before.allowedPaths
             && after.accessMode == before.accessMode;
    }
    SameRulesSameAccess(d, d', s, p);
  }

  /** The access check of a session reads only its denied and allowed paths and its mode. */
  lemma SameRulesSameAccess(d: Snapshot, d': Snapshot, s: string, p: string)
    requires s in d'.activeSessions <==> s in d.activeSessions
    requires s in d.activeSessions ==>
      var (before, after) := (d.activeSessions[s], d'.activeSessions[s]);
      after.deniedPaths == before.deniedPaths && after.allowedPaths == before.allowedPaths
      && after.accessMode == before.accessMode
    ensures CheckFileAccess(d', s, p) == CheckFileAccess(d, s, p)
  {
  }

  /** The registry after the step for one allowed path: locked for a writing operation. */
  function AfterAllowed(d: Snapshot, sessionId: string, operation: string, p: string, now: int, saveOk: bool)
    : (r: (Snapshot, bool))
    requires sessionId in d.activeSessions
    ensures forall q :: CheckFileAccess(r.0, sessionId, q) == CheckFileAccess(d, sessionId, q)
  {
    if IsWriteOperation(operation) then
      var (d', res) := AcquireOutcome(d, sessionId, p, Write, "Claude " + operation + " operation", [], now, saveOk);
      forall q ensures CheckFileAccess(d', sessionId, q) == CheckFileAccess(d, sessionId, q) {
        AcquireKeepsAccess(d, sessionId, p, Write, "Claude " + operation + " operation", [], now, saveOk, sessionId, q);
      }
      (d', res.Acquired?)
    else (d, false)
  }

  /** The path `p` passes the access check of `sessionId` once made absolute. */
  predicate PathAllowed(d: Snapshot, sessionId: string, p: string, resolve: string -> string)
  {
    CheckFileAccess(d, sessionId, AbsolutePath(p, resolve)).allowed
  }

  /**
   * One step of the loop: a refused first path ends it with a refusal for
   * access to that path; an allowed one, unless its lock conflicts, is
   * listed and the loop goes on from the registry after its lock.
   */
  lemma ValidatePathsStep(d: Snapshot, sessionId: string, operation: string, paths: seq<string>,
                          resolve: string -> string, now: int, saveOk: bool,
                          acquired: bool, done: seq<ValidatedPath>)
    requires paths != []
    ensures var r := ValidatePaths(d, sessionId, operation, paths, resolve, now, saveOk, acquired, done);
      var p := AbsolutePath(paths[0], resolve);
      if !PathAllowed(d, sessionId, paths[0], resolve) then r.1.AccessDenied? && r.1.filePath == p
      else
        var entry := ValidatedPath(p, operation, CheckFileAccess(d, sessionId, p).reason);
        var after := AfterAllowed(d, sessionId, operation, p, now, saveOk);
        !r.1.LockConflictRefusal? ==>
          r == ValidatePaths(after.0, sessionId, operation, paths[1..], resolve, now, saveOk, acquired || after.1,
                             done + [entry])
  {
  }

  /** A validated operation had every path allowed. */
  lemma {:induction false} ValidatedPathsAllowed(d: Snapshot, sessionId: string, operation: string, paths: seq<string>,
                                                 resolve: string -> string, now: int, saveOk: bool,
                                                 acquired: bool, done: seq<ValidatedPath>)
    ensures ValidatePaths(d, sessionId, operation, paths, resolve, now, saveOk, acquired, done).1.Validated? ==>
              forall j | 0 <= j < |paths| :: PathAllowed(d, sessionId, paths[j], resolve)
    decreases |paths|
  {
    if paths != [] {
      ValidatePathsStep(d, sessionId, operation, paths, resolve, now, saveOk, acquired, done);
      if PathAllowed(d, sessionId, paths[0], resolve) {
        var p := AbsolutePath(paths[0], resolve);
        var entry := ValidatedPath(p, operation, CheckFileAccess(d, sessionId, p).reason);
        var (next, got) := AfterAllowed(d, sessionId, operation, p, now, saveOk);
        ValidatedPathsAllowed(next, sessionId, operation, paths[1..], resolve, now, saveOk, acquired || got, done + [entry]);
        if ValidatePaths(d, sessionId, operation, paths, resolve, now, saveOk, acquired, done).1.Validated? {
          forall j | 1 <= j < |paths| ensures PathAllowed(d, sessionId, paths[j], resolve) {
            assert paths[1..][j - 1] == paths[j];
            assert PathAllowed(next, sessionId, paths[j], resolve);
          }
        }
      }
    }
  }

  /**
   * A validated operation lists every path, made absolute, in their order,
   * after those validated before.
   */
  lemma {:induction false} ValidatedPathsListed(d: Snapshot, sessionId: string, operation: string, paths: seq<string>,
                                                resolve: string -> string, now: int, saveOk: bool,
                                                acquired: bool, done: seq<ValidatedPath>)
    ensures var r := ValidatePaths(d, sessionId, operation, paths, resolve, now, saveOk, acquired, done);
      r.1.Validated? ==> Listed(r.1.validatedPaths, done, operation, paths, resolve)
    decreases |paths|
  {
    var r := ValidatePaths(d, sessionId, operation, paths, resolve, now, saveOk, acquired, done);
    if r.1.Validated? {
      if paths == [] {
        assert r.1.validatedPaths == done;
      } else {
        ValidatePathsStep(d, sessionId, operation, paths, resolve, now, saveOk, acquired, done);
        var p := AbsolutePath(paths[0], resolve);
        var entry := ValidatedPath(p, operation, CheckFileAccess(d, sessionId, p).reason);
        var (next, got) := AfterAllowed(d, sessionId, operation, p, now, saveOk);
        ValidatedPathsListed(next, sessionId, operation, paths[1..], resolve, now, saveOk, acquired || got, done + [entry]);
        ListedStep(r.1.validatedPaths, done, entry, operation, paths, resolve);
      }
    }
  }

  /** `v` lists `done`, then one entry per path of `paths`, in order, each with the operation. */
  ghost predicate Listed(v: seq<ValidatedPath>, done: seq<ValidatedPath>, operation: string, paths: seq<string>,
                         resolve: string -> string)
  {
    && |v| == |done| + |paths| && v[..|done|] == done
    && forall k | 0 <= k < |paths| ::
         v[|done| + k].filePath == AbsolutePath(paths[k], resolve) && v[|done| + k].operation == operation
  }

  /** The listing for `paths` is the entry for its first path followed by the listing for the rest. */
  lemma ListedStep(v: seq<ValidatedPath>, done: seq<ValidatedPath>, entry: ValidatedPath, operation: string,
                   paths: seq<string>, resolve: string -> string)
    requires paths != [] && entry.filePath == AbsolutePath(paths[0], resolve) && entry.operation == operation
    requires Listed(v, done + [entry], operation, paths[1..], resolve)
    ensures Listed(v, done, operation, paths, resolve)
  {
    assert v[..|done|] == v[..|done| + 1][..|done|];
    forall k | 0 <= k < |paths|
      ensures v[|done| + k].filePath == AbsolutePath(paths[k], resolve) && v[|done| + k].operation == operation
    {
      if k > 0 {
        assert paths[1..][k - 1] == paths[k];
      } else {
        assert v[|done|] == v[..|done| + 1][|done|];
      }
    }
  }

  /** A refusal for access names the first refused path, every earlier path having been allowed. */
  lemma {:induction false} FirstRefusedPath(d: Snapshot, sessionId: string, operation: string, paths: seq<string>,
                                            resolve: string -> string, now: int, saveOk: bool,
                                            acquired: bool, done: seq<ValidatedPath>)
    ensures var r := ValidatePaths(d, sessionId, operation, paths, resolve, now, saveOk, acquired, done);
      r.1.AccessDenied? ==>
        exists i | 0 <= i < |paths| ::
          r.1.filePath == AbsolutePath(paths[i], resolve) && !PathAllowed(d, sessionId, paths[i], resolve)
          && forall j | 0 <= j < i :: PathAllowed(d, sessionId, paths[j], resolve)
    decreases |paths|
  {
    if paths != [] {
      ValidatePathsStep(d, sessionId, operation, paths, resolve, now, saveOk, acquired, done);
      var r := ValidatePaths(d, sessionId, operation, paths, resolve, now, saveOk, acquired, done);
      if PathAllowed(d, sessionId, paths[0], resolve) {
        var p := AbsolutePath(paths[0], resolve);
        var entry := ValidatedPath(p, operation, CheckFileAccess(d, sessionId, p).reason);
        var (next, got) := AfterAllowed(d, sessionId, operation, p, now, saveOk);
        FirstRefusedPath(next, sessionId, operation, paths[1..], resolve, now, saveOk, acquired || got, done + [entry]);
        if r.1.AccessDenied? {
          RefusedStep(d, next, sessionId, paths, resolve, r.1.filePath);
        }
      } else {
        assert r.1.filePath == AbsolutePath(paths[0], resolve) && !PathAllowed(d, sessionId, paths[0], resolve);
      }
    }
  }

  /** A refusal within the rest of the paths, after an allowed first path, is a refusal within all of them. */
  lemma RefusedStep(d: Snapshot, next: Snapshot, sessionId: string, paths: seq<string>, resolve: string -> string,
                    refused: string)
    requires paths != [] && PathAllowed(d, sessionId, paths[0], resolve)
    requires forall q :: CheckFileAccess(next, sessionId, q) == CheckFileAccess(d, sessionId, q)
    requires exists i | 0 <= i < |paths[1..]| ::
               refused == AbsolutePath(paths[1..][i], resolve) && !PathAllowed(next, sessionId, paths[1..][i], resolve)
               && forall j | 0 <= j < i :: PathAllowed(next, sessionId, paths[1..][j], resolve)
    ensures exists i | 0 <= i < |paths| ::
              refused == AbsolutePath(paths[i], resolve) && !PathAllowed(d, sessionId, paths[i], resolve)
              && forall j | 0 <= j < i :: PathAllowed(d, sessionId, paths[j], resolve)
  {
    var i :| 0 <= i < |paths[1..]| && refused == AbsolutePath(paths[1..][i], resolve)
             && !PathAllowed(next, sessionId, paths[1..][i], resolve)
             && forall j | 0 <= j < i :: PathAllowed(next, sessionId, paths[1..][j], resolve);
    assert paths[1..][i] == paths[i + 1];
    forall j | 0 <= j < i + 1 ensures PathAllowed(d, sessionId, paths[j], resolve) {
      if j > 0 {
        assert paths[1..][j - 1] == paths[j];
      }
    }
  }

  /** Read, glob, bash and unhandled operations never touch the registry. */
  lemma NonWritingOperationKeepsRegistry(d: Snapshot, sessionId: string, operation: string, params: ToolParams,
                                         bashPaths: seq<string>, resolve: string -> string, now: int, saveOk: bool)
    requires !IsWriteOperation(operation)
    ensures ValidateOutcome(d, sessionId, operation, params, bashPaths, resolve, now, saveOk).0 == d
  {
  }

  /**
   * With a session, an operation the extraction does not handle ('delete'
   * among them) is allowed without any check.
   */
  lemma UnhandledOperationAllowed(d: Snapshot, sessionId: string, operation: string, params: ToolParams,
                                  bashPaths: seq<string>, resolve: string -> string, now: int, saveOk: bool)
    requires sessionId != "" && operation !in {"read", "write", "create", "edit", "glob", "bash"}
    ensures ValidateOutcome(d, sessionId, operation, params, bashPaths, resolve, now, saveOk) == (d, Validated(false, []))
  {
    assert ExtractFilePaths(operation, params, bashPaths) == [];
  }

  /** Without a session id the operation is allowed, nothing is extracted and the registry is untouched. */
  lemma MainAgentUnrestricted(d: Snapshot, operation: string, params: ToolParams,
                              bashPaths: seq<string>, resolve: string -> string, now: int, saveOk: bool)
    ensures ValidateOutcome(d, "", operation, params, bashPaths, resolve, now, saveOk) == (d, MainAgent)
  {
  }

  /** A read-only validation reports no lock acquired beyond those before it. */
  lemma {:induction false} ReadOnlyAcquiresNothing(d: Snapshot, sessionId: string, operation: string, paths: seq<string>,
                                                   resolve: string -> string, now: int, saveOk: bool,
                                                   acquired: bool, done: seq<ValidatedPath>)
    requires !IsWriteOperation(operation)
    ensures var r := ValidatePaths(d, sessionId, operation, paths, resolve, now, saveOk, acquired, done);
      r.1.Validated? ==> r.1.autoLockAcquired == acquired
    decreases |paths|
  {
    if paths != [] && PathAllowed(d, sessionId, paths[0], resolve) {
      var p := AbsolutePath(paths[0], resolve);
      var entry := ValidatedPath(p, operation, CheckFileAccess(d, sessionId, p).reason);
      ReadOnlyAcquiresNothing(d, sessionId, operation, paths[1..], resolve, now, saveOk, acquired, done + [entry]);
    }
  }

  /** An acquisition leaves the locks on every other path as they were. */
  lemma AcquireKeepsOtherLocks(d: Snapshot, sessionId: string, filePath: string, lockType: LockType, reason: string,
                               relatedFiles: seq<string>, now: int, saveOk: bool, q: string)
    requires sessionId in d.activeSessions && q != filePath && q in d.fileLocks
    ensures var d' := AcquireOutcome(d, sessionId, filePath, lockType, reason, relatedFiles, now, saveOk).0;
      q in d'.fileLocks && d'.fileLocks[q] == d.fileLocks[q]
  {
  }

  /**
   * A validated writing operation whose saves succeed holds a write lock of
   * the session on every path, and reports a lock acquired exactly when
   * there was a path.
   */
  lemma {:induction false} ValidatedWriteLocksAll(d: Snapshot, sessionId: string, operation: string, paths: seq<string>,
                                                  resolve: string -> string, now: int,
                                                  acquired: bool, done: seq<ValidatedPath>)
    requires IsWriteOperation(operation)
    ensures var r := ValidatePaths(d, sessionId, operation, paths, resolve, now, true, acquired, done);
      r.1.Validated? ==>
        r.1.autoLockAcquired == (acquired || paths != [])
        && (forall q | q in d.fileLocks :: q in r.0.fileLocks && r.0.fileLocks[q] == d.fileLocks[q])
        && forall j | 0 <= j < |paths| ::
             var p := AbsolutePath(paths[j], resolve);
             p in r.0.fileLocks && r.0.fileLocks[p].lockedBy == sessionId && r.0.fileLocks[p].lockType == Write
    decreases |paths|
  {
    var r := ValidatePaths(d, sessionId, operation, paths, resolve, now, true, acquired, done);
    if paths != [] && PathAllowed(d, sessionId, paths[0], resolve) {
      var p := AbsolutePath(paths[0], resolve);
      var entry := ValidatedPath(p, operation, CheckFileAccess(d, sessionId, p).reason);
      var (next, res) := AcquireOutcome(d, sessionId, p, Write, "Claude " + operation + " operation", [], now, true);
      if !res.Conflicted? {
        assert res == Acquired(false);
        ValidatedWriteLocksAll(next, sessionId, operation, paths[1..], resolve, now, true, done + [entry]);
        assert r == ValidatePaths(next, sessionId, operation, paths[1..], resolve, now, true, true, done + [entry]);
        if r.1.Validated? {
          forall q | q in d.fileLocks ensures q in next.fileLocks && next.fileLocks[q] == d.fileLocks[q] {
            AcquireKeepsOtherLocks(d, sessionId, p, Write, "Claude " + operation + " operation", [], now, true, q);
          }
          forall j | 0 <= j < |paths|
            ensures AbsolutePath(paths[j], resolve) in r.0.fileLocks
              && r.0.fileLocks[AbsolutePath(paths[j], resolve)].lockedBy == sessionId
              && r.0.fileLocks[AbsolutePath(paths[j], resolve)].lockType == Write
          {
            if j > 0 {
              assert paths[1..][j - 1] == paths[j];
            }
          }
        }
      }
    }
  }

  /**
   * A session that writes a path and then writes it again is refused the
   * second time, as conflicting with its own lock: the acquisition does not
   * look at who holds the lock.
   */
  lemma RepeatedWriteConflictsWithItself(d: Snapshot, sessionId: string, operation: string, p: string,
                                         resolve: string -> string, now: int, later: int)
    requires IsWriteOperation(operation) && StartsWith(p, "/")
    requires p !in d.fileLocks && PathAllowed(d, sessionId, p, resolve)
    ensures var first := ValidatePaths(d, sessionId, operation, [p], resolve, now, true, false, []);
      first.1.Validated? && first.1.autoLockAcquired
      && ValidatePaths(first.0, sessionId, operation, [p], resolve, later, true, false, []).1
         == LockConflictRefusal(p, "File lock conflict: " + p + " is locked by " + sessionId, sessionId)
  {
    var first := ValidatePaths(d, sessionId, operation, [p], resolve, now, true, false, []);
    ValidatedWriteLocksAll(d, sessionId, operation, [p], resolve, now, false, []);
    var (next, _) := AfterAllowed(d, sessionId, operation, p, now, true);
    assert first.0 == next;
    assert PathAllowed(first.0, sessionId, p, resolve);
  }

  /**
   * A lock taken for an earlier path stays when a later path is refused:
   * writing `[p, q]` with `q` denied leaves `p` locked by the session.
   */
  lemma RefusalKeepsEarlierLock(d: Snapshot, sessionId: string, operation: string, p: string, q: string,
                                resolve: string -> string, now: int)
    requires IsWriteOperation(operation) && StartsWith(p, "/") && StartsWith(q, "/") && p != q
    requires p !in d.fileLocks
    requires CheckFileAccess(d, sessionId, p).allowed && !CheckFileAccess(d, sessionId, q).allowed
    ensures var r := ValidatePaths(d, sessionId, operation, [p, q], resolve, now, true, false, []);
      r.1.AccessDenied? && r.1.filePath == q
      && p in r.0.fileLocks && r.0.fileLocks[p].lockedBy == sessionId
  {
    var (d', res) := AcquireOutcome(d, sessionId, p, Write, "Claude " + operation + " operation", [], now, true);
    AcquireKeepsAccess(d, sessionId, p, Write, "Claude " + operation + " operation", [], now, true, sessionId, q);
    assert [p, q][1..] == [q];
  }

  /** A string whose middle part ends in a non-empty string is not empty. */
  lemma NonEmptyAround(a: string, p: string, s: string, b: string)
    requires s != []
    ensures a + (p + s) + b != []
  {
    assert |a + (p + s) + b| > 0;
  }

  /** The banner that opens the notice. */
  function NoticeBanner(): string
  {
    "\n\nSUB-SESSION ACCESS CONTROL ACTIVE\n=====================================\n\n"
  }

  /** The restrictions that close the notice, with the command for asking permission. */
  function NoticeRestrictions(sessionId: string): string
  {
    "\n\nIMPORTANT RESTRICTIONS:\n- You are running in sub-session mode with restricted file access\n"
    + "- Request permission: node agentic-development/scripts/sub-session-manager.js request-permission "
    + sessionId + " <file-path> file-access \"<justification>\"\n"
  }

  /** `generateClaudePromptAdditions`: nothing without a session, otherwise a notice naming it. */
  function ClaudePromptAdditions(sessionId: string): (r: string)
    ensures r == "" <==> sessionId == ""
    ensures sessionId != "" ==> Includes(r, "Session ID: " + sessionId)
  {
    if sessionId == "" then ""
    else
      var line := "Session ID: " + sessionId;
      IncludesSelf(line);
      IncludesConcat(NoticeBanner(), line, NoticeRestrictions(sessionId), line);
      NonEmptyAround(NoticeBanner(), "Session ID: ", sessionId, NoticeRestrictions(sessionId));
      NoticeBanner() + line + NoticeRestrictions(sessionId)
  }
}
