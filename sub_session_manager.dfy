/**
 * The sub-session registry of sub-session-manager.js: an advisory file-lock
 * and permission document shared by a main agent and its sub-agents, kept in
 * `.sub-session-locks.json`.
 *
 * Every operation loads the whole document, changes its own copy and writes
 * the whole copy back.  The class `Registry` is the persisted document; a
 * `Snapshot` is the copy an operation loaded.  The clock (`now`), the random
 * identifiers and whether a write succeeds (`saveOk`) are parameters.
 */
module SubSessionManager {
  import opened Wrappers
  import opened Seqs
  import opened JsString

  /** The document keeps at most this many history entries. */
  const HistoryLimit: nat := 100

  datatype AccessMode = Restricted | Expanded | Custom
  datatype LockType = Read | Write | Exclusive
  datatype RequestType = FileAccess | DirectoryAccess | ToolPermission
  datatype RequestStatus = Pending | Approved | Denied | Expired
  datatype HistoryAction =
    | SessionCreated | PermissionRequested | ReadLockShared | LockConflict
    | Acquire | Release | SessionEnded

  function RequestTypeName(t: RequestType): string
  {
    match t
    case FileAccess => "file-access"
    case DirectoryAccess => "directory-access"
    case ToolPermission => "tool-permission"
  }

  /** An empty `parentBranch` or `subBranch` stands for the source's missing value. */
  datatype CoordinationData = CoordinationData(
    relatedMainSession: Option<string>, taskScope: string, parentBranch: string, subBranch: string)

  datatype Session = Session(
    mainAgent: string, subAgent: string, startTime: int, lastActivity: int,
    accessMode: AccessMode, allowedPaths: seq<string>, deniedPaths: seq<string>,
    lockAcquisitions: seq<string>, permissionRequests: seq<string>,
    coordinationData: CoordinationData, autoExpiry: Option<int>,
    coordinations: seq<string>)

  /** An empty `coReaders` stands for the source's missing or empty list. */
  datatype FileLock = FileLock(
    lockedBy: string, lockType: LockType, acquiredAt: int, reason: string,
    relatedFiles: seq<string>, coReaders: seq<string>)

  datatype PermissionRequest = PermissionRequest(
    sessionId: string, requestType: RequestType, requestedResource: string,
    justification: string, status: RequestStatus, requestedAt: int,
    respondedAt: Option<int>, respondedBy: Option<string>, autoApprovalRules: seq<string>)

  datatype HistoryEntry = HistoryEntry(
    timestamp: int, action: HistoryAction, sessionId: string, filePath: string, details: string)

  datatype CoordinationStatus = Active | Resolved

  datatype CoordinationMessage = CoordinationMessage(
    timestamp: int, fromSession: string, message: string, messageType: string, id: string)

  datatype Resolution = Resolution(approach: string, resolvedBy: string, resolvedAt: int)

  /** A coordination record; coordination-manager.js keeps these in the same document. */
  datatype Coordination = Coordination(
    id: string, coordinationType: string, sessions: seq<string>, startTime: int,
    status: CoordinationStatus, context: map<string, string>,
    messages: seq<CoordinationMessage>, resolution: Option<Resolution>)

  /** The whole registry document as one operation loaded it. */
  datatype Snapshot = Snapshot(
    lastUpdated: int,
    activeSessions: map<string, Session>,
    fileLocks: map<string, FileLock>,
    permissionRegistry: map<string, PermissionRequest>,
    lockHistory: seq<HistoryEntry>,
    coordinations: map<string, Coordination>)

  /** The document a missing registry file reads as. */
  function EmptySnapshot(now: int): Snapshot
  {
    Snapshot(now, map[], map[], map[], [], map[])
  }

  /** What a successful write leaves in the file: the copy, stamped with the write time. */
  function Saved(d: Snapshot, copy: Snapshot, now: int, saveOk: bool): Snapshot
  {
    if saveOk then copy.(lastUpdated := now) else d
  }

  // ---------------------------------------------------------------- history

  /** The newest `n` entries of a newest-first list. */
  function Newest<T>(xs: seq<T>, n: nat): seq<T>
  {
    if |xs| <= n then xs else xs[..n]
  }

  /** `addLockHistory`: the entry goes first and the list is cut to the newest 100. */
  function AddLockHistory(h: seq<HistoryEntry>, e: HistoryEntry): (r: seq<HistoryEntry>)
    ensures |r| == if |h| < HistoryLimit then |h| + 1 else HistoryLimit
    ensures r[0] == e
    ensures r[1..] == h[..|r| - 1]
  {
    Newest([e] + h, HistoryLimit)
  }

  /** Cutting before or after putting one more element in front gives the same list. */
  lemma NewestCons<T>(e: T, xs: seq<T>, n: nat)
    requires n > 0
    ensures Newest([e] + Newest(xs, n), n) == Newest([e] + xs, n)
  {
    if |xs| > n {
      assert ([e] + xs[..n])[..n] == ([e] + xs)[..n];
    }
  }

  /** Adding the entries `es` one after the other. */
  function AddAll(h: seq<HistoryEntry>, es: seq<HistoryEntry>): seq<HistoryEntry>
  {
    if es == [] then h else AddLockHistory(AddAll(h, es[..|es| - 1]), es[|es| - 1])
  }

  /**
   * However many entries are added, the history holds the newest 100 of all
   * entries ever added, newest first.
   */
  lemma {:induction false} AddAllKeepsNewest(h: seq<HistoryEntry>, es: seq<HistoryEntry>)
    requires |h| <= HistoryLimit
    ensures AddAll(h, es) == Newest(Reverse(es) + h, HistoryLimit)
    decreases |es|
  {
    if es != [] {
      var init, e := es[..|es| - 1], es[|es| - 1];
      AddAllKeepsNewest(h, init);
      var older := Reverse(init) + h;
      assert Reverse(es) + h == [e] + older;
      NewestCons(e, older, HistoryLimit);
    }
  }

  // ---------------------------------------------------------- access rules

  /** Some entry of `pats` occurs in `s` (`pats.some(p => s.includes(p))`). */
  predicate ContainsAny(s: string, pats: seq<string>)
  {
    exists i | 0 <= i < |pats| :: Includes(s, pats[i])
  }

  const SafeReadPaths: seq<string> := [
    "/README.md", "/package.json", "/docs/", "/agentic-development/workflows/",
    "/.github/workflows/", "/scripts/", "/CLAUDE.md"]

  const SafeWritePaths: seq<string> := [
    "/docs/", "/agentic-development/auto-generated/", "/IMPLEMENTATION_NOTES.md",
    "/ENHANCEMENT_DOCUMENTATION.md"]

  const CriticalPaths: seq<string> := [
    "/.git/", "/.env", "/package-lock.json", "/node_modules/", "/scripts/setup-", "/scripts/cleanup-"]

  /** `checkAutoApprovalRules`: the rules under which a request is approved without review. */
  function CheckAutoApprovalRules(resource: string, t: RequestType): (r: seq<string>)
    ensures "safe-read-path" in r <==> t == FileAccess && ContainsAny(resource, SafeReadPaths)
    ensures "safe-documentation-write" in r <==> t == FileAccess && ContainsAny(resource, SafeWritePaths)
    ensures forall x | x in r :: x == "safe-read-path" || x == "safe-documentation-write"
    ensures NoDuplicates(r)
  {
    if t != FileAccess then []
    else
      (if ContainsAny(resource, SafeReadPaths) then ["safe-read-path"] else [])
      + (if ContainsAny(resource, SafeWritePaths) then ["safe-documentation-write"] else [])
  }

  /** A documentation path is approved under both rules, read rule first. */
  lemma DocsPathApprovedTwice(resource: string)
    requires Includes(resource, "/docs/")
    ensures CheckAutoApprovalRules(resource, FileAccess) == ["safe-read-path", "safe-documentation-write"]
  {
    assert Includes(resource, SafeReadPaths[2]);
    assert Includes(resource, SafeWritePaths[0]);
  }

  datatype AccessDecision = AccessDecision(allowed: bool, reason: string)

  /** `checkFileAccess`: the first matching rule decides. */
  function CheckFileAccess(d: Snapshot, sessionId: string, filePath: string): (r: AccessDecision)
    ensures r.allowed <==>
      sessionId in d.activeSessions &&
      var s := d.activeSessions[sessionId];
      !ContainsAny(filePath, s.deniedPaths) &&
      (ContainsAny(filePath, s.allowedPaths) ||
       (s.accessMode == Expanded && !ContainsAny(filePath, CriticalPaths)))
    ensures sessionId !in d.activeSessions ==> r.reason == "Session not found"
    ensures sessionId in d.activeSessions && ContainsAny(filePath, d.activeSessions[sessionId].deniedPaths)
      ==> r.reason == "Explicitly denied path"
  {
    if sessionId !in d.activeSessions then AccessDecision(false, "Session not found")
    else
      var s := d.activeSessions[sessionId];
      if ContainsAny(filePath, s.deniedPaths) then AccessDecision(false, "Explicitly denied path")
      else if ContainsAny(filePath, s.allowedPaths) then AccessDecision(true, "Explicitly allowed path")
      else if s.accessMode == Restricted then AccessDecision(false, "Restricted mode - request permission")
      else if s.accessMode == Expanded then
        if ContainsAny(filePath, CriticalPaths) then AccessDecision(false, "Critical system file - requires permission")
        else AccessDecision(true, "Expanded mode default access")
      else AccessDecision(false, "Custom mode - specific rules not implemented")
  }

  // --------------------------------------------------------------- sessions

  datatype SessionOptions = SessionOptions(
    mainAgent: string, subAgent: string, taskScope: string, accessMode: AccessMode,
    allowedPaths: seq<string>, deniedPaths: seq<string>, parentBranch: string,
    subBranch: string, autoExpiry: Option<int>)

  /** `generateSessionId(subAgent)`: agent, task type, clock and random suffix. */
  function SessionId(subAgent: string, now: int, random: string): string
  {
    subAgent + "-sub-task-" + IntToString(now) + "-" + random
  }

  function NewSession(o: SessionOptions, now: int): Session
  {
    Session(o.mainAgent, o.subAgent, now, now, o.accessMode, o.allowedPaths, o.deniedPaths, [], [],
            CoordinationData(None, o.taskScope, o.parentBranch, o.subBranch), o.autoExpiry, [])
  }

  /** The document `createSubSession` writes. */
  function CreatedSnapshot(d: Snapshot, o: SessionOptions, id: string, now: int): Snapshot
  {
    d.(activeSessions := d.activeSessions[id := NewSession(o, now)],
       lockHistory := AddLockHistory(d.lockHistory,
         HistoryEntry(now, SessionCreated, id, "", "Sub-session created for " + o.subAgent + " by " + o.mainAgent)))
  }

  /** The request `requestPermission` records, approved when some auto-approval rule applies. */
  function NewRequest(sessionId: string, resource: string, t: RequestType, justification: string, now: int)
    : (q: PermissionRequest)
    ensures q.status == Approved <==> t == FileAccess && (ContainsAny(resource, SafeReadPaths) || ContainsAny(resource, SafeWritePaths))
    ensures q.status != Approved ==> q.status == Pending && q.respondedBy == None
    ensures q.status == Approved ==> q.respondedBy == Some("auto-approval-system")
  {
    var rules := CheckAutoApprovalRules(resource, t);
    assert |rules| > 0 <==> "safe-read-path" in rules || "safe-documentation-write" in rules;
    if |rules| > 0 then
      PermissionRequest(sessionId, t, resource, justification, Approved, now, Some(now), Some("auto-approval-system"), rules)
    else
      PermissionRequest(sessionId, t, resource, justification, Pending, now, None, None, rules)
  }

  /** The document `requestPermission` writes. */
  function RequestedSnapshot(d: Snapshot, sessionId: string, requestId: string, resource: string,
                             t: RequestType, justification: string, now: int): Snapshot
    requires sessionId in d.activeSessions
  {
    var q := NewRequest(sessionId, resource, t, justification, now);
    var s := d.activeSessions[sessionId];
    var s' := s.(permissionRequests := s.permissionRequests + [requestId], lastActivity := now,
                 allowedPaths := if q.status == Approved then s.allowedPaths + [resource] else s.allowedPaths);
    d.(permissionRegistry := d.permissionRegistry[requestId := q],
       activeSessions := d.activeSessions[sessionId := s'],
       lockHistory := AddLockHistory(d.lockHistory,
         HistoryEntry(now, PermissionRequested, sessionId, resource, "Request: " + RequestTypeName(t))))
  }

  /**
   * An auto-approved resource becomes an allowed path: afterwards every path
   * containing it is accessible unless a denied path matches.
   */
  lemma ApprovedRequestGrantsAccess(d: Snapshot, sessionId: string, requestId: string, resource: string,
                                    justification: string, now: int, path: string)
    requires sessionId in d.activeSessions
    requires NewRequest(sessionId, resource, FileAccess, justification, now).status == Approved
    requires Includes(path, resource)
    requires !ContainsAny(path, d.activeSessions[sessionId].deniedPaths)
    ensures CheckFileAccess(RequestedSnapshot(d, sessionId, requestId, resource, FileAccess, justification, now),
                            sessionId, path).allowed
  {
    var d' := RequestedSnapshot(d, sessionId, requestId, resource, FileAccess, justification, now);
    var s' := d'.activeSessions[sessionId];
    assert s'.allowedPaths[|s'.allowedPaths| - 1] == resource;
    assert s'.deniedPaths == d.activeSessions[sessionId].deniedPaths;
  }

  // ------------------------------------------------------------------ locks

  /** `sessionId` holds the lock, as owner or as a co-reader. */
  predicate Names(l: FileLock, sessionId: string)
  {
    l.lockedBy == sessionId || sessionId in l.coReaders
  }

  datatype AcquireResult = Acquired(shared: bool) | Conflicted(conflictWith: string, conflictType: LockType) | AcquireFailed

  /** `acquireFileLock` on a known session: the file afterwards and the result. */
  function AcquireOutcome(d: Snapshot, sessionId: string, filePath: string, lockType: LockType,
                          reason: string, relatedFiles: seq<string>, now: int, saveOk: bool)
    : (r: (Snapshot, AcquireResult))
    requires sessionId in d.activeSessions
    ensures r.0.activeSessions.Keys == d.activeSessions.Keys
    ensures r.1 == Acquired(false) ==>
      filePath !in d.fileLocks && r.0.fileLocks.Keys == d.fileLocks.Keys + {filePath}
      && r.0.fileLocks[filePath].lockedBy == sessionId && r.0.fileLocks[filePath].lockType == lockType
      && r.0.activeSessions[sessionId].lockAcquisitions == d.activeSessions[sessionId].lockAcquisitions + [filePath]
    ensures r.1 == Acquired(true) ==>
      lockType == Read && filePath in d.fileLocks && d.fileLocks[filePath].lockType == Read
      && r.0.fileLocks.Keys == d.fileLocks.Keys
      && (saveOk ==> r.0.fileLocks[filePath].coReaders == d.fileLocks[filePath].coReaders + [sessionId]
                     && r.0.activeSessions[sessionId].lockAcquisitions
                        == d.activeSessions[sessionId].lockAcquisitions + [filePath])
      && (!saveOk ==> r.0 == d)
    ensures r.1.Conflicted? ==>
      r.0 == d && filePath in d.fileLocks
      && r.1.conflictWith == d.fileLocks[filePath].lockedBy && r.1.conflictType == d.fileLocks[filePath].lockType
      && !(lockType == Read && d.fileLocks[filePath].lockType == Read)
    ensures r.1 == AcquireFailed ==> r.0 == d && !saveOk && filePath !in d.fileLocks
    ensures filePath in d.fileLocks ==> r.1 != Acquired(false)
    ensures filePath !in d.fileLocks ==> (r.1 == Acquired(false) <==> saveOk) && (r.1 == AcquireFailed <==> !saveOk)
    ensures filePath in d.fileLocks ==>
      (r.1 == Acquired(true) <==> lockType == Read && d.fileLocks[filePath].lockType == Read)
  {
    var s := d.activeSessions[sessionId];
    if filePath in d.fileLocks then
      var l := d.fileLocks[filePath];
      if lockType == Read && l.lockType == Read then
        var copy := d.(
          fileLocks := d.fileLocks[filePath := l.(coReaders := l.coReaders + [sessionId])],
          activeSessions := d.activeSessions[sessionId := s.(lockAcquisitions := s.lockAcquisitions + [filePath])],
          lockHistory := AddLockHistory(d.lockHistory,
            HistoryEntry(now, ReadLockShared, sessionId, filePath, "Shared with " + l.lockedBy)));
        (Saved(d, copy, now, saveOk), Acquired(true))
      else
        (d, Conflicted(l.lockedBy, l.lockType))
    else
      var copy := d.(
        fileLocks := d.fileLocks[filePath := FileLock(sessionId, lockType, now, reason, relatedFiles, [])],
        activeSessions := d.activeSessions[sessionId := s.(lockAcquisitions := s.lockAcquisitions + [filePath],
                                                          lastActivity := now)],
        lockHistory := AddLockHistory(d.lockHistory, HistoryEntry(now, Acquire, sessionId, filePath, reason)));
      (Saved(d, copy, now, saveOk), if saveOk then Acquired(false) else AcquireFailed)
  }

  /** What is left of a lock at a path after `sessionId` releases it. */
  function ReleasedLock(l: FileLock, sessionId: string): (r: Option<FileLock>)
    requires Names(l, sessionId)
    ensures r.Some? ==> !Names(r.value, sessionId)
    ensures r.Some? ==> forall x | Names(r.value, x) :: Names(l, x)
    ensures sessionId !in l.coReaders ==> r == None
    ensures r.Some? && r.value.lockedBy != l.lockedBy ==>
      l.lockedBy == sessionId && |Without(l.coReaders, sessionId)| > 0
      && r.value.lockedBy == Without(l.coReaders, sessionId)[0]
    ensures r.Some? && l.lockedBy != sessionId ==> r.value == l.(coReaders := Without(l.coReaders, sessionId))
  {
    if sessionId in l.coReaders then
      var rest := Without(l.coReaders, sessionId);
      if l.lockedBy != sessionId then Some(l.(coReaders := rest))
      else if |rest| > 0 then
        assert rest[0] in rest;
        assert forall x | x in rest[1..] :: x in rest;
        Some(l.(lockedBy := rest[0], coReaders := rest[1..]))
      else None
    else None
  }

  datatype ReleaseResult = ReleaseOk | ReleaseError(error: string)

  /** The document a successful `releaseFileLock` writes. */
  function AfterRelease(d: Snapshot, sessionId: string, filePath: string, now: int): Snapshot
    requires sessionId in d.activeSessions && filePath in d.fileLocks && Names(d.fileLocks[filePath], sessionId)
  {
    var s := d.activeSessions[sessionId];
    var locks := match ReleasedLock(d.fileLocks[filePath], sessionId)
      case Some(l) => d.fileLocks[filePath := l]
      case None => d.fileLocks - {filePath};
    d.(lastUpdated := now,
       fileLocks := locks,
       activeSessions := d.activeSessions[sessionId := s.(lockAcquisitions := Without(s.lockAcquisitions, filePath),
                                                        lastActivity := now)],
       lockHistory := AddLockHistory(d.lockHistory, HistoryEntry(now, Release, sessionId, filePath, "")))
  }

  /** `releaseFileLock` on a known session: the file afterwards and the result. */
  function ReleaseOutcome(d: Snapshot, sessionId: string, filePath: string, now: int, saveOk: bool)
    : (r: (Snapshot, ReleaseResult))
    requires sessionId in d.activeSessions
    ensures r.1 == ReleaseError("File not locked") <==> filePath !in d.fileLocks
    ensures r.1 != ReleaseOk && filePath in d.fileLocks ==> r.1 == ReleaseError("Lock not owned by this session")
    ensures r.1 == ReleaseOk <==> filePath in d.fileLocks && Names(d.fileLocks[filePath], sessionId) && saveOk
    ensures r.0.activeSessions.Keys == d.activeSessions.Keys
    ensures r.1 != ReleaseOk ==> r.0 == d
    ensures r.1 == ReleaseOk ==> filePath !in r.0.activeSessions[sessionId].lockAcquisitions
    ensures forall p | p in r.0.fileLocks && p != filePath :: p in d.fileLocks && r.0.fileLocks[p] == d.fileLocks[p]
    ensures saveOk ==> filePath !in r.0.fileLocks || !Names(r.0.fileLocks[filePath], sessionId)
  {
    if filePath !in d.fileLocks then (d, ReleaseError("File not locked"))
    else if !Names(d.fileLocks[filePath], sessionId) || !saveOk then (d, ReleaseError("Lock not owned by this session"))
    else (AfterRelease(d, sessionId, filePath, now), ReleaseOk)
  }

  /** Releasing `paths` one after the other, collecting the ones released. */
  function ReleaseAll(d: Snapshot, sessionId: string, paths: seq<string>, now: int, saveOk: bool)
    : (r: (Snapshot, seq<string>))
    requires sessionId in d.activeSessions
    ensures r.0.activeSessions.Keys == d.activeSessions.Keys
    decreases |paths|
  {
    if paths == [] then (d, [])
    else
      var (d1, released) := ReleaseAll(d, sessionId, paths[..|paths| - 1], now, saveOk);
      var (d2, res) := ReleaseOutcome(d1, sessionId, paths[|paths| - 1], now, saveOk);
      (d2, if res == ReleaseOk then released + [paths[|paths| - 1]] else released)
  }

  lemma ReleaseAllStep(d: Snapshot, sessionId: string, paths: seq<string>, i: nat, now: int, saveOk: bool)
    requires sessionId in d.activeSessions && i < |paths|
    ensures var (d1, released) := ReleaseAll(d, sessionId, paths[..i], now, saveOk);
      var (d2, res) := ReleaseOutcome(d1, sessionId, paths[i], now, saveOk);
      ReleaseAll(d, sessionId, paths[..i + 1], now, saveOk) == (d2, if res == ReleaseOk then released + [paths[i]] else released)
  {
    assert paths[..i + 1][..i] == paths[..i];
  }

  /** The requests of a session, expired if they are still pending. */
  function ExpiredRequests(reg: map<string, PermissionRequest>, ids: seq<string>, now: int)
    : (r: map<string, PermissionRequest>)
    ensures r.Keys == reg.Keys
    ensures forall id | id in r :: r[id].status != Pending || id !in ids
  {
    map id | id in reg ::
      if id in ids && reg[id].status == Pending
      then reg[id].(status := Expired, respondedAt := Some(now), respondedBy := Some("system-session-end"))
      else reg[id]
  }

  /** Expiring one more session's request changes at most that request. */
  lemma ExpiredSnoc(reg: map<string, PermissionRequest>, ids: seq<string>, id: string, now: int)
    ensures var r := ExpiredRequests(reg, ids, now);
      ExpiredRequests(reg, ids + [id], now)
        == if id in r && r[id].status == Pending
           then r[id := r[id].(status := Expired, respondedAt := Some(now), respondedBy := Some("system-session-end"))]
           else r
  {
    var r := ExpiredRequests(reg, ids, now);
    var r' := ExpiredRequests(reg, ids + [id], now);
    var expected := if id in r && r[id].status == Pending
      then r[id := r[id].(status := Expired, respondedAt := Some(now), respondedBy := Some("system-session-end"))]
      else r;
    assert forall k | k in r' :: r'[k] == expected[k];
  }

  /** The last part of `endSubSession`: expire the pending requests, drop the session, log the end. */
  function EndedSnapshot(d: Snapshot, sessionId: string, reason: string, now: int): Snapshot
    requires sessionId in d.activeSessions
  {
    d.(permissionRegistry := ExpiredRequests(d.permissionRegistry, d.activeSessions[sessionId].permissionRequests, now),
       activeSessions := d.activeSessions - {sessionId},
       lockHistory := AddLockHistory(d.lockHistory, HistoryEntry(now, SessionEnded, sessionId, "", reason)))
  }

  // ------------------------------------------------------------- invariant

  /** Every holder of a lock is a live session that lists the path among its acquisitions. */
  ghost predicate LocksRecorded(d: Snapshot)
  {
    forall p, x | p in d.fileLocks && Names(d.fileLocks[p], x) ::
      x in d.activeSessions && p in d.activeSessions[x].lockAcquisitions
  }

  lemma CreatePreservesLocksRecorded(d: Snapshot, o: SessionOptions, id: string, now: int)
    requires LocksRecorded(d) && id !in d.activeSessions
    ensures LocksRecorded(CreatedSnapshot(d, o, id, now))
  {
  }

  lemma RequestPreservesLocksRecorded(d: Snapshot, sessionId: string, requestId: string, resource: string,
                                      t: RequestType, justification: string, now: int)
    requires LocksRecorded(d) && sessionId in d.activeSessions
    ensures LocksRecorded(RequestedSnapshot(d, sessionId, requestId, resource, t, justification, now))
  {
    var d' := RequestedSnapshot(d, sessionId, requestId, resource, t, justification, now);
    forall p, x | p in d'.fileLocks && Names(d'.fileLocks[p], x)
      ensures x in d'.activeSessions && p in d'.activeSessions[x].lockAcquisitions
    {
      assert d'.fileLocks[p] == d.fileLocks[p];
    }
  }

  lemma AcquirePreservesLocksRecorded(d: Snapshot, sessionId: string, filePath: string, lockType: LockType,
                                      reason: string, relatedFiles: seq<string>, now: int, saveOk: bool)
    requires LocksRecorded(d) && sessionId in d.activeSessions
    ensures LocksRecorded(AcquireOutcome(d, sessionId, filePath, lockType, reason, relatedFiles, now, saveOk).0)
  {
    var d' := AcquireOutcome(d, sessionId, filePath, lockType, reason, relatedFiles, now, saveOk).0;
    forall p, x | p in d'.fileLocks && Names(d'.fileLocks[p], x)
      ensures x in d'.activeSessions && p in d'.activeSessions[x].lockAcquisitions
    {
      if d' != d {
        if p != filePath {
          assert d'.fileLocks[p] == d.fileLocks[p];
          assert x == sessionId ==> p in d.activeSessions[x].lockAcquisitions;
        } else if x != sessionId {
          assert Names(d.fileLocks[p], x);
        }
      }
    }
  }

  lemma ReleasePreservesLocksRecorded(d: Snapshot, sessionId: string, filePath: string, now: int, saveOk: bool)
    requires LocksRecorded(d) && sessionId in d.activeSessions
    ensures LocksRecorded(ReleaseOutcome(d, sessionId, filePath, now, saveOk).0)
  {
    var (d', res) := ReleaseOutcome(d, sessionId, filePath, now, saveOk);
    if res == ReleaseOk {
      forall p, x | p in d'.fileLocks && Names(d'.fileLocks[p], x)
        ensures x in d'.activeSessions && p in d'.activeSessions[x].lockAcquisitions
      {
        if p != filePath {
          assert d'.fileLocks[p] == d.fileLocks[p];
          assert p in d.activeSessions[x].lockAcquisitions;
        } else {
          var l := ReleasedLock(d.fileLocks[filePath], sessionId);
          assert l.Some? && d'.fileLocks[p] == l.value;
          assert Names(d.fileLocks[p], x) && x != sessionId;
        }
      }
    }
  }

  /**
   * Releasing a list of paths with every write succeeding leaves the session
   * holding only locks it held before on paths outside the list.
   */
  lemma {:induction false} ReleaseAllDropsPaths(d: Snapshot, sessionId: string, paths: seq<string>, now: int)
    requires sessionId in d.activeSessions
    ensures var d' := ReleaseAll(d, sessionId, paths, now, true).0;
      forall p | p in d'.fileLocks && Names(d'.fileLocks[p], sessionId) ::
        p in d.fileLocks && Names(d.fileLocks[p], sessionId) && p !in paths
    decreases |paths|
  {
    if paths != [] {
      var init, q := paths[..|paths| - 1], paths[|paths| - 1];
      ReleaseAllDropsPaths(d, sessionId, init, now);
      assert paths == init + [q];
    }
  }

  /**
   * The fix for `endSubSession`: releasing every acquisition and then ending
   * the session on the reloaded document leaves no lock held by the session
   * and keeps the invariant.
   */
  lemma EndAfterReleasesKeepsLocksRecorded(d: Snapshot, sessionId: string, reason: string, now: int)
    requires LocksRecorded(d) && sessionId in d.activeSessions
    ensures var released := ReleaseAll(d, sessionId, d.activeSessions[sessionId].lockAcquisitions, now, true).0;
      var e := EndedSnapshot(released, sessionId, reason, now);
      LocksRecorded(e) && forall p | p in e.fileLocks :: !Names(e.fileLocks[p], sessionId)
  {
    var paths := d.activeSessions[sessionId].lockAcquisitions;
    ReleaseAllDropsPaths(d, sessionId, paths, now);
    ReleaseAllKeepsLocksRecorded(d, sessionId, paths, now);
    EndedKeepsLocksRecorded(ReleaseAll(d, sessionId, paths, now, true).0, sessionId, reason, now);
  }

  /** Ending a session that holds no lock keeps every holder live and recorded. */
  lemma EndedKeepsLocksRecorded(d: Snapshot, sessionId: string, reason: string, now: int)
    requires LocksRecorded(d) && sessionId in d.activeSessions
    requires forall p | p in d.fileLocks :: !Names(d.fileLocks[p], sessionId)
    ensures var e := EndedSnapshot(d, sessionId, reason, now);
      LocksRecorded(e) && e.fileLocks == d.fileLocks
  {
  }

  lemma {:induction false} ReleaseAllKeepsLocksRecorded(d: Snapshot, sessionId: string, paths: seq<string>, now: int)
    requires LocksRecorded(d) && sessionId in d.activeSessions
    ensures LocksRecorded(ReleaseAll(d, sessionId, paths, now, true).0)
    decreases |paths|
  {
    if paths != [] {
      ReleaseAllKeepsLocksRecorded(d, sessionId, paths[..|paths| - 1], now);
      var d1 := ReleaseAll(d, sessionId, paths[..|paths| - 1], now, true).0;
      ReleasePreservesLocksRecorded(d1, sessionId, paths[|paths| - 1], now, true);
    }
  }

  /**
   * As written, `endSubSession` finally writes back the document it loaded
   * before the releases: a lock the session held there is held by a session
   * that no longer exists.
   */
  lemma EndFromStaleSnapshotLeavesLocks(d: Snapshot, sessionId: string, reason: string, now: int, p: string)
    requires sessionId in d.activeSessions && p in d.fileLocks && Names(d.fileLocks[p], sessionId)
    ensures var e := EndedSnapshot(d, sessionId, reason, now);
      p in e.fileLocks && Names(e.fileLocks[p], sessionId) && sessionId !in e.activeSessions && !LocksRecorded(e)
  {
  }

  // ---------------------------------------------------- conflict history

  /** No history entry records a lock conflict. */
  predicate NoConflictEntries(d: Snapshot)
  {
    forall i | 0 <= i < |d.lockHistory| :: d.lockHistory[i].action != LockConflict
  }

  lemma AddLockHistoryKeepsNoConflict(d: Snapshot, e: HistoryEntry)
    requires NoConflictEntries(d) && e.action != LockConflict
    ensures NoConflictEntries(d.(lockHistory := AddLockHistory(d.lockHistory, e)))
  {
    var h := AddLockHistory(d.lockHistory, e);
    forall i | 0 <= i < |h| ensures h[i].action != LockConflict {
      if i > 0 { assert h[i] == h[1..][i - 1] == d.lockHistory[i - 1]; }
    }
  }

  /**
   * No operation ever writes a 'lock-conflict' entry: the conflict branch of
   * `acquireFileLock` adds it to its own copy only and never writes that copy.
   */
  lemma AcquireNeverRecordsConflicts(d: Snapshot, sessionId: string, filePath: string, lockType: LockType,
                                     reason: string, relatedFiles: seq<string>, now: int, saveOk: bool)
    requires NoConflictEntries(d) && sessionId in d.activeSessions
    ensures NoConflictEntries(AcquireOutcome(d, sessionId, filePath, lockType, reason, relatedFiles, now, saveOk).0)
  {
    var s := d.activeSessions[sessionId];
    if filePath in d.fileLocks {
      var l := d.fileLocks[filePath];
      AddLockHistoryKeepsNoConflict(d, HistoryEntry(now, ReadLockShared, sessionId, filePath, "Shared with " + l.lockedBy));
    } else {
      AddLockHistoryKeepsNoConflict(d, HistoryEntry(now, Acquire, sessionId, filePath, reason));
    }
  }

  /**
   * `acquireFileLock` with the conflict branch writing the document it added
   * its 'lock-conflict' entry to; every other branch is as written.
   */
  function AcquireOutcomeLogged(d: Snapshot, sessionId: string, filePath: string, lockType: LockType,
                                reason: string, relatedFiles: seq<string>, now: int, saveOk: bool)
    : (r: (Snapshot, AcquireResult))
    requires sessionId in d.activeSessions
    ensures r.1 == AcquireOutcome(d, sessionId, filePath, lockType, reason, relatedFiles, now, saveOk).1
    ensures !r.1.Conflicted? ==> r == AcquireOutcome(d, sessionId, filePath, lockType, reason, relatedFiles, now, saveOk)
    ensures r.1.Conflicted? ==>
      r.0.fileLocks == d.fileLocks && r.0.activeSessions == d.activeSessions
      && (saveOk ==> |r.0.lockHistory| > 0 && r.0.lockHistory[0] == HistoryEntry(now, LockConflict, sessionId, filePath, "Blocked by " + r.1.conflictWith))
  {
    var outcome := AcquireOutcome(d, sessionId, filePath, lockType, reason, relatedFiles, now, saveOk);
    if outcome.1.Conflicted? then
      var entry := HistoryEntry(now, LockConflict, sessionId, filePath, "Blocked by " + d.fileLocks[filePath].lockedBy);
      (Saved(d, d.(lockHistory := AddLockHistory(d.lockHistory, entry)), now, saveOk), outcome.1)
    else
      outcome
  }

  lemma ReleaseNeverRecordsConflicts(d: Snapshot, sessionId: string, filePath: string, now: int, saveOk: bool)
    requires NoConflictEntries(d) && sessionId in d.activeSessions
    ensures NoConflictEntries(ReleaseOutcome(d, sessionId, filePath, now, saveOk).0)
  {
    AddLockHistoryKeepsNoConflict(d, HistoryEntry(now, Release, sessionId, filePath, ""));
  }

  // ----------------------------------------------------------------- status

  datatype SessionSummary = SessionSummary(
    subAgent: string, mainAgent: string, startTime: int, lastActivity: int, accessMode: AccessMode,
    activeLocksCount: nat, pendingRequestsCount: nat, taskScope: string)

  datatype LockConflictSummary = LockConflictSummary(
    filePath: string, conflictCount: nat, lastConflict: int, involveSessions: seq<string>)

  datatype SystemStatus = SystemStatus(
    totalActiveSessions: nat, totalActiveLocks: nat, totalPendingRequests: nat,
    sessions: seq<(string, SessionSummary)>, lockConflicts: seq<LockConflictSummary>,
    recentActivity: seq<HistoryEntry>)

  /** How many of the listed request ids are pending in the registry. */
  function CountPending(ids: seq<string>, reg: map<string, PermissionRequest>): (n: nat)
    ensures n <= |ids|
  {
    if ids == [] then 0
    else CountPending(ids[..|ids| - 1], reg)
         + (if ids[|ids| - 1] in reg && reg[ids[|ids| - 1]].status == Pending then 1 else 0)
  }

  /** The 'lock-conflict' entries of a history, in history order. */
  function ConflictEntries(h: seq<HistoryEntry>): (r: seq<HistoryEntry>)
    ensures forall e | e in r :: e in h && e.action == LockConflict
    ensures forall e | e in h && e.action == LockConflict :: e in r
  {
    if h == [] then []
    else ConflictEntries(h[..|h| - 1]) + (if h[|h| - 1].action == LockConflict then [h[|h| - 1]] else [])
  }

  /** The entries about one path, in order. */
  function WithPath(es: seq<HistoryEntry>, p: string): (r: seq<HistoryEntry>)
    ensures forall e | e in r :: e in es && e.filePath == p
    ensures forall e | e in es && e.filePath == p :: e in r
    ensures |r| <= |es|
  {
    if es == [] then []
    else WithPath(es[..|es| - 1], p) + (if es[|es| - 1].filePath == p then [es[|es| - 1]] else [])
  }

  function PathsOf(es: seq<HistoryEntry>): (r: seq<string>)
    ensures |r| == |es| && forall i | 0 <= i < |es| :: r[i] == es[i].filePath
  {
    if es == [] then [] else PathsOf(es[..|es| - 1]) + [es[|es| - 1].filePath]
  }

  function SessionsOf(es: seq<HistoryEntry>): (r: seq<string>)
    ensures |r| == |es| && forall i | 0 <= i < |es| :: r[i] == es[i].sessionId
  {
    if es == [] then [] else SessionsOf(es[..|es| - 1]) + [es[|es| - 1].sessionId]
  }

  lemma WithPathSnoc(es: seq<HistoryEntry>, e: HistoryEntry, p: string)
    ensures WithPath(es + [e], p) == WithPath(es, p) + (if e.filePath == p then [e] else [])
    ensures PathsOf(es + [e]) == PathsOf(es) + [e.filePath]
  {
    assert (es + [e])[..|es|] == es;
  }

  /** A path that no entry names has no entries. */
  lemma {:induction false} WithPathAbsent(es: seq<HistoryEntry>, p: string)
    requires p !in PathsOf(es)
    ensures WithPath(es, p) == []
  {
    if es != [] {
      var init := es[..|es| - 1];
      assert PathsOf(es) == PathsOf(init) + [es[|es| - 1].filePath];
      WithPathAbsent(init, p);
    }
  }

  lemma DistinctPathsSnoc(es: seq<HistoryEntry>, e: HistoryEntry)
    ensures Distinct(PathsOf(es + [e])) ==
      if e.filePath in Distinct(PathsOf(es)) then Distinct(PathsOf(es)) else Distinct(PathsOf(es)) + [e.filePath]
  {
    WithPathSnoc(es, e, e.filePath);
    DistinctSnoc(PathsOf(es), e.filePath);
  }

  /** Adding an entry to its path's group keeps every group equal to its path's entries. */
  lemma GroupsSnoc(es: seq<HistoryEntry>, e: HistoryEntry, groups: map<string, seq<HistoryEntry>>,
                   groups': map<string, seq<HistoryEntry>>)
    requires forall p | p in groups :: groups[p] == WithPath(es, p) && |groups[p]| > 0
    requires groups' == groups[e.filePath := WithPath(es, e.filePath) + [e]]
    ensures forall p | p in groups' :: groups'[p] == WithPath(es + [e], p) && |groups'[p]| > 0
  {
    forall p | p in groups' ensures groups'[p] == WithPath(es + [e], p) && |groups'[p]| > 0 {
      WithPathSnoc(es, e, p);
    }
  }

  /** `order` lists the distinct paths of `es` and `groups` maps each to its entries, in order. */
  ghost predicate GroupedBy(es: seq<HistoryEntry>, order: seq<string>, groups: map<string, seq<HistoryEntry>>)
  {
    && order == Distinct(PathsOf(es))
    && (forall p :: p in groups <==> p in order)
    && (forall p | p in groups :: groups[p] == WithPath(es, p) && |groups[p]| > 0)
  }

  lemma GroupedSnocSeen(es: seq<HistoryEntry>, e: HistoryEntry, order: seq<string>, groups: map<string, seq<HistoryEntry>>,
                        g: map<string, seq<HistoryEntry>>)
    requires GroupedBy(es, order, groups) && e.filePath in groups
    requires g == groups[e.filePath := groups[e.filePath] + [e]]
    ensures GroupedBy(es + [e], order, g)
  {
    assert e.filePath in order;
    DistinctPathsSnoc(es, e);
    assert order == Distinct(PathsOf(es + [e]));
    assert forall p :: p in g <==> p in order by {
      assert g.Keys == groups.Keys;
    }
    assert groups[e.filePath] == WithPath(es, e.filePath);
    GroupsSnoc(es, e, groups, g);
  }

  lemma GroupedSnocNew(es: seq<HistoryEntry>, e: HistoryEntry, order: seq<string>, groups: map<string, seq<HistoryEntry>>,
                       g: map<string, seq<HistoryEntry>>)
    requires GroupedBy(es, order, groups) && e.filePath !in groups
    requires g == groups[e.filePath := [e]]
    ensures GroupedBy(es + [e], order + [e.filePath], g)
  {
    NewPathOrder(es, e, order, groups, g);
    NewPathUnseen(es, e, order, groups);
    NewPathGroups(es, e, groups, g);
  }

  /** A path not seen before goes last in the order, and the keys follow it. */
  lemma NewPathOrder(es: seq<HistoryEntry>, e: HistoryEntry, order: seq<string>, groups: map<string, seq<HistoryEntry>>,
                     g: map<string, seq<HistoryEntry>>)
    requires GroupedBy(es, order, groups) && e.filePath !in groups
    requires g == groups[e.filePath := [e]]
    ensures order + [e.filePath] == Distinct(PathsOf(es + [e]))
    ensures forall p :: p in g <==> p in order + [e.filePath]
  {
    assert e.filePath !in order;
    DistinctPathsSnoc(es, e);
  }

  /** A path that has no group has no entry either. */
  lemma NewPathUnseen(es: seq<HistoryEntry>, e: HistoryEntry, order: seq<string>, groups: map<string, seq<HistoryEntry>>)
    requires GroupedBy(es, order, groups) && e.filePath !in groups
    ensures e.filePath !in PathsOf(es)
  {
    assert e.filePath !in Distinct(PathsOf(es));
  }

  /** A path not seen before gets the one-entry group, and the other groups extend. */
  lemma NewPathGroups(es: seq<HistoryEntry>, e: HistoryEntry, groups: map<string, seq<HistoryEntry>>,
                      g: map<string, seq<HistoryEntry>>)
    requires forall p | p in groups :: groups[p] == WithPath(es, p) && |groups[p]| > 0
    requires e.filePath !in PathsOf(es) && g == groups[e.filePath := [e]]
    ensures forall p | p in g :: g[p] == WithPath(es + [e], p) && |g[p]| > 0
  {
    WithPathAbsent(es, e.filePath);
    assert WithPath(es, e.filePath) + [e] == [e];
    GroupsSnoc(es, e, groups, g);
  }

  /**
   * Groups entries by file path: the distinct paths in order of first
   * appearance and, for each, its entries in order.
   */
  method GroupByPath(es: seq<HistoryEntry>) returns (order: seq<string>, groups: map<string, seq<HistoryEntry>>)
    ensures order == Distinct(PathsOf(es))
    ensures forall p :: p in groups <==> p in order
    ensures forall p | p in groups :: groups[p] == WithPath(es, p) && |groups[p]| > 0
  {
    order, groups := [], map[];
    var i := 0;
    while i < |es|
      invariant 0 <= i <= |es|
      invariant GroupedBy(es[..i], order, groups)
    {
      var e := es[i];
      TakeSnoc(es, i);
      if e.filePath !in groups {
        var g := groups[e.filePath := [e]];
        GroupedSnocNew(es[..i], e, order, groups, g);
        groups := g;
        order := order + [e.filePath];
      } else {
        var g := groups[e.filePath := groups[e.filePath] + [e]];
        GroupedSnocSeen(es[..i], e, order, groups, g);
        groups := g;
      }
      i := i + 1;
    }
    assert es[..i] == es;
  }

  /** The conflict summary of `getSystemStatus` for one path. */
  function ConflictSummary(entries: seq<HistoryEntry>, p: string): LockConflictSummary
    requires |WithPath(entries, p)| > 0
  {
    var group := WithPath(entries, p);
    LockConflictSummary(p, |group|, group[0].timestamp, Distinct(SessionsOf(group)))
  }

  function SummaryOf(d: Snapshot, id: string): SessionSummary
    requires id in d.activeSessions
  {
    var s := d.activeSessions[id];
    SessionSummary(s.subAgent, s.mainAgent, s.startTime, s.lastActivity, s.accessMode,
                   |s.lockAcquisitions|, CountPending(s.permissionRequests, d.permissionRegistry),
                   s.coordinationData.taskScope)
  }

  function PendingRequests(reg: map<string, PermissionRequest>): set<string>
  {
    set id | id in reg && reg[id].status == Pending
  }

  /** The request-expiry loop of `endSubSession`. */
  method ExpireRequests(reg: map<string, PermissionRequest>, ids: seq<string>, now: int)
    returns (registry: map<string, PermissionRequest>)
    ensures registry == ExpiredRequests(reg, ids, now)
  {
    registry := reg;
    var j := 0;
    while j < |ids|
      invariant 0 <= j <= |ids|
      invariant registry == ExpiredRequests(reg, ids[..j], now)
    {
      var id := ids[j];
      TakeSnoc(ids, j);
      ExpiredSnoc(reg, ids[..j], id, now);
      if id in registry && registry[id].status == Pending {
        registry := registry[id := registry[id].(status := Expired, respondedAt := Some(now),
                                                 respondedBy := Some("system-session-end"))];
      }
      j := j + 1;
    }
    assert ids[..j] == ids;
  }

  /** The per-session part of `getSystemStatus`, in the order the sessions are listed. */
  method SessionSummaries(d: Snapshot, order: seq<string>) returns (sessions: seq<(string, SessionSummary)>)
    requires forall k | k in order :: k in d.activeSessions
    ensures |sessions| == |order|
    ensures forall k | 0 <= k < |order| :: sessions[k] == (order[k], SummaryOf(d, order[k]))
  {
    sessions := [];
    var i := 0;
    while i < |order|
      invariant 0 <= i <= |order|
      invariant |sessions| == i
      invariant forall k | 0 <= k < i :: sessions[k] == (order[k], SummaryOf(d, order[k]))
    {
      sessions := sessions + [(order[i], SummaryOf(d, order[i]))];
      i := i + 1;
    }
  }

  /** One summary per conflicting path, in order of the path's first conflict entry. */
  method ConflictSummaries(conflicts: seq<HistoryEntry>) returns (summaries: seq<LockConflictSummary>)
    ensures |summaries| == |Distinct(PathsOf(conflicts))|
    ensures forall k | 0 <= k < |summaries| ::
      var p := Distinct(PathsOf(conflicts))[k];
      |WithPath(conflicts, p)| > 0 && summaries[k] == ConflictSummary(conflicts, p)
  {
    var paths, groups := GroupByPath(conflicts);
    assert forall k | 0 <= k < |paths| :: paths[k] in paths;
    summaries := SummarizeGroups(conflicts, paths, groups);
  }

  /** The loop of `getSystemStatus` over the grouped conflicts. */
  method SummarizeGroups(conflicts: seq<HistoryEntry>, paths: seq<string>, groups: map<string, seq<HistoryEntry>>)
    returns (summaries: seq<LockConflictSummary>)
    requires forall k | 0 <= k < |paths| ::
      paths[k] in groups && groups[paths[k]] == WithPath(conflicts, paths[k]) && |groups[paths[k]]| > 0
    ensures |summaries| == |paths|
    ensures forall k | 0 <= k < |paths| :: summaries[k] == ConflictSummary(conflicts, paths[k])
  {
    ghost var all := seq(|paths|, k requires 0 <= k < |paths| => ConflictSummary(conflicts, paths[k]));
    summaries := [];
    for j := 0 to |paths|
      invariant summaries == all[..j]
    {
      var group := groups[paths[j]];
      assert all[j] == LockConflictSummary(paths[j], |group|, group[0].timestamp, Distinct(SessionsOf(group)));
      TakeSnoc(all, j);
      summaries := summaries + [LockConflictSummary(paths[j], |group|, group[0].timestamp, Distinct(SessionsOf(group)))];
    }
    TakeAll(all);
  }

  // ------------------------------------------------------------- the store

  /** Result of `createSubSession`. */
  datatype CreateResult = CreateResult(sessionId: Option<string>, success: bool)

  /** Result of `requestPermission`. */
  datatype RequestResult = RequestResult(requestId: Option<string>, autoApproved: bool)

  /** Result of `endSubSession`. */
  datatype EndResult = Ended(releasedLocks: seq<string>) | EndFailed(error: Option<string>)

  /** The persisted registry file `.sub-session-locks.json`. */
  class Registry {
    var lastUpdated: int
    var activeSessions: map<string, Session>
    var fileLocks: map<string, FileLock>
    var permissionRegistry: map<string, PermissionRequest>
    var lockHistory: seq<HistoryEntry>
    var coordinations: map<string, Coordination>

    /** A registry file that does not exist yet, read at time `now`. */
    constructor (now: int)
      ensures Load() == EmptySnapshot(now)
    {
      lastUpdated, activeSessions, fileLocks, permissionRegistry, lockHistory, coordinations :=
        now, map[], map[], map[], [], map[];
    }

    /** `loadJSON`: a copy of the whole document. */
    function Load(): Snapshot
      reads this
    {
      Snapshot(lastUpdated, activeSessions, fileLocks, permissionRegistry, lockHistory, coordinations)
    }

    /** `saveJSON`: stamp the copy and write all of it, unless the write fails. */
    method Save(copy: Snapshot, now: int, saveOk: bool) returns (ok: bool)
      modifies this
      ensures ok == saveOk
      ensures Load() == Saved(old(Load()), copy, now, saveOk)
    {
      if saveOk {
        lastUpdated, activeSessions, fileLocks, permissionRegistry, lockHistory, coordinations :=
          now, copy.activeSessions, copy.fileLocks, copy.permissionRegistry, copy.lockHistory, copy.coordinations;
      }
      ok := saveOk;
    }

    method CreateSubSession(o: SessionOptions, now: int, random: string, saveOk: bool)
      returns (r: Result<CreateResult, string>)
      modifies this
      ensures o.mainAgent == "" || o.subAgent == "" ==>
        r == Failure("Both mainAgent and subAgent are required") && Load() == old(Load())
      ensures o.mainAgent != "" && o.subAgent != "" ==>
        var id := SessionId(o.subAgent, now, random);
        r == Success(if saveOk then CreateResult(Some(id), true) else CreateResult(None, false))
        && Load() == Saved(old(Load()), CreatedSnapshot(old(Load()), o, id, now), now, saveOk)
      ensures r.Success? && saveOk ==>
        var s := activeSessions[SessionId(o.subAgent, now, random)];
        s.lockAcquisitions == [] && s.permissionRequests == []
        && s.allowedPaths == o.allowedPaths && s.deniedPaths == o.deniedPaths
    {
      if o.mainAgent == "" || o.subAgent == "" {
        return Failure("Both mainAgent and subAgent are required");
      }
      var locks := Load();
      var sessionId := SessionId(o.subAgent, now, random);
      locks := locks.(activeSessions := locks.activeSessions[sessionId := NewSession(o, now)]);
      locks := locks.(lockHistory := AddLockHistory(locks.lockHistory,
        HistoryEntry(now, SessionCreated, sessionId, "", "Sub-session created for " + o.subAgent + " by " + o.mainAgent)));
      var ok := Save(locks, now, saveOk);
      if ok {
        return Success(CreateResult(Some(sessionId), true));
      }
      return Success(CreateResult(None, false));
    }

    method RequestPermission(sessionId: string, resourcePath: string, requestType: RequestType,
                             justification: string, requestId: string, now: int, saveOk: bool)
      returns (r: Result<RequestResult, string>)
      modifies this
      ensures sessionId !in old(activeSessions) ==>
        r == Failure("Session " + sessionId + " not found") && Load() == old(Load())
      ensures sessionId in old(activeSessions) ==>
        var approved := NewRequest(sessionId, resourcePath, requestType, justification, now).status == Approved;
        r == Success(if saveOk then RequestResult(Some(requestId), approved) else RequestResult(None, false))
        && Load() == Saved(old(Load()),
                           RequestedSnapshot(old(Load()), sessionId, requestId, resourcePath, requestType, justification, now),
                           now, saveOk)
    {
      var locks := Load();
      if sessionId !in locks.activeSessions {
        return Failure("Session " + sessionId + " not found");
      }
      var rules := CheckAutoApprovalRules(resourcePath, requestType);
      var request := PermissionRequest(sessionId, requestType, resourcePath, justification, Pending, now, None, None, rules);
      var session := locks.activeSessions[sessionId];
      session := session.(permissionRequests := session.permissionRequests + [requestId]);
      session := session.(lastActivity := now);
      if |rules| > 0 {
        request := request.(status := Approved, respondedAt := Some(now), respondedBy := Some("auto-approval-system"));
        session := session.(allowedPaths := session.allowedPaths + [resourcePath]);
      }
      locks := locks.(permissionRegistry := locks.permissionRegistry[requestId := request]);
      locks := locks.(activeSessions := locks.activeSessions[sessionId := session]);
      locks := locks.(lockHistory := AddLockHistory(locks.lockHistory,
        HistoryEntry(now, PermissionRequested, sessionId, resourcePath, "Request: " + RequestTypeName(requestType))));
      var ok := Save(locks, now, saveOk);
      if ok {
        return Success(RequestResult(Some(requestId), request.status == Approved));
      }
      return Success(RequestResult(None, false));
    }

    method AcquireFileLock(sessionId: string, filePath: string, lockType: LockType, reason: string,
                           relatedFiles: seq<string>, now: int, saveOk: bool)
      returns (r: Result<AcquireResult, string>)
      modifies this
      ensures sessionId !in old(activeSessions) ==>
        r == Failure("Session " + sessionId + " not found") && Load() == old(Load())
      ensures sessionId in old(activeSessions) ==>
        r.Success? && (Load(), r.value)
          == AcquireOutcome(old(Load()), sessionId, filePath, lockType, reason, relatedFiles, now, saveOk)
    {
      var locks := Load();
      if sessionId !in locks.activeSessions {
        return Failure("Session " + sessionId + " not found");
      }
      var session := locks.activeSessions[sessionId];
      if filePath in locks.fileLocks {
        var existing := locks.fileLocks[filePath];
        if lockType == Read && existing.lockType == Read {
          existing := existing.(coReaders := existing.coReaders + [sessionId]);
          locks := locks.(fileLocks := locks.fileLocks[filePath := existing]);
          session := session.(lockAcquisitions := session.lockAcquisitions + [filePath]);
          locks := locks.(activeSessions := locks.activeSessions[sessionId := session]);
          locks := locks.(lockHistory := AddLockHistory(locks.lockHistory,
            HistoryEntry(now, ReadLockShared, sessionId, filePath, "Shared with " + existing.lockedBy)));
          var ok := Save(locks, now, saveOk);
          return Success(Acquired(true));
        }
        // The conflict is logged in this copy only; the copy is never written.
        locks := locks.(lockHistory := AddLockHistory(locks.lockHistory,
          HistoryEntry(now, LockConflict, sessionId, filePath, "Blocked by " + existing.lockedBy)));
        return Success(Conflicted(existing.lockedBy, existing.lockType));
      }
      locks := locks.(fileLocks := locks.fileLocks[filePath := FileLock(sessionId, lockType, now, reason, relatedFiles, [])]);
      session := session.(lockAcquisitions := session.lockAcquisitions + [filePath]);
      session := session.(lastActivity := now);
      locks := locks.(activeSessions := locks.activeSessions[sessionId := session]);
      locks := locks.(lockHistory := AddLockHistory(locks.lockHistory, HistoryEntry(now, Acquire, sessionId, filePath, reason)));
      var ok := Save(locks, now, saveOk);
      if ok {
        return Success(Acquired(false));
      }
      return Success(AcquireFailed);
    }

    method ReleaseFileLock(sessionId: string, filePath: string, now: int, saveOk: bool)
      returns (r: Result<ReleaseResult, string>)
      modifies this
      ensures sessionId !in old(activeSessions) ==>
        r == Failure("Session " + sessionId + " not found") && Load() == old(Load())
      ensures sessionId in old(activeSessions) ==>
        r.Success? && (Load(), r.value) == ReleaseOutcome(old(Load()), sessionId, filePath, now, saveOk)
    {
      var locks := Load();
      if sessionId !in locks.activeSessions {
        return Failure("Session " + sessionId + " not found");
      }
      if filePath !in locks.fileLocks {
        return Success(ReleaseError("File not locked"));
      }
      var lock := locks.fileLocks[filePath];
      if lock.lockedBy == sessionId || sessionId in lock.coReaders {
        ghost var loaded := locks;
        ghost var remaining := ReleasedLock(lock, sessionId);
        if sessionId in lock.coReaders {
          lock := lock.(coReaders := Without(lock.coReaders, sessionId));
          locks := locks.(fileLocks := locks.fileLocks[filePath := lock]);
          if |lock.coReaders| == 0 && lock.lockedBy != sessionId {
            lock := lock.(coReaders := []);
            locks := locks.(fileLocks := locks.fileLocks[filePath := lock]);
          } else if lock.lockedBy == sessionId && |lock.coReaders| > 0 {
            lock := lock.(lockedBy := lock.coReaders[0], coReaders := lock.coReaders[1..]);
            locks := locks.(fileLocks := locks.fileLocks[filePath := lock]);
          } else if lock.lockedBy == sessionId && |lock.coReaders| == 0 {
            locks := locks.(fileLocks := locks.fileLocks - {filePath});
          }
        } else {
          locks := locks.(fileLocks := locks.fileLocks - {filePath});
        }
        assert locks.fileLocks == match remaining
          case Some(l) => loaded.fileLocks[filePath := l]
          case None => loaded.fileLocks - {filePath};
        var session := locks.activeSessions[sessionId];
        session := session.(lockAcquisitions := Without(session.lockAcquisitions, filePath));
        session := session.(lastActivity := now);
        locks := locks.(activeSessions := locks.activeSessions[sessionId := session]);
        locks := locks.(lockHistory := AddLockHistory(locks.lockHistory, HistoryEntry(now, Release, sessionId, filePath, "")));
        var ok := Save(locks, now, saveOk);
        if ok {
          return Success(ReleaseOk);
        }
      }
      return Success(ReleaseError("Lock not owned by this session"));
    }

    /** The release loop of `endSubSession`: each release loads and writes the file itself. */
    method ReleaseEach(sessionId: string, paths: seq<string>, now: int, saveOk: bool) returns (released: seq<string>)
      modifies this
      requires sessionId in activeSessions
      ensures sessionId in activeSessions
      ensures (Load(), released) == ReleaseAll(old(Load()), sessionId, paths, now, saveOk)
    {
      ghost var start := Load();
      released := [];
      var i := 0;
      while i < |paths|
        invariant 0 <= i <= |paths|
        invariant sessionId in activeSessions
        invariant (Load(), released) == ReleaseAll(start, sessionId, paths[..i], now, saveOk)
      {
        ReleaseAllStep(start, sessionId, paths, i, now, saveOk);
        var result := ReleaseFileLock(sessionId, paths[i], now, saveOk);
        if result.value == ReleaseOk {
          released := released + [paths[i]];
        }
        i := i + 1;
      }
      assert paths[..i] == paths;
    }

    /**
     * `endSubSession` as written: the releases reload and write the file
     * themselves, and the final write stores this call's own, older copy.
     */
    method EndSubSession(sessionId: string, reason: string, now: int, releaseSavesOk: bool, saveOk: bool)
      returns (r: EndResult)
      modifies this
      ensures sessionId !in old(activeSessions) ==>
        r == EndFailed(Some("Session not found")) && Load() == old(Load())
      ensures sessionId in old(activeSessions) ==>
        var paths := old(activeSessions)[sessionId].lockAcquisitions;
        var (afterReleases, released) := ReleaseAll(old(Load()), sessionId, paths, now, releaseSavesOk);
        r == (if saveOk then Ended(released) else EndFailed(None))
        && Load() == Saved(afterReleases, EndedSnapshot(old(Load()), sessionId, reason, now), now, saveOk)
      ensures sessionId in old(activeSessions) && saveOk ==> fileLocks == old(fileLocks)
    {
      var locks := Load();
      if sessionId !in locks.activeSessions {
        return EndFailed(Some("Session not found"));
      }
      var session := locks.activeSessions[sessionId];
      var paths := session.lockAcquisitions;
      var releasedLocks := ReleaseEach(sessionId, paths, now, releaseSavesOk);
      var registry := ExpireRequests(locks.permissionRegistry, session.permissionRequests, now);
      locks := locks.(permissionRegistry := registry);
      locks := locks.(activeSessions := locks.activeSessions - {sessionId});
      locks := locks.(lockHistory := AddLockHistory(locks.lockHistory, HistoryEntry(now, SessionEnded, sessionId, "", reason)));
      var ok := Save(locks, now, saveOk);
      if ok {
        return Ended(releasedLocks);
      }
      return EndFailed(None);
    }

    /**
     * `endSubSession` with the final step applied to the document as the
     * releases left it, instead of the copy loaded before them.
     */
    method EndSubSessionReloaded(sessionId: string, reason: string, now: int)
      returns (r: EndResult)
      modifies this
      requires LocksRecorded(Load())
      ensures sessionId !in old(activeSessions) ==>
        r == EndFailed(Some("Session not found")) && Load() == old(Load())
      ensures LocksRecorded(Load())
      ensures forall p | p in fileLocks :: !Names(fileLocks[p], sessionId)
    {
      var locks := Load();
      if sessionId !in locks.activeSessions {
        return EndFailed(Some("Session not found"));
      }
      var paths := locks.activeSessions[sessionId].lockAcquisitions;
      var releasedLocks := ReleaseEach(sessionId, paths, now, true);
      EndAfterReleasesKeepsLocksRecorded(locks, sessionId, reason, now);
      var current := Load();
      var ended := EndedSnapshot(current, sessionId, reason, now);
      var ok := Save(ended, now, true);
      return Ended(releasedLocks);
    }

    /** `getSystemStatus`, with `order` the order in which the document lists its sessions. */
    method GetSystemStatus(order: seq<string>) returns (status: SystemStatus)
      requires Enumerates(order, activeSessions.Keys)
      ensures status.totalActiveSessions == |activeSessions.Keys|
      ensures status.totalActiveLocks == |fileLocks.Keys|
      ensures status.totalPendingRequests == |PendingRequests(permissionRegistry)|
      ensures |status.sessions| == |order|
      ensures forall k | 0 <= k < |order| :: status.sessions[k] == (order[k], SummaryOf(Load(), order[k]))
      ensures status.recentActivity == Newest(lockHistory, 10)
      ensures var conflicts := ConflictEntries(lockHistory);
        |status.lockConflicts| == |Distinct(PathsOf(conflicts))|
        && forall k | 0 <= k < |status.lockConflicts| ::
             var p := Distinct(PathsOf(conflicts))[k];
             |WithPath(conflicts, p)| > 0 && status.lockConflicts[k] == ConflictSummary(conflicts, p)
    {
      var locks := Load();
      var sessions := SessionSummaries(locks, order);
      var summaries := ConflictSummaries(ConflictEntries(locks.lockHistory));
      status := SystemStatus(|locks.activeSessions.Keys|, |locks.fileLocks.Keys|,
                             |PendingRequests(locks.permissionRegistry)|, sessions, summaries,
                             Newest(locks.lockHistory, 10));
    }
  }
}
