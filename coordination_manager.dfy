/**
 * coordination-manager.js: conflict detection over the registry document,
 * resolution suggestions, recommendations and a health score, and the
 * coordination records kept beside the sessions, with their own log file.
 * Timestamps are integer milliseconds.
 */
module CoordinationManager {
  import opened Wrappers
  import opened Seqs
  import opened JsString
  import opened SubSessionManager

  const Minute: int := 60 * 1000
  const Hour: int := 60 * Minute
  /** Lock conflicts older than this are no longer reported. */
  const ConflictWindow: int := 30 * Minute

  datatype Approach = Wait | Coordinate | Escalate | Partition | Sequential

  /** A detected conflict with the approach suggested for it (its prose and action lists are not modelled). */
  datatype Conflict =
    | FileLockConflict(filePath: string, involvedSessions: seq<string>, conflictCount: nat,
                       currentLockHolder: Option<string>, lastConflictTime: int, resolution: Approach)
    | BranchConflict(parentBranch: string, primarySession: string, conflictingSessions: seq<string>,
                     resolution: Approach)
    | ResourceContention(sessionId: string, resourcePath: string, requestCount: nat, resolution: Approach)

  // ------------------------------------------------------------ suggestions

  /** The extensions matched by `/\.(js|ts|jsx|tsx|py|java)$/`. */
  const SourceSuffixes: seq<string> := [".js", ".ts", ".jsx", ".tsx", ".py", ".java"]

  predicate EndsWithAny(s: string, suffixes: seq<string>)
  {
    exists k | 0 <= k < |suffixes| :: EndsWith(s, suffixes[k])
  }

  predicate IsDocumentation(p: string)
  {
    Includes(p, "/docs/") || EndsWith(p, ".md")
  }

  /** `suggestFileLockResolution`: documentation is coordinated, source code partitioned, the rest sequenced. */
  function SuggestFileLockResolution(filePath: string): (a: Approach)
    ensures a == Coordinate <==> IsDocumentation(filePath)
    ensures a == Partition <==> !IsDocumentation(filePath) && EndsWithAny(filePath, SourceSuffixes)
    ensures a == Sequential <==> !IsDocumentation(filePath) && !EndsWithAny(filePath, SourceSuffixes)
  {
    if IsDocumentation(filePath) then Coordinate
    else if EndsWithAny(filePath, SourceSuffixes) then Partition
    else Sequential
  }

  /** `suggestBranchConflictResolution` */
  function SuggestBranchConflictResolution(): Approach
  {
    Coordinate
  }

  /** `suggestResourceContentionResolution` */
  function SuggestResourceContentionResolution(): Approach
  {
    Escalate
  }

  // ---------------------------------------------------- file-lock conflicts

  predicate IsRecentConflict(e: HistoryEntry, now: int)
  {
    e.action == LockConflict && e.timestamp > now - ConflictWindow
  }

  /** The 'lock-conflict' entries of the last 30 minutes, in history order. */
  function RecentConflicts(h: seq<HistoryEntry>, now: int): (r: seq<HistoryEntry>)
    ensures forall e | e in r :: e in h && IsRecentConflict(e, now)
    ensures forall e | e in h && IsRecentConflict(e, now) :: e in r
  {
    if h == [] then []
    else
      var init := h[..|h| - 1];
      assert forall y :: y in h <==> y in init || y == h[|h| - 1];
      RecentConflicts(init, now) + (if IsRecentConflict(h[|h| - 1], now) then [h[|h| - 1]] else [])
  }

  lemma {:induction false} NoConflictsNoneRecent(h: seq<HistoryEntry>, now: int)
    requires forall i | 0 <= i < |h| :: h[i].action != LockConflict
    ensures RecentConflicts(h, now) == []
  {
    if h != [] {
      var init := h[..|h| - 1];
      assert forall i | 0 <= i < |init| :: init[i] == h[i];
      NoConflictsNoneRecent(init, now);
    }
  }

  /** `currentLock?.lockedBy || null` */
  function CurrentHolder(d: Snapshot, filePath: string): (r: Option<string>)
    ensures r.Some? <==> filePath in d.fileLocks && d.fileLocks[filePath].lockedBy != ""
  {
    if filePath in d.fileLocks && d.fileLocks[filePath].lockedBy != "" then Some(d.fileLocks[filePath].lockedBy) else None
  }

  /** Every path of a list of entries has at least one entry. */
  lemma PathsHaveEntries(es: seq<HistoryEntry>)
    ensures forall p | p in Distinct(PathsOf(es)) :: |WithPath(es, p)| > 0
  {
    forall p | p in Distinct(PathsOf(es)) ensures |WithPath(es, p)| > 0 {
      var i :| 0 <= i < |es| && PathsOf(es)[i] == p;
      assert es[i] in WithPath(es, p);
    }
  }

  /** The distinct paths of recent conflicts, in order of their first entry. */
  function ConflictPaths(recent: seq<HistoryEntry>): (r: seq<string>)
    ensures forall p :: p in r <==> exists e | e in recent :: e.filePath == p
    ensures NoDuplicates(r)
    ensures forall p | p in r :: |WithPath(recent, p)| > 0
  {
    PathsHaveEntries(recent);
    assert forall e | e in recent :: e.filePath in PathsOf(recent) by {
      forall e | e in recent ensures e.filePath in PathsOf(recent) {
        var i :| 0 <= i < |recent| && recent[i] == e;
        assert PathsOf(recent)[i] == e.filePath;
      }
    }
    Distinct(PathsOf(recent))
  }

  /** The report `detectFileLockConflicts` makes for one path. */
  function FileLockReport(d: Snapshot, recent: seq<HistoryEntry>, filePath: string): (c: Conflict)
    requires |WithPath(recent, filePath)| > 0
    ensures c.FileLockConflict? && c.filePath == filePath
  {
    var group := WithPath(recent, filePath);
    FileLockConflict(filePath, Distinct(SessionsOf(group)), |group|, CurrentHolder(d, filePath),
                     group[0].timestamp, SuggestFileLockResolution(filePath))
  }

  /**
   * The report for a path counts its recent conflict entries, names each
   * session with such an entry exactly once, and dates from the newest.
   */
  lemma FileLockReportContents(d: Snapshot, recent: seq<HistoryEntry>, filePath: string)
    requires |WithPath(recent, filePath)| > 0
    ensures var c := FileLockReport(d, recent, filePath);
      && c.conflictCount == |WithPath(recent, filePath)|
      && (forall s :: s in c.involvedSessions <==> exists e | e in recent :: e.filePath == filePath && e.sessionId == s)
      && NoDuplicates(c.involvedSessions)
      && c.lastConflictTime == WithPath(recent, filePath)[0].timestamp
      && c.currentLockHolder == CurrentHolder(d, filePath)
  {
    var group := WithPath(recent, filePath);
    SessionsOfMembers(group);
  }

  /** The sessions of a list of entries are those of its entries. */
  lemma SessionsOfMembers(es: seq<HistoryEntry>)
    ensures forall s :: s in SessionsOf(es) <==> exists e | e in es :: e.sessionId == s
  {
    forall e | e in es ensures e.sessionId in SessionsOf(es) {
      var i :| 0 <= i < |es| && es[i] == e;
      assert SessionsOf(es)[i] == e.sessionId;
    }
    forall s | s in SessionsOf(es) ensures exists e | e in es :: e.sessionId == s {
      var i :| 0 <= i < |es| && SessionsOf(es)[i] == s;
      assert es[i] in es;
    }
  }

  /** The reports for the listed paths, in order. */
  function Reports(d: Snapshot, recent: seq<HistoryEntry>, paths: seq<string>): (r: seq<Conflict>)
    requires forall k | 0 <= k < |paths| :: |WithPath(recent, paths[k])| > 0
  {
    seq(|paths|, k requires 0 <= k < |paths| => FileLockReport(d, recent, paths[k]))
  }

  /** What `detectFileLockConflicts` reports at time `now`: one report per recently contested path. */
  function FileLockConflicts(d: Snapshot, now: int): (r: seq<Conflict>)
    ensures var paths := ConflictPaths(RecentConflicts(d.lockHistory, now));
      |r| == |paths| && forall k | 0 <= k < |r| :: r[k].FileLockConflict? && r[k].filePath == paths[k]
  {
    var recent := RecentConflicts(d.lockHistory, now);
    Reports(d, recent, ConflictPaths(recent))
  }

  /** `detectFileLockConflicts`: filter the history, group by path, one report per group. */
  method DetectFileLockConflicts(d: Snapshot, now: int) returns (conflicts: seq<Conflict>)
    ensures conflicts == FileLockConflicts(d, now)
  {
    var recent := RecentConflicts(d.lockHistory, now);
    var paths, groups := GroupByPath(recent);
    assert paths == ConflictPaths(recent);
    assert forall k | 0 <= k < |paths| :: paths[k] in paths;
    conflicts := ReportGroups(d, recent, paths, groups);
  }

  /** The `forEach` over the groups of `detectFileLockConflicts`: one report per path, in order. */
  method ReportGroups(d: Snapshot, recent: seq<HistoryEntry>, paths: seq<string>, groups: map<string, seq<HistoryEntry>>)
    returns (conflicts: seq<Conflict>)
    requires forall k | 0 <= k < |paths| :: paths[k] in groups && groups[paths[k]] == WithPath(recent, paths[k])
    requires forall k | 0 <= k < |paths| :: |WithPath(recent, paths[k])| > 0
    ensures conflicts == Reports(d, recent, paths)
  {
    ghost var all := Reports(d, recent, paths);
    conflicts := [];
    for i := 0 to |paths|
      invariant conflicts == all[..i]
    {
      var report := ReportGroup(d, recent, paths[i], groups[paths[i]]);
      assert report == all[i];
      TakeSnoc(all, i);
      conflicts := conflicts + [report];
    }
    TakeAll(all);
  }

  /** The body of the `forEach` over the groups of `detectFileLockConflicts`: the report for one group. */
  method ReportGroup(d: Snapshot, recent: seq<HistoryEntry>, p: string, group: seq<HistoryEntry>)
    returns (report: Conflict)
    requires group == WithPath(recent, p) && |group| > 0
    ensures report == FileLockReport(d, recent, p)
  {
    var holder := if p in d.fileLocks && d.fileLocks[p].lockedBy != "" then Some(d.fileLocks[p].lockedBy) else None;
    report := FileLockConflict(p, Distinct(SessionsOf(group)), |group|, holder,
                               group[0].timestamp, SuggestFileLockResolution(p));
  }

  /** A path is reported exactly when it has a recent conflict entry. */
  lemma {:induction false} FileLockConflictReported(d: Snapshot, now: int, p: string)
    ensures (exists k | 0 <= k < |FileLockConflicts(d, now)| :: FileLockConflicts(d, now)[k].filePath == p)
        <==> (exists e | e in d.lockHistory :: IsRecentConflict(e, now) && e.filePath == p)
  {
    var recent := RecentConflicts(d.lockHistory, now);
    var paths := ConflictPaths(recent);
    var r := FileLockConflicts(d, now);
    if exists e | e in d.lockHistory :: IsRecentConflict(e, now) && e.filePath == p {
      var e :| e in d.lockHistory && IsRecentConflict(e, now) && e.filePath == p;
      assert e in recent;
      assert p in paths;
      var k :| 0 <= k < |paths| && paths[k] == p;
      assert r[k].filePath == p;
    }
    if exists k | 0 <= k < |r| :: r[k].filePath == p {
      var k :| 0 <= k < |r| && r[k].filePath == p;
      assert r[k] == FileLockReport(d, recent, paths[k]);
      assert paths[k] == p && p in paths;
      var e :| e in recent && e.filePath == p;
      assert e in d.lockHistory;
    }
  }

  /**
   * On a document none of whose entries is a 'lock-conflict' (which the
   * registry operations as written keep so), nothing is ever reported.
   */
  lemma NoConflictEntriesNoReports(d: Snapshot, now: int)
    requires NoConflictEntries(d)
    ensures FileLockConflicts(d, now) == []
  {
    NoConflictsNoneRecent(d.lockHistory, now);
  }

  /** As written: a refused acquisition on such a document leaves nothing to report. */
  lemma ConflictNeverReported(d: Snapshot, sessionId: string, filePath: string, lockType: LockType,
                              reason: string, relatedFiles: seq<string>, now: int, saveOk: bool)
    requires NoConflictEntries(d) && sessionId in d.activeSessions
    ensures FileLockConflicts(AcquireOutcome(d, sessionId, filePath, lockType, reason, relatedFiles, now, saveOk).0, now) == []
  {
    AcquireNeverRecordsConflicts(d, sessionId, filePath, lockType, reason, relatedFiles, now, saveOk);
    NoConflictEntriesNoReports(AcquireOutcome(d, sessionId, filePath, lockType, reason, relatedFiles, now, saveOk).0, now);
  }

  /** Corrected: a refused acquisition whose entry is written is reported, naming the refused session. */
  lemma LoggedConflictReported(d: Snapshot, sessionId: string, filePath: string, lockType: LockType,
                               reason: string, relatedFiles: seq<string>, now: int)
    requires sessionId in d.activeSessions
    requires filePath in d.fileLocks && !(lockType == Read && d.fileLocks[filePath].lockType == Read)
    ensures var r := FileLockConflicts(AcquireOutcomeLogged(d, sessionId, filePath, lockType, reason, relatedFiles, now, true).0, now);
      exists k | 0 <= k < |r| :: r[k].filePath == filePath && sessionId in r[k].involvedSessions
  {
    var d' := AcquireOutcomeLogged(d, sessionId, filePath, lockType, reason, relatedFiles, now, true).0;
    var e := d'.lockHistory[0];
    assert e.action == LockConflict && e.timestamp == now && e.filePath == filePath && e.sessionId == sessionId;
    assert e in d'.lockHistory;
    var recent := RecentConflicts(d'.lockHistory, now);
    assert e in recent;
    var paths := ConflictPaths(recent);
    assert filePath in paths;
    var k :| 0 <= k < |paths| && paths[k] == filePath;
    var r := FileLockConflicts(d', now);
    assert r[k] == FileLockReport(d', recent, filePath);
    FileLockReportContents(d', recent, filePath);
    assert sessionId in r[k].involvedSessions;
  }

  // ------------------------------------------------------- branch conflicts

  /** `session.coordinationData?.parentBranch`, empty when missing. */
  function ParentBranchOf(d: Snapshot, id: string): string
  {
    if id in d.activeSessions then d.activeSessions[id].coordinationData.parentBranch else ""
  }

  /** The listed sessions whose parent branch is `pb`, in order. */
  function OnBranch(d: Snapshot, ids: seq<string>, pb: string): (r: seq<string>)
    ensures forall x :: x in r <==> x in ids && ParentBranchOf(d, x) == pb
    ensures |r| <= |ids|
  {
    if ids == [] then []
    else
      var init := ids[..|ids| - 1];
      assert forall y :: y in ids <==> y in init || y == ids[|ids| - 1];
      OnBranch(d, init, pb) + (if ParentBranchOf(d, ids[|ids| - 1]) == pb then [ids[|ids| - 1]] else [])
  }

  lemma OnBranchSnoc(d: Snapshot, ids: seq<string>, x: string, pb: string)
    ensures OnBranch(d, ids + [x], pb) == OnBranch(d, ids, pb) + (if ParentBranchOf(d, x) == pb then [x] else [])
  {
    assert (ids + [x])[..|ids|] == ids;
  }

  lemma {:induction false} OnBranchNoDuplicates(d: Snapshot, ids: seq<string>, pb: string)
    requires NoDuplicates(ids)
    ensures NoDuplicates(OnBranch(d, ids, pb))
  {
    if ids != [] {
      var init := ids[..|ids| - 1];
      OnBranchNoDuplicates(d, init, pb);
      assert ids[|ids| - 1] !in init;
    }
  }

  /** `overlappingSessions`: the other sessions on the parent branch of `id`, in listing order. */
  function OthersOnBranch(d: Snapshot, order: seq<string>, id: string): (r: seq<string>)
    ensures forall x :: x in r <==> x in order && x != id && ParentBranchOf(d, x) == ParentBranchOf(d, id)
  {
    Without(OnBranch(d, order, ParentBranchOf(d, id)), id)
  }

  /** A session with a parent branch that another listed session shares. */
  predicate HasSharers(d: Snapshot, order: seq<string>, id: string)
  {
    ParentBranchOf(d, id) != "" && |OthersOnBranch(d, order, id)| > 0
  }

  /** The listed sessions `ids` that get a branch-conflict report, in order. */
  function Primaries(d: Snapshot, order: seq<string>, ids: seq<string>): (r: seq<string>)
    ensures forall x :: x in r <==> x in ids && HasSharers(d, order, x)
  {
    if ids == [] then []
    else
      var init := ids[..|ids| - 1];
      assert forall y :: y in ids <==> y in init || y == ids[|ids| - 1];
      Primaries(d, order, init) + (if HasSharers(d, order, ids[|ids| - 1]) then [ids[|ids| - 1]] else [])
  }

  lemma PrimariesSnoc(d: Snapshot, order: seq<string>, ids: seq<string>, x: string)
    ensures Primaries(d, order, ids + [x]) == Primaries(d, order, ids) + (if HasSharers(d, order, x) then [x] else [])
  {
    assert (ids + [x])[..|ids|] == ids;
  }

  function BranchReport(d: Snapshot, order: seq<string>, id: string): Conflict
  {
    BranchConflict(ParentBranchOf(d, id), id, OthersOnBranch(d, order, id), SuggestBranchConflictResolution())
  }

  /** What `detectBranchConflicts` reports for sessions listed in `order`. */
  function BranchConflicts(d: Snapshot, order: seq<string>): (r: seq<Conflict>)
  {
    BranchReports(d, order, Primaries(d, order, order))
  }

  /** One branch report per session of `ps`, in order. */
  function BranchReports(d: Snapshot, order: seq<string>, ps: seq<string>): seq<Conflict>
  {
    seq(|ps|, k requires 0 <= k < |ps| => BranchReport(d, order, ps[k]))
  }

  lemma BranchReportsSnoc(d: Snapshot, order: seq<string>, ps: seq<string>, id: string)
    ensures BranchReports(d, order, ps + [id]) == BranchReports(d, order, ps) + [BranchReport(d, order, id)]
  {
  }

  /** The inner filter of `detectBranchConflicts`. */
  method OverlappingSessions(d: Snapshot, order: seq<string>, id: string) returns (others: seq<string>)
    ensures others == OthersOnBranch(d, order, id)
  {
    var pb := ParentBranchOf(d, id);
    others := [];
    for j := 0 to |order|
      invariant others == Without(OnBranch(d, order[..j], pb), id)
    {
      var other := order[j];
      ghost var prev := OnBranch(d, order[..j], pb);
      OnBranchSnoc(d, order[..j], other, pb);
      TakeSnoc(order, j);
      if ParentBranchOf(d, other) == pb {
        WithoutSnoc(prev, other, id);
        if other != id {
          others := others + [other];
        } else {
          AppendEmpty(Without(prev, id));
        }
      } else {
        AppendEmpty(prev);
      }
    }
    TakeAll(order);
  }

  /** `detectBranchConflicts`, with `order` the order in which the document lists its sessions. */
  method DetectBranchConflicts(d: Snapshot, order: seq<string>) returns (conflicts: seq<Conflict>)
    requires Enumerates(order, d.activeSessions.Keys)
    ensures conflicts == BranchConflicts(d, order)
  {
    conflicts := [];
    for i := 0 to |order|
      invariant conflicts == BranchReports(d, order, Primaries(d, order, order[..i]))
    {
      var id := order[i];
      ghost var ps := Primaries(d, order, order[..i]);
      PrimariesSnoc(d, order, order[..i], id);
      TakeSnoc(order, i);
      var pb := ParentBranchOf(d, id);
      if pb != "" {
        var others := OverlappingSessions(d, order, id);
        if |others| > 0 {
          BranchReportsSnoc(d, order, ps, id);
          conflicts := conflicts + [BranchConflict(pb, id, others, SuggestBranchConflictResolution())];
        } else {
          AppendEmpty(ps);
        }
      } else {
        AppendEmpty(ps);
      }
    }
    TakeAll(order);
  }

  /** Each report lists the other sharers: with k sessions on the branch, k - 1 of them. */
  lemma OthersCount(d: Snapshot, order: seq<string>, id: string)
    requires NoDuplicates(order) && id in order
    ensures |OthersOnBranch(d, order, id)| == |OnBranch(d, order, ParentBranchOf(d, id))| - 1
  {
    OnBranchNoDuplicates(d, order, ParentBranchOf(d, id));
    WithoutUniqueLength(OnBranch(d, order, ParentBranchOf(d, id)), id);
  }

  /**
   * The reports for a branch: every session on it when at least two share it,
   * and none when one session is alone on it.
   */
  lemma {:induction false} PrimariesOnBranch(d: Snapshot, order: seq<string>, ids: seq<string>, pb: string)
    requires NoDuplicates(order) && pb != ""
    requires forall x | x in ids :: x in order
    ensures OnBranch(d, Primaries(d, order, ids), pb) == if |OnBranch(d, order, pb)| >= 2 then OnBranch(d, ids, pb) else []
  {
    if ids != [] {
      var init, x := ids[..|ids| - 1], ids[|ids| - 1];
      assert ids == init + [x];
      PrimariesOnBranch(d, order, init, pb);
      var p := Primaries(d, order, init);
      if HasSharers(d, order, x) {
        OnBranchSnoc(d, p, x, pb);
      } else {
        assert Primaries(d, order, ids) == p;
      }
      OnBranchSnoc(d, init, x, pb);
      if ParentBranchOf(d, x) == pb {
        OthersCount(d, order, x);
      }
    }
  }

  /** k sessions sharing a parent branch give k reports, one per session, in listing order. */
  lemma SharedBranchReports(d: Snapshot, order: seq<string>, pb: string)
    requires Enumerates(order, d.activeSessions.Keys) && pb != ""
    ensures var r := BranchConflicts(d, order);
      var sharers := OnBranch(d, order, pb);
      |sharers| >= 2 ==>
        OnBranch(d, Primaries(d, order, order), pb) == sharers
        && forall k | 0 <= k < |r| && r[k].parentBranch == pb :: |r[k].conflictingSessions| == |sharers| - 1
  {
    PrimariesOnBranch(d, order, order, pb);
    BranchReportsCount(d, order, pb);
  }

  lemma BranchReportsCount(d: Snapshot, order: seq<string>, pb: string)
    requires NoDuplicates(order)
    ensures var r := BranchConflicts(d, order);
      forall k | 0 <= k < |r| && r[k].parentBranch == pb :: |r[k].conflictingSessions| == |OnBranch(d, order, pb)| - 1
  {
    var ps := Primaries(d, order, order);
    var r := BranchConflicts(d, order);
    forall k | 0 <= k < |r| && r[k].parentBranch == pb
      ensures |r[k].conflictingSessions| == |OnBranch(d, order, pb)| - 1
    {
      assert r[k] == BranchReport(d, order, ps[k]);
      assert ps[k] in ps;
      OthersCount(d, order, ps[k]);
    }
  }

  // ---------------------------------------------------- resource contention

  /** The key `${sessionId}:${requestedResource}` requests are counted under. */
  function ContentionKey(q: PermissionRequest): string
  {
    q.sessionId + ":" + q.requestedResource
  }

  function ContentionKeys(reg: map<string, PermissionRequest>, ids: seq<string>): (r: seq<string>)
    requires forall id | id in ids :: id in reg
    ensures |r| == |ids|
  {
    seq(|ids|, k requires 0 <= k < |ids| => ContentionKey(reg[ids[k]]))
  }

  /** A contention report: the key is split back at ':' and only the first two pieces are kept. */
  function ContentionReport(key: string, count: nat): (c: Conflict)
    ensures c.ResourceContention? && c.requestCount == count
  {
    var parts := Split(key, ':');
    ResourceContention(parts[0], if |parts| > 1 then parts[1] else "", count, SuggestResourceContentionResolution())
  }

  /** Reports for the keys `ks` counted more than three times in `keys`, in the order of `ks`. */
  function ContentionReports(keys: seq<string>, ks: seq<string>): (r: seq<Conflict>)
    ensures |r| <= |ks|
    ensures forall c | c in r :: c.ResourceContention? && c.requestCount > 3 && c.resolution == Escalate
  {
    if ks == [] then []
    else
      var k := ks[|ks| - 1];
      ContentionReports(keys, ks[..|ks| - 1])
      + (if Count(keys, k) > 3 then [ContentionReport(k, Count(keys, k))] else [])
  }

  /** What `detectResourceContention` reports, with `ids` the order the document lists its requests in. */
  function ResourceContentions(d: Snapshot, ids: seq<string>): seq<Conflict>
    requires forall id | id in ids :: id in d.permissionRegistry
  {
    var keys := ContentionKeys(d.permissionRegistry, ids);
    ContentionReports(keys, Distinct(keys))
  }

  /** `detectResourceContention`: count requests per key, report the keys counted more than three times. */
  method DetectResourceContention(d: Snapshot, ids: seq<string>) returns (conflicts: seq<Conflict>)
    requires Enumerates(ids, d.permissionRegistry.Keys)
    ensures conflicts == ResourceContentions(d, ids)
  {
    var keys := ContentionKeys(d.permissionRegistry, ids);
    var order, counts := CountOccurrences(keys);
    conflicts := ReportCounts(keys, order, counts);
  }

  /** The `forEach` over the counts of `detectResourceContention`: a report per key counted more than three times. */
  method ReportCounts(keys: seq<string>, order: seq<string>, counts: map<string, nat>) returns (conflicts: seq<Conflict>)
    requires forall k | k in order :: k in counts && counts[k] == Count(keys, k)
    ensures conflicts == ContentionReports(keys, order)
  {
    conflicts := [];
    for i := 0 to |order|
      invariant conflicts == ContentionReports(keys, order[..i])
    {
      var k := order[i];
      assert k in order;
      assert order[..i + 1][..i] == order[..i];
      if counts[k] > 3 {
        conflicts := conflicts + [ContentionReport(k, counts[k])];
      }
    }
    assert order[..|order|] == order;
  }

  /** Every reported key was requested more than three times. */
  lemma {:induction false} ContentionReportsSound(keys: seq<string>, ks: seq<string>, c: Conflict)
    requires c in ContentionReports(keys, ks)
    ensures exists k | k in ks :: Count(keys, k) > 3 && c == ContentionReport(k, Count(keys, k))
  {
    var init, k := ks[..|ks| - 1], ks[|ks| - 1];
    if c in ContentionReports(keys, init) {
      ContentionReportsSound(keys, init, c);
      var k' :| k' in init && Count(keys, k') > 3 && c == ContentionReport(k', Count(keys, k'));
      assert k' in ks;
    } else {
      assert k in ks;
    }
  }

  /** Every key requested more than three times is reported. */
  lemma {:induction false} ContentionReportsComplete(keys: seq<string>, ks: seq<string>, k: string)
    requires k in ks && Count(keys, k) > 3
    ensures ContentionReport(k, Count(keys, k)) in ContentionReports(keys, ks)
  {
    var init := ks[..|ks| - 1];
    if k != ks[|ks| - 1] {
      assert k in init;
      ContentionReportsComplete(keys, init, k);
    }
  }

  /**
   * The reported session is the request's own, and the reported resource is
   * the part of the requested resource before its first ':'.
   */
  lemma ContentionKeyPieces(q: PermissionRequest, count: nat)
    requires ':' !in q.sessionId
    ensures var c := ContentionReport(ContentionKey(q), count);
      c.sessionId == q.sessionId && c.resourcePath == Split(q.requestedResource, ':')[0]
      && (':' !in q.requestedResource ==> c.resourcePath == q.requestedResource)
  {
    assert ContentionKey(q) == q.sessionId + [':'] + q.requestedResource;
    SplitFirst(q.sessionId, ':', q.requestedResource);
    if ':' !in q.requestedResource {
      assert CharIndex(q.requestedResource, ':') == |q.requestedResource|;
    }
  }

  /** A resource with a ':' of its own is reported truncated to the part before it: "a:b" is reported as "a". */
  lemma ContentionTruncates(q: PermissionRequest, count: nat, a: string, b: string)
    requires ':' !in q.sessionId && ':' !in a && q.requestedResource == a + [':'] + b
    ensures ContentionReport(ContentionKey(q), count).resourcePath == a
  {
    ContentionKeyPieces(q, count);
    SplitFirst(a, ':', b);
  }

  /** `detectConflicts`: file-lock conflicts, then branch conflicts, then contention. */
  method DetectConflicts(d: Snapshot, sessionOrder: seq<string>, requestOrder: seq<string>, now: int)
    returns (conflicts: seq<Conflict>)
    requires Enumerates(sessionOrder, d.activeSessions.Keys)
    requires Enumerates(requestOrder, d.permissionRegistry.Keys)
    ensures conflicts == FileLockConflicts(d, now) + BranchConflicts(d, sessionOrder) + ResourceContentions(d, requestOrder)
  {
    var lockConflicts := DetectFileLockConflicts(d, now);
    var branchConflicts := DetectBranchConflicts(d, sessionOrder);
    var resourceConflicts := DetectResourceContention(d, requestOrder);
    conflicts := lockConflicts + branchConflicts + resourceConflicts;
  }

  // -------------------------------------------------------- auto-resolution

  datatype AutoResolution =
    | DocumentationAccessApproved(resourcePath: string)
    | DocumentationSplit(filePath: string, suggestedSplits: seq<string>)

  /** `suggestDocumentationSplit`: the first '.md' becomes '-section-1.md' and '-section-2.md'. */
  function DocumentationSplits(filePath: string): seq<string>
  {
    [ReplaceFirst(filePath, ".md", "-section-1.md"), ReplaceFirst(filePath, ".md", "-section-2.md")]
  }

  /** The automatic resolution of one conflict, if any. */
  function AutoResolve(c: Conflict): (r: Option<AutoResolution>)
    ensures r.Some? && r.value.DocumentationAccessApproved? <==> c.ResourceContention? && IsDocumentation(c.resourcePath)
    ensures r.Some? && r.value.DocumentationSplit? <==> c.FileLockConflict? && EndsWith(c.filePath, ".md")
  {
    match c
    case ResourceContention(_, resourcePath, _, _) =>
      if IsDocumentation(resourcePath) then Some(DocumentationAccessApproved(resourcePath)) else None
    case FileLockConflict(filePath, _, _, _, _, _) =>
      if EndsWith(filePath, ".md") then Some(DocumentationSplit(filePath, DocumentationSplits(filePath))) else None
    case BranchConflict(_, _, _, _) => None
  }

  /** `autoResolveConflicts`: the resolutions of the conflicts that have one, in conflict order. */
  function AutoResolveConflicts(conflicts: seq<Conflict>): (r: seq<AutoResolution>)
    ensures |r| <= |conflicts|
    ensures forall a | a in r :: exists c | c in conflicts :: AutoResolve(c) == Some(a)
    ensures forall c | c in conflicts && AutoResolve(c).Some? :: AutoResolve(c).value in r
  {
    if conflicts == [] then []
    else
      var init, c := conflicts[..|conflicts| - 1], conflicts[|conflicts| - 1];
      assert forall x :: x in conflicts <==> x in init || x == c;
      AutoResolveConflicts(init) + (match AutoResolve(c) case Some(a) => [a] case None => [])
  }

  /** A file named `a.md` with no other '.md' is split into `a-section-1.md` and `a-section-2.md`. */
  lemma SplitOfMarkdownFile(a: string)
    requires !Includes(a, ".md")
    ensures DocumentationSplits(a + ".md") == [a + "-section-1.md", a + "-section-2.md"]
  {
    var s := a + ".md";
    assert OccursAt(s, ".md", |a|);
    forall i | 0 <= i < |a| ensures !OccursAt(s, ".md", i) {
      if i + 3 <= |a| {
        assert s[i..i + 3] == a[i..i + 3];
        assert !OccursAt(a, ".md", i);
      } else if i == |a| - 1 {
        assert s[i..i + 3][1] == s[|a|] == '.';
      } else {
        assert s[i..i + 3][2] == s[|a|] == '.';
      }
    }
    assert IndexOf(s, ".md") == |a|;
    assert s[..|a|] == a && s[|a| + 3..] == [];
    assert ReplaceFirst(s, ".md", "-section-1.md") == a + "-section-1.md";
    assert ReplaceFirst(s, ".md", "-section-2.md") == a + "-section-2.md";
    assert DocumentationSplits(s) == [a + "-section-1.md", a + "-section-2.md"];
  }

  // --------------------------------------------------------- recommendations

  datatype RecommendationPriority = Medium | High

  datatype Recommendation = Recommendation(priority: RecommendationPriority, category: string, message: string)

  predicate HasCategory(rs: seq<Recommendation>, category: string)
  {
    exists k | 0 <= k < |rs| :: rs[k].category == category
  }

  /** A session started more than four hours before `now`. */
  predicate LongRunning(s: (string, SessionSummary), now: int)
  {
    now - s.1.startTime > 4 * Hour
  }

  lemma HasCategoryConcat(a: seq<Recommendation>, b: seq<Recommendation>, category: string)
    ensures HasCategory(a + b, category) <==> HasCategory(a, category) || HasCategory(b, category)
  {
    var r := a + b;
    if HasCategory(r, category) {
      var k :| 0 <= k < |r| && r[k].category == category;
      if k < |a| {
        assert r[k] == a[k];
      } else {
        assert r[k] == b[k - |a|];
      }
    }
    if HasCategory(a, category) {
      var k :| 0 <= k < |a| && a[k].category == category;
      assert r[k] == a[k];
    }
    if HasCategory(b, category) {
      var k :| 0 <= k < |b| && b[k].category == category;
      assert r[|a| + k] == b[k];
    }
  }

  /** `x` when `add` holds, and nothing otherwise. */
  function OptionalRecommendation(add: bool, x: Recommendation): (r: seq<Recommendation>)
    ensures |r| <= 1
    ensures forall c :: HasCategory(r, c) <==> add && x.category == c
  {
    var r := if add then [x] else [];
    assert add ==> r[0] == x;
    r
  }

  /** The threshold recommendations, before the per-session ones. */
  function ThresholdRecommendations(status: SystemStatus, conflictCount: nat): (r: seq<Recommendation>)
    ensures HasCategory(r, "performance") <==> status.totalActiveLocks > 10
    ensures HasCategory(r, "access-control") <==> status.totalPendingRequests > 5
    ensures HasCategory(r, "conflicts") <==> conflictCount > 0
    ensures !HasCategory(r, "session-management")
    ensures |r| <= 3
  {
    var locks := OptionalRecommendation(status.totalActiveLocks > 10,
      Recommendation(Medium, "performance", "High number of active file locks detected"));
    var pending := OptionalRecommendation(status.totalPendingRequests > 5,
      Recommendation(High, "access-control", "High number of pending permission requests"));
    var conflicts := OptionalRecommendation(conflictCount > 0,
      Recommendation(High, "conflicts", IntToString(conflictCount) + " coordination conflicts detected"));
    forall c ensures HasCategory(locks + pending + conflicts, c) <==>
                     HasCategory(locks, c) || HasCategory(pending, c) || HasCategory(conflicts, c) {
      HasCategoryConcat(locks, pending, c);
      HasCategoryConcat(locks + pending, conflicts, c);
    }
    locks + pending + conflicts
  }

  /** One 'session-management' recommendation per long-running session, in order. */
  function SessionRecommendations(sessions: seq<(string, SessionSummary)>, now: int): (r: seq<Recommendation>)
    ensures |r| <= |sessions|
    ensures forall k | 0 <= k < |r| :: r[k].category == "session-management" && r[k].priority == Medium
    ensures |r| > 0 <==> exists k | 0 <= k < |sessions| :: LongRunning(sessions[k], now)
  {
    if sessions == [] then []
    else
      var init, s := sessions[..|sessions| - 1], sessions[|sessions| - 1];
      assert forall k | 0 <= k < |init| :: init[k] == sessions[k];
      SessionRecommendations(init, now)
      + (if LongRunning(s, now)
         then [Recommendation(Medium, "session-management", "Long-running sub-session detected: " + s.0)] else [])
  }

  lemma SessionRecommendationsSnoc(sessions: seq<(string, SessionSummary)>, s: (string, SessionSummary), now: int)
    ensures SessionRecommendations(sessions + [s], now) == SessionRecommendations(sessions, now)
      + (if LongRunning(s, now)
         then [Recommendation(Medium, "session-management", "Long-running sub-session detected: " + s.0)] else [])
  {
    assert (sessions + [s])[..|sessions|] == sessions;
  }

  /** What `generateRecommendations` returns. */
  function Recommendations(status: SystemStatus, conflictCount: nat, now: int): (r: seq<Recommendation>)
    ensures HasCategory(r, "performance") <==> status.totalActiveLocks > 10
    ensures HasCategory(r, "access-control") <==> status.totalPendingRequests > 5
    ensures HasCategory(r, "conflicts") <==> conflictCount > 0
    ensures HasCategory(r, "session-management") <==> exists k | 0 <= k < |status.sessions| :: LongRunning(status.sessions[k], now)
    ensures forall i, j | 0 <= i < j < |r| && r[i].category == "session-management" :: r[j].category == "session-management"
    ensures |r| <= 3 + |status.sessions|
  {
    var fixed := ThresholdRecommendations(status, conflictCount);
    var perSession := SessionRecommendations(status.sessions, now);
    SessionRecommendationsLast(fixed, perSession);
    CategoriesDiffer("performance", "access-control", "conflicts", "session-management");
    OtherCategoryKept(fixed, perSession, "performance");
    OtherCategoryKept(fixed, perSession, "access-control");
    OtherCategoryKept(fixed, perSession, "conflicts");
    fixed + perSession
  }

  /** Names of different lengths differ. */
  lemma CategoriesDiffer(a: string, b: string, c: string, s: string)
    requires |a| == 11 && |b| == 14 && |c| == 9 && |s| == 18
    ensures a != s && b != s && c != s
  {
  }

  /** Per-session recommendations appended after recommendations of other categories. */
  lemma SessionRecommendationsLast(fixed: seq<Recommendation>, perSession: seq<Recommendation>)
    requires !HasCategory(fixed, "session-management")
    requires forall k | 0 <= k < |perSession| :: perSession[k].category == "session-management"
    ensures var r := fixed + perSession;
      (HasCategory(r, "session-management") <==> |perSession| > 0)
      && forall i, j | 0 <= i < j < |r| && r[i].category == "session-management" :: r[j].category == "session-management"
  {
    HasCategoryConcat(fixed, perSession, "session-management");
    if |perSession| > 0 {
      assert perSession[0].category == "session-management";
    }
  }

  /** Appending session recommendations keeps the other categories as they were. */
  lemma OtherCategoryKept(fixed: seq<Recommendation>, perSession: seq<Recommendation>, c: string)
    requires c != "session-management"
    requires forall k | 0 <= k < |perSession| :: perSession[k].category == "session-management"
    ensures HasCategory(fixed + perSession, c) <==> HasCategory(fixed, c)
  {
    HasCategoryConcat(fixed, perSession, c);
  }

  /** `generateRecommendations`: the threshold checks, then a loop over the sessions. */
  method GenerateRecommendations(status: SystemStatus, conflicts: seq<Conflict>, now: int)
    returns (recommendations: seq<Recommendation>)
    ensures recommendations == Recommendations(status, |conflicts|, now)
  {
    var fixed := ThresholdRecommendations(status, |conflicts|);
    var perSession: seq<Recommendation> := [];
    ghost var seen: seq<(string, SessionSummary)> := [];
    var i := 0;
    while i < |status.sessions|
      invariant 0 <= i <= |status.sessions| && seen == status.sessions[..i]
      invariant perSession == SessionRecommendations(seen, now)
    {
      var s := status.sessions[i];
      SessionRecommendationsSnoc(seen, s, now);
      if now - s.1.startTime > 4 * Hour {
        perSession := perSession + [Recommendation(Medium, "session-management", "Long-running sub-session detected: " + s.0)];
      } else {
        assert perSession + [] == perSession;
      }
      TakeSnoc(status.sessions, i);
      seen := seen + [s];
      i := i + 1;
    }
    assert seen == status.sessions;
    recommendations := fixed + perSession;
  }

  // ------------------------------------------------------------------ health

  datatype HealthLevel = Healthy | Warning | Critical

  datatype SystemHealth = SystemHealth(score: nat, level: HealthLevel, issues: seq<string>, recommendations: seq<string>)

  /** The number of sessions idle for more than two hours. */
  function StaleCount(sessions: seq<(string, SessionSummary)>, now: int): (n: nat)
    ensures n <= |sessions|
    ensures n == 0 <==> forall k | 0 <= k < |sessions| :: now - sessions[k].1.lastActivity <= 2 * Hour
  {
    if sessions == [] then 0
    else
      var init, s := sessions[..|sessions| - 1], sessions[|sessions| - 1];
      assert forall k | 0 <= k < |init| :: init[k] == sessions[k];
      StaleCount(init, now) + (if now - s.1.lastActivity > 2 * Hour then 1 else 0)
  }

  /** The score before it is clamped at zero. */
  function RawScore(status: SystemStatus, conflictCount: nat, now: int): int
  {
    100 - 10 * conflictCount
    - (if status.totalActiveLocks > 15 then 20 else 0)
    - (if status.totalPendingRequests > 10 then 15 else 0)
    - 5 * StaleCount(status.sessions, now)
  }

  /** `assessSystemHealth` */
  function AssessSystemHealth(status: SystemStatus, conflicts: seq<Conflict>, now: int): (h: SystemHealth)
    ensures h.score <= 100
    ensures h.score == if RawScore(status, |conflicts|, now) > 0 then RawScore(status, |conflicts|, now) else 0
    ensures h.level == Healthy <==> h.score > 80
    ensures h.level == Warning <==> 60 < h.score <= 80
    ensures h.level == Critical <==> h.score <= 60
    ensures h.recommendations != [] <==> h.score < 80
    ensures h.issues == [] <==> h.score == 100
  {
    var stale := StaleCount(status.sessions, now);
    var score := RawScore(status, |conflicts|, now);
    var issues :=
      (if |conflicts| > 0 then [IntToString(|conflicts|) + " active conflicts"] else [])
      + (if status.totalActiveLocks > 15 then ["High file lock usage"] else [])
      + (if status.totalPendingRequests > 10 then ["High number of pending permission requests"] else [])
      + (if stale > 0 then [IntToString(stale) + " stale sessions"] else []);
    SystemHealth(
      if score > 0 then score else 0,
      if score > 80 then Healthy else if score > 60 then Warning else Critical,
      issues,
      if score < 80 then ["Review and resolve coordination issues"] else [])
  }

  // ----------------------------------------------------- coordination log

  /** Entries beyond this many, oldest first, are dropped. */
  const LogLimit: nat := 200

  datatype LogEntry = LogEntry(
    timestamp: int, action: string, details: string, sessionIds: seq<string>,
    resolution: Option<string>, id: string)

  /** `coord-<ms>-<random>`: the shape of coordination and log entry ids. */
  function CoordinationId(now: int, random: string): string
  {
    "coord-" + IntToString(now) + "-" + random
  }

  /** `coordination-log.json` */
  class CoordinationLog {
    var lastUpdated: int
    var entries: seq<LogEntry>

    /** A log file that does not exist yet. */
    constructor (now: int)
      ensures entries == [] && lastUpdated == now
    {
      entries, lastUpdated := [], now;
    }

    /** `addCoordinationLog`: the entry goes first and the log keeps its newest 200 entries. */
    method AddCoordinationLog(action: string, details: string, sessionIds: seq<string>,
                              resolution: Option<string>, now: int, random: string, saveOk: bool)
      modifies this
      ensures var e := LogEntry(now, action, details, sessionIds, resolution, CoordinationId(now, random));
        saveOk ==>
          entries == Newest([e] + old(entries), LogLimit) && lastUpdated == now
          && |entries| == (if |old(entries)| < LogLimit then |old(entries)| + 1 else LogLimit)
          && entries[0] == e && entries[1..] == old(entries)[..|entries| - 1]
      ensures !saveOk ==> entries == old(entries) && lastUpdated == old(lastUpdated)
    {
      var log := entries;
      log := [LogEntry(now, action, details, sessionIds, resolution, CoordinationId(now, random))] + log;
      if |log| > LogLimit {
        log := log[..LogLimit];
      }
      if saveOk {
        entries, lastUpdated := log, now;
      }
    }
  }

  // ---------------------------------------------------- coordination records

  /** The first listed id with no session, if any: the one `coordinateSessions` throws for. */
  function FirstMissing(ids: seq<string>, sessions: map<string, Session>): (r: Option<string>)
    ensures r.None? <==> forall k | 0 <= k < |ids| :: ids[k] in sessions
    ensures r.Some? ==> exists k | 0 <= k < |ids| :: ids[k] == r.value && ids[k] !in sessions
                                                     && forall j | 0 <= j < k :: ids[j] in sessions
  {
    if ids == [] then None
    else if ids[0] !in sessions then Some(ids[0])
    else
      var r := FirstMissing(ids[1..], sessions);
      assert forall k | 1 <= k < |ids| :: ids[1..][k - 1] == ids[k];
      r
  }

  /** The sessions after the coordination id is pushed onto each listed participant's list. */
  function WithCoordination(sessions: map<string, Session>, ids: seq<string>, coordinationId: string)
    : (r: map<string, Session>)
    requires forall k | 0 <= k < |ids| :: ids[k] in sessions
    ensures r.Keys == sessions.Keys
  {
    if ids == [] then sessions
    else
      var init, x := ids[..|ids| - 1], ids[|ids| - 1];
      var m := WithCoordination(sessions, init, coordinationId);
      m[x := m[x].(coordinations := m[x].coordinations + [coordinationId])]
  }

  /** A participant listed n times gets the id n more times at the end of its list; nothing else changes. */
  lemma {:induction false} WithCoordinationAppends(sessions: map<string, Session>, ids: seq<string>,
                                                   coordinationId: string, s: string)
    requires forall k | 0 <= k < |ids| :: ids[k] in sessions
    requires s in sessions
    ensures var r := WithCoordination(sessions, ids, coordinationId);
      r[s] == sessions[s].(coordinations := sessions[s].coordinations + Copies(coordinationId, Count(ids, s)))
  {
    if ids != [] {
      var init, x := ids[..|ids| - 1], ids[|ids| - 1];
      assert ids == init + [x];
      WithCoordinationAppends(sessions, init, coordinationId, s);
      CountSnoc(init, x, s);
      var n := Count(init, s);
      if x == s {
        assert Copies(coordinationId, n) + [coordinationId] == Copies(coordinationId, n + 1);
      }
    }
  }

  /** The document after `coordinateSessions` records a new coordination among `ids`. */
  function Coordinated(d: Snapshot, ids: seq<string>, coordinationType: string, context: map<string, string>,
                       now: int, coordinationId: string): (r: Snapshot)
    requires FirstMissing(ids, d.activeSessions).None?
    ensures r.activeSessions.Keys == d.activeSessions.Keys
    ensures forall s | s in ids :: coordinationId in r.activeSessions[s].coordinations
    ensures forall s | s in d.activeSessions && s !in ids :: r.activeSessions[s] == d.activeSessions[s]
    ensures r.coordinations.Keys == d.coordinations.Keys + {coordinationId}
    ensures r.coordinations[coordinationId].status == Active && r.coordinations[coordinationId].sessions == ids
    ensures forall c | c in d.coordinations && c != coordinationId :: r.coordinations[c] == d.coordinations[c]
    ensures r.fileLocks == d.fileLocks && r.permissionRegistry == d.permissionRegistry && r.lockHistory == d.lockHistory
  {
    var sessions := WithCoordination(d.activeSessions, ids, coordinationId);
    forall s | s in d.activeSessions
      ensures s in ids ==> coordinationId in sessions[s].coordinations
      ensures s !in ids ==> sessions[s] == d.activeSessions[s]
    {
      WithCoordinationAppends(d.activeSessions, ids, coordinationId, s);
      var n := |d.activeSessions[s].coordinations|;
      if s in ids {
        assert sessions[s].coordinations[n] == coordinationId;
      } else {
        assert d.activeSessions[s].coordinations + [] == d.activeSessions[s].coordinations;
      }
    }
    d.(activeSessions := sessions,
       coordinations := d.coordinations[coordinationId :=
         Coordination(coordinationId, coordinationType, ids, now, Active, context, [], None)])
  }

  /** The document after a message is appended to an existing coordination. */
  function Messaged(d: Snapshot, coordinationId: string, m: CoordinationMessage): (r: Snapshot)
    requires coordinationId in d.coordinations
    ensures r.coordinations.Keys == d.coordinations.Keys
    ensures r.coordinations[coordinationId].messages == d.coordinations[coordinationId].messages + [m]
    ensures r.coordinations[coordinationId].status == d.coordinations[coordinationId].status
    ensures forall c | c in d.coordinations && c != coordinationId :: r.coordinations[c] == d.coordinations[c]
  {
    var c := d.coordinations[coordinationId];
    d.(coordinations := d.coordinations[coordinationId := c.(messages := c.messages + [m])])
  }

  /** The document after a coordination is marked resolved, replacing any earlier resolution. */
  function ResolvedIn(d: Snapshot, coordinationId: string, approach: string, resolvedBy: string, now: int)
    : (r: Snapshot)
    requires coordinationId in d.coordinations
    ensures r.coordinations.Keys == d.coordinations.Keys
    ensures r.coordinations[coordinationId].status == Resolved
    ensures r.coordinations[coordinationId].resolution == Some(Resolution(approach, resolvedBy, now))
    ensures forall c | c in d.coordinations && c != coordinationId :: r.coordinations[c] == d.coordinations[c]
  {
    var c := d.coordinations[coordinationId];
    d.(coordinations := d.coordinations[coordinationId := c.(status := Resolved,
                                                             resolution := Some(Resolution(approach, resolvedBy, now)))])
  }

  /**
   * Once resolved, a coordination stays resolved: messages and later
   * resolutions keep it so, and a new coordination under another id leaves it alone.
   */
  lemma ResolvedStaysResolved(d: Snapshot, c: string, target: string, m: CoordinationMessage,
                              approach: string, resolvedBy: string, ids: seq<string>, coordinationType: string,
                              context: map<string, string>, now: int)
    requires c in d.coordinations && d.coordinations[c].status == Resolved
    ensures target in d.coordinations ==> Messaged(d, target, m).coordinations[c].status == Resolved
    ensures target in d.coordinations ==> ResolvedIn(d, target, approach, resolvedBy, now).coordinations[c].status == Resolved
    ensures target != c && FirstMissing(ids, d.activeSessions).None? ==>
      Coordinated(d, ids, coordinationType, context, now, target).coordinations[c].status == Resolved
  {
  }

  datatype CoordinateResult = CoordinateResult(coordinationId: Option<string>, success: bool)

  datatype MessageResult = MessageResult(messageId: Option<string>, success: bool)

  /** The validation loop of `coordinateSessions`. */
  method FindMissing(ids: seq<string>, sessions: map<string, Session>) returns (missing: Option<string>)
    ensures missing == FirstMissing(ids, sessions)
  {
    var i := 0;
    while i < |ids|
      invariant 0 <= i <= |ids|
      invariant forall k | 0 <= k < i :: ids[k] in sessions
    {
      if ids[i] !in sessions {
        FirstMissingAt(ids, sessions, i);
        return Some(ids[i]);
      }
      i := i + 1;
    }
    return None;
  }

  /** The loop of `coordinateSessions` that pushes the id onto each participant's list. */
  method AddCoordination(sessions: map<string, Session>, ids: seq<string>, coordinationId: string)
    returns (updated: map<string, Session>)
    requires forall k | 0 <= k < |ids| :: ids[k] in sessions
    ensures updated == WithCoordination(sessions, ids, coordinationId)
  {
    updated := sessions;
    ghost var seen: seq<string> := [];
    var j := 0;
    while j < |ids|
      invariant 0 <= j <= |ids| && seen == ids[..j]
      invariant updated == WithCoordination(sessions, seen, coordinationId)
    {
      var id := ids[j];
      assert (seen + [id])[..|seen|] == seen;
      var s := updated[id];
      updated := updated[id := s.(coordinations := s.coordinations + [coordinationId])];
      TakeSnoc(ids, j);
      seen := seen + [id];
      j := j + 1;
    }
    assert seen == ids;
  }

  /** `coordinateSessions`: check every id, then record the coordination, log it and write the document. */
  method CoordinateSessions(registry: Registry, log: CoordinationLog, sessionIds: seq<string>,
                            coordinationType: string, context: map<string, string>, now: int,
                            random: string, logRandom: string, saveOk: bool, logSaveOk: bool)
    returns (r: Result<CoordinateResult, string>)
    modifies registry, log
    ensures var missing := FirstMissing(sessionIds, old(registry.activeSessions));
      missing.Some? ==>
        r == Failure("Session " + missing.value + " not found")
        && registry.Load() == old(registry.Load()) && log.entries == old(log.entries)
    ensures var coordinationId := CoordinationId(now, random);
      FirstMissing(sessionIds, old(registry.activeSessions)).None? ==>
        registry.Load() == Saved(old(registry.Load()),
          Coordinated(old(registry.Load()), sessionIds, coordinationType, context, now, coordinationId), now, saveOk)
        && r == Success(if saveOk then CoordinateResult(Some(coordinationId), true) else CoordinateResult(None, false))
        && log.entries == (if logSaveOk then Newest([LogEntry(now, "coordination-started",
                             "Started " + coordinationType + " coordination", sessionIds, None,
                             CoordinationId(now, logRandom))] + old(log.entries), LogLimit)
                           else old(log.entries))
  {
    var locks := registry.Load();
    var coordinationId := CoordinationId(now, random);
    var missing := FindMissing(sessionIds, locks.activeSessions);
    if missing.Some? {
      return Failure("Session " + missing.value + " not found");
    }
    var sessions := AddCoordination(locks.activeSessions, sessionIds, coordinationId);
    var coordination := Coordination(coordinationId, coordinationType, sessionIds, now, Active, context, [], None);
    var copy := locks.(activeSessions := sessions, coordinations := locks.coordinations[coordinationId := coordination]);
    log.AddCoordinationLog("coordination-started", "Started " + coordinationType + " coordination",
                           sessionIds, None, now, logRandom, logSaveOk);
    var ok := registry.Save(copy, now, saveOk);
    if ok {
      return Success(CoordinateResult(Some(coordinationId), true));
    }
    return Success(CoordinateResult(None, false));
  }

  /** The first index whose id is missing, after only present ones, is the one reported. */
  lemma {:induction false} FirstMissingAt(ids: seq<string>, sessions: map<string, Session>, i: nat)
    requires i < |ids| && ids[i] !in sessions && forall k | 0 <= k < i :: ids[k] in sessions
    ensures FirstMissing(ids, sessions) == Some(ids[i])
  {
    if i > 0 {
      FirstMissingAt(ids[1..], sessions, i - 1);
    }
  }

  /** `sendCoordinationMessage`: the coordination must exist and the sender take part in it. */
  method SendCoordinationMessage(registry: Registry, log: CoordinationLog, coordinationId: string,
                                 fromSessionId: string, message: string, messageType: string, now: int,
                                 random: string, logRandom: string, saveOk: bool, logSaveOk: bool)
    returns (r: Result<MessageResult, string>)
    modifies registry, log
    ensures coordinationId !in old(registry.coordinations) ==>
      r == Failure("Coordination " + coordinationId + " not found")
      && registry.Load() == old(registry.Load()) && log.entries == old(log.entries)
    ensures coordinationId in old(registry.coordinations)
            && fromSessionId !in old(registry.coordinations)[coordinationId].sessions ==>
      r == Failure("Session " + fromSessionId + " not part of coordination " + coordinationId)
      && registry.Load() == old(registry.Load()) && log.entries == old(log.entries)
    ensures var messageId := "msg-" + IntToString(now) + "-" + random;
      coordinationId in old(registry.coordinations)
      && fromSessionId in old(registry.coordinations)[coordinationId].sessions ==>
        registry.Load() == Saved(old(registry.Load()),
          Messaged(old(registry.Load()), coordinationId,
                   CoordinationMessage(now, fromSessionId, message, messageType, messageId)), now, saveOk)
        && r == Success(if saveOk then MessageResult(Some(messageId), true) else MessageResult(None, false))
        && log.entries == (if logSaveOk then Newest([LogEntry(now, "coordination-message", message,
                             [fromSessionId], None, CoordinationId(now, logRandom))] + old(log.entries), LogLimit)
                           else old(log.entries))
  {
    var locks := registry.Load();
    if coordinationId !in locks.coordinations {
      return Failure("Coordination " + coordinationId + " not found");
    }
    var coordination := locks.coordinations[coordinationId];
    if fromSessionId !in coordination.sessions {
      return Failure("Session " + fromSessionId + " not part of coordination " + coordinationId);
    }
    var messageId := "msg-" + IntToString(now) + "-" + random;
    var entry := CoordinationMessage(now, fromSessionId, message, messageType, messageId);
    coordination := coordination.(messages := coordination.messages + [entry]);
    locks := locks.(coordinations := locks.coordinations[coordinationId := coordination]);
    log.AddCoordinationLog("coordination-message", message, [fromSessionId], None, now, logRandom, logSaveOk);
    var ok := registry.Save(locks, now, saveOk);
    if ok {
      return Success(MessageResult(Some(messageId), true));
    }
    return Success(MessageResult(None, false));
  }

  /** `resolveCoordination`: mark an existing coordination resolved, whatever its status. */
  method ResolveCoordination(registry: Registry, log: CoordinationLog, coordinationId: string,
                             resolution: string, resolvedBy: string, now: int,
                             logRandom: string, saveOk: bool, logSaveOk: bool)
    returns (r: Result<bool, string>)
    modifies registry, log
    ensures coordinationId !in old(registry.coordinations) ==>
      r == Failure("Coordination " + coordinationId + " not found")
      && registry.Load() == old(registry.Load()) && log.entries == old(log.entries)
    ensures coordinationId in old(registry.coordinations) ==>
      registry.Load() == Saved(old(registry.Load()),
        ResolvedIn(old(registry.Load()), coordinationId, resolution, resolvedBy, now), now, saveOk)
      && r == Success(saveOk)
      && log.entries == (if logSaveOk then Newest([LogEntry(now, "coordination-resolved", "Resolved via " + resolution,
                           old(registry.coordinations)[coordinationId].sessions, Some(resolution),
                           CoordinationId(now, logRandom))] + old(log.entries), LogLimit)
                         else old(log.entries))
  {
    var locks := registry.Load();
    if coordinationId !in locks.coordinations {
      return Failure("Coordination " + coordinationId + " not found");
    }
    var coordination := locks.coordinations[coordinationId];
    coordination := coordination.(status := Resolved, resolution := Some(Resolution(resolution, resolvedBy, now)));
    locks := locks.(coordinations := locks.coordinations[coordinationId := coordination]);
    log.AddCoordinationLog("coordination-resolved", "Resolved via " + resolution, coordination.sessions,
                           Some(resolution), now, logRandom, logSaveOk);
    var ok := registry.Save(locks, now, saveOk);
    return Success(ok);
  }
}
