/**
 * sub-session-integration.js: the recommendations and quick actions shown
 * with the combined status of the sub-session registry and the coordination
 * manager.
 */
module SubSessionIntegration {
  import opened SubSessionManager
  import opened CoordinationManager

  /** The four concerns a system recommendation is about, in the order they are checked. */
  datatype Area = Performance | LockContention | Conflicts | Permissions
  {
    function Category(): string
    {
      match this
      case Performance => "performance"
      case LockContention => "coordination"
      case Conflicts => "conflicts"
      case Permissions => "permissions"
    }

    function Rank(): nat
    {
      match this
      case Performance => 0
      case LockContention => 1
      case Conflicts => 2
      case Permissions => 3
    }

    function Priority(): RecommendationPriority
    {
      match this
      case Performance => Medium
      case LockContention => High
      case Conflicts => High
      case Permissions => Medium
    }
  }

  datatype SystemRecommendation = SystemRecommendation(area: Area, priority: RecommendationPriority, category: string)

  /** The threshold under which `area` is raised; each is a strict comparison. */
  predicate Triggered(area: Area, status: SystemStatus, conflicts: seq<Conflict>)
  {
    match area
    case Performance => status.totalActiveSessions > 5
    case LockContention => status.totalActiveLocks > 15
    case Conflicts => |conflicts| > 3
    case Permissions => status.totalPendingRequests > 8
  }

  predicate Raises(r: seq<SystemRecommendation>, area: Area)
  {
    exists k | 0 <= k < |r| :: r[k].area == area
  }

  /** The recommendations are in the order of their areas, each area at most once. */
  predicate InAreaOrder(r: seq<SystemRecommendation>)
  {
    forall i, j | 0 <= i < j < |r| :: r[i].area.Rank() < r[j].area.Rank()
  }

  /** Every recommendation carries the priority and category of its area. */
  predicate Labelled(r: seq<SystemRecommendation>)
  {
    forall k | 0 <= k < |r| :: r[k].priority == r[k].area.Priority() && r[k].category == r[k].area.Category()
  }

  /** One threshold check: `if (cond) recommendations.push(...)`. */
  function PushIf(acc: seq<SystemRecommendation>, cond: bool, area: Area): (r: seq<SystemRecommendation>)
    requires InAreaOrder(acc) && forall k | 0 <= k < |acc| :: acc[k].area.Rank() < area.Rank()
    requires Labelled(acc)
    ensures InAreaOrder(r) && forall k | 0 <= k < |r| :: r[k].area.Rank() <= area.Rank()
    ensures forall a :: Raises(r, a) <==> Raises(acc, a) || (cond && a == area)
    ensures |r| == |acc| + (if cond then 1 else 0)
    ensures Labelled(r)
  {
    if cond then
      var r := acc + [SystemRecommendation(area, area.Priority(), area.Category())];
      forall a ensures Raises(r, a) <==> Raises(acc, a) || a == area {
        if Raises(acc, a) {
          var k :| 0 <= k < |acc| && acc[k].area == a;
          assert r[k].area == a;
        }
        if a == area {
          assert r[|acc|].area == a;
        }
      }
      r
    else acc
  }

  /**
   * `generateSystemRecommendations`: one recommendation per area over its
   * threshold, in the order performance, lock contention, conflicts,
   * permissions.
   */
  function SystemRecommendations(status: SystemStatus, conflicts: seq<Conflict>): (r: seq<SystemRecommendation>)
    ensures forall area :: Raises(r, area) <==> Triggered(area, status, conflicts)
    ensures InAreaOrder(r) && Labelled(r)
    ensures |r| <= 4
  {
    var a := PushIf([], status.totalActiveSessions > 5, Performance);
    var b := PushIf(a, status.totalActiveLocks > 15, LockContention);
    var c := PushIf(b, |conflicts| > 3, Conflicts);
    PushIf(c, status.totalPendingRequests > 8, Permissions)
  }

  /** At exactly the thresholds nothing is recommended: all four comparisons are strict. */
  lemma ThresholdsStrict(status: SystemStatus, conflicts: seq<Conflict>)
    requires status.totalActiveSessions == 5 && status.totalActiveLocks == 15
    requires |conflicts| == 3 && status.totalPendingRequests == 8
    ensures SystemRecommendations(status, conflicts) == []
  {
  }

  /** The quick actions, in the order they are offered. */
  datatype QuickAction = ViewSessionDetails | RunCoordinationReport | ReviewPendingRequests | RunCleanup
  {
    function Category(): string
    {
      match this
      case ViewSessionDetails => "session-management"
      case RunCoordinationReport => "conflict-resolution"
      case ReviewPendingRequests => "permission-management"
      case RunCleanup => "maintenance"
    }

    function Name(): string
    {
      match this
      case ViewSessionDetails => "view-session-details"
      case RunCoordinationReport => "run-coordination-report"
      case ReviewPendingRequests => "review-pending-requests"
      case RunCleanup => "run-cleanup"
    }

    function Rank(): nat
    {
      match this
      case ViewSessionDetails => 0
      case RunCoordinationReport => 1
      case ReviewPendingRequests => 2
      case RunCleanup => 3
    }
  }

  /** `generateQuickActions`: the optional actions by the counts, then always the clean-up. */
  function QuickActions(status: SystemStatus, conflicts: seq<Conflict>): (r: seq<QuickAction>)
    ensures |r| > 0 && r[|r| - 1] == RunCleanup
    ensures ViewSessionDetails in r <==> status.totalActiveSessions > 0
    ensures RunCoordinationReport in r <==> |conflicts| > 0
    ensures ReviewPendingRequests in r <==> status.totalPendingRequests > 0
    ensures forall i, j | 0 <= i < j < |r| :: r[i].Rank() < r[j].Rank()
  {
    (if status.totalActiveSessions > 0 then [ViewSessionDetails] else [])
    + (if |conflicts| > 0 then [RunCoordinationReport] else [])
    + (if status.totalPendingRequests > 0 then [ReviewPendingRequests] else [])
    + [RunCleanup]
  }
}
