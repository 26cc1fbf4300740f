/**
 * update-branch-tracking.js: the central branch tracking files and the
 * handlers that keep them current as branches are created, merged and
 * deleted.  The class `TrackingFiles` holds what the tracking files contain;
 * a handler reads them, builds the new documents, and writes back the ones
 * it saves.  `saveJSON` catches a failed write and only logs it, so each
 * file changes exactly when its own write succeeds (`Writes`).  A handler
 * that throws saves nothing, so the files keep their contents.  Timestamps
 * are the instants they denote, in milliseconds.
 */
module BranchTracking {
  import opened Wrappers
  import opened Seqs
  import opened JsString

  /** The `gemini_feedback` record an agent session leaves on a branch. */
  datatype FeedbackLink = FeedbackLink(feedbackId: string, priority: string, sessionId: string, triggeredAt: int)

  /** One entry of a repository's branch list in `active-branches.json`. */
  datatype Branch = Branch(
    name: string,
    author: Option<string>,
    created: int,
    lastActivity: int,
    taskGroup: Option<string>,
    status: string,
    worktree: Option<string>,
    agent: string,
    relatedBranches: seq<string>,
    githubUrl: string,
    issues: seq<string>,
    geminiFeedback: Option<FeedbackLink>)

  /** The value stored under a repository: a list of branches, or some other JSON value, truthy or not. */
  datatype RepoValue = Listed(entries: seq<Branch>) | Unlisted(truthy: bool)

  /** A task group of `task-groups.json`: its title and the branch it has in each repository. */
  datatype TaskGroup = TaskGroup(title: string, branches: map<string, string>)

  /** One entry of `recentMerges` and of `eligibleForCleanup`. */
  datatype MergeEntry = MergeEntry(
    repository: string,
    branch: string,
    mergedAt: int,
    mergedBy: Option<string>,
    targetBranch: Option<string>,
    taskGroup: Option<string>,
    cleanupEligible: bool,
    worktreePath: Option<string>)

  /** How a handler ended: it reached its saves, returned early without saving, or threw. */
  datatype Outcome = Saved | Skipped | Threw

  /** Which of the four tracking files a `saveJSON` call would write successfully. */
  datatype Writes = Writes(activeBranches: bool, taskGroups: bool, mergeLog: bool, cleanupQueue: bool)

  /** What `branches[repo]` is to a handler: absent or falsy, a truthy value that is not a list, or a list. */
  datatype RepoLookup = Missing | NotAList | Found(entries: seq<Branch>)

  function Lookup(branches: Option<map<string, RepoValue>>, repo: string): RepoLookup
  {
    if branches.None? || repo !in branches.value || branches.value[repo] == Unlisted(false) then Missing
    else if branches.value[repo].Unlisted? then NotAList
    else Found(branches.value[repo].entries)
  }

  /** The list a handler that creates missing lists extends: the stored one, or a new empty one. */
  function ListOrEmpty(branches: Option<map<string, RepoValue>>, repo: string): seq<Branch>
  {
    if Lookup(branches, repo).Found? then Lookup(branches, repo).entries else []
  }

  /** `branches.findIndex(b => b.name === name)` */
  function FindIndex(bs: seq<Branch>, name: string): (r: int)
    ensures -1 <= r < |bs|
    ensures r >= 0 ==> bs[r].name == name && forall k | 0 <= k < r :: bs[k].name != name
    ensures r == -1 <==> forall k | 0 <= k < |bs| :: bs[k].name != name
  {
    if bs == [] then -1
    else if bs[0].name == name then 0
    else
      var k := FindIndex(bs[1..], name);
      if k < 0 then -1 else k + 1
  }

  /** `branches.splice(i, 1)` */
  function RemoveAt(bs: seq<Branch>, i: nat): (r: seq<Branch>)
    requires i < |bs|
    ensures |r| == |bs| - 1
    ensures forall k | 0 <= k < i :: r[k] == bs[k]
    ensures forall k | i <= k < |r| :: r[k] == bs[k + 1]
  {
    bs[..i] + bs[i + 1..]
  }

  /** The entries named `name`. */
  function Named(bs: seq<Branch>, name: string): nat
  {
    if bs == [] then 0 else (if bs[0].name == name then 1 else 0) + Named(bs[1..], name)
  }

  lemma {:induction false} NamedAppend(bs: seq<Branch>, b: Branch, name: string)
    ensures Named(bs + [b], name) == Named(bs, name) + (if b.name == name then 1 else 0)
  {
    if bs == [] {
      assert [b][1..] == [];
    } else {
      assert (bs + [b])[1..] == bs[1..] + [b];
      NamedAppend(bs[1..], b, name);
    }
  }

  // ---------------------------------------------------------------------------------------------
  // Branch names

  /** The index of the first `/`, when it ends a non-empty prefix (`/^([^/]+)\//`). */
  function PrefixEnd(branch: string): (r: nat)
    ensures r < |branch| ==> 0 < r && branch[r] == '/' && '/' !in branch[..r]
    ensures r == |branch| <==> '/' !in branch || branch[0] == '/'
  {
    var i := CharIndex(branch, '/');
    if i == 0 || i == |branch| then |branch|
    else
      assert forall c | c in branch[..i] :: c != '/';
      i
  }

  /** The agent named by the branch prefix before its first `/`, or `unknown`. */
  function AgentOf(branch: string): string
  {
    var i := PrefixEnd(branch);
    if i < |branch| then branch[..i] else "unknown"
  }

  /** The branch name without its agent prefix and with every `-` read as a space. */
  function BranchTitle(branch: string): string
  {
    var i := PrefixEnd(branch);
    ReplaceAll(if i < |branch| then branch[i + 1..] else branch, "-", " ")
  }

  /** A branch `agent/rest` belongs to `agent`, and its title is `rest` with spaces for dashes. */
  lemma {:induction false} PrefixedBranch(agent: string, rest: string)
    requires agent != [] && '/' !in agent
    ensures AgentOf(agent + "/" + rest) == agent
    ensures BranchTitle(agent + "/" + rest) == ReplaceAll(rest, "-", " ")
  {
    var b := agent + "/" + rest;
    assert b[|agent|] == '/';
    assert b[..|agent|] == agent;
    assert CharIndex(b, '/') == |agent|;
    assert b[|agent| + 1..] == rest;
  }

  /** A branch without a `/`, or whose first character is one, has no agent prefix. */
  lemma UnprefixedBranch(branch: string)
    requires '/' !in branch || branch[0] == '/'
    ensures AgentOf(branch) == "unknown"
    ensures BranchTitle(branch) == ReplaceAll(branch, "-", " ")
  {
  }

  // ---------------------------------------------------------------------------------------------
  // Task groups

  /** The group's title and the branch title contain one another, ignoring case. */
  predicate TitleMatches(group: TaskGroup, title: string)
  {
    Related(ToLower(group.title), ToLower(title))
  }

  /** The index of the first group (in the file's order) whose title matches, or the number of groups. */
  function FirstMatchingGroup(groups: seq<(string, TaskGroup)>, title: string, from: nat): (r: nat)
    requires from <= |groups|
    ensures from <= r <= |groups|
    ensures r < |groups| ==> TitleMatches(groups[r].1, title)
    ensures forall k | from <= k < r :: !TitleMatches(groups[k].1, title)
    decreases |groups| - from
  {
    if from == |groups| then from
    else if TitleMatches(groups[from].1, title) then from
    else FirstMatchingGroup(groups, title, from + 1)
  }

  /** The loop over `Object.entries(taskGroups)` that stops at the first matching title. */
  method FindTaskGroup(groups: seq<(string, TaskGroup)>, title: string) returns (found: nat)
    ensures found == FirstMatchingGroup(groups, title, 0)
  {
    found := 0;
    while found < |groups|
      invariant found <= |groups|
      invariant FirstMatchingGroup(groups, title, 0) == FirstMatchingGroup(groups, title, found)
      decreases |groups| - found
    {
      if Related(ToLower(groups[found].1.title), ToLower(title)) {
        break;
      }
      found := found + 1;
    }
  }

  /** A branch named after its agent alone (`agent/`) has an empty title, which every group title contains. */
  lemma EmptyTitleJoinsFirstGroup(groups: seq<(string, TaskGroup)>, agent: string)
    requires |groups| > 0 && agent != [] && '/' !in agent
    ensures FirstMatchingGroup(groups, BranchTitle(agent + "/"), 0) == 0
  {
    PrefixedBranch(agent, "");
    assert BranchTitle(agent + "/") == "";
    assert OccursAt(ToLower(groups[0].1.title), "", 0);
  }

  /** The group's branch for `repo`, set only when it has none (a missing or empty name). */
  function JoinGroup(group: TaskGroup, repo: string, branch: string): (r: TaskGroup)
    ensures r.title == group.title
    ensures repo in group.branches && group.branches[repo] != "" ==> r == group
    ensures repo !in group.branches || group.branches[repo] == "" ==> r.branches == group.branches[repo := branch]
  {
    if repo in group.branches && group.branches[repo] != "" then group
    else group.(branches := group.branches[repo := branch])
  }

  // ---------------------------------------------------------------------------------------------
  // Branch created

  /** The webhook payload of a created branch; absent fields are `None`. */
  datatype CreatePayload = CreatePayload(
    repository: string,
    branch: string,
    author: Option<string>,
    created: Option<int>,
    worktree: Option<string>,
    githubUrl: Option<string>,
    issues: Option<seq<string>>)

  /** The entry `handleBranchCreated` builds, before the task-group check. */
  function NewBranch(p: CreatePayload, now: int): (b: Branch)
    ensures b.name == p.branch && b.status == "active" && b.agent == AgentOf(p.branch)
    ensures b.taskGroup.None? && b.lastActivity == now && b.relatedBranches == []
    ensures b.created == (if p.created.Some? then p.created.value else now)
    ensures b.worktree == (if Truthy(p.worktree) then p.worktree else None)
    ensures b.issues == (if p.issues.Some? then p.issues.value else [])
  {
    Branch(p.branch, p.author, p.created.GetOr(now), now, None, "active",
           if Truthy(p.worktree) then p.worktree else None, AgentOf(p.branch), [],
           OrDefault(p.githubUrl, "https://github.com/tuvens/" + p.repository + "/tree/" + p.branch),
           p.issues.GetOr([]), None)
  }

  /** The new entry with the task group it joins, if any. */
  function CreatedEntry(p: CreatePayload, now: int, groups: seq<(string, TaskGroup)>): Branch
  {
    var g := FirstMatchingGroup(groups, BranchTitle(p.branch), 0);
    NewBranch(p, now).(taskGroup := if g < |groups| then Some(groups[g].0) else None)
  }

  /** `task-groups.json` after the branch joined its group; unchanged when no group matches. */
  function JoinedGroups(p: CreatePayload, groups: seq<(string, TaskGroup)>): (r: seq<(string, TaskGroup)>)
    ensures |r| == |groups|
    ensures forall k | 0 <= k < |groups| :: r[k].0 == groups[k].0 && r[k].1.title == groups[k].1.title
  {
    var g := FirstMatchingGroup(groups, BranchTitle(p.branch), 0);
    if g < |groups| then groups[g := (groups[g].0, JoinGroup(groups[g].1, p.repository, p.branch))] else groups
  }

  /**
   * A created branch joins exactly the first group whose title matches; that
   * group gains the branch for the repository unless it already names one,
   * and no other group changes.
   */
  lemma CreatedJoinsFirstGroup(p: CreatePayload, now: int, groups: seq<(string, TaskGroup)>, k: nat)
    requires k < |groups| && TitleMatches(groups[k].1, BranchTitle(p.branch))
    requires forall m | 0 <= m < k :: !TitleMatches(groups[m].1, BranchTitle(p.branch))
    ensures CreatedEntry(p, now, groups).taskGroup == Some(groups[k].0)
    ensures JoinedGroups(p, groups)[k].1 == JoinGroup(groups[k].1, p.repository, p.branch)
    ensures forall m | 0 <= m < |groups| && m != k :: JoinedGroups(p, groups)[m] == groups[m]
  {
    var g := FirstMatchingGroup(groups, BranchTitle(p.branch), 0);
    assert g == k;
  }

  // ---------------------------------------------------------------------------------------------
  // Branch merged

  /** The payload of a merged branch. */
  datatype MergePayload = MergePayload(
    repository: string,
    branch: string,
    mergedAt: Option<int>,
    mergedBy: Option<string>,
    targetBranch: Option<string>)

  const MergeLogLimit := 50

  /** The merge-log entry for the removed branch `merged`. */
  function MergeRecord(p: MergePayload, merged: Branch, now: int): (e: MergeEntry)
    ensures e.repository == p.repository && e.branch == p.branch && e.cleanupEligible
    ensures e.taskGroup == merged.taskGroup && e.worktreePath == merged.worktree
    ensures e.mergedAt == (if p.mergedAt.Some? then p.mergedAt.value else now)
  {
    MergeEntry(p.repository, p.branch, p.mergedAt.GetOr(now), p.mergedBy, p.targetBranch,
               merged.taskGroup, true, merged.worktree)
  }

  /** The local-update payload: the action and the fields the three handlers read. */
  datatype LocalPayload = LocalPayload(
    action: string,
    repository: string,
    branch: string,
    author: Option<string>,
    worktree: Option<string>,
    agent: Option<string>,
    taskGroup: Option<string>,
    issues: Option<seq<string>>,
    mergedAt: Option<int>,
    mergedBy: Option<string>,
    targetBranch: Option<string>)

  /** The creation payload a local `create` builds; its `agent` and `taskGroup` are passed but never read. */
  function LocalCreatePayload(p: LocalPayload, now: int): (c: CreatePayload)
    ensures c.repository == p.repository && c.branch == p.branch
    ensures c.author == Some(if Truthy(p.author) then p.author.value else "local-user")
    ensures c.created == Some(now) && c.githubUrl.None?
  {
    CreatePayload(p.repository, p.branch, Some(OrDefault(p.author, "local-user")), Some(now), p.worktree,
                  None, Some(p.issues.GetOr([])))
  }

  /** A local `create` names its agent from the branch, whatever agent the payload gives. */
  lemma LocalCreateIgnoresAgent(p: LocalPayload, q: LocalPayload, now: int)
    requires p.(agent := q.agent, taskGroup := q.taskGroup) == q
    ensures LocalCreatePayload(p, now) == LocalCreatePayload(q, now)
    ensures NewBranch(LocalCreatePayload(p, now), now).agent == AgentOf(p.branch)
  {
  }

  /** The task-group loop of `handleBranchCreated`: the entry names the first matching group, which records the branch. */
  method AssignTaskGroup(p: CreatePayload, now: int, groups: seq<(string, TaskGroup)>)
    returns (entry: Branch, joined: seq<(string, TaskGroup)>)
    ensures entry == CreatedEntry(p, now, groups) && joined == JoinedGroups(p, groups)
  {
    entry := NewBranch(p, now);
    joined := groups;
    var g := FindTaskGroup(groups, BranchTitle(p.branch));
    if g < |groups| {
      entry := entry.(taskGroup := Some(groups[g].0));
      joined := groups[g := (groups[g].0, JoinGroup(groups[g].1, p.repository, p.branch))];
    }
  }

  /** The central tracking files: active branches, task groups, the merge log and the cleanup queue. */
  class TrackingFiles {
    /** `active-branches.json`: the `branches` object (absent as `None`), `lastUpdated` and `generatedBy`. */
    var branches: Option<map<string, RepoValue>>
    var lastUpdated: Option<int>
    var generatedBy: Option<string>
    /** `task-groups.json`, its entries in the file's order. */
    var taskGroups: seq<(string, TaskGroup)>
    /** `merge-log.json`'s `recentMerges`, newest first. */
    var recentMerges: Option<seq<MergeEntry>>
    /** `cleanup-queue.json`'s `eligibleForCleanup`. */
    var eligibleForCleanup: Option<seq<MergeEntry>>

    constructor(branches: Option<map<string, RepoValue>>, taskGroups: seq<(string, TaskGroup)>)
      ensures this.branches == branches && this.taskGroups == taskGroups
      ensures lastUpdated.None? && generatedBy.None? && recentMerges.None? && eligibleForCleanup.None?
    {
      this.branches := branches;
      this.taskGroups := taskGroups;
      lastUpdated, generatedBy, recentMerges, eligibleForCleanup := None, None, None, None;
    }

    /** The state `handleBranchCreated` leaves, with its outcome `r`. */
    twostate predicate Created(p: CreatePayload, now: int, w: Writes, r: Outcome)
      reads this
    {
      && r != Skipped
      && (r == Threw <==> Lookup(old(branches), p.repository) == NotAList)
      && (r == Threw ==> unchanged(this))
      && (r == Saved ==>
            && Named(ListOrEmpty(old(branches), p.repository) + [CreatedEntry(p, now, old(taskGroups))], p.branch)
               == Named(ListOrEmpty(old(branches), p.repository), p.branch) + 1
            && (w.activeBranches ==>
                  && branches == Some(old(branches).GetOr(map[])[p.repository :=
                       Listed(ListOrEmpty(old(branches), p.repository) + [CreatedEntry(p, now, old(taskGroups))])])
                  && lastUpdated == Some(now) && generatedBy == Some("GitHub Actions"))
            && (!w.activeBranches ==>
                  branches == old(branches) && lastUpdated == old(lastUpdated) && generatedBy == old(generatedBy))
            && taskGroups == (if w.taskGroups && Truthy(CreatedEntry(p, now, old(taskGroups)).taskGroup)
                              then JoinedGroups(p, old(taskGroups)) else old(taskGroups)))
      && recentMerges == old(recentMerges) && eligibleForCleanup == old(eligibleForCleanup)
    }

    /** The state `handleBranchMerged` leaves, with its outcome `r`. */
    twostate predicate Merged(p: MergePayload, now: int, w: Writes, r: Outcome)
      reads this
    {
      && (r == Threw <==> Lookup(old(branches), p.repository) == NotAList)
      && (r == Skipped <==>
            Lookup(old(branches), p.repository).Missing?
            || (Lookup(old(branches), p.repository).Found? && FindIndex(Lookup(old(branches), p.repository).entries, p.branch) == -1))
      && (r != Saved ==> unchanged(this))
      && (r == Saved ==>
            var list := Lookup(old(branches), p.repository).entries;
            var i := FindIndex(list, p.branch);
            var entry := MergeRecord(p, list[i], now);
            && branches == (if w.activeBranches then Some(old(branches).value[p.repository := Listed(RemoveAt(list, i))])
                            else old(branches))
            && lastUpdated == (if w.activeBranches then Some(now) else old(lastUpdated))
            && recentMerges == (if w.mergeLog then Some(PushFrontCapped(old(recentMerges).GetOr([]), entry, MergeLogLimit))
                                else old(recentMerges))
            && eligibleForCleanup == (if w.cleanupQueue && Truthy(list[i].worktree)
                                      then Some(old(eligibleForCleanup).GetOr([]) + [entry])
                                      else old(eligibleForCleanup))
            && generatedBy == old(generatedBy) && taskGroups == old(taskGroups))
    }

    /** The state `handleBranchDeleted` leaves, with its outcome `r`. */
    twostate predicate Deleted(repository: string, branch: string, now: int, w: Writes, r: Outcome)
      reads this
    {
      && (r == Threw <==> Lookup(old(branches), repository) == NotAList)
      && (r == Saved <==>
            Lookup(old(branches), repository).Found? && FindIndex(Lookup(old(branches), repository).entries, branch) >= 0)
      && (r != Saved ==> unchanged(this))
      && (r == Saved && !w.activeBranches ==> unchanged(this))
      && (r == Saved && w.activeBranches ==>
            var list := Lookup(old(branches), repository).entries;
            && branches == Some(old(branches).value[repository := Listed(RemoveAt(list, FindIndex(list, branch)))])
            && lastUpdated == Some(now)
            && generatedBy == old(generatedBy) && taskGroups == old(taskGroups)
            && recentMerges == old(recentMerges) && eligibleForCleanup == old(eligibleForCleanup))
    }

    /**
     * `handleBranchCreated`: the new entry is always appended, even when the
     * list already has a branch of that name; the first task group whose
     * title matches records it, and `task-groups.json` is saved only when the
     * group's id is non-empty.  The two writes succeed or fail independently.
     */
    method HandleBranchCreated(p: CreatePayload, now: int, w: Writes) returns (r: Outcome)
      modifies this
      ensures Created(p, now, w, r)
    {
      var found := Lookup(branches, p.repository);
      if found.NotAList? {
        return Threw;
      }
      var list := ListOrEmpty(branches, p.repository);
      var entry, groups := AssignTaskGroup(p, now, taskGroups);
      NamedAppend(list, entry, p.branch);
      if w.activeBranches {
        branches := Some(branches.GetOr(map[])[p.repository := Listed(list + [entry])]);
        lastUpdated := Some(now);
        generatedBy := Some("GitHub Actions");
      }
      if w.taskGroups && Truthy(entry.taskGroup) {
        taskGroups := groups;
      }
      r := Saved;
    }

    /**
     * `handleBranchMerged`: nothing happens when the repository or the branch
     * is not tracked; otherwise the first entry of that name is removed, its
     * merge is logged first in a log of at most fifty, and it is queued for
     * clean-up exactly when it had a worktree.  Each of the three files is
     * written by its own `saveJSON`, which may fail alone.
     */
    method HandleBranchMerged(p: MergePayload, now: int, w: Writes) returns (r: Outcome)
      modifies this
      ensures Merged(p, now, w, r)
    {
      var found := Lookup(branches, p.repository);
      if found.Missing? {
        return Skipped;
      } else if found.NotAList? {
        return Threw;
      }
      var list := found.entries;
      var i := FindIndex(list, p.branch);
      if i == -1 {
        return Skipped;
      }
      var merged := list[i];
      var entry := MergeRecord(p, merged, now);
      if w.mergeLog {
        recentMerges := Some(PushFrontCapped(recentMerges.GetOr([]), entry, MergeLogLimit));
      }
      if w.cleanupQueue && Truthy(merged.worktree) {
        eligibleForCleanup := Some(eligibleForCleanup.GetOr([]) + [entry]);
      }
      if w.activeBranches {
        branches := Some(branches.value[p.repository := Listed(RemoveAt(list, i))]);
        lastUpdated := Some(now);
      }
      r := Saved;
    }

    /** `handleBranchDeleted`: the first entry of that name goes, and the file is saved only then. */
    method HandleBranchDeleted(repository: string, branch: string, now: int, w: Writes) returns (r: Outcome)
      modifies this
      ensures Deleted(repository, branch, now, w, r)
    {
      var found := Lookup(branches, repository);
      if found.Missing? {
        return Skipped;
      } else if found.NotAList? {
        return Threw;
      }
      var i := FindIndex(found.entries, branch);
      if i == -1 {
        return Skipped;
      }
      if w.activeBranches {
        branches := Some(branches.value[repository := Listed(RemoveAt(found.entries, i))]);
        lastUpdated := Some(now);
      }
      r := Saved;
    }

    /** `handleLocalUpdate`: `create`, `merge` and `delete` go to their handlers; any other action only logs. */
    method HandleLocalUpdate(p: LocalPayload, now: int, w: Writes) returns (r: Outcome)
      modifies this
      ensures p.action !in {"create", "merge", "delete"} ==> r == Skipped && unchanged(this)
      ensures p.action == "create" ==> Created(LocalCreatePayload(p, now), now, w, r)
      ensures p.action == "merge" ==> Merged(MergePayload(p.repository, p.branch, p.mergedAt, p.mergedBy, p.targetBranch), now, w, r)
      ensures p.action == "delete" ==> Deleted(p.repository, p.branch, now, w, r)
      ensures p.action == "merge" || p.action == "delete" ==>
        (r == Saved <==> Lookup(old(branches), p.repository).Found?
                         && FindIndex(Lookup(old(branches), p.repository).entries, p.branch) >= 0)
    {
      if p.action == "create" {
        r := HandleBranchCreated(LocalCreatePayload(p, now), now, w);
      } else if p.action == "merge" {
        r := HandleBranchMerged(MergePayload(p.repository, p.branch, p.mergedAt, p.mergedBy, p.targetBranch), now, w);
      } else if p.action == "delete" {
        r := HandleBranchDeleted(p.repository, p.branch, now, w);
      } else {
        r := Skipped;
      }
    }
  }
}
