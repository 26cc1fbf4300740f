/**
 * deduplicate-branches.js: every repository's branch list in
 * `active-branches.json` is reduced to one entry per branch name, the most
 * recently active one, and absolute worktree paths under the home directory
 * are rewritten with `~`.  The home directory and the clock are parameters.
 */
module BranchDeduplication {
  import opened Wrappers
  import opened Seqs
  import opened JsString
  import opened BranchTracking

  /** The names of the entries, in order. */
  function Names(bs: seq<Branch>): (r: seq<string>)
    ensures |r| == |bs| && forall i | 0 <= i < |bs| :: r[i] == bs[i].name
  {
    if bs == [] then [] else Names(bs[..|bs| - 1]) + [bs[|bs| - 1].name]
  }

  lemma NamesSnoc(bs: seq<Branch>, b: Branch)
    ensures Names(bs + [b]) == Names(bs) + [b.name]
  {
    assert (bs + [b])[..|bs|] == bs;
  }

  /** `branchGroups[name]` after the grouping pass: the entries with that name, in their order. */
  function Group(bs: seq<Branch>, name: string): seq<Branch>
  {
    if bs == [] then []
    else Group(bs[..|bs| - 1], name) + (if bs[|bs| - 1].name == name then [bs[|bs| - 1]] else [])
  }

  lemma GroupSnoc(bs: seq<Branch>, b: Branch, name: string)
    ensures Group(bs + [b], name) == Group(bs, name) + (if b.name == name then [b] else [])
  {
    assert (bs + [b])[..|bs|] == bs;
  }

  /** The group holds the entries of that name and nothing else. */
  lemma {:induction false} GroupMembers(bs: seq<Branch>, name: string)
    ensures forall b | b in Group(bs, name) :: b in bs && b.name == name
    ensures forall b | b in bs && b.name == name :: b in Group(bs, name)
    decreases |bs|
  {
    if bs != [] {
      var init := bs[..|bs| - 1];
      assert bs == init + [bs[|bs| - 1]];
      GroupMembers(init, name);
    }
  }

  /** A name occurs in the list exactly when its group is non-empty. */
  lemma GroupNonEmpty(bs: seq<Branch>, name: string)
    ensures Group(bs, name) != [] <==> name in Names(bs)
  {
    GroupMembers(bs, name);
    if name in Names(bs) {
      var i :| 0 <= i < |bs| && Names(bs)[i] == name;
      assert bs[i] in Group(bs, name);
    }
    if Group(bs, name) != [] {
      var b := Group(bs, name)[0];
      var i :| 0 <= i < |bs| && bs[i] == b;
      assert Names(bs)[i] == name;
    }
  }

  /**
   * The entry the stable sort by descending `lastActivity` puts first: the
   * most recent one, and the earliest of those when several are equally recent.
   */
  function LatestIndex(g: seq<Branch>): (r: nat)
    requires |g| > 0
    ensures r < |g|
    ensures forall k | 0 <= k < |g| :: g[k].lastActivity <= g[r].lastActivity
    ensures forall k | 0 <= k < r :: g[k].lastActivity < g[r].lastActivity
  {
    if |g| == 1 then 0
    else
      var i := LatestIndex(g[..|g| - 1]);
      assert forall k | 0 <= k < |g| - 1 :: g[..|g| - 1][k] == g[k];
      if g[|g| - 1].lastActivity > g[i].lastActivity then |g| - 1 else i
  }

  /** `makePathPortable`: a falsy path passes through; otherwise the first occurrence of the home directory becomes `~`. */
  function MakePathPortable(path: Option<string>, home: string): (r: Option<string>)
    ensures !Truthy(path) ==> r == path
    ensures Truthy(path) && !Includes(path.value, home) ==> r == path
    ensures Truthy(path) && StartsWith(path.value, home) ==> r == Some("~" + path.value[|home|..])
  {
    if !Truthy(path) then path
    else
      var p := path.value;
      assert StartsWith(p, home) ==> OccursAt(p, home, 0) && IndexOf(p, home) == 0 && p[..0] + "~" == "~";
      Some(ReplaceFirst(p, home, "~"))
  }

  /** Only a worktree that is an absolute path is made portable. */
  predicate Absolute(b: Branch)
  {
    Truthy(b.worktree) && StartsWith(b.worktree.value, "/")
  }

  /** The kept entry with its worktree made portable when it is absolute. */
  function Portable(b: Branch, home: string): (r: Branch)
    ensures r.(worktree := b.worktree) == b
    ensures !Absolute(b) ==> r == b
  {
    if Absolute(b) then b.(worktree := MakePathPortable(b.worktree, home)) else b
  }

  /** The path of the kept entry is counted as fixed when making it portable changed it. */
  predicate PathFixed(b: Branch, home: string)
  {
    Absolute(b) && MakePathPortable(b.worktree, home) != b.worktree
  }

  /** The entry kept for `name`, as it is written back. */
  function Kept(bs: seq<Branch>, name: string, home: string): (r: Branch)
    requires Group(bs, name) != []
    ensures r.name == name
  {
    var g := Group(bs, name);
    GroupMembers(bs, name);
    assert g[LatestIndex(g)] in g;
    Portable(g[LatestIndex(g)], home)
  }

  /** `Group(bs, n)` is non-empty for every name of `order`. */
  predicate AllGrouped(bs: seq<Branch>, order: seq<string>)
  {
    forall k | 0 <= k < |order| :: Group(bs, order[k]) != []
  }

  /** The kept entries for the names of `order`, in that order. */
  function DedupedOver(bs: seq<Branch>, order: seq<string>, home: string): (r: seq<Branch>)
    requires AllGrouped(bs, order)
    ensures |r| == |order|
    ensures forall k | 0 <= k < |order| :: r[k] == Kept(bs, order[k], home)
  {
    if order == [] then []
    else
      var init := order[..|order| - 1];
      assert forall k | 0 <= k < |init| :: init[k] == order[k];
      DedupedOver(bs, init, home) + [Kept(bs, order[|order| - 1], home)]
  }

  /** `branchGroup.length - 1` summed over the names with more than one entry. */
  function RemovedOver(bs: seq<Branch>, order: seq<string>): nat
  {
    if order == [] then 0
    else
      var g := Group(bs, order[|order| - 1]);
      RemovedOver(bs, order[..|order| - 1]) + (if |g| > 1 then |g| - 1 else 0)
  }

  /** The number of kept entries whose path was made portable. */
  function FixedOver(bs: seq<Branch>, order: seq<string>, home: string): nat
    requires AllGrouped(bs, order)
  {
    if order == [] then 0
    else
      var g := Group(bs, order[|order| - 1]);
      var init := order[..|order| - 1];
      assert forall k | 0 <= k < |init| :: init[k] == order[k];
      FixedOver(bs, init, home) + (if PathFixed(g[LatestIndex(g)], home) then 1 else 0)
  }

  /** The group sizes summed over `order`. */
  function SizesOver(bs: seq<Branch>, order: seq<string>): nat
  {
    if order == [] then 0 else SizesOver(bs, order[..|order| - 1]) + |Group(bs, order[|order| - 1])|
  }

  /** The distinct names, in order of first appearance: the order of the grouping object's keys. */
  function NameOrder(bs: seq<Branch>): (r: seq<string>)
    ensures AllGrouped(bs, r)
  {
    var r := Distinct(Names(bs));
    forall k | 0 <= k < |r| ensures Group(bs, r[k]) != [] {
      GroupNonEmpty(bs, r[k]);
    }
    r
  }

  /** The repository's list after deduplication. */
  function Deduplicated(bs: seq<Branch>, home: string): seq<Branch>
  {
    DedupedOver(bs, NameOrder(bs), home)
  }

  // ---------------------------------------------------------------------------------------------
  // Properties

  /**
   * After deduplication the names are pairwise distinct, and there is exactly
   * one entry for every name of the input, in order of first appearance.
   */
  lemma DeduplicatedNames(bs: seq<Branch>, home: string)
    ensures Names(Deduplicated(bs, home)) == Distinct(Names(bs))
    ensures forall i, j | 0 <= i < j < |Deduplicated(bs, home)| ::
      Deduplicated(bs, home)[i].name != Deduplicated(bs, home)[j].name
    ensures forall n :: n in Names(Deduplicated(bs, home)) <==> n in Names(bs)
  {
  }

  /**
   * The entry kept for a name is one of its entries, at least as recent as
   * every other entry of that name, and strictly more recent than those of
   * its group before it; only its worktree may differ.
   */
  lemma KeptIsLatest(bs: seq<Branch>, name: string, home: string)
    requires Group(bs, name) != []
    ensures var g := Group(bs, name); var i := LatestIndex(g);
      && g[i] in bs && g[i].name == name
      && Kept(bs, name, home).(worktree := g[i].worktree) == g[i]
      && (forall b | b in bs && b.name == name :: b.lastActivity <= g[i].lastActivity)
      && (forall k | 0 <= k < i :: g[k].lastActivity < g[i].lastActivity)
  {
    var g := Group(bs, name);
    var i := LatestIndex(g);
    GroupMembers(bs, name);
    forall b | b in bs && b.name == name ensures b.lastActivity <= g[i].lastActivity {
      var k :| 0 <= k < |g| && g[k] == b;
    }
  }

  /** Adding one entry adds one to the group of its name when that name is already in `order`. */
  lemma {:induction false} SizesSnoc(bs: seq<Branch>, b: Branch, order: seq<string>)
    requires NoDuplicates(order)
    ensures SizesOver(bs + [b], order) == SizesOver(bs, order) + (if b.name in order then 1 else 0)
    decreases |order|
  {
    if order != [] {
      var init := order[..|order| - 1];
      var x := order[|order| - 1];
      assert order == init + [x];
      assert b.name in order <==> b.name in init || b.name == x;
      assert x !in init;
      SizesSnoc(bs, b, init);
      GroupSnoc(bs, b, x);
    }
  }

  /** The groups of all distinct names together hold every entry. */
  lemma {:induction false} SizesCoverAll(bs: seq<Branch>)
    ensures SizesOver(bs, Distinct(Names(bs))) == |bs|
    decreases |bs|
  {
    if bs != [] {
      var init := bs[..|bs| - 1];
      var b := bs[|bs| - 1];
      assert bs == init + [b];
      NamesSnoc(init, b);
      var d := Distinct(Names(init));
      DistinctSnoc(Names(init), b.name);
      SizesCoverAll(init);
      SizesSnoc(init, b, d);
      if b.name !in d {
        GroupSnoc(init, b, b.name);
        GroupNonEmpty(init, b.name);
        assert (d + [b.name])[..|d|] == d;
      }
    }
  }

  /** Summing `size - 1` over non-empty groups is the sum of the sizes less the number of groups. */
  lemma {:induction false} RemovedIsExcess(bs: seq<Branch>, order: seq<string>)
    requires AllGrouped(bs, order)
    ensures RemovedOver(bs, order) == SizesOver(bs, order) - |order|
    decreases |order|
  {
    if order != [] {
      var init := order[..|order| - 1];
      assert Group(bs, order[|order| - 1]) != [];
      assert AllGrouped(bs, init) by {
        forall k | 0 <= k < |init| ensures Group(bs, init[k]) != [] {
          assert init[k] == order[k];
        }
      }
      RemovedIsExcess(bs, init);
    }
  }

  /** The duplicates counted for a repository are exactly the entries that deduplication drops. */
  lemma DuplicatesRemovedCount(bs: seq<Branch>, home: string)
    ensures RemovedOver(bs, NameOrder(bs)) == |bs| - |Deduplicated(bs, home)|
  {
    SizesCoverAll(bs);
    RemovedIsExcess(bs, NameOrder(bs));
  }

  /** A repository whose names are already distinct keeps every entry, with portable paths. */
  lemma DistinctNamesKept(bs: seq<Branch>, home: string)
    requires forall i, j | 0 <= i < j < |bs| :: bs[i].name != bs[j].name
    ensures |Deduplicated(bs, home)| == |bs|
    ensures RemovedOver(bs, NameOrder(bs)) == 0
  {
    DistinctOfDistinct(Names(bs));
    DuplicatesRemovedCount(bs, home);
  }

  lemma {:induction false} DistinctOfDistinct(xs: seq<string>)
    requires NoDuplicates(xs)
    ensures Distinct(xs) == xs
    decreases |xs|
  {
    if xs != [] {
      var init := xs[..|xs| - 1];
      DistinctOfDistinct(init);
      assert xs[|xs| - 1] !in init;
      assert xs == init + [xs[|xs| - 1]];
    }
  }

  // ---------------------------------------------------------------------------------------------
  // The passes

  /** The grouping object after one more entry: appended to its name's group, or a new group. */
  function NextGroups(groups: map<string, seq<Branch>>, b: Branch): map<string, seq<Branch>>
  {
    if b.name in groups then groups[b.name := groups[b.name] + [b]] else groups[b.name := [b]]
  }

  /** The grouping object describes `seen`: a group per name, keyed in order of first appearance. */
  ghost predicate Grouped(seen: seq<Branch>, order: seq<string>, groups: map<string, seq<Branch>>)
  {
    && order == Distinct(Names(seen))
    && (forall n :: n in groups <==> n in order)
    && (forall n | n in groups :: groups[n] == Group(seen, n))
  }

  lemma GroupingStep(seen: seq<Branch>, b: Branch, order: seq<string>, groups: map<string, seq<Branch>>)
    requires Grouped(seen, order, groups)
    ensures Grouped(seen + [b], if b.name in groups then order else order + [b.name], NextGroups(groups, b))
  {
    StepOrder(seen, b, order, b.name in groups);
    StepKeys(b, order, groups);
    StepGroups(seen, b, order, groups);
  }

  lemma StepOrder(seen: seq<Branch>, b: Branch, order: seq<string>, known: bool)
    requires order == Distinct(Names(seen)) && (known <==> b.name in order)
    ensures (if known then order else order + [b.name]) == Distinct(Names(seen + [b]))
  {
    NamesSnoc(seen, b);
    DistinctSnoc(Names(seen), b.name);
  }

  lemma StepKeys(b: Branch, order: seq<string>, groups: map<string, seq<Branch>>)
    requires forall n :: n in groups <==> n in order
    ensures forall n :: n in NextGroups(groups, b) <==> n in (if b.name in groups then order else order + [b.name])
  {
  }

  lemma StepGroups(seen: seq<Branch>, b: Branch, order: seq<string>, groups: map<string, seq<Branch>>)
    requires Grouped(seen, order, groups)
    ensures forall n | n in NextGroups(groups, b) :: NextGroups(groups, b)[n] == Group(seen + [b], n)
  {
    var next := NextGroups(groups, b);
    forall n | n in next ensures next[n] == Group(seen + [b], n) {
      GroupSnoc(seen, b, n);
      if n == b.name && b.name !in groups {
        GroupNonEmpty(seen, b.name);
        NamesSnoc(seen, b);
      }
    }
  }

  /** The `forEach` that groups the entries by name; the names are listed as they first appear. */
  method GroupByName(bs: seq<Branch>) returns (order: seq<string>, groups: map<string, seq<Branch>>)
    ensures Grouped(bs, order, groups)
  {
    order, groups := [], map[];
    var i := 0;
    while i < |bs|
      invariant 0 <= i <= |bs|
      invariant Grouped(bs[..i], order, groups)
    {
      var b := bs[i];
      GroupingStep(bs[..i], b, order, groups);
      TakeSnoc(bs, i);
      if b.name in groups {
        groups := groups[b.name := groups[b.name] + [b]];
      } else {
        groups := groups[b.name := [b]];
        order := order + [b.name];
      }
      i := i + 1;
    }
    assert bs[..i] == bs;
  }

  /** Taking one more name of `order` adds its kept entry, its excess and its fixed path. */
  lemma {:induction false} OverStep(bs: seq<Branch>, order: seq<string>, j: nat, home: string)
    requires AllGrouped(bs, order) && j < |order|
    ensures AllGrouped(bs, order[..j]) && AllGrouped(bs, order[..j + 1])
    ensures var g := Group(bs, order[j]);
      && DedupedOver(bs, order[..j + 1], home) == DedupedOver(bs, order[..j], home) + [Kept(bs, order[j], home)]
      && RemovedOver(bs, order[..j + 1]) == RemovedOver(bs, order[..j]) + (if |g| > 1 then |g| - 1 else 0)
      && FixedOver(bs, order[..j + 1], home) == FixedOver(bs, order[..j], home) + (if PathFixed(g[LatestIndex(g)], home) then 1 else 0)
  {
    var pre := order[..j + 1];
    assert pre[..j] == order[..j] && pre[j] == order[j];
    assert forall k | 0 <= k < j + 1 :: pre[k] == order[k];
  }

  /**
   * One repository's pass: the entries grouped by name, each group's most
   * recent entry kept with its path made portable, the dropped entries and
   * the fixed paths counted.
   */
  method DeduplicateRepo(bs: seq<Branch>, home: string) returns (deduped: seq<Branch>, removed: nat, fixed: nat)
    ensures deduped == Deduplicated(bs, home)
    ensures removed == RemovedOver(bs, NameOrder(bs)) && fixed == FixedOver(bs, NameOrder(bs), home)
  {
    var order, groups := GroupByName(bs);
    assert order == NameOrder(bs);
    deduped, removed, fixed := KeepLatest(bs, order, groups, home);
  }

  /** The second `forEach`: for every name, in key order, the group's first entry after the sort is kept. */
  method KeepLatest(bs: seq<Branch>, order: seq<string>, groups: map<string, seq<Branch>>, home: string)
    returns (deduped: seq<Branch>, removed: nat, fixed: nat)
    requires AllGrouped(bs, order)
    requires forall k | 0 <= k < |order| :: order[k] in groups && groups[order[k]] == Group(bs, order[k])
    ensures deduped == DedupedOver(bs, order, home)
    ensures removed == RemovedOver(bs, order) && fixed == FixedOver(bs, order, home)
  {
    deduped, removed, fixed := [], 0, 0;
    var j := 0;
    while j < |order|
      invariant 0 <= j <= |order| && AllGrouped(bs, order[..j])
      invariant deduped == DedupedOver(bs, order[..j], home)
      invariant removed == RemovedOver(bs, order[..j]) && fixed == FixedOver(bs, order[..j], home)
    {
      var name := order[j];
      var group := groups[name];
      OverStep(bs, order, j, home);
      if |group| > 1 {
        removed := removed + (|group| - 1);
      }
      var b := if |group| > 1 then group[LatestIndex(group)] else group[0];
      ghost var latest := group[LatestIndex(group)];
      assert b == latest;
      if Truthy(b.worktree) && StartsWith(b.worktree.value, "/") {
        var original := b.worktree;
        b := b.(worktree := MakePathPortable(b.worktree, home));
        if b.worktree != original {
          fixed := fixed + 1;
        }
      }
      assert b == Portable(latest, home) == Kept(bs, name, home);
      deduped := deduped + [b];
      j := j + 1;
    }
    assert order[..j] == order;
  }

  /** What the script reports: the duplicates removed and the paths fixed over all repositories. */
  datatype Report = Report(duplicatesRemoved: nat, pathsFixed: nat)

  /** The lists of `repos` after deduplication; values that are not lists stay as they are. */
  function DeduplicatedRepos(m: map<string, RepoValue>, repos: seq<string>, home: string): (r: map<string, RepoValue>)
    ensures r.Keys == m.Keys
  {
    if repos == [] then m
    else
      var rest := DeduplicatedRepos(m, repos[..|repos| - 1], home);
      var repo := repos[|repos| - 1];
      if repo in m && m[repo].Listed? then rest[repo := Listed(Deduplicated(m[repo].entries, home))] else rest
  }

  /** The duplicates removed over the listed repositories of `repos`. */
  function TotalRemoved(m: map<string, RepoValue>, repos: seq<string>): nat
  {
    if repos == [] then 0
    else
      var repo := repos[|repos| - 1];
      TotalRemoved(m, repos[..|repos| - 1])
      + (if repo in m && m[repo].Listed? then RemovedOver(m[repo].entries, NameOrder(m[repo].entries)) else 0)
  }

  /** The paths fixed over the listed repositories of `repos`. */
  function TotalFixed(m: map<string, RepoValue>, repos: seq<string>, home: string): nat
  {
    if repos == [] then 0
    else
      var repo := repos[|repos| - 1];
      TotalFixed(m, repos[..|repos| - 1], home)
      + (if repo in m && m[repo].Listed? then FixedOver(m[repo].entries, NameOrder(m[repo].entries), home) else 0)
  }

  /** Every repository is handled once: its list is deduplicated, any other value kept. */
  lemma {:induction false} DeduplicatedReposEach(m: map<string, RepoValue>, repos: seq<string>, home: string, repo: string)
    requires repo in m
    ensures DeduplicatedRepos(m, repos, home)[repo] ==
      if repo in repos && m[repo].Listed? then Listed(Deduplicated(m[repo].entries, home)) else m[repo]
    decreases |repos|
  {
    if repos != [] {
      var init := repos[..|repos| - 1];
      assert repo in repos <==> repo in init || repo == repos[|repos| - 1];
      DeduplicatedReposEach(m, init, home, repo);
    }
  }

  /** Handling one more repository of `repos`, whose list has not been touched yet. */
  lemma {:induction false} ReposStep(m: map<string, RepoValue>, repos: seq<string>, i: nat, home: string)
    requires NoDuplicates(repos) && i < |repos|
    ensures var repo := repos[i]; var before := DeduplicatedRepos(m, repos[..i], home);
      && (repo in before <==> repo in m)
      && (repo in m ==> before[repo] == m[repo])
      && DeduplicatedRepos(m, repos[..i + 1], home) ==
           (if repo in m && m[repo].Listed? then before[repo := Listed(Deduplicated(m[repo].entries, home))] else before)
      && TotalRemoved(m, repos[..i + 1]) == TotalRemoved(m, repos[..i])
           + (if repo in m && m[repo].Listed? then RemovedOver(m[repo].entries, NameOrder(m[repo].entries)) else 0)
      && TotalFixed(m, repos[..i + 1], home) == TotalFixed(m, repos[..i], home)
           + (if repo in m && m[repo].Listed? then FixedOver(m[repo].entries, NameOrder(m[repo].entries), home) else 0)
  {
    var pre := repos[..i + 1];
    assert pre[..i] == repos[..i] && pre[i] == repos[i];
    if repos[i] in m {
      DeduplicatedReposEach(m, repos[..i], home, repos[i]);
      assert repos[i] !in repos[..i] by {
        assert forall k | 0 <= k < i :: repos[..i][k] == repos[k] != repos[i];
      }
    }
  }

  /** The loop over the repositories of the document, in the order `repos` enumerates them. */
  method DeduplicateAll(m: map<string, RepoValue>, repos: seq<string>, home: string)
    returns (result: map<string, RepoValue>, removed: nat, fixed: nat)
    requires NoDuplicates(repos)
    ensures result == DeduplicatedRepos(m, repos, home)
    ensures removed == TotalRemoved(m, repos) && fixed == TotalFixed(m, repos, home)
  {
    result, removed, fixed := m, 0, 0;
    var i := 0;
    while i < |repos|
      invariant 0 <= i <= |repos|
      invariant result == DeduplicatedRepos(m, repos[..i], home)
      invariant removed == TotalRemoved(m, repos[..i]) && fixed == TotalFixed(m, repos[..i], home)
    {
      var repo := repos[i];
      ReposStep(m, repos, i, home);
      if repo in result && result[repo].Listed? {
        assert result[repo] == m[repo];
        var deduped, r, f := DeduplicateRepo(result[repo].entries, home);
        assert Listed(deduped) == Listed(Deduplicated(m[repo].entries, home));
        result := result[repo := Listed(deduped)];
        removed, fixed := removed + r, fixed + f;
      }
      i := i + 1;
    }
    assert repos[..i] == repos;
  }

  /**
   * `deduplicateBranches`: a document without `branches` is left alone and
   * not saved; otherwise every repository's list is deduplicated in the
   * order `repos` enumerates them, and the document is saved.  A failed
   * write is only logged: with `saveOk` false the file keeps its contents,
   * and the counts are reported all the same.
   */
  method DeduplicateBranches(files: TrackingFiles, repos: seq<string>, home: string, now: int, saveOk: bool)
    returns (report: Option<Report>)
    requires files.branches.Some? ==> Enumerates(repos, files.branches.value.Keys)
    modifies files
    ensures old(files.branches).None? ==> report.None? && unchanged(files)
    ensures old(files.branches).Some? && !saveOk ==> unchanged(files)
    ensures old(files.branches).Some? ==>
      report == Some(Report(TotalRemoved(old(files.branches).value, repos),
                            TotalFixed(old(files.branches).value, repos, home)))
    ensures old(files.branches).Some? && saveOk ==>
      && files.branches == Some(DeduplicatedRepos(old(files.branches).value, repos, home))
      && files.lastUpdated == Some(now) && files.generatedBy == Some("Deduplication Script")
    ensures files.taskGroups == old(files.taskGroups) && files.recentMerges == old(files.recentMerges)
    ensures files.eligibleForCleanup == old(files.eligibleForCleanup)
  {
    if files.branches.None? {
      return None;
    }
    var result, removed, fixed := DeduplicateAll(files.branches.value, repos, home);
    if saveOk {
      files.branches := Some(result);
      files.lastUpdated := Some(now);
      files.generatedBy := Some("Deduplication Script");
    }
    report := Some(Report(removed, fixed));
  }
}
