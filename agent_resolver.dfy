/**
 * pattern-recognition/agent-resolver.js: resolves a free-form agent name to
 * one of the six agents by a ladder of strategies (alias, shortcut, role,
 * technology, fuzzy), the fuzzy one scored by Levenshtein similarity.
 */
module AgentResolution {
  import opened Wrappers
  import opened Seqs
  import opened JsString

  // ------------------------------------------------------------ similarity

  function Min3(a: nat, b: nat, c: nat): (r: nat)
    ensures r <= a && r <= b && r <= c && (r == a || r == b || r == c)
  {
    if a <= b && a <= c then a else if b <= c then b else c
  }

  /** The Levenshtein distance: the fewest single-character insertions, deletions and substitutions. */
  function Dist(a: string, b: string): nat
    decreases |a| + |b|
  {
    if |a| == 0 then |b|
    else if |b| == 0 then |a|
    else
      Min3(Dist(a[..|a| - 1], b) + 1,
           Dist(a, b[..|b| - 1]) + 1,
           Dist(a[..|a| - 1], b[..|b| - 1]) + (if a[|a| - 1] == b[|b| - 1] then 0 else 1))
  }

  /** The distance never exceeds the longer length: substitute the common part, insert or delete the rest. */
  lemma {:induction false} DistAtMostLonger(a: string, b: string)
    ensures Dist(a, b) <= if |a| >= |b| then |a| else |b|
    decreases |a| + |b|
  {
    if |a| > 0 && |b| > 0 {
      DistAtMostLonger(a[..|a| - 1], b[..|b| - 1]);
    }
  }

  /** The distance is zero exactly between equal strings. */
  lemma {:induction false} DistZeroIffEqual(a: string, b: string)
    ensures Dist(a, b) == 0 <==> a == b
    decreases |a| + |b|
  {
    if |a| > 0 && |b| > 0 {
      DistZeroIffEqual(a[..|a| - 1], b[..|b| - 1]);
      if a == b {
        assert a[..|a| - 1] == b[..|b| - 1];
      }
      if Dist(a, b) == 0 {
        assert a == a[..|a| - 1] + [a[|a| - 1]] && b == b[..|b| - 1] + [b[|b| - 1]];
      }
    }
  }

  /** `calculateSimilarity`: 1 minus the distance over the longer length, 1 for two empty strings. */
  function Similarity(a: string, b: string): (r: real)
  {
    if |a| == 0 then (if |b| == 0 then 1.0 else 0.0)
    else if |b| == 0 then 0.0
    else 1.0 - (Dist(a, b) as real) / ((if |a| >= |b| then |a| else |b|) as real)
  }

  /** A ratio of a count to a positive bound it does not exceed. */
  lemma RatioBounds(d: nat, m: nat)
    requires 0 < m && d <= m
    ensures 0.0 <= (d as real) / (m as real) <= 1.0
    ensures (d as real) / (m as real) == 0.0 <==> d == 0
  {
    var q := (d as real) / (m as real);
    assert q * (m as real) == d as real;
  }

  /** Similarity lies in [0, 1] and is 1 exactly for equal strings. */
  lemma SimilarityBounds(a: string, b: string)
    ensures 0.0 <= Similarity(a, b) <= 1.0
    ensures Similarity(a, b) == 1.0 <==> a == b
  {
    if |a| > 0 && |b| > 0 {
      DistAtMostLonger(a, b);
      DistZeroIffEqual(a, b);
      RatioBounds(Dist(a, b), if |a| >= |b| then |a| else |b|);
    }
  }

  /** One cell of the distance matrix from its three neighbours. */
  lemma FillStep(s: string, t: string, i: nat, j: nat)
    requires 1 <= i <= |s| && 1 <= j <= |t|
    ensures Dist(s[..i], t[..j]) == Min3(Dist(s[..i - 1], t[..j]) + 1, Dist(s[..i], t[..j - 1]) + 1,
                                          Dist(s[..i - 1], t[..j - 1]) + (if s[i - 1] == t[j - 1] then 0 else 1))
  {
    assert s[..i][..i - 1] == s[..i - 1] && t[..j][..j - 1] == t[..j - 1];
  }

  /** `calculateSimilarity` as written: the distance matrix filled row by row. */
  method CalculateSimilarity(str1: string, str2: string) returns (r: real)
    ensures r == Similarity(str1, str2)
  {
    var len1 := |str1|;
    var len2 := |str2|;
    if len1 == 0 {
      return if len2 == 0 then 1.0 else 0.0;
    }
    if len2 == 0 {
      return 0.0;
    }
    var matrix := new nat[len1 + 1, len2 + 1];
    for i := 0 to len1 + 1
      invariant forall i' | 0 <= i' < i :: matrix[i', 0] == i'
    {
      matrix[i, 0] := i;
    }
    for j := 1 to len2 + 1
      invariant forall i' | 0 <= i' <= len1 :: matrix[i', 0] == i'
      invariant forall j' | 0 <= j' < j :: matrix[0, j'] == j'
    {
      matrix[0, j] := j;
    }
    for i := 1 to len1 + 1
      invariant forall i', j' | 0 <= i' < i && 0 <= j' <= len2 :: matrix[i', j'] == Dist(str1[..i'], str2[..j'])
      invariant forall i' | i <= i' <= len1 :: matrix[i', 0] == i'
    {
      FillRow(matrix, str1, str2, i);
    }
    assert str1[..len1] == str1 && str2[..len2] == str2;
    var distance := matrix[len1, len2];
    var maxLen := if len1 >= len2 then len1 else len2;
    return 1.0 - (distance as real) / (maxLen as real);
  }

  /** One pass of the outer loop of `calculateSimilarity`: row `i` of the matrix from row `i - 1`. */
  method FillRow(matrix: array2<nat>, s: string, t: string, i: nat)
    requires matrix.Length0 == |s| + 1 && matrix.Length1 == |t| + 1 && 1 <= i <= |s|
    requires forall j' | 0 <= j' <= |t| :: matrix[i - 1, j'] == Dist(s[..i - 1], t[..j'])
    requires matrix[i, 0] == i
    modifies matrix
    ensures forall j' | 0 <= j' <= |t| :: matrix[i, j'] == Dist(s[..i], t[..j'])
    ensures forall i', j' | 0 <= i' <= |s| && i' != i && 0 <= j' <= |t| :: matrix[i', j'] == old(matrix[i', j'])
  {
    assert matrix[i, 0] == Dist(s[..i], t[..0]);
    for j := 1 to |t| + 1
      invariant forall j' | 0 <= j' < j :: matrix[i, j'] == Dist(s[..i], t[..j'])
      invariant forall i', j' | 0 <= i' <= |s| && i' != i && 0 <= j' <= |t| :: matrix[i', j'] == old(matrix[i', j'])
    {
      FillStep(s, t, i, j);
      var cost := if s[i - 1] == t[j - 1] then 0 else 1;
      matrix[i, j] := Min3(matrix[i - 1, j] + 1, matrix[i, j - 1] + 1, matrix[i - 1, j - 1] + cost);
    }
  }

  // -------------------------------------------------------------- database

  /** One entry of the agent database; the responsibilities, shown only by the command line, are not kept. */
  datatype AgentConfig = AgentConfig(id: string, canonical: string, aliases: seq<string>, shortcuts: seq<string>,
                                     roles: seq<string>, technologies: seq<string>)

  /** `agentDatabase`, in the order of its keys. */
  const Database: seq<AgentConfig> := [VibeCoder, ReactDev, LaravelDev, SvelteDev, NodeDev, DevOps]

  const VibeCoder := AgentConfig("vibe-coder", "vibe-coder", ["vibe-coder", "vibe coder", "vibecoder"], ["vibe"],
    ["system architect", "documentation expert", "docs expert", "architect"],
    ["documentation", "system design", "architecture"])

  const ReactDev := AgentConfig("react-dev", "react-dev", ["react-dev", "react dev", "react developer"], ["react"],
    ["frontend developer", "ui developer", "frontend dev", "ui dev"],
    ["react", "jsx", "frontend", "ui", "component"])

  const LaravelDev := AgentConfig("laravel-dev", "laravel-dev", ["laravel-dev", "laravel dev", "laravel developer"],
    ["laravel"],
    ["backend developer", "api developer", "backend dev", "api dev"],
    ["laravel", "php", "backend", "api", "database"])

  const SvelteDev := AgentConfig("svelte-dev", "svelte-dev", ["svelte-dev", "svelte dev", "svelte developer"], ["svelte"],
    ["frontend developer", "ui developer", "frontend dev"],
    ["svelte", "sveltekit", "frontend", "ui"])

  const NodeDev := AgentConfig("node-dev", "node-dev", ["node-dev", "node dev", "node developer"], ["node", "nodejs"],
    ["backend developer", "api developer", "nodejs developer"],
    ["node", "nodejs", "javascript", "backend", "api"])

  const DevOps := AgentConfig("devops", "devops", ["devops", "dev ops"], ["ops"],
    ["infrastructure engineer", "deployment engineer", "ops engineer"],
    ["docker", "ci/cd", "infrastructure", "deployment", "github actions"])

  /** `isValidAgent`: the agent is a key of the database. */
  predicate IsValidAgent(agentId: string)
  {
    exists i | 0 <= i < |Database| :: Database[i].id == agentId
  }

  lemma ValidAgentsAreTheSix(agentId: string)
    ensures IsValidAgent(agentId) <==>
      agentId in {"vibe-coder", "react-dev", "laravel-dev", "svelte-dev", "node-dev", "devops"}
  {
    if agentId in {"vibe-coder", "react-dev", "laravel-dev", "svelte-dev", "node-dev", "devops"} {
      var i := if agentId == "vibe-coder" then 0 else if agentId == "react-dev" then 1
               else if agentId == "laravel-dev" then 2 else if agentId == "svelte-dev" then 3
               else if agentId == "node-dev" then 4 else 5;
      assert Database[i].id == agentId;
    }
  }

  /** The four lookup tables built from the database. */
  datatype Kind = Aliases | Shortcuts | Roles | Technologies

  function Items(c: AgentConfig, kind: Kind): seq<string>
  {
    match kind
    case Aliases => c.aliases
    case Shortcuts => c.shortcuts
    case Roles => c.roles
    case Technologies => c.technologies
  }

  function LowerAll(xs: seq<string>): (r: seq<string>)
    ensures |r| == |xs| && forall i | 0 <= i < |xs| :: r[i] == ToLower(xs[i])
  {
    seq(|xs|, i requires 0 <= i < |xs| => ToLower(xs[i]))
  }

  lemma CopiesSnoc<T>(x: T, n: nat)
    ensures Copies(x, n) + [x] == Copies(x, n + 1)
  {
  }

  lemma LowerAllSnoc(xs: seq<string>, x: string)
    ensures LowerAll(xs + [x]) == LowerAll(xs) + [ToLower(x)]
  {
  }

  /** Every lower-cased key of one table, in the order the initialising loops visit them. */
  function KeysOf(db: seq<AgentConfig>, kind: Kind): seq<string>
  {
    if db == [] then [] else KeysOf(db[..|db| - 1], kind) + LowerAll(Items(db[|db| - 1], kind))
  }

  /** The value `Map.set` leaves for `k` in an alias or shortcut table: the last agent listing it. */
  function LastOwner(db: seq<AgentConfig>, kind: Kind, k: string): (r: Option<string>)
    ensures r.Some? <==> k in KeysOf(db, kind)
  {
    if db == [] then None
    else if k in LowerAll(Items(db[|db| - 1], kind)) then Some(db[|db| - 1].id)
    else LastOwner(db[..|db| - 1], kind, k)
  }

  /** The agent list of a role or technology table: every agent listing `k`, once per listing, in database order. */
  function Owners(db: seq<AgentConfig>, kind: Kind, k: string): (r: seq<string>)
    ensures |r| == Count(KeysOf(db, kind), k)
  {
    if db == [] then []
    else
      CountConcat(KeysOf(db[..|db| - 1], kind), LowerAll(Items(db[|db| - 1], kind)), k);
      Owners(db[..|db| - 1], kind, k) + Copies(db[|db| - 1].id, Count(LowerAll(Items(db[|db| - 1], kind)), k))
  }

  function Get<V>(m: map<string, V>, k: string): Option<V>
  {
    if k in m then Some(m[k]) else None
  }

  /** An alias or shortcut table as the loops leave it. */
  ghost predicate Keyed(m: map<string, string>, db: seq<AgentConfig>, kind: Kind)
  {
    forall k :: Get(m, k) == LastOwner(db, kind, k)
  }

  /** A role or technology table, with its keys in insertion order, as the loops leave it. */
  ghost predicate Grouped(keys: seq<string>, m: map<string, seq<string>>, db: seq<AgentConfig>, kind: Kind)
  {
    keys == Distinct(KeysOf(db, kind))
    && (forall k :: k in m <==> k in keys)
    && forall k | k in m :: m[k] == Owners(db, kind, k)
  }

  /** `items.forEach(x => map.set(x.toLowerCase(), id))` */
  method SetEach(m: map<string, string>, items: seq<string>, id: string) returns (r: map<string, string>)
    ensures forall k :: Get(r, k) == if k in LowerAll(items) then Some(id) else Get(m, k)
  {
    r := m;
    for j := 0 to |items|
      invariant forall k :: Get(r, k) == if k in LowerAll(items[..j]) then Some(id) else Get(m, k)
    {
      assert items[..j + 1] == items[..j] + [items[j]];
      LowerAllSnoc(items[..j], items[j]);
      r := r[ToLower(items[j]) := id];
    }
    assert items[..|items|] == items;
  }

  /** The role or technology table holds, for the keys seen so far, the agents pushed for them. */
  ghost predicate PushedSoFar(keys: seq<string>, m': map<string, seq<string>>, m: map<string, seq<string>>,
                              id: string, prev: seq<string>, seen: seq<string>)
  {
    keys == Distinct(prev + seen) && (forall k :: k in m' <==> k in keys)
    && forall k | k in m' :: m'[k] == Get(m, k).GetOr([]) + Copies(id, Count(seen, k))
  }

  /** The agent lists after pushing `id` under `key` once more. */
  lemma {:induction false} PushedListsStep(m': map<string, seq<string>>, m: map<string, seq<string>>, id: string,
                        seen: seq<string>, key: string)
    requires forall k | k in m' :: m'[k] == Get(m, k).GetOr([]) + Copies(id, Count(seen, k))
    requires key in m' || (key !in m && key !in seen)
    ensures var m'' := m'[key := Get(m', key).GetOr([]) + [id]];
      forall k | k in m'' :: m''[k] == Get(m, k).GetOr([]) + Copies(id, Count(seen + [key], k))
  {
    var m'' := m'[key := Get(m', key).GetOr([]) + [id]];
    forall k | k in m'' ensures m''[k] == Get(m, k).GetOr([]) + Copies(id, Count(seen + [key], k)) {
      CountSnoc(seen, key, k);
      var n := Count(seen, k);
      var base := Get(m, k).GetOr([]);
      if k == key {
        CopiesSnoc(id, n);
        if key in m' {
          calc {
            m''[k];
            m'[k] + [id];
            (base + Copies(id, n)) + [id];
            base + (Copies(id, n) + [id]);
            base + Copies(id, n + 1);
          }
        } else {
          assert n == 0 && base == [];
          assert m''[k] == [id] == Copies(id, 1);
        }
      } else {
        assert m''[k] == m'[k];
      }
    }
  }

  /** The table after one more push, keys and lists together. */
  lemma {:induction false} PushedStep(keys: seq<string>, m': map<string, seq<string>>, m: map<string, seq<string>>,
                                      id: string, prev: seq<string>, seen: seq<string>, key: string)
    requires forall k | k in m :: k in m'
    requires PushedSoFar(keys, m', m, id, prev, seen)
    ensures PushedSoFar(if key in m' then keys else keys + [key], m'[key := Get(m', key).GetOr([]) + [id]],
                        m, id, prev, seen + [key])
  {
    assert prev + (seen + [key]) == (prev + seen) + [key];
    DistinctSnoc(prev + seen, key);
    PushedListsStep(m', m, id, seen, key);
  }

  /**
   * `items.forEach(x => { if (!map.has(key)) map.set(key, []); map.get(key).push(id) })`
   * on a table whose keys, in insertion order, are the distinct ones of `prev`.
   */
  method PushEach(keys: seq<string>, m: map<string, seq<string>>, items: seq<string>, id: string, ghost prev: seq<string>)
    returns (keys': seq<string>, m': map<string, seq<string>>)
    requires keys == Distinct(prev) && forall k :: k in m <==> k in keys
    ensures keys' == Distinct(prev + LowerAll(items)) && forall k :: k in m' <==> k in keys'
    ensures forall k | k in m' :: m'[k] == Get(m, k).GetOr([]) + Copies(id, Count(LowerAll(items), k))
  {
    keys', m' := keys, m;
    ghost var lowered := LowerAll(items);
    ghost var seen: seq<string> := [];
    assert prev + seen == prev;
    for j := 0 to |items|
      invariant seen == lowered[..j]
      invariant PushedSoFar(keys', m', m, id, prev, seen)
      invariant forall k | k in m :: k in m'
    {
      var key := ToLower(items[j]);
      PushedStep(keys', m', m, id, prev, seen, key);
      if key !in m' {
        keys' := keys' + [key];
      }
      m' := m'[key := Get(m', key).GetOr([]) + [id]];
      TakeSnoc(lowered, j);
      seen := seen + [key];
    }
    assert lowered[..|items|] == lowered;
  }

  /** The keys of a longer database prefix: those of the shorter one, then the next entry's. */
  lemma KeysStep(db: seq<AgentConfig>, i: nat, kind: Kind)
    requires i < |db|
    ensures KeysOf(db[..i + 1], kind) == KeysOf(db[..i], kind) + LowerAll(Items(db[i], kind))
  {
    assert db[..i + 1][..i] == db[..i];
  }

  /** The last owner of `k` in a longer database prefix. */
  lemma LastOwnerStep(db: seq<AgentConfig>, i: nat, kind: Kind, k: string)
    requires i < |db|
    ensures LastOwner(db[..i + 1], kind, k)
      == if k in LowerAll(Items(db[i], kind)) then Some(db[i].id) else LastOwner(db[..i], kind, k)
  {
    assert db[..i + 1][..i] == db[..i];
  }

  /** The owners of `k` in a longer database prefix. */
  lemma OwnersStep(db: seq<AgentConfig>, i: nat, kind: Kind, k: string)
    requires i < |db|
    ensures Owners(db[..i + 1], kind, k) == Owners(db[..i], kind, k) + Copies(db[i].id, Count(LowerAll(Items(db[i], kind)), k))
  {
    assert db[..i + 1][..i] == db[..i];
  }

  /** An alias or shortcut table after the sets of the next entry is the table of the longer prefix. */
  lemma {:induction false} KeyedStep(db: seq<AgentConfig>, m: map<string, string>, r: map<string, string>, i: nat, kind: Kind)
    requires i < |db| && Keyed(m, db[..i], kind)
    requires forall k :: Get(r, k) == if k in LowerAll(Items(db[i], kind)) then Some(db[i].id) else Get(m, k)
    ensures Keyed(r, db[..i + 1], kind)
  {
    forall k ensures Get(r, k) == LastOwner(db[..i + 1], kind, k) {
      LastOwnerStep(db, i, kind, k);
    }
  }

  /** The agent lists after the pushes of the next entry are the owner lists of the longer prefix. */
  lemma {:induction false} OwnerListsStep(db: seq<AgentConfig>, m: map<string, seq<string>>,
                                          m': map<string, seq<string>>, i: nat, kind: Kind)
    requires i < |db|
    requires forall k | k in m :: m[k] == Owners(db[..i], kind, k)
    requires forall k | k !in m :: k !in KeysOf(db[..i], kind)
    requires forall k | k in m' ::
      m'[k] == Get(m, k).GetOr([]) + Copies(db[i].id, Count(LowerAll(Items(db[i], kind)), k))
    ensures forall k | k in m' :: m'[k] == Owners(db[..i + 1], kind, k)
  {
    forall k | k in m' ensures m'[k] == Owners(db[..i + 1], kind, k) {
      OwnersStep(db, i, kind, k);
      if k !in m {
        assert |Owners(db[..i], kind, k)| == 0;
      }
    }
  }

  /** A grouped table extended by the pushes of the next entry is the grouped table of the longer prefix. */
  lemma {:induction false} GroupedStep(db: seq<AgentConfig>, keys: seq<string>, m: map<string, seq<string>>,
                                       keys': seq<string>, m': map<string, seq<string>>, i: nat, kind: Kind)
    requires i < |db| && Grouped(keys, m, db[..i], kind)
    requires keys' == Distinct(KeysOf(db[..i], kind) + LowerAll(Items(db[i], kind)))
    requires forall k :: k in m' <==> k in keys'
    requires forall k | k in m' ::
      m'[k] == Get(m, k).GetOr([]) + Copies(db[i].id, Count(LowerAll(Items(db[i], kind)), k))
    ensures Grouped(keys', m', db[..i + 1], kind)
  {
    KeysStep(db, i, kind);
    assert keys' == Distinct(KeysOf(db[..i + 1], kind));
    assert forall k | k !in m :: k !in KeysOf(db[..i], kind) by {
      forall k | k !in m ensures k !in KeysOf(db[..i], kind) {
        assert k !in Distinct(KeysOf(db[..i], kind));
      }
    }
    OwnerListsStep(db, m, m', i, kind);
    GroupedIntro(keys', m', db[..i + 1], kind);
  }

  /** The three parts of `Grouped`. */
  lemma GroupedIntro(keys: seq<string>, m: map<string, seq<string>>, db: seq<AgentConfig>, kind: Kind)
    requires keys == Distinct(KeysOf(db, kind))
    requires forall k :: k in m <==> k in keys
    requires forall k | k in m :: m[k] == Owners(db, kind, k)
    ensures Grouped(keys, m, db, kind)
  {
  }

  /** The alias or shortcut sets of the database entry `i`. */
  method SetEntry(m: map<string, string>, db: seq<AgentConfig>, i: nat, kind: Kind) returns (r: map<string, string>)
    requires i < |db| && Keyed(m, db[..i], kind)
    ensures Keyed(r, db[..i + 1], kind)
  {
    r := SetEach(m, Items(db[i], kind), db[i].id);
    KeyedStep(db, m, r, i, kind);
  }

  /** The role or technology pushes of the database entry `i`. */
  method PushEntry(keys: seq<string>, m: map<string, seq<string>>, db: seq<AgentConfig>, i: nat, kind: Kind)
    returns (keys': seq<string>, m': map<string, seq<string>>)
    requires i < |db| && Grouped(keys, m, db[..i], kind)
    ensures Grouped(keys', m', db[..i + 1], kind)
  {
    keys', m' := PushEach(keys, m, Items(db[i], kind), db[i].id, KeysOf(db[..i], kind));
    GroupedStep(db, keys, m, keys', m', i, kind);
  }

  /**
   * `AgentResolver`: the lookup tables the constructor builds from the
   * database, each role and technology table with its keys in insertion
   * order, which is the order `Map.entries` visits them.
   */
  class AgentResolver {
    const agentDatabase: seq<AgentConfig>
    var aliasMap: map<string, string>
    var shortcutMap: map<string, string>
    var roleKeys: seq<string>
    var roleMap: map<string, seq<string>>
    var technologyKeys: seq<string>
    var technologyMap: map<string, seq<string>>

    /** The four tables are those of the database. */
    ghost predicate Indexed()
      reads this
    {
      Keyed(aliasMap, agentDatabase, Aliases) && Keyed(shortcutMap, agentDatabase, Shortcuts)
      && Grouped(roleKeys, roleMap, agentDatabase, Roles)
      && Grouped(technologyKeys, technologyMap, agentDatabase, Technologies)
    }

    /** The tables are built; which database they index is fixed by the constructor. */
    ghost predicate Valid()
      reads this
    {
      Indexed()
    }

    constructor()
      ensures Valid() && agentDatabase == Database
    {
      agentDatabase := Database;
      new;
      InitializeLookupMaps();
    }

    /** `initializeLookupMaps`: every alias, shortcut, role and technology of every agent, lower-cased. */
    method InitializeLookupMaps()
      modifies this
      ensures Indexed()
    {
      var db := agentDatabase;
      aliasMap, shortcutMap := map[], map[];
      roleKeys, roleMap := [], map[];
      technologyKeys, technologyMap := [], map[];
      assert db[..0] == [];
      for i := 0 to |db|
        invariant Keyed(aliasMap, db[..i], Aliases) && Keyed(shortcutMap, db[..i], Shortcuts)
        invariant Grouped(roleKeys, roleMap, db[..i], Roles)
        invariant Grouped(technologyKeys, technologyMap, db[..i], Technologies)
      {
        aliasMap := SetEntry(aliasMap, db, i, Aliases);
        shortcutMap := SetEntry(shortcutMap, db, i, Shortcuts);
        roleKeys, roleMap := PushEntry(roleKeys, roleMap, db, i, Roles);
        technologyKeys, technologyMap := PushEntry(technologyKeys, technologyMap, db, i, Technologies);
      }
      assert db[..|db|] == db;
    }

    /** `resolveAgent` as written, on the tables the constructor built. */
    method ResolveAgent(input: string) returns (r: Resolution)
      requires Valid()
      ensures r == Resolve(agentDatabase, input)
    {
      var clean := Trim(ToLower(input));
      var exact := Get(aliasMap, clean);
      if exact.Some? {
        return Resolution(exact, 1.0, ExactAlias, input, [], "", []);
      }
      var shortcut := Get(shortcutMap, clean);
      if shortcut.Some? {
        return Resolution(shortcut, 0.95, ShortcutMatch, input, [], "", []);
      }
      var role := FindEntryMatch(roleKeys, roleMap, clean, 0.85, agentDatabase, Roles);
      if role.Some? {
        return Resolution(Some(role.value.agent), role.value.confidence, RoleBased, input, role.value.matches, "", []);
      }
      var technology := FindEntryMatch(technologyKeys, technologyMap, clean, 0.80, agentDatabase, Technologies);
      if technology.Some? {
        return Resolution(Some(technology.value.agent), technology.value.confidence, TechnologyBased, input,
                          technology.value.matches, "", []);
      }
      var fuzzy := FindFuzzyMatch(agentDatabase, clean);
      if fuzzy.Some? && fuzzy.value.confidence >= 0.6 {
        return Resolution(Some(fuzzy.value.agent), fuzzy.value.confidence, FuzzyMatch, input, [],
                          fuzzy.value.matchedString, []);
      }
      r := Resolution(None, 0.0, NoMatch, input, [], "", Suggestions(agentDatabase, clean));
    }
  }

  // ---------------------------------------------------------------- ranking

  /** A candidate together with its similarity to the input. */
  datatype Ranked<T> = Ranked(item: T, similarity: real)

  predicate Descending<T>(s: seq<Ranked<T>>)
  {
    forall i, j | 0 <= i < j < |s| :: s[i].similarity >= s[j].similarity
  }

  /** Places `x`, the latest element, after every element scoring at least as much. */
  function InsertDesc<T(==)>(ys: seq<Ranked<T>>, x: Ranked<T>): (r: seq<Ranked<T>>)
    requires Descending(ys)
    ensures Descending(r) && multiset(r) == multiset(ys) + multiset{x} && |r| == |ys| + 1
  {
    if ys == [] || ys[|ys| - 1].similarity >= x.similarity then ys + [x]
    else
      var init, last := ys[..|ys| - 1], ys[|ys| - 1];
      assert ys == init + [last];
      var r' := InsertDesc(init, x);
      forall i | 0 <= i < |r'| ensures r'[i].similarity >= last.similarity {
        assert r'[i] in multiset(r');
        if r'[i] != x {
          assert r'[i] in init;
        }
      }
      r' + [last]
  }

  /** `xs.sort((a, b) => b.similarity - a.similarity)`: a stable sort, best first. */
  function SortDesc<T(==)>(xs: seq<Ranked<T>>): (r: seq<Ranked<T>>)
    ensures Descending(r) && multiset(r) == multiset(xs) && |r| == |xs|
  {
    if xs == [] then []
    else
      assert xs == xs[..|xs| - 1] + [xs[|xs| - 1]];
      InsertDesc(SortDesc(xs[..|xs| - 1]), xs[|xs| - 1])
  }

  /** The position of the first best-scoring element. */
  function FirstMax<T>(xs: seq<Ranked<T>>): (k: nat)
    requires xs != []
    ensures k < |xs| && forall j | 0 <= j < |xs| :: xs[j].similarity <= xs[k].similarity
    ensures forall j | 0 <= j < k :: xs[j].similarity < xs[k].similarity
  {
    if |xs| == 1 then 0
    else
      var k := FirstMax(xs[..|xs| - 1]);
      if xs[|xs| - 1].similarity > xs[k].similarity then |xs| - 1 else k
  }

  lemma {:induction false} InsertHead<T>(ys: seq<Ranked<T>>, x: Ranked<T>)
    requires ys != [] && Descending(ys)
    ensures InsertDesc(ys, x)[0] == if x.similarity > ys[0].similarity then x else ys[0]
  {
    if ys[|ys| - 1].similarity < x.similarity && |ys| > 1 {
      InsertHead(ys[..|ys| - 1], x);
    }
  }

  /** The stable sort puts first the earliest of the best-scoring elements. */
  lemma {:induction false} SortHead<T>(xs: seq<Ranked<T>>)
    requires xs != []
    ensures SortDesc(xs)[0] == xs[FirstMax(xs)]
  {
    if |xs| > 1 {
      var init, x := xs[..|xs| - 1], xs[|xs| - 1];
      var k := FirstMax(init);
      SortHead(init);
      InsertHead(SortDesc(init), x);
      assert SortDesc(xs) == InsertDesc(SortDesc(init), x);
      assert xs[k] == init[k];
    }
  }

  // -------------------------------------------------- role and technology match

  /** One entry of the role or technology table. */
  datatype Entry = Entry(key: string, agents: seq<string>)

  /** The matches, in table order, before sorting. */
  function EntryCandidates(keys: seq<string>, db: seq<AgentConfig>, kind: Kind, input: string): (r: seq<Ranked<Entry>>)
    ensures |r| <= |keys|
    ensures forall i | 0 <= i < |r| :: (r[i].item.key in keys && Related(r[i].item.key, input)
      && r[i].item.agents == Owners(db, kind, r[i].item.key) && r[i].similarity == Similarity(input, r[i].item.key))
    ensures r == [] <==> forall k | k in keys :: !Related(k, input)
  {
    if keys == [] then []
    else
      var key := keys[|keys| - 1];
      assert forall k | k in keys :: k in keys[..|keys| - 1] || k == key;
      EntryCandidates(keys[..|keys| - 1], db, kind, input)
        + (if Related(key, input) then [Ranked(Entry(key, Owners(db, kind, key)), Similarity(input, key))] else [])
  }

  datatype EntryResult = EntryResult(agent: string, confidence: real, matches: seq<Ranked<Entry>>)

  function Min(a: real, b: real): real
  {
    if a <= b then a else b
  }

  /**
   * `findRoleMatch` / `findTechnologyMatch`: the first agent of the best
   * matching entry, its confidence the similarity capped at `cap`.
   */
  function EntryMatch(db: seq<AgentConfig>, kind: Kind, input: string, cap: real): (r: Option<EntryResult>)
  {
    var matches := EntryCandidates(Distinct(KeysOf(db, kind)), db, kind, input);
    if matches == [] then None
    else
      var sorted := SortDesc(matches);
      var best := sorted[0];
      assert best in multiset(matches);
      Some(EntryResult(best.item.agents[0], Min(cap, best.similarity), sorted))
  }

  /** The first agent, in database order, listing `k`. */
  function FirstLister(db: seq<AgentConfig>, kind: Kind, k: string): (i: nat)
    requires k in KeysOf(db, kind)
    ensures i < |db| && k in LowerAll(Items(db[i], kind))
    ensures forall j | 0 <= j < i :: k !in LowerAll(Items(db[j], kind))
  {
    var init := db[..|db| - 1];
    if k in KeysOf(init, kind) then
      var i := FirstLister(init, kind, k);
      assert forall j | 0 <= j <= i :: db[j] == init[j];
      i
    else
      NotInKeysOf(init, kind, k);
      assert forall j | 0 <= j < |init| :: db[j] == init[j];
      |db| - 1
  }

  /** A key missing from the keys of a database is listed by none of its entries. */
  lemma {:induction false} NotInKeysOf(db: seq<AgentConfig>, kind: Kind, k: string)
    requires k !in KeysOf(db, kind)
    ensures forall j | 0 <= j < |db| :: k !in LowerAll(Items(db[j], kind))
  {
    if db != [] {
      var init := db[..|db| - 1];
      NotInKeysOf(init, kind, k);
      assert forall j | 0 <= j < |init| :: db[j] == init[j];
    }
  }

  /** A role or technology table lists first the earliest agent of the database naming the key. */
  lemma {:induction false} OwnersHead(db: seq<AgentConfig>, kind: Kind, k: string)
    requires k in KeysOf(db, kind)
    ensures Owners(db, kind, k) != [] && Owners(db, kind, k)[0] == db[FirstLister(db, kind, k)].id
  {
    var init := db[..|db| - 1];
    if k in KeysOf(init, kind) {
      OwnersHead(init, kind, k);
    } else {
      assert |Owners(init, kind, k)| == 0;
    }
  }

  /**
   * A role or technology match exists exactly when some key is related to
   * the input; it names the first agent listing a best-scoring related key,
   * with that key's similarity capped at `cap`.
   */
  lemma {:induction false} EntryMatchBest(db: seq<AgentConfig>, kind: Kind, input: string, cap: real)
    ensures var r := EntryMatch(db, kind, input, cap);
      (r.Some? <==> exists k | k in KeysOf(db, kind) :: Related(k, input))
      && (r.Some? ==> r.value.confidence <= cap && exists key | key in KeysOf(db, kind) && Related(key, input) ::
            r.value.agent == db[FirstLister(db, kind, key)].id
            && r.value.confidence == Min(cap, Similarity(input, key))
            && forall k | k in KeysOf(db, kind) && Related(k, input) :: Similarity(input, k) <= Similarity(input, key))
  {
    var keys := Distinct(KeysOf(db, kind));
    var matches := EntryCandidates(keys, db, kind, input);
    if matches != [] {
      SortHead(matches);
      var i := FirstMax(matches);
      var key := matches[i].item.key;
      OwnersHead(db, kind, key);
      forall k | k in KeysOf(db, kind) && Related(k, input) ensures Similarity(input, k) <= Similarity(input, key) {
        var j := CandidateOf(keys, db, kind, input, k);
        assert matches[j].similarity <= matches[i].similarity;
      }
    }
  }

  /** Every related key of the table has its place among the candidates. */
  lemma {:induction false} CandidateOf(keys: seq<string>, db: seq<AgentConfig>, kind: Kind, input: string, k: string)
    returns (j: nat)
    requires k in keys && Related(k, input)
    ensures var r := EntryCandidates(keys, db, kind, input);
      j < |r| && r[j].item.key == k && r[j].similarity == Similarity(input, k)
  {
    var init := keys[..|keys| - 1];
    if k in init {
      j := CandidateOf(init, db, kind, input, k);
    } else {
      assert k == keys[|keys| - 1];
      j := |EntryCandidates(init, db, kind, input)|;
    }
  }

  /** The loop of `findRoleMatch` / `findTechnologyMatch`: the related entries in table order, each scored. */
  method CollectMatches(keys: seq<string>, m: map<string, seq<string>>, input: string,
                        ghost db: seq<AgentConfig>, ghost kind: Kind)
    returns (matches: seq<Ranked<Entry>>)
    requires forall k | k in keys :: k in m && m[k] == Owners(db, kind, k)
    ensures matches == EntryCandidates(keys, db, kind, input)
  {
    matches := [];
    for j := 0 to |keys|
      invariant matches == EntryCandidates(keys[..j], db, kind, input)
    {
      var key := keys[j];
      assert keys[..j + 1][..j] == keys[..j];
      if Related(key, input) {
        var similarity := CalculateSimilarity(input, key);
        matches := matches + [Ranked(Entry(key, m[key]), similarity)];
      }
    }
    assert keys[..|keys|] == keys;
  }

  /**
   * `findRoleMatch` / `findTechnologyMatch` as written: the related entries
   * of the table, sorted, the best one's first agent.
   */
  method FindEntryMatch(keys: seq<string>, m: map<string, seq<string>>, input: string, cap: real,
                        ghost db: seq<AgentConfig>, ghost kind: Kind)
    returns (r: Option<EntryResult>)
    requires Grouped(keys, m, db, kind)
    ensures r == EntryMatch(db, kind, input, cap)
  {
    var matches := CollectMatches(keys, m, input, db, kind);
    if matches == [] {
      return None;
    }
    var sorted := SortDesc(matches);
    var best := sorted[0];
    assert best in multiset(matches);
    r := Some(EntryResult(best.item.agents[0], Min(cap, best.similarity), sorted));
  }

  // ------------------------------------------------------------ fuzzy match

  /** A string the fuzzy match compares the input with, and the agent it belongs to. */
  datatype Candidate = Candidate(agent: string, text: string)

  function Pairs(id: string, texts: seq<string>): (r: seq<Candidate>)
    ensures |r| == |texts| && forall i | 0 <= i < |texts| :: r[i] == Candidate(id, texts[i])
  {
    seq(|texts|, i requires 0 <= i < |texts| => Candidate(id, texts[i]))
  }

  /** `[...config.aliases, ...config.roles, ...config.shortcuts]` */
  function AllStrings(c: AgentConfig): seq<string>
  {
    c.aliases + c.roles + c.shortcuts
  }

  /** Every string the fuzzy match visits, in database order. */
  function Candidates(db: seq<AgentConfig>): seq<Candidate>
  {
    if db == [] then [] else Candidates(db[..|db| - 1]) + Pairs(db[|db| - 1].id, AllStrings(db[|db| - 1]))
  }

  /** The similarity of the input to a candidate, compared lower-cased. */
  function Score(input: string, c: Candidate): real
  {
    Similarity(input, ToLower(c.text))
  }

  datatype FuzzyResult = FuzzyResult(agent: string, confidence: real, matchedString: string)

  /** The running best of `findFuzzyMatch` and its `highestSimilarity` after visiting `cands`. */
  function FuzzyScan(cands: seq<Candidate>, input: string): (Option<FuzzyResult>, real)
  {
    if cands == [] then (None, 0.0)
    else
      var (best, highest) := FuzzyScan(cands[..|cands| - 1], input);
      var c := cands[|cands| - 1];
      var similarity := Score(input, c);
      if similarity > highest && similarity > 0.6 then (Some(FuzzyResult(c.agent, similarity * 0.75, c.text)), similarity)
      else (best, highest)
  }

  /**
   * No candidate scores above both 0.6 and the running highest, which is
   * 0 until a candidate above 0.6 is found.
   */
  lemma {:induction false} FuzzyScanBound(cands: seq<Candidate>, input: string)
    ensures var r := FuzzyScan(cands, input);
      (r.0.None? <==> r.1 == 0.0) && (r.0.Some? ==> r.1 > 0.6)
      && forall j | 0 <= j < |cands| :: Score(input, cands[j]) <= 0.6 || Score(input, cands[j]) <= r.1
  {
    if cands != [] {
      var init := cands[..|cands| - 1];
      FuzzyScanBound(init, input);
      assert forall j | 0 <= j < |init| :: cands[j] == init[j];
    }
  }

  /**
   * The fuzzy match is the earliest candidate of greatest similarity, when
   * that similarity is above 0.6, with three quarters of it as confidence;
   * without a candidate above 0.6 there is none.
   */
  lemma {:induction false} FuzzyScanBest(cands: seq<Candidate>, input: string) returns (i: nat)
    ensures var r := FuzzyScan(cands, input);
      (r.0.None? ==> forall j | 0 <= j < |cands| :: Score(input, cands[j]) <= 0.6)
      && (r.0.Some? ==>
            i < |cands| && r.1 > 0.6 && Score(input, cands[i]) == r.1
            && r.0.value == FuzzyResult(cands[i].agent, r.1 * 0.75, cands[i].text)
            && (forall j | 0 <= j < |cands| :: Score(input, cands[j]) <= r.1)
            && (forall j | 0 <= j < i :: Score(input, cands[j]) < r.1))
  {
    FuzzyScanBound(cands, input);
    i := 0;
    if cands != [] {
      var init, c := cands[..|cands| - 1], cands[|cands| - 1];
      var r0 := FuzzyScan(init, input);
      var similarity := Score(input, c);
      if similarity > r0.1 && similarity > 0.6 {
        FuzzyScanBound(init, input);
        assert forall j | 0 <= j < |init| :: cands[j] == init[j];
        i := |cands| - 1;
      } else if r0.0.Some? {
        i := FuzzyScanBest(init, input);
        assert forall j | 0 <= j < |init| :: cands[j] == init[j];
      }
    }
  }

  /** The candidates of a longer database prefix. */
  lemma CandidatesStep(db: seq<AgentConfig>, i: nat)
    requires i < |db|
    ensures Candidates(db[..i + 1]) == Candidates(db[..i]) + Pairs(db[i].id, AllStrings(db[i]))
  {
    assert db[..i + 1][..i] == db[..i];
  }

  /** The candidates visited after one more string of the current agent. */
  lemma PairsStep(before: seq<Candidate>, id: string, texts: seq<string>, j: nat)
    requires j < |texts|
    ensures before + Pairs(id, texts[..j + 1]) == (before + Pairs(id, texts[..j])) + [Candidate(id, texts[j])]
  {
  }

  /** One more candidate replaces the running best when it scores above both the highest so far and 0.6. */
  lemma FuzzyScanSnoc(cands: seq<Candidate>, c: Candidate, input: string)
    ensures var (best, highest) := FuzzyScan(cands, input);
      var similarity := Score(input, c);
      FuzzyScan(cands + [c], input)
        == if similarity > highest && similarity > 0.6 then (Some(FuzzyResult(c.agent, similarity * 0.75, c.text)), similarity)
           else (best, highest)
  {
    assert (cands + [c])[..|cands|] == cands;
  }

  /** The inner loop of `findFuzzyMatch`: one agent's strings, continuing the running best. */
  method ScanStrings(id: string, texts: seq<string>, input: string, best: Option<FuzzyResult>, highest: real,
                     ghost before: seq<Candidate>)
    returns (best': Option<FuzzyResult>, highest': real)
    requires (best, highest) == FuzzyScan(before, input)
    ensures (best', highest') == FuzzyScan(before + Pairs(id, texts), input)
  {
    best', highest' := best, highest;
    assert before + Pairs(id, texts[..0]) == before;
    for j := 0 to |texts|
      invariant (best', highest') == FuzzyScan(before + Pairs(id, texts[..j]), input)
    {
      PairsStep(before, id, texts, j);
      FuzzyScanSnoc(before + Pairs(id, texts[..j]), Candidate(id, texts[j]), input);
      var similarity := CalculateSimilarity(input, ToLower(texts[j]));
      if similarity > highest' && similarity > 0.6 {
        highest' := similarity;
        best' := Some(FuzzyResult(id, similarity * 0.75, texts[j]));
      }
    }
    assert texts[..|texts|] == texts;
  }

  /** `findFuzzyMatch` as written: the running best over every agent's strings. */
  method FindFuzzyMatch(db: seq<AgentConfig>, input: string) returns (r: Option<FuzzyResult>)
    ensures r == FuzzyScan(Candidates(db), input).0
  {
    var best: Option<FuzzyResult> := None;
    var highest := 0.0;
    assert db[..0] == [];
    for i := 0 to |db|
      invariant (best, highest) == FuzzyScan(Candidates(db[..i]), input)
    {
      var config := db[i];
      var allStrings := config.aliases + config.roles + config.shortcuts;
      best, highest := ScanStrings(config.id, allStrings, input, best, highest, Candidates(db[..i]));
      CandidatesStep(db, i);
    }
    assert db[..|db|] == db;
    r := best;
  }

  // ------------------------------------------------------------ suggestions

  datatype Suggestion = Suggestion(agent: string, canonical: string, shortcuts: seq<string>)

  /** Every agent with its similarity to the input, in database order. */
  function RankedAgents(db: seq<AgentConfig>, input: string): (r: seq<Ranked<Suggestion>>)
    ensures |r| == |db|
    ensures forall i | 0 <= i < |db| ::
      r[i] == Ranked(Suggestion(db[i].id, db[i].canonical, db[i].shortcuts), Similarity(input, db[i].id))
  {
    seq(|db|, i requires 0 <= i < |db| =>
      Ranked(Suggestion(db[i].id, db[i].canonical, db[i].shortcuts), Similarity(input, db[i].id)))
  }

  /** `getSuggestions`: the first three agents of the stable sort by similarity to the input. */
  function Suggestions(db: seq<AgentConfig>, input: string): (r: seq<Suggestion>)
  {
    var sorted := SortDesc(RankedAgents(db, input));
    var top := sorted[..if |sorted| < 3 then |sorted| else 3];
    seq(|top|, i requires 0 <= i < |top| => top[i].item)
  }

  /** Every sorted entry is some agent, with that agent's similarity. */
  lemma {:induction false} SortedAgents(db: seq<AgentConfig>, input: string)
    ensures |SortDesc(RankedAgents(db, input))| == |db|
    ensures forall p | 0 <= p < |db| ::
      SortDesc(RankedAgents(db, input))[p].similarity == Similarity(input, SortDesc(RankedAgents(db, input))[p].item.agent)
    ensures forall p | 0 <= p < |db| :: exists j | 0 <= j < |db| ::
      SortDesc(RankedAgents(db, input))[p].item == Suggestion(db[j].id, db[j].canonical, db[j].shortcuts)
  {
    var ranked := RankedAgents(db, input);
    var sorted := SortDesc(ranked);
    forall p | 0 <= p < |db|
      ensures sorted[p].similarity == Similarity(input, sorted[p].item.agent)
      ensures exists j | 0 <= j < |db| :: sorted[p].item == Suggestion(db[j].id, db[j].canonical, db[j].shortcuts)
    {
      assert sorted[p] in multiset(ranked);
      var j :| 0 <= j < |ranked| && ranked[j] == sorted[p];
    }
  }

  /** The place of agent `j` in the sorted list. */
  lemma {:induction false} AgentSorted(db: seq<AgentConfig>, input: string, j: nat) returns (p: nat)
    requires j < |db|
    ensures var sorted := SortDesc(RankedAgents(db, input));
      p < |sorted| && sorted[p] == RankedAgents(db, input)[j]
  {
    var ranked := RankedAgents(db, input);
    var sorted := SortDesc(ranked);
    assert ranked[j] in multiset(sorted);
    p :| 0 <= p < |sorted| && sorted[p] == ranked[j];
  }

  /** Three agents are suggested (fewer only for a smaller database), each an agent of the database, most similar first. */
  lemma {:induction false} SuggestionsOrdered(db: seq<AgentConfig>, input: string)
    ensures var r := Suggestions(db, input);
      |r| == (if |db| < 3 then |db| else 3)
      && (forall i | 0 <= i < |r| :: exists j | 0 <= j < |db| :: r[i] == Suggestion(db[j].id, db[j].canonical, db[j].shortcuts))
      && (forall i, i' | 0 <= i < i' < |r| :: Similarity(input, r[i].agent) >= Similarity(input, r[i'].agent))
  {
    var sorted := SortDesc(RankedAgents(db, input));
    var r := Suggestions(db, input);
    SortedAgents(db, input);
    forall i | 0 <= i < |r|
      ensures r[i] == sorted[i].item
      ensures exists j | 0 <= j < |db| :: r[i] == Suggestion(db[j].id, db[j].canonical, db[j].shortcuts)
    {
      var j :| 0 <= j < |db| && sorted[i].item == Suggestion(db[j].id, db[j].canonical, db[j].shortcuts);
    }
    forall i, i' | 0 <= i < i' < |r| ensures Similarity(input, r[i].agent) >= Similarity(input, r[i'].agent) {
      assert sorted[i].similarity >= sorted[i'].similarity;
      assert r[i] == sorted[i].item && r[i'] == sorted[i'].item;
      assert sorted[i].similarity == Similarity(input, sorted[i].item.agent);
      assert sorted[i'].similarity == Similarity(input, sorted[i'].item.agent);
    }
  }

  /** No agent left out of the suggestions is more similar to the input than any suggested one. */
  lemma {:induction false} SuggestionsTop(db: seq<AgentConfig>, input: string)
    ensures var r := Suggestions(db, input);
      forall j | 0 <= j < |db| ::
        Suggestion(db[j].id, db[j].canonical, db[j].shortcuts) in r
        || forall i | 0 <= i < |r| :: Similarity(input, r[i].agent) >= Similarity(input, db[j].id)
  {
    var sorted := SortDesc(RankedAgents(db, input));
    var r := Suggestions(db, input);
    assert forall i | 0 <= i < |r| :: r[i] == sorted[i].item;
    SortedAgents(db, input);
    forall j | 0 <= j < |db|
      ensures Suggestion(db[j].id, db[j].canonical, db[j].shortcuts) in r
              || forall i | 0 <= i < |r| :: Similarity(input, r[i].agent) >= Similarity(input, db[j].id)
    {
      var p := AgentSorted(db, input, j);
      if p < |r| {
        assert r[p] == Suggestion(db[j].id, db[j].canonical, db[j].shortcuts);
      } else {
        forall i | 0 <= i < |r| ensures Similarity(input, r[i].agent) >= Similarity(input, db[j].id) {
          assert sorted[i].similarity >= sorted[p].similarity;
        }
      }
    }
  }

  // ------------------------------------------------------------- resolution

  /** How an input was resolved. */
  datatype Strategy = ExactAlias | ShortcutMatch | RoleBased | TechnologyBased | FuzzyMatch | NoMatch

  /**
   * The result of `resolveAgent`; `matches`, `matchedString` and
   * `suggestions` are empty where the script's object has no such field.
   */
  datatype Resolution = Resolution(agent: Option<string>, confidence: real, strategy: Strategy, input: string,
                                   matches: seq<Ranked<Entry>>, matchedString: string,
                                   suggestions: seq<Suggestion>)

  /** `input.toLowerCase().trim()` */
  function Clean(input: string): string
  {
    Trim(ToLower(input))
  }

  /**
   * The ladder of `resolveAgent` over the outcomes of its strategies.  The
   * fuzzy test `confidence > 0.6` is written `>= 0.6`: the confidence is
   * three quarters of a similarity `1 - d/n`, and where that similarity is
   * exactly 4/5 (one edit in five characters) the program's floating-point
   * product is 0.6000000000000001 and passes, while in exact arithmetic it
   * is 0.6.
   */
  function Decide(input: string, exact: Option<string>, shortcut: Option<string>, role: Option<EntryResult>,
                  technology: Option<EntryResult>, fuzzy: Option<FuzzyResult>, suggestions: seq<Suggestion>): Resolution
  {
    if exact.Some? then Resolution(exact, 1.0, ExactAlias, input, [], "", [])
    else if shortcut.Some? then Resolution(shortcut, 0.95, ShortcutMatch, input, [], "", [])
    else if role.Some? then
      Resolution(Some(role.value.agent), role.value.confidence, RoleBased, input, role.value.matches, "", [])
    else if technology.Some? then
      Resolution(Some(technology.value.agent), technology.value.confidence, TechnologyBased, input,
                 technology.value.matches, "", [])
    else if fuzzy.Some? && fuzzy.value.confidence >= 0.6 then
      Resolution(Some(fuzzy.value.agent), fuzzy.value.confidence, FuzzyMatch, input, [], fuzzy.value.matchedString, [])
    else Resolution(None, 0.0, NoMatch, input, [], "", suggestions)
  }

  /** `resolveAgent`: the first strategy that finds an agent, else the suggestions. */
  function Resolve(db: seq<AgentConfig>, input: string): Resolution
  {
    ResolveCleaned(db, input, Clean(input))
  }

  /** The strategies tried on the cleaned input. */
  function ResolveCleaned(db: seq<AgentConfig>, input: string, clean: string): Resolution
  {
    Decide(input, LastOwner(db, Aliases, clean), LastOwner(db, Shortcuts, clean), EntryMatch(db, Roles, clean, 0.85),
           EntryMatch(db, Technologies, clean, 0.80), FuzzyScan(Candidates(db), clean).0, Suggestions(db, clean))
  }

  /**
   * The strategies in their order: an alias of the cleaned input wins, then
   * a shortcut, then a related role, then a related technology, then a
   * fuzzy match; the fixed confidences and the caps of each, and an agent
   * exactly when a strategy succeeds.
   */
  lemma {:induction false} ResolveLadder(db: seq<AgentConfig>, input: string, clean: string)
    ensures var r := ResolveCleaned(db, input, clean);
      var alias, shortcut := clean in KeysOf(db, Aliases), clean in KeysOf(db, Shortcuts);
      var role := exists k | k in KeysOf(db, Roles) :: Related(k, clean);
      var technology := exists k | k in KeysOf(db, Technologies) :: Related(k, clean);
      r.input == input
      && (r.strategy == ExactAlias <==> alias)
      && (r.strategy == ShortcutMatch <==> !alias && shortcut)
      && (r.strategy == RoleBased <==> !alias && !shortcut && role)
      && (r.strategy == TechnologyBased <==> !alias && !shortcut && !role && technology)
      && (r.strategy == FuzzyMatch ==> !alias && !shortcut && !role && !technology)
      && (r.strategy == ExactAlias ==> r.confidence == 1.0)
      && (r.strategy == ShortcutMatch ==> r.confidence == 0.95)
      && (r.strategy == RoleBased ==> r.confidence <= 0.85)
      && (r.strategy == TechnologyBased ==> r.confidence <= 0.80)
      && (r.strategy == FuzzyMatch ==> r.confidence >= 0.6)
      && (r.agent.None? <==> r.strategy == NoMatch)
      && (r.strategy == NoMatch ==> r.confidence == 0.0 && r.suggestions == Suggestions(db, clean))
  {
    EntryMatchBest(db, Roles, clean, 0.85);
    EntryMatchBest(db, Technologies, clean, 0.80);
  }

  /**
   * An accepted fuzzy match comes from a string of greatest similarity to
   * the cleaned input among all the database's strings, and that similarity
   * is at least 0.8, since three quarters of it must reach 0.6.
   */
  lemma {:induction false} AcceptedFuzzyAbove(db: seq<AgentConfig>, input: string, clean: string)
    ensures ResolveCleaned(db, input, clean).strategy == FuzzyMatch ==>
      exists i | 0 <= i < |Candidates(db)| :: FuzzyWinner(db, ResolveCleaned(db, input, clean), clean, i)
  {
    var cands := Candidates(db);
    var fuzzy := FuzzyScan(cands, clean);
    var i := FuzzyScanBest(cands, clean);
    var r := ResolveCleaned(db, input, clean);
    DecideFuzzy(input, LastOwner(db, Aliases, clean), LastOwner(db, Shortcuts, clean), EntryMatch(db, Roles, clean, 0.85),
                EntryMatch(db, Technologies, clean, 0.80), fuzzy.0, Suggestions(db, clean));
    if r.strategy == FuzzyMatch {
      assert fuzzy.0.Some? && r.confidence == fuzzy.1 * 0.75;
      assert cands[i].agent == r.agent.value && cands[i].text == r.matchedString;
      var best := Score(clean, cands[i]);
      assert best == fuzzy.1 && best >= 0.8 && r.confidence == best * 0.75;
      assert forall j | 0 <= j < |cands| :: Score(clean, cands[j]) <= best;
      assert FuzzyWinner(db, r, clean, i);
    }
  }

  /** Candidate `i` is the one an accepted fuzzy match reports, and no candidate is more similar. */
  ghost predicate FuzzyWinner(db: seq<AgentConfig>, r: Resolution, clean: string, i: nat)
    requires i < |Candidates(db)|
  {
    var cands := Candidates(db);
    cands[i].agent == r.agent.GetOr("") && cands[i].text == r.matchedString
    && Score(clean, cands[i]) >= 0.8 && r.confidence == Score(clean, cands[i]) * 0.75
    && forall j | 0 <= j < |cands| :: Score(clean, cands[j]) <= Score(clean, cands[i])
  }

  /** The ladder takes the fuzzy match only when it has one of at least 0.6, and reports it unchanged. */
  lemma DecideFuzzy(input: string, exact: Option<string>, shortcut: Option<string>, role: Option<EntryResult>,
                    technology: Option<EntryResult>, fuzzy: Option<FuzzyResult>, suggestions: seq<Suggestion>)
    ensures var r := Decide(input, exact, shortcut, role, technology, fuzzy, suggestions);
      r.strategy == FuzzyMatch ==>
        fuzzy.Some? && fuzzy.value.confidence >= 0.6 && r.agent == Some(fuzzy.value.agent)
        && r.confidence == fuzzy.value.confidence && r.matchedString == fuzzy.value.matchedString
  {
  }

  /** The agent an alias or shortcut table holds is one of the database's. */
  lemma {:induction false} LastOwnerListed(db: seq<AgentConfig>, kind: Kind, k: string)
    ensures LastOwner(db, kind, k).Some? ==> exists i | 0 <= i < |db| :: db[i].id == LastOwner(db, kind, k).value
  {
    if db != [] && k !in LowerAll(Items(db[|db| - 1], kind)) {
      var init := db[..|db| - 1];
      LastOwnerListed(init, kind, k);
      assert forall i | 0 <= i < |init| :: db[i] == init[i];
    }
  }

  /** Every fuzzy candidate belongs to an agent of the database. */
  lemma {:induction false} CandidatesListed(db: seq<AgentConfig>)
    ensures forall c | c in Candidates(db) :: exists i | 0 <= i < |db| :: db[i].id == c.agent
  {
    if db != [] {
      var init := db[..|db| - 1];
      CandidatesListed(init);
      assert forall i | 0 <= i < |init| :: db[i] == init[i];
    }
  }

  /** Whatever strategy succeeds, the agent it names is an agent of the database. */
  lemma {:induction false} ResolvedAgentListed(db: seq<AgentConfig>, input: string, clean: string)
    ensures var r := ResolveCleaned(db, input, clean);
      r.agent.Some? ==> exists i | 0 <= i < |db| :: db[i].id == r.agent.value
  {
    LastOwnerListed(db, Aliases, clean);
    LastOwnerListed(db, Shortcuts, clean);
    EntryMatchBest(db, Roles, clean, 0.85);
    EntryMatchBest(db, Technologies, clean, 0.80);
    CandidatesListed(db);
    var i := FuzzyScanBest(Candidates(db), clean);
    if FuzzyScan(Candidates(db), clean).0.Some? {
      assert Candidates(db)[i] in Candidates(db);
    }
  }
}
