/**
 * pattern-recognition/test-suite.js, `testAgentResolver`: the resolutions
 * the project's own tests expect of the agent database, proved of the
 * model of `resolveAgent`.
 */
module ResolverExamples {
  import opened Wrappers
  import opened JsString
  import opened AgentResolution

  // ---------------------------------------------------------------- helpers

  /** A string without ASCII capitals is its own lower case. */
  lemma LowerOfLower(s: string)
    requires forall i | 0 <= i < |s| :: !('A' <= s[i] <= 'Z')
    ensures ToLower(s) == s
  {
  }

  /** An input without capitals and without white space at its ends is its own cleaned form. */
  lemma CleanOfPlain(s: string)
    requires forall i | 0 <= i < |s| :: !('A' <= s[i] <= 'Z')
    requires s == [] || (!IsSpace(s[0]) && !IsSpace(s[|s| - 1]))
    ensures Clean(s) == s
  {
    LowerOfLower(s);
    TrimNoSpace(s);
  }

  /** A key no listed string has the length of is not among the lower-cased strings. */
  lemma AbsentByLength(k: string, xs: seq<string>)
    requires forall i | 0 <= i < |xs| :: |xs[i]| != |k|
    ensures k !in LowerAll(xs)
  {
  }

  /** A key differing from each listed string in length or in its lower-cased first character is not among them. */
  lemma AbsentByHead(k: string, xs: seq<string>)
    requires forall i | 0 <= i < |xs| :: |xs[i]| != |k| || (k != [] && xs[i] != [] && LowerChar(xs[i][0]) != k[0])
    ensures k !in LowerAll(xs)
  {
  }

  /** No table maps a key no agent lists. */
  lemma {:induction false} LastOwnerNone(db: seq<AgentConfig>, kind: Kind, k: string)
    requires forall m | 0 <= m < |db| :: k !in LowerAll(Items(db[m], kind))
    ensures LastOwner(db, kind, k) == None
    decreases |db|
  {
    if db != [] {
      var init := db[..|db| - 1];
      assert forall m | 0 <= m < |init| :: init[m] == db[m];
      LastOwnerNone(init, kind, k);
    }
  }

  /**
   * The table maps a key to agent `j` when `j` lists it and no later agent
   * does: `Map.set` keeps the last write.
   */
  lemma {:induction false} LastOwnerIs(db: seq<AgentConfig>, kind: Kind, k: string, j: nat)
    requires j < |db| && k in LowerAll(Items(db[j], kind))
    requires forall m | j < m < |db| :: k !in LowerAll(Items(db[m], kind))
    ensures LastOwner(db, kind, k) == Some(db[j].id)
    decreases |db|
  {
    if j < |db| - 1 {
      var init := db[..|db| - 1];
      assert forall m | 0 <= m < |init| :: init[m] == db[m];
      LastOwnerIs(init, kind, k, j);
    }
  }

  /** The six entries of the database, by position. */
  lemma Entries()
    ensures |Database| == 6
    ensures Database[0] == VibeCoder && Database[1] == ReactDev && Database[2] == LaravelDev
    ensures Database[3] == SvelteDev && Database[4] == NodeDev && Database[5] == DevOps
  {
  }

  /** A key of a table comes from one entry of the database. */
  lemma {:induction false} KeyFrom(db: seq<AgentConfig>, kind: Kind, k: string)
    requires k in KeysOf(db, kind)
    ensures exists m | 0 <= m < |db| :: k in LowerAll(Items(db[m], kind))
  {
    if k !in LowerAll(Items(db[|db| - 1], kind)) {
      var init := db[..|db| - 1];
      KeyFrom(init, kind, k);
      var m :| 0 <= m < |init| && k in LowerAll(Items(init[m], kind));
      assert init[m] == db[m];
    }
  }

  /** A fuzzy candidate is a string of one entry of the database. */
  lemma {:induction false} CandidateFrom(db: seq<AgentConfig>, j: nat)
    requires j < |Candidates(db)|
    ensures exists m, i | 0 <= m < |db| && 0 <= i < |AllStrings(db[m])| :: Candidates(db)[j].text == AllStrings(db[m])[i]
  {
    var init := db[..|db| - 1];
    assert Candidates(db) == Candidates(init) + Pairs(db[|db| - 1].id, AllStrings(db[|db| - 1]));
    if j < |Candidates(init)| {
      CandidateFrom(init, j);
      var m, i :| 0 <= m < |init| && 0 <= i < |AllStrings(init[m])| && Candidates(init)[j].text == AllStrings(init[m])[i];
      assert init[m] == db[m];
    } else {
      assert Candidates(db)[j].text == AllStrings(db[|db| - 1])[j - |Candidates(init)|];
    }
  }

  /** No string of `xs`, lower-cased, contains `clean` or is contained in it. */
  predicate Unrelated(xs: seq<string>, clean: string)
  {
    forall i | 0 <= i < |xs| :: !Related(ToLower(xs[i]), clean)
  }

  /** Every string of `xs`, lower-cased, is less than 4/5 similar to `clean`. */
  predicate Distant(xs: seq<string>, clean: string)
  {
    forall i | 0 <= i < |xs| :: Similarity(clean, ToLower(xs[i])) < 0.8
  }

  /**
   * An input that is no alias and no shortcut, related to no role and no
   * technology and less than 4/5 similar to every fuzzy candidate gets no
   * agent.
   */
  lemma NoMatchWhen(db: seq<AgentConfig>, input: string, clean: string)
    requires LastOwner(db, Aliases, clean).None? && LastOwner(db, Shortcuts, clean).None?
    requires forall m | 0 <= m < |db| :: Unrelated(Items(db[m], Roles), clean)
    requires forall m | 0 <= m < |db| :: Unrelated(Items(db[m], Technologies), clean)
    requires forall m | 0 <= m < |db| :: Distant(AllStrings(db[m]), clean)
    ensures ResolveCleaned(db, input, clean).agent == None
    ensures ResolveCleaned(db, input, clean).strategy == NoMatch
  {
    KeysUnrelated(db, Roles, clean);
    KeysUnrelated(db, Technologies, clean);
    CandidatesDistant(db, clean);
    ResolveLadder(db, input, clean);
    AcceptedFuzzyAbove(db, input, clean);
  }

  lemma KeysUnrelated(db: seq<AgentConfig>, kind: Kind, clean: string)
    requires forall m | 0 <= m < |db| :: Unrelated(Items(db[m], kind), clean)
    ensures forall k | k in KeysOf(db, kind) :: !Related(k, clean)
  {
    forall k | k in KeysOf(db, kind) ensures !Related(k, clean) {
      KeyFrom(db, kind, k);
    }
  }

  lemma CandidatesDistant(db: seq<AgentConfig>, clean: string)
    requires forall m | 0 <= m < |db| :: Distant(AllStrings(db[m]), clean)
    ensures forall j | 0 <= j < |Candidates(db)| :: Score(clean, Candidates(db)[j]) < 0.8
  {
    forall j | 0 <= j < |Candidates(db)| ensures Score(clean, Candidates(db)[j]) < 0.8 {
      CandidateFrom(db, j);
    }
  }

  // ---------------------------------------------------------------- distance bounds

  /** How many characters of `a` are in `cs`. */
  function CountIn(a: string, cs: set<char>): (r: nat)
    ensures r <= |a|
  {
    if a == [] then 0 else CountIn(a[..|a| - 1], cs) + (if a[|a| - 1] in cs then 1 else 0)
  }

  /** The distance is at least the difference of the lengths. */
  lemma {:induction false} DistAtLeastGap(a: string, b: string)
    ensures Dist(a, b) >= |a| - |b| && Dist(a, b) >= |b| - |a|
    decreases |a| + |b|
  {
    if |a| > 0 && |b| > 0 {
      DistAtLeastGap(a[..|a| - 1], b);
      DistAtLeastGap(a, b[..|b| - 1]);
      DistAtLeastGap(a[..|a| - 1], b[..|b| - 1]);
    }
  }

  /** Each character of `a` that `b` lacks costs an edit: the distance is at least their number. */
  lemma {:induction false} DistAtLeastMissing(a: string, b: string, cs: set<char>)
    requires forall c | c in cs :: c !in b
    ensures Dist(a, b) >= CountIn(a, cs)
    decreases |a| + |b|
  {
    if |a| > 0 && |b| > 0 {
      var a', b' := a[..|a| - 1], b[..|b| - 1];
      assert forall c | c in b' :: c in b;
      DistAtLeastMissing(a', b, cs);
      DistAtLeastMissing(a, b', cs);
      DistAtLeastMissing(a', b', cs);
      if a[|a| - 1] in cs {
        assert b[|b| - 1] in b;
      }
    }
  }

  /** A distance above a fifth of the longer length keeps the similarity below 4/5. */
  lemma SimilarityBelow(a: string, b: string, d: nat)
    requires |a| > 0 && |b| > 0 && Dist(a, b) >= d
    requires 5 * d > (if |a| >= |b| then |a| else |b|)
    ensures Similarity(a, b) < 0.8
  {
    var m := if |a| >= |b| then |a| else |b|;
    RatioAbove(Dist(a, b), m);
  }

  /** A count above a fifth of a positive bound is more than a fifth of it as a ratio. */
  lemma RatioAbove(d: nat, m: nat)
    requires 0 < m && 5 * d > m
    ensures (d as real) / (m as real) > 0.2
  {
    var q := (d as real) / (m as real);
    assert q * (m as real) == d as real;
    if q <= 0.2 {
      assert false;
    }
  }

  /** No lower-cased character of `t` is `c`. */
  predicate Lacks(t: string, c: char)
  {
    forall i | 0 <= i < |t| :: LowerChar(t[i]) != c
  }

  /**
   * `t`, lower-cased, neither contains `clean` (it is shorter, or lacks
   * `clean[j]`) nor is contained in it (it is longer, or `clean` lacks its
   * `i`-th character).
   */
  lemma UnrelatedBy(t: string, clean: string, j: nat, i: nat)
    requires |t| < |clean| || (j < |clean| && Lacks(t, clean[j]))
    requires |t| > |clean| || (i < |t| && LowerChar(t[i]) !in clean)
    ensures !Related(ToLower(t), clean)
  {
    var k := ToLower(t);
    if Includes(k, clean) {
      IncludesLength(k, clean);
      NotIncludesChar(k, clean, j);
    }
    if Includes(clean, k) {
      IncludesLength(clean, k);
      NotIncludesChar(clean, k, i);
    }
  }

  /** `t`, lower-cased, is far from `clean` by the difference of the lengths. */
  lemma FarByLength(clean: string, t: string)
    requires |clean| > 0 && |t| > 0
    requires 5 * (|clean| - |t|) > |clean| || 5 * (|t| - |clean|) > |t|
    ensures Similarity(clean, ToLower(t)) < 0.8
  {
    var k := ToLower(t);
    DistAtLeastGap(clean, k);
    SimilarityBelow(clean, k, if |clean| >= |k| then |clean| - |k| else |k| - |clean|);
  }

  /** `t`, lower-cased, is far from `clean` by the characters of `cs`, which it lacks. */
  lemma FarByMissing(clean: string, t: string, cs: set<char>)
    requires |clean| > 0 && |t| > 0
    requires forall c | c in cs :: Lacks(t, c)
    requires 5 * CountIn(clean, cs) > (if |clean| >= |t| then |clean| else |t|)
    ensures Similarity(clean, ToLower(t)) < 0.8
  {
    var k := ToLower(t);
    DistAtLeastMissing(clean, k, cs);
    SimilarityBelow(clean, k, CountIn(clean, cs));
  }

  // ---------------------------------------------------------------- the expected resolutions

  /** An input whose cleaned form is an alias resolves to the alias's agent. */
  lemma AliasWins(db: seq<AgentConfig>, input: string, clean: string)
    requires LastOwner(db, Aliases, clean).Some?
    ensures ResolveCleaned(db, input, clean).agent == LastOwner(db, Aliases, clean)
    ensures ResolveCleaned(db, input, clean).strategy == ExactAlias
  {
  }

  /** An input that is no alias but a shortcut resolves to the shortcut's agent. */
  lemma ShortcutWins(db: seq<AgentConfig>, input: string, clean: string)
    requires LastOwner(db, Aliases, clean).None? && LastOwner(db, Shortcuts, clean).Some?
    ensures ResolveCleaned(db, input, clean).agent == LastOwner(db, Shortcuts, clean)
    ensures ResolveCleaned(db, input, clean).strategy == ShortcutMatch
  {
  }

  /** `'react developer'` is an alias of `react-dev`. */
  lemma ReactDeveloperResolves()
    ensures Resolve(Database, "react developer").agent == Some("react-dev")
    ensures Resolve(Database, "react developer").strategy == ExactAlias
  {
    var k := "react developer";
    ReactDeveloperClean();
    ReactDeveloperOwner();
    AliasWins(Database, k, k);
  }

  lemma ReactDeveloperClean()
    ensures Clean("react developer") == "react developer"
  {
    CleanOfPlain("react developer");
  }

  lemma ReactDeveloperOwner()
    ensures LastOwner(Database, Aliases, "react developer") == Some("react-dev")
  {
    var k := "react developer";
    ReactDeveloperAlias();
    forall m | 1 < m < |Database| ensures k !in LowerAll(Items(Database[m], Aliases)) {
      ReactDeveloperNotLater(m);
    }
    LastOwnerIs(Database, Aliases, k, 1);
    assert Database[1] == ReactDev;
  }

  lemma ReactDeveloperAlias()
    ensures "react developer" in LowerAll(Items(Database[1], Aliases))
  {
    assert Database[1] == ReactDev;
    ReactDevListsIt();
  }

  lemma ReactDevListsIt()
    ensures "react developer" in LowerAll(ReactDev.aliases)
  {
    ReactDeveloperLower();
    assert LowerAll(ReactDev.aliases)[2] == ToLower(ReactDev.aliases[2]);
  }

  lemma ReactDeveloperLower()
    ensures ToLower("react developer") == "react developer"
  {
    LowerOfLower("react developer");
  }

  lemma ReactDeveloperNotLater(m: nat)
    requires 1 < m < |Database|
    ensures "react developer" !in LowerAll(Items(Database[m], Aliases))
  {
    var k := "react developer";
    Entries();
    if m == 2 {
      AbsentByLength(k, LaravelDev.aliases);
    } else if m == 3 {
      AbsentByLength(k, SvelteDev.aliases);
    } else if m == 4 {
      AbsentByLength(k, NodeDev.aliases);
    } else {
      AbsentByLength(k, DevOps.aliases);
    }
  }

  /** `'vibe'` is no alias but the shortcut of `vibe-coder`. */
  lemma VibeResolves()
    ensures Resolve(Database, "vibe").agent == Some("vibe-coder")
    ensures Resolve(Database, "vibe").strategy == ShortcutMatch
  {
    VibeClean();
    VibeCleaned();
  }

  lemma VibeCleaned()
    ensures ResolveCleaned(Database, "vibe", "vibe").agent == LastOwner(Database, Shortcuts, "vibe")
    ensures ResolveCleaned(Database, "vibe", "vibe").strategy == ShortcutMatch
    ensures LastOwner(Database, Shortcuts, "vibe") == Some("vibe-coder")
  {
    VibeNoAlias();
    VibeOwner();
    ShortcutWins(Database, "vibe", "vibe");
  }

  lemma VibeNoAlias()
    ensures LastOwner(Database, Aliases, "vibe") == None
  {
    forall m | 0 <= m < |Database| ensures "vibe" !in LowerAll(Items(Database[m], Aliases)) {
      VibeNotAlias(m);
    }
    LastOwnerNone(Database, Aliases, "vibe");
  }

  lemma VibeNotAlias(m: nat)
    requires m < |Database|
    ensures "vibe" !in LowerAll(Items(Database[m], Aliases))
  {
    var k := "vibe";
    Entries();
    if m == 0 {
      AbsentByLength(k, VibeCoder.aliases);
    } else if m == 1 {
      AbsentByLength(k, ReactDev.aliases);
    } else if m == 2 {
      AbsentByLength(k, LaravelDev.aliases);
    } else if m == 3 {
      AbsentByLength(k, SvelteDev.aliases);
    } else if m == 4 {
      AbsentByLength(k, NodeDev.aliases);
    } else {
      AbsentByLength(k, DevOps.aliases);
    }
  }

  lemma VibeOwner()
    ensures LastOwner(Database, Shortcuts, "vibe") == Some("vibe-coder")
  {
    var k := "vibe";
    VibeShortcut();
    forall m | 0 < m < |Database| ensures k !in LowerAll(Items(Database[m], Shortcuts)) {
      VibeNotLater(m);
    }
    LastOwnerIs(Database, Shortcuts, k, 0);
    assert Database[0] == VibeCoder;
  }

  lemma VibeShortcut()
    ensures "vibe" in LowerAll(Items(Database[0], Shortcuts))
  {
    assert Database[0] == VibeCoder;
    VibeCoderListsIt();
  }

  lemma VibeCoderListsIt()
    ensures "vibe" in LowerAll(VibeCoder.shortcuts)
  {
    LowerOfLower("vibe");
    assert LowerAll(VibeCoder.shortcuts)[0] == ToLower(VibeCoder.shortcuts[0]);
  }

  lemma VibeNotLater(m: nat)
    requires 0 < m < |Database|
    ensures "vibe" !in LowerAll(Items(Database[m], Shortcuts))
  {
    var k := "vibe";
    Entries();
    if m == 1 {
      AbsentByLength(k, ReactDev.shortcuts);
    } else if m == 2 {
      AbsentByLength(k, LaravelDev.shortcuts);
    } else if m == 3 {
      AbsentByLength(k, SvelteDev.shortcuts);
    } else if m == 4 {
      AbsentByHead(k, NodeDev.shortcuts);
    } else {
      AbsentByLength(k, DevOps.shortcuts);
    }
  }

  lemma VibeClean()
    ensures Clean("vibe") == "vibe"
  {
    CleanOfPlain("vibe");
  }

  /** `'laravel'` is no alias but the shortcut of `laravel-dev`. */
  lemma LaravelResolves()
    ensures Resolve(Database, "laravel").agent == Some("laravel-dev")
    ensures Resolve(Database, "laravel").strategy == ShortcutMatch
  {
    LaravelClean();
    LaravelCleaned();
  }

  lemma LaravelCleaned()
    ensures ResolveCleaned(Database, "laravel", "laravel").agent == LastOwner(Database, Shortcuts, "laravel")
    ensures ResolveCleaned(Database, "laravel", "laravel").strategy == ShortcutMatch
    ensures LastOwner(Database, Shortcuts, "laravel") == Some("laravel-dev")
  {
    LaravelNoAlias();
    LaravelOwner();
    ShortcutWins(Database, "laravel", "laravel");
  }

  lemma LaravelClean()
    ensures Clean("laravel") == "laravel"
  {
    CleanOfPlain("laravel");
  }

  lemma LaravelNoAlias()
    ensures LastOwner(Database, Aliases, "laravel") == None
  {
    forall m | 0 <= m < |Database| ensures "laravel" !in LowerAll(Items(Database[m], Aliases)) {
      LaravelNotAlias(m);
    }
    LastOwnerNone(Database, Aliases, "laravel");
  }

  lemma LaravelNotAlias(m: nat)
    requires m < |Database|
    ensures "laravel" !in LowerAll(Items(Database[m], Aliases))
  {
    var k := "laravel";
    Entries();
    if m == 0 {
      AbsentByLength(k, VibeCoder.aliases);
    } else if m == 1 {
      AbsentByLength(k, ReactDev.aliases);
    } else if m == 2 {
      AbsentByLength(k, LaravelDev.aliases);
    } else if m == 3 {
      AbsentByLength(k, SvelteDev.aliases);
    } else if m == 4 {
      AbsentByLength(k, NodeDev.aliases);
    } else {
      AbsentByHead(k, DevOps.aliases);
    }
  }

  lemma LaravelOwner()
    ensures LastOwner(Database, Shortcuts, "laravel") == Some("laravel-dev")
  {
    var k := "laravel";
    LaravelShortcut();
    forall m | 2 < m < |Database| ensures k !in LowerAll(Items(Database[m], Shortcuts)) {
      LaravelNotLater(m);
    }
    LastOwnerIs(Database, Shortcuts, k, 2);
    assert Database[2] == LaravelDev;
  }

  lemma LaravelShortcut()
    ensures "laravel" in LowerAll(Items(Database[2], Shortcuts))
  {
    assert Database[2] == LaravelDev;
    LaravelDevListsIt();
  }

  lemma LaravelDevListsIt()
    ensures "laravel" in LowerAll(LaravelDev.shortcuts)
  {
    LowerOfLower("laravel");
    assert LowerAll(LaravelDev.shortcuts)[0] == ToLower(LaravelDev.shortcuts[0]);
  }

  lemma LaravelNotLater(m: nat)
    requires 2 < m < |Database|
    ensures "laravel" !in LowerAll(Items(Database[m], Shortcuts))
  {
    var k := "laravel";
    Entries();
    if m == 3 {
      AbsentByLength(k, SvelteDev.shortcuts);
    } else if m == 4 {
      AbsentByLength(k, NodeDev.shortcuts);
    } else {
      AbsentByLength(k, DevOps.shortcuts);
    }
  }

  /**
   * `'invalid-agent'` is neither an alias nor a shortcut, so the first two
   * rungs of the ladder find nothing for it.
   */
  lemma InvalidAgentNotListed()
    ensures LastOwner(Database, Aliases, "invalid-agent") == None
    ensures LastOwner(Database, Shortcuts, "invalid-agent") == None
  {
    InvalidNotListed("invalid-agent", Aliases);
    InvalidNotListed("invalid-agent", Shortcuts);
  }

  /** Trimming and lower-casing leave `'invalid-agent'` as it is. */
  lemma InvalidClean()
    ensures Clean("invalid-agent") == "invalid-agent"
  {
    CleanOfPlain("invalid-agent");
  }

  lemma InvalidNotListed(clean: string, kind: Kind)
    requires clean == "invalid-agent" && (kind == Aliases || kind == Shortcuts)
    ensures LastOwner(Database, kind, clean) == None
  {
    forall m | 0 <= m < |Database| ensures clean !in LowerAll(Items(Database[m], kind)) {
      InvalidNotListedAt(clean, kind, m);
    }
    LastOwnerNone(Database, kind, clean);
  }

  lemma InvalidNotListedAt(clean: string, kind: Kind, m: nat)
    requires clean == "invalid-agent" && (kind == Aliases || kind == Shortcuts)
    requires m < |Database|
    ensures clean !in LowerAll(Items(Database[m], kind))
  {
    Entries();
    if m == 0 {
      AbsentByLength(clean, Items(VibeCoder, kind));
    } else if m == 1 {
      AbsentByLength(clean, Items(ReactDev, kind));
    } else if m == 2 {
      AbsentByLength(clean, Items(LaravelDev, kind));
    } else if m == 3 {
      AbsentByLength(clean, Items(SvelteDev, kind));
    } else if m == 4 {
      AbsentByLength(clean, Items(NodeDev, kind));
    } else {
      AbsentByLength(clean, Items(DevOps, kind));
    }
  }
}
