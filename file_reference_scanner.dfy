/**
 * file-reference-scanner.js: the `FileReferenceScanner` walks the repository,
 * extracts file references from every file with a list of regular
 * expressions, checks that each referenced file exists and counts the valid
 * and the broken ones; separately it lists the scripts that should have tests
 * and where those tests would be.  The model keeps the path rules, the
 * classification of references by the expression that found them, the line
 * numbers, the counters `scanFile` updates and the issue titles.  Paths are
 * given relative to the scanned root; the file system is a parameter.
 */
module ReferenceScanner {
  import opened Wrappers
  import opened Seqs
  import opened JsString
  import opened NodePath

  const ExcludedExtensions: seq<string> := [
    ".png", ".jpg", ".jpeg", ".gif", ".svg", ".ico",
    ".pdf", ".zip", ".tar", ".gz", ".exe", ".dll",
    ".mp4", ".mp3", ".wav", ".avi"]

  const ExcludedDirectories: seq<string> := [
    "node_modules", ".git", ".npm", "coverage", "dist", "build", ".next", ".cache"]

  // ---------------------------------------------------------------------------------------------
  // shouldSkipFile

  /** The loop over the excluded directory names: one of them occurs in the path as a substring. */
  function MentionsAny(relativePath: string, names: seq<string>): bool
  {
    if names == [] then false
    else Includes(relativePath, names[0]) || MentionsAny(relativePath, names[1..])
  }

  /** `shouldSkipFile`: an excluded directory name anywhere in the path, or an excluded extension. */
  predicate ShouldSkipFile(relativePath: string)
  {
    MentionsAny(relativePath, ExcludedDirectories) || ToLower(Extname(relativePath)) in ExcludedExtensions
  }

  /** The loop finds a name exactly when some name of the list occurs in the path. */
  lemma {:induction false} MentionsAnyIff(relativePath: string, names: seq<string>)
    ensures MentionsAny(relativePath, names) <==> exists k | 0 <= k < |names| :: Includes(relativePath, names[k])
    decreases |names|
  {
    if names != [] {
      MentionsAnyIff(relativePath, names[1..]);
      if exists k | 0 <= k < |names| :: Includes(relativePath, names[k]) {
        var k :| 0 <= k < |names| && Includes(relativePath, names[k]);
        if k > 0 {
          assert names[1..][k - 1] == names[k];
        }
      }
      if exists k | 0 <= k < |names[1..]| :: Includes(relativePath, names[1..][k]) {
        var k :| 0 <= k < |names[1..]| && Includes(relativePath, names[1..][k]);
        assert names[k + 1] == names[1..][k];
      }
    }
  }

  /**
   * A path that contains an excluded name inside a longer one is skipped
   * too: `distribution/...` is skipped because of `dist`.
   */
  lemma SkipsExcludedSubstring(before: string, k: nat, after: string)
    requires k < |ExcludedDirectories|
    ensures ShouldSkipFile(before + ExcludedDirectories[k] + after)
  {
    var p := before + ExcludedDirectories[k] + after;
    IncludesSelf(ExcludedDirectories[k]);
    IncludesConcat(before, ExcludedDirectories[k], after, ExcludedDirectories[k]);
    MentionsAnyIff(p, ExcludedDirectories);
  }

  /** A path is kept only when no excluded name occurs in it and its extension is not excluded. */
  lemma KeptPathsAvoidExclusions(relativePath: string)
    requires !ShouldSkipFile(relativePath)
    ensures forall k | 0 <= k < |ExcludedDirectories| :: !Includes(relativePath, ExcludedDirectories[k])
    ensures ToLower(Extname(relativePath)) !in ExcludedExtensions
  {
    MentionsAnyIff(relativePath, ExcludedDirectories);
  }

  // ---------------------------------------------------------------------------------------------
  // isScriptFile and getExpectedTestPath

  /** `isScriptFile`: a `.js` or `.sh` file, in any letter case, outside tests and tool directories. */
  predicate IsScriptFile(relativePath: string)
  {
    var ext := ToLower(Extname(relativePath));
    if Includes(relativePath, "test") || Includes(relativePath, "spec") then false
    else if Includes(relativePath, "node_modules") || Includes(relativePath, ".git") then false
    else ext == ".js" || ext == ".sh"
  }

  /** No path with `test` in it, e.g. `tests/run.sh` or `latest.js`, needs a test. */
  lemma TestPathsAreNotScripts(before: string, after: string)
    ensures !IsScriptFile(before + "test" + after)
  {
    IncludesSelf("test");
    IncludesConcat(before, "test", after, "test");
  }

  /** A script file has a lower-cased `.js` or `.sh` extension and none of the four excluded words. */
  lemma ScriptFileShape(relativePath: string)
    requires IsScriptFile(relativePath)
    ensures ToLower(Extname(relativePath)) == ".js" || ToLower(Extname(relativePath)) == ".sh"
    ensures !Includes(relativePath, "test") && !Includes(relativePath, "spec")
    ensures !Includes(relativePath, "node_modules") && !Includes(relativePath, ".git")
  {
  }

  /** Each directory prefix followed by the file name. */
  function Candidates(prefixes: seq<string>, name: string): (r: seq<string>)
    ensures |r| == |prefixes|
    ensures forall k | 0 <= k < |r| :: r[k] == prefixes[k] + name
  {
    if prefixes == [] then [] else [prefixes[0] + name] + Candidates(prefixes[1..], name)
  }

  /** `getExpectedTestPath`: the candidate test files for a script, chosen by its exact extension. */
  function GetExpectedTestPath(relativePath: string): seq<string>
  {
    if Extname(relativePath) == ".sh" then
      Candidates(["tests/unit/", "tests/", "test/", Dirname(relativePath) + "/tests/"], Stem(relativePath) + ".bats")
    else if Extname(relativePath) == ".js" then
      Candidates(["tests/unit/", "tests/", "test/", Dirname(relativePath) + "/tests/", Dirname(relativePath) + "/__tests__/"],
        Stem(relativePath) + ".test.js")
    else []
  }

  /**
   * A shell script has four candidate `.bats` files and a JavaScript file
   * five `.test.js` files, all named after the script without its
   * extension; any other file has none.
   */
  lemma TestPathCandidates(relativePath: string)
    ensures var r := GetExpectedTestPath(relativePath);
      && (Extname(relativePath) == ".sh" ==>
        |r| == 4 && forall k | 0 <= k < 4 :: EndsWith(r[k], Stem(relativePath) + ".bats"))
      && (Extname(relativePath) == ".js" ==>
        |r| == 5 && forall k | 0 <= k < 5 :: EndsWith(r[k], Stem(relativePath) + ".test.js"))
      && (Extname(relativePath) != ".sh" && Extname(relativePath) != ".js" ==> r == [])
  {
    var r := GetExpectedTestPath(relativePath);
    if Extname(relativePath) == ".sh" {
      SuffixesOf(r, ["tests/unit/", "tests/", "test/", Dirname(relativePath) + "/tests/"], Stem(relativePath) + ".bats");
    } else if Extname(relativePath) == ".js" {
      SuffixesOf(r, ["tests/unit/", "tests/", "test/", Dirname(relativePath) + "/tests/", Dirname(relativePath) + "/__tests__/"],
        Stem(relativePath) + ".test.js");
    }
  }

  /** Every `prefix + name` ends with `name`. */
  lemma SuffixesOf(r: seq<string>, prefixes: seq<string>, name: string)
    requires r == Candidates(prefixes, name)
    ensures forall k | 0 <= k < |r| :: EndsWith(r[k], name)
  {
    forall k | 0 <= k < |r| ensures EndsWith(r[k], name) {
      var s := prefixes[k] + name;
      assert s[|s| - |name|..] == name;
    }
  }

  /**
   * `isScriptFile` lower-cases the extension but `getExpectedTestPath` does
   * not: a script named `deploy.SH` must have a test yet has no candidate
   * test path, so it is always reported untested.
   */
  lemma UpperCaseScriptHasNoCandidates(relativePath: string)
    requires IsScriptFile(relativePath)
    requires Extname(relativePath) != ".sh" && Extname(relativePath) != ".js"
    ensures GetExpectedTestPath(relativePath) == []
  {
  }

  /** `getExpectedTestPath` choosing by the lower-cased extension, as `isScriptFile` does. */
  function GetExpectedTestPathCorrected(relativePath: string): seq<string>
  {
    var ext := ToLower(Extname(relativePath));
    if ext == ".sh" then
      Candidates(["tests/unit/", "tests/", "test/", Dirname(relativePath) + "/tests/"], Stem(relativePath) + ".bats")
    else if ext == ".js" then
      Candidates(["tests/unit/", "tests/", "test/", Dirname(relativePath) + "/tests/", Dirname(relativePath) + "/__tests__/"],
        Stem(relativePath) + ".test.js")
    else []
  }

  /**
   * With the corrected extension test every script file has candidate test
   * paths, and a script with a lower-case extension keeps the ones it has.
   */
  lemma ScriptFilesHaveCandidates(relativePath: string)
    requires IsScriptFile(relativePath)
    ensures |GetExpectedTestPathCorrected(relativePath)| >= 4
    ensures Extname(relativePath) == ".sh" || Extname(relativePath) == ".js" ==>
      GetExpectedTestPathCorrected(relativePath) == GetExpectedTestPath(relativePath)
  {
    ScriptFileShape(relativePath);
  }

  // ---------------------------------------------------------------------------------------------
  // getLineNumber

  /** The end index `content.substring(0, index)` uses: clamped into the string. */
  function SubstringEnd(index: int, length: nat): (r: nat)
    ensures r <= length && (0 <= index <= length ==> r == index)
  {
    if index < 0 then 0 else if index > length then length else index
  }

  /** `getLineNumber`: the number of pieces of the text before `index` split at line feeds. */
  function GetLineNumber(content: string, index: int): nat
  {
    |Split(content[..SubstringEnd(index, |content|)], '\n')|
  }

  /** Splitting yields one piece more than there are separators. */
  lemma {:induction false} SplitPieces(s: string, sep: char)
    ensures |Split(s, sep)| == 1 + Count(s, sep)
    decreases |s|
  {
    var i := CharIndex(s, sep);
    if i == |s| {
      assert Count(s, sep) == 0;
    } else {
      SplitPieces(s[i + 1..], sep);
      assert s == s[..i] + ([s[i]] + s[i + 1..]);
      CountConcat(s[..i], [s[i]] + s[i + 1..], sep);
      CountConcat([s[i]], s[i + 1..], sep);
      assert sep !in s[..i];
      assert Count([s[i]], sep) == 1 by {
        assert [s[i]][1..] == [];
      }
    }
  }

  /** The line of an index is one more than the line feeds before it. */
  lemma LineNumberCountsNewlines(content: string, index: nat)
    requires index <= |content|
    ensures GetLineNumber(content, index) == 1 + Count(content[..index], '\n')
  {
    SplitPieces(content[..index], '\n');
  }

  /** A later index is never on an earlier line. */
  lemma LineNumberMonotone(content: string, i: nat, j: nat)
    requires i <= j <= |content|
    ensures GetLineNumber(content, i) <= GetLineNumber(content, j)
  {
    LineNumberCountsNewlines(content, i);
    LineNumberCountsNewlines(content, j);
    assert content[..j] == content[..i] + content[i..j];
    CountConcat(content[..i], content[i..j], '\n');
  }

  // ---------------------------------------------------------------------------------------------
  // getReferenceType

  /**
   * The `source` of each of the `REFERENCE_PATTERNS`, in order, written in
   * pieces at the boundaries of the regular expression's parts.
   */
  const MarkdownSource := "\\[([^\\]]*)\\]" + "\\(([^)]+)\\)"
  const LoadSource := "Load:\\s*" + "([^\\s\\n,]+)"
  const AgentSource := "\\.claude\\/agents\\/" + "[^\\s\\n,)]+" + "\\.md"
  const DocumentationSource := "agentic-development\\/" + "[^\\s\\n,)]+"
  const RelativeSource := "\\.\\/" + "[^\\s\\n,)'\"]+" + "\\.(sh|js|md|" + "json|yml|yaml)"
  const ImportSource := "import\\s+" + "[^'\"]*" + "['\"]" + "([^'\"]+)" + "['\"]"
  const RequireSource := "require\\(" + "['\"]" + "([^'\"]+)" + "['\"]" + "\\)"
  const UsesSource := "uses:\\s*['\"" + ".]([^'\"]+)['\"]"
  const EntrySource := "entry:\\s*" + "([^\\s\\n]+)"

  const PatternSources: seq<string> := [
    MarkdownSource, LoadSource, AgentSource, DocumentationSource, RelativeSource,
    ImportSource, RequireSource, UsesSource, EntrySource]

  /** The kind of reference the comment above each pattern names. */
  const PatternTypes: seq<string> := [
    "markdown-link", "load-statement", "agent-file", "documentation", "relative-path",
    "import-statement", "require-statement", "github-action", "pre-commit-hook"]

  /** The texts `getReferenceType` looks for in a pattern's source. */
  const MarkdownProbe := "\\[.*\\]\\("
  const AgentProbe := "\\.claude\\/agents"
  const RelativeProbe := "\\.\\/"

  /**
   * `getReferenceType` as written.  The `;` straight after the relative-path
   * test ends that `if`, so `return 'relative-path'` runs for every source
   * the first four tests do not catch and the later tests are unreachable.
   */
  function ReferenceTypeAsWritten(source: string): (r: string)
    ensures r in ["markdown-link", "load-statement", "agent-file", "documentation", "relative-path"]
  {
    if Includes(source, MarkdownProbe) then "markdown-link"
    else if Includes(source, "Load:") then "load-statement"
    else if Includes(source, AgentProbe) then "agent-file"
    else if Includes(source, "agentic-development") then "documentation"
    else "relative-path"
  }

  /**
   * `getReferenceType` with the stray `;` removed and the markdown test
   * looking for the `\[` the markdown pattern starts with.
   */
  function ReferenceType(source: string): string
  {
    if StartsWith(source, "\\[") then "markdown-link"
    else if Includes(source, "Load:") then "load-statement"
    else if Includes(source, AgentProbe) then "agent-file"
    else if Includes(source, "agentic-development") then "documentation"
    else if Includes(source, RelativeProbe) then "relative-path"
    else if Includes(source, "import") then "import-statement"
    else if Includes(source, "require") then "require-statement"
    else if Includes(source, "uses:") then "github-action"
    else if Includes(source, "entry:") then "pre-commit-hook"
    else "other"
  }

  /** No occurrence can cross from `a` into `b` when an earlier character of `p` is missing from `a` and a later one from `b`. */
  lemma NotIncludesAcross(a: string, b: string, p: string, j: nat, k: nat)
    requires j < k < |p| && p[j] !in a && p[k] !in b
    ensures !Includes(a + b, p)
  {
    var s := a + b;
    forall i | 0 <= i <= |s| ensures !OccursAt(s, p, i) {
      if i + |p| <= |s| {
        assert s[i..i + |p|][j] == s[i + j];
        assert s[i..i + |p|][k] == s[i + k];
        if i + j < |a| {
          assert s[i + j] == a[i + j] && a[i + j] in a;
        } else {
          assert s[i + k] == b[i + k - |a|] && b[i + k - |a|] in b;
        }
      }
    }
  }

  /** A probe with a character the source lacks does not occur in it. */
  lemma Lacks(source: string, probe: string, j: nat, c: char)
    requires j < |probe| && probe[j] == c && c !in source
    ensures !Includes(source, probe)
  {
    NotIncludesChar(source, probe, j);
  }

  /**
   * A source without `.` and `a` holds none of the texts of the first five
   * tests: a markdown probe and a relative-path probe need a `.`, `Load:`,
   * the agent directory and `agentic-development` an `a`.
   */
  lemma NoDotNoA(source: string)
    requires '.' !in source && 'a' !in source
    ensures !Includes(source, MarkdownProbe) && !Includes(source, "Load:") && !Includes(source, AgentProbe)
    ensures !Includes(source, "agentic-development") && !Includes(source, RelativeProbe)
  {
    Lacks(source, MarkdownProbe, 2, '.');
    Lacks(source, "Load:", 2, 'a');
    Lacks(source, AgentProbe, 1, '.');
    Lacks(source, "agentic-development", 0, 'a');
    Lacks(source, RelativeProbe, 1, '.');
  }

  /** A source whose first or second character is neither `\` nor `[` does not start with `\[`. */
  lemma NotMarkdownStart(source: string, c: char)
    requires |source| >= 2 && (source[0] == c || source[1] == c) && c != '\\' && c != '['
    ensures !StartsWith(source, "\\[")
  {
    assert source[..2][0] == source[0] && source[..2][1] == source[1];
  }

  // The characters of each source the type lemmas below rely on.

  lemma MarkdownSourceChars()
    ensures '.' !in MarkdownSource && 'a' !in MarkdownSource && StartsWith(MarkdownSource, "\\[")
  {
  }

  lemma LoadSourceChars()
    ensures '.' !in LoadSource && |LoadSource| >= 2 && LoadSource[0] == 'L' && OccursAt(LoadSource, "Load:", 0)
  {
  }

  lemma AgentSourceChars()
    ensures '*' !in AgentSource && 'L' !in AgentSource
    ensures |AgentSource| >= 2 && AgentSource[1] == '.' && OccursAt(AgentSource, AgentProbe, 0)
  {
  }

  lemma DocumentationSourceChars()
    ensures '.' !in DocumentationSource && 'L' !in DocumentationSource
    ensures |DocumentationSource| >= 2 && DocumentationSource[0] == 'a'
    ensures OccursAt(DocumentationSource, "agentic-development", 0)
  {
  }

  lemma RelativeSourceChars()
    ensures '*' !in RelativeSource && 'L' !in RelativeSource
  {
  }

  lemma RelativeSourceLacksC()
    ensures 'c' !in RelativeSource
  {
  }

  lemma RelativeSourceStart()
    ensures |RelativeSource| >= 2 && RelativeSource[1] == '.' && OccursAt(RelativeSource, RelativeProbe, 0)
  {
  }

  lemma ImportSourceChars()
    ensures '.' !in ImportSource && 'a' !in ImportSource
    ensures |ImportSource| >= 2 && ImportSource[0] == 'i' && OccursAt(ImportSource, "import", 0)
  {
  }

  lemma RequireSourceChars()
    ensures '.' !in RequireSource && 'a' !in RequireSource && 'm' !in RequireSource
    ensures |RequireSource| >= 2 && RequireSource[0] == 'r' && OccursAt(RequireSource, "require", 0)
  {
  }

  lemma UsesSourceChars()
    ensures 'a' !in UsesSource && 'c' !in UsesSource && '/' !in UsesSource && 'i' !in UsesSource
    ensures |UsesSource| >= 2 && UsesSource[0] == 'u' && OccursAt(UsesSource, "uses:", 0)
  {
  }

  lemma EntrySourceChars()
    ensures '.' !in EntrySource && 'a' !in EntrySource && 'i' !in EntrySource && 'u' !in EntrySource
    ensures |EntrySource| >= 2 && EntrySource[0] == 'e' && OccursAt(EntrySource, "entry:", 0)
  {
  }

  lemma MarkdownSourceTypes()
    ensures ReferenceTypeAsWritten(MarkdownSource) == "relative-path"
    ensures ReferenceType(MarkdownSource) == "markdown-link"
  {
    MarkdownSourceChars();
    NoDotNoA(MarkdownSource);
  }

  lemma LoadSourceTypes()
    ensures ReferenceTypeAsWritten(LoadSource) == "load-statement"
    ensures ReferenceType(LoadSource) == "load-statement"
  {
    LoadSourceChars();
    Lacks(LoadSource, MarkdownProbe, 2, '.');
    NotMarkdownStart(LoadSource, 'L');
  }

  lemma AgentSourceTypes()
    ensures ReferenceTypeAsWritten(AgentSource) == "agent-file"
    ensures ReferenceType(AgentSource) == "agent-file"
  {
    AgentSourceChars();
    Lacks(AgentSource, MarkdownProbe, 3, '*');
    Lacks(AgentSource, "Load:", 0, 'L');
    NotMarkdownStart(AgentSource, '.');
  }

  lemma DocumentationSourceTypes()
    ensures ReferenceTypeAsWritten(DocumentationSource) == "documentation"
    ensures ReferenceType(DocumentationSource) == "documentation"
  {
    DocumentationSourceChars();
    Lacks(DocumentationSource, MarkdownProbe, 2, '.');
    Lacks(DocumentationSource, "Load:", 0, 'L');
    Lacks(DocumentationSource, AgentProbe, 1, '.');
    NotMarkdownStart(DocumentationSource, 'a');
  }

  lemma RelativeSourceTypes()
    ensures ReferenceTypeAsWritten(RelativeSource) == "relative-path"
    ensures ReferenceType(RelativeSource) == "relative-path"
  {
    RelativeSourceChars();
    RelativeSourceLacksC();
    RelativeSourceStart();
    Lacks(RelativeSource, MarkdownProbe, 3, '*');
    Lacks(RelativeSource, "Load:", 0, 'L');
    Lacks(RelativeSource, AgentProbe, 2, 'c');
    Lacks(RelativeSource, "agentic-development", 6, 'c');
    NotMarkdownStart(RelativeSource, '.');
  }

  lemma ImportSourceTypes()
    ensures ReferenceTypeAsWritten(ImportSource) == "relative-path"
    ensures ReferenceType(ImportSource) == "import-statement"
  {
    ImportSourceChars();
    NoDotNoA(ImportSource);
    NotMarkdownStart(ImportSource, 'i');
  }

  lemma RequireSourceTypes()
    ensures ReferenceTypeAsWritten(RequireSource) == "relative-path"
    ensures ReferenceType(RequireSource) == "require-statement"
  {
    RequireSourceChars();
    NoDotNoA(RequireSource);
    NotMarkdownStart(RequireSource, 'r');
    Lacks(RequireSource, "import", 1, 'm');
  }

  lemma UsesSourceTypes()
    ensures ReferenceTypeAsWritten(UsesSource) == "relative-path"
    ensures ReferenceType(UsesSource) == "github-action"
  {
    UsesSourceChars();
    // `.` first occurs in the second piece, `*` only in the first.
    NotIncludesAcross("uses:\\s*['\"", ".]([^'\"]+)['\"]", MarkdownProbe, 2, 3);
    Lacks(UsesSource, "Load:", 2, 'a');
    Lacks(UsesSource, AgentProbe, 2, 'c');
    Lacks(UsesSource, "agentic-development", 0, 'a');
    Lacks(UsesSource, RelativeProbe, 3, '/');
    Lacks(UsesSource, "import", 0, 'i');
    Lacks(UsesSource, "require", 4, 'i');
    NotMarkdownStart(UsesSource, 'u');
  }

  lemma EntrySourceTypes()
    ensures ReferenceTypeAsWritten(EntrySource) == "relative-path"
    ensures ReferenceType(EntrySource) == "pre-commit-hook"
  {
    EntrySourceChars();
    NoDotNoA(EntrySource);
    NotMarkdownStart(EntrySource, 'e');
    Lacks(EntrySource, "import", 0, 'i');
    Lacks(EntrySource, "require", 4, 'i');
    Lacks(EntrySource, "uses:", 0, 'u');
  }

  /**
   * As written, the markdown test never fires, because the markdown
   * pattern's source does not contain `\[.*\]\(`, and the four patterns
   * after the relative-path one are typed as relative paths: five of the
   * nine patterns get the wrong type.
   */
  lemma TypesAsWritten()
    ensures forall k | 0 <= k < |PatternSources| ::
      ReferenceTypeAsWritten(PatternSources[k]) == (if 1 <= k <= 3 then PatternTypes[k] else "relative-path")
  {
    forall k | 0 <= k < |PatternSources|
      ensures ReferenceTypeAsWritten(PatternSources[k]) == (if 1 <= k <= 3 then PatternTypes[k] else "relative-path")
    {
      SourceTypes(k);
    }
  }

  /** With the two tests corrected, every pattern gets the type its comment names. */
  lemma TypesCorrected()
    ensures forall k | 0 <= k < |PatternSources| :: ReferenceType(PatternSources[k]) == PatternTypes[k]
  {
    forall k | 0 <= k < |PatternSources| ensures ReferenceType(PatternSources[k]) == PatternTypes[k] {
      SourceTypes(k);
    }
  }

  /** Both types of the `k`th pattern. */
  lemma SourceTypes(k: nat)
    requires k < |PatternSources|
    ensures ReferenceTypeAsWritten(PatternSources[k]) == (if 1 <= k <= 3 then PatternTypes[k] else "relative-path")
    ensures ReferenceType(PatternSources[k]) == PatternTypes[k]
  {
    if k == 0 {
      MarkdownSourceTypes();
    } else if k == 1 {
      LoadSourceTypes();
    } else if k == 2 {
      AgentSourceTypes();
    } else if k == 3 {
      DocumentationSourceTypes();
    } else if k == 4 {
      RelativeSourceTypes();
    } else if k == 5 {
      ImportSourceTypes();
    } else if k == 6 {
      RequireSourceTypes();
    } else if k == 7 {
      UsesSourceTypes();
    } else {
      EntrySourceTypes();
    }
  }

  // ---------------------------------------------------------------------------------------------
  // generateIssueTitle

  /** The reference as an issue title shows it: at most 50 characters. */
  function ShortReference(reference: string): (r: string)
    ensures |r| <= 50
    ensures |reference| <= 50 ==> r == reference
    ensures |reference| > 50 ==> |r| == 50 && r[..47] == reference[..47] && r[47..] == "..."
  {
    if |reference| > 50 then reference[..47] + "..." else reference
  }

  /** `generateIssueTitle` for a broken reference found in `relativeTo`. */
  function GenerateIssueTitle(original: string, relativeTo: string): string
  {
    "Fix broken reference: " + ShortReference(original) + " in " + relativeTo
  }

  /**
   * A title starts with the fixed text, ends with the file and holds the
   * shortened reference in between, so its length is bounded by the file's.
   */
  lemma IssueTitleShape(original: string, relativeTo: string)
    ensures var t := GenerateIssueTitle(original, relativeTo);
      && StartsWith(t, "Fix broken reference: ")
      && EndsWith(t, " in " + relativeTo)
      && t[22..|t| - |relativeTo| - 4] == ShortReference(original)
      && |t| <= 76 + |relativeTo|
  {
    var t := GenerateIssueTitle(original, relativeTo);
    var short := ShortReference(original);
    assert t == "Fix broken reference: " + (short + (" in " + relativeTo));
    assert t[..22] == "Fix broken reference: ";
    assert t[|t| - |relativeTo| - 4..] == " in " + relativeTo;
  }

  /** Two long references that agree on their first 47 characters get the same title. */
  lemma LongReferencesShareTitle(a: string, b: string, relativeTo: string)
    requires |a| > 50 && |b| > 50 && a[..47] == b[..47]
    ensures GenerateIssueTitle(a, relativeTo) == GenerateIssueTitle(b, relativeTo)
  {
    var sa, sb := ShortReference(a), ShortReference(b);
    assert sa == a[..47] + "...";
    assert sb == b[..47] + "...";
  }

  // ---------------------------------------------------------------------------------------------
  // scanFile

  /** A reference found in a file: its text, the path it resolves to, its type and its line. */
  datatype Reference = Reference(original: string, resolved: string, refType: string, line: int)

  /** `{ ...reference, valid, relativeTo }` */
  datatype ReferenceResult = ReferenceResult(reference: Reference, valid: bool, relativeTo: string)

  /** The `fileResult` of one scanned file. */
  datatype FileResult = FileResult(
    path: string, totalReferences: nat, validReferences: nat, invalidReferences: nat,
    references: seq<ReferenceResult>)

  /** The extensions `validateReference` tries on a path that has none. */
  const CommonExtensions: seq<string> := [".md", ".js", ".json", ".sh", ".yml", ".yaml"]

  /** Some extension of the list, appended to `path`, names an existing path. */
  predicate ExistsWithExtension(path: string, extensions: seq<string>, existing: set<string>)
  {
    extensions != [] && (path + extensions[0] in existing || ExistsWithExtension(path, extensions[1..], existing))
  }

  /**
   * `validateReference`, with `existing` the paths `fs.existsSync` finds:
   * the resolved path exists, or it has no extension and one of the common
   * extensions completes it to an existing path.
   */
  predicate ValidateReference(reference: Reference, existing: set<string>)
  {
    reference.resolved in existing
    || (Extname(reference.resolved) == "" && ExistsWithExtension(reference.resolved, CommonExtensions, existing))
  }

  /** The extension search finds exactly the extensions of the list that complete the path. */
  lemma {:induction false} ExistsWithExtensionIff(path: string, extensions: seq<string>, existing: set<string>)
    ensures ExistsWithExtension(path, extensions, existing)
      <==> exists k | 0 <= k < |extensions| :: path + extensions[k] in existing
    decreases |extensions|
  {
    if extensions != [] {
      ExistsWithExtensionIff(path, extensions[1..], existing);
      if exists k | 0 <= k < |extensions| :: path + extensions[k] in existing {
        var k :| 0 <= k < |extensions| && path + extensions[k] in existing;
        if k > 0 {
          assert extensions[1..][k - 1] == extensions[k];
        }
      }
      if exists k | 0 <= k < |extensions[1..]| :: path + extensions[1..][k] in existing {
        var k :| 0 <= k < |extensions[1..]| && path + extensions[1..][k] in existing;
        assert extensions[k + 1] == extensions[1..][k];
      }
    }
  }

  /**
   * A reference is valid exactly when its path exists, or has no extension
   * and exists with one of the common extensions added.
   */
  lemma ValidateReferenceIff(reference: Reference, existing: set<string>)
    ensures ValidateReference(reference, existing) <==>
      || reference.resolved in existing
      || (Extname(reference.resolved) == "" &&
          exists k | 0 <= k < |CommonExtensions| :: reference.resolved + CommonExtensions[k] in existing)
  {
    ExistsWithExtensionIff(reference.resolved, CommonExtensions, existing);
  }

  /** The results for the references of a file, in order. */
  function Results(references: seq<Reference>, existing: set<string>, relativePath: string): (r: seq<ReferenceResult>)
    ensures |r| == |references|
  {
    if references == [] then []
    else
      var last := references[|references| - 1];
      Results(references[..|references| - 1], existing, relativePath) + [ReferenceResult(last, ValidateReference(last, existing), relativePath)]
  }

  /** How many results are valid. */
  function ValidCount(results: seq<ReferenceResult>): (r: nat)
    ensures r <= |results|
  {
    if results == [] then 0
    else ValidCount(results[..|results| - 1]) + (if results[|results| - 1].valid then 1 else 0)
  }

  /** The invalid results, in order. */
  function Broken(results: seq<ReferenceResult>): seq<ReferenceResult>
  {
    if results == [] then []
    else
      var last := results[|results| - 1];
      Broken(results[..|results| - 1]) + (if last.valid then [] else [last])
  }

  /** `counts[key] || 0` */
  function CountOf(counts: map<string, nat>, key: string): nat
  {
    if key in counts then counts[key] else 0
  }

  /** The statistics key of a file: its extension, or `no-extension`. */
  function FileTypeKey(relativePath: string): string
  {
    if Extname(relativePath) == "" then "no-extension" else Extname(relativePath)
  }

  /** `byFileType` after `n` references of one file: its key goes up by `n`, once there is one. */
  function TallyFileType(counts: map<string, nat>, key: string, n: nat): map<string, nat>
  {
    if n == 0 then counts else counts[key := CountOf(counts, key) + n]
  }

  /** `counts[key] = (counts[key] || 0) + 1` */
  function Increment(counts: map<string, nat>, key: string): map<string, nat>
  {
    counts[key := CountOf(counts, key) + 1]
  }

  /** `byReferenceType` after the results: each one adds one to its reference's type. */
  function TallyTypes(counts: map<string, nat>, results: seq<ReferenceResult>): map<string, nat>
  {
    if results == [] then counts
    else Increment(TallyTypes(counts, results[..|results| - 1]), results[|results| - 1].reference.refType)
  }

  /** The types of the results' references, in order. */
  function Types(results: seq<ReferenceResult>): seq<string>
  {
    if results == [] then [] else Types(results[..|results| - 1]) + [results[|results| - 1].reference.refType]
  }

  /** `this.results` of a `FileReferenceScanner`: the counters, the files and the statistics. */
  datatype ScanResults = ScanResults(
    totalReferences: nat, validReferences: nat, invalidReferences: nat,
    files: map<string, FileResult>, brokenReferences: seq<ReferenceResult>,
    byFileType: map<string, nat>, byReferenceType: map<string, nat>)

  /** The results the constructor starts from. */
  const NoResults := ScanResults(0, 0, 0, map[], [], map[], map[])

  /** Every reference counted is valid or invalid, and the broken ones listed are the invalid ones. */
  predicate Consistent(r: ScanResults)
  {
    && r.totalReferences == r.validReferences + r.invalidReferences
    && |r.brokenReferences| == r.invalidReferences
    && forall k | 0 <= k < |r.brokenReferences| :: !r.brokenReferences[k].valid
  }

  /** One iteration of `scanFile`'s loop, for a file whose statistics key is `ext`. */
  function Record(r: ScanResults, result: ReferenceResult, ext: string): ScanResults
  {
    var counted :=
      if result.valid then r.(validReferences := r.validReferences + 1)
      else r.(invalidReferences := r.invalidReferences + 1, brokenReferences := r.brokenReferences + [result]);
    counted.(
      totalReferences := counted.totalReferences + 1,
      byFileType := Increment(counted.byFileType, ext),
      byReferenceType := Increment(counted.byReferenceType, result.reference.refType))
  }

  /** The whole loop over a file's results. */
  function RecordAll(r: ScanResults, results: seq<ReferenceResult>, ext: string): ScanResults
  {
    if results == [] then r
    else Record(RecordAll(r, results[..|results| - 1], ext), results[|results| - 1], ext)
  }

  /** The `fileResult` of a file with these results. */
  function FileResultOf(relativePath: string, results: seq<ReferenceResult>): FileResult
  {
    FileResult(relativePath, |results|, ValidCount(results), |Broken(results)|, results)
  }

  /** Each result records its reference, whether it is valid, and the file it was found in. */
  lemma {:induction false} ResultsRecord(references: seq<Reference>, existing: set<string>, relativePath: string)
    ensures forall k | 0 <= k < |references| ::
      Results(references, existing, relativePath)[k] ==
      ReferenceResult(references[k], ValidateReference(references[k], existing), relativePath)
    decreases |references|
  {
    if references != [] {
      var init := references[..|references| - 1];
      ResultsRecord(init, existing, relativePath);
      assert forall k | 0 <= k < |init| :: init[k] == references[k];
    }
  }

  /** The broken results are the invalid ones, in their order. */
  lemma {:induction false} BrokenAreInvalid(results: seq<ReferenceResult>)
    ensures forall k | 0 <= k < |Broken(results)| :: !Broken(results)[k].valid && Broken(results)[k] in results
    ensures forall k | 0 <= k < |results| :: !results[k].valid ==> results[k] in Broken(results)
    decreases |results|
  {
    if results != [] {
      var init := results[..|results| - 1];
      BrokenAreInvalid(init);
      assert forall k | 0 <= k < |init| :: init[k] == results[k];
    }
  }

  /** Every result is either valid or broken: the two counts add up to the number of results. */
  lemma {:induction false} ValidPlusBroken(results: seq<ReferenceResult>)
    ensures ValidCount(results) + |Broken(results)| == |results|
    decreases |results|
  {
    if results != [] {
      ValidPlusBroken(results[..|results| - 1]);
    }
  }

  /** Each type's count goes up by the number of references of that type. */
  lemma {:induction false} TallyCountsTypes(counts: map<string, nat>, results: seq<ReferenceResult>, t: string)
    ensures CountOf(TallyTypes(counts, results), t) == CountOf(counts, t) + Count(Types(results), t)
    decreases |results|
  {
    if results != [] {
      var init := results[..|results| - 1];
      TallyCountsTypes(counts, init, t);
      assert Types(results) == Types(init) + [results[|results| - 1].reference.refType];
      CountSnoc(Types(init), results[|results| - 1].reference.refType, t);
    }
  }

  /**
   * After the loop over a file's results the total has grown by their
   * number, the valid and invalid counts by the valid and the broken ones,
   * and the broken list by the broken results in order; the files are as
   * they were.
   */
  lemma {:induction false} RecordAllCounts(r: ScanResults, results: seq<ReferenceResult>, ext: string)
    ensures RecordAll(r, results, ext).totalReferences == r.totalReferences + |results|
    ensures RecordAll(r, results, ext).validReferences == r.validReferences + ValidCount(results)
    ensures RecordAll(r, results, ext).invalidReferences == r.invalidReferences + |Broken(results)|
    ensures RecordAll(r, results, ext).brokenReferences == r.brokenReferences + Broken(results)
    ensures RecordAll(r, results, ext).files == r.files
    decreases |results|
  {
    if results != [] {
      RecordAllCounts(r, results[..|results| - 1], ext);
    }
  }

  /** One more reference of a file adds one to its key. */
  lemma TallyFileTypeStep(counts: map<string, nat>, key: string, n: nat)
    ensures TallyFileType(counts, key, n + 1) == Increment(TallyFileType(counts, key, n), key)
  {
    if n > 0 {
      assert CountOf(TallyFileType(counts, key, n), key) == CountOf(counts, key) + n;
    }
  }

  /**
   * After the loop over a file's results its type's count has grown by their
   * number and each reference type's count by the references of that type.
   */
  lemma {:induction false} RecordAllTallies(r: ScanResults, results: seq<ReferenceResult>, ext: string)
    ensures RecordAll(r, results, ext).byFileType == TallyFileType(r.byFileType, ext, |results|)
    ensures RecordAll(r, results, ext).byReferenceType == TallyTypes(r.byReferenceType, results)
    decreases |results|
  {
    if results != [] {
      var init := results[..|results| - 1];
      RecordAllTallies(r, init, ext);
      TallyFileTypeStep(r.byFileType, ext, |init|);
    }
  }

  /** The loop keeps the results consistent. */
  lemma RecordAllConsistent(r: ScanResults, results: seq<ReferenceResult>, ext: string)
    requires Consistent(r)
    ensures Consistent(RecordAll(r, results, ext))
  {
    RecordAllCounts(r, results, ext);
    ValidPlusBroken(results);
    BrokenAreInvalid(results);
    var after := RecordAll(r, results, ext);
    forall k | 0 <= k < |after.brokenReferences| ensures !after.brokenReferences[k].valid {
      if k >= |r.brokenReferences| {
        assert after.brokenReferences[k] == Broken(results)[k - |r.brokenReferences|];
      }
    }
  }

  /** One more reference: one more result, and one more iteration. */
  lemma ResultsStep(references: seq<Reference>, i: nat, existing: set<string>, relativePath: string,
                    before: seq<ReferenceResult>, result: ReferenceResult, r: ScanResults, ext: string)
    requires i < |references|
    requires before == Results(references[..i], existing, relativePath)
    requires result == ReferenceResult(references[i], ValidateReference(references[i], existing), relativePath)
    ensures Results(references[..i + 1], existing, relativePath) == before + [result]
    ensures ValidCount(before + [result]) == ValidCount(before) + (if result.valid then 1 else 0)
    ensures |Broken(before + [result])| == |Broken(before)| + (if result.valid then 0 else 1)
    ensures RecordAll(r, before + [result], ext) == Record(RecordAll(r, before, ext), result, ext)
  {
    assert references[..i + 1][..i] == references[..i];
    assert (before + [result])[..|before|] == before;
  }

  /** The scanner's state: `this.results`. */
  class Scanner {
    var results: ScanResults

    ghost predicate Valid()
      reads this
    {
      Consistent(results)
    }

    constructor()
      ensures Valid() && results == NoResults
    {
      results := ScanResults(0, 0, 0, map[], [], map[], map[]);
    }

    /**
     * `scanFile` for the file at `relativePath`.  `references` is what
     * `extractReferences` found, or `None` when the file cannot be read;
     * `existing` holds the paths that exist.  Each reference is validated,
     * counted and tallied in turn, then the file's result is stored.
     */
    method ScanFile(relativePath: string, references: Option<seq<Reference>>, existing: set<string>)
      requires Valid()
      modifies this
      ensures Valid()
      ensures references.None? ==> results == old(results)
      ensures references.Some? ==>
        var found := Results(references.value, existing, relativePath);
        results == RecordAll(old(results), found, FileTypeKey(relativePath))
          .(files := old(results).files[relativePath := FileResultOf(relativePath, found)])
    {
      if references.None? {
        return;
      }
      var refs := references.value;
      var ext := FileTypeKey(relativePath);
      var fileReferences, fileValid, fileInvalid := AddReferences(relativePath, refs, existing, ext);
      RecordAllCounts(old(results), fileReferences, ext);
      RecordAllConsistent(old(results), fileReferences, ext);
      var fileResult := FileResult(relativePath, |refs|, fileValid, fileInvalid, fileReferences);
      assert fileResult == FileResultOf(relativePath, fileReferences);
      results := results.(files := results.files[relativePath := fileResult]);
    }

    /** The loop of `scanFile`: validates, counts and tallies each reference in turn. */
    method AddReferences(relativePath: string, refs: seq<Reference>, existing: set<string>, ext: string)
      returns (fileReferences: seq<ReferenceResult>, fileValid: nat, fileInvalid: nat)
      modifies this
      ensures fileReferences == Results(refs, existing, relativePath)
      ensures fileValid == ValidCount(fileReferences) && fileInvalid == |Broken(fileReferences)|
      ensures results == RecordAll(old(results), fileReferences, ext)
    {
      fileValid, fileInvalid, fileReferences := 0, 0, [];
      ghost var start := results;
      for i := 0 to |refs|
        invariant fileReferences == Results(refs[..i], existing, relativePath)
        invariant fileValid == ValidCount(fileReferences) && fileInvalid == |Broken(fileReferences)|
        invariant results == RecordAll(start, fileReferences, ext)
      {
        var reference := refs[i];
        var valid := ValidateReference(reference, existing);
        var referenceResult := ReferenceResult(reference, valid, relativePath);
        ResultsStep(refs, i, existing, relativePath, fileReferences, referenceResult, start, ext);
        fileReferences := fileReferences + [referenceResult];
        if valid {
          fileValid := fileValid + 1;
          results := results.(validReferences := results.validReferences + 1);
        } else {
          fileInvalid := fileInvalid + 1;
          results := results.(invalidReferences := results.invalidReferences + 1,
                              brokenReferences := results.brokenReferences + [referenceResult]);
        }
        results := results.(totalReferences := results.totalReferences + 1);
        results := results.(byFileType := Increment(results.byFileType, ext),
                            byReferenceType := Increment(results.byReferenceType, reference.refType));
      }
      assert refs[..|refs|] == refs;
    }
  }
}
