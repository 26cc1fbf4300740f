/**
 * generate-doc-tree.js: walks the project from its root and writes a
 * markdown page holding the directory tree of the documentation and
 * configuration files, with summary statistics.  The model keeps the
 * configured filters, the pruned and sorted tree `generateDirectoryTree`
 * builds from a file-system snapshot, the text `generateMarkdownTree`
 * renders and the counts `generateSummaryStats` gathers.
 */
module DocTree {
  import opened Wrappers
  import opened Seqs
  import opened JsString
  import opened NodePath

  // ---------------------------------------------------------------------------------------------
  // CONFIG

  /** `CONFIG.maxDepth`: the deepest directory level that is listed; the root is level 0. */
  const MaxDepth: nat := 4

  /** `CONFIG.excludeDirs` */
  const ExcludeDirs: seq<string> := ["node_modules", ".git", ".github", "dist", "build", "coverage", "logs"]

  /** `CONFIG.excludeFiles`: names compared whole, and `*` patterns. */
  const ExcludeFiles: seq<string> := [".DS_Store", "Thumbs.db", "*.log", "*.tmp"]

  /** `CONFIG.includeFileTypes`: the extensions, lower-cased, of the files listed. */
  const IncludeFileTypes: seq<string> := [".md", ".json", ".js", ".ts", ".yml", ".yaml", ".sh"]

  // ---------------------------------------------------------------------------------------------
  // shouldIncludeDir

  /** `shouldIncludeDir(dirName)`: not a configured name and not hidden. */
  predicate ShouldIncludeDir(dirName: string)
  {
    dirName !in ExcludeDirs && !StartsWith(dirName, ".")
  }

  /**
   * A directory is left out exactly when its name starts with `.` or is one
   * of the five visible configured names: `.git` and `.github` are already
   * hidden.
   */
  lemma ShouldIncludeDirIff(dirName: string)
    ensures ShouldIncludeDir(dirName) <==>
      && (dirName == [] || dirName[0] != '.')
      && dirName !in ["node_modules", "dist", "build", "coverage", "logs"]
  {
    if dirName != [] && dirName[0] == '.' {
      assert dirName[..1] == ".";
    }
    if dirName == ".git" || dirName == ".github" {
      assert dirName[0] == '.';
    }
  }

  /** The name a root without a basename gets is not excluded. */
  lemma RootNameIncluded()
    ensures ShouldIncludeDir("root")
  {
    var name := "root";
    assert name[0] == 'r';
    assert name != ExcludeDirs[0] && name != ExcludeDirs[1] && name != ExcludeDirs[2];
  }

  // ---------------------------------------------------------------------------------------------
  // shouldIncludeFile, as written

  /** The characters a regular expression's `.` does not match. */
  predicate LineTerminator(c: char)
  {
    c == '\n' || c == '\r' || c == '\U{2028}' || c == '\U{2029}'
  }

  /** `pattern.replace(..., '.*')`: every `*` becomes `.*`. */
  function WildcardSource(pattern: string): (r: string)
    ensures r == [] || r[0] != '*'
  {
    if pattern == [] then []
    else (if pattern[0] == '*' then ".*" else [pattern[0]]) + WildcardSource(pattern[1..])
  }

  /** One element of a regular expression built from a `*` pattern. */
  datatype Token = AnyChar | AnyRun | Literal(c: char)

  /**
   * What `new RegExp(source)` reads from a source made of plain characters,
   * `.` and `.*`: `.*` is any run of characters, `.` any one character and
   * every other character itself.
   */
  function Parse(source: string): seq<Token>
  {
    if source == [] then []
    else if source[0] == '.' && |source| > 1 && source[1] == '*' then [AnyRun] + Parse(source[2..])
    else if source[0] == '.' then [AnyChar] + Parse(source[1..])
    else [Literal(source[0])] + Parse(source[1..])
  }

  /** A pattern read character by character: `*` any run, `.` any character, the rest itself. */
  function Tokens(pattern: string): seq<Token>
  {
    if pattern == [] then []
    else
      [if pattern[0] == '*' then AnyRun else if pattern[0] == '.' then AnyChar else Literal(pattern[0])]
      + Tokens(pattern[1..])
  }

  /**
   * The regular expression built from a pattern reads every `*` as any run
   * and every `.` as any character: the `.` of `*.log` is not escaped.
   */
  lemma {:induction false} ParseWildcard(pattern: string)
    ensures Parse(WildcardSource(pattern)) == Tokens(pattern)
  {
    if pattern != [] {
      ParseWildcard(pattern[1..]);
      var rest := WildcardSource(pattern[1..]);
      var source := WildcardSource(pattern);
      if pattern[0] == '*' {
        assert source == ".*" + rest;
        assert source[2..] == rest;
      } else {
        assert source == [pattern[0]] + rest;
        assert source[1..] == rest;
      }
    }
  }

  /** The tokens match a prefix of `s`; the regular expression backtracks through every split. */
  predicate MatchHere(tokens: seq<Token>, s: string)
    decreases |tokens|, |s|
  {
    if tokens == [] then true
    else match tokens[0]
      case Literal(c) => |s| > 0 && s[0] == c && MatchHere(tokens[1..], s[1..])
      case AnyChar => |s| > 0 && !LineTerminator(s[0]) && MatchHere(tokens[1..], s[1..])
      case AnyRun => MatchHere(tokens[1..], s) || (|s| > 0 && !LineTerminator(s[0]) && MatchHere(tokens, s[1..]))
  }

  /** `regex.test(s)`: the expression is not anchored, so it may match anywhere in `s`. */
  predicate Search(tokens: seq<Token>, s: string)
  {
    MatchHere(tokens, s) || (|s| > 0 && Search(tokens, s[1..]))
  }

  /** One exclude pattern as `shouldIncludeFile` applies it. */
  predicate ExcludedAsWritten(pattern: string, fileName: string)
  {
    if '*' in pattern then Search(Parse(WildcardSource(pattern)), fileName) else fileName == pattern
  }

  /** `excludeFiles.some(...)` as written. */
  predicate SomeExcludesAsWritten(patterns: seq<string>, fileName: string)
  {
    patterns != [] && (ExcludedAsWritten(patterns[0], fileName) || SomeExcludesAsWritten(patterns[1..], fileName))
  }

  /** `shouldIncludeFile(fileName)` as written. */
  predicate ShouldIncludeFileAsWritten(fileName: string)
  {
    ToLower(Extname(fileName)) in IncludeFileTypes && !SomeExcludesAsWritten(ExcludeFiles, fileName)
  }

  /** A match at offset `j` is a match of the search. */
  lemma {:induction false} SearchAt(tokens: seq<Token>, s: string, j: nat)
    requires j <= |s| && MatchHere(tokens, s[j..])
    ensures Search(tokens, s)
  {
    if j > 0 {
      assert s[1..][j - 1..] == s[j..];
      SearchAt(tokens, s[1..], j - 1);
    }
  }

  /** Literal tokens match a prefix spelling them out. */
  lemma {:induction false} MatchLiterals(p: string, s: string)
    requires '*' !in p && '.' !in p && StartsWith(s, p)
    ensures MatchHere(Tokens(p), s)
  {
    if p != [] {
      assert s[0] == p[0];
      assert s[1..][..|p| - 1] == p[1..];
      MatchLiterals(p[1..], s[1..]);
    }
  }

  /**
   * As written, the pattern `*.` + `ext` excludes every name holding `ext`
   * after some character other than a line terminator, wherever it stands.
   */
  lemma WildcardMatchesInside(ext: string, fileName: string, i: nat)
    requires '*' !in ext && '.' !in ext
    requires 1 <= i && i + |ext| <= |fileName| && fileName[i..i + |ext|] == ext
    requires !LineTerminator(fileName[i - 1])
    ensures ExcludedAsWritten("*." + ext, fileName)
  {
    var pattern := "*." + ext;
    assert pattern[0] == '*';
    ParseWildcard(pattern);
    assert pattern[1..][1..] == ext;
    var tokens := Tokens(pattern);
    assert tokens == [AnyRun, AnyChar] + Tokens(ext);
    var s := fileName[i - 1..];
    assert s[1..] == fileName[i..];
    assert s[1..][..|ext|] == ext;
    MatchLiterals(ext, s[1..]);
    assert tokens[1..][1..] == Tokens(ext);
    assert MatchHere(tokens[1..], s);
    SearchAt(tokens, fileName, i - 1);
  }

  /** The patterns exclude a name when one of them does. */
  lemma {:induction false} SomeExcludesAsWrittenAt(patterns: seq<string>, k: nat, fileName: string)
    requires k < |patterns| && ExcludedAsWritten(patterns[k], fileName)
    ensures SomeExcludesAsWritten(patterns, fileName)
  {
    if k > 0 {
      SomeExcludesAsWrittenAt(patterns[1..], k - 1, fileName);
    }
  }

  /**
   * As written, a name holding `log` after one more character is never
   * listed, whatever its extension: `blog.md`, `catalog.json`.
   */
  lemma LogInsideExcludedAsWritten(fileName: string, i: nat)
    requires 1 <= i && i + 3 <= |fileName| && fileName[i..i + 3] == "log"
    requires !LineTerminator(fileName[i - 1])
    ensures !ShouldIncludeFileAsWritten(fileName)
  {
    var log := "log";
    assert log[0] == 'l' && log[1] == 'o' && log[2] == 'g';
    WildcardMatchesInside(log, fileName, i);
    assert ExcludeFiles[2] == "*." + log;
    SomeExcludesAsWrittenAt(ExcludeFiles, 2, fileName);
  }

  // ---------------------------------------------------------------------------------------------
  // shouldIncludeFile, as intended

  /** A glob over the whole name: `*` matches any run of characters and every other character itself. */
  predicate Glob(pattern: string, s: string)
    decreases |pattern|, |s|
  {
    if pattern == [] then s == []
    else if pattern[0] == '*' then Glob(pattern[1..], s) || (|s| > 0 && Glob(pattern, s[1..]))
    else |s| > 0 && s[0] == pattern[0] && Glob(pattern[1..], s[1..])
  }

  /** `excludeFiles.some(...)` with each pattern read as a glob. */
  predicate SomeExcludes(patterns: seq<string>, fileName: string)
  {
    patterns != [] && (Glob(patterns[0], fileName) || SomeExcludes(patterns[1..], fileName))
  }

  /** `shouldIncludeFile(fileName)` as intended: an included extension and no exclude glob matching. */
  predicate ShouldIncludeFile(fileName: string)
  {
    ToLower(Extname(fileName)) in IncludeFileTypes && !SomeExcludes(ExcludeFiles, fileName)
  }

  /** A glob without `*` matches its own text only. */
  lemma {:induction false} GlobLiteral(pattern: string, s: string)
    requires '*' !in pattern
    ensures Glob(pattern, s) <==> s == pattern
  {
    if pattern != [] && |s| > 0 {
      GlobLiteral(pattern[1..], s[1..]);
      if s[0] == pattern[0] && s[1..] == pattern[1..] {
        assert s == [s[0]] + s[1..];
        assert pattern == [pattern[0]] + pattern[1..];
      }
    }
  }

  /** A glob `*` + `suffix` matches exactly the names ending with `suffix`. */
  lemma {:induction false} GlobSuffix(suffix: string, s: string)
    requires '*' !in suffix
    ensures Glob("*" + suffix, s) <==> EndsWith(s, suffix)
    decreases |s|
  {
    var pattern := "*" + suffix;
    assert pattern[0] == '*' && pattern[1..] == suffix;
    GlobLiteral(suffix, s);
    if |s| > 0 {
      GlobSuffix(suffix, s[1..]);
      if |s| > |suffix| {
        assert s[1..][|s| - 1 - |suffix|..] == s[|s| - |suffix|..];
      }
    }
  }

  /** The characters of the configured patterns that the rules below need. */
  lemma ExcludeFilesShape()
    ensures ExcludeFiles[0] == ".DS_Store" && '*' !in ExcludeFiles[0]
    ensures ExcludeFiles[1] == "Thumbs.db" && '*' !in ExcludeFiles[1]
    ensures ExcludeFiles[2] == "*" + ".log" && '*' !in ".log"
    ensures ExcludeFiles[3] == "*" + ".tmp" && '*' !in ".tmp"
  {
  }

  /**
   * As intended, a file is listed exactly when its lower-cased extension is
   * included, it is neither `.DS_Store` nor `Thumbs.db` and its name ends
   * with neither `.log` nor `.tmp`.
   */
  lemma ShouldIncludeFileIff(fileName: string)
    ensures ShouldIncludeFile(fileName) <==>
      && ToLower(Extname(fileName)) in IncludeFileTypes
      && fileName != ".DS_Store" && fileName != "Thumbs.db"
      && !EndsWith(fileName, ".log") && !EndsWith(fileName, ".tmp")
  {
    ExcludeFilesShape();
    ExcludesFour(".DS_Store", "Thumbs.db", ".log", ".tmp", fileName);
  }

  /** Two whole names and two `*` suffixes exclude the names they spell or end with. */
  lemma ExcludesFour(a: string, b: string, c: string, d: string, fileName: string)
    requires '*' !in a && '*' !in b && '*' !in c && '*' !in d
    ensures SomeExcludes([a, b, "*" + c, "*" + d], fileName) <==>
      fileName == a || fileName == b || EndsWith(fileName, c) || EndsWith(fileName, d)
  {
    var p := [a, b, "*" + c, "*" + d];
    assert p[1..] == [b, "*" + c, "*" + d];
    assert p[1..][1..] == ["*" + c, "*" + d];
    assert p[1..][1..][1..] == ["*" + d];
    assert p[1..][1..][1..][1..] == [];
    assert SomeExcludes(p[1..][1..][1..], fileName) == Glob("*" + d, fileName);
    assert SomeExcludes(p[1..][1..], fileName) == (Glob("*" + c, fileName) || Glob("*" + d, fileName));
    assert SomeExcludes(p, fileName) ==
      (Glob(a, fileName) || Glob(b, fileName) || Glob("*" + c, fileName) || Glob("*" + d, fileName));
    GlobLiteral(a, fileName);
    GlobLiteral(b, fileName);
    GlobSuffix(c, fileName);
    GlobSuffix(d, fileName);
  }

  /** The extension of a plain name is the text from its last `.`, when that is not its first character. */
  lemma ExtnameOfName(name: string, d: nat)
    requires '/' !in name && name != ".." && 0 < d < |name| && name[d] == '.'
    requires forall j | d < j < |name| :: name[j] != '.'
    ensures Extname(name) == name[d..]
  {
    var t := TrimTrailingSlashes(name);
    assert name[|name| - 1] != '/';
    assert t == name;
    assert LastCharIndex(name, '/') == -1;
    assert Basename(name) == name;
    assert LastCharIndex(name, '.') == d;
  }

  /**
   * `blog.md`: a markdown file the page should list.  As written, `*.log`
   * excludes it; as intended, it is listed.
   */
  lemma BlogDiscrepancy()
    ensures !ShouldIncludeFileAsWritten("blog.md")
    ensures ShouldIncludeFile("blog.md")
  {
    BlogExcludedAsWritten();
    BlogIncluded();
  }

  lemma BlogExcludedAsWritten()
    ensures !ShouldIncludeFileAsWritten("blog.md")
  {
    var name := "blog.md";
    assert name[1..4] == "log" && !LineTerminator(name[0]);
    LogInsideExcludedAsWritten(name, 1);
  }

  lemma BlogIncluded()
    ensures ShouldIncludeFile("blog.md")
  {
    var name := "blog.md";
    BlogExtension();
    assert name[3..] != ".log" && name[3..] != ".tmp";
    ShouldIncludeFileIff(name);
  }

  lemma BlogExtension()
    ensures ToLower(Extname("blog.md")) in IncludeFileTypes
    ensures "blog.md" != ".DS_Store" && "blog.md" != "Thumbs.db"
  {
    var name := "blog.md";
    ExtnameOfName(name, 4);
    var md := ".md";
    assert Extname(name) == md;
    assert md == ['.', 'm', 'd'];
    LowerUnchanged('.', 'm', 'd');
    assert IncludeFileTypes[0] == md;
  }

  /** Three characters without upper-case letters are their own lower case. */
  lemma LowerUnchanged(a: char, b: char, c: char)
    requires !('A' <= a <= 'Z') && !('A' <= b <= 'Z') && !('A' <= c <= 'Z')
    ensures ToLower([a, b, c]) == [a, b, c]
  {
    var r := ToLower([a, b, c]);
    assert r[0] == a && r[1] == b && r[2] == c;
  }

  // ---------------------------------------------------------------------------------------------
  // The file system and the tree

  /**
   * What the file system holds at a path, as `fs.readdir` and `fs.stat` see
   * it: a file with its size already formatted and its modification date, a
   * directory whose listing can or cannot be read, or an entry `fs.stat`
   * fails on.
   */
  datatype FsEntry =
    | FsFile(name: string, size: string, modified: string)
    | FsDir(name: string, readable: bool, entries: seq<FsEntry>)
    | Unstatable(name: string)

  /** A node of the tree `generateDirectoryTree` returns. */
  datatype Node =
    | Dir(name: string, children: seq<Node>)
    | File(name: string, icon: string, size: string, modified: string)

  /** `getFileIcon(fileName)`: the icon of the lower-cased extension, a page by default. */
  function GetFileIcon(fileName: string): string
  {
    var ext := ToLower(Extname(fileName));
    if ext in Icons then Icons[ext] else "\U{1F4C4}"
  }

  /** The `iconMap` of `getFileIcon`. */
  const Icons: map<string, string> := map[
    ".md" := "\U{1F4C4}", ".json" := "\U{1F527}", ".js" := "\U{26A1}", ".ts" := "\U{1F499}",
    ".yml" := "\U{2699}\U{FE0F}", ".yaml" := "\U{2699}\U{FE0F}", ".sh" := "\U{1F528}",
    ".py" := "\U{1F40D}", ".php" := "\U{1F418}", ".html" := "\U{1F310}", ".css" := "\U{1F3A8}",
    ".scss" := "\U{1F485}", ".vue" := "\U{1F49A}", ".svelte" := "\U{1F9E1}", ".react" := "\U{269B}\U{FE0F}"]

  /** `generateFileEntry`: the node of a file whose `fs.stat` succeeded. */
  function FileEntry(e: FsEntry): Node
    requires e.FsFile?
  {
    File(e.name, GetFileIcon(e.name), e.size, e.modified)
  }

  // ---------------------------------------------------------------------------------------------
  // Sorting the entries

  /** `a.localeCompare(b) <= 0`, read as the order of character codes. */
  predicate NameLessEq(a: string, b: string)
  {
    if a == [] then true
    else if b == [] then false
    else if a[0] != b[0] then a[0] < b[0]
    else NameLessEq(a[1..], b[1..])
  }

  lemma {:induction false} NameTotal(a: string, b: string)
    ensures NameLessEq(a, b) || NameLessEq(b, a)
  {
    if a != [] && b != [] && a[0] == b[0] {
      NameTotal(a[1..], b[1..]);
    }
  }

  lemma {:induction false} NameTransitive(a: string, b: string, c: string)
    requires NameLessEq(a, b) && NameLessEq(b, c)
    ensures NameLessEq(a, c)
  {
    if a != [] && b != [] && c != [] && a[0] == b[0] && b[0] == c[0] {
      NameTransitive(a[1..], b[1..], c[1..]);
    }
  }

  /** What the comparator of `sortedEntries.sort` looks at. */
  datatype Key = Key(isDirectory: bool, name: string)

  /** The comparator's order: directories before files, each group by name. */
  predicate KeyLessEq(a: Key, b: Key)
  {
    if a.isDirectory != b.isDirectory then a.isDirectory else NameLessEq(a.name, b.name)
  }

  lemma KeyTotal(a: Key, b: Key)
    ensures KeyLessEq(a, b) || KeyLessEq(b, a)
  {
    NameTotal(a.name, b.name);
  }

  lemma KeyTransitive(a: Key, b: Key, c: Key)
    requires KeyLessEq(a, b) && KeyLessEq(b, c)
    ensures KeyLessEq(a, c)
  {
    if a.isDirectory == b.isDirectory == c.isDirectory {
      NameTransitive(a.name, b.name, c.name);
    }
  }

  function EntryKey(e: FsEntry): Key
  {
    Key(e.FsDir?, e.name)
  }

  predicate EntriesAscending(s: seq<FsEntry>)
  {
    forall i, j | 0 <= i < j < |s| :: KeyLessEq(EntryKey(s[i]), EntryKey(s[j]))
  }

  /** Places `x`, the latest entry, after every entry that does not come after it. */
  function InsertEntry(ys: seq<FsEntry>, x: FsEntry): (r: seq<FsEntry>)
    requires EntriesAscending(ys)
    ensures EntriesAscending(r) && multiset(r) == multiset(ys) + multiset{x} && |r| == |ys| + 1
  {
    if ys == [] || KeyLessEq(EntryKey(ys[|ys| - 1]), EntryKey(x)) then
      forall i | 0 <= i < |ys| ensures KeyLessEq(EntryKey(ys[i]), EntryKey(x)) {
        if i < |ys| - 1 {
          KeyTransitive(EntryKey(ys[i]), EntryKey(ys[|ys| - 1]), EntryKey(x));
        }
      }
      ys + [x]
    else
      var init, last := ys[..|ys| - 1], ys[|ys| - 1];
      assert ys == init + [last];
      var r' := InsertEntry(init, x);
      KeyTotal(EntryKey(last), EntryKey(x));
      forall i | 0 <= i < |r'| ensures KeyLessEq(EntryKey(r'[i]), EntryKey(last)) {
        assert r'[i] in multiset(r');
        if r'[i] != x {
          assert r'[i] in init;
        }
      }
      r' + [last]
  }

  /**
   * `sortedEntries.sort(...)`: directories first, then files, each group by
   * name; a stable sort, and the same entries.
   */
  function SortEntries(xs: seq<FsEntry>): (r: seq<FsEntry>)
    ensures EntriesAscending(r) && multiset(r) == multiset(xs) && |r| == |xs|
  {
    if xs == [] then []
    else
      assert xs == xs[..|xs| - 1] + [xs[|xs| - 1]];
      InsertEntry(SortEntries(xs[..|xs| - 1]), xs[|xs| - 1])
  }

  /** An entry `fs.stat` succeeds on. */
  predicate Statable(e: FsEntry)
  {
    !e.Unstatable?
  }

  /** The entries listed in a directory, each smaller than it. */
  ghost predicate EntriesBelow(parent: FsEntry, s: seq<FsEntry>)
  {
    forall i | 0 <= i < |s| :: s[i] < parent
  }

  /** The sorted entries of a directory come from its listing. */
  lemma SortedBelow(e: FsEntry)
    requires e.FsDir?
    ensures EntriesBelow(e, SortEntries(Filter(e.entries, Statable)))
  {
    var statable := Filter(e.entries, Statable);
    var sorted := SortEntries(statable);
    forall i | 0 <= i < |sorted| ensures sorted[i] < e {
      assert sorted[i] in multiset(statable);
      assert sorted[i] in e.entries;
    }
  }

  // ---------------------------------------------------------------------------------------------
  // generateDirectoryTree

  /**
   * The tree of the entry `e` at `depth`, `None` standing for `null`: past
   * the maximum depth, for what cannot be listed, for an excluded directory
   * below the root, and for a directory left without children.
   */
  function Tree(e: FsEntry, depth: nat): Option<Node>
    decreases e, 1
  {
    if depth > MaxDepth || !e.FsDir? || !e.readable then None
    else if !ShouldIncludeDir(e.name) && depth > 0 then None
    else
      var sorted := SortEntries(Filter(e.entries, Statable));
      SortedBelow(e);
      var children := Children(e, sorted, depth);
      if children == [] then None else Some(Dir(if e.name == "" then "root" else e.name, children))
  }

  /** The children the loop over the sorted entries of `parent`, at `depth`, pushes. */
  function Children(parent: FsEntry, sorted: seq<FsEntry>, depth: nat): seq<Node>
    requires EntriesBelow(parent, sorted)
    decreases parent, 0, |sorted|
  {
    if sorted == [] then []
    else Children(parent, sorted[..|sorted| - 1], depth) + Child(sorted[|sorted| - 1], depth)
  }

  /** What one entry adds: its sub-tree when there is one, or its file node when the file is listed. */
  function Child(entry: FsEntry, depth: nat): seq<Node>
    decreases entry, 2
  {
    if entry.FsDir? then
      match Tree(entry, depth + 1)
      case Some(subTree) => [subTree]
      case None => []
    else if entry.FsFile? && ShouldIncludeFileAsWritten(entry.name) then [FileEntry(entry)]
    else []
  }

  lemma ChildrenStep(parent: FsEntry, sorted: seq<FsEntry>, i: nat, depth: nat)
    requires EntriesBelow(parent, sorted) && i < |sorted|
    ensures Children(parent, sorted[..i + 1], depth) == Children(parent, sorted[..i], depth) + Child(sorted[i], depth)
  {
    assert sorted[..i + 1][..i] == sorted[..i];
  }

  /** The first loop of `generateDirectoryTree`: the entries `fs.stat` succeeds on, in listing order. */
  method StatEntries(entries: seq<FsEntry>) returns (statable: seq<FsEntry>)
    ensures statable == Filter(entries, Statable)
    ensures forall x :: x in statable <==> x in entries && !x.Unstatable?
  {
    statable := [];
    for i := 0 to |entries|
      invariant statable == Filter(entries[..i], Statable)
    {
      assert entries[..i + 1][..i] == entries[..i];
      if !entries[i].Unstatable? {
        statable := statable + [entries[i]];
      }
    }
    assert entries[..|entries|] == entries;
  }

  /** `generateDirectoryTree(dirPath, basePath, depth)` over a snapshot of the file system. */
  method GenerateDirectoryTree(e: FsEntry, depth: nat) returns (tree: Option<Node>)
    ensures tree == Tree(e, depth)
    decreases e, 1
  {
    if depth > MaxDepth || !e.FsDir? || !e.readable {
      return None;
    }
    if !ShouldIncludeDir(e.name) && depth > 0 {
      return None;
    }
    var statable := StatEntries(e.entries);
    var sorted := SortEntries(statable);
    SortedBelow(e);
    var children := ProcessEntries(e, sorted, depth);
    tree := if children == [] then None else Some(Dir(if e.name == "" then "root" else e.name, children));
  }

  /** The second loop of `generateDirectoryTree`: the sub-trees and the listed files, in sorted order. */
  method ProcessEntries(parent: FsEntry, sorted: seq<FsEntry>, depth: nat) returns (children: seq<Node>)
    requires EntriesBelow(parent, sorted)
    ensures children == Children(parent, sorted, depth)
    decreases parent, 0
  {
    children := [];
    for i := 0 to |sorted|
      invariant children == Children(parent, sorted[..i], depth)
    {
      var entry := sorted[i];
      ChildrenStep(parent, sorted, i, depth);
      if entry.FsDir? {
        var subTree := GenerateDirectoryTree(entry, depth + 1);
        if subTree.Some? {
          children := children + [subTree.value];
        }
      } else if entry.FsFile? && ShouldIncludeFileAsWritten(entry.name) {
        children := children + [FileEntry(entry)];
      }
    }
    assert sorted[..|sorted|] == sorted;
  }

  // ---------------------------------------------------------------------------------------------
  // What a generated tree looks like

  /**
   * Every directory of the tree is at most `MaxDepth` deep, has children and
   * is included unless it is the root; every file is listed by
   * `ShouldIncludeFileAsWritten`, the filter the program runs.
   */
  predicate Pruned(n: Node, depth: nat)
    decreases n
  {
    match n
    case File(name, _, _, _) => ShouldIncludeFileAsWritten(name)
    case Dir(name, children) =>
      && depth <= MaxDepth && children != []
      && (depth > 0 ==> ShouldIncludeDir(name))
      && forall i | 0 <= i < |children| :: Pruned(children[i], depth + 1)
  }

  /** `generateDirectoryTree` returns `null` or a pruned tree. */
  lemma {:induction false} TreeIsPruned(e: FsEntry, depth: nat)
    requires Tree(e, depth).Some?
    ensures Pruned(Tree(e, depth).value, depth)
    decreases e, 1
  {
    var sorted := SortEntries(Filter(e.entries, Statable));
    SortedBelow(e);
    ChildrenArePruned(e, sorted, depth);
    if e.name == "" {
      RootNameIncluded();
    }
  }

  lemma {:induction false} ChildrenArePruned(parent: FsEntry, sorted: seq<FsEntry>, depth: nat)
    requires EntriesBelow(parent, sorted)
    ensures forall i | 0 <= i < |Children(parent, sorted, depth)| :: Pruned(Children(parent, sorted, depth)[i], depth + 1)
    decreases parent, 0, |sorted|
  {
    if sorted != [] {
      var init, last := sorted[..|sorted| - 1], sorted[|sorted| - 1];
      ChildrenArePruned(parent, init, depth);
      ChildPruned(last, depth);
      var before, added := Children(parent, init, depth), Child(last, depth);
      assert Children(parent, sorted, depth) == before + added;
      forall k | 0 <= k < |before + added| ensures Pruned((before + added)[k], depth + 1) {
        if k >= |before| {
          assert (before + added)[k] == added[k - |before|];
        }
      }
    }
  }

  lemma ChildPruned(entry: FsEntry, depth: nat)
    ensures forall k | 0 <= k < |Child(entry, depth)| :: Pruned(Child(entry, depth)[k], depth + 1)
    decreases entry, 2
  {
    if entry.FsDir? {
      var subTree := Tree(entry, depth + 1);
      DirChild(entry, depth);
      if subTree.Some? {
        TreeIsPruned(entry, depth + 1);
        SinglePruned(subTree.value, depth + 1);
      }
    } else {
      FileChild(entry, depth);
      if entry.FsFile? && ShouldIncludeFileAsWritten(entry.name) {
        FilePruned(entry, depth + 1);
        SinglePruned(FileEntry(entry), depth + 1);
      }
    }
  }

  lemma DirChild(entry: FsEntry, depth: nat)
    requires entry.FsDir?
    ensures Child(entry, depth) == if Tree(entry, depth + 1).Some? then [Tree(entry, depth + 1).value] else []
  {
  }

  lemma FileChild(entry: FsEntry, depth: nat)
    requires !entry.FsDir?
    ensures Child(entry, depth) == if entry.FsFile? && ShouldIncludeFileAsWritten(entry.name) then [FileEntry(entry)] else []
  {
  }

  lemma SinglePruned(n: Node, depth: nat)
    requires Pruned(n, depth)
    ensures forall k | 0 <= k < |[n]| :: Pruned([n][k], depth)
  {
  }

  lemma FilePruned(entry: FsEntry, depth: nat)
    requires entry.FsFile? && ShouldIncludeFileAsWritten(entry.name)
    ensures Pruned(FileEntry(entry), depth)
  {
  }

  /** A generated tree is a directory named after the entry, `root` when it has no name. */
  lemma TreeShape(e: FsEntry, depth: nat)
    requires Tree(e, depth).Some?
    ensures Tree(e, depth).value.Dir? && e.FsDir?
    ensures Tree(e, depth).value.name == if e.name == "" then "root" else e.name
  {
  }

  /** A directory whose one entry is a file the filter drops yields `null`. */
  lemma {:induction false} LoneDroppedFileNoTree(e: FsEntry, depth: nat)
    requires e.FsDir? && |e.entries| == 1 && e.entries[0].FsFile?
    requires !ShouldIncludeFileAsWritten(e.entries[0].name)
    ensures Tree(e, depth) == None
  {
    var f := e.entries[0];
    LoneEntrySorted(e.entries);
    SortedBelow(e);
    LoneChild(e, f, depth);
  }

  lemma LoneEntrySorted(entries: seq<FsEntry>)
    requires |entries| == 1 && entries[0].FsFile?
    ensures SortEntries(Filter(entries, Statable)) == entries
  {
    assert entries[..0] == [];
    assert Filter(entries, Statable) == entries;
    assert entries[..0] == [];
  }

  lemma LoneChild(parent: FsEntry, f: FsEntry, depth: nat)
    requires f.FsFile? && !ShouldIncludeFileAsWritten(f.name) && f < parent
    ensures Children(parent, [f], depth) == []
  {
    assert [f][..0] == [];
  }

  /**
   * As written, a folder whose one file is `blog.md` produces no tree: the
   * page shows nothing, though the intended filter lists that file.
   */
  lemma BlogFolderEmptyAsWritten(size: string, modified: string)
    ensures Tree(FsDir("docs", true, [FsFile("blog.md", size, modified)]), 0) == None
    ensures ShouldIncludeFile("blog.md")
  {
    BlogDiscrepancy();
    LoneDroppedFileNoTree(FsDir("docs", true, [FsFile("blog.md", size, modified)]), 0);
  }

  function NodeKey(n: Node): Key
  {
    Key(n.Dir?, n.name)
  }

  /** Directories before files, each group by name. */
  predicate NodesAscending(ns: seq<Node>)
  {
    forall i, j | 0 <= i < j < |ns| :: KeyLessEq(NodeKey(ns[i]), NodeKey(ns[j]))
  }

  /** The node an entry with a name adds keeps the entry's kind and name. */
  lemma ChildKey(entry: FsEntry, depth: nat)
    requires entry.name != ""
    ensures forall k | 0 <= k < |Child(entry, depth)| :: NodeKey(Child(entry, depth)[k]) == EntryKey(entry)
  {
    if entry.FsDir? {
      if Tree(entry, depth + 1).Some? {
        TreeShape(entry, depth + 1);
      }
    } else if entry.FsFile? && ShouldIncludeFileAsWritten(entry.name) {
      assert Child(entry, depth) == [FileEntry(entry)];
    }
  }

  /** Children of entries no later than `bound` are no later than `bound`. */
  lemma {:induction false} ChildrenBounded(parent: FsEntry, sorted: seq<FsEntry>, depth: nat, bound: Key)
    requires EntriesBelow(parent, sorted)
    requires forall i | 0 <= i < |sorted| :: sorted[i].name != "" && KeyLessEq(EntryKey(sorted[i]), bound)
    ensures forall k | 0 <= k < |Children(parent, sorted, depth)| ::
      KeyLessEq(NodeKey(Children(parent, sorted, depth)[k]), bound)
    decreases |sorted|
  {
    if sorted != [] {
      var last := sorted[|sorted| - 1];
      ChildrenBounded(parent, sorted[..|sorted| - 1], depth, bound);
      ChildKey(last, depth);
    }
  }

  /** The loop keeps the order of the sorted entries. */
  lemma {:induction false} ChildrenAscending(parent: FsEntry, sorted: seq<FsEntry>, depth: nat)
    requires EntriesBelow(parent, sorted) && EntriesAscending(sorted)
    requires forall i | 0 <= i < |sorted| :: sorted[i].name != ""
    ensures NodesAscending(Children(parent, sorted, depth))
    decreases |sorted|
  {
    if sorted != [] {
      var init, last := sorted[..|sorted| - 1], sorted[|sorted| - 1];
      ChildrenAscending(parent, init, depth);
      ChildrenBounded(parent, init, depth, EntryKey(last));
      ChildKey(last, depth);
      var before := Children(parent, init, depth);
      var added := Child(last, depth);
      forall i, j | 0 <= i < j < |before + added|
        ensures KeyLessEq(NodeKey((before + added)[i]), NodeKey((before + added)[j]))
      {
        if j >= |before| {
          assert (before + added)[j] == added[j - |before|];
          if i >= |before| {
            assert false;
          }
        }
      }
    }
  }

  /**
   * In a generated directory, sub-directories come before files and each
   * group is ordered by name, when the listing has no empty names.
   */
  lemma TreeChildrenOrdered(e: FsEntry, depth: nat)
    requires Tree(e, depth).Some?
    requires e.FsDir? && forall i | 0 <= i < |e.entries| :: e.entries[i].name != ""
    ensures NodesAscending(Tree(e, depth).value.children)
  {
    var statable := Filter(e.entries, Statable);
    var sorted := SortEntries(statable);
    SortedBelow(e);
    forall i | 0 <= i < |sorted| ensures sorted[i].name != "" {
      assert sorted[i] in multiset(statable);
      assert sorted[i] in e.entries;
    }
    ChildrenAscending(e, sorted, depth);
  }

  // ---------------------------------------------------------------------------------------------
  // generateMarkdownTree

  /** `'└── '` for the last child, `'├── '` otherwise. */
  function Connector(isLast: bool): string
  {
    if isLast then "\U{2514}\U{2500}\U{2500} " else "\U{251C}\U{2500}\U{2500} "
  }

  /** The prefix of the children: `'    '` below a last child, `'│   '` otherwise. */
  function ChildPrefix(prefix: string, isLast: bool): string
  {
    prefix + (if isLast then "    " else "\U{2502}   ")
  }

  /** The text after the connector: the icon and the name, and the size and date of a file. */
  function Label(n: Node): string
  {
    match n
    case Dir(name, _) => "\U{1F4C1} " + name
    case File(name, icon, size, modified) => icon + " " + name + " (" + size + ", " + modified + ")"
  }

  /** `generateMarkdownTree(tree, prefix, isLast)`: the node's line, then its children's. */
  function Render(n: Node, prefix: string, isLast: bool): string
    decreases n, 1
  {
    prefix + Connector(isLast) + Label(n) + "\n"
    + (if n.Dir? then RenderChildren(n, ChildPrefix(prefix, isLast), 0) else "")
  }

  /** The `forEach` over the children of `n` from the `i`-th on; only the last is drawn as last. */
  function RenderChildren(n: Node, prefix: string, i: nat): string
    requires n.Dir?
    decreases n, 0, |n.children| - i
  {
    if i >= |n.children| then ""
    else Render(n.children[i], prefix, i == |n.children| - 1) + RenderChildren(n, prefix, i + 1)
  }

  /** `generateMarkdownTree(tree)`: `null` renders as nothing. */
  function GenerateMarkdownTree(tree: Option<Node>): string
  {
    match tree
    case None => ""
    case Some(n) => Render(n, "", true)
  }

  // ---------------------------------------------------------------------------------------------
  // generateSummaryStats

  /** The directory nodes of a tree, the root included. */
  function DirCount(n: Node): nat
    decreases n, 1
  {
    match n
    case File(_, _, _, _) => 0
    case Dir(_, children) => 1 + DirsUpTo(n, |children|)
  }

  /** The directory nodes below the first `k` children of `n`. */
  function DirsUpTo(n: Node, k: nat): nat
    requires n.Dir? && k <= |n.children|
    decreases n, 0, k
  {
    if k == 0 then 0 else DirsUpTo(n, k - 1) + DirCount(n.children[k - 1])
  }

  /** The file nodes of a tree. */
  function FileCount(n: Node): nat
    decreases n, 1
  {
    match n
    case File(_, _, _, _) => 1
    case Dir(_, children) => FilesUpTo(n, |children|)
  }

  /** The file nodes below the first `k` children of `n`. */
  function FilesUpTo(n: Node, k: nat): nat
    requires n.Dir? && k <= |n.children|
    decreases n, 0, k
  {
    if k == 0 then 0 else FilesUpTo(n, k - 1) + FileCount(n.children[k - 1])
  }

  /** The `stats` object `generateSummaryStats` fills. */
  class Stats {
    var directories: nat
    var files: nat

    constructor()
      ensures directories == 0 && files == 0
    {
      directories, files := 0, 0;
    }

    /** `traverse(node)`: counts the node, then its children in order. */
    method Traverse(node: Node)
      modifies this
      ensures directories == old(directories) + DirCount(node)
      ensures files == old(files) + FileCount(node)
      decreases node
    {
      if node.Dir? {
        directories := directories + 1;
      } else {
        files := files + 1;
      }
      if node.Dir? {
        for i := 0 to |node.children|
          invariant directories == old(directories) + 1 + DirsUpTo(node, i)
          invariant files == old(files) + FilesUpTo(node, i)
        {
          Traverse(node.children[i]);
        }
      }
    }
  }

  /** `generateSummaryStats(tree)`: the numbers of directory and of file nodes. */
  method GenerateSummaryStats(tree: Node) returns (directories: nat, files: nat)
    ensures directories == DirCount(tree) && files == FileCount(tree)
  {
    var stats := new Stats();
    stats.Traverse(tree);
    directories, files := stats.directories, stats.files;
  }

  /** A pruned tree holds a file: none of its directories is empty. */
  lemma {:induction false} PrunedHasFile(n: Node, depth: nat)
    requires Pruned(n, depth)
    ensures FileCount(n) >= 1
    decreases n
  {
    if n.Dir? {
      PrunedHasFile(n.children[|n.children| - 1], depth + 1);
    }
  }

  /** The statistics of a generated tree count the root directory and at least one file. */
  lemma GeneratedTreeCounts(e: FsEntry, depth: nat)
    requires Tree(e, depth).Some?
    ensures DirCount(Tree(e, depth).value) >= 1 && FileCount(Tree(e, depth).value) >= 1
  {
    TreeIsPruned(e, depth);
    PrunedHasFile(Tree(e, depth).value, depth);
  }

  /** No line break inside a name, an icon, a size or a date. */
  predicate Printable(n: Node)
    decreases n
  {
    match n
    case File(name, icon, size, modified) => '\n' !in name + icon + size + modified
    case Dir(name, children) => '\n' !in name && forall i | 0 <= i < |children| :: Printable(children[i])
  }

  lemma ConnectorsPrintable(isLast: bool, prefix: string)
    requires '\n' !in prefix
    ensures '\n' !in Connector(isLast) && '\n' !in ChildPrefix(prefix, isLast)
  {
  }

  lemma LabelPrintable(n: Node)
    requires Printable(n)
    ensures '\n' !in Label(n)
  {
  }

  /**
   * The rendered text has one line per node, so as many lines as the
   * statistics count directories and files.
   */
  lemma {:induction false} RenderLines(n: Node, prefix: string, isLast: bool)
    requires Printable(n) && '\n' !in prefix
    ensures Count(Render(n, prefix, isLast), '\n') == DirCount(n) + FileCount(n)
    decreases n, 1
  {
    ConnectorsPrintable(isLast, prefix);
    LabelPrintable(n);
    var head := prefix + Connector(isLast) + Label(n);
    var rest := if n.Dir? then RenderChildren(n, ChildPrefix(prefix, isLast), 0) else "";
    assert Render(n, prefix, isLast) == head + "\n" + rest;
    CountConcat(head + "\n", rest, '\n');
    CountConcat(head, "\n", '\n');
    if n.Dir? {
      RenderChildrenLines(n, ChildPrefix(prefix, isLast), 0);
    }
  }

  lemma {:induction false} RenderChildrenLines(n: Node, prefix: string, i: nat)
    requires n.Dir? && Printable(n) && '\n' !in prefix && i <= |n.children|
    ensures Count(RenderChildren(n, prefix, i), '\n') + DirsUpTo(n, i) + FilesUpTo(n, i) ==
      DirsUpTo(n, |n.children|) + FilesUpTo(n, |n.children|)
    decreases n, 0, |n.children| - i
  {
    if i < |n.children| {
      RenderLines(n.children[i], prefix, i == |n.children| - 1);
      RenderChildrenLines(n, prefix, i + 1);
      CountConcat(Render(n.children[i], prefix, i == |n.children| - 1), RenderChildren(n, prefix, i + 1), '\n');
    }
  }
}
