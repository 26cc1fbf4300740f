/**
 * The POSIX functions of Node's `path` module the scripts use: `join` with
 * `normalize`, `basename`, `extname` and `dirname`.
 */
module NodePath {
  import opened JsString

  /** A path segment that `path.normalize` keeps as it is. */
  predicate Plain(segment: string)
  {
    segment != "" && segment != "." && segment != ".." && '/' !in segment
  }

  /**
   * `path.normalize` on the segments of a path: empty and `.` segments go,
   * `..` removes the segment before it, stays at the start of a relative
   * path, and disappears at the root of an absolute one.
   */
  function Resolve(segments: seq<string>, absolute: bool): seq<string>
  {
    if segments == [] then []
    else
      var done := Resolve(segments[..|segments| - 1], absolute);
      var s := segments[|segments| - 1];
      if s == "" || s == "." then done
      else if s == ".." then
        if |done| > 0 && done[|done| - 1] != ".." then done[..|done| - 1]
        else if absolute then done
        else done + [".."]
      else done + [s]
  }

  /**
   * `path.normalize(path)` on POSIX, except that a trailing slash is
   * dropped where Node keeps it (`a/b/` gives `a/b`). The one caller,
   * `PathJoin` from the branch-tracking directory, ends its path in
   * `branch-tracking`, so no path it normalises ends in a slash.
   */
  function Normalize(path: string): string
  {
    var absolute := |path| > 0 && path[0] == '/';
    var resolved := Join(Resolve(Split(path, '/'), absolute), "/");
    if absolute then "/" + resolved
    else if resolved == "" then "."
    else resolved
  }

  /** `path.join(...parts)` on POSIX: the parts joined with `/`, then normalised. */
  function PathJoin(parts: seq<string>): string
  {
    Normalize(Join(parts, "/"))
  }

  /** Plain segments are kept as they are. */
  lemma {:induction false} ResolvePlain(segments: seq<string>, absolute: bool)
    requires forall k | 0 <= k < |segments| :: Plain(segments[k])
    ensures Resolve(segments, absolute) == segments
    decreases |segments|
  {
    if segments != [] {
      var init := segments[..|segments| - 1];
      assert forall k | 0 <= k < |init| :: init[k] == segments[k];
      ResolvePlain(init, absolute);
      assert segments == init + [segments[|segments| - 1]];
    }
  }

  /** `path.join(base, '..', leaf)` for a plain base `/d1/.../dn` and a plain `leaf`. */
  lemma SiblingOf(dirs: seq<string>, leaf: string)
    requires |dirs| > 0 && forall k | 0 <= k < |dirs| :: Plain(dirs[k])
    requires Plain(leaf)
    ensures PathJoin(["/" + Join(dirs, "/"), "..", leaf]) == "/" + Join(dirs[..|dirs| - 1] + [leaf], "/")
  {
    var segments := [""] + dirs + ["..", leaf];
    var joined := Join(segments, "/");
    JoinedSegments(dirs, "/" + Join(dirs, "/"), leaf);
    SegmentsSplit(dirs, leaf);
    JoinSegmentList(dirs, ["..", leaf]);
    NormalizeAbsolute(joined, segments);
    ResolveSegments(dirs, leaf);
  }

  /** An absolute path is normalised from its segments, and stays absolute. */
  lemma NormalizeAbsolute(path: string, segments: seq<string>)
    requires |path| > 0 && path[0] == '/' && Split(path, '/') == segments
    ensures Normalize(path) == "/" + Join(Resolve(segments, true), "/")
  {
  }

  /** Splitting the joined segments at `/` gives them back. */
  lemma SegmentsSplit(dirs: seq<string>, leaf: string)
    requires forall k | 0 <= k < |dirs| :: Plain(dirs[k])
    requires Plain(leaf)
    ensures Split(Join([""] + dirs + ["..", leaf], "/"), '/') == [""] + dirs + ["..", leaf]
  {
    SegmentsPlain(dirs, leaf);
    SplitJoin([""] + dirs + ["..", leaf], '/');
  }

  lemma SegmentsPlain(dirs: seq<string>, leaf: string)
    requires forall k | 0 <= k < |dirs| :: Plain(dirs[k])
    requires Plain(leaf)
    ensures forall k | 0 <= k < |[""] + dirs + ["..", leaf]| :: '/' !in ([""] + dirs + ["..", leaf])[k]
  {
    var tail := ["..", leaf];
    var segments := [""] + dirs + tail;
    Shape("", dirs, tail);
    forall k | 0 <= k < |segments| ensures '/' !in segments[k] {
      if k == 0 {
        assert segments[k] == "";
      } else if k <= |dirs| {
        assert segments[k] == dirs[k - 1];
      } else if k == |dirs| + 1 {
        assert segments[k] == tail[0] == "..";
        assert '/' !in "..";
      } else {
        assert segments[k] == tail[1] == leaf;
      }
    }
  }

  /** Where the parts of `[x] + a + b` sit. */
  lemma Shape<T>(x: T, a: seq<T>, b: seq<T>)
    ensures ([x] + a + b)[0] == x && ([x] + a + b)[1..] == a + b
    ensures forall k | 0 <= k < |a| :: ([x] + a + b)[k + 1] == a[k]
    ensures forall k | 0 <= k < |b| :: ([x] + a + b)[1 + |a| + k] == b[k]
  {
  }

  /** The joined arguments are the segments of the base, then `..` and the leaf. */
  lemma JoinedSegments(dirs: seq<string>, base: string, leaf: string)
    requires |dirs| > 0 && base == "/" + Join(dirs, "/")
    ensures Join([base, "..", leaf], "/") == Join([""] + dirs + ["..", leaf], "/")
  {
    JoinArguments(base, leaf);
    JoinSegmentList(dirs, ["..", leaf]);
  }

  lemma JoinArguments(base: string, leaf: string)
    ensures Join([base, "..", leaf], "/") == base + "/" + Join(["..", leaf], "/")
  {
    var tail := ["..", leaf];
    JoinCons(base, tail);
    assert [base] + tail == [base, "..", leaf];
  }

  lemma JoinSegmentList(dirs: seq<string>, tail: seq<string>)
    requires |dirs| > 0 && |tail| > 0
    ensures Join([""] + dirs + tail, "/") == "/" + Join(dirs, "/") + "/" + Join(tail, "/")
  {
    assert [""] + dirs + tail == [""] + (dirs + tail);
    JoinCons("", dirs + tail);
    JoinAppend(dirs, tail);
    DropEmpty("", "/", Join(dirs, "/"), "/", Join(tail, "/"));
  }

  lemma DropEmpty<T>(e: seq<T>, a: seq<T>, b: seq<T>, c: seq<T>, d: seq<T>)
    requires e == []
    ensures e + a + (b + c + d) == a + b + c + d
  {
  }

  /** Joining puts the separator after the first part. */
  lemma JoinCons(x: string, rest: seq<string>)
    requires |rest| > 0
    ensures Join([x] + rest, "/") == x + "/" + Join(rest, "/")
  {
    assert ([x] + rest)[1..] == rest;
  }

  /** Normalising climbs out of the last directory of the base and into the leaf. */
  lemma ResolveSegments(dirs: seq<string>, leaf: string)
    requires |dirs| > 0 && forall k | 0 <= k < |dirs| :: Plain(dirs[k])
    requires Plain(leaf)
    ensures Resolve([""] + dirs + ["..", leaf], true) == dirs[..|dirs| - 1] + [leaf]
  {
    var upTo := [""] + dirs;
    assert [""] + dirs + ["..", leaf] == upTo + [".."] + [leaf];
    ResolvePlain(dirs, true);
    ResolveEmptyFirst(dirs);
    ResolveUp(upTo, true);
    ResolveSnocPlain(upTo + [".."], leaf, true);
  }

  /** A plain segment is appended to the resolved segments before it. */
  lemma ResolveSnocPlain(segments: seq<string>, s: string, absolute: bool)
    requires Plain(s)
    ensures Resolve(segments + [s], absolute) == Resolve(segments, absolute) + [s]
  {
    assert (segments + [s])[..|segments|] == segments;
  }

  /** `..` after a resolved directory climbs out of it. */
  lemma ResolveUp(segments: seq<string>, absolute: bool)
    requires var done := Resolve(segments, absolute); |done| > 0 && done[|done| - 1] != ".."
    ensures var done := Resolve(segments, absolute); Resolve(segments + [".."], absolute) == done[..|done| - 1]
  {
    assert (segments + [".."])[..|segments|] == segments;
  }

  /** A leading empty segment, from the leading `/`, is dropped. */
  lemma {:induction false} ResolveEmptyFirst(dirs: seq<string>)
    requires forall k | 0 <= k < |dirs| :: Plain(dirs[k])
    ensures Resolve([""] + dirs, true) == Resolve(dirs, true)
    decreases |dirs|
  {
    if dirs != [] {
      var init := dirs[..|dirs| - 1];
      assert ([""] + dirs)[..|dirs|] == [""] + init;
      assert forall k | 0 <= k < |init| :: init[k] == dirs[k];
      ResolveEmptyFirst(init);
    } else {
      assert [""][..0] == [];
    }
  }

  /** Joining two non-empty lists puts the separator between their joins. */
  lemma {:induction false} JoinAppend(a: seq<string>, b: seq<string>)
    requires |a| > 0 && |b| > 0
    ensures Join(a + b, "/") == Join(a, "/") + "/" + Join(b, "/")
    decreases |a|
  {
    if |a| == 1 {
      assert (a + b)[1..] == b;
    } else {
      assert (a + b)[1..] == a[1..] + b;
      JoinAppend(a[1..], b);
    }
  }

  // ---------------------------------------------------------------------------------------------
  // basename, extname, dirname

  /** The index of the last `c` in `s`, or -1. */
  function LastCharIndex(s: string, c: char): (r: int)
    ensures -1 <= r < |s|
    ensures r >= 0 ==> s[r] == c
    ensures forall j | r < j < |s| :: s[j] != c
  {
    if s == [] then -1
    else if s[|s| - 1] == c then |s| - 1
    else LastCharIndex(s[..|s| - 1], c)
  }

  /** The path without the slashes at its end. */
  function TrimTrailingSlashes(p: string): (r: string)
    ensures |r| <= |p| && r == p[..|r|]
    ensures r == [] || r[|r| - 1] != '/'
    ensures forall j | |r| <= j < |p| :: p[j] == '/'
  {
    if p != [] && p[|p| - 1] == '/' then TrimTrailingSlashes(p[..|p| - 1]) else p
  }

  /** `path.basename(p)`: the last segment, trailing slashes ignored. */
  function Basename(p: string): (r: string)
    ensures '/' !in r
  {
    var t := TrimTrailingSlashes(p);
    t[LastCharIndex(t, '/') + 1..]
  }

  /**
   * `path.extname(p)`: from the last `.` of the basename to its end; empty
   * when the basename has no `.`, starts with its only `.`, or is `..`.
   */
  function Extname(p: string): string
  {
    var b := Basename(p);
    var d := LastCharIndex(b, '.');
    if b == ".." || d <= 0 then "" else b[d..]
  }

  /** An extension is empty, or a `.` and the rest of the basename after its last `.`, which is not its first character. */
  lemma ExtnameShape(p: string)
    ensures var r := Extname(p);
      r == [] || (r[0] == '.' && '.' !in r[1..] && EndsWith(Basename(p), r) && |r| < |Basename(p)|)
  {
    var b := Basename(p);
    var d := LastCharIndex(b, '.');
    if !(b == ".." || d <= 0) {
      assert b[d..][1..] == b[d + 1..];
    }
  }

  /** `path.dirname(p)`: everything before the last segment, `.` when there is none. */
  function Dirname(p: string): string
  {
    var t := TrimTrailingSlashes(p);
    if t == [] then (if p == [] then "." else "/")
    else
      var i := LastCharIndex(t, '/');
      if i < 0 then "."
      else if i == 0 then "/"
      else if i == 1 && t[0] == '/' then "//"
      else t[..i]
  }

  /** `path.basename(p, ext)` with the extension `extname` found: the basename without it. */
  function Stem(p: string): (r: string)
    ensures Basename(p) == r + Extname(p)
  {
    ExtnameShape(p);
    var b := Basename(p);
    b[..|b| - |Extname(p)|]
  }
}
