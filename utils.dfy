/**
 * utils.js: the command-line helpers the scripts share.  `parseArguments`
 * turns `--key=value` arguments into an options object, `validateRequiredArguments`
 * throws for the first required option that is missing or empty, and
 * `getTrackingDirectory` names the `branch-tracking` directory beside the
 * scripts' directory.
 */
module ScriptUtils {
  import opened Wrappers
  import opened JsString
  import opened NodePath

  /** An options object: a key set to `undefined` is present with no value. */
  type Options = map<string, Option<string>>

  // ---------------------------------------------------------------------------------------------
  // parseArguments

  /** `const [key] = arg.split('=')` then `key.replace('--', '')`: only the first `--` goes. */
  function ArgKey(arg: string): string
  {
    ReplaceFirst(Split(arg, '=')[0], "--", "")
  }

  /** `const [, value] = arg.split('=')`: the text between the first and second `=`, if any. */
  function ArgValue(arg: string): Option<string>
  {
    var parts := Split(arg, '=');
    if |parts| > 1 then Some(parts[1]) else None
  }

  /** The options object after the `forEach` over `args`: each argument assigns its key. */
  function Parsed(args: seq<string>): Options
  {
    if args == [] then map[]
    else
      var arg := args[|args| - 1];
      Parsed(args[..|args| - 1])[ArgKey(arg) := ArgValue(arg)]
  }

  /** `parseArguments`: the object filled by the `forEach`. */
  method ParseArguments(args: seq<string>) returns (options: Options)
    ensures options == Parsed(args)
  {
    options := map[];
    var i := 0;
    while i < |args|
      invariant 0 <= i <= |args|
      invariant options == Parsed(args[..i])
    {
      var parts := Split(args[i], '=');
      var key := parts[0];
      var value := if |parts| > 1 then Some(parts[1]) else None;
      var cleanKey := ReplaceFirst(key, "--", "");
      assert args[..i + 1][..i] == args[..i] && args[..i + 1][i] == args[i];
      options := options[cleanKey := value];
      i := i + 1;
    }
    assert args[..i] == args;
  }

  /** A key is set exactly when some argument names it. */
  lemma {:induction false} ParsedKeys(args: seq<string>, key: string)
    ensures key in Parsed(args) <==> exists i | 0 <= i < |args| :: ArgKey(args[i]) == key
    decreases |args|
  {
    if args != [] {
      var init := args[..|args| - 1];
      ParsedKeys(init, key);
      if exists i | 0 <= i < |init| :: ArgKey(init[i]) == key {
        var i :| 0 <= i < |init| && ArgKey(init[i]) == key;
        assert ArgKey(args[i]) == key;
      }
      if exists i | 0 <= i < |args| :: ArgKey(args[i]) == key {
        var i :| 0 <= i < |args| && ArgKey(args[i]) == key;
        if i < |init| {
          assert ArgKey(init[i]) == key;
        }
      }
    }
  }

  /** The last argument naming a key decides its value: later arguments overwrite earlier ones. */
  lemma {:induction false} LastArgumentWins(args: seq<string>, i: nat)
    requires i < |args|
    requires forall j | i < j < |args| :: ArgKey(args[j]) != ArgKey(args[i])
    ensures ArgKey(args[i]) in Parsed(args) && Parsed(args)[ArgKey(args[i])] == ArgValue(args[i])
    decreases |args|
  {
    if i < |args| - 1 {
      var init := args[..|args| - 1];
      assert init[i] == args[i];
      assert forall j | i < j < |init| :: init[j] == args[j];
      LastArgumentWins(init, i);
    }
  }

  /** A `--name=value` argument whose name and value hold no `=` sets `name` to `value`. */
  lemma FlagArgument(name: string, value: string)
    requires '=' !in name && '=' !in value
    ensures ArgKey("--" + name + "=" + value) == name
    ensures ArgValue("--" + name + "=" + value) == Some(value)
  {
    var arg := "--" + name + "=" + value;
    assert '=' !in "--" + name;
    SplitFirst("--" + name, '=', value);
    assert CharIndex(value, '=') == |value|;
    FirstDashes(name);
  }

  /** Removing the first `--` from a key that starts with it leaves the rest. */
  lemma FirstDashes(name: string)
    ensures ReplaceFirst("--" + name, "--", "") == name
  {
    var s := "--" + name;
    assert OccursAt(s, "--", 0);
    assert IndexOf(s, "--") == 0;
    assert s[2..] == name;
  }

  /** A value holding `=` is cut at it: only the text up to the second `=` is kept. */
  lemma ValueTruncated(name: string, value: string, rest: string)
    requires '=' !in name && '=' !in value
    ensures ArgValue("--" + name + "=" + value + "=" + rest) == Some(value)
  {
    var arg := "--" + name + "=" + value + "=" + rest;
    assert arg == ("--" + name) + ['='] + (value + ['='] + rest);
    assert '=' !in "--" + name;
    SplitFirst("--" + name, '=', value + "=" + rest);
    SplitFirst(value, '=', rest);
  }

  /** An argument without `=` sets its key with no value. */
  lemma BareArgument(arg: string)
    requires '=' !in arg
    ensures ArgKey(arg) == ReplaceFirst(arg, "--", "") && ArgValue(arg) == None
  {
    assert CharIndex(arg, '=') == |arg|;
  }

  // ---------------------------------------------------------------------------------------------
  // validateRequiredArguments

  /** `options[field]` is truthy: set, and to a non-empty string. */
  predicate Provided(options: Options, field: string)
  {
    field in options && Truthy(options[field])
  }

  /** The message thrown for a missing field. */
  function MissingMessage(field: string): string
  {
    "Missing required argument: --" + field
  }

  /**
   * `validateRequiredArguments`: `None` when it returns normally, otherwise
   * the message it throws, which names the first required field that is not
   * provided.
   */
  method ValidateRequiredArguments(options: Options, required: seq<string>) returns (thrown: Option<string>)
    ensures thrown.None? <==> forall k | 0 <= k < |required| :: Provided(options, required[k])
    ensures thrown.Some? ==> exists k | 0 <= k < |required| ::
      && !Provided(options, required[k])
      && (forall j | 0 <= j < k :: Provided(options, required[j]))
      && thrown.value == MissingMessage(required[k])
  {
    for i := 0 to |required|
      invariant forall j | 0 <= j < i :: Provided(options, required[j])
    {
      var field := required[i];
      if !(field in options && Truthy(options[field])) {
        return Some(MissingMessage(field));
      }
    }
    return None;
  }

  // ---------------------------------------------------------------------------------------------
  // getTrackingDirectory

  /** `getTrackingDirectory(baseDir)` */
  function GetTrackingDirectory(baseDir: string): string
  {
    PathJoin([baseDir, "..", "branch-tracking"])
  }

  /**
   * For an absolute base directory written without `.`, `..` or doubled
   * slashes, `/d1/.../dn`, the tracking directory is the sibling
   * `/d1/.../d(n-1)/branch-tracking`: one level up from the base.
   */
  lemma TrackingDirectoryIsSibling(dirs: seq<string>)
    requires |dirs| > 0 && forall k | 0 <= k < |dirs| :: Plain(dirs[k])
    ensures GetTrackingDirectory("/" + Join(dirs, "/")) == "/" + Join(dirs[..|dirs| - 1] + ["branch-tracking"], "/")
  {
    LeafIsPlain();
    SiblingOf(dirs, "branch-tracking");
  }

  lemma LeafIsPlain()
    ensures Plain("branch-tracking")
  {
    var leaf := "branch-tracking";
    forall k | 0 <= k < |leaf| ensures leaf[k] != '/' {
    }
  }
}
