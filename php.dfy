/**
 * The PHP built-ins the plugin's decisions depend on: the truthiness of a
 * query value and `basename` on '/'-separated paths.
 */
module Php {
  import opened Wrappers

  /** A PHP string is falsy exactly when it is "" or "0". */
  predicate TruthyString(s: string)
    ensures TruthyString(s) ==> s != ""
    ensures |s| >= 2 ==> TruthyString(s)
  {
    s != "" && s != "0"
  }

  /**
   * The truthiness of `isset($_GET[k]) ? $_GET[k] : 0`: a missing value
   * stands for the integer 0, which is falsy.
   */
  predicate Truthy(v: Option<string>)
    ensures v.None? ==> !Truthy(v)
    ensures Truthy(v) ==> v.value != "" && v.value != "0"
  {
    v.Some? && TruthyString(v.value)
  }

  predicate NoSlash(s: string)
  {
    forall i :: 0 <= i < |s| ==> s[i] != '/'
  }

  predicate AllSlashes(s: string)
  {
    forall i :: 0 <= i < |s| ==> s[i] == '/'
  }

  /** `path` with every trailing '/' removed. */
  function TrimTrailingSlashes(path: string): (r: string)
    ensures r <= path
    ensures r == [] || r[|r| - 1] != '/'
    ensures AllSlashes(path[|r|..])
  {
    if path == [] || path[|path| - 1] != '/' then path
    else TrimTrailingSlashes(path[..|path| - 1])
  }

  /** The longest suffix of `path` that holds no '/'. */
  function AfterLastSlash(path: string): (r: string)
    ensures |r| <= |path| && r == path[|path| - |r|..]
    ensures NoSlash(r)
    ensures |r| < |path| ==> path[|path| - |r| - 1] == '/'
  {
    if path == [] || path[|path| - 1] == '/' then []
    else AfterLastSlash(path[..|path| - 1]) + [path[|path| - 1]]
  }

  /**
   * PHP's `basename($path)` with '/' as the only separator: trailing
   * slashes are dropped, then the last component is returned.
   */
  function Basename(path: string): (r: string)
    ensures NoSlash(r)
    ensures |r| <= |path|
  {
    AfterLastSlash(TrimTrailingSlashes(path))
  }

  lemma {:induction false} AfterLastSlashOfJoin(dir: string, name: string)
    requires NoSlash(name)
    ensures AfterLastSlash(dir + "/" + name) == name
    decreases |name|
  {
    var path := dir + "/" + name;
    if name != [] {
      var shorter := name[..|name| - 1];
      assert path[..|path| - 1] == dir + "/" + shorter;
      AfterLastSlashOfJoin(dir, shorter);
      assert name == shorter + [name[|name| - 1]];
    }
  }

  /** The last component of `dir/name` is `name`, whatever `dir` is. */
  lemma {:induction false} BasenameOfJoin(dir: string, name: string)
    requires name != [] && NoSlash(name)
    ensures Basename(dir + "/" + name) == name
  {
    var path := dir + "/" + name;
    assert path[|path| - 1] == name[|name| - 1];
    assert TrimTrailingSlashes(path) == path;
    AfterLastSlashOfJoin(dir, name);
  }

  /** Trailing slashes do not change the basename. */
  lemma BasenameIgnoresTrailingSlash(path: string)
    ensures Basename(path + "/") == Basename(path)
  {
  }
}
