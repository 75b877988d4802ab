/**
 * The parts of Python's `posixpath` the modelled code uses to build paths:
 * `os.path.join`, `os.path.basename` and `os.path.dirname`.  `abspath` and
 * `normpath` depend on the working directory and are not modelled here.
 */
module Paths {

  import Strs

  /** One step of `os.path.join`: an absolute part replaces what came before. */
  function Join1(path: string, b: string): (r: string)
    ensures Strs.StartsWith(b, "/") ==> r == b
    ensures !Strs.StartsWith(b, "/") ==> Strs.EndsWith(r, b) && Strs.StartsWith(r, path)
  {
    if Strs.StartsWith(b, "/") then b
    else if |path| == 0 || path[|path| - 1] == '/' then path + b
    else path + "/" + b
  }

  /** `os.path.join(a, *parts)`. */
  function Join(a: string, parts: seq<string>): string
  {
    if |parts| == 0 then a else Join1(Join(a, parts[..|parts| - 1]), parts[|parts| - 1])
  }

  /** The index just after the last '/', or 0 when there is none. */
  function AfterLastSlash(p: string): (i: nat)
    ensures i <= |p|
    ensures i > 0 ==> p[i - 1] == '/'
    ensures forall k :: i <= k < |p| ==> p[k] != '/'
  {
    if |p| == 0 then 0
    else if p[|p| - 1] == '/' then |p|
    else AfterLastSlash(p[..|p| - 1])
  }

  /** `os.path.basename(p)`: what follows the last '/'. */
  function Basename(p: string): (r: string)
    ensures '/' !in r && Strs.EndsWith(p, r)
  {
    p[AfterLastSlash(p)..]
  }

  /** `os.path.dirname(p)`: what precedes the last '/', with trailing slashes removed unless it is all slashes. */
  function Dirname(p: string): string
  {
    var head := p[..AfterLastSlash(p)];
    if |head| > 0 && exists k :: 0 <= k < |head| && head[k] != '/' then StripSlashes(head) else head
  }

  /** `head.rstrip('/')`. */
  function StripSlashes(s: string): (r: string)
    ensures Strs.StartsWith(s, r) && (|r| == 0 || r[|r| - 1] != '/')
  {
    if |s| == 0 || s[|s| - 1] != '/' then s else StripSlashes(s[..|s| - 1])
  }

  /** A name without '/' is the basename of any path joined with it. */
  lemma BasenameJoin1(path: string, b: string)
    requires '/' !in b
    ensures Basename(Join1(path, b)) == b
  {
    var r := Join1(path, b);
    if |b| > 0 {
      assert b[0] != '/';
    }
    assert r == path + b || r == path + "/" + b || r == b;
    assert |path| == 0 || path[|path| - 1] == '/' || r == path + "/" + b;
    BasenameOfSuffix(r, b);
  }

  /** If `r` ends with a slash-free `b` preceded by a '/' or by nothing, `b` is its basename. */
  lemma {:induction false} BasenameOfSuffix(r: string, b: string)
    requires '/' !in b && Strs.EndsWith(r, b)
    requires |r| == |b| || r[|r| - |b| - 1] == '/'
    ensures Basename(r) == b
  {
    var i := AfterLastSlash(r);
    forall k | |r| - |b| <= k < |r| ensures r[k] != '/' {
      assert r[k] == b[k - (|r| - |b|)];
    }
  }

  /** `os.path.join(a, b)` for a relative `b`: exactly one '/' between. */
  lemma JoinRelative(a: string, b: string)
    requires |a| > 0 && a[|a| - 1] != '/' && !Strs.StartsWith(b, "/")
    ensures Join(a, [b]) == a + "/" + b
  {
  }

  /** Joining `a` and then `b` is joining `a/b`, when neither adds or drops a slash. */
  lemma JoinNested(root: string, a: string, b: string)
    requires |a| > 0 && a[0] != '/' && a[|a| - 1] != '/' && |b| > 0 && b[0] != '/'
    ensures Join(root, [a, b]) == Join(root, [a + "/" + b])
  {
    assert [a, b][..1] == [a];
    assert Join(root, [a]) == Join1(root, a);
    var x := Join1(root, a);
    assert !Strs.StartsWith(a, "/") && !Strs.StartsWith(b, "/");
    assert (a + "/" + b)[0] == a[0];
    assert x == root + a || x == root + "/" + a;
    assert x[|x| - 1] == a[|a| - 1];
    assert Join(root, [a, b]) == x + "/" + b;
  }
}
