/**
 * The behaviour every package and target inherits from the base classes in
 * infra/package.py and infra/target.py: equality and hashing, the paths of
 * their build trees, the run-environment update of `install_env`, the
 * `pkg-config` options and the post-build hook runner.
 *
 * Objects are the `Setup.Obj` values; `isSub(c, d)` says that class `c` is
 * `d` or one of its subclasses (what `isinstance` asks).  Whether a path
 * exists is the predicate `pathExists`.
 */
module PackageTarget {

  import opened Wrappers
  import Strs
  import Paths
  import Context
  import Setup

  // ---------------------------------------------------------------------
  // Equality and hashing.

  /** `Package.__eq__`: `other` is an instance of `self`'s class with the same ident. */
  predicate PackageEq(self: Setup.Obj, other: Setup.Obj, isSub: (string, string) -> bool)
    requires self.Pkg? && other.Pkg?
  {
    isSub(other.cls, self.cls) && other.ident == self.ident
  }

  /** The string `Package.__hash__` hashes. */
  function PackageHashKey(p: Setup.Obj): string
    requires p.Pkg?
  {
    "package-" + p.ident
  }

  /** `Target.__eq__`: `other` is an instance of `self`'s class with the same name. */
  predicate TargetEq(self: Setup.Obj, other: Setup.Obj, isSub: (string, string) -> bool)
    requires self.Tgt? && other.Tgt?
  {
    isSub(other.cls, self.cls) && other.name == self.name
  }

  /** The string `Target.__hash__` hashes. */
  function TargetHashKey(t: Setup.Obj): string
    requires t.Tgt?
  {
    "target-" + t.name
  }

  /**
   * Equal packages hash alike, and so do equal targets; with no subclassing
   * between the classes involved, `==` is exactly equality of the values.
   */
  lemma EqualityAndHash(a: Setup.Obj, b: Setup.Obj, isSub: (string, string) -> bool)
    ensures a.Pkg? && b.Pkg? && PackageEq(a, b, isSub) ==> PackageHashKey(a) == PackageHashKey(b)
    ensures a.Tgt? && b.Tgt? && TargetEq(a, b, isSub) ==> TargetHashKey(a) == TargetHashKey(b)
    ensures (forall c, d :: isSub(c, d) <==> c == d) ==>
      && (a.Pkg? && b.Pkg? ==> (PackageEq(a, b, isSub) <==> a == b))
      && (a.Tgt? && b.Tgt? ==> (TargetEq(a, b, isSub) <==> a == b))
  {
  }

  /** A package and a target never share a hash key. */
  lemma HashKeysDiffer(p: Setup.Obj, t: Setup.Obj)
    requires p.Pkg? && t.Tgt?
    ensures PackageHashKey(p) != TargetHashKey(t)
  {
    assert PackageHashKey(p)[0] == 'p' && TargetHashKey(t)[0] == 't';
  }

  // ---------------------------------------------------------------------
  // Paths.

  /** `path(ctx, *args)`: `os.path.join(root, name, *args)`, for packages (`ctx.paths.packages`, `ident()`) and targets (`ctx.paths.targets`, `name`). */
  function TreePath(root: string, name: string, args: seq<string>): string
  {
    Paths.Join(root, [name] + args)
  }

  /** A sub-path is the root path joined with the extra components. */
  lemma {:induction false} TreePathExtends(root: string, name: string, args: seq<string>)
    ensures TreePath(root, name, args) == Paths.Join(TreePath(root, name, []), args)
    decreases |args|
  {
    if |args| > 0 {
      var init := args[..|args| - 1];
      TreePathExtends(root, name, init);
      assert ([name] + args)[..|args|] == [name] + init;
    }
  }

  /** Under a root without a trailing '/', a relative name is one level below the root. */
  lemma TreePathOfRoot(root: string, name: string)
    requires |root| > 0 && root[|root| - 1] != '/' && !Strs.StartsWith(name, "/")
    ensures TreePath(root, name, []) == root + "/" + name
  {
    assert [name] + [] == [name];
    Paths.JoinRelative(root, name);
  }

  /** `is_clean`: the tree does not exist, the one `pkg-config` is given as `--root`. */
  function IsClean(pathExists: string -> bool, root: string, name: string): (r: bool)
    ensures r <==> !pathExists(PkgConfigOptions(root, name)[0].2)
  {
    !pathExists(TreePath(root, name, []))
  }

  /** A file system on which every path that exists has a parent directory that exists. */
  ghost predicate ParentsExist(pathExists: string -> bool)
  {
    forall p, c :: !Strs.StartsWith(c, "/") && pathExists(Paths.Join1(p, c)) ==> pathExists(p)
  }

  /** Below a path that does not exist, no relative sub-path exists. */
  lemma {:induction false} AbsentBelow(pathExists: string -> bool, t: string, args: seq<string>)
    requires ParentsExist(pathExists) && !pathExists(t)
    requires forall i :: 0 <= i < |args| ==> !Strs.StartsWith(args[i], "/")
    ensures !pathExists(Paths.Join(t, args))
    decreases |args|
  {
    if |args| > 0 {
      var init := args[..|args| - 1];
      AbsentBelow(pathExists, t, init);
    }
  }

  /**
   * On a file system where every existing path's parent exists, a clean
   * tree has nothing below it either: no relative sub-path of it exists.
   */
  lemma CleanHasNothingBelow(pathExists: string -> bool, root: string, name: string, args: seq<string>)
    requires ParentsExist(pathExists)
    requires forall i :: 0 <= i < |args| ==> !Strs.StartsWith(args[i], "/")
    requires IsClean(pathExists, root, name)
    ensures !pathExists(TreePath(root, name, args))
  {
    TreePathExtends(root, name, args);
    AbsentBelow(pathExists, TreePath(root, name, []), args);
  }

  /** `pkg_config_options`: the root path and the install prefix, in that order. */
  function PkgConfigOptions(root: string, ident: string): (r: seq<(string, string, string)>)
    ensures |r| == 2 && r[0].0 == "--root" && r[1].0 == "--prefix"
    ensures r[0].2 == TreePath(root, ident, []) && r[1].2 == Paths.Join(r[0].2, ["install"])
  {
    TreePathExtends(root, ident, ["install"]);
    [("--root", "absolute root path", TreePath(root, ident, [])),
     ("--prefix", "absolute install path", TreePath(root, ident, ["install"]))]
  }

  // ---------------------------------------------------------------------
  // The run environment.

  /** `os.getenv(key, '')`. */
  function GetEnv(environ: map<string, string>, key: string): string
  {
    if key in environ then environ[key] else ""
  }

  /**
   * `runenv.setdefault(key, os.getenv(key, '').split(':')).insert(0, dir)`:
   * `dir` goes in front of the list, which starts from the process
   * environment when the run environment has none yet.
   */
  function Prepend(runenv: map<string, seq<string>>, key: string, dir: string, environ: map<string, string>): (r: map<string, seq<string>>)
    ensures key in r && |r[key]| > 0 && r[key][0] == dir
    ensures key in runenv ==> r[key][1..] == runenv[key]
    ensures key !in runenv ==> r[key][1..] == Strs.Split(GetEnv(environ, key), ':')
    ensures forall k :: k != key ==> (k in r <==> k in runenv) && (k in runenv ==> r[k] == runenv[k])
  {
    var prev := if key in runenv then runenv[key] else Strs.Split(GetEnv(environ, key), ':');
    runenv[key := [dir] + prev]
  }

  /** The run environment after `install_env` of the package whose tree is `pkgPath`. */
  function InstallEnvOf(runenv: map<string, seq<string>>, pkgPath: string, environ: map<string, string>,
                        pathExists: string -> bool): map<string, seq<string>>
  {
    var bin := Paths.Join(pkgPath, ["install/bin"]);
    var lib := Paths.Join(pkgPath, ["install/lib"]);
    var r1 := if pathExists(bin) then Prepend(runenv, "PATH", bin, environ) else runenv;
    if pathExists(lib) then Prepend(r1, "LD_LIBRARY_PATH", lib, environ) else r1
  }

  /** `install_env`. */
  method InstallEnv(ctx: Context.Ctx, pkgPath: string, environ: map<string, string>, pathExists: string -> bool)
    modifies ctx`runenv
    ensures ctx.runenv == InstallEnvOf(old(ctx.runenv), pkgPath, environ, pathExists)
  {
    var prevbinpath := Strs.Split(GetEnv(environ, "PATH"), ':');
    var binpath := Paths.Join(pkgPath, ["install/bin"]);
    if pathExists(binpath) {
      var cur := if "PATH" in ctx.runenv then ctx.runenv["PATH"] else prevbinpath;
      ctx.runenv := ctx.runenv["PATH" := [binpath] + cur];
    }
    var prevlibpath := Strs.Split(GetEnv(environ, "LD_LIBRARY_PATH"), ':');
    var libpath := Paths.Join(pkgPath, ["install/lib"]);
    if pathExists(libpath) {
      var cur := if "LD_LIBRARY_PATH" in ctx.runenv then ctx.runenv["LD_LIBRARY_PATH"] else prevlibpath;
      ctx.runenv := ctx.runenv["LD_LIBRARY_PATH" := [libpath] + cur];
    }
  }

  /**
   * What `install_env` promises: an existing `install/bin` is searched first
   * on `PATH` and an existing `install/lib` first on `LD_LIBRARY_PATH`, in
   * front of what was there (or of the process environment's value); a
   * missing directory leaves its variable alone; nothing else changes.
   */
  lemma InstallEnvSpec(runenv: map<string, seq<string>>, pkgPath: string, environ: map<string, string>, pathExists: string -> bool)
    ensures var r := InstallEnvOf(runenv, pkgPath, environ, pathExists);
      var bin := Paths.Join(pkgPath, ["install/bin"]);
      var lib := Paths.Join(pkgPath, ["install/lib"]);
      && (pathExists(bin) ==> "PATH" in r && r["PATH"] == [bin] + (if "PATH" in runenv then runenv["PATH"] else Strs.Split(GetEnv(environ, "PATH"), ':')))
      && (!pathExists(bin) ==> ("PATH" in r <==> "PATH" in runenv) && ("PATH" in runenv ==> r["PATH"] == runenv["PATH"]))
      && (pathExists(lib) ==> "LD_LIBRARY_PATH" in r && r["LD_LIBRARY_PATH"][0] == lib)
      && (pathExists(lib) ==> r["LD_LIBRARY_PATH"][1..] == if "LD_LIBRARY_PATH" in runenv then runenv["LD_LIBRARY_PATH"]
                                                      else Strs.Split(GetEnv(environ, "LD_LIBRARY_PATH"), ':'))
      && forall k :: k != "PATH" && k != "LD_LIBRARY_PATH" ==> (k in r <==> k in runenv) && (k in runenv ==> r[k] == runenv[k])
  {
    var bin := Paths.Join(pkgPath, ["install/bin"]);
    if pathExists(bin) {
      var r1 := Prepend(runenv, "PATH", bin, environ);
      assert r1["PATH"] == [bin] + r1["PATH"][1..];
    }
  }

  /** Installing the same package twice prepends its directory twice: the list is not de-duplicated. */
  lemma InstallEnvTwice(runenv: map<string, seq<string>>, pkgPath: string, environ: map<string, string>, pathExists: string -> bool)
    requires pathExists(Paths.Join(pkgPath, ["install/bin"]))
    ensures var bin := Paths.Join(pkgPath, ["install/bin"]);
      var r := InstallEnvOf(InstallEnvOf(runenv, pkgPath, environ, pathExists), pkgPath, environ, pathExists);
      "PATH" in r && |r["PATH"]| >= 2 && r["PATH"][0] == bin && r["PATH"][1] == bin
  {
    InstallEnvSpec(runenv, pkgPath, environ, pathExists);
    var r1 := InstallEnvOf(runenv, pkgPath, environ, pathExists);
    InstallEnvSpec(r1, pkgPath, environ, pathExists);
  }

  // ---------------------------------------------------------------------
  // Post-build hooks.

  /** One call `hook(ctx, absbin)`, made with `basedir` as working directory. */
  datatype HookCall<H> = HookCall(hook: H, absbin: string, basedir: string)

  /** `os.path.abspath(binary)` relative to the working directory `cwd` (without `normpath`). */
  function AbsPath(cwd: string, p: string): string
  {
    Paths.Join(cwd, [p])
  }

  /** The calls for one binary: every hook, in order. */
  function BinaryCalls<H>(hooks: seq<H>, absbin: string): (r: seq<HookCall<H>>)
    ensures |r| == |hooks| && forall h :: 0 <= h < |hooks| ==> r[h] == HookCall(hooks[h], absbin, Paths.Dirname(absbin))
  {
    seq(|hooks|, h requires 0 <= h < |hooks| => HookCall(hooks[h], absbin, Paths.Dirname(absbin)))
  }

  /**
   * The working directory once the hooks of binary `bin` have run, starting
   * in `cwd`: every hook call is preceded by `os.chdir(basedir)`.
   */
  function CwdAfter<H>(hooks: seq<H>, cwd: string, bin: string): string
  {
    if |hooks| == 0 then cwd else Paths.Dirname(AbsPath(cwd, bin))
  }

  /**
   * The working directory in which binary `b` is made absolute: the
   * starting one for the first binary, and for each later one whatever
   * directory the hooks of the previous binary left the process in.
   */
  function CwdAt<H>(bins: seq<string>, hooks: seq<H>, cwd: string, b: nat): string
    requires b <= |bins|
  {
    if b == 0 then cwd else CwdAfter(hooks, CwdAt(bins, hooks, cwd, b - 1), bins[b - 1])
  }

  /** `os.path.abspath(binary)` as `run_hooks_post_build` evaluates it for binary `b`. */
  function AbsAt<H>(bins: seq<string>, hooks: seq<H>, cwd: string, b: nat): string
    requires b < |bins|
  {
    AbsPath(CwdAt(bins, hooks, cwd, b), bins[b])
  }

  /** The directory binary `b` sees depends only on the binaries before it. */
  lemma {:induction false} CwdAtPrefix<H>(bins: seq<string>, hooks: seq<H>, cwd: string, n: nat, b: nat)
    requires b <= n <= |bins|
    ensures CwdAt(bins[..n], hooks, cwd, b) == CwdAt(bins, hooks, cwd, b)
    decreases b
  {
    if b > 0 {
      CwdAtPrefix(bins, hooks, cwd, n, b - 1);
      assert bins[..n][b - 1] == bins[b - 1];
    }
  }

  /** The calls for all binaries, binary-major. */
  function HookCalls<H>(bins: seq<string>, hooks: seq<H>, cwd: string): seq<HookCall<H>>
  {
    if |bins| == 0 then []
    else HookCalls(bins[..|bins| - 1], hooks, cwd) + BinaryCalls(hooks, AbsPath(CwdAt(bins, hooks, cwd, |bins| - 1), bins[|bins| - 1]))
  }

  /**
   * There are |binaries| × |hooks| calls, and call number `b·|hooks| + h` is
   * hook `h` on binary `b`, made absolute in the directory the previous
   * binary's hooks left the process in, and run in that binary's directory.
   */
  lemma HookCallsAt<H>(bins: seq<string>, hooks: seq<H>, cwd: string)
    ensures |HookCalls(bins, hooks, cwd)| == |bins| * |hooks|
    ensures forall b, h :: 0 <= b < |bins| && 0 <= h < |hooks| ==>
      HookCalls(bins, hooks, cwd)[b * |hooks| + h] == HookCall(hooks[h], AbsAt(bins, hooks, cwd, b), Paths.Dirname(AbsAt(bins, hooks, cwd, b)))
  {
    HookCallsLength(bins, hooks, cwd);
    forall b, h | 0 <= b < |bins| && 0 <= h < |hooks|
      ensures b * |hooks| + h < |HookCalls(bins, hooks, cwd)|
      ensures HookCalls(bins, hooks, cwd)[b * |hooks| + h] == HookCall(hooks[h], AbsAt(bins, hooks, cwd, b), Paths.Dirname(AbsAt(bins, hooks, cwd, b)))
    {
      HookCallAt(bins, hooks, cwd, b, h);
    }
  }

  lemma {:induction false} HookCallsLength<H>(bins: seq<string>, hooks: seq<H>, cwd: string)
    ensures |HookCalls(bins, hooks, cwd)| == |bins| * |hooks|
    decreases |bins|
  {
    if |bins| > 0 {
      HookCallsLength(bins[..|bins| - 1], hooks, cwd);
      assert |bins| * |hooks| == (|bins| - 1) * |hooks| + |hooks|;
    }
  }

  /** One entry of the grid, by induction on the number of binaries. */
  lemma {:induction false} HookCallAt<H>(bins: seq<string>, hooks: seq<H>, cwd: string, b: nat, h: nat)
    requires b < |bins| && h < |hooks|
    ensures b * |hooks| + h < |HookCalls(bins, hooks, cwd)|
    ensures HookCalls(bins, hooks, cwd)[b * |hooks| + h] == HookCall(hooks[h], AbsAt(bins, hooks, cwd, b), Paths.Dirname(AbsAt(bins, hooks, cwd, b)))
    decreases |bins|
  {
    var init := bins[..|bins| - 1];
    var last := BinaryCalls(hooks, AbsAt(bins, hooks, cwd, |bins| - 1));
    HookCallsLength(init, hooks, cwd);
    RowIndex(HookCalls(init, hooks, cwd), last, |bins| - 1, |hooks|, b, h);
    if b < |bins| - 1 {
      HookCallAt(init, hooks, cwd, b, h);
      CwdAtPrefix(bins, hooks, cwd, |bins| - 1, b);
      assert init[b] == bins[b];
    }
  }

  /**
   * A relative binary after the first is resolved against the directory of
   * the binary before it: with one hook, `a/x` and then `b/y` from `/w`
   * give the calls on `/w/a/x` and on `/w/a/b/y`.
   */
  lemma ChdirCarries<H>(hook: H)
    ensures HookCalls(["a/x", "b/y"], [hook], "/w") ==
      [HookCall(hook, "/w/a/x", "/w/a"), HookCall(hook, "/w/a/b/y", "/w/a/b")]
  {
    var bins, hooks := ["a/x", "b/y"], [hook];
    RelativeStep("/w", "a/x");
    RelativeStep("/w/a", "b/y");
    assert "/w" + "/" + "a/x" == "/w/a/x";
    assert "/w/a" + "/" + "b/y" == "/w/a/b/y";
    ExampleDirnames();
    assert AbsAt(bins, hooks, "/w", 0) == "/w/a/x";
    assert CwdAt(bins, hooks, "/w", 1) == "/w/a";
    assert AbsAt(bins, hooks, "/w", 1) == "/w/a/b/y";
    HookCallAt(bins, hooks, "/w", 0, 0);
    HookCallAt(bins, hooks, "/w", 1, 0);
    HookCallsLength(bins, hooks, "/w");
  }

  /** A relative `bin` made absolute in `cwd` is `cwd/bin`. */
  lemma RelativeStep(cwd: string, bin: string)
    requires |cwd| > 0 && cwd[|cwd| - 1] != '/' && |bin| > 0 && bin[0] != '/'
    ensures AbsPath(cwd, bin) == cwd + "/" + bin
  {
    assert !Strs.StartsWith(bin, "/") by { assert bin[..1][0] != "/"[0]; }
    Paths.JoinRelative(cwd, bin);
  }

  /** The directories of the two binaries of `ChdirCarries`. */
  lemma ExampleDirnames()
    ensures Paths.Dirname("/w/a/x") == "/w/a" && Paths.Dirname("/w/a/b/y") == "/w/a/b"
  {
    var d1, d2 := "/w/a", "/w/a/b";
    assert d1[1] == 'w' && d1[|d1| - 1] == 'a' && d2[1] == 'w' && d2[|d2| - 1] == 'b';
    DirnameOfRelative(d1, "x");
    DirnameOfRelative(d2, "y");
    assert d1 + "/" + "x" == "/w/a/x";
    assert d2 + "/" + "y" == "/w/a/b/y";
  }

  /** The directory of `dir/name` is `dir`, for a `dir` that starts with a letter after its slash. */
  lemma DirnameOfRelative(dir: string, name: string)
    requires |dir| >= 2 && dir[1] != '/' && dir[|dir| - 1] != '/'
    requires forall k :: 0 <= k < |name| ==> name[k] != '/'
    ensures Paths.Dirname(dir + "/" + name) == dir
  {
    var p := dir + "/" + name;
    AfterSlashOf(dir + "/", name);
    var head := p[..Paths.AfterLastSlash(p)];
    assert head == dir + "/";
    assert head[1] != '/';
    assert Paths.StripSlashes(head) == Paths.StripSlashes(dir);
  }

  /** Appending slash-free text after a trailing slash keeps the cut after that slash. */
  lemma {:induction false} AfterSlashOf(head: string, name: string)
    requires |head| > 0 && head[|head| - 1] == '/'
    requires forall k :: 0 <= k < |name| ==> name[k] != '/'
    ensures Paths.AfterLastSlash(head + name) == |head|
    decreases |name|
  {
    if |name| > 0 {
      assert (head + name)[..|head + name| - 1] == head + name[..|name| - 1];
      AfterSlashOf(head, name[..|name| - 1]);
    } else {
      assert head + name == head;
    }
  }

  /** Indexing a grid of `m` rows of `n` entries followed by one more row of `n`. */
  lemma RowIndex<T>(prefix: seq<T>, row: seq<T>, m: nat, n: nat, b: nat, h: nat)
    requires |prefix| == m * n && |row| == n && b <= m && h < n
    ensures |prefix + row| == (m + 1) * n
    ensures b < m ==> b * n + h < |prefix| && (prefix + row)[b * n + h] == prefix[b * n + h]
    ensures b == m ==> (prefix + row)[b * n + h] == row[h]
  {
    assert (m + 1) * n == m * n + n;
    if b < m {
      assert (b + 1) * n == b * n + n;
      MulLe(b + 1, m, n);
    }
  }

  lemma {:induction false} MulLe(x: nat, y: nat, n: nat)
    requires x <= y
    ensures x * n <= y * n
    decreases y - x
  {
    if x < y {
      MulLe(x, y - 1, n);
      assert y * n == (y - 1) * n + n;
    }
  }

  lemma BinaryCallsStep<H>(hooks: seq<H>, absbin: string, h: nat)
    requires h < |hooks|
    ensures BinaryCalls(hooks[..h + 1], absbin) == BinaryCalls(hooks[..h], absbin) + [HookCall(hooks[h], absbin, Paths.Dirname(absbin))]
  {
  }

  lemma HookCallsStep<H>(bins: seq<string>, hooks: seq<H>, cwd: string, b: nat)
    requires b < |bins|
    ensures HookCalls(bins[..b + 1], hooks, cwd) == HookCalls(bins[..b], hooks, cwd) + BinaryCalls(hooks, AbsAt(bins, hooks, cwd, b))
  {
    assert bins[..b + 1][..b] == bins[..b];
    CwdAtPrefix(bins, hooks, cwd, b + 1, b);
  }

  /**
   * `run_hooks_post_build`: `binaryPaths` is what `binary_paths` returns
   * (`Err(NotImplementedError)` when the target does not override it), `cwd`
   * the working directory it starts in and `cwd'` the one it leaves.
   */
  method RunHooksPostBuild<H>(binaryPaths: Result<seq<string>>, hooks: seq<H>, cwd: string)
    returns (calls: seq<HookCall<H>>, cwd': string, err: Option<Error>)
    ensures binaryPaths.Err? ==> err == Some(binaryPaths.error) && calls == [] && cwd' == cwd
    ensures binaryPaths.Ok? ==> err.None? && calls == HookCalls(binaryPaths.value, hooks, cwd)
                                && cwd' == CwdAt(binaryPaths.value, hooks, cwd, |binaryPaths.value|)
  {
    calls, cwd', err := [], cwd, None;
    if binaryPaths.Err? {
      err := Some(binaryPaths.error);
      return;
    }
    var bins := binaryPaths.value;
    for b := 0 to |bins|
      invariant calls == HookCalls(bins[..b], hooks, cwd)
      invariant cwd' == CwdAt(bins, hooks, cwd, b)
    {
      var absbin := AbsPath(cwd', bins[b]);
      var basedir := Paths.Dirname(absbin);
      var c0, d0 := calls, cwd';
      for h := 0 to |hooks|
        invariant calls == c0 + BinaryCalls(hooks[..h], absbin)
        invariant cwd' == if h == 0 then d0 else basedir
      {
        BinaryCallsStep(hooks, absbin, h);
        cwd' := basedir;
        calls := calls + [HookCall(hooks[h], absbin, basedir)];
      }
      assert hooks[..|hooks|] == hooks;
      HookCallsStep(bins, hooks, cwd, b);
    }
    assert bins[..|bins|] == bins;
  }

  /** The default `binary_paths`. */
  function DefaultBinaryPaths(): (r: Result<seq<string>>)
    ensures r == Err(NotImplementedError)
  {
    Err(NotImplementedError)
  }
}
