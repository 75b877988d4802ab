/**
 * The LLVM-passes package descriptors of packages/llvm_passes.py: a package
 * built from a user-supplied source directory, optionally depending on the
 * passes that ship with the infrastructure for one LLVM version.
 */
module LlvmPasses {

  import opened Wrappers
  import Strs
  import Paths
  import Context
  import Lto
  import PackageTarget

  /** `strip_prefix(prefix, full)`. */
  function StripPrefix(prefix: string, full: string): (r: string)
    ensures Strs.StartsWith(full, prefix) ==> prefix + r == full
    ensures !Strs.StartsWith(full, prefix) ==> r == full
  {
    if Strs.StartsWith(full, prefix) then full[|prefix|..] else full
  }

  /** The LLVM package the passes are built against: its identity and version. */
  datatype Llvm = Llvm(ident: string, version: string)

  /**
   * `LLVMPasses` and its subclass `BuiltinLLVMPasses`.  A builtin package is
   * constructed with no source directory, the suffix `builtin-<version>` and
   * no builtin passes of its own.
   */
  datatype Passes =
    | Custom(llvm: Llvm, customSrcdir: Option<string>, buildSuffix: string, useBuiltins: bool)
    | Builtin(llvm: Llvm)

  /** `LLVMPasses(llvm, custom_srcdir, build_suffix, use_builtins)`: an empty source directory is falsy and becomes `None`. */
  function New(llvm: Llvm, customSrcdir: string, buildSuffix: string, useBuiltins: bool, cwd: string): (r: Passes)
    ensures r.Custom? && r.llvm == llvm && r.buildSuffix == buildSuffix && r.useBuiltins == useBuiltins
    ensures r.customSrcdir.None? <==> customSrcdir == ""
    ensures r.customSrcdir.Some? ==> r.customSrcdir.value == PackageTarget.AbsPath(cwd, customSrcdir)
  {
    Custom(llvm, if customSrcdir == "" then None else Some(PackageTarget.AbsPath(cwd, customSrcdir)), buildSuffix, useBuiltins)
  }

  /** The `build_suffix` attribute. */
  function BuildSuffix(p: Passes): string
  {
    match p
    case Custom(_, _, suffix, _) => suffix
    case Builtin(llvm) => "builtin-" + llvm.version
  }

  /** The `builtin_passes` attribute. */
  function BuiltinPasses(p: Passes): Option<Passes>
  {
    if p.Custom? && p.useBuiltins then Some(Builtin(p.llvm)) else None
  }

  /** `ident()`. */
  function Ident(p: Passes): (r: string)
    ensures Strs.StartsWith(r, "llvm-passes-") && r[12..] == BuildSuffix(p)
  {
    "llvm-passes-" + BuildSuffix(p)
  }

  /** The builtin passes of one LLVM version are named after that version. */
  lemma BuiltinIdent(llvm: Llvm)
    ensures Ident(Builtin(llvm)) == "llvm-passes-builtin-" + llvm.version
    ensures Ident(Builtin(llvm)) == Ident(Custom(llvm, None, "builtin-" + llvm.version, false))
  {
  }

  /** Two packages with different build suffixes have different identities. */
  lemma IdentInjective(p: Passes, q: Passes)
    requires BuildSuffix(p) != BuildSuffix(q)
    ensures Ident(p) != Ident(q)
  {
    assert Ident(p)[12..] == BuildSuffix(p);
  }

  /** A dependency: the LLVM package or a passes package. */
  datatype Dep = OnLlvm(llvm: Llvm) | OnPasses(passes: Passes)

  /** `dependencies()`: LLVM first, then the builtin passes when there are any. */
  function Dependencies(p: Passes): (r: seq<Dep>)
    ensures 1 <= |r| <= 2 && r[0] == OnLlvm(p.llvm)
    ensures |r| == 2 <==> p.Custom? && p.useBuiltins
    ensures |r| == 2 ==> r[1] == OnPasses(Builtin(p.llvm))
  {
    match BuiltinPasses(p)
    case None => [OnLlvm(p.llvm)]
    case Some(b) => [OnLlvm(p.llvm), OnPasses(b)]
  }

  /** The builtin passes depend on LLVM alone, so the dependency chain stops after one step. */
  lemma BuiltinDependsOnLlvmOnly(p: Passes)
    requires p.Custom? && p.useBuiltins
    ensures Dependencies(Dependencies(p)[1].passes) == [OnLlvm(p.llvm)]
  {
  }

  /**
   * `srcdir(ctx, *subdirs)`: a custom package's directory must exist (a
   * `FatalError` otherwise; with no directory, `os.path.exists(None)` raises
   * `TypeError`); the builtin passes live under `<infra>/llvm-passes/<version>`.
   */
  function Srcdir(p: Passes, infra: string, subdirs: seq<string>, pathExists: string -> bool): (r: Result<string>)
    ensures p.Custom? ==> (r.Ok? <==> p.customSrcdir.Some? && pathExists(p.customSrcdir.value))
    ensures p.Custom? && r.Ok? ==> r.value == p.customSrcdir.value
    ensures p.Custom? && p.customSrcdir.Some? && r.Err? ==>
      r.error == FatalError("llvm-passes dir \"" + p.customSrcdir.value + "\" does not exist")
    ensures p.Builtin? ==> r == Ok(Paths.Join(infra, ["llvm-passes", p.llvm.version] + subdirs))
  {
    match p
    case Custom(_, srcdir, _, _) =>
      if srcdir.None? then Err(TypeError("stat: path should be string, bytes, os.PathLike or integer, not NoneType"))
      else if !pathExists(srcdir.value) then Err(FatalError("llvm-passes dir \"" + srcdir.value + "\" does not exist"))
      else Ok(srcdir.value)
    case Builtin(llvm) => Ok(Paths.Join(infra, ["llvm-passes", llvm.version] + subdirs))
  }

  /** The three libraries the builtin passes produce. */
  const BuiltinFiles: seq<string> := ["libpasses-builtin.a", "libpasses.so", "libpasses-opt.so"]

  /** `is_fetched()`: nothing is ever downloaded. */
  function IsFetched(p: Passes): bool
  {
    true
  }

  /** Whether every builtin library exists under `dir`. */
  predicate AllBuiltinFilesIn(dir: string, pathExists: string -> bool)
  {
    forall k :: 0 <= k < |BuiltinFiles| ==> pathExists(dir + BuiltinFiles[k])
  }

  /** `is_built()`: custom passes are always rebuilt; builtin ones are built once their libraries are in `obj/`. */
  function IsBuilt(p: Passes, pathExists: string -> bool): bool
  {
    p.Builtin? && AllBuiltinFilesIn("obj/", pathExists)
  }

  /** `is_installed()`: likewise with `install/`. */
  function IsInstalled(p: Passes, pathExists: string -> bool): bool
  {
    p.Builtin? && AllBuiltinFilesIn("install/", pathExists)
  }

  /** Custom passes report fetched and never built or installed, whatever is on disk. */
  lemma CustomStatus(p: Passes, pathExists: string -> bool)
    requires p.Custom?
    ensures IsFetched(p) && !IsBuilt(p, pathExists) && !IsInstalled(p, pathExists)
  {
  }

  /** The builtin passes are built (installed) exactly when all three libraries are in `obj/` (`install/`). */
  lemma BuiltinStatus(llvm: Llvm, pathExists: string -> bool)
    ensures IsBuilt(Builtin(llvm), pathExists) <==> AllThreeIn("obj/", pathExists)
    ensures IsInstalled(Builtin(llvm), pathExists) <==> AllThreeIn("install/", pathExists)
  {
    AllBuiltinFiles("obj/", pathExists);
    AllBuiltinFiles("install/", pathExists);
  }

  /** The three libraries, named one by one. */
  predicate AllThreeIn(dir: string, pathExists: string -> bool)
  {
    pathExists(dir + "libpasses-builtin.a") && pathExists(dir + "libpasses.so") && pathExists(dir + "libpasses-opt.so")
  }

  lemma AllBuiltinFiles(dir: string, pathExists: string -> bool)
    ensures AllBuiltinFilesIn(dir, pathExists) <==> AllThreeIn(dir, pathExists)
  {
    assert BuiltinFiles[0] == "libpasses-builtin.a" && BuiltinFiles[1] == "libpasses.so" && BuiltinFiles[2] == "libpasses-opt.so";
  }

  /** `self.path(ctx, 'install/libpasses.so')` under the package root `root`. */
  function LibPath(root: string, p: Passes): string
  {
    PackageTarget.TreePath(root, Ident(p), ["install/libpasses.so"])
  }

  /**
   * Under a root without a trailing '/', and for a suffix without one, the
   * library is `<root>/<ident>/install/libpasses.so`.
   */
  lemma LibPathUnderRoot(root: string, p: Passes)
    requires |root| > 0 && root[|root| - 1] != '/'
    requires |BuildSuffix(p)| == 0 || BuildSuffix(p)[|BuildSuffix(p)| - 1] != '/'
    ensures LibPath(root, p) == root + "/" + Ident(p) + "/install/libpasses.so"
  {
    var id := Ident(p);
    var lib := "install/libpasses.so";
    IdentEnds(p);
    NoLeadingSlash(id);
    PackageTarget.TreePathExtends(root, id, [lib]);
    PackageTarget.TreePathOfRoot(root, id);
    var dir := root + "/" + id;
    assert |dir| > 0 && dir[|dir| - 1] == id[|id| - 1];
    NoLeadingSlash(lib);
    Paths.JoinRelative(dir, lib);
    LibSuffix(dir);
  }

  lemma NoLeadingSlash(s: string)
    requires |s| > 0 && s[0] != '/'
    ensures !Strs.StartsWith(s, "/")
  {
    assert s[..1][0] == s[0];
  }

  lemma LibSuffix(dir: string)
    ensures dir + "/" + "install/libpasses.so" == dir + "/install/libpasses.so"
  {
  }

  /** The identity starts with a letter and, for a suffix without a trailing '/', does not end in one. */
  lemma IdentEnds(p: Passes)
    requires |BuildSuffix(p)| == 0 || BuildSuffix(p)[|BuildSuffix(p)| - 1] != '/'
    ensures |Ident(p)| > 0 && Ident(p)[0] == 'l' && Ident(p)[|Ident(p)| - 1] != '/'
  {
    var id := Ident(p);
    assert id[0] == 'l';
    if |BuildSuffix(p)| == 0 {
      assert id == "llvm-passes-";
    } else {
      assert id[|id| - 1] == BuildSuffix(p)[|BuildSuffix(p)| - 1];
    }
  }

  /** `configure(ctx)`: compile and link with LTO, and load the passes into the linker plugin. */
  method Configure(ctx: Context.Ctx, root: string, p: Passes)
    modifies ctx`cflags, ctx`ldflags
    ensures ctx.cflags == old(ctx.cflags) + ["-flto"]
    ensures ctx.ldflags == old(ctx.ldflags) + ["-flto", Lto.PluginOpt("-load=" + LibPath(root, p))]
  {
    var libpath := LibPath(root, p);
    assert "-Wl,-plugin-opt=" + ("-load=" + libpath) == "-Wl,-plugin-opt=-load=" + libpath;
    ctx.cflags := ctx.cflags + ["-flto"];
    ctx.ldflags := ctx.ldflags + ["-flto", "-Wl,-plugin-opt=-load=" + libpath];
  }
}
