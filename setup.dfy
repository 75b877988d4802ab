/**
 * The build driver of the setup script: the option defaults, the pool
 * choice, the name registries and the `build`, `clean` and `run` commands
 * (`Setup` in infra/setup.py and its legacy twin in setup.py, whose
 * `run_build` is the same code without a job pool).
 *
 * Packages, targets and instances are `Obj` values.  Python compares
 * packages by class and `ident()`, targets and instances by class and
 * `name`; a datatype's equality is exactly that.  What the objects do to the
 * context is given by the functions `configure`, `installEnv` and
 * `prepareRun`; the context itself is an abstract value `C`, and
 * `ctx.copy()` followed by `self.ctx = oldctx` is taking and restoring that
 * value.  Fetching, building and installing are recorded as events rather
 * than performed.
 */
module Setup {

  import opened Wrappers
  import Strs
  import Deps

  datatype Obj =
    | Pkg(cls: string, ident: string)
    | Tgt(cls: string, name: string)
    | Inst(cls: string, name: string)

  /** What a command asks the packages and targets to do, in order. */
  datatype Event<C> =
    | CleanPackage(p: Obj)
    | CleanTarget(t: Obj)
    | FetchPackage(p: Obj, force: bool)
    | FetchTarget(t: Obj)
    | BuildPackage(p: Obj, force: bool)     // `_build_package` + `_install_package`
    | BuildTarget(t: Obj, i: Obj, ctx: C, compile: bool)  // `build` when `compile`, then `link` and the post-build hooks
    | RunTarget(t: Obj, i: Obj, ctx: C, sched: Option<Sched>)  // `run`, or `run_parallel` with a scheduler

  /**
   * The `PrunScheduler(prun_parallelmax, iterations, prun_opts)` that the
   * legacy `run --prun` hands to `target.run_parallel`; a fresh one per pair.
   */
  datatype Sched = Sched(parallelmax: int, iterations: int, opts: seq<string>)

  // ---------------------------------------------------------------------
  // Option defaults.

  const MaxDefaultJobs: nat := 16
  const PrunDefaultParallelmax: int := 64

  /** `nproc = min(cpu_count(), _max_default_jobs)` in infra/setup.py. */
  function DefaultJobs(ncpus: nat): (n: nat)
    ensures n <= ncpus && n <= MaxDefaultJobs
    ensures n == ncpus || n == MaxDefaultJobs
  {
    if ncpus < MaxDefaultJobs then ncpus else MaxDefaultJobs
  }

  /** `nproc = max(cpu_count(), 16)` in the legacy setup.py: never fewer than 16 jobs. */
  function LegacyDefaultJobs(ncpus: nat): (n: nat)
    ensures n >= ncpus && n >= 16
    ensures n == ncpus || n == 16
  {
    if ncpus > 16 then ncpus else 16
  }

  /** The value of `--parallel`. */
  datatype Parallel = NoParallel | ProcParallel | PrunParallel

  /** `args.parallelmax` after `_parse_argv` filled in its default. */
  function ParallelmaxDefault(mode: Parallel, given: Option<int>, ncpus: nat): (r: Option<int>)
    ensures given.Some? ==> r == given
    ensures given.None? ==> (r.None? <==> mode == NoParallel)
    ensures given.None? && mode == ProcParallel ==> r == Some(DefaultJobs(ncpus))
    ensures given.None? && mode == PrunParallel ==> r == Some(PrunDefaultParallelmax)
  {
    if given.Some? then given
    else match mode
      case ProcParallel => Some(DefaultJobs(ncpus))
      case PrunParallel => Some(PrunDefaultParallelmax)
      case NoParallel => None
  }

  datatype Pool =
    | ProcessPool(parallelmax: Option<int>)
    | PrunPool(parallelmax: Option<int>, prunOpts: seq<string>)

  /** Python truthiness of an optional integer: `None` and `0` are false. */
  predicate Truthy(v: Option<int>)
  {
    v.Some? && v.value != 0
  }

  /** `_make_pool`: the pool for the parallel mode, or the option error. */
  function MakePool(mode: Parallel, parallelmax: Option<int>, prunOpts: seq<string>): (r: Result<Option<Pool>>)
    ensures r.Err? <==> ((mode == ProcParallel && |prunOpts| > 0)
                         || (mode == NoParallel && (Truthy(parallelmax) || |prunOpts| > 0)))
    ensures r.Ok? ==> (r.value.None? <==> mode == NoParallel)
    ensures r.Ok? && mode == ProcParallel ==> r.value == Some(ProcessPool(parallelmax))
    ensures r.Ok? && mode == PrunParallel ==> r.value == Some(PrunPool(parallelmax, prunOpts))
  {
    match mode
    case ProcParallel =>
      if |prunOpts| > 0 then Err(FatalError("--prun-opts not supported for --parallel=proc"))
      else Ok(Some(ProcessPool(parallelmax)))
    case PrunParallel => Ok(Some(PrunPool(parallelmax, prunOpts)))
    case NoParallel =>
      if Truthy(parallelmax) then Err(FatalError("--parallelmax not supported for --parallel=none"))
      else if |prunOpts| > 0 then Err(FatalError("--prun-opts not supported for --parallel=none"))
      else Ok(None)
  }

  /**
   * Without `--parallelmax` and `--prun-opts` the filled-in default is never
   * rejected, and a process pool gets the default job count as its limit.
   */
  lemma DefaultsAccepted(mode: Parallel, ncpus: nat)
    ensures var r := MakePool(mode, ParallelmaxDefault(mode, None, ncpus), []);
      r.Ok? && (mode == ProcParallel ==> r.value == Some(ProcessPool(Some(DefaultJobs(ncpus)))))
  {
  }

  // ---------------------------------------------------------------------
  // Request validation and the forced/separate split.

  /** The checks at the top of `run_build`: which requests are refused. */
  function CheckBuildRequest(depsOnly: bool, nt: nat, ni: nat, np: nat): (e: Option<Error>)
    ensures e.None? <==> if depsOnly then nt > 0 || ni > 0 || np > 0 else (nt > 0 && ni > 0) || np > 0
    ensures e.Some? ==> e.value.FatalError?
  {
    if depsOnly then
      if nt == 0 && ni == 0 && np == 0 then Some(FatalError("no targets or instances specified")) else None
    else if (nt == 0 || ni == 0) && np == 0 then Some(FatalError("need at least one target and instance to build"))
    else None
  }

  /** The requested packages that are not among the dependencies, in request order. */
  function Separate(packages: seq<Obj>, deps: seq<Obj>): (s: seq<Obj>)
    ensures forall p :: p in s <==> p in packages && p !in deps
    ensures |s| <= |packages|
  {
    if |packages| == 0 then []
    else
      var rest := Separate(packages[..|packages| - 1], deps);
      var p := packages[|packages| - 1];
      assert forall q :: q in packages <==> q in packages[..|packages| - 1] || q == p;
      if p in deps then rest else rest + [p]
  }

  /** The loop that splits `packages` into `force_deps` and `separate_packages`. */
  method Partition(packages: seq<Obj>, deps: seq<Obj>) returns (forceDeps: set<Obj>, separate: seq<Obj>)
    ensures forceDeps == set p | p in packages && p in deps
    ensures separate == Separate(packages, deps)
  {
    forceDeps, separate := {}, [];
    for k := 0 to |packages|
      invariant forceDeps == set p | p in packages[..k] && p in deps
      invariant separate == Separate(packages[..k], deps)
    {
      assert packages[..k + 1][..k] == packages[..k];
      assert forall q :: q in packages[..k + 1] <==> q in packages[..k] || q == packages[k];
      if packages[k] in deps {
        forceDeps := forceDeps + {packages[k]};
      } else {
        separate := separate + [packages[k]];
      }
    }
    assert packages[..|packages|] == packages;
  }

  /** Every requested package lands in exactly one of the two parts. */
  lemma PartitionExact(packages: seq<Obj>, deps: seq<Obj>)
    ensures var forceDeps := set p | p in packages && p in deps;
      (forall p :: p in packages <==> p in forceDeps || p in Separate(packages, deps))
      && (forall p :: !(p in forceDeps && p in Separate(packages, deps)))
  {
  }

  // ---------------------------------------------------------------------
  // Views of an event trace, each defined from the last event backwards.

  /** The packages built, in order. */
  function Built<C>(trace: seq<Event<C>>): seq<Obj>
  {
    if |trace| == 0 then []
    else
      var e := trace[|trace| - 1];
      Built(trace[..|trace| - 1]) + if e.BuildPackage? then [e.p] else []
  }

  /** The (target, instance) pairs built, in order. */
  function TargetBuilds<C>(trace: seq<Event<C>>): seq<(Obj, Obj)>
  {
    if |trace| == 0 then []
    else
      var e := trace[|trace| - 1];
      TargetBuilds(trace[..|trace| - 1]) + if e.BuildTarget? then [(e.t, e.i)] else []
  }

  /** The (target, instance) pairs run, in order. */
  function TargetRuns<C>(trace: seq<Event<C>>): seq<(Obj, Obj)>
  {
    if |trace| == 0 then []
    else
      var e := trace[|trace| - 1];
      TargetRuns(trace[..|trace| - 1]) + if e.RunTarget? then [(e.t, e.i)] else []
  }

  /** Every target paired with one instance, in target order. */
  function Row(i: Obj, ts: seq<Obj>): (r: seq<(Obj, Obj)>)
    ensures |r| == |ts| && forall k :: 0 <= k < |ts| ==> r[k] == (ts[k], i)
  {
    seq(|ts|, k requires 0 <= k < |ts| => (ts[k], i))
  }

  /** All (target, instance) pairs, instance-major. */
  function Pairs(insts: seq<Obj>, ts: seq<Obj>): seq<(Obj, Obj)>
  {
    if |insts| == 0 then [] else Pairs(insts[..|insts| - 1], ts) + Row(insts[|insts| - 1], ts)
  }

  lemma RowStep(i: Obj, ts: seq<Obj>, j: nat)
    requires j < |ts|
    ensures Row(i, ts[..j + 1]) == Row(i, ts[..j]) + [(ts[j], i)]
  {
  }

  lemma PairsStep(insts: seq<Obj>, ts: seq<Obj>, n: nat)
    requires n < |insts|
    ensures Pairs(insts[..n + 1], ts) == Pairs(insts[..n], ts) + Row(insts[n], ts)
  {
    assert insts[..n + 1][..n] == insts[..n];
  }

  /** There are |instances| × |targets| pairs and each shows up once. */
  lemma {:induction false} PairsCount(insts: seq<Obj>, ts: seq<Obj>)
    ensures |Pairs(insts, ts)| == |insts| * |ts|
  {
    if |insts| > 0 {
      PairsCount(insts[..|insts| - 1], ts);
    }
  }

  /** At most one event per built package: the `built_packages` set keeps its promise. */
  ghost predicate BuildsOnce<C>(built: set<Obj>, trace: seq<Event<C>>)
  {
    Strs.NoDuplicates(Built(trace)) && forall p :: p in Built(trace) <==> p in built
  }

  // ---------------------------------------------------------------------
  // The setup object.

  class Setup<C> {
    /** `obj.dependencies()`. */
    const g: Obj -> seq<Obj>
    /** Every object there is; closed under `g`. */
    ghost const U: set<Obj>
    /** `instance.configure(ctx)`. */
    const configure: (Obj, C) -> C
    /** `package.install_env(ctx)`. */
    const installEnv: (Obj, C) -> C
    /** `instance.prepare_run(ctx)`. */
    const prepareRun: (Obj, C) -> C
    /** `ctx.jobs = n`. */
    const setJobs: (C, nat) -> C

    /** `self.targets` and `self.instances` as ordered dictionaries: keys in insertion order. */
    var targetNames: seq<string>
    var targets: map<string, Obj>
    var instanceNames: seq<string>
    var instances: map<string, Obj>
    var ctx: C

    ghost predicate Registry(names: seq<string>, m: map<string, Obj>, isTarget: bool)
    {
      Strs.NoDuplicates(names)
      && (forall n :: n in m <==> n in names)
      && (forall n :: n in m ==> m[n] in U && NameOf(m[n]) == n && (if isTarget then m[n].Tgt? else m[n].Inst?))
    }

    ghost predicate Valid()
      reads this`targetNames, this`targets, this`instanceNames, this`instances
    {
      Deps.Closed(g, U) && Registry(targetNames, targets, true) && Registry(instanceNames, instances, false)
    }

    constructor(g: Obj -> seq<Obj>, ghost U: set<Obj>, configure: (Obj, C) -> C, installEnv: (Obj, C) -> C,
                prepareRun: (Obj, C) -> C, setJobs: (C, nat) -> C, ctx: C)
      requires Deps.Closed(g, U)
      ensures Valid()
      ensures this.g == g && this.U == U && this.configure == configure && this.installEnv == installEnv
      ensures this.prepareRun == prepareRun && this.setJobs == setJobs && this.ctx == ctx
      ensures targetNames == [] && targets == map[] && instanceNames == [] && instances == map[]
    {
      this.g, this.U, this.configure, this.installEnv := g, U, configure, installEnv;
      this.prepareRun, this.setJobs, this.ctx := prepareRun, setJobs, ctx;
      targetNames, targets, instanceNames, instances := [], map[], [], map[];
    }

    /** `add_target`: an existing name is overwritten and keeps its place. */
    method AddTarget(t: Obj)
      requires Valid() && t.Tgt? && t in U
      modifies this`targetNames, this`targets
      ensures Valid()
      ensures targets == old(targets)[t.name := t]
      ensures targetNames == if t.name in old(targetNames) then old(targetNames) else old(targetNames) + [t.name]
    {
      if t.name !in targetNames {
        targetNames := targetNames + [t.name];
      }
      targets := targets[t.name := t];
    }

    /** `add_instance`, with the same overwrite rule. */
    method AddInstance(i: Obj)
      requires Valid() && i.Inst? && i in U
      modifies this`instanceNames, this`instances
      ensures Valid()
      ensures instances == old(instances)[i.name := i]
      ensures instanceNames == if i.name in old(instanceNames) then old(instanceNames) else old(instanceNames) + [i.name]
    {
      if i.name !in instanceNames {
        instanceNames := instanceNames + [i.name];
      }
      instances := instances[i.name := i];
    }

    /** `targets.values() + instances.values()`, in insertion order. */
    function Registered(): (objs: seq<Obj>)
      reads this`targetNames, this`targets, this`instanceNames, this`instances
      requires Valid()
      ensures Deps.AllIn(objs, U)
      ensures forall n :: n in targets ==> targets[n] in objs
      ensures forall n :: n in instances ==> instances[n] in objs
    {
      Values(targetNames, targets) + Values(instanceNames, instances)
    }

    /** `[self._get_target(name) for name in names]`. */
    function ResolveTargets(names: seq<string>): (r: Result<seq<Obj>>)
      reads this`targetNames, this`targets, this`instanceNames, this`instances
      requires Valid()
      ensures r.Ok? <==> forall k :: 0 <= k < |names| ==> names[k] in targets
      ensures r.Ok? ==> |r.value| == |names| && forall k :: 0 <= k < |names| ==> r.value[k] == targets[names[k]]
      ensures r.Ok? ==> Deps.AllIn(r.value, U) && forall k :: 0 <= k < |names| ==> r.value[k].Tgt?
      ensures r.Err? ==> exists k :: 0 <= k < |names| && names[k] !in targets
                                      && r.error == NoSuch("target", names[k])
                                      && forall j :: 0 <= j < k ==> names[j] in targets
    {
      Resolve(names, targets, "target", U)
    }

    /** `[self._get_instance(name) for name in names]`. */
    function ResolveInstances(names: seq<string>): (r: Result<seq<Obj>>)
      reads this`targetNames, this`targets, this`instanceNames, this`instances
      requires Valid()
      ensures r.Ok? <==> forall k :: 0 <= k < |names| ==> names[k] in instances
      ensures r.Ok? ==> |r.value| == |names| && forall k :: 0 <= k < |names| ==> r.value[k] == instances[names[k]]
      ensures r.Ok? ==> Deps.AllIn(r.value, U) && forall k :: 0 <= k < |names| ==> r.value[k].Inst?
      ensures r.Err? ==> exists k :: 0 <= k < |names| && names[k] !in instances
                                      && r.error == NoSuch("instance", names[k])
                                      && forall j :: 0 <= j < k ==> names[j] in instances
    {
      Resolve(names, instances, "instance", U)
    }

    /**
     * `[self._get_package(name) for name in names]`: each name is looked up
     * among the dependencies of everything registered, and the first
     * package with that ident is taken.
     */
    function ResolvePackages(names: seq<string>): (r: Result<seq<Obj>>)
      reads this`targetNames, this`targets, this`instanceNames, this`instances
      requires Valid()
      ensures r.Ok? ==> |r.value| == |names| && Deps.AllIn(r.value, U)
      ensures r.Ok? && |names| > 0 ==> Deps.GetDeps(g, U, Registered()).Ok?
      ensures r.Ok? ==> forall k :: 0 <= k < |names| ==>
                (r.value[k].Pkg? && r.value[k].ident == names[k] && r.value[k] in Deps.GetDeps(g, U, Registered()).value)
      ensures r.Ok? ==> forall k :: 0 <= k < |names| ==>
                r.value[k] == FindPackage(Deps.GetDeps(g, U, Registered()).value, names[k]).value
      ensures |names| > 0 && Deps.GetDeps(g, U, Registered()).Ok? ==>
                (r.Ok? <==> forall k :: 0 <= k < |names| ==> FindPackage(Deps.GetDeps(g, U, Registered()).value, names[k]).Some?)
      ensures |names| > 0 && Deps.GetDeps(g, U, Registered()).Err? ==> r == Err(Deps.GetDeps(g, U, Registered()).error)
      ensures |names| > 0 && Deps.GetDeps(g, U, Registered()).Ok? && r.Err? ==>
                exists k :: 0 <= k < |names| && FindPackage(Deps.GetDeps(g, U, Registered()).value, names[k]).None?
                            && r.error == FatalError("no package called " + names[k])
                            && forall j :: 0 <= j < k ==> FindPackage(Deps.GetDeps(g, U, Registered()).value, names[j]).Some?
    {
      if |names| == 0 then Ok([])
      else
        var objs := Registered();
        match Deps.GetDeps(g, U, objs)
        case Err(e) => Err(e)
        case Ok(deps) =>
          Deps.GetDepsInU(g, U, objs);
          LookupPackages(names, deps, U)
    }

    /** The dependency list of one object, or [] when it has a cycle. */
    function DepsOf(o: Obj): seq<Obj>
      requires Deps.Closed(g, U) && o in U
    {
      match Deps.GetDeps(g, U, [o])
      case Ok(d) => d
      case Err(_) => []
    }

    /** The context after installing `ps` one after the other. */
    function InstallAll(ps: seq<Obj>, c: C): C
    {
      if |ps| == 0 then c else installEnv(ps[|ps| - 1], InstallAll(ps[..|ps| - 1], c))
    }

    /** The context a target is built in for one instance, starting from `c0`. */
    function BuildCtx(t: Obj, i: Obj, c0: C): C
      requires Deps.Closed(g, U) && t in U && i in U
    {
      InstallAll(DepsOf(t), InstallAll(DepsOf(i), configure(i, c0)))
    }

    /** The context a target runs in for one instance, starting from `c0`. */
    function RunCtx(t: Obj, i: Obj, c0: C): C
      requires Deps.Closed(g, U) && t in U
    {
      prepareRun(i, InstallAll(DepsOf(t), c0))
    }

    /**
     * Every target build in `trace` happened in the context `BuildCtx`
     * promises, and ran `target.build` exactly when `compile` holds.
     */
    ghost predicate BuildCtxOk(trace: seq<Event<C>>, c0: C, compile: bool)
      requires Deps.Closed(g, U)
    {
      forall k :: 0 <= k < |trace| && trace[k].BuildTarget? ==>
        && trace[k].t in U && trace[k].i in U && trace[k].ctx == BuildCtx(trace[k].t, trace[k].i, c0)
        && trace[k].compile == compile
    }

    /** `build_package_once`. */
    method BuildPackageOnce(p: Obj, force: bool, built: set<Obj>, trace: seq<Event<C>>)
      returns (built': set<Obj>, trace': seq<Event<C>>)
      requires BuildsOnce(built, trace)
      ensures BuildsOnce(built', trace') && built' == built + {p}
      ensures trace' == if p in built then trace else trace + [BuildPackage(p, force)]
      ensures OnlyBuilds(trace, trace')
    {
      if p !in built {
        built', trace' := built + {p}, trace + [BuildPackage(p, force)];
        assert trace'[..|trace'| - 1] == trace;
      } else {
        built', trace' := built, trace;
      }
    }

    /** `build_deps_once`: build what is not built yet, then install every dependency into the context. */
    method BuildDepsOnce(deps: seq<Obj>, forceAll: bool, forceDeps: set<Obj>, built: set<Obj>, trace: seq<Event<C>>)
      returns (built': set<Obj>, trace': seq<Event<C>>)
      requires BuildsOnce(built, trace)
      modifies this`ctx
      ensures ctx == InstallAll(deps, old(ctx))
      ensures BuildsOnce(built', trace') && forall p :: p in built' <==> p in built || p in deps
      ensures OnlyBuilds(trace, trace')
      ensures forall k :: |trace| <= k < |trace'| ==> trace'[k].force == (forceAll || trace'[k].p in forceDeps)
    {
      built', trace' := built, trace;
      for j := 0 to |deps|
        invariant ctx == InstallAll(deps[..j], old(ctx))
        invariant BuildsOnce(built', trace') && forall p :: p in built' <==> p in built || p in deps[..j]
        invariant OnlyBuilds(trace, trace')
        invariant forall k :: |trace| <= k < |trace'| ==> trace'[k].force == (forceAll || trace'[k].p in forceDeps)
      {
        var force := forceAll || deps[j] in forceDeps;
        built', trace' := BuildPackageOnce(deps[j], force, built', trace');
        assert deps[..j + 1][..j] == deps[..j];
        assert forall p :: p in deps[..j + 1] <==> p in deps[..j] || p == deps[j];
        ctx := installEnv(deps[j], ctx);
      }
      assert deps[..|deps|] == deps;
    }

    /** Package builds appended after `a` keep what `a` says about targets, runs and contexts. */
    lemma OnlyBuildsKeep(a: seq<Event<C>>, b: seq<Event<C>>, c0: C, compile: bool)
      requires Deps.Closed(g, U) && OnlyBuilds(a, b)
      ensures TargetBuilds(b) == TargetBuilds(a)
      ensures NoRuns(a) ==> NoRuns(b)
      ensures BuildCtxOk(a, c0, compile) ==> BuildCtxOk(b, c0, compile)
    {
      NoTargetEvents(a, b);
    }

    /** Every name of a build request resolves. */
    ghost predicate NamesResolve(args: BuildArgs)
      reads this`targetNames, this`targets, this`instanceNames, this`instances
      requires Valid()
    {
      ResolveTargets(args.targets).Ok? && ResolveInstances(args.instances).Ok? && ResolvePackages(args.packages).Ok?
    }

    /** Every name resolves and the pool options are accepted. */
    ghost predicate Resolved(args: BuildArgs, withPool: bool)
      reads this`targetNames, this`targets, this`instanceNames, this`instances
      requires Valid()
    {
      NamesResolve(args) && (withPool ==> MakePool(args.parallel, args.parallelmax, args.prunOpts).Ok?)
    }

    /** `targets + instances + packages`, the objects whose dependencies `run_build` collects. */
    ghost function Requested(args: BuildArgs): (objs: seq<Obj>)
      reads this`targetNames, this`targets, this`instanceNames, this`instances
      requires Valid() && NamesResolve(args)
      ensures Deps.AllIn(objs, U)
    {
      var ts, insts, ps := ResolveTargets(args.targets).value, ResolveInstances(args.instances).value,
                           ResolvePackages(args.packages).value;
      AllInConcat(ts, insts, ps, U);
      ts + insts + ps
    }

    /**
     * When `run_build` raises nothing: the names resolve, the pool options
     * and the request are accepted and the requested objects have no
     * dependency cycle.
     */
    ghost predicate BuildSucceeds(args: BuildArgs, withPool: bool)
      reads this`targetNames, this`targets, this`instanceNames, this`instances
      requires Valid()
    {
      && Resolved(args, withPool)
      && CheckBuildRequest(args.depsOnly, |args.targets|, |args.instances|, |args.packages|).None?
      && Deps.GetDeps(g, U, Requested(args)).Ok?
    }

    /**
     * The lookups, the pool and the request checks at the top of
     * `run_build`, in the order the source performs them.
     */
    method Plan(args: BuildArgs, withPool: bool) returns (ts: seq<Obj>, insts: seq<Obj>, ps: seq<Obj>, err: Option<Error>)
      requires Valid()
      ensures err.None? <==> Resolved(args, withPool)
                             && CheckBuildRequest(args.depsOnly, |args.targets|, |args.instances|, |args.packages|).None?
      ensures Resolved(args, withPool) ==>
        && ts == ResolveTargets(args.targets).value && insts == ResolveInstances(args.instances).value
        && ps == ResolvePackages(args.packages).value
        && err == CheckBuildRequest(args.depsOnly, |args.targets|, |args.instances|, |args.packages|)
      ensures err.None? ==> Deps.AllIn(ts, U) && Deps.AllIn(insts, U) && Deps.AllIn(ps, U)
    {
      ts, insts, ps, err := [], [], [], None;
      var rt := ResolveTargets(args.targets);
      if rt.Err? { err := Some(rt.error); return; }
      var ri := ResolveInstances(args.instances);
      if ri.Err? { err := Some(ri.error); return; }
      var rp := ResolvePackages(args.packages);
      if rp.Err? { err := Some(rp.error); return; }
      if withPool {
        var pool := MakePool(args.parallel, args.parallelmax, args.prunOpts);
        if pool.Err? { err := Some(pool.error); return; }
      }
      ts, insts, ps := rt.value, ri.value, rp.value;
      err := CheckBuildRequest(args.depsOnly, |args.targets|, |args.instances|, |args.packages|);
    }

    /**
     * `run_build` (and `_run_build` when `withPool`): the events it causes
     * and, when it raises, the error.  The context is unchanged afterwards;
     * each package is built at most once; the targets are built for every
     * instance, instance-major, each in a context made of the instance's
     * configuration and the dependencies of the instance and the target,
     * never one left over from another instance or target.
     */
    method RunBuild(args: BuildArgs, withPool: bool) returns (trace: seq<Event<C>>, err: Option<Error>)
      requires Valid()
      modifies this`ctx
      ensures ctx == old(ctx)
      ensures Strs.NoDuplicates(Built(trace)) && NoRuns(trace) && BuildCtxOk(trace, old(ctx), !args.relink)
      ensures err.None? <==> BuildSucceeds(args, withPool)
      ensures err.None? ==>
        && Resolved(args, withPool)
        && CheckBuildRequest(args.depsOnly, |args.targets|, |args.instances|, |args.packages|).None?
        && (args.depsOnly || args.dryRun ==> TargetBuilds(trace) == [])
        && (!args.depsOnly && !args.dryRun ==> TargetBuilds(trace) == Pairs(ResolveInstances(args.instances).value, ResolveTargets(args.targets).value))
      ensures Resolved(args, withPool) && CheckBuildRequest(args.depsOnly, |args.targets|, |args.instances|, |args.packages|).Some?
              ==> trace == [] && err == CheckBuildRequest(args.depsOnly, |args.targets|, |args.instances|, |args.packages|)
    {
      trace := [];
      var ts, insts, ps;
      ts, insts, ps, err := Plan(args, withPool);
      if err.Some? { return; }
      trace, err := BuildResolved(args, withPool, ts, insts, ps);
    }

    /** `run_build` past its lookups and request checks. */
    method BuildResolved(args: BuildArgs, withPool: bool, ts: seq<Obj>, insts: seq<Obj>, ps: seq<Obj>)
      returns (trace: seq<Event<C>>, err: Option<Error>)
      requires Valid() && Resolved(args, withPool)
      requires CheckBuildRequest(args.depsOnly, |args.targets|, |args.instances|, |args.packages|).None?
      requires ts == ResolveTargets(args.targets).value && insts == ResolveInstances(args.instances).value
      requires ps == ResolvePackages(args.packages).value
      requires Deps.AllIn(ts, U) && Deps.AllIn(insts, U) && Deps.AllIn(ps, U)
      modifies this`ctx
      ensures ctx == old(ctx)
      ensures Strs.NoDuplicates(Built(trace)) && NoRuns(trace) && BuildCtxOk(trace, old(ctx), !args.relink)
      ensures err.None? <==> BuildSucceeds(args, withPool)
      ensures err.None? && (args.depsOnly || args.dryRun) ==> TargetBuilds(trace) == []
      ensures err.None? && !args.depsOnly && !args.dryRun ==> TargetBuilds(trace) == Pairs(insts, ts)
    {
      AllInConcat(ts, insts, ps, U);
      trace, err := BuildPlanned(args, ts, insts, ps);
      SucceedsOnPlan(args, withPool, ts, insts, ps);
    }

    /** Once the request is accepted, `run_build` succeeds exactly when the dependencies are collected. */
    lemma SucceedsOnPlan(args: BuildArgs, withPool: bool, ts: seq<Obj>, insts: seq<Obj>, ps: seq<Obj>)
      requires Valid() && Resolved(args, withPool)
      requires CheckBuildRequest(args.depsOnly, |args.targets|, |args.instances|, |args.packages|).None?
      requires ts == ResolveTargets(args.targets).value && insts == ResolveInstances(args.instances).value
      requires ps == ResolvePackages(args.packages).value
      ensures BuildSucceeds(args, withPool) <==> Deps.GetDeps(g, U, ts + insts + ps).Ok?
    {
    }

    /** `run_build` once the names are resolved and the request accepted. */
    method BuildPlanned(args: BuildArgs, ts: seq<Obj>, insts: seq<Obj>, ps: seq<Obj>)
      returns (trace: seq<Event<C>>, err: Option<Error>)
      requires Valid() && Deps.AllIn(ts, U) && Deps.AllIn(insts, U) && Deps.AllIn(ps, U)
      requires Deps.AllIn(ts + insts + ps, U)
      modifies this`ctx
      ensures ctx == old(ctx)
      ensures Strs.NoDuplicates(Built(trace)) && NoRuns(trace) && BuildCtxOk(trace, old(ctx), !args.relink)
      ensures err.None? <==> Deps.GetDeps(g, U, ts + insts + ps).Ok?
      ensures err.None? && (args.depsOnly || args.dryRun) ==> TargetBuilds(trace) == []
      ensures err.None? && !args.depsOnly && !args.dryRun ==> TargetBuilds(trace) == Pairs(insts, ts)
    {
      trace, err := [], None;
      var rd := Deps.GetDeps(g, U, ts + insts + ps);
      if rd.Err? { err := Some(rd.error); return; }
      var forceDeps, separate := Partition(ps, rd.value);
      var cached;
      trace, cached, err := Prepare(args, ts, insts, ps, rd.value, separate);
      if err.Some? { return; }
      var built: set<Obj> := {};
      assert BuildCtxOk(trace, ctx, !args.relink);
      var t0 := trace;
      built, trace := BuildEach(args.forceRebuildDeps, separate, true, cached, forceDeps, built, trace);
      OnlyBuildsKeep(t0, trace, ctx, !args.relink);
      if args.depsOnly && |insts| == 0 {
        var t1 := trace;
        built, trace := BuildEach(args.forceRebuildDeps, ts, false, cached, forceDeps, built, trace);
        OnlyBuildsKeep(t1, trace, ctx, !args.relink);
      }
      built, trace := BuildInstances(args, ts, insts, cached, forceDeps, built, trace);
    }

    /**
     * The cleaning and fetching steps of `run_build` and its `cached_deps`
     * table; nothing is built yet.
     */
    method Prepare(args: BuildArgs, ts: seq<Obj>, insts: seq<Obj>, ps: seq<Obj>, deps: seq<Obj>, separate: seq<Obj>)
      returns (trace: seq<Event<C>>, cached: map<Obj, seq<Obj>>, err: Option<Error>)
      requires Valid() && Deps.AllIn(ts, U) && Deps.AllIn(insts, U) && Deps.AllIn(ps, U)
      requires Deps.AllIn(ts + insts + ps, U)
      requires forall p :: p in separate ==> p in ps
      ensures Built(trace) == [] && TargetBuilds(trace) == [] && NoRuns(trace)
      ensures forall k :: 0 <= k < |trace| ==> !trace[k].BuildTarget?
      ensures Deps.GetDeps(g, U, ts + insts + ps).Ok? ==> err.None?
      ensures err.None? ==> CachedOk(ts, cached) && CachedOk(insts, cached) && CachedOk(separate, cached)
    {
      trace, cached, err := [], map[], None;
      if args.clean {
        trace := trace + CleanPackages(ps) + CleanTargets(ts);
      }
      trace := trace + Fetches(deps + separate, args.forceRebuildDeps);
      if !args.depsOnly {
        trace := trace + FetchTargets(ts);
      }
      Unbuilt(trace);
      var objs := ts + insts + separate;
      assert Deps.AllIn(separate, U) by {
        forall k | 0 <= k < |separate| ensures separate[k] in U {
          assert separate[k] in ps;
        }
      }
      AllInConcat(ts, insts, separate, U);
      for k := 0 to |objs|
        invariant err.None?
        invariant forall o :: o in objs[..k] ==> o in U && o in cached && cached[o] == DepsOf(o)
      {
        assert objs[k] in U;
        var d := Deps.GetDeps(g, U, [objs[k]]);
        if d.Err? {
          OneCycleSpreads(objs[k], ts, insts, ps, separate);
          err := Some(d.error);
          return;
        }
        cached := cached[objs[k] := d.value];
        assert forall o :: o in objs[..k + 1] ==> o in objs[..k] || o == objs[k];
      }
      assert objs[..|objs|] == objs;
      assert forall o :: o in ts ==> o in objs;
      assert forall o :: o in insts ==> o in objs;
      assert forall o :: o in separate ==> o in objs;
    }

    /** A cycle below one object of `ts + insts + separate` is a cycle below the whole request. */
    lemma OneCycleSpreads(o: Obj, ts: seq<Obj>, insts: seq<Obj>, ps: seq<Obj>, separate: seq<Obj>)
      requires Deps.Closed(g, U) && Deps.AllIn(ts + insts + ps, U) && o in U
      requires forall p :: p in separate ==> p in ps
      requires o in ts + insts + separate
      requires Deps.GetDeps(g, U, [o]).Err?
      ensures Deps.GetDeps(g, U, ts + insts + ps).Err?
    {
      assert o in ts + insts + ps;
      Deps.GetDepsSubsetErr(g, U, [o], ts + insts + ps);
    }

    /** Every object of `objs` has its dependency list in `cached`. */
    ghost predicate CachedOk(objs: seq<Obj>, cached: map<Obj, seq<Obj>>)
      requires Deps.Closed(g, U)
    {
      forall o :: o in objs ==> o in U && o in cached && cached[o] == DepsOf(o)
    }

    /**
     * The `separate_packages` loop (`withSelf`: each package's dependencies
     * and then the package itself, forced) and the deps-only target loop
     * (only the dependencies), each restoring the context per object.
     */
    method BuildEach(forceAll: bool, objs: seq<Obj>, withSelf: bool, cached: map<Obj, seq<Obj>>, forceDeps: set<Obj>,
                     built: set<Obj>, trace: seq<Event<C>>)
      returns (built': set<Obj>, trace': seq<Event<C>>)
      requires forall o :: o in objs ==> o in cached
      requires BuildsOnce(built, trace)
      modifies this`ctx
      ensures ctx == old(ctx)
      ensures BuildsOnce(built', trace') && OnlyBuilds(trace, trace')
    {
      built', trace' := built, trace;
      for k := 0 to |objs|
        invariant ctx == old(ctx)
        invariant BuildsOnce(built', trace') && OnlyBuilds(trace, trace')
      {
        var oldctx := ctx;
        var t0 := trace';
        built', trace' := BuildDepsOnce(cached[objs[k]], forceAll, forceDeps, built', trace');
        if withSelf {
          var t1 := trace';
          built', trace' := BuildPackageOnce(objs[k], true, built', trace');
          OnlyBuildsTrans(t0, t1, trace');
        }
        OnlyBuildsTrans(trace, t0, trace');
        ctx := oldctx;
      }
    }

    /** The target loop of `run_build` for one instance `i`, in the context configured and built for it. */
    method BuildTargetsOf(args: BuildArgs, i: Obj, ts: seq<Obj>, cached: map<Obj, seq<Obj>>, forceDeps: set<Obj>,
                          built: set<Obj>, trace: seq<Event<C>>, ghost c0: C)
      returns (built': set<Obj>, trace': seq<Event<C>>)
      requires Deps.Closed(g, U)
      requires CachedOk(ts, cached) && i in U && ctx == InstallAll(DepsOf(i), configure(i, c0))
      requires BuildsOnce(built, trace) && BuildCtxOk(trace, c0, !args.relink) && NoRuns(trace)
      modifies this`ctx
      ensures ctx == old(ctx)
      ensures BuildsOnce(built', trace') && BuildCtxOk(trace', c0, !args.relink) && NoRuns(trace')
      ensures args.depsOnly || args.dryRun ==> TargetBuilds(trace') == TargetBuilds(trace)
      ensures !args.depsOnly && !args.dryRun ==> TargetBuilds(trace') == TargetBuilds(trace) + Row(i, ts)
    {
      built', trace' := built, trace;
      assert ts[..0] == [];
      for j := 0 to |ts|
        invariant ctx == old(ctx)
        invariant BuildsOnce(built', trace') && BuildCtxOk(trace', c0, !args.relink) && NoRuns(trace')
        invariant args.depsOnly || args.dryRun ==> TargetBuilds(trace') == TargetBuilds(trace)
        invariant !args.depsOnly && !args.dryRun ==> TargetBuilds(trace') == TargetBuilds(trace) + Row(i, ts[..j])
      {
        assert ts[j] in ts;
        built', trace' := BuildTargetFor(args, i, ts[j], cached, forceDeps, built', trace', c0);
        RowStep(i, ts, j);
      }
      assert ts[..|ts|] == ts;
    }

    /**
     * One pass of the target loop: the target's dependencies, then (unless
     * `--deps-only` or `--dry-run`) `target.build` when `--relink` is off,
     * `target.link` and the post-build hooks.
     */
    method BuildTargetFor(args: BuildArgs, i: Obj, t: Obj, cached: map<Obj, seq<Obj>>, forceDeps: set<Obj>,
                          built: set<Obj>, trace: seq<Event<C>>, ghost c0: C)
      returns (built': set<Obj>, trace': seq<Event<C>>)
      requires Deps.Closed(g, U)
      requires t in U && t in cached && cached[t] == DepsOf(t) && i in U && ctx == InstallAll(DepsOf(i), configure(i, c0))
      requires BuildsOnce(built, trace) && BuildCtxOk(trace, c0, !args.relink) && NoRuns(trace)
      modifies this`ctx
      ensures ctx == old(ctx)
      ensures BuildsOnce(built', trace') && BuildCtxOk(trace', c0, !args.relink) && NoRuns(trace')
      ensures TargetBuilds(trace') == TargetBuilds(trace) + if !args.depsOnly && !args.dryRun then [(t, i)] else []
    {
      var inner := ctx;
      built', trace' := BuildDepsOnce(cached[t], args.forceRebuildDeps, forceDeps, built, trace);
      OnlyBuildsKeep(trace, trace', c0, !args.relink);
      if !args.depsOnly && !args.dryRun {
        assert ctx == BuildCtx(t, i, c0);
        var t2 := trace';
        trace' := t2 + [BuildTarget(t, i, ctx, !args.relink)];
        assert trace'[..|trace'| - 1] == t2;
      }
      ctx := inner;
    }

    /** The instance loop of `run_build` with its inner target loop. */
    method BuildInstances(args: BuildArgs, ts: seq<Obj>, insts: seq<Obj>, cached: map<Obj, seq<Obj>>, forceDeps: set<Obj>,
                          built: set<Obj>, trace: seq<Event<C>>)
      returns (built': set<Obj>, trace': seq<Event<C>>)
      requires Deps.Closed(g, U)
      requires CachedOk(ts, cached) && CachedOk(insts, cached)
      requires BuildsOnce(built, trace) && TargetBuilds(trace) == [] && BuildCtxOk(trace, ctx, !args.relink) && NoRuns(trace)
      modifies this`ctx
      ensures ctx == old(ctx)
      ensures BuildsOnce(built', trace') && BuildCtxOk(trace', old(ctx), !args.relink) && NoRuns(trace')
      ensures args.depsOnly || args.dryRun ==> TargetBuilds(trace') == []
      ensures !args.depsOnly && !args.dryRun ==> TargetBuilds(trace') == Pairs(insts, ts)
    {
      built', trace' := built, trace;
      for n := 0 to |insts|
        invariant ctx == old(ctx)
        invariant BuildsOnce(built', trace') && BuildCtxOk(trace', old(ctx), !args.relink) && NoRuns(trace')
        invariant args.depsOnly || args.dryRun ==> TargetBuilds(trace') == []
        invariant !args.depsOnly && !args.dryRun ==> TargetBuilds(trace') == Pairs(insts[..n], ts)
      {
        var i := insts[n];
        var outer := ctx;
        ctx := configure(i, ctx);
        var t0 := trace';
        built', trace' := BuildDepsOnce(cached[i], args.forceRebuildDeps, forceDeps, built', trace');
        OnlyBuildsKeep(t0, trace', old(ctx), !args.relink);
        built', trace' := BuildTargetsOf(args, i, ts, cached, forceDeps, built', trace', old(ctx));
        PairsStep(insts, ts, n);
        ctx := outer;
      }
      assert insts[..|insts|] == insts;
    }

    /** The legacy `run_clean`: clean the named packages, then the named targets. */
    method RunClean(packageNames: seq<string>, targetNames': seq<string>) returns (trace: seq<Event<C>>, err: Option<Error>)
      requires Valid()
      ensures err.None? <==> ResolvePackages(packageNames).Ok? && ResolveTargets(targetNames').Ok?
                             && (|packageNames| > 0 || |targetNames'| > 0)
      ensures err.None? ==> trace == CleanPackages(ResolvePackages(packageNames).value)
                                     + CleanTargets(ResolveTargets(targetNames').value)
      ensures err.Some? ==> trace == []
      ensures ResolvePackages(packageNames).Ok? && ResolveTargets(targetNames').Ok? && |packageNames| == 0 && |targetNames'| == 0
              ==> err == Some(FatalError("no packages or targets specified"))
    {
      trace, err := [], None;
      var rp := ResolvePackages(packageNames);
      if rp.Err? { err := Some(rp.error); return; }
      var rt := ResolveTargets(targetNames');
      if rt.Err? { err := Some(rt.error); return; }
      if |rp.value| == 0 && |rt.value| == 0 {
        err := Some(FatalError("no packages or targets specified"));
        return;
      }
      trace := CleanAll(rp.value, rt.value);
    }

    /**
     * One (instance, target) pair of `do_run`: install the target's
     * dependencies, prepare the instance, run (through `run_parallel` with a
     * fresh scheduler under `--prun`), and restore the context.
     */
    method RunPair(t: Obj, i: Obj, prun: Option<Sched>) returns (e: Event<C>, err: Option<Error>)
      requires Deps.Closed(g, U) && t in U
      modifies this`ctx
      ensures ctx == old(ctx)
      ensures err.None? <==> Deps.GetDeps(g, U, [t]).Ok?
      ensures err.None? ==> e == RunTarget(t, i, RunCtx(t, i, old(ctx)), prun)
    {
      e, err := RunTarget(t, i, ctx, prun), None;
      var oldctx := ctx;
      var d := Deps.GetDeps(g, U, [t]);
      if d.Err? { err := Some(d.error); return; }
      var pkgs := d.value;
      for m := 0 to |pkgs|
        invariant ctx == InstallAll(pkgs[..m], oldctx)
      {
        assert pkgs[..m + 1][..m] == pkgs[..m];
        ctx := installEnv(pkgs[m], ctx);
      }
      assert pkgs[..|pkgs|] == pkgs;
      ctx := prepareRun(i, ctx);
      e := RunTarget(t, i, ctx, prun);
      ctx := oldctx;
    }

    /** Every target's dependencies resolve, so no pair of `do_run` raises. */
    ghost predicate Runnable(ts: seq<Obj>)
      requires Deps.Closed(g, U) && Deps.AllIn(ts, U)
    {
      forall k :: 0 <= k < |ts| ==> Deps.GetDeps(g, U, [ts[k]]).Ok?
    }

    /** The request `do_run --build` hands to `run_build`. */
    function RunBuildArgs(tNames: seq<string>, iNames: seq<string>): (args: BuildArgs)
      ensures args.targets == tNames && args.instances == iNames && args.packages == []
      ensures !args.depsOnly && !args.clean && !args.forceRebuildDeps && !args.relink && !args.dryRun
    {
      BuildArgs(tNames, iNames, [], false, false, false, false, false, NoParallel, None, [])
    }

    /**
     * The legacy `do_run`: optionally build first (with `ctx.jobs` set to the
     * number of CPUs), then run every target for every instance,
     * instance-major, each in the context of its own dependencies and the
     * instance's run preparation, restoring the context after each pair.
     * `prun` is the scheduler settings under `--prun`, `None` without it.
     */
    method DoRun(tNames: seq<string>, iNames: seq<string>, build: bool, ncpus: nat, prun: Option<Sched>)
      returns (trace: seq<Event<C>>, err: Option<Error>)
      requires Valid()
      modifies this`ctx
      ensures ctx == if build && ResolveTargets(tNames).Ok? && ResolveInstances(iNames).Ok?
                     then setJobs(old(ctx), ncpus) else old(ctx)
      ensures err.None? <==> ResolveTargets(tNames).Ok? && ResolveInstances(iNames).Ok?
                             && (build ==> BuildSucceeds(RunBuildArgs(tNames, iNames), false))
                             && (|iNames| == 0 || Runnable(ResolveTargets(tNames).value))
      ensures err.None? ==> TargetRuns(trace) == Pairs(ResolveInstances(iNames).value, ResolveTargets(tNames).value)
      ensures err.None? ==> RunCtxOk(trace, ctx, prun)
    {
      trace, err := [], None;
      var rt := ResolveTargets(tNames);
      if rt.Err? { err := Some(rt.error); return; }
      var ri := ResolveInstances(iNames);
      if ri.Err? { err := Some(ri.error); return; }
      var ts, insts := rt.value, ri.value;
      if build {
        trace, err := BuildForRun(tNames, iNames, ncpus);
        if err.Some? { return; }
      }
      assert RunCtxOk(trace, ctx, prun);
      trace, err := RunPairs(ts, insts, trace, prun);
    }

    /**
     * The `--build` step of `do_run`: `ctx.jobs` set to the number of CPUs,
     * then `run_build` for the targets and instances of the run, which runs
     * nothing.
     */
    method BuildForRun(tNames: seq<string>, iNames: seq<string>, ncpus: nat) returns (trace: seq<Event<C>>, err: Option<Error>)
      requires Valid()
      modifies this`ctx
      ensures ctx == setJobs(old(ctx), ncpus)
      ensures err.None? <==> BuildSucceeds(RunBuildArgs(tNames, iNames), false)
      ensures NoRuns(trace) && TargetRuns(trace) == []
    {
      ctx := setJobs(ctx, ncpus);
      trace, err := RunBuild(RunBuildArgs(tNames, iNames), false);
      NoRunEvents(trace);
    }

    /** The target loop of `run` for one instance `i`; it stops at the first error. */
    method RunRow(ts: seq<Obj>, i: Obj, trace0: seq<Event<C>>, prun: Option<Sched>) returns (trace: seq<Event<C>>, err: Option<Error>)
      requires Deps.Closed(g, U) && Deps.AllIn(ts, U)
      modifies this`ctx
      ensures ctx == old(ctx)
      ensures err.None? <==> Runnable(ts)
      ensures err.None? ==> TargetRuns(trace) == TargetRuns(trace0) + Row(i, ts)
      ensures err.None? ==> RunCtxOk(trace0, old(ctx), prun) ==> RunCtxOk(trace, old(ctx), prun)
    {
      trace, err := trace0, None;
      assert ts[..0] == [];
      for j := 0 to |ts|
        invariant ctx == old(ctx) && err.None?
        invariant forall k :: 0 <= k < j ==> Deps.GetDeps(g, U, [ts[k]]).Ok?
        invariant TargetRuns(trace) == TargetRuns(trace0) + Row(i, ts[..j])
        invariant RunCtxOk(trace0, old(ctx), prun) ==> RunCtxOk(trace, old(ctx), prun)
      {
        var e;
        e, err := RunPair(ts[j], i, prun);
        if err.Some? {
          assert !Deps.GetDeps(g, U, [ts[j]]).Ok?;
          return;
        }
        var t0 := trace;
        trace := t0 + [e];
        assert trace[..|trace| - 1] == t0;
        RowStep(i, ts, j);
      }
      assert ts[..|ts|] == ts;
    }

    /** The pair loops of `do_run`. */
    method RunPairs(ts: seq<Obj>, insts: seq<Obj>, trace0: seq<Event<C>>, prun: Option<Sched>)
      returns (trace: seq<Event<C>>, err: Option<Error>)
      requires Deps.Closed(g, U) && Deps.AllIn(ts, U) && TargetRuns(trace0) == []
      modifies this`ctx
      ensures ctx == old(ctx)
      ensures err.None? <==> |insts| == 0 || Runnable(ts)
      ensures err.None? ==> TargetRuns(trace) == Pairs(insts, ts)
      ensures err.None? ==> RunCtxOk(trace0, old(ctx), prun) ==> RunCtxOk(trace, old(ctx), prun)
    {
      trace, err := trace0, None;
      for n := 0 to |insts|
        invariant ctx == old(ctx) && err.None?
        invariant n > 0 ==> Runnable(ts)
        invariant TargetRuns(trace) == Pairs(insts[..n], ts)
        invariant RunCtxOk(trace0, old(ctx), prun) ==> RunCtxOk(trace, old(ctx), prun)
      {
        trace, err := RunRow(ts, insts[n], trace, prun);
        if err.Some? { return; }
        PairsStep(insts, ts, n);
      }
      assert insts[..|insts|] == insts;
    }

    /** Every run in `trace` happened in the context `RunCtx` promises, with the scheduler `prun`. */
    ghost predicate RunCtxOk(trace: seq<Event<C>>, c0: C, prun: Option<Sched>)
      requires Deps.Closed(g, U)
    {
      forall k :: 0 <= k < |trace| && trace[k].RunTarget? ==>
        trace[k].t in U && trace[k].ctx == RunCtx(trace[k].t, trace[k].i, c0) && trace[k].sched == prun
    }
  }

  /** `b` is `a` followed by package builds only. */
  ghost predicate OnlyBuilds<C>(a: seq<Event<C>>, b: seq<Event<C>>)
  {
    a <= b && forall k :: |a| <= k < |b| ==> b[k].BuildPackage?
  }

  lemma OnlyBuildsTrans<C>(a: seq<Event<C>>, b: seq<Event<C>>, c: seq<Event<C>>)
    requires OnlyBuilds(a, b) && OnlyBuilds(b, c)
    ensures OnlyBuilds(a, c)
  {
  }

  /** The two cleaning loops of `run_clean`. */
  method CleanAll<C>(ps: seq<Obj>, ts: seq<Obj>) returns (trace: seq<Event<C>>)
    ensures trace == CleanPackages(ps) + CleanTargets(ts)
  {
    trace := [];
    for k := 0 to |ps|
      invariant trace == CleanPackages(ps[..k])
    {
      assert ps[..k + 1][..k] == ps[..k];
      trace := trace + [CleanPackage(ps[k])];
    }
    assert ps[..|ps|] == ps;
    var t0 := trace;
    for k := 0 to |ts|
      invariant trace == t0 + CleanTargets(ts[..k])
    {
      assert ts[..k + 1][..k] == ts[..k];
      trace := trace + [CleanTarget(ts[k])];
    }
    assert ts[..|ts|] == ts;
  }

  function CleanPackages<C>(ps: seq<Obj>): (r: seq<Event<C>>)
    ensures |r| == |ps| && forall k :: 0 <= k < |ps| ==> r[k] == CleanPackage(ps[k])
  {
    if |ps| == 0 then [] else CleanPackages(ps[..|ps| - 1]) + [CleanPackage(ps[|ps| - 1])]
  }

  function CleanTargets<C>(ts: seq<Obj>): (r: seq<Event<C>>)
    ensures |r| == |ts| && forall k :: 0 <= k < |ts| ==> r[k] == CleanTarget(ts[k])
  {
    if |ts| == 0 then [] else CleanTargets(ts[..|ts| - 1]) + [CleanTarget(ts[|ts| - 1])]
  }

  function Fetches<C>(ps: seq<Obj>, force: bool): (r: seq<Event<C>>)
    ensures |r| == |ps| && forall k :: 0 <= k < |ps| ==> r[k] == FetchPackage(ps[k], force)
  {
    if |ps| == 0 then [] else Fetches(ps[..|ps| - 1], force) + [FetchPackage(ps[|ps| - 1], force)]
  }

  function FetchTargets<C>(ts: seq<Obj>): (r: seq<Event<C>>)
    ensures |r| == |ts| && forall k :: 0 <= k < |ts| ==> r[k] == FetchTarget(ts[k])
  {
    if |ts| == 0 then [] else FetchTargets(ts[..|ts| - 1]) + [FetchTarget(ts[|ts| - 1])]
  }

  /** A trace of cleaning and fetching builds nothing and runs nothing. */
  lemma {:induction false} Unbuilt<C>(trace: seq<Event<C>>)
    requires forall k :: 0 <= k < |trace| ==> trace[k].CleanPackage? || trace[k].CleanTarget? || trace[k].FetchPackage? || trace[k].FetchTarget?
    ensures Built(trace) == [] && TargetBuilds(trace) == [] && NoRuns(trace)
    decreases |trace|
  {
    if |trace| > 0 {
      Unbuilt(trace[..|trace| - 1]);
    }
  }

  /** The build command's arguments. */
  datatype BuildArgs = BuildArgs(
    targets: seq<string>, instances: seq<string>, packages: seq<string>,
    depsOnly: bool, clean: bool, forceRebuildDeps: bool, relink: bool, dryRun: bool,
    parallel: Parallel, parallelmax: Option<int>, prunOpts: seq<string>)

  function NameOf(o: Obj): string
  {
    match o
    case Pkg(_, ident) => ident
    case Tgt(_, name) => name
    case Inst(_, name) => name
  }

  function Map<A, B>(s: seq<A>, f: A -> B): (r: seq<B>)
    ensures |r| == |s| && forall k :: 0 <= k < |s| ==> r[k] == f(s[k])
  {
    seq(|s|, k requires 0 <= k < |s| => f(s[k]))
  }

  /** The values of an ordered dictionary, in key order. */
  function Values(keys: seq<string>, m: map<string, Obj>): (vs: seq<Obj>)
    requires forall k :: k in keys ==> k in m
    ensures |vs| == |keys| && forall k :: 0 <= k < |keys| ==> vs[k] == m[keys[k]]
  {
    seq(|keys|, k requires 0 <= k < |keys| => m[keys[k]])
  }

  /** The error of a failed registry lookup: `no <thing> called "<name>"`. */
  function NoSuch(thing: string, name: string): Error
  {
    FatalError("no " + thing + " called \"" + name + "\"")
  }

  /** Looking every name up in a registry, failing at the first missing one. */
  function Resolve(names: seq<string>, m: map<string, Obj>, thing: string, ghost U: set<Obj>): (r: Result<seq<Obj>>)
    requires forall n :: n in m ==> m[n] in U
    ensures r.Ok? <==> forall k :: 0 <= k < |names| ==> names[k] in m
    ensures r.Ok? ==> |r.value| == |names| && forall k :: 0 <= k < |names| ==> r.value[k] == m[names[k]]
    ensures r.Ok? ==> Deps.AllIn(r.value, U)
    ensures r.Err? ==> exists k :: 0 <= k < |names| && names[k] !in m
                                    && r.error == NoSuch(thing, names[k])
                                    && forall j :: 0 <= j < k ==> names[j] in m
  {
    if |names| == 0 then Ok([])
    else if names[0] !in m then Err(NoSuch(thing, names[0]))
    else
      assert forall k :: 1 <= k < |names| ==> names[k] == names[1..][k - 1];
      match Resolve(names[1..], m, thing, U)
      case Err(e) => Err(e)
      case Ok(rest) => Ok([m[names[0]]] + rest)
  }

  /** The first package with the given ident, as `_get_package` searches. */
  function FindPackage(deps: seq<Obj>, name: string): (r: Option<Obj>)
    ensures r.Some? ==> r.value in deps && r.value == Pkg(r.value.cls, name)
    ensures r.None? <==> forall k :: 0 <= k < |deps| ==> !(deps[k].Pkg? && deps[k].ident == name)
    ensures r.Some? ==> exists k :: 0 <= k < |deps| && deps[k] == r.value
                          && forall j :: 0 <= j < k ==> !(deps[j].Pkg? && deps[j].ident == name)
  {
    if |deps| == 0 then None
    else if deps[0].Pkg? && deps[0].ident == name then Some(deps[0])
    else
      var r := FindPackage(deps[1..], name);
      if r.Some? then
        var k :| 0 <= k < |deps[1..]| && deps[1..][k] == r.value
                 && forall j :: 0 <= j < k ==> !(deps[1..][j].Pkg? && deps[1..][j].ident == name);
        assert deps[k + 1] == r.value;
        r
      else r
  }

  function LookupPackages(names: seq<string>, deps: seq<Obj>, ghost U: set<Obj>): (r: Result<seq<Obj>>)
    requires Deps.AllIn(deps, U)
    ensures r.Ok? <==> forall k :: 0 <= k < |names| ==> FindPackage(deps, names[k]).Some?
    ensures r.Ok? ==> |r.value| == |names| && forall k :: 0 <= k < |names| ==> r.value[k] == FindPackage(deps, names[k]).value
    ensures r.Err? ==> exists k :: 0 <= k < |names| && FindPackage(deps, names[k]).None?
                                   && r.error == FatalError("no package called " + names[k])
                                   && forall j :: 0 <= j < k ==> FindPackage(deps, names[j]).Some?
  {
    if |names| == 0 then Ok([])
    else
      var head := FindPackage(deps, names[0]);
      var tail := LookupPackages(names[1..], deps, U);
      assert forall k :: 1 <= k < |names| ==> names[k] == names[1..][k - 1];
      if head.None? then Err(FatalError("no package called " + names[0]))
      else if tail.Err? then tail
      else Ok([head.value] + tail.value)
  }

  lemma AllInConcat(a: seq<Obj>, b: seq<Obj>, c: seq<Obj>, U: set<Obj>)
    requires Deps.AllIn(a, U) && Deps.AllIn(b, U) && Deps.AllIn(c, U)
    ensures Deps.AllIn(a + b + c, U)
  {
    assert forall k :: 0 <= k < |a + b + c| ==> (a + b + c)[k] in a || (a + b + c)[k] in b || (a + b + c)[k] in c;
  }

  /** Package builds appended to a trace leave its target builds unchanged. */
  lemma {:induction false} NoTargetEvents<C>(a: seq<Event<C>>, b: seq<Event<C>>)
    requires OnlyBuilds(a, b)
    ensures TargetBuilds(b) == TargetBuilds(a)
    decreases |b|
  {
    if |b| > |a| {
      NoTargetEvents(a, b[..|b| - 1]);
    } else {
      assert a == b;
    }
  }

  /** No target is run. */
  ghost predicate NoRuns<C>(trace: seq<Event<C>>)
  {
    forall k :: 0 <= k < |trace| ==> !trace[k].RunTarget?
  }

  lemma {:induction false} NoRunEvents<C>(trace: seq<Event<C>>)
    requires NoRuns(trace)
    ensures TargetRuns(trace) == []
    decreases |trace|
  {
    if |trace| > 0 {
      NoRunEvents(trace[..|trace| - 1]);
    }
  }
}
