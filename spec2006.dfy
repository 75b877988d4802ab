/**
 * The SPEC CPU2006 target of infra/targets/spec2006/__init__.py: the
 * constructor's checks, where the installation lives, how patch names
 * resolve, which benchmarks a build or run covers, the `runspec` argument
 * list and wrapper, the runspec command, and the generated configuration
 * file.  The table of benchmark sets (`benchmark_sets`, generated by a
 * script) is a parameter.
 */
module Spec2006 {

  import opened Wrappers
  import Strs
  import Paths
  import Shell
  import PackageTarget
  import Util
  import PyFormat
  import Unindent

  predicate ValidSourceType(sourceType: string)
  {
    sourceType == "mounted" || sourceType == "installed" || sourceType == "tarfile" || sourceType == "git"
  }

  datatype Spec2006 = Spec2006(sourceType: string, source: string, patches: seq<string>, nothp: bool, forceCpu: int)

  /**
   * `SPEC2006(source_type, source, patches, nothp, force_cpu)`.  `shrcExists`
   * says whether `source/shrc` exists and `abspath` is `os.path.abspath`.
   */
  function New(sourceType: string, source: string, patches: seq<string>, nothp: bool, forceCpu: int,
               shrcExists: bool, abspath: string -> string): (r: Result<Spec2006>)
    ensures r.Ok? <==> ValidSourceType(sourceType) && (sourceType == "installed" ==> shrcExists)
    ensures !ValidSourceType(sourceType) ==> r == Err(FatalError("invalid source type \"" + sourceType + "\""))
    ensures sourceType == "installed" && !shrcExists ==>
      r == Err(FatalError(abspath(source + "/shrc") + " is not a valid SPEC installation"))
    ensures r.Ok? ==> r.value == Spec2006(sourceType, source, patches, nothp, forceCpu)
  {
    if !ValidSourceType(sourceType) then Err(FatalError("invalid source type \"" + sourceType + "\""))
    else if sourceType == "installed" && !shrcExists then
      Err(FatalError(abspath(source + "/shrc") + " is not a valid SPEC installation"))
    else Ok(Spec2006(sourceType, source, patches, nothp, forceCpu))
  }

  /** The benchmark sets built and run when none are given. */
  const DefaultBenchmarks: seq<string> := ["all_c", "all_cpp"]

  /** `_install_path(ctx, *args)`: inside `source` for an installed SPEC, else below the target's `install` directory. */
  function InstallPath(t: Spec2006, targetsRoot: string, args: seq<string>): string
  {
    if t.sourceType == "installed" then Paths.Join(t.source, args)
    else PackageTarget.TreePath(targetsRoot, "spec2006", ["install"] + args)
  }

  /** Every install path is the installation root joined with the extra components. */
  lemma InstallPathUnder(t: Spec2006, targetsRoot: string, args: seq<string>)
    ensures InstallPath(t, targetsRoot, args) == Paths.Join(InstallPath(t, targetsRoot, []), args)
    ensures t.sourceType == "installed" ==> InstallPath(t, targetsRoot, []) == t.source
    ensures t.sourceType != "installed" ==>
      InstallPath(t, targetsRoot, []) == Paths.Join(PackageTarget.TreePath(targetsRoot, "spec2006", []), ["install"])
  {
    if t.sourceType != "installed" {
      PackageTarget.TreePathExtends(targetsRoot, "spec2006", ["install"] + args);
      PackageTarget.TreePathExtends(targetsRoot, "spec2006", ["install"]);
      assert ["install"] + [] == ["install"];
      JoinAppend(PackageTarget.TreePath(targetsRoot, "spec2006", []), ["install"], args);
    } else {
      assert Paths.Join(t.source, []) == t.source;
    }
  }

  lemma {:induction false} JoinAppend(a: string, xs: seq<string>, ys: seq<string>)
    ensures Paths.Join(a, xs + ys) == Paths.Join(Paths.Join(a, xs), ys)
    decreases |ys|
  {
    if |ys| == 0 {
      assert xs + ys == xs;
    } else {
      var init := ys[..|ys| - 1];
      JoinAppend(a, xs, init);
      assert (xs + ys)[..|xs + ys| - 1] == xs + init;
    }
  }

  /** The patch path rule of `_apply_patches`: a bare name is a built-in patch next to this file. */
  function PatchPath(configRoot: string, path: string): (r: string)
    ensures '/' in path ==> r == path
    ensures '/' !in path ==> r == configRoot + "/" + path + ".patch"
  {
    if '/' !in path then configRoot + "/" + path + ".patch" else path
  }

  /** A built-in patch is stamped with its own name. */
  lemma BuiltinPatchStamp(configRoot: string, name: string)
    requires '/' !in name && forall k :: 0 <= k <= |name| ==> !Strs.OccursAt(name, ".patch", k)
    ensures Util.StampName(PatchPath(configRoot, name)) == ".patched-" + name
  {
    Util.StampOfPatchFile(configRoot, name);
  }

  // ---------------------------------------------------------------------
  // _get_benchmarks

  /** The members of `bench` that the instance does not exclude. */
  ghost function Kept(bench: seq<string>, excluded: string -> bool): set<string>
  {
    set b | b in bench && !excluded(b)
  }

  /** The benchmarks the first `n` requested sets contribute. */
  ghost function Gathered(table: map<string, seq<string>>, sets: seq<string>, excluded: string -> bool, n: nat): set<string>
    requires n <= |sets| && forall i :: 0 <= i < n ==> sets[i] in table
  {
    if n == 0 then {} else Gathered(table, sets, excluded, n - 1) + Kept(table[sets[n - 1]], excluded)
  }

  lemma {:induction false} GatheredMembers(table: map<string, seq<string>>, sets: seq<string>, excluded: string -> bool, n: nat)
    requires n <= |sets| && forall i :: 0 <= i < n ==> sets[i] in table
    ensures forall b :: b in Gathered(table, sets, excluded, n) <==>
      !excluded(b) && exists i :: 0 <= i < n && b in table[sets[i]]
    decreases n
  {
    if n > 0 {
      GatheredMembers(table, sets, excluded, n - 1);
    }
  }

  /**
   * `_get_benchmarks(ctx, instance)`: the members of the requested sets that
   * `excluded` (the instance's `exclude_spec2006_benchmark`, or nothing
   * when it has none) lets through, each once and sorted.  An unknown set
   * name is a `KeyError`.
   */
  method GetBenchmarks(table: map<string, seq<string>>, sets: seq<string>, excluded: string -> bool)
    returns (r: Result<seq<string>>)
    ensures r.Ok? <==> forall i :: 0 <= i < |sets| ==> sets[i] in table
    ensures r.Err? ==> exists i :: 0 <= i < |sets| && sets[i] !in table && r.error == KeyError(sets[i])
                         && forall j :: 0 <= j < i ==> sets[j] in table
    ensures r.Ok? ==> Strs.StrictlySorted(r.value)
    ensures r.Ok? ==> forall b :: b in r.value <==> !excluded(b) && exists i :: 0 <= i < |sets| && b in table[sets[i]]
  {
    var benchmarks: set<string> := {};
    for i := 0 to |sets|
      invariant forall j :: 0 <= j < i ==> sets[j] in table
      invariant benchmarks == Gathered(table, sets, excluded, i)
    {
      if sets[i] !in table {
        return Err(KeyError(sets[i]));
      }
      var bench := table[sets[i]];
      ghost var before := benchmarks;
      for k := 0 to |bench|
        invariant benchmarks == before + (set m | 0 <= m < k && !excluded(bench[m]) :: bench[m])
      {
        if !excluded(bench[k]) {
          benchmarks := benchmarks + {bench[k]};
        }
      }
      assert (set m | 0 <= m < |bench| && !excluded(bench[m]) :: bench[m]) == Kept(bench, excluded);
    }
    GatheredMembers(table, sets, excluded, |sets|);
    var sorted := Strs.SortSet(benchmarks);
    r := Ok(sorted);
  }

  // ---------------------------------------------------------------------
  // run: arguments, wrapper and command

  datatype PoolKind = NoPool | ProcPool | PrunPool

  /** The output root on the node's local disk used under prun. */
  function OutputRoot(user: string): string
  {
    "/local/" + user + "/cpu2006-output-root"
  }

  /** The iteration count `run` hands runspec: one under a pool, which repeats the job itself. */
  function Iterations(pool: PoolKind, iterations: int): string
  {
    if pool != NoPool then "1" else Strs.IntToString(iterations)
  }

  /** The options `run` puts before the user's `--runspec-args`. */
  function RunArgsHead(test: bool, pool: PoolKind, iterations: int, user: string, runWrapper: Option<string>): seq<string>
  {
    (if test then ["--size", "test"] else [])
    + ["--iterations", Iterations(pool, iterations)]
    + (if pool == PrunPool then ["--define", "output_root=" + OutputRoot(user)] else [])
    + (if runWrapper.Some? then ["--define", "run_wrapper=" + runWrapper.value] else [])
    + (if pool == NoPool then ["--ignore_errors"] else [])
  }

  /** The argument list `run` builds with `+=`. */
  method RunArgs(test: bool, pool: PoolKind, iterations: int, user: string, runWrapper: Option<string>,
                 runspecArgs: seq<string>) returns (runargs: seq<string>)
    ensures runargs == RunArgsHead(test, pool, iterations, user, runWrapper) + runspecArgs
  {
    ghost var a := if test then ["--size", "test"] else [];
    ghost var b := ["--iterations", Iterations(pool, iterations)];
    ghost var c := if pool == PrunPool then ["--define", "output_root=" + OutputRoot(user)] else [];
    ghost var d := if runWrapper.Some? then ["--define", "run_wrapper=" + runWrapper.value] else [];
    ghost var e := if pool == NoPool then ["--ignore_errors"] else [];
    runargs := [];
    if test {
      runargs := runargs + ["--size", "test"];
    }
    assert runargs == a;
    runargs := runargs + ["--iterations", Iterations(pool, iterations)];
    assert runargs == a + b;
    if pool == PrunPool {
      runargs := runargs + ["--define", "output_root=" + OutputRoot(user)];
    }
    assert runargs == a + b + c;
    if runWrapper.Some? {
      runargs := runargs + ["--define", "run_wrapper=" + runWrapper.value];
    }
    assert runargs == a + b + c + d;
    if pool == NoPool {
      runargs := runargs + ["--ignore_errors"];
    }
    assert runargs == a + b + c + d + e;
    runargs := runargs + runspecArgs;
  }

  /**
   * The options before the user's: `--size test` exactly with `--test`,
   * then `--iterations` with 1 under a pool (the pool repeats the job
   * instead) or the requested count, the prun output root exactly under
   * prun, and `--ignore_errors` exactly without a pool, last.
   */
  lemma RunArgsShape(test: bool, pool: PoolKind, iterations: int, user: string, runWrapper: Option<string>)
    ensures var h := RunArgsHead(test, pool, iterations, user, runWrapper);
      var i := if test then 2 else 0;
      && ("--size" in h <==> test)
      && (test ==> h[..2] == ["--size", "test"])
      && |h| >= i + 2 && h[i] == "--iterations"
      && h[i + 1] == Iterations(pool, iterations)
      && ("output_root=" + OutputRoot(user) in h <==> pool == PrunPool)
      && ("--ignore_errors" in h <==> pool == NoPool)
      && (pool == NoPool ==> h[|h| - 1] == "--ignore_errors")
  {
    var h := RunArgsHead(test, pool, iterations, user, runWrapper);
    var a := if test then ["--size", "test"] else [];
    var b := ["--iterations", Iterations(pool, iterations)];
    var c := if pool == PrunPool then ["--define", "output_root=" + OutputRoot(user)] else [];
    var d := if runWrapper.Some? then ["--define", "run_wrapper=" + runWrapper.value] else [];
    var e := if pool == NoPool then ["--ignore_errors"] else [];
    assert h == a + b + c + d + e;
    var o := "output_root=" + OutputRoot(user);
    assert o[0] == 'o';
    NotDashed(b[1]);
    if runWrapper.Some? {
      assert ("run_wrapper=" + runWrapper.value)[0] == 'r';
    }
    InFive(a, b, c, d, e, "--size");
    InFive(a, b, c, d, e, o);
    InFive(a, b, c, d, e, "--ignore_errors");
  }

  lemma InFive(a: seq<string>, b: seq<string>, c: seq<string>, d: seq<string>, e: seq<string>, x: string)
    ensures x in a + b + c + d + e <==> x in a || x in b || x in c || x in d || x in e
  {
  }

  /** A decimal number or "1" is not one of the option names. */
  lemma NotDashed(s: string)
    requires s == "1" || exists n: int :: s == Strs.IntToString(n)
    ensures s != "--size" && s != "--ignore_errors" && s[0] != 'o'
  {
    if s != "1" {
      var n: int :| s == Strs.IntToString(n);
      var d := Strs.NatToString(if n < 0 then -n else n);
      assert Strs.IsDigit(d[0]);
      if n < 0 {
        assert s == "-" + d && s[1] == d[0];
      } else {
        assert s == d;
      }
    }
  }

  /** The word list of the run wrapper. */
  function WrapperWords(nothp: bool, forceCpu: int): seq<string>
  {
    ["killwrap_tree"] + (if nothp then ["nothp"] else [])
    + (if forceCpu >= 0 then ["taskset", "-c", Strs.IntToString(forceCpu)] else [])
  }

  /** The wrapper `run` builds with `+=`: the words of `WrapperWords`, separated by spaces. */
  method Wrapper(nothp: bool, forceCpu: int) returns (wrapper: string)
    ensures wrapper == Strs.Join(" ", WrapperWords(nothp, forceCpu))
  {
    wrapper := "killwrap_tree";
    ghost var words := ["killwrap_tree"];
    assert wrapper == Strs.Join(" ", words);
    if nothp {
      NothpStep(wrapper, words);
      wrapper := wrapper + " nothp";
      words := words + ["nothp"];
    }
    assert wrapper == Strs.Join(" ", words);
    if forceCpu >= 0 {
      var c := Strs.IntToString(forceCpu);
      TasksetStep(wrapper, words, c);
      wrapper := wrapper + " taskset -c " + c;
      words := words + ["taskset", "-c", c];
      assert wrapper == Strs.Join(" ", words);
    }
    assert words == WrapperWords(nothp, forceCpu);
  }

  lemma NothpStep(wrapper: string, words: seq<string>)
    requires |words| > 0 && wrapper == Strs.Join(" ", words)
    ensures wrapper + " nothp" == Strs.Join(" ", words + ["nothp"])
  {
    Strs.JoinSnoc(" ", words, "nothp");
  }

  lemma TasksetStep(wrapper: string, words: seq<string>, cpu: string)
    requires |words| > 0 && wrapper == Strs.Join(" ", words)
    ensures wrapper + " taskset -c " + cpu == Strs.Join(" ", words + ["taskset", "-c", cpu])
  {
    Strs.JoinSnoc3(" ", words, "taskset", "-c", cpu);
    TasksetText(wrapper, cpu);
  }

  lemma TasksetText(wrapper: string, cpu: string)
    ensures wrapper + " taskset -c " + cpu == wrapper + (" " + "taskset" + " " + "-c" + " " + cpu)
  {
  }

  /** The wrapper's words need no quoting: the shell reads them back as they are. */
  lemma WrapperSafe(nothp: bool, forceCpu: int)
    ensures var ws := WrapperWords(nothp, forceCpu);
      forall k :: 0 <= k < |ws| ==> |ws[k]| > 0 && Shell.AllSafe(ws[k])
  {
    if forceCpu >= 0 {
      var d := Strs.NatToString(forceCpu);
      assert forall k :: 0 <= k < |d| ==> Strs.IsDigit(d[k]);
    }
  }

  /** `'infra-' + instance.name`, the configuration both `build` and `run` use. */
  function ConfigName(instance: string): string
  {
    "infra-" + instance
  }

  /** The runspec command line (without `--measuremem`) with its `{bench}` field filled in by `bench`. */
  function RunspecCommand(wrapper: string, config: string, runargs: string, bench: string): string
  {
    wrapper + " " + "runspec" + " " + "--config=" + config + " " + "--nobuild" + " " + runargs + " " + bench
  }

  lemma CommandShape(wrapper: string, config: string, runargs: string, bench: string)
    ensures RunspecCommand(wrapper, config, runargs, bench)
            == wrapper + " " + (("runspec" + " " + ("--config=" + config) + " " + "--nobuild") + " " + (runargs + " " + bench))
  {
  }

  /** The `--measuremem` command: a setup pass, then the memory-measuring runner under the wrapper. */
  function MeasurememCommand(wrapper: string, config: string, runargs: string, configRoot: string,
                             outputRoot: string, bench: string): string
  {
    "runspec --config=" + config + " --action=setup " + runargs + " %s\n"
    + wrapper + " " + configRoot + "/measuremem.py " + outputRoot + " " + config + " " + bench
  }

  /**
   * Without `--measuremem` and without a pool, the shell hands runspec
   * exactly the wrapper's words, `runspec`, the configuration, `--nobuild`,
   * the run arguments and the benchmarks.
   */
  lemma RunspecWords(nothp: bool, forceCpu: int, instance: string, runargs: seq<string>, benchmarks: seq<string>)
    requires |instance| > 0 && Shell.AllSafe(instance)
    ensures Shell.Split(RunspecCommand(Strs.Join(" ", WrapperWords(nothp, forceCpu)), ConfigName(instance),
                                       Shell.QJoin(runargs), Shell.QJoin(benchmarks)))
            == Ok(WrapperWords(nothp, forceCpu) + (["runspec", "--config=" + ConfigName(instance), "--nobuild"]
                  + (runargs + benchmarks)))
  {
    var ws := WrapperWords(nothp, forceCpu);
    var fixed := ["runspec", "--config=" + ConfigName(instance), "--nobuild"];
    WrapperSafe(nothp, forceCpu);
    Shell.SafeWords(ws);
    FixedWords(instance);
    var s3 := Shell.QJoin(runargs) + " " + Shell.QJoin(benchmarks);
    var s2 := Shell.QJoin(fixed) + " " + s3;
    CommandShape(Strs.Join(" ", ws), ConfigName(instance), Shell.QJoin(runargs), Shell.QJoin(benchmarks));
    Shell.QJoinRoundTrip(benchmarks);
    Shell.SplitQJoinThen(runargs, Shell.QJoin(benchmarks), benchmarks);
    Shell.SplitQJoinThen(fixed, s3, runargs + benchmarks);
    Shell.SplitQJoinThen(ws, s2, fixed + (runargs + benchmarks));
  }

  /** The fixed words of the command need no quoting either. */
  lemma FixedWords(instance: string)
    requires |instance| > 0 && Shell.AllSafe(instance)
    ensures var config := "--config=" + ConfigName(instance);
      Shell.QJoin(["runspec", config, "--nobuild"]) == "runspec" + " " + config + " " + "--nobuild"
  {
    var config := "--config=" + ConfigName(instance);
    forall k | 0 <= k < |config| ensures Shell.IsSafe(config[k]) {
      if k >= 15 { assert config[k] == instance[k - 15]; }
    }
    var fixed := ["runspec", config, "--nobuild"];
    assert Shell.AllSafe("runspec") && Shell.AllSafe("--nobuild");
    Shell.SafeWords(fixed);
    Strs.JoinThree(" ", "runspec", config, "--nobuild");
  }

  /** The command `run` runs for the benchmarks `bench`, with or without `--measuremem`. */
  function Command(measuremem: bool, wrapper: string, config: string, runargs: string, configRoot: string,
                   outputRoot: string, bench: string): string
  {
    if measuremem then MeasurememCommand(wrapper, config, runargs, configRoot, outputRoot, bench)
    else RunspecCommand(wrapper, config, runargs, bench)
  }

  /**
   * The template `run` formats with its locals: the command with a field
   * for each local it names, and `{{bench}}`, which the first `format`
   * turns into the field each benchmark fills in.
   */
  function CommandTemplate(measuremem: bool): string
  {
    Command(measuremem, PyFormat.FieldText("wrapper"), PyFormat.FieldText("config"), PyFormat.FieldText("runargs"),
            PyFormat.FieldText("config_root"), PyFormat.FieldText("output_root"), PyFormat.EscapedText("bench"))
  }

  /** The locals of `run` that its templates name. */
  function RunLocals(wrapper: string, config: string, runargs: string, configRoot: string, outputRoot: string,
                     specdir: string): map<string, string>
  {
    map["wrapper" := wrapper, "config" := config, "runargs" := runargs, "config_root" := configRoot,
        "output_root" := outputRoot, "specdir" := specdir]
  }

  /** `output_root`: on the node's local disk under prun, the installation otherwise. */
  function OutputRootOf(pool: PoolKind, user: string, specdir: string): string
  {
    if pool == PrunPool then OutputRoot(user) else specdir
  }

  /**
   * The script `run` wraps the command in under prun, line by line: the
   * output root on local disk is made afresh with a link to the results,
   * the benchmark's executables are copied there, the command runs with its
   * output paths rewritten back to the installation, and the output root is
   * removed again.  The brackets around the command are written `open` and
   * `close`, doubled while a `format` is still to come.
   */
  function PrunScriptLines(outputRoot: string, specdir: string, command: string, bench: string, open: string,
                           close: string): seq<string>
  {
    [ "rm -rf \"" + outputRoot + "\"",
      "mkdir -p \"" + outputRoot + "\"",
      "mkdir -p \"" + specdir + "/result\"",
      "ln -s \"" + specdir + "/result\" \"" + outputRoot + "\"",
      "if [ -d \"" + specdir + "/benchspec/CPU2006/" + bench + "/exe\" ]; then",
      "    mkdir -p \"" + outputRoot + "/benchspec/CPU2006/" + bench + "\"",
      "    cp -r \"" + specdir + "/benchspec/CPU2006/" + bench + "/exe\" \\",
      "        \"" + outputRoot + "/benchspec/CPU2006/" + bench + "\"",
      "fi",
      open + " " + command + "; " + close + " | \\",
      "    sed \"s," + outputRoot + "/result/," + specdir + "/result/,g\"",
      "rm -rf \"" + outputRoot + "\"" ]
  }

  /** The indentation of the prun script in `run`. */
  const PrunIndent := "                "

  /** The prun template as `run` writes it: the lines indented by 16 spaces, then the closing quotes. */
  function PrunTemplate(): string
  {
    "\n" + Strs.Join("\n", Unindent.Indented(PrunIndent, PrunTemplateLines()) + [PrunIndent])
  }

  function PrunTemplateLines(): seq<string>
  {
    PrunScriptLines(PyFormat.FieldText("output_root"), PyFormat.FieldText("specdir"), PyFormat.FieldText("cmd"),
                    PyFormat.EscapedText("bench"), "{{{{", "}}}}")
  }

  /** The prun script bash runs for one benchmark. */
  function PrunCommand(outputRoot: string, specdir: string, command: string, bench: string): string
  {
    Strs.Join("\n", PrunScriptLines(outputRoot, specdir, command, bench, "{", "}"))
  }

  /** The indentation of the script in `_bash_command`. */
  const BashIndent := "            "

  /** The lines `_bash_command` puts before the command: enter the installation and load its environment. */
  function BashPrelude(specdir: string, configRoot: string): seq<string>
  {
    ["cd " + specdir, "source shrc", "source \"" + configRoot + "/scripts/kill-tree-on-interrupt.inc\""]
  }

  /**
   * `_bash_command(ctx, command)`: the triple-quoted script with the
   * installation, the directory of the target's sources and the command
   * substituted by `%`, passed through `_unindent` and put after a newline.
   */
  function BashCommand(specdir: string, configRoot: string, command: string): seq<string>
  {
    var script := "\n" + Strs.Join("\n", Unindent.Indented(BashIndent, BashPrelude(specdir, configRoot) + [command]) + [BashIndent]);
    ["bash", "-c", "\n" + Unindent.Unindent(script)]
  }

  datatype BenchJob = BenchJob(jobid: string, command: seq<string>, nnodes: int)
  datatype RunPlan = Direct(command: seq<string>) | Jobs(jobs: seq<BenchJob>)

  /**
   * One pool job per benchmark, named `run-<instance>-<bench>`, on
   * `iterations` nodes, running `cmd` with the benchmark filled in.
   * Whether `cmd` formats does not depend on the benchmark, so a template
   * that does not format fails on the first benchmark, before any job is
   * submitted.
   */
  function PoolJobs(instance: string, specdir: string, configRoot: string, cmd: string, iterations: int,
                    benchmarks: seq<string>): (r: Result<seq<BenchJob>>)
    ensures r.Ok? <==> |benchmarks| == 0 || PyFormat.Format(cmd, map["bench" := benchmarks[0]]).Ok?
    ensures r.Err? ==> |benchmarks| > 0 && r.error == PyFormat.Format(cmd, map["bench" := benchmarks[0]]).error
    ensures r.Ok? ==> |r.value| == |benchmarks| && forall k :: 0 <= k < |benchmarks| ==>
      && PyFormat.Format(cmd, map["bench" := benchmarks[k]]).Ok?
      && r.value[k] == BenchJob("run-" + instance + "-" + benchmarks[k],
                                BashCommand(specdir, configRoot, PyFormat.Format(cmd, map["bench" := benchmarks[k]]).value),
                                iterations)
    decreases |benchmarks|
  {
    if |benchmarks| == 0 then Ok([])
    else
      match PyFormat.Format(cmd, map["bench" := benchmarks[0]])
      case Err(e) => Err(e)
      case Ok(c) =>
        var job := BenchJob("run-" + instance + "-" + benchmarks[0], BashCommand(specdir, configRoot, c), iterations);
        if |benchmarks| > 1 then
          PyFormat.FormatOkSameNames(cmd, map["bench" := benchmarks[0]], map["bench" := benchmarks[1]]);
          match PoolJobs(instance, specdir, configRoot, cmd, iterations, benchmarks[1..])
          case Err(e) => Err(e)
          case Ok(rest) => Ok([job] + rest)
        else Ok([job])
  }

  datatype RunOptions = RunOptions(test: bool, iterations: int, measuremem: bool, runspecArgs: seq<string>)

  /** `runargs` as `run` puts it into the command: its options and the user's, quoted and joined. */
  function RunArgsText(o: RunOptions, pool: PoolKind, user: string, runWrapper: Option<string>): string
  {
    Shell.QJoin(RunArgsHead(o.test, pool, o.iterations, user, runWrapper) + o.runspecArgs)
  }

  /** `wrapper` as `run` builds it. */
  function WrapperText(t: Spec2006): string
  {
    Strs.Join(" ", WrapperWords(t.nothp, t.forceCpu))
  }

  /**
   * The script a pool job for benchmark `bench` hands to `_bash_command`:
   * the command, wrapped in the output-root script under prun.
   */
  function BenchScript(pool: PoolKind, command: string, outputRoot: string, specdir: string, bench: string): string
  {
    if pool == PrunPool then PrunCommand(outputRoot, specdir, command, bench) else command
  }

  /**
   * `run(ctx, instance, pool)`: a target that has no configuration for the
   * instance has not been built.  Otherwise the commands are made from the
   * wrapper, the configuration name and the run arguments.
   */
  function Run(t: Spec2006, o: RunOptions, instance: string, configExists: bool, pool: PoolKind, user: string,
               runWrapper: Option<string>, specdir: string, configRoot: string, benchmarks: seq<string>): (r: Result<RunPlan>)
    ensures !configExists ==> r == Err(FatalError("spec2006-" + instance + " has not been built yet!"))
    ensures r.Ok? && pool == NoPool ==> r.value.Direct?
    ensures r.Ok? && pool != NoPool ==>
      && r.value.Jobs? && |r.value.jobs| == |benchmarks|
      && forall k :: 0 <= k < |benchmarks| ==>
           r.value.jobs[k].jobid == "run-" + instance + "-" + benchmarks[k] && r.value.jobs[k].nnodes == o.iterations
  {
    if !configExists then Err(FatalError("spec2006-" + instance + " has not been built yet!"))
    else
      RunPlanOf(o.measuremem, WrapperText(t), ConfigName(instance), RunArgsText(o, pool, user, runWrapper),
                OutputRootOf(pool, user, specdir), pool, instance, o.iterations, specdir, configRoot, benchmarks)
  }

  /**
   * The rest of `run`: the command template is formatted with the locals
   * of `run`; under prun it is wrapped in the output-root script, formatted
   * likewise; then it is formatted with the benchmarks, all at once without
   * a pool and one pool job each with one, and handed to bash through
   * `_bash_command`.
   */
  function RunPlanOf(measuremem: bool, wrapper: string, config: string, runargs: string, outputRoot: string, pool: PoolKind,
                     instance: string, iterations: int, specdir: string, configRoot: string,
                     benchmarks: seq<string>): (r: Result<RunPlan>)
    ensures r.Ok? && pool == NoPool ==> r.value.Direct?
    ensures r.Ok? && pool != NoPool ==>
      && r.value.Jobs? && |r.value.jobs| == |benchmarks|
      && forall k :: 0 <= k < |benchmarks| ==>
           r.value.jobs[k].jobid == "run-" + instance + "-" + benchmarks[k] && r.value.jobs[k].nnodes == iterations
  {
    var env := RunLocals(wrapper, config, runargs, configRoot, outputRoot, specdir);
    match PyFormat.Format(CommandTemplate(measuremem), env)
    case Err(e) => Err(e)
    case Ok(cmd) =>
      if pool == NoPool then
        match PyFormat.Format(cmd, map["bench" := Shell.QJoin(benchmarks)])
        case Err(e) => Err(e)
        case Ok(c) => Ok(Direct(BashCommand(specdir, configRoot, c)))
      else
        var script := if pool == PrunPool then PyFormat.Format(Unindent.Unindent(PrunTemplate()), env["cmd" := cmd]) else Ok(cmd);
        match script
        case Err(e) => Err(e)
        case Ok(s) =>
          match PoolJobs(instance, specdir, configRoot, s, iterations, benchmarks)
          case Err(e) => Err(e)
          case Ok(jobs) => Ok(Jobs(jobs))
  }

  // The fixed texts of the commands and of the prun script have no braces, one text at a time.
  lemma CommandText0() ensures PyFormat.BraceFree("runspec") { }
  lemma CommandText1() ensures PyFormat.BraceFree("--config=") { }
  lemma CommandText2() ensures PyFormat.BraceFree("--nobuild") { }
  lemma CommandText3() ensures PyFormat.BraceFree(" ") { }
  lemma CommandText4() ensures PyFormat.BraceFree("runspec --config=") { }
  lemma CommandText5() ensures PyFormat.BraceFree(" --action=setup ") { }
  lemma CommandText6() ensures PyFormat.BraceFree(" %s\n") { }
  lemma CommandText7() ensures PyFormat.BraceFree("/measuremem.py ") { }
  lemma PrunText0() ensures PyFormat.BraceFree("rm -rf \"") && '\n' !in "rm -rf \"" { }
  lemma PrunText1() ensures PyFormat.BraceFree("\"") && '\n' !in "\"" { }
  lemma PrunText2() ensures PyFormat.BraceFree("mkdir -p \"") && '\n' !in "mkdir -p \"" { }
  lemma PrunText3() ensures PyFormat.BraceFree("/result\"") && '\n' !in "/result\"" { }
  lemma PrunText4() ensures PyFormat.BraceFree("ln -s \"") && '\n' !in "ln -s \"" { }
  lemma PrunText5() ensures PyFormat.BraceFree("/result\" \"") && '\n' !in "/result\" \"" { }
  lemma PrunText6() ensures PyFormat.BraceFree("if [ -d \"") && '\n' !in "if [ -d \"" { }
  lemma PrunText7() ensures PyFormat.BraceFree("/benchspec/CPU2006/") && '\n' !in "/benchspec/CPU2006/" { }
  lemma PrunText8() ensures PyFormat.BraceFree("/exe\" ]; then") && '\n' !in "/exe\" ]; then" { }
  lemma PrunText9() ensures PyFormat.BraceFree("    mkdir -p \"") && '\n' !in "    mkdir -p \"" { }
  lemma PrunText10() ensures PyFormat.BraceFree("    cp -r \"") && '\n' !in "    cp -r \"" { }
  lemma PrunText11() ensures PyFormat.BraceFree("/exe\" \\") && '\n' !in "/exe\" \\" { }
  lemma PrunText12() ensures PyFormat.BraceFree("        \"") && '\n' !in "        \"" { }
  lemma PrunText13() ensures PyFormat.BraceFree("fi") && '\n' !in "fi" { }
  lemma PrunText14() ensures PyFormat.BraceFree(" ") && '\n' !in " " { }
  lemma PrunText15() ensures PyFormat.BraceFree("; ") && '\n' !in "; " { }
  lemma PrunText16() ensures PyFormat.BraceFree(" | \\") && '\n' !in " | \\" { }
  lemma PrunText17() ensures PyFormat.BraceFree("    sed \"s,") && '\n' !in "    sed \"s," { }
  lemma PrunText18() ensures PyFormat.BraceFree("/result/,") && '\n' !in "/result/," { }
  lemma PrunText19() ensures PyFormat.BraceFree("/result/,g\"") && '\n' !in "/result/,g\"" { }

  /** The fixed texts of the runspec commands have no braces. */
  lemma CommandTexts()
    ensures PyFormat.BraceFree("runspec")
    ensures PyFormat.BraceFree("--config=")
    ensures PyFormat.BraceFree("--nobuild")
    ensures PyFormat.BraceFree(" ")
    ensures PyFormat.BraceFree("runspec --config=")
    ensures PyFormat.BraceFree(" --action=setup ")
    ensures PyFormat.BraceFree(" %s\n")
    ensures PyFormat.BraceFree("/measuremem.py ")
  {
    CommandText0(); CommandText1(); CommandText2(); CommandText3(); CommandText4(); CommandText5(); CommandText6(); CommandText7();
  }

  /** The fixed texts of the prun script have no braces. */
  lemma PrunTexts()
    ensures PyFormat.BraceFree("rm -rf \"")
    ensures PyFormat.BraceFree("\"")
    ensures PyFormat.BraceFree("mkdir -p \"")
    ensures PyFormat.BraceFree("/result\"")
    ensures PyFormat.BraceFree("ln -s \"")
    ensures PyFormat.BraceFree("/result\" \"")
    ensures PyFormat.BraceFree("if [ -d \"")
    ensures PyFormat.BraceFree("/benchspec/CPU2006/")
    ensures PyFormat.BraceFree("/exe\" ]; then")
    ensures PyFormat.BraceFree("    mkdir -p \"")
    ensures PyFormat.BraceFree("    cp -r \"")
    ensures PyFormat.BraceFree("/exe\" \\")
    ensures PyFormat.BraceFree("        \"")
    ensures PyFormat.BraceFree("fi")
    ensures PyFormat.BraceFree(" ")
    ensures PyFormat.BraceFree("; ")
    ensures PyFormat.BraceFree(" | \\")
    ensures PyFormat.BraceFree("    sed \"s,")
    ensures PyFormat.BraceFree("/result/,")
    ensures PyFormat.BraceFree("/result/,g\"")
  {
    PrunText0(); PrunText1(); PrunText2(); PrunText3(); PrunText4(); PrunText5(); PrunText6(); PrunText7(); PrunText8(); PrunText9(); PrunText10(); PrunText11(); PrunText12(); PrunText13(); PrunText14(); PrunText15(); PrunText16(); PrunText17(); PrunText18(); PrunText19();
  }

  /** The runspec command's parts, with its fixed texts as parameters. */
  lemma RunspecChain(wrapper: string, wrapper': string, config: string, config': string, runargs: string, runargs': string, bench: string, bench': string, t0: string, t1: string, t2: string, t3: string, env: map<string, string>)
    requires PyFormat.Format(wrapper, env) == Ok(wrapper') && PyFormat.Format(config, env) == Ok(config') && PyFormat.Format(runargs, env) == Ok(runargs') && PyFormat.Format(bench, env) == Ok(bench')
    requires PyFormat.BraceFree(t0) && PyFormat.BraceFree(t1) && PyFormat.BraceFree(t2) && PyFormat.BraceFree(t3)
    ensures PyFormat.Format(wrapper + t0 + t1 + t0 + t2 + config + t0 + t3 + t0 + runargs + t0 + bench, env) == Ok(wrapper' + t0 + t1 + t0 + t2 + config' + t0 + t3 + t0 + runargs' + t0 + bench')
  {
    var s, v := wrapper, wrapper';
    PyFormat.FormatThenPlain(s, v, t0, env);
    s, v := s + t0, v + t0;
    PyFormat.FormatThenPlain(s, v, t1, env);
    s, v := s + t1, v + t1;
    PyFormat.FormatThenPlain(s, v, t0, env);
    s, v := s + t0, v + t0;
    PyFormat.FormatThenPlain(s, v, t2, env);
    s, v := s + t2, v + t2;
    PyFormat.FormatThen(s, v, config, config', env);
    s, v := s + config, v + config';
    PyFormat.FormatThenPlain(s, v, t0, env);
    s, v := s + t0, v + t0;
    PyFormat.FormatThenPlain(s, v, t3, env);
    s, v := s + t3, v + t3;
    PyFormat.FormatThenPlain(s, v, t0, env);
    s, v := s + t0, v + t0;
    PyFormat.FormatThen(s, v, runargs, runargs', env);
    s, v := s + runargs, v + runargs';
    PyFormat.FormatThenPlain(s, v, t0, env);
    s, v := s + t0, v + t0;
    PyFormat.FormatThen(s, v, bench, bench', env);
    s, v := s + bench, v + bench';
  }

  /** The runspec command formats part by part. */
  lemma RunspecFormats(wrapper: string, wrapper': string, config: string, config': string, runargs: string, runargs': string, bench: string, bench': string, env: map<string, string>)
    requires PyFormat.Format(wrapper, env) == Ok(wrapper') && PyFormat.Format(config, env) == Ok(config')
    requires PyFormat.Format(runargs, env) == Ok(runargs') && PyFormat.Format(bench, env) == Ok(bench')
    ensures PyFormat.Format(RunspecCommand(wrapper, config, runargs, bench), env) == Ok(RunspecCommand(wrapper', config', runargs', bench'))
  {
    CommandTexts();
    RunspecChain(wrapper, wrapper', config, config', runargs, runargs', bench, bench', " ", "runspec", "--config=", "--nobuild", env);
  }

  /** The `--measuremem` command's parts, with its fixed texts as parameters. */
  lemma MeasurememChain(config: string, config': string, runargs: string, runargs': string, wrapper: string, wrapper': string, configRoot: string, configRoot': string, outputRoot: string, outputRoot': string, bench: string, bench': string, t0: string, t1: string, t2: string, t3: string, t4: string, env: map<string, string>)
    requires PyFormat.Format(config, env) == Ok(config') && PyFormat.Format(runargs, env) == Ok(runargs') && PyFormat.Format(wrapper, env) == Ok(wrapper') && PyFormat.Format(configRoot, env) == Ok(configRoot') && PyFormat.Format(outputRoot, env) == Ok(outputRoot') && PyFormat.Format(bench, env) == Ok(bench')
    requires PyFormat.BraceFree(t0) && PyFormat.BraceFree(t1) && PyFormat.BraceFree(t2) && PyFormat.BraceFree(t3) && PyFormat.BraceFree(t4)
    ensures PyFormat.Format(t0 + config + t1 + runargs + t2 + wrapper + t3 + configRoot + t4 + outputRoot + t3 + config + t3 + bench, env) == Ok(t0 + config' + t1 + runargs' + t2 + wrapper' + t3 + configRoot' + t4 + outputRoot' + t3 + config' + t3 + bench')
  {
    PyFormat.FormatPlain(t0, env);
    var s, v := t0, t0;
    PyFormat.FormatThen(s, v, config, config', env);
    s, v := s + config, v + config';
    PyFormat.FormatThenPlain(s, v, t1, env);
    s, v := s + t1, v + t1;
    PyFormat.FormatThen(s, v, runargs, runargs', env);
    s, v := s + runargs, v + runargs';
    PyFormat.FormatThenPlain(s, v, t2, env);
    s, v := s + t2, v + t2;
    PyFormat.FormatThen(s, v, wrapper, wrapper', env);
    s, v := s + wrapper, v + wrapper';
    PyFormat.FormatThenPlain(s, v, t3, env);
    s, v := s + t3, v + t3;
    PyFormat.FormatThen(s, v, configRoot, configRoot', env);
    s, v := s + configRoot, v + configRoot';
    PyFormat.FormatThenPlain(s, v, t4, env);
    s, v := s + t4, v + t4;
    PyFormat.FormatThen(s, v, outputRoot, outputRoot', env);
    s, v := s + outputRoot, v + outputRoot';
    PyFormat.FormatThenPlain(s, v, t3, env);
    s, v := s + t3, v + t3;
    PyFormat.FormatThen(s, v, config, config', env);
    s, v := s + config, v + config';
    PyFormat.FormatThenPlain(s, v, t3, env);
    s, v := s + t3, v + t3;
    PyFormat.FormatThen(s, v, bench, bench', env);
    s, v := s + bench, v + bench';
  }

  /** The `--measuremem` command formats part by part. */
  lemma MeasurememFormats(wrapper: string, wrapper': string, config: string, config': string, runargs: string, runargs': string, configRoot: string, configRoot': string, outputRoot: string, outputRoot': string, bench: string, bench': string, env: map<string, string>)
    requires PyFormat.Format(wrapper, env) == Ok(wrapper') && PyFormat.Format(config, env) == Ok(config') && PyFormat.Format(runargs, env) == Ok(runargs')
    requires PyFormat.Format(configRoot, env) == Ok(configRoot') && PyFormat.Format(outputRoot, env) == Ok(outputRoot') && PyFormat.Format(bench, env) == Ok(bench')
    ensures PyFormat.Format(MeasurememCommand(wrapper, config, runargs, configRoot, outputRoot, bench), env)
            == Ok(MeasurememCommand(wrapper', config', runargs', configRoot', outputRoot', bench'))
  {
    CommandTexts();
    MeasurememChain(config, config', runargs, runargs', wrapper, wrapper', configRoot, configRoot', outputRoot, outputRoot', bench, bench', "runspec --config=", " --action=setup ", " %s\n", " ", "/measuremem.py ", env);
  }

  // The lines of the prun script format one at a time.
  lemma PrunLine0(outputRoot: string, outputRoot': string, env: map<string, string>)
    requires PyFormat.Format(outputRoot, env) == Ok(outputRoot')
    ensures PyFormat.Format("rm -rf \"" + outputRoot + "\"", env) == Ok("rm -rf \"" + outputRoot' + "\"")
  {
    PrunText0(); PrunText1();
    PyFormat.FormatAround("rm -rf \"", outputRoot, outputRoot', "\"", env);
  }

  lemma PrunLine1(outputRoot: string, outputRoot': string, env: map<string, string>)
    requires PyFormat.Format(outputRoot, env) == Ok(outputRoot')
    ensures PyFormat.Format("mkdir -p \"" + outputRoot + "\"", env) == Ok("mkdir -p \"" + outputRoot' + "\"")
  {
    PrunText2(); PrunText1();
    PyFormat.FormatAround("mkdir -p \"", outputRoot, outputRoot', "\"", env);
  }

  lemma PrunLine2(specdir: string, specdir': string, env: map<string, string>)
    requires PyFormat.Format(specdir, env) == Ok(specdir')
    ensures PyFormat.Format("mkdir -p \"" + specdir + "/result\"", env) == Ok("mkdir -p \"" + specdir' + "/result\"")
  {
    PrunText2(); PrunText3();
    PyFormat.FormatAround("mkdir -p \"", specdir, specdir', "/result\"", env);
  }

  lemma PrunLine3(outputRoot: string, outputRoot': string, specdir: string, specdir': string, env: map<string, string>)
    requires PyFormat.Format(outputRoot, env) == Ok(outputRoot') && PyFormat.Format(specdir, env) == Ok(specdir')
    ensures PyFormat.Format("ln -s \"" + specdir + "/result\" \"" + outputRoot + "\"", env) == Ok("ln -s \"" + specdir' + "/result\" \"" + outputRoot' + "\"")
  {
    PrunText4(); PrunText5(); PrunText1();
    PyFormat.FormatAround2("ln -s \"", specdir, specdir', "/result\" \"", outputRoot, outputRoot', "\"", env);
  }

  lemma PrunLine4(specdir: string, specdir': string, bench: string, bench': string, env: map<string, string>)
    requires PyFormat.Format(specdir, env) == Ok(specdir') && PyFormat.Format(bench, env) == Ok(bench')
    ensures PyFormat.Format("if [ -d \"" + specdir + "/benchspec/CPU2006/" + bench + "/exe\" ]; then", env) == Ok("if [ -d \"" + specdir' + "/benchspec/CPU2006/" + bench' + "/exe\" ]; then")
  {
    PrunText6(); PrunText7(); PrunText8();
    PyFormat.FormatAround2("if [ -d \"", specdir, specdir', "/benchspec/CPU2006/", bench, bench', "/exe\" ]; then", env);
  }

  lemma PrunLine5(outputRoot: string, outputRoot': string, bench: string, bench': string, env: map<string, string>)
    requires PyFormat.Format(outputRoot, env) == Ok(outputRoot') && PyFormat.Format(bench, env) == Ok(bench')
    ensures PyFormat.Format("    mkdir -p \"" + outputRoot + "/benchspec/CPU2006/" + bench + "\"", env) == Ok("    mkdir -p \"" + outputRoot' + "/benchspec/CPU2006/" + bench' + "\"")
  {
    PrunText9(); PrunText7(); PrunText1();
    PyFormat.FormatAround2("    mkdir -p \"", outputRoot, outputRoot', "/benchspec/CPU2006/", bench, bench', "\"", env);
  }

  lemma PrunLine6(specdir: string, specdir': string, bench: string, bench': string, env: map<string, string>)
    requires PyFormat.Format(specdir, env) == Ok(specdir') && PyFormat.Format(bench, env) == Ok(bench')
    ensures PyFormat.Format("    cp -r \"" + specdir + "/benchspec/CPU2006/" + bench + "/exe\" \\", env) == Ok("    cp -r \"" + specdir' + "/benchspec/CPU2006/" + bench' + "/exe\" \\")
  {
    PrunText10(); PrunText7(); PrunText11();
    PyFormat.FormatAround2("    cp -r \"", specdir, specdir', "/benchspec/CPU2006/", bench, bench', "/exe\" \\", env);
  }

  lemma PrunLine7(outputRoot: string, outputRoot': string, bench: string, bench': string, env: map<string, string>)
    requires PyFormat.Format(outputRoot, env) == Ok(outputRoot') && PyFormat.Format(bench, env) == Ok(bench')
    ensures PyFormat.Format("        \"" + outputRoot + "/benchspec/CPU2006/" + bench + "\"", env) == Ok("        \"" + outputRoot' + "/benchspec/CPU2006/" + bench' + "\"")
  {
    PrunText12(); PrunText7(); PrunText1();
    PyFormat.FormatAround2("        \"", outputRoot, outputRoot', "/benchspec/CPU2006/", bench, bench', "\"", env);
  }

  lemma PrunLine9(command: string, command': string, open: string, open': string, close: string, close': string, env: map<string, string>)
    requires PyFormat.Format(command, env) == Ok(command') && PyFormat.Format(open, env) == Ok(open') && PyFormat.Format(close, env) == Ok(close')
    ensures PyFormat.Format(open + " " + command + "; " + close + " | \\", env) == Ok(open' + " " + command' + "; " + close' + " | \\")
  {
    PrunText14(); PrunText15(); PrunText16();
    PyFormat.FormatBetween(open, open', " ", command, command', "; ", close, close', " | \\", env);
  }

  lemma PrunLine10(outputRoot: string, outputRoot': string, specdir: string, specdir': string, env: map<string, string>)
    requires PyFormat.Format(outputRoot, env) == Ok(outputRoot') && PyFormat.Format(specdir, env) == Ok(specdir')
    ensures PyFormat.Format("    sed \"s," + outputRoot + "/result/," + specdir + "/result/,g\"", env) == Ok("    sed \"s," + outputRoot' + "/result/," + specdir' + "/result/,g\"")
  {
    PrunText17(); PrunText18(); PrunText19();
    PyFormat.FormatAround2("    sed \"s,", outputRoot, outputRoot', "/result/,", specdir, specdir', "/result/,g\"", env);
  }

  /** The first three lines of the prun script format: the output root is made afresh. */
  lemma PrunRootFormats(outputRoot: string, outputRoot': string, specdir: string, specdir': string, command: string, command': string, bench: string, bench': string, open: string, open': string, close: string, close': string, env: map<string, string>)
    requires PyFormat.Format(outputRoot, env) == Ok(outputRoot') && PyFormat.Format(specdir, env) == Ok(specdir') && PyFormat.Format(command, env) == Ok(command')
    requires PyFormat.Format(bench, env) == Ok(bench') && PyFormat.Format(open, env) == Ok(open') && PyFormat.Format(close, env) == Ok(close')
    ensures var l, l' := PrunScriptLines(outputRoot, specdir, command, bench, open, close), PrunScriptLines(outputRoot', specdir', command', bench', open', close');
      forall k :: 0 <= k < 3 ==> PyFormat.Format(l[k], env) == Ok(l'[k])
  {
    var l, l' := PrunScriptLines(outputRoot, specdir, command, bench, open, close), PrunScriptLines(outputRoot', specdir', command', bench', open', close');
    forall k | 0 <= k < 3 ensures PyFormat.Format(l[k], env) == Ok(l'[k]) {
      if k == 0 { PrunLine0(outputRoot, outputRoot', env); }
      else if k == 1 { PrunLine1(outputRoot, outputRoot', env); }
      else { PrunLine2(specdir, specdir', env); }
    }
  }

  /** Lines 3 to 5 of the prun script format: the results link and the executables' directory. */
  lemma PrunCopyFormats(outputRoot: string, outputRoot': string, specdir: string, specdir': string, command: string, command': string, bench: string, bench': string, open: string, open': string, close: string, close': string, env: map<string, string>)
    requires PyFormat.Format(outputRoot, env) == Ok(outputRoot') && PyFormat.Format(specdir, env) == Ok(specdir') && PyFormat.Format(command, env) == Ok(command')
    requires PyFormat.Format(bench, env) == Ok(bench') && PyFormat.Format(open, env) == Ok(open') && PyFormat.Format(close, env) == Ok(close')
    ensures var l, l' := PrunScriptLines(outputRoot, specdir, command, bench, open, close), PrunScriptLines(outputRoot', specdir', command', bench', open', close');
      forall k :: 3 <= k < 6 ==> PyFormat.Format(l[k], env) == Ok(l'[k])
  {
    var l, l' := PrunScriptLines(outputRoot, specdir, command, bench, open, close), PrunScriptLines(outputRoot', specdir', command', bench', open', close');
    forall k | 3 <= k < 6 ensures PyFormat.Format(l[k], env) == Ok(l'[k]) {
      if k == 3 { PrunLine3(outputRoot, outputRoot', specdir, specdir', env); }
      else if k == 4 { PrunLine4(specdir, specdir', bench, bench', env); }
      else { PrunLine5(outputRoot, outputRoot', bench, bench', env); }
    }
  }

  /** The last six lines of the prun script format: the command and the clean-up. */
  lemma PrunTailFormats(outputRoot: string, outputRoot': string, specdir: string, specdir': string, command: string, command': string, bench: string, bench': string, open: string, open': string, close: string, close': string, env: map<string, string>)
    requires PyFormat.Format(outputRoot, env) == Ok(outputRoot') && PyFormat.Format(specdir, env) == Ok(specdir') && PyFormat.Format(command, env) == Ok(command')
    requires PyFormat.Format(bench, env) == Ok(bench') && PyFormat.Format(open, env) == Ok(open') && PyFormat.Format(close, env) == Ok(close')
    ensures var l, l' := PrunScriptLines(outputRoot, specdir, command, bench, open, close), PrunScriptLines(outputRoot', specdir', command', bench', open', close');
      forall k :: 6 <= k < 12 ==> PyFormat.Format(l[k], env) == Ok(l'[k])
  {
    var l, l' := PrunScriptLines(outputRoot, specdir, command, bench, open, close), PrunScriptLines(outputRoot', specdir', command', bench', open', close');
    forall k | 6 <= k < 12 ensures PyFormat.Format(l[k], env) == Ok(l'[k]) {
      if k == 6 { PrunLine6(specdir, specdir', bench, bench', env); }
      else if k == 7 { PrunLine7(outputRoot, outputRoot', bench, bench', env); }
      else if k == 8 { PrunText13(); PyFormat.FormatPlain("fi", env); }
      else if k == 9 { PrunLine9(command, command', open, open', close, close', env); }
      else if k == 10 { PrunLine10(outputRoot, outputRoot', specdir, specdir', env); }
      else { PrunLine0(outputRoot, outputRoot', env); }
    }
  }

  /** The prun script formats line by line. */
  lemma PrunLinesFormat(outputRoot: string, outputRoot': string, specdir: string, specdir': string, command: string, command': string, bench: string, bench': string, open: string, open': string, close: string, close': string, env: map<string, string>)
    requires PyFormat.Format(outputRoot, env) == Ok(outputRoot') && PyFormat.Format(specdir, env) == Ok(specdir') && PyFormat.Format(command, env) == Ok(command')
    requires PyFormat.Format(bench, env) == Ok(bench') && PyFormat.Format(open, env) == Ok(open') && PyFormat.Format(close, env) == Ok(close')
    ensures var l, l' := PrunScriptLines(outputRoot, specdir, command, bench, open, close), PrunScriptLines(outputRoot', specdir', command', bench', open', close');
      |l| == |l'| && forall k :: 0 <= k < |l| ==> PyFormat.Format(l[k], env) == Ok(l'[k])
  {
    PrunRootFormats(outputRoot, outputRoot', specdir, specdir', command, command', bench, bench', open, open', close, close', env);
    PrunCopyFormats(outputRoot, outputRoot', specdir, specdir', command, command', bench, bench', open, open', close, close', env);
    PrunTailFormats(outputRoot, outputRoot', specdir, specdir', command, command', bench, bench', open, open', close, close', env);
  }

  /** The fields of the locals of `run`, one name at a time. */
  lemma LocalsWrapper(w: string, c: string, r: string, cr: string, or: string, sd: string)
    ensures PyFormat.Format(PyFormat.FieldText("wrapper"), RunLocals(w, c, r, cr, or, sd)) == Ok(w)
  {
    PyFormat.FormatField("wrapper", RunLocals(w, c, r, cr, or, sd));
  }

  lemma LocalsConfig(w: string, c: string, r: string, cr: string, or: string, sd: string)
    ensures PyFormat.Format(PyFormat.FieldText("config"), RunLocals(w, c, r, cr, or, sd)) == Ok(c)
  {
    PyFormat.FormatField("config", RunLocals(w, c, r, cr, or, sd));
  }

  lemma LocalsRunargs(w: string, c: string, r: string, cr: string, or: string, sd: string)
    ensures PyFormat.Format(PyFormat.FieldText("runargs"), RunLocals(w, c, r, cr, or, sd)) == Ok(r)
  {
    PyFormat.FormatField("runargs", RunLocals(w, c, r, cr, or, sd));
  }

  lemma LocalsConfigRoot(w: string, c: string, r: string, cr: string, or: string, sd: string)
    ensures PyFormat.Format(PyFormat.FieldText("config_root"), RunLocals(w, c, r, cr, or, sd)) == Ok(cr)
  {
    PyFormat.FormatField("config_root", RunLocals(w, c, r, cr, or, sd));
  }

  lemma LocalsOutputRoot(env: map<string, string>)
    requires "output_root" in env
    ensures PyFormat.Format(PyFormat.FieldText("output_root"), env) == Ok(env["output_root"])
  {
    PyFormat.FormatField("output_root", env);
  }

  lemma LocalsSpecdir(env: map<string, string>)
    requires "specdir" in env
    ensures PyFormat.Format(PyFormat.FieldText("specdir"), env) == Ok(env["specdir"])
  {
    PyFormat.FormatField("specdir", env);
  }

  lemma LocalsCmd(w: string, c: string, r: string, cr: string, or: string, sd: string, cmd: string)
    ensures PyFormat.Format(PyFormat.FieldText("cmd"), RunLocals(w, c, r, cr, or, sd)["cmd" := cmd]) == Ok(cmd)
  {
    PyFormat.FormatField("cmd", RunLocals(w, c, r, cr, or, sd)["cmd" := cmd]);
  }

  /** `{bench}` is what `format(bench=b)` fills in. */
  lemma BenchField(b: string)
    ensures PyFormat.Format(PyFormat.FieldText("bench"), map["bench" := b]) == Ok(b)
  {
    PyFormat.FormatField("bench", map["bench" := b]);
  }

  /** `{{bench}}` survives the first `format` as the field `{bench}`. */
  lemma BenchEscaped(env: map<string, string>)
    ensures PyFormat.Format(PyFormat.EscapedText("bench"), env) == Ok(PyFormat.FieldText("bench"))
  {
    PyFormat.FormatEscapedField("bench", env);
  }

  /**
   * The first `format` of the command template leaves the command with the
   * field `{bench}` in place of the benchmarks.
   */
  lemma CommandFirstFormat(m: bool, w: string, c: string, r: string, cr: string, or: string, sd: string)
    ensures PyFormat.Format(CommandTemplate(m), RunLocals(w, c, r, cr, or, sd))
            == Ok(Command(m, w, c, r, cr, or, PyFormat.FieldText("bench")))
  {
    var env := RunLocals(w, c, r, cr, or, sd);
    LocalsWrapper(w, c, r, cr, or, sd);
    LocalsConfig(w, c, r, cr, or, sd);
    LocalsRunargs(w, c, r, cr, or, sd);
    BenchEscaped(env);
    if m {
      LocalsConfigRoot(w, c, r, cr, or, sd);
      LocalsOutputRoot(env);
      MeasurememFormats(PyFormat.FieldText("wrapper"), w, PyFormat.FieldText("config"), c, PyFormat.FieldText("runargs"), r,
                        PyFormat.FieldText("config_root"), cr, PyFormat.FieldText("output_root"), or,
                        PyFormat.EscapedText("bench"), PyFormat.FieldText("bench"), env);
    } else {
      RunspecFormats(PyFormat.FieldText("wrapper"), w, PyFormat.FieldText("config"), c, PyFormat.FieldText("runargs"), r,
                     PyFormat.EscapedText("bench"), PyFormat.FieldText("bench"), env);
    }
  }

  /**
   * The second `format`, with `bench`, puts the benchmarks in, as long as
   * the texts put in by the first one have no braces of their own.
   */
  lemma CommandSecondFormat(m: bool, w: string, c: string, r: string, cr: string, or: string, b: string)
    requires PyFormat.BraceFree(w) && PyFormat.BraceFree(c) && PyFormat.BraceFree(r)
    requires PyFormat.BraceFree(cr) && PyFormat.BraceFree(or)
    ensures PyFormat.Format(Command(m, w, c, r, cr, or, PyFormat.FieldText("bench")), map["bench" := b])
            == Ok(Command(m, w, c, r, cr, or, b))
  {
    var env := map["bench" := b];
    PyFormat.FormatPlain(w, env);
    PyFormat.FormatPlain(c, env);
    PyFormat.FormatPlain(r, env);
    BenchField(b);
    if m {
      PyFormat.FormatPlain(cr, env);
      PyFormat.FormatPlain(or, env);
      MeasurememFormats(w, w, c, c, r, r, cr, cr, or, or, PyFormat.FieldText("bench"), b, env);
    } else {
      RunspecFormats(w, w, c, c, r, r, PyFormat.FieldText("bench"), b, env);
    }
  }

  /** The prun template's lines are single lines, the first unindented, the last ending in a quote. */
  lemma PrunTemplateShape()
    ensures var l := PrunTemplateLines();
      && |l| == 12 && |l[0]| > 0 && l[0][0] == 'r' && |l[11]| > 0 && l[11][|l[11]| - 1] == '"'
      && forall k :: 0 <= k < |l| ==> '\n' !in l[k]
  {
    PrunTemplateHeadLines();
    PrunTemplateTailLines();
  }

  lemma PrunTemplateHeadLines()
    ensures var l := PrunTemplateLines(); forall k :: 0 <= k < 6 ==> '\n' !in l[k]
  {
    TemplateFieldsSingleLine();
    PrunText0(); PrunText1(); PrunText2(); PrunText3(); PrunText4(); PrunText5(); PrunText6(); PrunText7();
    PrunText8(); PrunText9();
  }

  lemma PrunTemplateTailLines()
    ensures var l := PrunTemplateLines(); forall k :: 6 <= k < 12 ==> '\n' !in l[k]
  {
    TemplateFieldsSingleLine();
    PrunText0(); PrunText1(); PrunText7(); PrunText10(); PrunText11(); PrunText12(); PrunText13(); PrunText14();
    PrunText15(); PrunText16(); PrunText17(); PrunText18(); PrunText19();
  }

  lemma TemplateFieldsSingleLine()
    ensures '\n' !in PyFormat.FieldText("output_root") && '\n' !in PyFormat.FieldText("specdir")
    ensures '\n' !in PyFormat.FieldText("cmd") && '\n' !in PyFormat.EscapedText("bench")
    ensures '\n' !in "{{{{" && '\n' !in "}}}}"
  {
  }

  /** `_unindent` takes the prun template back to its lines. */
  lemma PrunUnindent()
    ensures Unindent.Unindent(PrunTemplate()) == Strs.Join("\n", PrunTemplateLines())
  {
    var l := PrunTemplateLines();
    PrunTemplateShape();
    Unindent.UnindentBlock(PrunIndent, l, []);
    assert Unindent.Indented(PrunIndent, l) + [] == Unindent.Indented(PrunIndent, l);
    assert l + Unindent.DropIndent(PrunIndent, []) == l;
  }

  /**
   * Under prun the first `format` of the unindented script puts in the
   * output root, the installation and the command, and leaves `{bench}`
   * and single braces around the command.
   */
  lemma PrunFirstFormat(w: string, c: string, r: string, cr: string, or: string, sd: string, cmd: string)
    ensures PyFormat.Format(Unindent.Unindent(PrunTemplate()), RunLocals(w, c, r, cr, or, sd)["cmd" := cmd])
            == Ok(Strs.Join("\n", PrunScriptLines(or, sd, cmd, PyFormat.FieldText("bench"), "{{", "}}")))
  {
    PrunUnindent();
    PrunLocalsFormat(w, c, r, cr, or, sd, cmd);
  }

  lemma PrunLocalsFormat(w: string, c: string, r: string, cr: string, or: string, sd: string, cmd: string)
    ensures PyFormat.Format(Strs.Join("\n", PrunTemplateLines()), RunLocals(w, c, r, cr, or, sd)["cmd" := cmd])
            == Ok(Strs.Join("\n", PrunScriptLines(or, sd, cmd, PyFormat.FieldText("bench"), "{{", "}}")))
  {
    var env := RunLocals(w, c, r, cr, or, sd)["cmd" := cmd];
    LocalsOutputRoot(env);
    LocalsSpecdir(env);
    LocalsCmd(w, c, r, cr, or, sd, cmd);
    PrunTemplateFormats(or, sd, cmd, env);
  }

  /** The template's lines format with the output root, the installation and the command. */
  lemma PrunTemplateFormats(or: string, sd: string, cmd: string, env: map<string, string>)
    requires PyFormat.Format(PyFormat.FieldText("output_root"), env) == Ok(or)
    requires PyFormat.Format(PyFormat.FieldText("specdir"), env) == Ok(sd)
    requires PyFormat.Format(PyFormat.FieldText("cmd"), env) == Ok(cmd)
    ensures PyFormat.Format(Strs.Join("\n", PrunTemplateLines()), env)
            == Ok(Strs.Join("\n", PrunScriptLines(or, sd, cmd, PyFormat.FieldText("bench"), "{{", "}}")))
  {
    BenchEscaped(env);
    PyFormat.FormatEscapes(env);
    PrunScriptFormats(PyFormat.FieldText("output_root"), or, PyFormat.FieldText("specdir"), sd, PyFormat.FieldText("cmd"), cmd,
                      PyFormat.EscapedText("bench"), PyFormat.FieldText("bench"), "{{{{", "{{", "}}}}", "}}", env);
  }

  /** The prun script formats as a whole when its parts do. */
  lemma PrunScriptFormats(outputRoot: string, outputRoot': string, specdir: string, specdir': string, command: string, command': string, bench: string, bench': string, open: string, open': string, close: string, close': string, env: map<string, string>)
    requires PyFormat.Format(outputRoot, env) == Ok(outputRoot') && PyFormat.Format(specdir, env) == Ok(specdir') && PyFormat.Format(command, env) == Ok(command')
    requires PyFormat.Format(bench, env) == Ok(bench') && PyFormat.Format(open, env) == Ok(open') && PyFormat.Format(close, env) == Ok(close')
    ensures PyFormat.Format(Strs.Join("\n", PrunScriptLines(outputRoot, specdir, command, bench, open, close)), env)
            == Ok(Strs.Join("\n", PrunScriptLines(outputRoot', specdir', command', bench', open', close')))
  {
    PrunLinesFormat(outputRoot, outputRoot', specdir, specdir', command, command', bench, bench', open, open', close, close', env);
    PyFormat.FormatJoin(PrunScriptLines(outputRoot, specdir, command, bench, open, close),
                        PrunScriptLines(outputRoot', specdir', command', bench', open', close'), env);
  }

  /**
   * The second `format` of the prun script puts each benchmark in, in the
   * script and in the command it wraps, and leaves single braces.
   */
  lemma PrunSecondFormat(or: string, sd: string, cmd: string, cmd': string, b: string)
    requires PyFormat.BraceFree(or) && PyFormat.BraceFree(sd)
    requires PyFormat.Format(cmd, map["bench" := b]) == Ok(cmd')
    ensures PyFormat.Format(Strs.Join("\n", PrunScriptLines(or, sd, cmd, PyFormat.FieldText("bench"), "{{", "}}")), map["bench" := b])
            == Ok(PrunCommand(or, sd, cmd', b))
  {
    var env := map["bench" := b];
    PyFormat.FormatPlain(or, env);
    PyFormat.FormatPlain(sd, env);
    BenchField(b);
    PyFormat.FormatEscapes(env);
    PrunScriptFormats(or, or, sd, sd, cmd, cmd', PyFormat.FieldText("bench"), b, "{{", "{", "}}", "}", env);
  }

  /** The wrapper has no braces: its words are all plain. */
  lemma WrapperBraceFree(t: Spec2006)
    ensures PyFormat.BraceFree(WrapperText(t))
  {
    var ws := WrapperWords(t.nothp, t.forceCpu);
    WrapperSafe(t.nothp, t.forceCpu);
    forall k | 0 <= k < |ws| ensures PyFormat.BraceFree(ws[k]) {
      SafeBraceFree(ws[k]);
    }
    PyFormat.BraceFreeJoin(" ", ws);
  }

  lemma SafeBraceFree(s: string)
    requires Shell.AllSafe(s)
    ensures PyFormat.BraceFree(s)
  {
  }

  /** The texts `run` puts into the command have no braces when the names it is given have none. */
  lemma LocalsBraceFree(instance: string, pool: PoolKind, user: string, specdir: string)
    requires PyFormat.BraceFree(instance) && PyFormat.BraceFree(specdir) && (pool == PrunPool ==> PyFormat.BraceFree(user))
    ensures PyFormat.BraceFree(ConfigName(instance)) && PyFormat.BraceFree(OutputRootOf(pool, user, specdir))
  {
    assert PyFormat.BraceFree("infra-");
    if pool == PrunPool {
      assert PyFormat.BraceFree("/local/") && PyFormat.BraceFree("/cpu2006-output-root");
    }
  }

  /**
   * What `run` runs without a pool when the names and arguments it puts
   * into its commands have no braces: one `bash -c` of the command for all
   * benchmarks at once.
   */
  lemma RunCommandsDirect(t: Spec2006, o: RunOptions, instance: string, user: string,
                          runWrapper: Option<string>, specdir: string, configRoot: string, benchmarks: seq<string>)
    requires PyFormat.BraceFree(RunArgsText(o, NoPool, user, runWrapper))
    requires PyFormat.BraceFree(instance) && PyFormat.BraceFree(specdir) && PyFormat.BraceFree(configRoot)
    ensures Run(t, o, instance, true, NoPool, user, runWrapper, specdir, configRoot, benchmarks)
            == Ok(Direct(BashCommand(specdir, configRoot,
                                     Command(o.measuremem, WrapperText(t), ConfigName(instance), RunArgsText(o, NoPool, user, runWrapper),
                                             configRoot, specdir, Shell.QJoin(benchmarks)))))
  {
    WrapperBraceFree(t);
    LocalsBraceFree(instance, NoPool, user, specdir);
    PlanDirect(o.measuremem, WrapperText(t), ConfigName(instance), RunArgsText(o, NoPool, user, runWrapper), specdir,
               instance, o.iterations, specdir, configRoot, benchmarks);
  }

  /**
   * What `run` runs with a pool when the names and arguments it puts into
   * its commands have no braces: one job per benchmark named
   * `run-<instance>-<bench>` on `iterations` nodes, running the command for
   * that benchmark, wrapped in the output-root script under prun.
   */
  lemma RunCommandsPooled(t: Spec2006, o: RunOptions, instance: string, pool: PoolKind, user: string,
                          runWrapper: Option<string>, specdir: string, configRoot: string, benchmarks: seq<string>)
    requires pool != NoPool
    requires PyFormat.BraceFree(RunArgsText(o, pool, user, runWrapper))
    requires PyFormat.BraceFree(instance) && PyFormat.BraceFree(specdir) && PyFormat.BraceFree(configRoot)
    requires pool == PrunPool ==> PyFormat.BraceFree(user)
    ensures var r := Run(t, o, instance, true, pool, user, runWrapper, specdir, configRoot, benchmarks);
      var m, w, c, ra := o.measuremem, WrapperText(t), ConfigName(instance), RunArgsText(o, pool, user, runWrapper);
      var or := OutputRootOf(pool, user, specdir);
      && r.Ok? && r.value.Jobs? && |r.value.jobs| == |benchmarks|
      && forall k :: 0 <= k < |benchmarks| ==>
           r.value.jobs[k]
           == BenchJob("run-" + instance + "-" + benchmarks[k],
                       BashCommand(specdir, configRoot,
                                   BenchScript(pool, Command(m, w, c, ra, configRoot, or, benchmarks[k]), or, specdir, benchmarks[k])),
                       o.iterations)
  {
    var m, w, c, ra := o.measuremem, WrapperText(t), ConfigName(instance), RunArgsText(o, pool, user, runWrapper);
    var or := OutputRootOf(pool, user, specdir);
    WrapperBraceFree(t);
    LocalsBraceFree(instance, pool, user, specdir);
    assert Run(t, o, instance, true, pool, user, runWrapper, specdir, configRoot, benchmarks)
           == RunPlanOf(m, w, c, ra, or, pool, instance, o.iterations, specdir, configRoot, benchmarks);
    PlanPooled(m, w, c, ra, or, pool, instance, o.iterations, specdir, configRoot, benchmarks);
  }

  /** Without a pool: one `bash -c` of the command for all benchmarks at once. */
  lemma PlanDirect(m: bool, w: string, c: string, ra: string, or: string, instance: string, iterations: int,
                  specdir: string, configRoot: string, benchmarks: seq<string>)
    requires PyFormat.BraceFree(w) && PyFormat.BraceFree(c) && PyFormat.BraceFree(ra)
    requires PyFormat.BraceFree(or) && PyFormat.BraceFree(configRoot)
    ensures RunPlanOf(m, w, c, ra, or, NoPool, instance, iterations, specdir, configRoot, benchmarks)
            == Ok(Direct(BashCommand(specdir, configRoot, Command(m, w, c, ra, configRoot, or, Shell.QJoin(benchmarks)))))
  {
    CommandFirstFormat(m, w, c, ra, configRoot, or, specdir);
    CommandSecondFormat(m, w, c, ra, configRoot, or, Shell.QJoin(benchmarks));
  }

  /** With a pool: one job per benchmark, running the benchmark's script. */
  lemma PlanPooled(m: bool, w: string, c: string, ra: string, or: string, pool: PoolKind, instance: string, iterations: int,
                  specdir: string, configRoot: string, benchmarks: seq<string>)
    requires pool != NoPool
    requires PyFormat.BraceFree(w) && PyFormat.BraceFree(c) && PyFormat.BraceFree(ra)
    requires PyFormat.BraceFree(or) && PyFormat.BraceFree(specdir) && PyFormat.BraceFree(configRoot)
    ensures var r := RunPlanOf(m, w, c, ra, or, pool, instance, iterations, specdir, configRoot, benchmarks);
      && r.Ok? && r.value.Jobs? && |r.value.jobs| == |benchmarks|
      && forall k :: 0 <= k < |benchmarks| ==>
           r.value.jobs[k]
           == BenchJob("run-" + instance + "-" + benchmarks[k],
                       BashCommand(specdir, configRoot,
                                   BenchScript(pool, Command(m, w, c, ra, configRoot, or, benchmarks[k]), or, specdir, benchmarks[k])),
                       iterations)
  {
    CommandFirstFormat(m, w, c, ra, configRoot, or, specdir);
    var cmd := Command(m, w, c, ra, configRoot, or, PyFormat.FieldText("bench"));
    if pool == PrunPool {
      PrunFirstFormat(w, c, ra, configRoot, or, specdir, cmd);
    }
    PoolScriptsFormat(pool, m, w, c, ra, configRoot, or, specdir, benchmarks);
  }

  /** Each benchmark's script is the benchmark's command, wrapped under prun. */
  lemma PoolScriptsFormat(pool: PoolKind, m: bool, w: string, c: string, ra: string, cr: string, or: string, sd: string,
                          benchmarks: seq<string>)
    requires PyFormat.BraceFree(w) && PyFormat.BraceFree(c) && PyFormat.BraceFree(ra)
    requires PyFormat.BraceFree(cr) && PyFormat.BraceFree(or) && PyFormat.BraceFree(sd)
    ensures var cmd := Command(m, w, c, ra, cr, or, PyFormat.FieldText("bench"));
      var script := if pool == PrunPool then Strs.Join("\n", PrunScriptLines(or, sd, cmd, PyFormat.FieldText("bench"), "{{", "}}")) else cmd;
      forall k :: 0 <= k < |benchmarks| ==>
        PyFormat.Format(script, map["bench" := benchmarks[k]])
        == Ok(BenchScript(pool, Command(m, w, c, ra, cr, or, benchmarks[k]), or, sd, benchmarks[k]))
  {
    var cmd := Command(m, w, c, ra, cr, or, PyFormat.FieldText("bench"));
    var script := if pool == PrunPool then Strs.Join("\n", PrunScriptLines(or, sd, cmd, PyFormat.FieldText("bench"), "{{", "}}")) else cmd;
    forall k | 0 <= k < |benchmarks|
      ensures PyFormat.Format(script, map["bench" := benchmarks[k]])
              == Ok(BenchScript(pool, Command(m, w, c, ra, cr, or, benchmarks[k]), or, sd, benchmarks[k]))
    {
      CommandSecondFormat(m, w, c, ra, cr, or, benchmarks[k]);
      if pool == PrunPool {
        PrunSecondFormat(or, sd, cmd, Command(m, w, c, ra, cr, or, benchmarks[k]), benchmarks[k]);
      }
    }
  }

  /**
   * The run arguments sit in the command between a brace-free front and a
   * back that starts with a space.
   */
  lemma CommandAround(m: bool, w: string, c: string, ra: string, cr: string, or: string, b: string)
    returns (front: string, back: string)
    requires PyFormat.BraceFree(w) && PyFormat.BraceFree(c)
    ensures Command(m, w, c, ra, cr, or, b) == front + ra + back
    ensures PyFormat.BraceFree(front) && |back| > 0 && back[0] == ' '
  {
    CommandTexts();
    if m {
      front, back := "runspec --config=" + c + " --action=setup ", " %s\n" + w + " " + cr + "/measuremem.py " + or + " " + c + " " + b;
    } else {
      front, back := w + " " + "runspec" + " " + "--config=" + c + " " + "--nobuild" + " ", " " + b;
    }
  }

  /**
   * A lone `}` in the run arguments ends `run` at the `format` that puts
   * the benchmarks in: once for all benchmarks without a pool, and on the
   * first benchmark with one, before any job is submitted.
   */
  lemma PlanLoneClose(m: bool, w: string, c: string, ra: string, or: string, pool: PoolKind, instance: string,
                      iterations: int, specdir: string, configRoot: string, benchmarks: seq<string>, a: string, z: string)
    requires PyFormat.BraceFree(w) && PyFormat.BraceFree(c) && PyFormat.BraceFree(or) && PyFormat.BraceFree(specdir)
    requires ra == a + "}" + z && PyFormat.BraceFree(a) && (|z| == 0 || z[0] != '}')
    requires pool != NoPool ==> |benchmarks| > 0
    ensures RunPlanOf(m, w, c, ra, or, pool, instance, iterations, specdir, configRoot, benchmarks) == Err(PyFormat.LoneClose)
  {
    CommandFirstFormat(m, w, c, ra, configRoot, or, specdir);
    var cmd := Command(m, w, c, ra, configRoot, or, PyFormat.FieldText("bench"));
    var front, back := CommandAround(m, w, c, ra, configRoot, or, PyFormat.FieldText("bench"));
    var b := if pool == NoPool then Shell.QJoin(benchmarks) else benchmarks[0];
    if pool == PrunPool {
      PrunFirstFormat(w, c, ra, configRoot, or, specdir, cmd);
      PrunLoneClose(or, specdir, cmd, front, a, z, back, b);
    } else {
      assert "" + (front + (a + "}" + z) + back) + "" == cmd;
      PyFormat.FormatLoneCloseWithin("", "", front, a, z, back, "", map["bench" := b]);
    }
  }

  /** Lines 0 to 8 of the prun script format whatever the command. */
  lemma PrunHeadNine(or: string, sd: string, b: string)
    requires PyFormat.BraceFree(or) && PyFormat.BraceFree(sd)
    ensures var l, l' := PrunScriptLines(or, sd, "", PyFormat.FieldText("bench"), "{{", "}}"), PrunScriptLines(or, sd, "", b, "{", "}");
      forall k :: 0 <= k < 9 ==> PyFormat.Format(l[k], map["bench" := b]) == Ok(l'[k])
  {
    var env := map["bench" := b];
    PyFormat.FormatPlain(or, env);
    PyFormat.FormatPlain(sd, env);
    PyFormat.FormatPlain("", env);
    BenchField(b);
    PyFormat.FormatEscapes(env);
    var F := PyFormat.FieldText("bench");
    PrunRootFormats(or, or, sd, sd, "", "", F, b, "{{", "{", "}}", "}", env);
    PrunCopyFormats(or, or, sd, sd, "", "", F, b, "{{", "{", "}}", "}", env);
    PrunTailFormats(or, or, sd, sd, "", "", F, b, "{{", "{", "}}", "}", env);
  }

  /** The prun script splits at the command: nine lines that do not depend on it, then line 9. */
  lemma PrunSplitAtCommand(or: string, sd: string, cmd: string) returns (rest: string)
    ensures var F := PyFormat.FieldText("bench");
      Strs.Join("\n", PrunScriptLines(or, sd, cmd, F, "{{", "}}"))
      == Strs.Join("\n", PrunScriptLines(or, sd, "", F, "{{", "}}")[..9]) + "\n" + "{{" + " " + cmd + "; " + "}}" + " | \\" + "\n" + rest
  {
    var F := PyFormat.FieldText("bench");
    var l := PrunScriptLines(or, sd, cmd, F, "{{", "}}");
    assert l[..9] == PrunScriptLines(or, sd, "", F, "{{", "}}")[..9];
    Strs.JoinAppend("\n", l[..9], l[9..]);
    assert l[..9] + l[9..] == l;
    rest := Strs.Join("\n", l[10..]);
    assert l[9..][1..] == l[10..];
  }

  /** Whatever formats before it, a lone `}` in the command on the `time` line is an error. */
  lemma PrunCommandLineLoneClose(head: string, v: string, front: string, a: string, z: string, back: string,
                                 rest: string, env: map<string, string>)
    requires PyFormat.Format(head, env) == Ok(v)
    requires PyFormat.BraceFree(front) && PyFormat.BraceFree(a)
    requires (|z| == 0 || z[0] != '}') && |back| > 0 && back[0] != '}'
    ensures PyFormat.Format(head + "\n" + "{{" + " " + (front + (a + "}" + z) + back) + "; " + "}}" + " | \\" + "\n" + rest, env)
            == Err(PyFormat.LoneClose)
  {
    PrunTexts();
    PyFormat.FormatThenPlain(head, v, "\n", env);
    PyFormat.FormatEscapes(env);
    PyFormat.FormatThen(head + "\n", v + "\n", "{{", "{", env);
    PyFormat.FormatThenPlain(head + "\n" + "{{", v + "\n" + "{", " ", env);
    var pre := head + "\n" + "{{" + " ";
    var tail := "; " + "}}" + " | \\" + "\n" + rest;
    PyFormat.FormatLoneCloseWithin(pre, v + "\n" + "{" + " ", front, a, z, back, tail, env);
    assert pre + (front + (a + "}" + z) + back) + tail
        == head + "\n" + "{{" + " " + (front + (a + "}" + z) + back) + "; " + "}}" + " | \\" + "\n" + rest;
  }

  /** A lone `}` in the command makes the second `format` of the prun script fail. */
  lemma PrunLoneClose(or: string, sd: string, cmd: string, front: string, a: string, z: string, back: string, b: string)
    requires PyFormat.BraceFree(or) && PyFormat.BraceFree(sd)
    requires cmd == front + (a + "}" + z) + back && PyFormat.BraceFree(front) && PyFormat.BraceFree(a)
    requires (|z| == 0 || z[0] != '}') && |back| > 0 && back[0] != '}'
    ensures PyFormat.Format(Strs.Join("\n", PrunScriptLines(or, sd, cmd, PyFormat.FieldText("bench"), "{{", "}}")), map["bench" := b])
            == Err(PyFormat.LoneClose)
  {
    var env := map["bench" := b];
    var F := PyFormat.FieldText("bench");
    var l0, o0 := PrunScriptLines(or, sd, "", F, "{{", "}}"), PrunScriptLines(or, sd, "", b, "{", "}");
    PrunHeadNine(or, sd, b);
    PyFormat.FormatJoin(l0[..9], o0[..9], env);
    var rest := PrunSplitAtCommand(or, sd, cmd);
    PrunCommandLineLoneClose(Strs.Join("\n", l0[..9]), Strs.Join("\n", o0[..9]), front, a, z, back, rest, env);
  }

  /**
   * A lone `}` in the run arguments (from `--runspec-args` or the run
   * wrapper) makes `run` raise `ValueError` once the benchmarks are filled
   * in, with or without a pool, as long as there is a benchmark to fill in.
   */
  lemma RunLoneClose(t: Spec2006, o: RunOptions, instance: string, pool: PoolKind, user: string,
                     runWrapper: Option<string>, specdir: string, configRoot: string, benchmarks: seq<string>, a: string, z: string)
    requires RunArgsText(o, pool, user, runWrapper) == a + "}" + z && PyFormat.BraceFree(a) && (|z| == 0 || z[0] != '}')
    requires PyFormat.BraceFree(instance) && PyFormat.BraceFree(specdir) && (pool == PrunPool ==> PyFormat.BraceFree(user))
    requires pool != NoPool ==> |benchmarks| > 0
    ensures Run(t, o, instance, true, pool, user, runWrapper, specdir, configRoot, benchmarks) == Err(PyFormat.LoneClose)
  {
    WrapperBraceFree(t);
    LocalsBraceFree(instance, pool, user, specdir);
    PlanLoneClose(o.measuremem, WrapperText(t), ConfigName(instance), RunArgsText(o, pool, user, runWrapper),
                  OutputRootOf(pool, user, specdir), pool, instance, o.iterations, specdir, configRoot, benchmarks, a, z);
  }

  /** `run` looks for the configuration file where `_make_spec_config` writes it. */
  lemma ConfigPathAgrees(t: Spec2006, targetsRoot: string, instance: string)
    ensures InstallPath(t, targetsRoot, ["config", ConfigName(instance) + ".cfg"])
            == InstallPath(t, targetsRoot, ["config/" + ConfigName(instance) + ".cfg"])
  {
    var file := ConfigName(instance) + ".cfg";
    assert file[0] == 'i';
    assert "config/" + ConfigName(instance) + ".cfg" == "config/" + file;
    ConfigFile(t, targetsRoot, file);
  }

  lemma ConfigFile(t: Spec2006, targetsRoot: string, file: string)
    requires |file| > 0 && file[0] != '/'
    ensures InstallPath(t, targetsRoot, ["config", file]) == InstallPath(t, targetsRoot, ["config/" + file])
  {
    InstallPathUnder(t, targetsRoot, ["config", file]);
    InstallPathUnder(t, targetsRoot, ["config/" + file]);
    ConfigDir(InstallPath(t, targetsRoot, []), file);
  }

  lemma ConfigDir(root: string, file: string)
    requires |file| > 0 && file[0] != '/'
    ensures Paths.Join(root, ["config", file]) == Paths.Join(root, ["config/" + file])
  {
    assert "config" + "/" + file == "config/" + file;
    Paths.JoinNested(root, "config", file);
  }

  // ---------------------------------------------------------------------
  // _make_spec_config

  /** The `build_post_bench` line that calls the post-build hooks back through the setup script. */
  function BuildPostBench(setup: string, instance: string, config: string): (r: string)
    ensures Strs.StartsWith(r, "build_post_bench = ")
  {
    "build_post_bench = " + setup + " exec-hook post-build " + instance
    + " `echo ${commandexe} | sed \"s/_\\[a-z0-9\\]\\\\+\\\\." + config + "\\\\\\$//\"`"
  }

  /**
   * No line of `lines` starts with the two characters `c0` `c1`: enough to
   * tell the generated lines apart from a `build_post_bench` or
   * `monitor_wrapper` line.
   */
  predicate Avoids(lines: seq<string>, c0: char, c1: char)
  {
    forall k :: 0 <= k < |lines| ==> |lines[k]| < 2 || lines[k][0] != c0 || lines[k][1] != c1
  }

  lemma AvoidsAppend(a: seq<string>, b: seq<string>, c0: char, c1: char)
    requires Avoids(a, c0, c1) && Avoids(b, c0, c1)
    ensures Avoids(a + b, c0, c1)
  {
    forall k | 0 <= k < |a + b| ensures |(a + b)[k]| < 2 || (a + b)[k][0] != c0 || (a + b)[k][1] != c1 {
      if k < |a| { assert (a + b)[k] == a[k]; } else { assert (a + b)[k] == b[k - |a|]; }
    }
  }

  /** Lines that avoid the first two characters of `p` do not start with `p`. */
  lemma AvoidsPrefix(lines: seq<string>, p: string)
    requires |p| >= 2 && Avoids(lines, p[0], p[1])
    ensures forall k :: 0 <= k < |lines| ==> !Strs.StartsWith(lines[k], p)
  {
    forall k | 0 <= k < |lines| ensures !Strs.StartsWith(lines[k], p) {
      if |p| <= |lines[k]| {
        assert lines[k][..|p|][0] == lines[k][0] && lines[k][..|p|][1] == lines[k][1];
      }
    }
  }

  datatype Toolchain = Toolchain(cc: string, cxx: string, cflags: seq<string>, cxxflags: seq<string>,
                                 ldflags: seq<string>, fortran: string, jobs: int)

  // `_make_spec_config` prints its lines in the groups below.

  method SettingsLines(config: string, jobs: int) returns (r: seq<string>)
    ensures |r| == 10 && r[1] == "ext         = " + config && Avoids(r, 'b', 'u')
  {
    r := [ "tune        = base",
           "ext         = " + config,
           "reportable  = no",
           "teeout      = yes",
           "teerunout   = no",
           "makeflags   = -j" + Strs.IntToString(jobs),
           "strict_rundir_verify = no",
           "%ifdef %{output_root}",
           "  output_root = %{output_root}",
           "%endif" ];
  }

  method CompilerLines(tc: Toolchain) returns (r: seq<string>)
    ensures Avoids(r, 'b', 'u')
  {
    r := [ "",
           "default=default=default=default:",
           "CC          = " + tc.cc + " " + Shell.QJoin(tc.cflags),
           "CXX         = " + tc.cxx + " " + Shell.QJoin(tc.cxxflags),
           "FC          = " + tc.fortran,
           "CLD         = " + tc.cc + " " + Shell.QJoin(tc.ldflags),
           "CXXLD       = " + tc.cxx + " " + Shell.QJoin(tc.ldflags),
           "COPTIMIZE   = -std=gnu89",
           "CXXOPTIMIZE = -std=c++98" ];
  }

  method RunWrapperLines() returns (r: seq<string>)
    ensures Avoids(r, 'b', 'u')
  {
    r := [ "%ifdef %{run_wrapper}",
           "  monitor_wrapper = %{run_wrapper} $command",
           "%endif" ];
  }

  /** The settings for 64-bit Linux. */
  method PortabilityLines() returns (r: seq<string>)
    ensures Avoids(r, 'b', 'u') && Avoids(r, 'm', 'o')
  {
    r := [ "",
           "default=base=default=default:",
           "PORTABILITY    = -DSPEC_CPU_LP64",
           "",
           "400.perlbench=default=default=default:",
           "CPORTABILITY   = -DSPEC_CPU_LINUX_X64",
           "",
           "462.libquantum=default=default=default:",
           "CPORTABILITY   = -DSPEC_CPU_LINUX",
           "",
           "483.xalancbmk=default=default=default:",
           "CXXPORTABILITY = -DSPEC_CPU_LINUX",
           "",
           "481.wrf=default=default=default:",
           "wrf_data_header_size = 8",
           "CPORTABILITY   = -DSPEC_CPU_CASE_FLAG" + " -DSPEC_CPU_LINUX" ];
  }

  /**
   * `_make_spec_config(ctx, instance)`: the lines it prints to
   * `config/<name>.cfg`, in order, and the configuration's name.  The
   * configuration is named after the instance, and it calls the post-build
   * hooks back exactly when there are any.
   */
  method MakeSpecConfig(instance: string, tc: Toolchain, hasPostBuildHooks: bool, setup: string)
    returns (config: string, lines: seq<string>)
    ensures config == ConfigName(instance)
    ensures |lines| > 1 && lines[1] == "ext         = " + config
    ensures hasPostBuildHooks ==> BuildPostBench(setup, instance, config) in lines
    ensures !hasPostBuildHooks ==> forall k :: 0 <= k < |lines| ==> !Strs.StartsWith(lines[k], "build_post_bench")
  {
    config := ConfigName(instance);
    var settings := SettingsLines(config, tc.jobs);
    var compilers := CompilerLines(tc);
    lines := settings + compilers;
    AvoidsAppend(settings, compilers, 'b', 'u');
    if hasPostBuildHooks {
      lines := lines + ["", BuildPostBench(setup, instance, config), ""];
    }
    var wrapper := RunWrapperLines();
    var portability := PortabilityLines();
    AvoidsAppend(wrapper, portability, 'b', 'u');
    portability := wrapper + portability;
    if !hasPostBuildHooks {
      AvoidsAppend(lines, portability, 'b', 'u');
      AvoidsPrefix(lines + portability, "build_post_bench");
    } else {
      assert (lines + portability)[|settings| + |compilers| + 1] == BuildPostBench(setup, instance, config);
    }
    lines := lines + portability;
  }
}
