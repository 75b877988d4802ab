# instrumentation-infra, modelled in Dafny

instrumentation-infra is a framework for building and running benchmarks, such as SPEC CPU2006, under instrumented LLVM toolchains. A setup script resolves the packages that the targets and the instances (build configurations) depend on. It builds each package once, configures the context (compiler flags, run environment) per instance, and builds and runs every target under every instance. It can do this sequentially or through job pools, which run local processes or cluster jobs via `prun`. Run results are written as metadata lines into the benchmark logs and parsed back into reports. Beside the Python driver, the repository ships LLVM 4.0 pass helpers in C++:
- an analysis that records every allocation site and computes its byte size;
- a classification of memory reads and writes;
- the naming rules for helper functions that instrumentation must skip;
- a module-pass driver that runs a function pass over every instrumentable function.

This project models the sequential logic of those parts and proves what they promise. It covers:
- dependency resolution and the build/run driver;
- the context and registry utilities;
- shell quoting;
- the SPEC CPU2006 targets and their benchmark-set tables;
- the job pools' bookkeeping;
- the report-metadata writers and parsers;
- the LLVM pass helpers;
- the small flag and version helpers.

Each source file with state that changes in place becomes a Dafny `class`, and its methods are proved against specification functions. This applies to `Index`, `Namespace`, the pools, the setup driver, the allocation pass and its `ListIterator`, and the IR module of the no-instrument helpers. Pure code becomes datatypes, functions and lemmas.

External effects are parameters or recorded events. These include subprocesses, the file system, the clock, the poller and LLVM's type layout. Python exceptions, `sys.exit` and C++ assertion failures are `Err` values of `Wrappers.Result`.

Files, one module each: wrappers, strs, dicts, paths (helpers); deps, setup (infra/setup.py and setup.py); namespace, index, shell, util, context, package_target (infra/util.py, infra/package.py, infra/target.py); spec2006, spec2006_legacy, parse_bsets, unindent (the SPEC targets); pools, prun_legacy (infra/parallel.py, prun.py); report, report_runner (the report metadata); llvm_ir, allocs, allocs_pass, mem_access, no_instrument, no_instrument_legacy, custom_pass (the LLVM passes); lto, llvm_passes, cmake, stats.

## Model

| member | source | states |
|---|---|---|
| Deps.DirectDeps | infra/setup.py:415-417 | the objects `_get_deps` starts a walk from are exactly the direct dependencies of the requested objects |
| Deps.WalkOkIndependent | infra/setup.py:400-412 | whether `add_dep` succeeds does not depend on the list collected so far |
| Deps.WalkAllOkIndependent | infra/setup.py:405-406 | whether the nested-dependency loop succeeds does not depend on the list collected so far |
| Deps.WalkAllOkEach | infra/setup.py:405-406 | a successful nested loop means every nested `add_dep` succeeds |
| Deps.WalkAllErrSome | infra/setup.py:405-406 | a failing nested loop has a nested `add_dep` that fails |
| Deps.WalkOkSimple | infra/setup.py:400-412 | when `add_dep(dep, visited)` succeeds, every dependency chain from `dep` repeats no object and avoids `visited` |
| Deps.WalkErrPath | infra/setup.py:400-406 | when `add_dep(dep, visited)` fails there is a dependency chain from `dep` that ends in `visited` or repeats an object |
| Deps.GetDepsFailsIffCycle | infra/setup.py:397-418 | `_get_deps` raises exactly when some dependency chain of the requested objects runs into a cycle |
| Deps.WalkErrIsRecursive | infra/setup.py:401-402 | the error `add_dep` raises is the 'recursive dependency' FatalError |
| Deps.WalkAllErrIsRecursive | infra/setup.py:405-406 | the error of the nested loop is the 'recursive dependency' FatalError |
| Deps.DiamondIsAccepted | infra/setup.py:400-418 | a diamond (a needs b and c, both need d) is not a cycle, because `visited` is copied per branch; the result is `[d, b, c]` |
| Deps.WalkOkShape | infra/setup.py:400-412 | a successful `add_dep` extends the list, keeps it free of duplicates and post-ordered, and lists `dep` |
| Deps.WalkAllOkShape | infra/setup.py:405-406 | a successful nested loop extends the list, keeps it free of duplicates and post-ordered, and lists every nested dependency |
| Deps.WalkOkSound | infra/setup.py:400-412 | every object a successful `add_dep` adds is reachable from `dep` by a dependency chain |
| Deps.WalkAllOkSound | infra/setup.py:405-406 | every object the nested loop adds is reachable from one of the nested dependencies |
| Deps.GetDepsOk | infra/setup.py:397-418 | a successful `_get_deps` has no duplicates, lists every object after its own dependencies, and holds exactly the objects reachable from the requested ones |
| Deps.GetDepsSubsetErr | infra/setup.py:397-418 | a `_get_deps` that fails for some of the objects fails for all of them |
| Deps.DepWalker.constructor | infra/setup.py:398 | the `deps` list starts empty |
| Deps.DepWalker.AddDep | infra/setup.py:400-412 | `add_dep` appending to the enclosing list leaves exactly the list of the value model, or returns its error |
| Deps.AddEach | infra/setup.py:414-417 | calling `add_dep(dep, set())` on each dependency in turn, stopping at the first error, agrees with the value model of the whole loop |
| Deps.GetDepsOf | infra/setup.py:397-418 | the imperative `_get_deps` returns exactly what the value model returns |
| Setup.DefaultJobs | infra/setup.py:125-126 | the default job count is `min(cpu_count(), 16)`: never above either and equal to one of them |
| Setup.LegacyDefaultJobs | setup.py:34 | the legacy default job count is `max(cpu_count(), 16)`: never below 16 |
| Setup.ParallelmaxDefault | infra/setup.py:283-287 | a given `--parallelmax` is kept; otherwise it becomes the default job count for `proc`, 64 for `prun`, and stays `None` without a parallel mode |
| Setup.MakePool | infra/setup.py:476-489 | `_make_pool` raises exactly on `--prun-opts` with `proc`, or on a truthy `--parallelmax` or any `--prun-opts` without a parallel mode; otherwise it returns no pool without a parallel mode, a process pool for `proc` and a prun pool with the options for `prun` |
| Setup.DefaultsAccepted | infra/setup.py:283-287 | the filled-in defaults are never rejected by `_make_pool`, and a process pool gets the default job count |
| Setup.CheckBuildRequest | infra/setup.py:497-501 | with `--deps-only` the build needs a target, an instance or a package; otherwise a target and an instance, or a package; a refusal is a FatalError |
| Setup.Separate | infra/setup.py:503-510 | `separate_packages` holds exactly the requested packages that are not among the dependencies |
| Setup.Partition | infra/setup.py:503-510 | the partition loop yields `force_deps` = the requested packages among the dependencies, and `separate_packages` as above in request order |
| Setup.PartitionExact | infra/setup.py:503-510 | every requested package is in exactly one of `force_deps` and `separate_packages` |
| Setup.PairsCount | infra/setup.py:566-590 | the instance and target loops visit \|instances\| × \|targets\| pairs |
| Setup.Setup.constructor | infra/setup.py:101-104 | the target and instance registries start empty |
| Setup.Setup.AddTarget | infra/setup.py:373-382 | `add_target` stores the target under its name, overwriting an existing entry in place; a new name goes last |
| Setup.Setup.AddInstance | infra/setup.py:356-366 | `add_instance` stores the instance under its name with the same overwrite rule |
| Setup.Setup.Registered | infra/setup.py:390-391 | the objects `_get_package` searches from are every registered target and instance |
| Setup.Setup.ResolveTargets | infra/setup.py:384-387 | looking up target names succeeds exactly when every name is registered, giving the registered targets in order; otherwise the 'no target called' error for the first name that is missing |
| Setup.Setup.ResolveInstances | infra/setup.py:368-371 | the same for instance names and the 'no instance called' error for the first missing name |
| Setup.Setup.ResolvePackages | infra/setup.py:389-395 | each package name resolves to the first package with that ident among the dependencies of everything registered; otherwise the lookup fails with the 'no package called' error of the first missing name, and an error of the dependency walk is passed on |
| Setup.FindPackage | infra/setup.py:392-395 | the package found is the first dependency whose ident is the name, and there is none exactly when no dependency has that ident |
| Setup.Setup.BuildPackageOnce | infra/setup.py:541-545 | `build_package_once` builds and installs a package only when it is not in `built_packages`, then adds it |
| Setup.Setup.BuildDepsOnce | infra/setup.py:547-552 | `build_deps_once` builds each dependency at most once, forced iff `--force-rebuild-deps` or it is in `force_deps`, and installs every dependency into the context in order |
| Setup.Setup.Plan | infra/setup.py:491-501 | the lookups, the pool and the request checks at the top of `_run_build` fail exactly when one of them raises, in that order |
| Setup.Setup.RunBuild | infra/setup.py:491-593 | `_run_build` succeeds exactly when every name resolves, the pool options and the request are accepted and the requested objects have no dependency cycle; it builds each package at most once, never runs a target, restores the context, and builds every target for every instance, instance-major, in the context of the instance's configuration and the instance's and target's dependencies; with `--deps-only` or `--dry-run` no target is built, and with `--relink` each target build links and runs the post-build hooks without `target.build`; a refused request does nothing |
| Setup.Setup.BuildPlanned | infra/setup.py:503-590 | once the request is accepted, the build succeeds exactly when the dependency walk of the requested objects does: packages built at most once, target builds exactly the instance-major pairs (none with `--deps-only` or `--dry-run`), each in its promised context and without `target.build` under `--relink`, and the context restored |
| Setup.Setup.Prepare | infra/setup.py:512-537 | cleaning and fetching build nothing; they succeed whenever the dependency walk does, and then `cached_deps` maps each target, instance and separate package to its dependencies |
| Setup.Setup.BuildEach | infra/setup.py:554-564 | the separate-package loop and the deps-only target loop only build packages, at most once each, and restore the context |
| Setup.Setup.BuildTargetsOf | infra/setup.py:574-588 | the target loop of one instance builds each target once for that instance (none with `--deps-only` or `--dry-run`), in target order, in the instance's context plus the target's dependencies, and restores the context after each target |
| Setup.Setup.BuildTargetFor | infra/setup.py:577-587 | one pass of the target loop builds the target's dependencies at most once each, then, unless `--deps-only` or `--dry-run`, records one build of the target for the instance in its promised context, running `target.build` exactly when `--relink` is off, and restores the instance's context |
| Setup.Setup.BuildInstances | infra/setup.py:566-590 | the instance loop builds the instance-major pairs (none with `--deps-only` or `--dry-run`), each in its promised context, and restores the context after each instance |
| Setup.Setup.RunClean | setup.py:479-489 | `run_clean` fails unless every name resolves and at least one package or target is named ('no packages or targets specified'); it cleans the packages, then the targets |
| Setup.CleanAll | setup.py:486-489 | the clean loops visit the packages, then the targets, in order |
| Setup.Setup.RunPair | setup.py:512-529 | one pair of `do_run` runs the target in the context of its dependencies and the instance's run preparation, and restores the context |
| Setup.Setup.RunRow | setup.py:511-529 | the inner loop of `do_run` succeeds exactly when every target's dependencies resolve, and then runs every target for one instance in target order, each in its own context |
| Setup.Setup.RunPairs | setup.py:510-529 | the loops of `do_run` succeed exactly when there is no instance or every target's dependencies resolve, and then run every (instance, target) pair, instance-major |
| Setup.Setup.DoRun | setup.py:494-529 | `do_run` succeeds exactly when the names resolve, the build asked for succeeds and every target can run; it builds first when asked (with `ctx.jobs` set to the CPU count), then runs every pair instance-major, each in its own context; only the job count survives in the context |
| Setup.Setup.BuildForRun | setup.py:498-508 | the build `do_run` asks for first sets `ctx.jobs` to the CPU count and otherwise keeps the context, succeeds exactly when that build succeeds, and runs no target |
| Setup.Setup.RunBuildArgs | setup.py:498-506 | `do_run --build` asks `_run_build` for the given targets and instances, no packages, and no `--deps-only`, `--clean`, `--force-rebuild-deps`, `--relink` or `--dry-run` |
| Namespaces.CopyValue | infra/util.py:40-41 | a namespace, list or dict value is replaced by a fresh copy with the same contents; any other value is shared |
| Namespaces.CopyValues | infra/util.py:39-43 | the copy loop keeps every key and copies every value as above, into fresh objects only |
| Namespaces.Strings | infra/util.py:53-54 | `':'.join` accepts a sequence exactly when every item is a string, and raises TypeError otherwise |
| Namespaces.JoinEntries | infra/util.py:52-58 | `join_paths` on a nested namespace keeps its keys in order and makes every value a string |
| Namespaces.Namespace.constructor | infra/util.py:22 | a new namespace is empty |
| Namespaces.Namespace.GetItem | infra/util.py:28-29 | reading a key gives its value, or KeyError when it is missing |
| Namespaces.Namespace.GetAttr | infra/util.py:22-59 | `__getattr__` is asked only after normal lookup fails: the name of a method of `dict` or of `Namespace` (`copy`, `items`, `join_paths`, ...) gives that method, and any other name is the lookup `self[key]`, with its KeyError |
| Namespaces.Namespace.SetItem | infra/util.py:31-32 | writing a key stores the value; a new key goes last and an existing one keeps its place |
| Namespaces.Namespace.SetAttr | infra/util.py:31-32 | writing an attribute is writing the item of that name |
| Namespaces.Namespace.Copy | infra/util.py:34-44 | `copy` returns a fresh namespace with the same keys in the same order and every value copied one level, in fresh objects |
| Namespaces.Namespace.JoinPaths | infra/util.py:46-59 | `join_paths` returns a fresh namespace with the same keys, each value the joined string, and leaves the receiver alone; it fails with the error of the first value that cannot be joined |
| Namespaces.JoinValues | infra/util.py:51-58 | the loop of `join_paths` succeeds exactly when every value joins, and then maps every key to its joined string |
| Namespaces.JoinedPathsSplit | infra/util.py:53-54 | a tuple of directory names without ':' joins into a string that splits back into those names |
| Namespaces.JoinNonString | infra/util.py:53-54 | a list or tuple holding a non-string raises TypeError |
| Namespaces.JoinScalar | infra/util.py:58 | a string is kept and every other plain value is printed with `str()` |
| Namespaces.JoinNested | infra/util.py:55-56 | a nested namespace becomes the printed form of its own `join_paths`, with its keys kept and string values |
| Indexes.Index.constructor | infra/util.py:63-65 | a new index is empty |
| Indexes.Index.Get | infra/util.py:67-71 | lookup succeeds exactly when the key is present with a non-`None` value, and otherwise raises 'no <thing> called <key>' |
| Indexes.Index.Set | infra/util.py:73-76 | setting an existing key raises 'already exists' and changes nothing; a new key is stored and goes last |
| Indexes.Index.All | infra/util.py:90-91 | `all` gives the values in insertion order |
| Indexes.Index.Select | infra/util.py:93-94 | `select` gives the values of the keys in request order, or the error of the first key that fails |
| Indexes.SetThenGet | infra/util.py:67-76 | a value stored under a new key is what a lookup then returns |
| Indexes.LazyIndex.constructor | infra/util.py:98-100 | a new lazy index is empty and keeps its `find_value` |
| Indexes.LazyIndex.Get | infra/util.py:102-108 | a lookup calls `find_value` exactly when the key is missing or `None`, stores its result, and succeeds exactly when the stored value is not `None` |
| Indexes.LazyIndex.Set | infra/util.py:73-76 | setting keeps the `Index` rule |
| Indexes.LookupTwice | infra/util.py:102-108 | after a successful lookup, a second lookup of the same key does not call `find_value` and gives the same value |
| PackageTarget.EqualityAndHash | infra/package.py:12-17 | equal packages have equal hash keys (and likewise targets, infra/target.py:57-61), and with an exact class test equality is equality of identifier or name |
| PackageTarget.HashKeysDiffer | infra/target.py:60-61 | the hash key of a package (`'package-'` prefix) never equals that of a target (`'target-'` prefix) |
| PackageTarget.TreePathExtends | infra/package.py:81-84 | a subpath of a package's directory is that directory joined with the subpath (the same holds for `Target.path`, infra/target.py:101-111) |
| PackageTarget.TreePathOfRoot | infra/package.py:81-84 | under a root without trailing slash and a relative identifier, the package directory is `root/ident` |
| PackageTarget.IsClean | infra/package.py:66-69 | `is_clean` holds exactly when the directory `pkg-config` gets as `--root` does not exist (the same test as `Target.is_clean`, infra/target.py:162-167) |
| PackageTarget.CleanHasNothingBelow | infra/target.py:162-167 | on a file system where each existing path's parent exists, a clean package or target has no existing relative sub-path |
| PackageTarget.PkgConfigOptions | infra/package.py:104-112 | `pkg_config_options` yields `--root` with the package directory and then `--prefix` with its `install` subdirectory |
| PackageTarget.InstallEnv | infra/package.py:86-97 | `install_env` leaves `ctx.runenv` equal to the specified update and changes nothing else of the context |
| PackageTarget.InstallEnvSpec | infra/package.py:86-97 | when `install/bin` exists it heads `PATH`, before the old list or else the split `PATH` of the process environment; likewise `install/lib` for `LD_LIBRARY_PATH`; a missing directory leaves its key alone, and every other key is unchanged |
| PackageTarget.InstallEnvTwice | infra/package.py:86-92 | calling `install_env` twice puts the binary directory at the head of `PATH` twice (no duplicate check) |
| PackageTarget.BinaryCalls | infra/target.py:189-192 | the hooks are called in order, each with the absolute binary and its directory as working directory |
| PackageTarget.HookCallsAt | infra/target.py:185-192 | `run_hooks_post_build` makes one call per binary and hook, binary-major, and call `b * |hooks| + h` is hook `h` on binary `b`, made absolute in the directory the hooks of the binary before it left the process in, and run in that binary's directory |
| PackageTarget.HookCallsLength | infra/target.py:186-188 | the number of hook calls is the number of binaries times the number of hooks |
| PackageTarget.HookCallAt | infra/target.py:186-192 | the call at position `b * |hooks| + h` exists and is hook `h` on binary `b`, made absolute against the working directory left by the earlier `chdir`s, and run in its directory |
| PackageTarget.RunHooksPostBuild | infra/target.py:185-192 | the method makes exactly the calls above and leaves the process in the directory the last `chdir` chose, or makes none, keeps the directory and passes on the error of `binary_paths` |
| PackageTarget.ChdirCarries | infra/target.py:186-191 | an illustration on one input: with one hook, `a/x` and then `b/y` from `/w` are called as `/w/a/x` and `/w/a/b/y`, since each `chdir` carries over to the next `abspath` |
| PackageTarget.DefaultBinaryPaths | infra/target.py:175-183 | the default `binary_paths` raises NotImplementedError |
| Paths.Join1 | infra/package.py:84 | one step of `os.path.join`: an absolute part replaces the path, and a relative one is appended after it |
| Paths.Basename | infra/util.py:138 | `os.path.basename` gives a suffix of the path without '/' |
| Paths.BasenameJoin1 | infra/util.py:138 | the basename of a path joined with a slash-free name is that name |
| Paths.BasenameOfSuffix | infra/util.py:138 | a slash-free suffix that starts the path or follows a '/' is the basename |
| Paths.JoinRelative | infra/package.py:84 | joining a relative part onto a path without trailing slash inserts exactly one '/' |
| Paths.JoinNested | infra/package.py:84 | joining two relative parts is joining their '/'-concatenation |
| Util.SearchPathDirs | infra/util.py:427-430 | `require_program` searches `ctx.runenv.PATH` joined with ':', whose directories split back out when none holds ':', and otherwise the process's `PATH` |
| Util.MissingProgram | infra/util.py:433-436 | the message is `"<name>" not found in PATH`, followed by `: <error>` exactly when a non-empty error text is given |
| Util.RequireProgram | infra/util.py:418-436 | `require_program` raises exactly when the program is not found on the search path, and then raises FatalError with that message |
| Util.StampName | infra/util.py:137-139 | the stamp file name starts with `.patched-` |
| Util.StampOfPatchFile | infra/util.py:137-139 | for `dir/name.patch` with `name` holding no '/' and no `.patch`, the stamp is `.patched-name` |
| Util.WorkDir.constructor | infra/util.py:121 | a work directory starts with the given files and no commands run |
| Util.WorkDir.ApplyPatch | infra/util.py:121-152 | an existing stamp gives false and changes nothing; a missing `patch` program raises FatalError; otherwise `patch -p<strip>` runs on the patch, a failing run exits with -1, and a successful one creates the stamp and gives true |
| Util.ApplyTwice | infra/util.py:141-143 | after a successful `apply_patch`, a second one gives false, and `patch` has run once |
| Util.StripTar | infra/util.py:445 | removing `.tar(\.\w+)?` matches never lengthens the name |
| Util.StripTarAbsent | infra/util.py:445 | a name without `.tar` is its own default basename |
| Util.StripTarPrefixFree | infra/util.py:445 | text before the first `.tar` is kept unchanged |
| Util.UntarOf | infra/util.py:444-445 | `name.tar` and `name.tar.<ext>`, with a word-character extension, both untar into `name` |
| Util.WordRun | infra/util.py:445 | the `\w+` match is the longest run of word characters at the start |
| Util.WordRunAll | infra/util.py:445 | a string of word characters is matched completely by `\w+` |
| Context.Ctx.constructor | infra/package.py:86-97 | a context holds the given flag lists and run environment |
| Shell.Quote | infra/util.py:304 | `shlex.quote` gives `''` for the empty string, a string of safe characters unchanged, and any other string wrapped in single quotes around its escaped body |
| Shell.QuoteBody | infra/util.py:304 | inside single quotes, a string without `'` is kept as it is |
| Shell.Quotes | infra/util.py:304 | every argument is quoted on its own, in order |
| Shell.QJoinRoundTrip | infra/util.py:295-304 | splitting the result of `qjoin` with POSIX `shlex.split` gives the arguments back |
| Shell.LexJoined | infra/util.py:304 | the lexer run on `qjoin(args)` from its start state gives exactly `args` |
| Shell.LexQuote | infra/util.py:304 | a quoted argument is read back as that argument, whatever follows |
| Shell.LexBody | infra/util.py:304 | the escaped body of a quoted string, up to its closing quote, is read back as the string |
| Shell.EscapedQuote | infra/util.py:304 | the escape `'"'"'` inside single quotes stands for one `'` |
| Shell.SplitQJoinThen | infra/util.py:196 | a `qjoin` result followed by a space and more text splits into the arguments followed by the words of that text |
| Shell.LexDoubleBody | infra/util.py:196 | text without `"` and `\` between double quotes is read as it is |
| Shell.SafeWords | infra/util.py:304 | non-empty arguments of safe characters are joined with single spaces and no quotes |
| Spec2006.New | infra/targets/spec2006/__init__.py:96-114 | the constructor accepts exactly the four source types and, for `installed`, only a directory holding `shrc`; each refusal raises FatalError with the source's message, and success stores the arguments |
| Spec2006.InstallPathUnder | infra/targets/spec2006/__init__.py:171-174 | the installation is the source directory itself for `installed` and `<targets>/spec2006/install` otherwise, and subpaths are joined under it |
| Spec2006.JoinAppend | infra/targets/spec2006/__init__.py:171-174 | joining parts in two steps is joining them in one |
| Spec2006.PatchPath | infra/targets/spec2006/__init__.py:179-181 | a patch name without '/' resolves to `<config root>/<name>.patch`; a path is kept |
| Spec2006.BuiltinPatchStamp | infra/targets/spec2006/__init__.py:179-182 | a built-in patch `name` is stamped as `.patched-name` |
| Spec2006.GatheredMembers | infra/targets/spec2006/__init__.py:403-408 | after the first `n` sets, the collected benchmarks are exactly the members of those sets that the instance does not exclude |
| Spec2006.GetBenchmarks | infra/targets/spec2006/__init__.py:402-409 | `_get_benchmarks` raises KeyError for the first unknown set; otherwise it returns, strictly sorted, exactly the non-excluded members of the requested sets |
| Spec2006.RunArgs | infra/targets/spec2006/__init__.py:223-249 | the runspec arguments are the built head followed by the user's `--runspec-args` |
| Spec2006.RunArgsShape | infra/targets/spec2006/__init__.py:225-247 | `--size test` comes first exactly with `--test`; `--iterations` is 1 under a pool and the requested count otherwise; `output_root=` is defined exactly under prun; `--ignore_errors` is given exactly without a pool, and then last |
| Spec2006.Wrapper | infra/targets/spec2006/__init__.py:252-256 | the wrapper is `killwrap_tree`, then `nothp` when enabled, then `taskset -c <cpu>` when the CPU is not negative, joined with spaces |
| Spec2006.WrapperSafe | infra/targets/spec2006/__init__.py:252-256 | every word of the wrapper is non-empty and needs no shell quoting |
| Spec2006.CommandShape | infra/targets/spec2006/__init__.py:262 | the run command is `<wrapper> runspec --config=<config> --nobuild <runargs> <bench>` |
| Spec2006.RunspecWords | infra/targets/spec2006/__init__.py:250-302 | the shell splits the run command into the wrapper words, `runspec`, `--config=infra-<instance>`, `--nobuild`, the runspec arguments and the benchmarks, each intact |
| Spec2006.FixedWords | infra/targets/spec2006/__init__.py:262 | the fixed part of the command needs no quoting |
| Spec2006.PoolJobs | infra/targets/spec2006/__init__.py:287-292 | under a pool there is one job per benchmark, in order, with id `run-<instance>-<bench>` and the iteration count as node count |
| Spec2006.Run | infra/targets/spec2006/__init__.py:215-302 | `run` raises `spec2006-<instance> has not been built yet!` when the configuration file is missing; a successful run is one command without a pool and, with one, one job per benchmark in order, named `run-<instance>-<bench>` on `iterations` nodes |
| Spec2006.RunPlanOf | infra/targets/spec2006/__init__.py:258-302 | after the check, a successful run is one command without a pool and one job per benchmark, with its id and node count, under a pool |
| Spec2006.RunCommandsDirect | infra/targets/spec2006/__init__.py:258-302 | without a pool, and with no braces in the names and arguments `run` puts in, `run` runs exactly `bash -c` of the `_bash_command` script around the command for all benchmarks, quoted and joined |
| Spec2006.RunCommandsPooled | infra/targets/spec2006/__init__.py:258-292 | with a pool, under the same condition, job `k` is `run-<instance>-<bench>` on `iterations` nodes running the `_bash_command` script around the command for that benchmark, wrapped under prun in the output-root script |
| Spec2006.RunLoneClose | infra/targets/spec2006/__init__.py:258-302 | a lone `}` in the run arguments (from `--runspec-args` or the run wrapper) makes `run` raise ValueError at the `format` with the benchmarks, with or without a pool, when a pool has a benchmark to format |
| Spec2006.PlanDirect | infra/targets/spec2006/__init__.py:258-302 | without a pool and without braces in the texts put in, the plan is the one bash command for all benchmarks |
| Spec2006.PlanPooled | infra/targets/spec2006/__init__.py:258-292 | with a pool and without braces in the texts put in, the plan is one job per benchmark running that benchmark's script |
| Spec2006.PlanLoneClose | infra/targets/spec2006/__init__.py:258-302 | a lone `}` in the run arguments makes the plan fail with the lone-brace ValueError, before any job is submitted |
| Spec2006.CommandFirstFormat | infra/targets/spec2006/__init__.py:258-264 | `cmd.format(**locals())` puts the wrapper, configuration and run arguments (and for measuremem the directory of the target's module and the output root) into the template and leaves the field `{bench}` |
| Spec2006.CommandSecondFormat | infra/targets/spec2006/__init__.py:289-302 | formatting with `bench` puts the benchmarks in, when the texts put in before have no braces |
| Spec2006.PrunUnindent | infra/targets/spec2006/__init__.py:267-284 | `_unindent` turns the indented prun template into its twelve lines |
| Spec2006.PrunFirstFormat | infra/targets/spec2006/__init__.py:267-285 | formatting the prun script with the locals puts in the output root, the installation and the command, and leaves `{bench}` and single braces around the command |
| Spec2006.PrunSecondFormat | infra/targets/spec2006/__init__.py:289 | formatting the prun script with `bench` puts the benchmark into the script and into the command it wraps |
| Spec2006.PoolScriptsFormat | infra/targets/spec2006/__init__.py:288-289 | each benchmark's script is its command, wrapped under prun in the output-root script |
| Spec2006.PrunLoneClose | infra/targets/spec2006/__init__.py:280-289 | a lone `}` in the command wrapped by the prun script makes the script's `format` with `bench` fail |
| PyFormat.FormatAppend | infra/targets/spec2006/__init__.py:264 | `str.format` works from left to right: once a prefix formats, the result is its formatting followed by that of the rest |
| PyFormat.FormatPlain | infra/targets/spec2006/__init__.py:264 | a text without braces formats to itself |
| PyFormat.FormatField | infra/targets/spec2006/__init__.py:264 | `{name}` gives the value of the keyword argument `name` |
| PyFormat.FormatEscapedField | infra/targets/spec2006/__init__.py:264 | `{{name}}` gives `{name}`, for the later `format(bench=...)` |
| PyFormat.FormatPositional | infra/targets/spec2006/__init__.py:264 | with keyword arguments only, `{}` raises IndexError `Replacement index 0 out of range for positional args tuple`, and `{i}` the same with index `i` |
| PyFormat.FormatEscapes | infra/targets/spec2006/__init__.py:280 | `{{` and `}}` stand for single braces, so `{{{{` and `}}}}` survive one `format` as `{{` and `}}` |
| PyFormat.FormatLoneClose | infra/targets/spec2006/__init__.py:289 | a lone `}` after a brace-free text is the ValueError `Single '}' encountered in format string` |
| PyFormat.FormatLoneCloseWithin | infra/targets/spec2006/__init__.py:289 | a lone `}` inside a text after a prefix that formats makes the whole fail, whatever follows |
| PyFormat.FormatJoin | infra/targets/spec2006/__init__.py:285 | lines that each format, joined by newlines, format line by line |
| PyFormat.FormatOkSameNames | infra/targets/spec2006/__init__.py:289 | whether a format succeeds depends on which names have values, not on the values |
| Spec2006.ConfigPathAgrees | infra/targets/spec2006/__init__.py:219-323 | the configuration file `run` checks for is the one `_make_spec_config` writes |
| Spec2006.ConfigFile | infra/targets/spec2006/__init__.py:219-323 | `config`, `<file>` and `config/<file>` name the same path under the installation |
| Spec2006.BuildPostBench | infra/targets/spec2006/__init__.py:362-365 | the post-build line sets `build_post_bench` |
| Spec2006.SettingsLines | infra/targets/spec2006/__init__.py:328-343 | the header of the configuration has ten lines, sets `ext` to the configuration name, and sets no `build_post_bench` |
| Spec2006.CompilerLines | infra/targets/spec2006/__init__.py:347-357 | the compiler lines set no `build_post_bench` |
| Spec2006.RunWrapperLines | infra/targets/spec2006/__init__.py:369-371 | the run-wrapper lines set no `build_post_bench` |
| Spec2006.PortabilityLines | infra/targets/spec2006/__init__.py:374-389 | the portability lines set no `build_post_bench` and no `monitor_wrapper` |
| Spec2006.MakeSpecConfig | infra/targets/spec2006/__init__.py:321-391 | `_make_spec_config` returns `infra-<instance>`, writes `ext` with it on the second line, and writes the `build_post_bench` line exactly when post-build hooks exist |
| SpecLegacy.New | targets/spec2006/__init__.py:12-21 | the constructor succeeds exactly when one of `specdir` and `giturl` is given (truthy), raises the source's FatalError for none and for both, and stores the arguments |
| SpecLegacy.NameInjective | targets/spec2006/__init__.py:156-225 | two benchmark names of the table are equal exactly when their numbers are |
| SpecLegacy.NamesDistinct | targets/spec2006/__init__.py:156-225 | distinct benchmark numbers give distinct names |
| SpecLegacy.NamesMember | targets/spec2006/__init__.py:156-225 | a name is in a set exactly when it is the name of one of the set's numbers |
| SpecLegacy.NameNotSetName | targets/spec2006/__init__.py:226-228 | no benchmark name is also the name of a set (`int`, `fp`, `c`, `c++`, `fortran`, `all`) |
| SpecLegacy.IntIdsFacts | targets/spec2006/__init__.py:157-170 | the `int` set is listed in increasing order and holds only integer benchmarks |
| SpecLegacy.FpIdsFacts | targets/spec2006/__init__.py:171-189 | the `fp` set is listed in increasing order and holds no integer benchmark |
| SpecLegacy.LanguageIdsCovered | targets/spec2006/__init__.py:190-224 | every benchmark of the `c`, `c++` and `fortran` sets is in `int` or `fp` |
| SpecLegacy.AllIdsDistinct | targets/spec2006/__init__.py:157-189 | `int` and `fp` together hold no benchmark twice |
| SpecLegacy.AllNamesDistinct | targets/spec2006/__init__.py:157-189 | the names of `int` and `fp` together hold no name twice |
| SpecLegacy.SortedDistinctConcat | targets/spec2006/__init__.py:226 | sorting two disjoint duplicate-free lists gives a strictly sorted list of both |
| SpecLegacy.LanguagesInAll | targets/spec2006/__init__.py:190-226 | every language set's benchmark is in `int` or `fp` |
| SpecLegacy.AllTable | targets/spec2006/__init__.py:226 | `all` holds 29 benchmarks, strictly sorted, exactly those of `int` and `fp`, which are disjoint, and includes every language set |
| SpecLegacy.AllNotSetNames | targets/spec2006/__init__.py:226-228 | no member of `all` is the name of a set, so the singleton entries overwrite none |
| SpecLegacy.AddSingletons | targets/spec2006/__init__.py:227-228 | the loop adds each benchmark as its own singleton set and keeps the other entries |
| SpecLegacy.BuildTable | targets/spec2006/__init__.py:156-228 | the table holds the five listed sets, `all`, and a singleton set per benchmark of `all`, and nothing else |
| SpecLegacy.TableOf | targets/spec2006/__init__.py:156-228 | the table built from given set contents holds exactly those sets and the singletons |
| SpecLegacy.PatchPaths | targets/spec2006/__init__.py:54-56 | each patch name resolves like the newer target's, in order |
| SpecLegacy.ConcatMembers | targets/spec2006/__init__.py:63-65 | a benchmark is in the concatenated list exactly when some requested set holds it |
| SpecLegacy.ConcatCounts | targets/spec2006/__init__.py:63-65 | a benchmark in two requested sets appears at least twice, since the list is not deduplicated |
| SpecLegacy.BuildList | targets/spec2006/__init__.py:63-66 | the build list raises KeyError for the first unknown set, and is otherwise the sorted concatenation of the requested sets |
| SpecLegacy.IntAndCBuildTwice | targets/spec2006/__init__.py:63-70 | requesting `int` and `c` lists `400.perlbench` twice, so it is built twice |
| SpecLegacy.RunspecArgvShape | targets/spec2006/__init__.py:72-81 | `runspec` runs `bash -c` on a script that changes to `<path>/install` and ends with the runspec command |
| SpecLegacy.RunspecWords | targets/spec2006/__init__.py:79-80 | the shell splits the runspec command into `killwrap_tree runspec --config=<config> --action=<action>` and the quoted arguments, intact |
| SpecLegacy.BuildCommands | targets/spec2006/__init__.py:68-70 | one `runspec` build command per benchmark, in order |
| SpecLegacy.SettingsLines | targets/spec2006/__init__.py:90-98 | the header has nine lines, sets `ext` to the configuration name, and sets neither `build_post_bench` nor `monitor_wrapper` |
| SpecLegacy.CompilerLines | targets/spec2006/__init__.py:102-112 | the compiler lines set neither `build_post_bench` nor `monitor_wrapper` |
| SpecLegacy.MonitorWrapper | targets/spec2006/__init__.py:124 | the wrapper line sets `monitor_wrapper` |
| SpecLegacy.HookLines | targets/spec2006/__init__.py:115-120 | with post-build hooks, three lines with `build_post_bench` in the middle; none otherwise |
| SpecLegacy.MonitorLines | targets/spec2006/__init__.py:122-124 | with a run wrapper, a blank line and the `monitor_wrapper` line; none otherwise |
| SpecLegacy.MakeSpecConfig | targets/spec2006/__init__.py:83-144 | `make_spec_config` returns `infra-<instance>`, puts `ext` on the second line, and writes `build_post_bench` exactly with post-build hooks and `monitor_wrapper` exactly with a run wrapper |
| SpecLegacy.Assembled | targets/spec2006/__init__.py:88-142 | the hook and wrapper lines are in the file when produced, and nothing else sets those keys |
| SpecLegacy.Build | targets/spec2006/__init__.py:49-70 | `build` always applies the resolved patches and writes the configuration `make_spec_config` promises; then it raises KeyError for the first unknown set, or otherwise runs one build per benchmark of the sorted list |
| ParseBsets.SkipSpace | targets/spec2006/scripts/parse-bsets.py:12 | `\s*` consumes exactly the run of whitespace at the position |
| ParseBsets.FindQuote | targets/spec2006/scripts/parse-bsets.py:12 | `[^']*` stops at the first `'` or at the end |
| ParseBsets.LastClose | targets/spec2006/scripts/parse-bsets.py:12 | the greedy `(.*)\)` ends at the last `)` of the text, and there is none when the result is -1 |
| ParseBsets.NameAt | targets/spec2006/scripts/parse-bsets.py:12 | a `$name = '...'` match captures a name without `'` |
| ParseBsets.BenchAt | targets/spec2006/scripts/parse-bsets.py:12 | an `@benchmarks = qw(...)` match starts at `@` and is closed by a later `)` |
| ParseBsets.SearchFrom | targets/spec2006/scripts/parse-bsets.py:12-13 | `re.search` from a position gives a name without `'` when it matches |
| ParseBsets.ParseSetfile | targets/spec2006/scripts/parse-bsets.py:9-17 | `parse_setfile` fails its assertion when the pattern does not match, and otherwise gives a name without `'` and non-empty whitespace-free benchmark words |
| ParseBsets.LastBenchAt | targets/spec2006/scripts/parse-bsets.py:12 | the last line a `.*` can reach that starts `@benchmarks` is the one matched |
| ParseBsets.NameOfSetFile | targets/spec2006/scripts/parse-bsets.py:12 | a set file that starts with `$name = '<name>'` yields that name |
| ParseBsets.BenchAfter | targets/spec2006/scripts/parse-bsets.py:12 | an `@benchmarks = qw(<body>)` line at a line start yields its body |
| ParseBsets.NoBenchAfter | targets/spec2006/scripts/parse-bsets.py:12 | no later `@benchmarks` match follows a benchmark line whose body holds no `@` |
| ParseBsets.ParseSetFile | targets/spec2006/scripts/parse-bsets.py:9-17 | on a file written as `$name = '<name>'` and then `@benchmarks = qw(<words>)`, `parse_setfile` gives back the name and the words |
| ParseBsets.NoNameFails | targets/spec2006/scripts/parse-bsets.py:13-14 | a file without `$name` fails the assertion |
| ParseBsets.CollectLast | targets/spec2006/scripts/parse-bsets.py:31-33 | `sets` holds a name exactly when some file declares it, with the benchmarks of the last such file |
| ParseBsets.AllBenchMembers | targets/spec2006/scripts/parse-bsets.py:35-36 | `allbench` is exactly the set of benchmarks of all files |
| ParseBsets.Parsed | targets/spec2006/scripts/parse-bsets.py:31-32 | every file is parsed, in order |
| ParseBsets.AddAll | targets/spec2006/scripts/parse-bsets.py:35-36 | the inner loop adds exactly the file's benchmarks to `allbench` |
| ParseBsets.ParseFiles | targets/spec2006/scripts/parse-bsets.py:31-36 | the file loop fails exactly when some file fails to parse, and otherwise yields the collected sets and all benchmarks |
| ParseBsets.AddSingletons | targets/spec2006/scripts/parse-bsets.py:39-40 | every benchmark becomes its own singleton set, overwriting a set of the same name, and the other sets are kept |
| ParseBsets.Run | targets/spec2006/scripts/parse-bsets.py:20-40 | the script exits with 1 unless given exactly one argument, fails its assertion on a missing directory or an unparsable file, and otherwise builds the file sets, `all` sorted over all benchmarks (unless a benchmark is itself named `all`), and the singletons |
| Pools.Args | infra/parallel.py:132-133 | a list command is used as it is, and a string one is split with `shlex.split` |
| Pools.LoadAppend | infra/parallel.py:97 | the load of two queues together is the sum of their loads |
| Pools.ProcessJobNames | infra/parallel.py:173-178 | a single job keeps the base id and output file, and jobs of one call get distinct `-<i>` suffixes |
| Pools.PrunCommandShape | infra/parallel.py:222-223 | the prun command is `prun -v -np <nnodes> -1 -o <outfile>`, then the prun options, then the command |
| Pools.ShouldLogRule | infra/parallel.py:151-152 | a callback silences the log exactly by returning `False` |
| Pools.OnSuccess | infra/parallel.py:150-155 | a finished job logs its id, elapsed time and command, unless its callback returned `False` |
| Pools.OnError | infra/parallel.py:157-163 | a failed job logs its id, status, elapsed time and command and writes its output, unless its callback returned `False` |
| Pools.Lines | infra/parallel.py:241 | `splitlines` breaks at every line boundary Python knows (`\n`, `\r`, `\r\n` as one, `\v`, `\f`, 0x1c to 0x1e, 0x85, U+2028, U+2029) and gives lines without any |
| Pools.NodeIdText | infra/parallel.py:244-249 | the token `node<m>/<c>` is read back as machine `m` and core `c` |
| Pools.DigitRun | infra/parallel.py:251 | `\d+` takes the whole run of digits |
| Pools.SecondsFrom | infra/parallel.py:251-253 | a `for <n> seconds` match gives a count that is not negative |
| Pools.ScanStatus | infra/parallel.py:239-254 | the loop over the output lines computes the scan of its lines, from no nodes and -1 seconds |
| Pools.NodeTokensFail | infra/parallel.py:243-246 | a node line fails exactly when one of its tokens is not `node<digits>/<digits>` |
| Pools.ScanAborts | infra/parallel.py:241-246 | the scan returns early exactly when some node line holds a malformed token |
| Pools.NodeTokensOfTexts | infra/parallel.py:243-249 | the node tokens prun prints are read back as exactly those nodes, in order |
| Pools.SecondsOf | infra/parallel.py:251-253 | a line with `for <n> seconds` gives `n` |
| Pools.LinesOfText | infra/parallel.py:241 | lines without line boundaries, each ended by `\n`, are split back into those lines |
| Pools.StatusRoundTrip | infra/parallel.py:239-254 | prun output with a seconds line and a node line scans to exactly those nodes and that duration |
| Pools.ScanHead | infra/parallel.py:241-253 | lines that are neither node lines nor seconds lines do not change the scan |
| Pools.StatusReport | infra/parallel.py:255-262 | with nodes found, a duration that is not positive fails the assertion, and otherwise the running message is logged; without nodes nothing is logged |
| Pools.RunningMessageSuffix | infra/parallel.py:257-262 | the seconds suffix is left out exactly when prun reserved the default 900 seconds |
| Pools.Find | infra/parallel.py:80-84 | `self.jobs[fd]` finds the job registered under `fd`, and finds nothing exactly when none is |
| Pools.RemoveOrder | infra/parallel.py:84 | `self.jobs.pop(fd)` removes just that job and keeps the order of the rest |
| Pools.RemoveLoad | infra/parallel.py:84 | removing a job lowers the load by its node count |
| Pools.RemoveFds | infra/parallel.py:84 | removing a job removes its descriptor and keeps the descriptors distinct |
| Pools.FdsSnoc | infra/parallel.py:144 | registering a job adds its descriptor |
| Pools.AppendFresh | infra/parallel.py:137-146 | registering jobs with new, distinct descriptors keeps the descriptors distinct |
| Pools.MakeJobs | infra/parallel.py:172-230 | `make_jobs` waits forever exactly when the queue lacks space, and otherwise creates one process job per node (prun: one job), each with its id, node count, descriptor and start line |
| Pools.EventUnknown | infra/parallel.py:78-89 | an event on an unregistered descriptor changes nothing, and raises KeyError from `self.jobs[fd]` when there is output to read and FileNotFoundError from `unregister` otherwise |
| Pools.OutputKeepsQueue | infra/parallel.py:197-262 | processing output keeps the jobs, their descriptors, node counts and load |
| Pools.SameNodes | infra/parallel.py:97 | queues with the same node counts have the same load |
| Pools.ProcessOutputAppends | infra/parallel.py:197-201 | a process job's new ASCII output is appended to its output and nothing is logged; a byte that is not ASCII raises UnicodeDecodeError and changes nothing |
| Pools.EventHangUp | infra/parallel.py:87-93 | a hang-up removes the job, lowers the load by its nodes, and ends with its success lines for status 0 and its error lines otherwise |
| Pools.FindUnique | infra/parallel.py:80 | with distinct descriptors, the job of a descriptor is unique |
| Pools.EventErrorAndHangUp | infra/parallel.py:82-89 | an error together with a hang-up always raises: once the read and the first pop went through, the second `unregister` raises FileNotFoundError |
| Pools.ProcessJobsLoad | infra/parallel.py:189 | every process job counts one node |
| Pools.EagerOverfills | infra/parallel.py:135-146 | all jobs of one call meet `_wait_for_queue_space` before any is registered, so with `--parallelmax 1` two jobs both start |
| Pools.Pool.constructor | infra/parallel.py:51-58 | a new pool has the given kind and limit and an empty queue |
| Pools.Pool.Run | infra/parallel.py:110-148 | `run` fails on a command that does not split, makes no jobs when it would wait forever, and otherwise creates and registers every job of the call, after the queue, with distinct descriptors |
| Pools.Pool.ProcessJobOutput | infra/parallel.py:197-262 | processing output raises KeyError for an unknown descriptor and UnicodeDecodeError for a byte that is not ASCII, changing nothing; otherwise it updates just that job as the output rule states |
| Pools.Pool.Pop | infra/parallel.py:84 | `pop` removes and returns the job of the descriptor, or nothing when it is unknown |
| Pools.Pool.HandleEvent | infra/parallel.py:78-93 | one poller event reads output, then handles an error, then a hang-up, as the event function states |
| PrunLegacy.Names | prun.py:116-118 | every process job gets a `-<i>` id and a `.<i>` output file, distinct per index and never the base name |
| PrunLegacy.SuffixInjective | prun.py:117-118 | a printed index suffix determines the index |
| PrunLegacy.Candidates | prun.py:115-153 | `make_jobs` would create one job per node for processes and one job for prun |
| PrunLegacy.Admitted | prun.py:83-91 | the number of jobs admitted before a wait that never ends is at most the number of candidates |
| PrunLegacy.LazyKeepsBound | prun.py:83-91 | since each job is registered before the generator makes the next, the load never exceeds `--parallelmax` when it started within it |
| PrunLegacy.AdmittedStops | prun.py:65-69 | admission stops only at a job for which the queue lacks space |
| PrunLegacy.UnlimitedAdmitsAll | prun.py:66 | without `--parallelmax` every job is admitted |
| PrunLegacy.LazyWaits | prun.py:83-91 | with a limit of 1 and two one-node jobs, only the first starts and the second waits |
| PrunLegacy.InvertedLogRule | prun.py:93-106 | the older test logs exactly when the callback is missing or returned `False`, the opposite of what its comment says for every present callback |
| PrunLegacy.OnSuccess | prun.py:93-98 | the success lines are written exactly when the callback is missing or returned `False` |
| PrunLegacy.OnError | prun.py:100-106 | the error lines are written exactly when the callback is missing or returned `False` |
| PrunLegacy.SilencedByNone | prun.py:57-61 | a success callback returning `None`, as most do, silences the older pool's log, while the newer one logs |
| PrunLegacy.RegisterEach | prun.py:83-91 | the registration loop admits exactly the admitted prefix of the candidates, after the queue |
| PrunLegacy.CandidatesFresh | prun.py:89 | registered candidates keep the descriptors distinct |
| PrunLegacy.LegacyPool.constructor | prun.py:25-28 | a new pool has the given kind, `parallelmax` defaulting to none, and an empty queue |
| PrunLegacy.LegacyPool.Run | prun.py:75-131 | `run` fails on a command that does not split; a `PrunPool` registers its job as `RunPiped` does, and a `ProcessPool` registers nothing and comes to `ProcessRun` |
| PrunLegacy.LegacyPool.RunPiped | prun.py:75-91 | with jobs whose output comes through a pipe, `run` fails on a command that does not split, and otherwise registers exactly the admitted jobs and reports whether all were |
| PrunLegacy.ProcessRunStopsFirst | prun.py:83-131 | a `ProcessPool` raises AttributeError exactly when the piped run would register a job, after that job's `running` line, and waits or finishes with no line exactly when the piped run admits nothing |
| PrunLegacy.OneProcessJobRaises | prun.py:113-131 | an illustration on one input: one job, no limit and an empty queue log `running <jobid>-0` and raise, where the piped run registers the job |
| PrunLegacy.LegacyPool.ProcessJobOutput | prun.py:133-182 | processing output updates the job as the older pool's output rule states |
| PrunLegacy.LegacyPool.Pop | prun.py:54-59 | `pop` removes and returns the job of the descriptor, or nothing when it is unknown |
| PrunLegacy.LegacyPool.HandleEvent | prun.py:48-63 | one poller event is handled as the older event function states |
| Report.ReportLine | infra/report.py:80-82 | `report` fails its assertion exactly when the name holds a space, and otherwise prints `[setup-report] name=value` |
| Report.AppendFooter | infra/report.py:71-78 | appending the footer keeps the file's earlier contents in front |
| Report.SplitAssign | infra/report.py:158 | `split('=', 1)` fails to unpack exactly when there is no `=`, and otherwise splits at the first one |
| Report.ParseAt | infra/report.py:147-164 | the lines of a file are read one after another, and an error stops the reading |
| Report.ParseMetadata | infra/report.py:143-166 | the reading loop computes the metadata of the file's text, read in text mode: `\n`, `\r\n` and a lone `\r` each end a line |
| Report.ParseLines | infra/report.py:144-166 | the loop over the lines computes their metadata, stopping at the first error |
| Report.ReadLine | infra/report.py:148-164 | one pass of the loop: a line without the prefix changes nothing, and a metadata line is split at its first `=` and assigned, with a warning for a name already present |
| Strs.TextLinesPrinted | infra/report.py:146-147 | reading printed lines without line breaks in text mode gives those lines back, and an empty last one after the final newline |
| Strs.UniversalReturn | infra/report.py:146-147 | text mode reads a lone `\r` as a newline |
| Report.ReportMode | infra/report.py:168-182 | `brief` prints nothing, `full` and `csv` raise NotImplementedError, and any other mode raises FatalError `unknown reporting mode "<mode>"` |
| Report.MarkerSkipped | infra/report.py:75-85 | the `[setup-report-<kind>]` marker lines are not read as metadata |
| Report.SplitAt | infra/report.py:158 | a name without `=` is split back off its value, whatever the value holds |
| Report.ReportStep | infra/report.py:82-164 | a reported line is read back as an assignment of its name and value |
| Report.EntriesParse | infra/report.py:148-164 | reading reported lines assigns their pairs in order and records, for each name already present, a duplicate warning |
| Report.EntriesOneLine | infra/report.py:82 | a reported line of a reportable pair holds neither `\n` nor `\r` |
| Report.ReturnEndsLine | infra/report.py:146-164 | a `\r` inside a reported value ends the line when the file is read back: the name gets only the text before it, and the rest is a line of its own |
| Report.ReportRoundTrip | infra/report.py:80-166 | the lines `report` prints are read back by `_parse_metadata` into the pairs, each name holding its last reported value, for names and values without line breaks |
| Report.AssignLast | infra/report.py:164 | after the assignments, a reported name holds its last value |
| Report.AssignKeeps | infra/report.py:164 | a name not reported keeps its earlier value |
| Report.FooterParse | infra/report.py:71-78 | reading a footer assigns `target` and then `instance` before the target's own lines and the end marker |
| Report.FooterPairs | infra/report.py:67-69 | the default footer reports `target` and then `instance` |
| ReportRunner.Lower | infra/report/runner.py:210-211 | lower-casing, as `float()` does for its special names, keeps the length |
| ReportRunner.Unbox | infra/report/runner.py:198-216 | `_unbox_value` gives a bool exactly for `True` and `False`, an int exactly for other all-digit text, a float exactly for other text `float()` accepts, and a string otherwise; only an int can differ from its text |
| ReportRunner.UnboxBox | infra/report/runner.py:194-216 | unboxing the boxed text of a value gives the value back, for the values whose text reads back as themselves |
| ReportRunner.NegativeIntUnboxesAsFloat | infra/report/runner.py:206-211 | a negative int is not all digits, so it reads back as a float |
| ReportRunner.EntryLines | infra/report/runner.py:104-105 | one entry line per entry |
| ReportRunner.LogResult | infra/report/runner.py:95-107 | `log_result` prints the begin line, one `key: value` line per entry in order, and the end line |
| ReportRunner.EntryLinesAt | infra/report/runner.py:104-105 | the line of entry `i` is `[setup-report] <key>: <boxed value>` |
| ReportRunner.SplitEntry | infra/report/runner.py:182 | `split(': ', 1)` fails to unpack exactly when the statement holds no `: `, and otherwise splits at the first one |
| ReportRunner.ParseMetadata | infra/report/runner.py:165-191 | the reading loop computes the records and diagnostics of the file's text, read in text mode: `\n`, `\r\n` and a lone `\r` each end a line |
| ReportRunner.ParseCons | infra/report/runner.py:169-188 | lines are read one after another, and an error stops the reading |
| ReportRunner.ForeignLine | infra/report/runner.py:171 | a line without the prefix changes nothing |
| ReportRunner.StatementRead | infra/report/runner.py:170-172 | a statement without trailing whitespace is read back after the prefix and a space |
| ReportRunner.EntrySplit | infra/report/runner.py:173-182 | a `key: value` statement with a key holding no `: ` is neither `begin` nor `end` and splits back into key and value |
| ReportRunner.UnboxableOneLine | infra/report/runner.py:105 | the boxed text of a value that reads back holds no line break |
| ReportRunner.OutsideIgnored | infra/report/runner.py:178-180 | an entry outside begin and end is ignored with an error message |
| ReportRunner.BeginOpens | infra/report/runner.py:173-174 | `begin` starts an empty record |
| ReportRunner.EndYields | infra/report/runner.py:175-177 | `end` yields the current record, or `None` when none was begun |
| ReportRunner.UnterminatedDropped | infra/report/runner.py:190-191 | a record begun but not ended is not yielded, and an error message is logged |
| ReportRunner.DuplicateLastWins | infra/report/runner.py:184-188 | a repeated key keeps its place, takes the last value, and logs a duplicate warning |
| ReportRunner.EmptyStringRejected | infra/report/runner.py:170-182 | an entry whose value is the empty string loses its `: ` to `rstrip`, and the split raises |
| ReportRunner.EntryStep | infra/report/runner.py:182-188 | inside a record, the line of a new key adds that entry |
| ReportRunner.EntriesParse | infra/report/runner.py:182-188 | inside a record, the entry lines of distinct new keys add those entries in order |
| ReportRunner.EntryLineOneLine | infra/report/runner.py:105 | an entry line of a loggable entry holds no line break |
| ReportRunner.EntryLinesOneLine | infra/report/runner.py:104-105 | no entry line holds a line break |
| ReportRunner.RecordLinesOneLine | infra/report/runner.py:100-107 | no line of a record holds a line break |
| ReportRunner.FramesOneLine | infra/report/runner.py:100-107 | the begin and end lines hold no line break |
| ReportRunner.RecordParse | infra/report/runner.py:100-188 | reading the lines of one logged record yields exactly that record |
| ReportRunner.Yielded | infra/report/runner.py:176 | every record is yielded, in order |
| ReportRunner.LogParse | infra/report/runner.py:165-188 | reading the lines of several logged records yields them in order |
| ReportRunner.LogLinesOneLine | infra/report/runner.py:95-107 | no logged line holds a line break |
| ReportRunner.LogParseRoundTrip | infra/report/runner.py:95-191 | `_parse_metadata` on records printed by `log_result` yields exactly those records, with no diagnostics |
| Unindent.SpaceRun | infra/targets/spec2006/__init__.py:475 | `^ +` takes the whole run of spaces at the start |
| Unindent.TrailStrip | infra/targets/spec2006/__init__.py:474 | removing trailing `\n *` matches never lengthens the text |
| Unindent.FirstIndented | infra/targets/spec2006/__init__.py:475 | `re.search('^ +', ..., re.M)` finds the first line that starts with a space, and none exactly when no line does |
| Unindent.DropLine | infra/targets/spec2006/__init__.py:477 | the indent is removed from a line that starts with it, and another line is kept |
| Unindent.DropIndent | infra/targets/spec2006/__init__.py:477 | the indent is removed line by line, keeping the number of lines |
| Unindent.UnindentLines | infra/targets/spec2006/__init__.py:473-478 | `_unindent` keeps the lines of the stripped text when none is indented, and otherwise removes the first indented line's leading spaces from every line that starts with them, leaving that line unindented and the lines before it unchanged |
| Unindent.UnindentBlock | infra/targets/spec2006/__init__.py:473-478 | a triple-quoted script of indented lines, further lines as they are, and indented closing quotes loses the indent of its first lines and the indent wherever a later line starts with it |
| Unindent.DroppedLines | infra/targets/spec2006/__init__.py:476-477 | removing the indent keeps lines free of line breaks, keeps the unindented lines before the first indented one, and unindents that one |
| Unindent.StripTripleQuoted | infra/targets/spec2006/__init__.py:474 | a triple-quoted block that starts with a line break and ends in a line of spaces loses exactly those two |
| Unindent.ClosingLine | infra/targets/spec2006/__init__.py:474 | a final line of spaces is removed with its line break |
| Stats.TimediffIsDistance | tools/benchmark-utils/stats.c:5-7 | `timediff_usec` is the distance between the two times in microseconds |
| Stats.TimediffSelfAndSwap | tools/benchmark-utils/stats.c:5-7 | the distance from a time to itself is zero, and swapping the times negates it |
| Stats.TimediffAdditive | tools/benchmark-utils/stats.c:5-7 | distances add up along three times |
| Stats.TimediffSign | tools/benchmark-utils/stats.c:5-7 | for normalised times the distance is positive exactly when the first is earlier, and zero exactly when they are equal |
| Stats.ReportContents | tools/benchmark-utils/stats.c:21-39 | a failing `getrusage` reports nothing; otherwise five distinct entries: peak memory, page faults, I/O operations, context switches (each a sum of the two counters) and the elapsed time |
| Stats.Timer.constructor | tools/benchmark-utils/stats.c:13 | the start time is zero until the timer starts |
| Stats.Timer.StartTimer | tools/benchmark-utils/stats.c:15-18 | the constructor records the current time as the start time |
| Stats.Timer.ReportStats | tools/benchmark-utils/stats.c:20-39 | the destructor reports the usage and the time since the start, as specified above |
| CMake.ParseParts | packages/cmake.py:15 | `map(int, ...)` succeeds exactly when every part is an integer, and then gives their values in order; otherwise it raises ValueError |
| CMake.New | packages/cmake.py:12-17 | the constructor succeeds exactly on three integer parts, stores them as major, minor and revision, raises ValueError on a part that is not an integer and fails its assertion on another part count |
| CMake.Ident | packages/cmake.py:19-20 | the identifier is `cmake-<version>` |
| CMake.NewRoundTrip | packages/cmake.py:9-17 | a printed `major.minor.revision` version is parsed back into those numbers, and the download URL is `https://cmake.org/files/v<major>.<minor>/cmake-<version>.tar.gz` |
| CMake.UrlOf | packages/cmake.py:9-10 | the URL of a version is as above |
| CMake.ParsePrinted | packages/cmake.py:15 | printed integers parse back to themselves |
| Strs.ParseIntUnderscore | packages/cmake.py:15 | `int()` reads a single underscore between two runs of digits as nothing, so `"1_0"` is 10 |
| CMake.SplitVersion | packages/cmake.py:15 | a printed version splits at its dots into the three printed numbers |
| Allocs.BasicBits | llvm-passes/4.0.0/include/builtin/Allocs.h:17-25 | each of the nine basic allocation kinds is a single bit, and no two share one |
| Allocs.AllocOrFree | llvm-passes/4.0.0/include/builtin/Allocs.h:26-28 | `AnyAlloc` and `AnyFree` are disjoint; a basic kind is a heap allocation exactly when it is one of the first five, an allocation exactly when it is not `Free` or `Delete` |
| Allocs.HeapKinds | llvm-passes/4.0.0/include/builtin/Allocs.h:26 | malloc, calloc, realloc, new and strdup all carry the `HeapAlloc` bit |
| Allocs.TableShape | llvm-passes/4.0.0/Allocs.cpp:17-49 | every table entry is a non-wrapper heap allocation or `free`; it names a factor argument exactly when it is neither strdup nor free, a second one exactly for calloc and reallocarray, and a reallocation never takes a size from its pointer argument 0 |
| Allocs.TableRows | llvm-passes/4.0.0/Allocs.cpp:17-49 | every table entry is one of the eight rows the table uses, and the three-argument realloc row belongs to `reallocarray` alone |
| Allocs.TableKinds | llvm-passes/4.0.0/Allocs.cpp:17-49 | no table entry is a wrapper, and each is malloc, new, calloc, strdup, realloc or free |
| Allocs.HeapOrFreeBits | llvm-passes/4.0.0/include/builtin/Allocs.h:67-78 | for every kind the table uses, `isAnyAlloc` and `isAnyFree` disagree, `isAnyFree` is `isFree`, and neither `isStackAlloc` nor `isDelete` holds |
| Allocs.GlobalSite | llvm-passes/4.0.0/include/builtin/Allocs.h:57-58 | a global variable's site is a global allocation, an allocation, not a heap allocation and not a free |
| Allocs.TryCreate | llvm-passes/4.0.0/Allocs.cpp:53-64 | a site is made exactly for a direct call of a named function found in the table, and it carries that table entry |
| Allocs.BuiltAllocOrFree | llvm-passes/4.0.0/Allocs.cpp:53-64 | a site made by `TryCreate` or for a global is an allocation or a free and not both, a free exactly when it is `free`, never a wrapper, a stack allocation or a delete |
| Allocs.SizeFactors | llvm-passes/4.0.0/Allocs.cpp:70-90 | there are at most two size factors, and a global's only factor is the store size of its type |
| Allocs.ConstSizeOf | llvm-passes/4.0.0/Allocs.cpp:92-106 | the size is `UnknownSize` when some factor is not a constant integer, and otherwise the product of the factors modulo 2^64 |
| Allocs.GetConstSize | llvm-passes/4.0.0/Allocs.cpp:92-106 | the loop over the factors computes `ConstSizeOf` of the site's factors |
| Allocs.UnknownSizeIsAProduct | llvm-passes/4.0.0/include/builtin/Allocs.h:42 | a single constant factor equal to 2^64-1 has a constant size equal to `UnknownSize`, so the sentinel is ambiguous |
| Allocs.GetOrInsertSize | llvm-passes/4.0.0/Allocs.cpp:108-134 | `Changed` is set exactly when a multiplication is inserted, and a size value is always produced |
| Allocs.ProductAtConst | llvm-passes/4.0.0/Allocs.cpp:92-106 | on constant factors the run-time product equals the product computed at compile time, modulo 2^64 |
| Allocs.SizeDenotes | llvm-passes/4.0.0/Allocs.cpp:108-134 | in every run-time environment the value `getOrInsertSize` returns evaluates to the 64-bit product of the site's size factors |
| Allocs.GetFreedPointer | llvm-passes/4.0.0/Allocs.cpp:136-140 | the freed pointer of a free call is its argument 0 |
| Allocs.GetRellocatedPointer | llvm-passes/4.0.0/Allocs.cpp:142-145 | the moved pointer of a realloc call is its argument 0 |
| Allocs.ReallocPointerNotAFactor | llvm-passes/4.0.0/Allocs.cpp:17-49 | for a realloc site the factor argument is not argument 0 and the call has at least two arguments, so the moved pointer is never mistaken for a size |
| Allocs.TableFactors | llvm-passes/4.0.0/Allocs.cpp:70-90 | a recognised call has two size factors exactly for calloc and reallocarray, none exactly for the strdup family and one otherwise, each an argument of the call |
| AllocsAnalysis.RecordGlobals | llvm-passes/4.0.0/Allocs.cpp:173-176 | the globals loop stores one global site per global variable, in module order, under the null function |
| AllocsAnalysis.RecordFunction | llvm-passes/4.0.0/Allocs.cpp:182-185 | the instruction loop stores a site under the function's key for exactly the instructions `TryCreate` accepts |
| AllocsAnalysis.RecordFunctions | llvm-passes/4.0.0/Allocs.cpp:178-186 | the function loop constructs each function's list and fills it with the loop over its instructions |
| AllocsAnalysis.FreshRun | llvm-passes/4.0.0/Allocs.cpp:173-186 | on a fresh pass the map holds the globals' list first and then one list per function, in module order, each holding exactly the sites of that function's instructions |
| AllocsAnalysis.GlobalSitesFresh | llvm-passes/4.0.0/Allocs.cpp:176 | a global not yet visited has no entry in the globals' list, so each assignment adds a new entry |
| AllocsAnalysis.InstSitesFresh | llvm-passes/4.0.0/Allocs.cpp:184 | an instruction not yet visited has no entry in its function's list |
| AllocsAnalysis.FuncListsFresh | llvm-passes/4.0.0/Allocs.cpp:180 | a function not yet visited, and the null function, have no list among the functions' lists |
| AllocsAnalysis.FuncSitesOf | llvm-passes/4.0.0/Allocs.cpp:164-168 | a function without a list has no sites |
| AllocsAnalysis.FreshFuncSites | llvm-passes/4.0.0/Allocs.cpp:164-168 | after a fresh run `func_sites(nullptr)` yields the global sites, `func_sites(F)` the sites of F's instructions, and a function outside the module none |
| AllocsAnalysis.ListIterator.constructor | llvm-passes/4.0.0/include/builtin/Allocs.h:104-108 | a new iterator starts on the first value of the first non-empty list from `B`, or at the end when there is none |
| AllocsAnalysis.ListIterator.AdvanceToNextFunc | llvm-passes/4.0.0/include/builtin/Allocs.h:138-146 | from the end of a list the iterator moves over empty lists to the next value without skipping any, or stops at the end |
| AllocsAnalysis.ListIterator.Get | llvm-passes/4.0.0/include/builtin/Allocs.h:132 | dereferencing yields the value at the iterator's position in the flattened lists |
| AllocsAnalysis.ListIterator.Next | llvm-passes/4.0.0/include/builtin/Allocs.h:123-127 | `++` moves exactly one value forward in the flattened lists |
| AllocsAnalysis.EqualsIffSamePosition | llvm-passes/4.0.0/include/builtin/Allocs.h:115-120 | two iterators over the same map compare equal exactly when they stand at the same position |
| AllocsAnalysis.PrintSize | llvm-passes/4.0.0/Allocs.cpp:218-220 | one iteration of the debug loop: only allocations have their size printed, the strdup family and a call missing a size argument abort, and `Changed` becomes what `getOrInsertSize` reported |
| AllocsAnalysis.DebugSizes | llvm-passes/4.0.0/Allocs.cpp:188-224 | walking `sites()` with a `ListIterator` visits every site once, in order, and returns what the debug loop computes over them |
| AllocsAnalysis.DebugUpToStops | llvm-passes/4.0.0/Allocs.cpp:188-224 | once an iteration aborts, the rest of the debug loop does not change the result |
| AllocsAnalysis.AllocsPass.constructor | llvm-passes/4.0.0/include/builtin/Allocs.h:155 | a new pass has no sites |
| AllocsAnalysis.AllocsPass.RunOnModule | llvm-passes/4.0.0/Allocs.cpp:170-225 | the map becomes the old map with the module's sites recorded; without debug output the pass reports no change, with it the result of the debug loop |
| AllocsAnalysis.FixedFoldOk | llvm-passes/4.0.0/Allocs.cpp:188-224 | the corrected debug loop fails only when a sized allocation call lacks the size argument its table entry names |
| AllocsAnalysis.FixedFoldSpec | llvm-passes/4.0.0/Allocs.cpp:188-224 | the corrected debug loop reports a change exactly when some site needed a new multiplication |
| AllocsAnalysis.LastSiteDecides | llvm-passes/4.0.0/Allocs.cpp:219 | a calloc of two unknown sizes followed by `malloc(8)`: the loop as written reports no change although a multiplication was inserted; the corrected loop reports it |
| AllocsAnalysis.StrDupAborts | llvm-passes/4.0.0/Allocs.cpp:218-219 | a `strdup` site, which `TryCreate` accepts, makes the loop as written trip the assertion of `getOrInsertSize`; the corrected loop skips it |
| MemAccess.SizeConstant | llvm-passes/4.0.0/MemAccess.cpp:12-14 | the length constant `getInt` makes is a constant integer below 2^32, equal to the store size whenever that fits in 32 bits |
| MemAccess.ReadOf | llvm-passes/4.0.0/MemAccess.cpp:40-50 | `MemRead::Create` gives a valid read access exactly for loads, memory transfers, compare-exchanges and atomic read-modify-writes, of that instruction |
| MemAccess.WriteOf | llvm-passes/4.0.0/MemAccess.cpp:87-97 | `MemWrite::Create` gives a valid write access exactly for stores, memory intrinsics, compare-exchanges and atomic read-modify-writes, of that instruction |
| MemAccess.NewRead | llvm-passes/4.0.0/MemAccess.cpp:52-61 | the `MemRead(Instruction&)` constructor builds the same access as `MemRead::Create` |
| MemAccess.NewWrite | llvm-passes/4.0.0/MemAccess.cpp:99-108 | the `MemWrite(Instruction&)` constructor builds the same access as `MemWrite::Create` |
| MemAccess.GetInstruction | llvm-passes/4.0.0/include/builtin/MemAccess.h:28 | an access has an instruction exactly when it is valid, and it is the one it was made from |
| MemAccess.GetConstLength | llvm-passes/4.0.0/include/builtin/MemAccess.h:36 | the constant length is read exactly when the length is a constant integer; any other length trips the assertion of `cast<ConstantInt>` |
| MemAccess.ReadOrWrite | llvm-passes/4.0.0/include/builtin/MemAccess.h:32-39 | a created read is valid exactly for the reading instructions and a created write for the writing ones; a valid read is not a write and a valid write not a read |
| MemAccess.ReadsAndWrites | llvm-passes/4.0.0/MemAccess.cpp:40-97 | memory transfers and the two atomics both read and write, and calls, allocas and other instructions do neither |
| MemAccess.AtomicSameBytes | llvm-passes/4.0.0/MemAccess.cpp:26-38 | for an atomic instruction the read and the write cover the same pointer, length and alignment and differ only in the direction |
| MemAccess.TransferBothEnds | llvm-passes/4.0.0/MemAccess.cpp:23-24 | a memory transfer reads at its source and writes at its destination, with the same length and alignment |
| MemAccess.AccessLength | llvm-passes/4.0.0/MemAccess.cpp:16-85 | loads, stores and the atomics have a constant length equal to the store size modulo 2^32; memory intrinsics take the length operand as it is |
| MemAccess.ConstLengthNotReadable | llvm-passes/4.0.0/include/builtin/MemAccess.h:35-36 | a memcpy whose length is a constant other than an integer passes `hasConstLength` and still makes `getConstLength` trip its assertion |
| MemAccess.ConstIntLengthReadable | llvm-passes/4.0.0/include/builtin/MemAccess.h:35-36 | testing for a constant integer instead is exactly the condition under which `getConstLength` succeeds, and it implies `hasConstLength` |
| NoInstrument.Lookup | llvm-passes/4.0.0/Utils/NoInstrument.cpp:21 | `getFunction` finds the first function with the name, and none exactly when no function has it |
| NoInstrument.Find | llvm-passes/4.0.0/Utils/NoInstrument.cpp:54 | `StringRef::find` from a position returns the first occurrence at or after it, and `npos` exactly when there is none |
| NoInstrument.IsNoInstrument | llvm-passes/4.0.0/Utils/NoInstrument.cpp:47-57 | a value is a no-instrument helper exactly when it has a name that starts with the prefix, or starts with `_Z` and contains the prefix at or after position 2 |
| NoInstrument.ShouldInstrument | llvm-passes/4.0.0/Utils/NoInstrument.cpp:63-71 | a declaration is never instrumented, and a definition is exactly when it is not a no-instrument helper |
| NoInstrument.MarkedAfterSet | llvm-passes/4.0.0/Utils/NoInstrument.cpp:59-61 | a value renamed by `setNoInstrument` is a no-instrument helper, and its old name follows the prefix |
| NoInstrument.MangledMarked | llvm-passes/4.0.0/Utils/NoInstrument.cpp:52-54 | a mangled name that contains the prefix after `_Z` marks a helper |
| NoInstrument.PlainUnmarked | llvm-passes/4.0.0/Utils/NoInstrument.cpp:47-57 | a name that starts neither with the prefix nor with `_Z` is not a helper |
| NoInstrument.Created | llvm-passes/4.0.0/Utils/NoInstrument.cpp:8-16 | creating a helper appends one internal function with the prefixed name and the given type, marked always-inline when asked, and leaves the others alone |
| NoInstrument.StripAt | llvm-passes/4.0.0/Utils/NoInstrument.cpp:26-27 | stripping debug information changes only the function found, and only its debug information |
| NoInstrument.Got | llvm-passes/4.0.0/Utils/NoInstrument.cpp:18-29 | getting a helper fails with exit status 1 exactly when it is missing and not allowed to be; otherwise it returns the lookup and strips the debug information of a helper it found |
| NoInstrument.GotOrInserted | llvm-passes/4.0.0/Utils/NoInstrument.cpp:31-45 | an existing helper of another type ends the program with status 1; one of the right type is returned with its debug information stripped; a missing one is appended as an external declaration; the returned function has the type and is what a lookup of the name finds |
| NoInstrument.CreatedNotInstrumented | llvm-passes/4.0.0/Utils/NoInstrument.cpp:8-16 | a helper created with a non-empty name is never instrumented |
| NoInstrument.GotOrInsertedTwice | llvm-passes/4.0.0/Utils/NoInstrument.cpp:31-45 | asking for the same helper again returns the same function and leaves the module as it is |
| NoInstrument.GotAfterInsert | llvm-passes/4.0.0/Utils/NoInstrument.cpp:18-45 | after a successful get-or-insert, getting the helper with no allowance for a missing one succeeds and finds the same function |
| NoInstrument.IrModule.constructor | llvm-passes/4.0.0/Utils/NoInstrument.cpp:8 | a module holds the functions it is given |
| NoInstrument.IrModule.CreateNoInstrumentFunction | llvm-passes/4.0.0/Utils/NoInstrument.cpp:8-16 | the module's functions become `Created` of the old ones, and the new helper is the last one |
| NoInstrument.IrModule.GetNoInstrumentFunction | llvm-passes/4.0.0/Utils/NoInstrument.cpp:18-29 | result and module are as `Got` states |
| NoInstrument.IrModule.GetOrInsertNoInstrumentFunction | llvm-passes/4.0.0/Utils/NoInstrument.cpp:31-45 | result and module are as `GotOrInserted` states |
| NoInstrument.IrModule.SetNoInstrument | llvm-passes/4.0.0/Utils/NoInstrument.cpp:59-61 | only the renamed function changes, its name gains the prefix, and it is then a no-instrument helper |
| NoInstrumentLegacy.LegacyGot | llvm-passes/4.0.0/NoInstrument.cpp:17-26 | the older getter fails with exit status 1 exactly when the helper is missing and not allowed to be, and otherwise returns the lookup |
| NoInstrumentLegacy.LegacyGotOrInserted | llvm-passes/4.0.0/NoInstrument.cpp:28-32 | `getOrInsertFunction` returns an existing helper of the right type, appends an external declaration for a missing one, and on a type mismatch the `cast<Function>` of the bitcast it returns trips an assertion |
| NoInstrumentLegacy.GetNoInstrumentFunction | llvm-passes/4.0.0/NoInstrument.cpp:17-26 | the method returns what `LegacyGot` states and does not change the module |
| NoInstrumentLegacy.GetOrInsertNoInstrumentFunction | llvm-passes/4.0.0/NoInstrument.cpp:28-32 | result and module are as `LegacyGotOrInserted` states |
| NoInstrumentLegacy.GettersAgree | llvm-passes/4.0.0/NoInstrument.cpp:17-26 | the older and the newer getter find the same helper and fail on the same modules |
| NoInstrumentLegacy.GetOrInsertAgree | llvm-passes/4.0.0/NoInstrument.cpp:28-32 | the older and the newer get-or-insert succeed on the same modules with the same helper and leave modules equal up to debug information; on a type mismatch the newer exits where the older asserts |
| NoInstrumentLegacy.LegacyGotOrInsertedTwice | llvm-passes/4.0.0/NoInstrument.cpp:28-32 | asking the older version for the same helper again returns the same function and leaves the module as it is |
| CustomPass.Instrumented | llvm-passes/4.0.0/include/builtin/CustomFunctionPass.h:23-26 | the functions run are functions of the module that should be instrumented |
| CustomPass.InstrumentedComplete | llvm-passes/4.0.0/include/builtin/CustomFunctionPass.h:23-26 | every function of the module that should be instrumented is run |
| CustomPass.Calls | llvm-passes/4.0.0/include/builtin/CustomFunctionPass.h:24-25 | one `runOnFunction` call per function, in order |
| CustomPass.RunAllSpec | llvm-passes/4.0.0/include/builtin/CustomFunctionPass.h:23-26 | the loop's `|=` reports a change exactly when some instrumented function reported one |
| CustomPass.RunOnModule | llvm-passes/4.0.0/include/builtin/CustomFunctionPass.h:20-30 | the pass calls the initialisation, then `runOnFunction` on the instrumentable functions in module order, then the finalisation, and returns the OR of their results |
| CustomPass.ModuleChangedSpec | llvm-passes/4.0.0/include/builtin/CustomFunctionPass.h:20-30 | the pass reports a change exactly when the initialisation, the finalisation or some instrumented function did |
| CustomPass.DefaultHooks | llvm-passes/4.0.0/include/builtin/CustomFunctionPass.h:34-36 | with the default hooks the pass reports a change exactly when some instrumented function did |
| CustomPass.SkipsHelpers | llvm-passes/4.0.0/include/builtin/CustomFunctionPass.h:8-16 | declarations and no-instrument helpers are never run |
| Lto.PluginOpt | infra/instances/helpers/llvm_lto.py:3 | each LTO argument becomes the plugin-option flag followed by the argument unchanged |
| Lto.PluginOpts | infra/instances/helpers/llvm_lto.py:2-3 | one flag per argument, in order |
| Lto.AddLtoArgs | infra/instances/helpers/llvm_lto.py:1-3 | the linker flags gain one plugin-option flag per argument, appended in order, and nothing else changes |
| Lto.StatsPassName | infra/instances/helpers/llvm_lto.py:7-8 | the pass name always starts with '-': an existing '-' is kept and otherwise one is prepended |
| Lto.StatsPassNameIdempotent | infra/instances/helpers/llvm_lto.py:7-8 | normalising a pass name twice is the same as once |
| Lto.AddStatsPass | infra/instances/helpers/llvm_lto.py:6-10 | the linker flags gain the plugin-option flags of the pass, its `-stats-only` option and the extra arguments, in that order |
| Lto.StatsFlags | infra/instances/helpers/llvm_lto.py:10 | the stats flags are exactly two plus one per extra argument: the pass, `-stats-only=` with the same normalised pass, then the arguments in order |
| LlvmPasses.StripPrefix | packages/llvm_passes.py:6-7 | a name that starts with the prefix loses exactly the prefix; any other name is returned unchanged |
| LlvmPasses.New | packages/llvm_passes.py:11-16 | a new package keeps the LLVM, suffix and builtin choice; an empty source directory becomes no directory, and another one its absolute path |
| LlvmPasses.Ident | packages/llvm_passes.py:18-21 | the identity is `llvm-passes-` followed by the build suffix |
| LlvmPasses.BuiltinIdent | packages/llvm_passes.py:82-83 | the builtin passes are named `llvm-passes-builtin-<version>`, as a custom package with that suffix would be |
| LlvmPasses.IdentInjective | packages/llvm_passes.py:18-21 | packages with different build suffixes have different identities |
| LlvmPasses.Dependencies | packages/llvm_passes.py:29-32 | the LLVM package comes first, followed by the builtin passes exactly when a custom package uses them |
| LlvmPasses.BuiltinDependsOnLlvmOnly | packages/llvm_passes.py:82-83 | the builtin passes a custom package depends on depend on the same LLVM alone |
| LlvmPasses.Srcdir | packages/llvm_passes.py:23-27 | a custom package's directory is returned exactly when it is set and exists, with a `FatalError` naming it when it does not exist; the builtin passes live under `<infra>/llvm-passes/<version>` and the subdirectories |
| LlvmPasses.CustomStatus | packages/llvm_passes.py:53-60 | custom passes report fetched, and never built or installed, whatever is on disk |
| LlvmPasses.BuiltinStatus | packages/llvm_passes.py:89-95 | the builtin passes are built (installed) exactly when all three libraries exist in `obj/` (`install/`) |
| LlvmPasses.LibPathUnderRoot | packages/llvm_passes.py:76 | the library loaded is `<root>/<ident>/install/libpasses.so` |
| LlvmPasses.Configure | packages/llvm_passes.py:75-78 | `configure` appends `-flto` to the C flags and `-flto` with the plugin option loading the library to the linker flags, and changes nothing else |

## Left out

- Subprocesses and file I/O are not performed. This covers `util.run`, downloads, the fetch/build/install bodies of packages and targets, and the `runspec`, `make`, `patch` and `prun` invocations. They are recorded as events or left out. Whether a path exists and whether a program is on the search path are predicate parameters.
- Threads, pipes and timing are left out: the output tee thread, the epoll poller threads, the busy-wait sleeps and `wait_all`. A `_wait_for_queue_space` wait is modelled as the outcome `Blocked`, because the model has no concurrent job completion that could end it. Read buffers, exit statuses and the time in whole seconds are parameters.
- Floating point is left out. A value that `float()` accepts is kept as its text. `timediff_sec`, `reportfp`, the SPEC ratio and runtime parsing, and the `round` of elapsed times are not modelled.
- The argparse and argcomplete wiring, logging and colour setup, and directory creation in both setup scripts are left out, and so is `_run_pkg_config`, because these are command-line plumbing.
- `report_output` and `parse_rundirs` are left out, because they read SPEC result files and walk run directories on disk.
- The `_run_run` command of infra/setup.py is not modelled. The legacy `do_run` is modelled as `Setup.Setup.DoRun`.
- The package definition files are left out, because they only run external build tools: gnu, llvm, prelink, patchelf, pyelftools, ninja, python, shrinkaddrspace, wrk2, tools and infra/packages/llvm_passes. So are infra/targets/webservers.py and the documentation helpers.
- Instance, package and target equality is datatype equality of their class and identity. The instance classes themselves are not modelled.
- `Package.path` and `Target.path` use `os.path.join`. `abspath` is a join with the working directory, which is a parameter, and `normpath` is not modelled.
- Python's `str.isdigit`, and the `\d` and `\w` classes of `re`, also accept non-ASCII digits and letters. The model accepts ASCII only.
- Strs.ParseInt: accepts ASCII digits only, with whitespace as `str.isspace` has it. Python's `int()` also accepts the other Unicode decimal digits.
- Deps.Walk: the 'recursive dependency' message leaves out the object `'%s' % dep` appends (infra/setup.py:402). No package, target or instance class defines `__str__` or `__repr__`, so Python prints its default representation, which holds a memory address the model does not have.
- Deps.DepWalker.AddDep: its error message leaves out the object, for the reason given for `Deps.Walk`.
- Deps.WalkErrIsRecursive: states the message without the object, for the reason given for `Deps.Walk`.
- Deps.WalkAllErrIsRecursive: states the message without the object, for the reason given for `Deps.Walk`.
- `_unindent` is modelled once, as `Unindent`. Its three copies, in infra/targets/spec2006/__init__.py:473-478, infra/report/runner.py:219-224 and infra/report.py:185-190, are the same code.
- In prun.py the jobs' `output` attribute is never set, and the model starts it empty.
- PrunLegacy.LegacyPool.Run: assumes the `run` of infra/util.py, the only one whose parameters fit the calls at prun.py:126 and prun.py:149. With it, `defer=True` adds a `stdout` pipe only when the caller passed none. The `run(cmd, *args, **kwargs)` of the util.py beside prun.py would raise TypeError at either call.
- Namespaces.Namespace.GetAttr: treats dunder names such as `__class__` as keys. Which of these normal lookup finds depends on the Python version.
- LLVM's IR APIs are abstracted:
  - `IRBuilder::CreateMul` is a `NewMul` size value.
  - `DataLayout` store sizes and alignments are numbers carried by the instructions.
  - `dbgs()` output is not produced.
  - `stripDebugInfo` clears a debug-information flag.
  - `getSizeSCEV`, `getEndSCEV`, `getAnalysisUsage`, `getAllocSite`, `findAllocSite` and `freeSites` are left out. They depend on ScalarEvolution or only manage memory.
- `AllocsPass::global_sites` is `func_sites(nullptr)`, which `AllocsAnalysis.FreshFuncSites` covers.
- `FuncSites` is a `DenseMap`, which iterates in hash order. The model iterates it in insertion order, so `sites()` visits the functions in module order.
- `AllocSite::TryCreate` never builds a stack (`Alloca`) site, and neither does the pass. The model keeps the stack branch of `getSizeFactors`, and no modelled operation reaches it.
- `AllocInfo::IsWrapper` is always false in the table. Custom wrappers, a TODO in `runOnModule`, do not exist.
- `Function::Create` renames a function whose name is already taken. The model does not make names unique.
- `NOINSTRUMENT_PREFIX` is defined in a header that is not part of this model, so it is a parameter.
- `MemAccess.h` declares `MemRead::TryCreate` and `MemWrite::TryCreate`, but `MemAccess.cpp` defines `Create`. The model follows the definitions.
- `MemAccess::collect` is declared, but its body is not part of this model.
- A default-constructed `MemAccess` leaves every field but the instruction uninitialised. The model gives such an access no fields.
- `getInt` builds its constant from an `unsigned` argument, so a store size is truncated modulo 2^32. The model keeps this truncation.
- The older `NoInstrument.cpp` defines `createNoInstrumentFunction`, `isNoInstrument`, `setNoInstrument` and `shouldInstrument` with the same code as `Utils/NoInstrument.cpp`. They are modelled once, in `NoInstrument`.
- `shouldInstrument` in CustomFunctionPass.h is the same test as `NoInstrument.ShouldInstrument`, and `CustomPass` uses that one.
- `CustomFunctionPass`'s three hooks are parameters. These are `doInitialization`, `runOnFunction` and `doFinalization`.
- Allocs.SizeFactors: its own contract bounds the number of factors and fixes a global's factor. Which arguments a table call contributes is stated by `Allocs.TableFactors`, and what the factors mean by `Allocs.SizeDenotes`.
- `str.format` is modelled for its keyword-argument fields only. A field's conversion or format spec (`{x!r}`, `{x:>8}`) and attribute or index access (`{a.b}`, `{a[0]}`) are read as part of the field's name. The locals `run` passes hold only the names its templates use.
- Spec2006.Run: for run arguments with a `{`, or with a `}` that follows another `}`, what `run` raises or runs follows from its definition through `PyFormat.Format`, but no lemma states it. `Spec2006.RunLoneClose` covers a lone `}`, and `Spec2006.RunCommandsDirect` and `Spec2006.RunCommandsPooled` cover text without braces.
- A character of a read buffer stands for one byte. The ASCII decode of infra/parallel.py:200 and :237 is modelled as `Pools.Ascii`.
- PrunLegacy.AfterOutput: takes the read already decoded. prun.py:156 decodes it as UTF-8, which raises UnicodeDecodeError on bytes that are not UTF-8. The model has no byte-level UTF-8 decoder.
- PrunLegacy.LegacyPool.ProcessJobOutput: takes the read already decoded, for the same reason as `PrunLegacy.AfterOutput`.
- PrunLegacy.LegacyPool.HandleEvent: takes the read already decoded, for the same reason as `PrunLegacy.AfterOutput`.
- The poller watches exactly the queued descriptors: `run` registers each job it queues, and the poller unregisters a descriptor just before it pops the job. A pop for an unknown descriptor therefore fails at `unregister`, with FileNotFoundError.
- The post-build hooks are assumed not to change the working directory themselves. Only the `os.chdir` before each call moves it.
- `PrunScheduler` and `Target.run_parallel`, which the legacy `run --prun` uses, are not part of this model. A pair run that way is recorded as a `RunTarget` event that carries the scheduler's arguments.

## Findings

| source | as written | input that shows it | evidently intended | confidence | as-written member | corrected member |
|---|---|---|---|---|---|---|
| infra/parallel.py:135-146 | `run` makes every job of the call with `list(make_jobs(...))` before it registers any of them. Each `_wait_for_queue_space` therefore sees only the jobs registered before the call. | A process pool with `--parallelmax 1`, an empty queue and `nnodes = 2`: both jobs pass the wait and start, giving two running jobs | Each job counts against the limit of the next, as in prun.py:83-91, where jobs are registered as the generator yields them | not executed | Pools.EagerOverfills | PrunLegacy.LazyKeepsBound |
| prun.py:93-106 | `onsuccess`/`onerror` log only when there is no callback or the callback returns exactly `False` | A success callback that returns `None`, as most do: the log line is suppressed | Log unless the callback returns `False`, as the comment says and infra/parallel.py:150-163 does | not executed | PrunLegacy.InvertedLogRule | Pools.ShouldLogRule |
| prun.py:83-127 | A `ProcessPool` (prun.py:124-127) passes the opened output file as `stdout`, so the process has no `stdout` pipe, and `self.jobs[job.stdout.fileno()]` at prun.py:89 raises AttributeError | Any process-pool `run` with `nnodes >= 1` and queue space: `running <jobid>-0` is logged, then AttributeError, and no job is registered or watched | Each job reads its output through a pipe, and the pool writes it to the output file, as infra/parallel.py:171-201 does | not executed | PrunLegacy.ProcessRunStopsFirst | PrunLegacy.LegacyPool.RunPiped |
| llvm-passes/4.0.0/Allocs.cpp:188-224 | Every call of `getOrInsertSize(&Changed)` first sets `*Changed = false` (lines 111-112). So `runOnModule` reports only whether the last printed allocation inserted a multiplication. | With `-allocs-debug`: `calloc(x, y)` with unknown `x`, `y`, followed by `malloc(8)`. A multiplication is inserted, and the pass returns false. | Return true when any multiplication was inserted | not executed | AllocsAnalysis.LastSiteDecides | AllocsAnalysis.FixedFoldSpec |
| llvm-passes/4.0.0/Allocs.cpp:218-219 | The debug loop calls `getOrInsertSize` on every allocation site. Its assertion at line 109 rejects the `strdup` family, which `TryCreate` accepts. | With `-allocs-debug`: a module that calls `strdup(p)` trips the assertion | Skip the size, or handle it, for `strdup` sites | not executed | AllocsAnalysis.StrDupAborts | AllocsAnalysis.FixedFoldOk |
| llvm-passes/4.0.0/include/builtin/MemAccess.h:35-36 | `hasConstLength` tests `isa<Constant>`, while `getConstLength` does `cast<ConstantInt>` | A `memcpy` whose length is a constant that is not an integer constant, such as `undef` or a constant expression: `hasConstLength` holds and `getConstLength` trips the cast's assertion | `hasConstLength` tests `isa<ConstantInt>` | not executed | MemAccess.ConstLengthNotReadable | MemAccess.ConstIntLengthReadable |
