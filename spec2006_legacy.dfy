/**
 * The older SPEC CPU2006 target of targets/spec2006/__init__.py: the
 * constructor's check that exactly one source is given, the built-in table
 * of benchmark sets, the sorted build list, the `runspec` command and the
 * generated configuration file.
 *
 * Benchmarks are named `<number>.<name>`; the table is kept here as the
 * benchmark numbers of each set, and a benchmark's full name is printed from
 * its number and its short name.
 */
module SpecLegacy {

  import opened Wrappers
  import Strs
  import Shell
  import Infra = Spec2006

  /** Python truthiness of an optional string argument: given and non-empty. */
  predicate Truthy(o: Option<string>)
  {
    o.Some? && o.value != ""
  }

  datatype Spec2006 = Spec2006(specdir: Option<string>, giturl: Option<string>, patches: seq<string>)

  /** `SPEC2006(specdir, giturl, patches)`: exactly one of `specdir` and `giturl` must be given. */
  function New(specdir: Option<string>, giturl: Option<string>, patches: seq<string>): (r: Result<Spec2006>)
    ensures r.Ok? <==> Truthy(specdir) != Truthy(giturl)
    ensures !Truthy(specdir) && !Truthy(giturl) ==> r == Err(FatalError("should specify one of specdir or giturl"))
    ensures Truthy(specdir) && Truthy(giturl) ==> r == Err(FatalError("cannot specify specdir AND giturl"))
    ensures r.Ok? ==> r.value == Spec2006(specdir, giturl, patches)
  {
    if !Truthy(specdir) && !Truthy(giturl) then Err(FatalError("should specify one of specdir or giturl"))
    else if Truthy(specdir) && Truthy(giturl) then Err(FatalError("cannot specify specdir AND giturl"))
    else Ok(Spec2006(specdir, giturl, patches))
  }

  /** The benchmark sets `--spec2006-benchmarks` selects when none are given. */
  const DefaultBenchmarks: seq<string> := ["c", "c++"]

  // ---------------------------------------------------------------------
  // The benchmark table.

  function IntIds(): seq<int>
  {
    [400, 401, 403, 429, 445, 456, 458, 462, 464, 471, 473, 483]
  }

  function FpIds(): seq<int>
  {
    [410, 416, 433, 434, 435, 436, 437, 444, 447, 450, 453, 454, 459, 465, 470, 481, 482]
  }

  function CIds(): seq<int>
  {
    [400, 401, 403, 429, 433, 445, 456, 458, 462, 464, 470, 482]
  }

  function CppIds(): seq<int>
  {
    [444, 447, 450, 453, 471, 473, 483]
  }

  function FortranIds(): seq<int>
  {
    [410, 416, 434, 435, 436, 437, 454, 459, 465, 481]
  }

  /** The name after the number of each SPEC CPU2006 benchmark. */
  function ShortName(id: int): string
  {
    match id
    case 400 => "perlbench"
    case 401 => "bzip2"
    case 403 => "gcc"
    case 410 => "bwaves"
    case 416 => "gamess"
    case 429 => "mcf"
    case 433 => "milc"
    case 434 => "zeusmp"
    case 435 => "gromacs"
    case 436 => "cactusADM"
    case 437 => "leslie3d"
    case 444 => "namd"
    case 445 => "gobmk"
    case 447 => "dealII"
    case 450 => "soplex"
    case 453 => "povray"
    case 454 => "calculix"
    case 456 => "hmmer"
    case 458 => "sjeng"
    case 459 => "GemsFDTD"
    case 462 => "libquantum"
    case 464 => "h264ref"
    case 465 => "tonto"
    case 470 => "lbm"
    case 471 => "omnetpp"
    case 473 => "astar"
    case 481 => "wrf"
    case 482 => "sphinx3"
    case 483 => "xalancbmk"
    case _ => ""
  }

  /** The full benchmark name, such as `400.perlbench`. */
  function Name(id: int): string
  {
    Strs.IntToString(id) + "." + ShortName(id)
  }

  /** The full names of a list of benchmark numbers, in order. */
  function Names(ids: seq<int>): seq<string>
  {
    seq(|ids|, k requires 0 <= k < |ids| => Name(ids[k]))
  }

  /** The names of the sets the class body puts in `benchmarks` before the singletons. */
  predicate IsSetName(s: string)
  {
    s == "int" || s == "fp" || s == "c" || s == "c++" || s == "fortran" || s == "all"
  }

  /** `all` is `sorted(benchmarks['int'] + benchmarks['fp'])`. */
  predicate IsAll(all: seq<string>)
  {
    Strs.Sorted(all) && multiset(all) == multiset(Names(IntIds()) + Names(FpIds()))
  }

  /** A printed number holds no '.'. */
  lemma NumberNoDot(id: int)
    ensures forall k :: 0 <= k < |Strs.IntToString(id)| ==> Strs.IntToString(id)[k] != '.'
  {
    var d := Strs.NatToString(if id < 0 then -id else id);
    assert forall k :: 0 <= k < |d| ==> Strs.IsDigit(d[k]);
    if id < 0 {
      assert forall k :: 1 <= k < |Strs.IntToString(id)| ==> Strs.IntToString(id)[k] == d[k - 1];
    }
  }

  /** In a name the first '.' follows the number. */
  lemma NameDot(id: int)
    ensures var d := Strs.IntToString(id);
      && |Name(id)| > |d| && Name(id)[|d|] == '.' && Name(id)[..|d|] == d
      && forall k :: 0 <= k < |d| ==> Name(id)[k] != '.'
  {
    var d := Strs.IntToString(id);
    NumberNoDot(id);
    assert forall k :: 0 <= k < |d| ==> Name(id)[k] == d[k];
  }

  /** Different benchmark numbers give different names. */
  lemma NameInjective(a: int, b: int)
    ensures Name(a) == Name(b) <==> a == b
  {
    if Name(a) == Name(b) {
      var s, t := Strs.IntToString(a), Strs.IntToString(b);
      NameDot(a);
      NameDot(b);
      assert |s| == |t|;
      assert s == t;
      Strs.ParseIntRoundTrip(a);
      Strs.ParseIntRoundTrip(b);
    }
  }

  /** Names of distinct numbers are distinct. */
  lemma NamesDistinct(ids: seq<int>)
    requires Strs.NoDuplicates(ids)
    ensures Strs.NoDuplicates(Names(ids))
  {
    forall i, j | 0 <= i < j < |ids| ensures Names(ids)[i] != Names(ids)[j] {
      NameInjective(ids[i], ids[j]);
    }
  }

  lemma {:induction false} NamesAppend(a: seq<int>, b: seq<int>)
    ensures Names(a + b) == Names(a) + Names(b)
  {
    assert |Names(a + b)| == |Names(a) + Names(b)|;
    forall k | 0 <= k < |a + b| ensures Names(a + b)[k] == (Names(a) + Names(b))[k] {
      if k < |a| { assert (a + b)[k] == a[k]; } else { assert (a + b)[k] == b[k - |a|]; }
    }
  }

  /** A name in the list is the name of a number in the list, and back. */
  lemma NamesMember(ids: seq<int>, b: string)
    ensures b in Names(ids) <==> exists id :: id in ids && b == Name(id)
  {
    if b in Names(ids) {
      var k :| 0 <= k < |ids| && Names(ids)[k] == b;
      assert ids[k] in ids;
    }
    if exists id :: id in ids && b == Name(id) {
      var id :| id in ids && b == Name(id);
      var k :| 0 <= k < |ids| && ids[k] == id;
      assert Names(ids)[k] == b;
    }
  }

  /** Every full name holds a '.', which none of the set names does. */
  lemma NameNotSetName(id: int)
    ensures !IsSetName(Name(id))
  {
    NameDot(id);
    assert '.' in Name(id);
  }

  /** The names of a list of numbers covered by another are among the other's names. */
  lemma NamesSubset(sub: seq<int>, ids: seq<int>)
    requires forall x :: x in sub ==> x in ids
    ensures forall b :: b in Names(sub) ==> b in Names(ids)
  {
    forall b | b in Names(sub) ensures b in Names(ids) {
      NamesMember(sub, b);
      NamesMember(ids, b);
    }
  }

  // Facts about the number lists, each on the literals alone.

  predicate Increasing(s: seq<int>)
  {
    forall k :: 0 <= k < |s| - 1 ==> s[k] < s[k + 1]
  }

  lemma {:induction false} IncreasingDistinct(s: seq<int>)
    requires Increasing(s)
    ensures forall i, j :: 0 <= i < j < |s| ==> s[i] < s[j]
    decreases |s|
  {
    if |s| > 1 {
      IncreasingDistinct(s[1..]);
      forall i, j | 0 <= i < j < |s| ensures s[i] < s[j] {
        if i > 0 { assert s[i] == s[1..][i - 1] && s[j] == s[1..][j - 1]; }
        else if j > 1 { assert s[1] == s[1..][0] && s[j] == s[1..][j - 1]; }
      }
    }
  }

  /** One of the integer benchmarks. */
  predicate IsIntId(id: int)
  {
    id == 400 || id == 401 || id == 403 || id == 429 || id == 445 || id == 456 || id == 458 || id == 462
    || id == 464 || id == 471 || id == 473 || id == 483
  }

  lemma IntIdsFacts()
    ensures Increasing(IntIds()) && forall k :: 0 <= k < |IntIds()| ==> IsIntId(IntIds()[k])
  {
  }

  lemma FpIdsFacts()
    ensures Increasing(FpIds()) && forall k :: 0 <= k < |FpIds()| ==> !IsIntId(FpIds()[k])
  {
  }

  lemma LanguageIdsCovered()
    ensures forall x :: x in CIds() ==> x in IntIds() + FpIds()
    ensures forall x :: x in CppIds() ==> x in IntIds() + FpIds()
    ensures forall x :: x in FortranIds() ==> x in IntIds() + FpIds()
  {
  }

  /** Two increasing lists told apart by `IsIntId` have no number in common. */
  lemma DistinctConcat(a: seq<int>, b: seq<int>)
    requires Increasing(a) && Increasing(b)
    requires (forall k :: 0 <= k < |a| ==> IsIntId(a[k])) && (forall k :: 0 <= k < |b| ==> !IsIntId(b[k]))
    ensures Strs.NoDuplicates(a + b)
  {
    IncreasingDistinct(a);
    IncreasingDistinct(b);
    forall i, j | 0 <= i < j < |a + b| ensures (a + b)[i] != (a + b)[j] {
      if j < |a| { assert (a + b)[i] == a[i] && (a + b)[j] == a[j]; }
      else if i >= |a| { assert (a + b)[i] == b[i - |a|] && (a + b)[j] == b[j - |a|]; }
      else { assert IsIntId((a + b)[i]) && !IsIntId((a + b)[j]); }
    }
  }

  /**
   * A sorted rearrangement of the concatenation of two lists that hold no
   * string twice holds each string once, in strictly increasing order, and
   * the two lists have nothing in common.
   */
  lemma SortedDistinctConcat(a: seq<string>, b: seq<string>, all: seq<string>)
    requires Strs.NoDuplicates(a + b) && Strs.Sorted(all) && multiset(all) == multiset(a + b)
    ensures && |all| == |a| + |b| && Strs.StrictlySorted(all)
            && (forall x :: x in all <==> x in a || x in b)
            && (forall x :: x in a ==> x !in b)
  {
    var xs := a + b;
    Strs.NoDuplicatesOfPermutation(all, xs);
    Strs.SortedDistinct(all);
    assert |all| == |multiset(all)| == |multiset(xs)| == |xs|;
    forall x ensures x in all <==> x in xs {
      assert x in all <==> x in multiset(all);
      assert x in xs <==> x in multiset(xs);
    }
    forall x | x in a ensures x !in b {
      var i :| 0 <= i < |a| && a[i] == x;
      forall j | 0 <= j < |b| ensures b[j] != x {
        assert xs[i] == x && xs[|a| + j] == b[j];
      }
    }
  }

  lemma AllIdsDistinct()
    ensures Strs.NoDuplicates(IntIds() + FpIds())
  {
    IntIdsFacts();
    FpIdsFacts();
    DistinctConcat(IntIds(), FpIds());
  }

  lemma AllNamesDistinct()
    ensures Strs.NoDuplicates(Names(IntIds()) + Names(FpIds()))
  {
    AllIdsDistinct();
    NamesDistinct(IntIds() + FpIds());
    NamesAppend(IntIds(), FpIds());
  }

  /** A list of numbers covered by two others has its names among theirs. */
  lemma NamesCovered(sub: seq<int>, a: seq<int>, b: seq<int>)
    requires forall x :: x in sub ==> x in a + b
    ensures forall n :: n in Names(sub) ==> n in Names(a) || n in Names(b)
  {
    NamesAppend(a, b);
    NamesSubset(sub, a + b);
  }

  lemma LanguagesInAll()
    ensures forall b :: b in Names(CIds()) || b in Names(CppIds()) || b in Names(FortranIds()) ==>
      b in Names(IntIds()) || b in Names(FpIds())
  {
    LanguageIdsCovered();
    NamesCovered(CIds(), IntIds(), FpIds());
    NamesCovered(CppIds(), IntIds(), FpIds());
    NamesCovered(FortranIds(), IntIds(), FpIds());
  }

  /**
   * The integer and floating-point sets are disjoint, so `all` lists 29
   * distinct benchmarks in strictly increasing order, and the C, C++ and
   * Fortran sets are all part of it.
   */
  lemma AllTable(all: seq<string>)
    requires IsAll(all)
    ensures |all| == 29 && Strs.StrictlySorted(all)
    ensures forall b :: b in all <==> b in Names(IntIds()) || b in Names(FpIds())
    ensures forall b :: b in Names(IntIds()) ==> b !in Names(FpIds())
    ensures forall b :: b in Names(CIds()) || b in Names(CppIds()) || b in Names(FortranIds()) ==> b in all
  {
    AllNamesDistinct();
    SortedDistinctConcat(Names(IntIds()), Names(FpIds()), all);
    LanguagesInAll();
  }

  /** No benchmark of `all` is named like a set. */
  lemma AllNotSetNames(all: seq<string>)
    requires IsAll(all)
    ensures forall b :: b in all ==> !IsSetName(b)
  {
    AllTable(all);
    forall b | b in all ensures !IsSetName(b) {
      NamesAppend(IntIds(), FpIds());
      NamesMember(IntIds() + FpIds(), b);
      var id :| id in IntIds() + FpIds() && b == Name(id);
      NameNotSetName(id);
    }
  }

  /** The class body's loop: every name gets the singleton set of itself; other entries stay. */
  method AddSingletons(table: map<string, seq<string>>, names: seq<string>) returns (t: map<string, seq<string>>)
    ensures forall s :: s in t <==> s in table || s in names
    ensures forall s :: s in table && s !in names ==> t[s] == table[s]
    ensures forall b :: b in names ==> t[b] == [b]
  {
    t := table;
    for k := 0 to |names|
      invariant forall s :: s in t <==> s in table || s in names[..k]
      invariant forall s :: s in table && s !in names[..k] ==> t[s] == table[s]
      invariant forall b :: b in names[..k] ==> t[b] == [b]
    {
      assert names[..k + 1] == names[..k] + [names[k]];
      t := t[names[k] := [names[k]]];
    }
    assert names[..|names|] == names;
  }

  /**
   * The class body's `benchmarks` table: the five language and suite sets,
   * then `all`, then one singleton set per benchmark of `all`.  The six
   * sets keep their lists, since no benchmark is named like a set.
   */
  method BuildTable() returns (table: map<string, seq<string>>)
    ensures && "int" in table && table["int"] == Names(IntIds())
            && "fp" in table && table["fp"] == Names(FpIds())
            && "c" in table && table["c"] == Names(CIds())
            && "c++" in table && table["c++"] == Names(CppIds())
            && "fortran" in table && table["fortran"] == Names(FortranIds())
            && "all" in table && IsAll(table["all"])
    ensures forall s :: s in table <==> IsSetName(s) || s in table["all"]
    ensures forall b :: b in table["all"] ==> table[b] == [b]
  {
    var all := Strs.Sort(Names(IntIds()) + Names(FpIds()));
    AllNotSetNames(all);
    table := TableOf(Names(IntIds()), Names(FpIds()), Names(CIds()), Names(CppIds()), Names(FortranIds()), all);
  }

  /** The same table for any five lists of benchmarks and their sorted union `all`. */
  method TableOf(ints: seq<string>, fps: seq<string>, cs: seq<string>, cpps: seq<string>, fors: seq<string>,
                 all: seq<string>)
    returns (table: map<string, seq<string>>)
    requires forall b :: b in all ==> !IsSetName(b)
    ensures && "int" in table && table["int"] == ints
            && "fp" in table && table["fp"] == fps
            && "c" in table && table["c"] == cs
            && "c++" in table && table["c++"] == cpps
            && "fortran" in table && table["fortran"] == fors
            && "all" in table && table["all"] == all
    ensures forall s :: s in table <==> IsSetName(s) || s in all
    ensures forall b :: b in all ==> table[b] == [b]
  {
    var sets := map["int" := ints, "fp" := fps, "c" := cs, "c++" := cpps, "fortran" := fors, "all" := all];
    assert forall s :: s in sets <==> IsSetName(s);
    table := AddSingletons(sets, all);
  }

  // ---------------------------------------------------------------------
  // build: patches and the list of benchmarks to build

  /** The patches `build` applies, in order: a bare name is a patch next to this target. */
  function PatchPaths(configRoot: string, patches: seq<string>): (r: seq<string>)
    ensures |r| == |patches|
    ensures forall k :: 0 <= k < |patches| ==> r[k] == Infra.PatchPath(configRoot, patches[k])
  {
    if |patches| == 0 then [] else PatchPaths(configRoot, patches[..|patches| - 1]) + [Infra.PatchPath(configRoot, patches[|patches| - 1])]
  }

  /** The lists of the requested sets, one after the other. */
  function Concat(table: map<string, seq<string>>, bsets: seq<string>): seq<string>
    requires forall i :: 0 <= i < |bsets| ==> bsets[i] in table
  {
    if |bsets| == 0 then [] else Concat(table, bsets[..|bsets| - 1]) + table[bsets[|bsets| - 1]]
  }

  /** A benchmark is in the concatenation exactly when some requested set lists it. */
  lemma {:induction false} ConcatMembers(table: map<string, seq<string>>, bsets: seq<string>, b: string)
    requires forall i :: 0 <= i < |bsets| ==> bsets[i] in table
    ensures b in Concat(table, bsets) <==> exists i :: 0 <= i < |bsets| && b in table[bsets[i]]
    decreases |bsets|
  {
    if |bsets| > 0 {
      var init := bsets[..|bsets| - 1];
      ConcatMembers(table, init, b);
      assert forall i :: 0 <= i < |init| ==> init[i] == bsets[i];
    }
  }

  /** Each requested set adds all of its entries: a benchmark two sets list is counted twice. */
  lemma {:induction false} ConcatCounts(table: map<string, seq<string>>, bsets: seq<string>, i: int, j: int, b: string)
    requires forall k :: 0 <= k < |bsets| ==> bsets[k] in table
    requires 0 <= i < j < |bsets| && b in table[bsets[i]] && b in table[bsets[j]]
    ensures multiset(Concat(table, bsets))[b] >= 2
    decreases |bsets|
  {
    var init := bsets[..|bsets| - 1];
    assert forall k :: 0 <= k < |init| ==> init[k] == bsets[k];
    if j < |bsets| - 1 {
      ConcatCounts(table, init, i, j, b);
    } else {
      ConcatMembers(table, init, b);
      assert b in table[init[i]];
      assert b in multiset(Concat(table, init));
    }
  }

  /**
   * `build`'s list of benchmarks: the lists of the requested sets
   * concatenated and sorted, so a benchmark that two requested sets list
   * is built twice.  An unknown set name is a `KeyError`.
   */
  method BuildList(table: map<string, seq<string>>, bsets: seq<string>) returns (r: Result<seq<string>>)
    ensures r.Ok? <==> forall i :: 0 <= i < |bsets| ==> bsets[i] in table
    ensures r.Err? ==> exists i :: 0 <= i < |bsets| && bsets[i] !in table && r.error == KeyError(bsets[i])
                         && forall j :: 0 <= j < i ==> bsets[j] in table
    ensures r.Ok? ==> Strs.Sorted(r.value) && multiset(r.value) == multiset(Concat(table, bsets))
  {
    var benchmarks: seq<string> := [];
    for i := 0 to |bsets|
      invariant forall j :: 0 <= j < i ==> bsets[j] in table
      invariant benchmarks == Concat(table, bsets[..i])
    {
      if bsets[i] !in table {
        return Err(KeyError(bsets[i]));
      }
      assert bsets[..i + 1][..i] == bsets[..i];
      benchmarks := benchmarks + table[bsets[i]];
    }
    assert bsets[..|bsets|] == bsets;
    var sorted := Strs.Sort(benchmarks);
    r := Ok(sorted);
  }

  /**
   * With the built-in table, `--spec2006-benchmarks int c` builds
   * 400.perlbench twice: an illustration on one input of `BuildList`'s contract.
   */
  lemma IntAndCBuildTwice(table: map<string, seq<string>>)
    requires "int" in table && table["int"] == Names(IntIds()) && "c" in table && table["c"] == Names(CIds())
    ensures multiset(Concat(table, ["int", "c"]))[Name(400)] >= 2
  {
    var bsets := ["int", "c"];
    assert Names(IntIds())[0] == Name(400) && Names(CIds())[0] == Name(400);
    ConcatCounts(table, bsets, 0, 1, Name(400));
  }

  // ---------------------------------------------------------------------
  // runspec

  /** The command `runspec` hands to the shell after entering the installed tree. */
  function RunspecCommand(config: string, action: string, args: seq<string>): string
  {
    "killwrap_tree" + " " + ("runspec" + " " + ("--config=" + ("\"" + (config + ("\"" + (" " + ("--action=" + action + (" " + Shell.QJoin(args)))))))))
  }

  /** `runspec(ctx, config, action, *args)`: the `bash -c` command it runs. */
  function RunspecArgv(path: string, configRoot: string, config: string, action: string, args: seq<string>): seq<string>
  {
    ["bash", "-c",
     "cd " + path + "/install;" + "source shrc;" + "source \"" + configRoot + "/scripts/kill-tree-on-interrupt.inc\";"
     + RunspecCommand(config, action, args)]
  }

  /** The command runs in `<path>/install`, after the prelude. */
  lemma RunspecArgvShape(path: string, configRoot: string, config: string, action: string, args: seq<string>)
    ensures var argv := RunspecArgv(path, configRoot, config, action, args);
      && |argv| == 3 && argv[0] == "bash" && argv[1] == "-c"
      && Strs.StartsWith(argv[2], "cd " + path + "/install;")
      && Strs.EndsWith(argv[2], RunspecCommand(config, action, args))
  {
    var pre := "cd " + path + "/install;" + "source shrc;" + "source \"" + configRoot + "/scripts/kill-tree-on-interrupt.inc\";";
    var start := "cd " + path + "/install;";
    var c := RunspecCommand(config, action, args);
    var line := RunspecArgv(path, configRoot, config, action, args)[2];
    assert line == pre + c;
    assert pre[..|start|] == start;
    assert line[..|start|] == start;
    assert line[|line| - |c|..] == c;
  }

  /** Safe characters the three fixed words are made of. */
  lemma FixedSafe()
    ensures Shell.AllSafe("killwrap_tree") && Shell.AllSafe("runspec") && Shell.AllSafe("--config=")
  {
  }

  /**
   * The words the shell reads from the command: `killwrap_tree runspec`,
   * the configuration without its quotes, the action, then the arguments
   * exactly as given.
   */
  lemma RunspecWords(config: string, action: string, args: seq<string>)
    requires '"' !in config && '\\' !in config
    requires Shell.AllSafe(action)
    ensures Shell.Split(RunspecCommand(config, action, args))
            == Ok(["killwrap_tree", "runspec", "--config=" + config, "--action=" + action] + args)
  {
    FixedSafe();
    var act := "--action=" + action;
    var rest := act + (" " + Shell.QJoin(args));
    var tail := " " + rest;
    var cfg := "--config=" + config;
    var r2 := "--config=" + ("\"" + (config + ("\"" + tail)));
    var r1 := "runspec" + " " + r2;
    ActionWords(action, args);
    Shell.LexSpace(rest, cfg);
    QuotedConfig(config, tail);
    assert Shell.Split(r2) == Ok([cfg] + ([act] + args));
    Shell.LexSafeWord("runspec", r2);
    Shell.LexSafeWord("killwrap_tree", r1);
    assert ["killwrap_tree"] + (["runspec"] + ([cfg] + ([act] + args))) == ["killwrap_tree", "runspec", cfg, act] + args;
  }

  /** The action word and the quoted arguments after it. */
  lemma ActionWords(action: string, args: seq<string>)
    requires Shell.AllSafe(action)
    ensures Shell.Split("--action=" + action + (" " + Shell.QJoin(args))) == Ok(["--action=" + action] + args)
  {
    FixedSafe();
    var act := "--action=" + action;
    assert Shell.AllSafe(act) by {
      forall k | 0 <= k < |act| ensures Shell.IsSafe(act[k]) {
        if k >= 9 { assert act[k] == action[k - 9]; }
      }
    }
    Shell.LexSafe(act, " " + Shell.QJoin(args), "", false);
    assert "" + act == act;
    Shell.LexThenQJoin(act, args);
  }

  /** `--config="<config>"` reads as one word so far, the quotes removed. */
  lemma QuotedConfig(config: string, tail: string)
    requires '"' !in config && '\\' !in config
    ensures Shell.Split("--config=" + ("\"" + (config + ("\"" + tail))))
         == Shell.Lex(tail, "--config=" + config, true, Shell.Plain)
  {
    FixedSafe();
    var quoted := "\"" + (config + ("\"" + tail));
    Shell.LexSafe("--config=", quoted, "", false);
    assert "" + "--config=" == "--config=";
    assert quoted[0] == '"' && quoted[1..] == config + "\"" + tail;
    assert Shell.Lex(quoted, "--config=", true, Shell.Plain) == Shell.Lex(quoted[1..], "--config=", true, Shell.Double);
    Shell.LexDoubleBody(config, tail, "--config=");
  }

  /** `build`'s loop: one `runspec --action=build` per benchmark, in order. */
  method BuildCommands(path: string, configRoot: string, config: string, benchmarks: seq<string>)
    returns (commands: seq<seq<string>>)
    ensures |commands| == |benchmarks|
    ensures forall k :: 0 <= k < |benchmarks| ==> commands[k] == RunspecArgv(path, configRoot, config, "build", [benchmarks[k]])
  {
    commands := [];
    for k := 0 to |benchmarks|
      invariant |commands| == k
      invariant forall m :: 0 <= m < k ==> commands[m] == RunspecArgv(path, configRoot, config, "build", [benchmarks[m]])
    {
      commands := commands + [RunspecArgv(path, configRoot, config, "build", [benchmarks[k]])];
    }
  }

  // ---------------------------------------------------------------------
  // make_spec_config

  // `make_spec_config` prints its lines in the groups below.

  method SettingsLines(config: string, jobs: int) returns (r: seq<string>)
    ensures |r| == 9 && r[1] == "ext         = " + config
    ensures Infra.Avoids(r, 'b', 'u') && Infra.Avoids(r, 'm', 'o')
  {
    r := [ "tune        = base",
           "ext         = " + config,
           "reportable  = no",
           "teeout      = yes",
           "teerunout   = no",
           "makeflags   = -j" + Strs.IntToString(jobs),
           "strict_rundir_verify = no",
           "",
           "default=default=default=default:" ];
  }

  /** The compilers and their flags; this target builds no Fortran. */
  method CompilerLines(tc: Infra.Toolchain) returns (r: seq<string>)
    ensures Infra.Avoids(r, 'b', 'u') && Infra.Avoids(r, 'm', 'o')
  {
    r := [ "CC          = " + tc.cc + " " + Shell.QJoin(tc.cflags),
           "CXX         = " + tc.cxx + " " + Shell.QJoin(tc.cxxflags),
           "FC          = `which false`",
           "CLD         = " + tc.cc + " " + Shell.QJoin(tc.ldflags),
           "CXXLD       = " + tc.cxx + " " + Shell.QJoin(tc.ldflags),
           "COPTIMIZE   = -std=gnu89",
           "CXXPORTABILITY = -D__STRICT_ANSI__" ];
  }

  /** The line that runs each benchmark under the target's run wrapper. */
  function MonitorWrapper(wrapper: string): (r: string)
    ensures Strs.StartsWith(r, "monitor_wrapper = ")
  {
    "monitor_wrapper = " + wrapper + " \\$command"
  }

  /** The post-build hook, when there are hooks to call back. */
  method HookLines(on: bool, setup: string, instance: string, config: string) returns (r: seq<string>)
    ensures on ==> |r| == 3 && r[1] == Infra.BuildPostBench(setup, instance, config)
    ensures !on ==> r == []
    ensures Infra.Avoids(r, 'm', 'o')
  {
    r := [];
    if on {
      var line := Infra.BuildPostBench(setup, instance, config);
      assert line[0] == 'b';
      r := ["", line, ""];
    }
  }

  /** The run wrapper, when the context has one. */
  method MonitorLines(runWrapper: Option<string>) returns (r: seq<string>)
    ensures runWrapper.Some? ==> |r| == 2 && r[1] == MonitorWrapper(runWrapper.value)
    ensures runWrapper.None? ==> r == []
    ensures Infra.Avoids(r, 'b', 'u')
  {
    r := [];
    if runWrapper.Some? {
      var line := MonitorWrapper(runWrapper.value);
      assert line[0] == 'm';
      r := ["", line];
    }
  }

  /**
   * What `make_spec_config` promises of the configuration it writes: its
   * name, the `ext` line, the post-build hook exactly when there are hooks
   * and the run wrapper exactly when the context has one.
   */
  predicate ConfigFor(config: string, lines: seq<string>, instance: string, hasPostBuildHooks: bool, setup: string,
                      runWrapper: Option<string>)
  {
    && config == Infra.ConfigName(instance)
    && |lines| > 1 && lines[1] == "ext         = " + config
    && (hasPostBuildHooks ==> Infra.BuildPostBench(setup, instance, config) in lines)
    && (!hasPostBuildHooks ==> forall k :: 0 <= k < |lines| ==> !Strs.StartsWith(lines[k], "build_post_bench"))
    && (runWrapper.Some? ==> MonitorWrapper(runWrapper.value) in lines)
    && (runWrapper.None? ==> forall k :: 0 <= k < |lines| ==> !Strs.StartsWith(lines[k], "monitor_wrapper"))
  }

  /**
   * `make_spec_config(ctx, instance)`: the lines it prints to
   * `install/config/<name>.cfg`, in order, and the configuration's name.
   * The post-build hooks are called back exactly when there are any, and
   * the run wrapper is set exactly when the context has one.
   */
  method MakeSpecConfig(instance: string, tc: Infra.Toolchain, hasPostBuildHooks: bool, setup: string,
                        runWrapper: Option<string>)
    returns (config: string, lines: seq<string>)
    ensures ConfigFor(config, lines, instance, hasPostBuildHooks, setup, runWrapper)
  {
    config := Infra.ConfigName(instance);
    var settings := SettingsLines(config, tc.jobs);
    var compilers := CompilerLines(tc);
    var hooks := HookLines(hasPostBuildHooks, setup, instance, config);
    var monitor := MonitorLines(runWrapper);
    var portability := Infra.PortabilityLines();
    var head := settings + compilers;
    Infra.AvoidsAppend(settings, compilers, 'b', 'u');
    Infra.AvoidsAppend(settings, compilers, 'm', 'o');
    lines := head + (hooks + (monitor + portability));
    assert lines[1] == settings[1];
    Assembled(head, hooks, monitor, portability);
  }

  /** Where the optional groups land once all groups are put together. */
  lemma Assembled(head: seq<string>, hooks: seq<string>, monitor: seq<string>, rest: seq<string>)
    requires Infra.Avoids(head, 'b', 'u') && Infra.Avoids(monitor, 'b', 'u') && Infra.Avoids(rest, 'b', 'u')
    requires Infra.Avoids(head, 'm', 'o') && Infra.Avoids(hooks, 'm', 'o') && Infra.Avoids(rest, 'm', 'o')
    ensures var lines := head + (hooks + (monitor + rest));
      && (|hooks| > 1 ==> hooks[1] in lines)
      && (|monitor| > 1 ==> monitor[1] in lines)
      && (hooks == [] ==> forall k :: 0 <= k < |lines| ==> !Strs.StartsWith(lines[k], "build_post_bench"))
      && (monitor == [] ==> forall k :: 0 <= k < |lines| ==> !Strs.StartsWith(lines[k], "monitor_wrapper"))
  {
    var lines := head + (hooks + (monitor + rest));
    if |hooks| > 1 {
      assert lines[|head| + 1] == hooks[1];
    }
    if |monitor| > 1 {
      assert lines[|head| + |hooks| + 1] == monitor[1];
    }
    if hooks == [] {
      Infra.AvoidsAppend(monitor, rest, 'b', 'u');
      Infra.AvoidsAppend(head, monitor + rest, 'b', 'u');
      assert lines == head + (monitor + rest);
      Infra.AvoidsPrefix(lines, "build_post_bench");
    }
    if monitor == [] {
      Infra.AvoidsAppend(hooks, rest, 'm', 'o');
      Infra.AvoidsAppend(head, hooks + rest, 'm', 'o');
      assert lines == head + (hooks + rest);
      Infra.AvoidsPrefix(lines, "monitor_wrapper");
    }
  }

  // ---------------------------------------------------------------------
  // build

  /** What `build` does before it looks up the benchmark sets: the patches it applies and the configuration it writes. */
  datatype Prepared = Prepared(patches: seq<string>, config: string, configLines: seq<string>)

  /** What `build` does once the sets are known: the sorted benchmarks and the `runspec` command for each. */
  datatype Builds = Builds(benchmarks: seq<string>, commands: seq<seq<string>>)

  /**
   * `build(ctx, instance)` for the requested sets `bsets`: apply the
   * patches and write the configuration, then look up the sets (a
   * `KeyError` for the first unknown one, after the patches and the
   * configuration) and build each benchmark of the sorted list once per
   * set that lists it.  `path` is the target's directory and `configRoot`
   * the directory of this file.
   */
  method Build(t: Spec2006, table: map<string, seq<string>>, bsets: seq<string>, instance: string,
               tc: Infra.Toolchain, hasPostBuildHooks: bool, setup: string, runWrapper: Option<string>,
               path: string, configRoot: string)
    returns (prep: Prepared, r: Result<Builds>)
    ensures prep.patches == PatchPaths(configRoot, t.patches)
    ensures ConfigFor(prep.config, prep.configLines, instance, hasPostBuildHooks, setup, runWrapper)
    ensures r.Ok? <==> forall i :: 0 <= i < |bsets| ==> bsets[i] in table
    ensures r.Err? ==> exists i :: 0 <= i < |bsets| && bsets[i] !in table && r.error == KeyError(bsets[i])
                         && forall j :: 0 <= j < i ==> bsets[j] in table
    ensures r.Ok? ==> && Strs.Sorted(r.value.benchmarks)
                      && multiset(r.value.benchmarks) == multiset(Concat(table, bsets))
                      && |r.value.commands| == |r.value.benchmarks|
                      && forall k :: 0 <= k < |r.value.benchmarks| ==>
                           r.value.commands[k] == RunspecArgv(path, configRoot, prep.config, "build", [r.value.benchmarks[k]])
  {
    var patches := PatchPaths(configRoot, t.patches);
    var config, lines := MakeSpecConfig(instance, tc, hasPostBuildHooks, setup, runWrapper);
    prep := Prepared(patches, config, lines);
    var list := BuildList(table, bsets);
    if list.Err? {
      return prep, Err(list.error);
    }
    var commands := BuildCommands(path, configRoot, config, list.value);
    r := Ok(Builds(list.value, commands));
  }
}
