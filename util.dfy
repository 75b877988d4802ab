/**
 * The file-system helpers of infra/util.py whose logic does not depend on
 * running anything: the error of `require_program`, the stamp file of
 * `apply_patch`, and the default directory name `untar` derives from a
 * tarball name.  Whether a file exists and whether a program is found in a
 * search path are parameters; running `patch` is recorded, not performed.
 */
module Util {

  import opened Wrappers
  import Strs
  import Paths

  // ---------------------------------------------------------------------
  // require_program

  /** The search path: `ctx.runenv.PATH` joined with ':' when present, otherwise the process's `PATH`. */
  function SearchPath(runenv: map<string, seq<string>>, envPath: string): string
  {
    if "PATH" in runenv then Strs.Join(":", runenv["PATH"]) else envPath
  }

  /** The directories of `ctx.runenv.PATH` are searched as they are when none holds a ':'; otherwise `PATH` is used. */
  lemma SearchPathDirs(runenv: map<string, seq<string>>, envPath: string)
    ensures "PATH" !in runenv ==> SearchPath(runenv, envPath) == envPath
    ensures "PATH" in runenv && |runenv["PATH"]| > 0 && (forall k :: 0 <= k < |runenv["PATH"]| ==> ':' !in runenv["PATH"][k])
            ==> Strs.Split(SearchPath(runenv, envPath), ':') == runenv["PATH"]
  {
    if "PATH" in runenv && |runenv["PATH"]| > 0 && (forall k :: 0 <= k < |runenv["PATH"]| ==> ':' !in runenv["PATH"][k]) {
      Strs.SplitJoin(runenv["PATH"], ':');
    }
  }

  /** The message of `require_program`: the name, then `: error` when an error text is given. */
  function MissingProgram(name: string, error: Option<string>): (msg: string)
    ensures Strs.StartsWith(msg, "\"" + name + "\" not found in PATH")
    ensures error.Some? && |error.value| > 0 ==> msg == "\"" + name + "\" not found in PATH: " + error.value
    ensures error.None? || |error.value| == 0 ==> msg == "\"" + name + "\" not found in PATH"
  {
    var msg := "\"" + name + "\" not found in PATH";
    if error.Some? && |error.value| > 0 then msg + ": " + error.value else msg
  }

  /**
   * `require_program(ctx, name, error)`: `found(name, path)` stands for
   * `shutil.which(name, path=path) is not None`.
   */
  function RequireProgram(runenv: map<string, seq<string>>, envPath: string, found: (string, string) -> bool,
                          name: string, error: Option<string>): (r: Option<Error>)
    ensures r.None? <==> found(name, SearchPath(runenv, envPath))
    ensures r.Some? ==> r.value == FatalError(MissingProgram(name, error))
  {
    if found(name, SearchPath(runenv, envPath)) then None else Some(FatalError(MissingProgram(name, error)))
  }

  // ---------------------------------------------------------------------
  // apply_patch

  /** The stamp name for the patch at `absPath` (`os.path.abspath(path)`): `.patched-` and the basename with `.patch` removed. */
  function StampName(absPath: string): (r: string)
    ensures Strs.StartsWith(r, ".patched-")
  {
    ".patched-" + Strs.ReplaceAll(Paths.Basename(absPath), ".patch", "")
  }

  /** `path/to/my-patch.patch` gets the stamp `.patched-my-patch`. */
  lemma StampOfPatchFile(dir: string, name: string)
    requires '/' !in name && forall k :: 0 <= k <= |name| ==> !Strs.OccursAt(name, ".patch", k)
    ensures StampName(dir + "/" + name + ".patch") == ".patched-" + name
  {
    var base := name + ".patch";
    assert '/' !in ".patch";
    assert '/' !in base by {
      forall k | 0 <= k < |base| ensures base[k] != '/' {
        if k < |name| { assert base[k] == name[k]; } else { assert base[k] == ".patch"[k - |name|]; }
      }
    }
    assert dir + "/" + name + ".patch" == (dir + "/") + base;
    Paths.BasenameOfSuffix((dir + "/") + base, base);
    Strs.NoOccurrenceAcross(name, ".patch", ".patch");
    Strs.ReplacePrefixFree(name, ".patch", ".patch", "");
    assert Strs.ReplaceAll(".patch", ".patch", "") == "" + Strs.ReplaceAll("", ".patch", "");
    assert name + "" == name;
  }

  /**
   * The working directory of `apply_patch`: the names of the files present
   * and the `patch` commands run there, each with the patch it reads.
   */
  class WorkDir {
    var files: set<string>
    var commands: seq<(string, string)>

    constructor(files: set<string>)
      ensures this.files == files && commands == []
    {
      this.files, commands := files, [];
    }

    /**
     * `apply_patch(ctx, path, strip_count)`.  An existing stamp means the
     * patch was applied before: nothing is done and the result is false.
     * Otherwise a missing `patch` program is a `FatalError`, a failing
     * `patch` run ends the process (`sys.exit(-1)` in `run`), and a
     * successful run creates the stamp and gives true.
     */
    method ApplyPatch(absPath: string, stripCount: int, patchFound: bool, patchSucceeds: bool) returns (r: Result<bool>)
      modifies this
      ensures StampName(absPath) in old(files) ==> r == Ok(false) && files == old(files) && commands == old(commands)
      ensures StampName(absPath) !in old(files) && !patchFound ==>
        && r == Err(FatalError(MissingProgram("patch", Some("required to apply source patches"))))
        && files == old(files) && commands == old(commands)
      ensures StampName(absPath) !in old(files) && patchFound ==>
        commands == old(commands) + [("patch -p" + Strs.IntToString(stripCount), absPath)]
      ensures StampName(absPath) !in old(files) && patchFound && !patchSucceeds ==> r == Err(Exit(-1)) && files == old(files)
      ensures StampName(absPath) !in old(files) && patchFound && patchSucceeds ==>
        r == Ok(true) && files == old(files) + {StampName(absPath)}
    {
      var stamp := StampName(absPath);
      if stamp in files {
        return Ok(false);
      }
      if !patchFound {
        return Err(FatalError(MissingProgram("patch", Some("required to apply source patches"))));
      }
      commands := commands + [("patch -p" + Strs.IntToString(stripCount), absPath)];
      if !patchSucceeds {
        return Err(Exit(-1));
      }
      files := files + {stamp};
      r := Ok(true);
    }
  }

  /** Applying a patch a second time does nothing and reports false. */
  method ApplyTwice(dir: WorkDir, absPath: string, stripCount: int) returns (r1: Result<bool>, r2: Result<bool>)
    modifies dir
    ensures r1 == Ok(true) ==> r2 == Ok(false)
    ensures r1 == Ok(true) ==> |dir.commands| == |old(dir.commands)| + 1
  {
    r1 := dir.ApplyPatch(absPath, stripCount, true, true);
    r2 := dir.ApplyPatch(absPath, stripCount, true, true);
  }

  // ---------------------------------------------------------------------
  // untar

  /** An ASCII word character (`\w`). */
  predicate IsWordChar(c: char)
  {
    ('a' <= c <= 'z') || ('A' <= c <= 'Z') || ('0' <= c <= '9') || c == '_'
  }

  /** The length of the longest prefix of word characters. */
  function WordRun(s: string): (n: nat)
    ensures n <= |s|
    ensures forall k :: 0 <= k < n ==> IsWordChar(s[k])
    ensures n < |s| ==> !IsWordChar(s[n])
    decreases |s|
  {
    if |s| == 0 || !IsWordChar(s[0]) then 0 else 1 + WordRun(s[1..])
  }

  /**
   * `re.sub(r'\.tar(\.\w+)?', '', s)`: scanning left to right, every
   * `.tar` is removed together with a directly following `.` and the
   * longest run of word characters after it, if that run is not empty.
   */
  function StripTar(s: string): (r: string)
    ensures |r| <= |s|
    decreases |s|
  {
    if |s| == 0 then ""
    else if Strs.StartsWith(s, ".tar") then
      var t := s[4..];
      if |t| > 1 && t[0] == '.' && WordRun(t[1..]) > 0 then StripTar(t[1 + WordRun(t[1..])..])
      else StripTar(t)
    else [s[0]] + StripTar(s[1..])
  }

  /** `untar`'s default base name. */
  function UntarBasename(tarname: string): string
  {
    StripTar(tarname)
  }

  /** A name without `.tar` is its own base name. */
  lemma {:induction false} StripTarAbsent(s: string)
    requires forall k :: 0 <= k <= |s| ==> !Strs.OccursAt(s, ".tar", k)
    ensures UntarBasename(s) == s
    decreases |s|
  {
    if |s| > 0 {
      assert !Strs.OccursAt(s, ".tar", 0);
      forall k | 0 <= k <= |s[1..]| ensures !Strs.OccursAt(s[1..], ".tar", k) {
        assert !Strs.OccursAt(s, ".tar", k + 1);
        if k + 4 <= |s[1..]| { assert s[1..][k..k + 4] == s[k + 1..k + 5]; }
      }
      StripTarAbsent(s[1..]);
      assert [s[0]] + s[1..] == s;
    }
  }

  /** The part before the first `.tar` is kept as it is. */
  lemma {:induction false} StripTarPrefixFree(p: string, rest: string)
    requires forall k :: 0 <= k < |p| ==> !Strs.OccursAt(p + rest, ".tar", k)
    ensures StripTar(p + rest) == p + StripTar(rest)
    decreases |p|
  {
    if |p| > 0 {
      var s := p + rest;
      assert !Strs.OccursAt(s, ".tar", 0);
      StripTarKeep(s);
      assert s[1..] == p[1..] + rest;
      NoOccurrenceTail(p, rest);
      StripTarPrefixFree(p[1..], rest);
      assert [p[0]] + (p[1..] + StripTar(rest)) == p + StripTar(rest);
    } else {
      assert p + rest == rest;
    }
  }

  lemma StripTarKeep(s: string)
    requires |s| > 0 && !Strs.OccursAt(s, ".tar", 0)
    ensures StripTar(s) == [s[0]] + StripTar(s[1..])
  {
  }

  lemma NoOccurrenceTail(p: string, rest: string)
    requires |p| > 0 && forall k :: 0 <= k < |p| ==> !Strs.OccursAt(p + rest, ".tar", k)
    ensures forall k :: 0 <= k < |p[1..]| ==> !Strs.OccursAt(p[1..] + rest, ".tar", k)
  {
    var s := p + rest;
    assert s[1..] == p[1..] + rest;
    forall k | 0 <= k < |p[1..]| ensures !Strs.OccursAt(p[1..] + rest, ".tar", k) {
      assert !Strs.OccursAt(s, ".tar", k + 1);
      if k + 4 <= |s[1..]| { assert s[1..][k..k + 4] == s[k + 1..k + 5]; }
    }
  }

  /** `name.tar` and `name.tar.ext` unpack into `name`. */
  lemma UntarOf(name: string, ext: string)
    requires forall k :: 0 <= k <= |name| ==> !Strs.OccursAt(name, ".tar", k)
    requires forall k :: 0 <= k < |ext| ==> IsWordChar(ext[k])
    ensures UntarBasename(name + ".tar") == name
    ensures |ext| > 0 ==> UntarBasename(name + ".tar." + ext) == name
  {
    Strs.NoOccurrenceAcross(name, ".tar", ".tar");
    StripTarPrefixFree(name, ".tar");
    assert StripTar(".tar") == StripTar("");
    assert name + "" == name;
    if |ext| > 0 {
      var rest := ".tar." + ext;
      assert rest[0] == '.';
      Strs.NoOccurrenceAcross(name, ".tar", rest);
      assert name + ".tar." + ext == name + rest;
      StripTarPrefixFree(name, rest);
      assert Strs.StartsWith(rest, ".tar");
      var t := rest[4..];
      assert t == "." + ext && t[1..] == ext;
      WordRunAll(ext);
      assert t[1 + |ext|..] == "";
    }
  }

  lemma {:induction false} WordRunAll(s: string)
    requires forall k :: 0 <= k < |s| ==> IsWordChar(s[k])
    ensures WordRun(s) == |s|
    decreases |s|
  {
    if |s| > 0 {
      WordRunAll(s[1..]);
    }
  }
}
