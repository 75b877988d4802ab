/**
 * targets/spec2006/scripts/parse-bsets.py: read the benchmark-set files of
 * an unpacked SPEC CPU2006 tree and build the table of benchmark sets the
 * older SPEC2006 target carries.
 *
 * A set file is a Perl fragment that assigns the set's name to `$name` and
 * its members to `@benchmarks = qw(...)`.  `parse_setfile` finds both with
 * one regular-expression search; the search is modelled here by the steps
 * Python's backtracking matcher takes for that one pattern.
 */
module ParseBsets {

  import opened Wrappers
  import Strs

  // ---------------------------------------------------------------------
  // parse_setfile

  /** `\s*` from `i`: the first index at or after `i` that is not white space. */
  function SkipSpace(s: string, i: nat): (j: nat)
    requires i <= |s|
    ensures i <= j <= |s| && (j == |s| || !Strs.IsSpace(s[j]))
    ensures forall k :: i <= k < j ==> Strs.IsSpace(s[k])
    decreases |s| - i
  {
    if i < |s| && Strs.IsSpace(s[i]) then SkipSpace(s, i + 1) else i
  }

  /** `^` under `re.MULTILINE`: the start of the text or of a line. */
  predicate LineStart(s: string, p: nat)
    requires p <= |s|
  {
    p == 0 || s[p - 1] == '\n'
  }

  /** `[^']*'` from `i`: the index of the first quote at or after `i`, or `|s|` when there is none. */
  function FindQuote(s: string, i: nat): (j: nat)
    requires i <= |s|
    ensures i <= j <= |s| && (j < |s| ==> s[j] == '\'')
    ensures forall k :: i <= k < j ==> s[k] != '\''
    decreases |s| - i
  {
    if i == |s| || s[i] == '\'' then i else FindQuote(s, i + 1)
  }

  /** `(.*)\)` under `re.DOTALL` from `i`: the last `)` at or after `i`, or -1. */
  function LastClose(s: string, i: nat): (c: int)
    ensures c == -1 || (i <= c < |s| && s[c] == ')')
    ensures c == -1 ==> forall k :: i <= k < |s| ==> s[k] != ')'
    ensures c != -1 ==> forall k :: c < k < |s| ==> s[k] != ')'
    decreases |s|
  {
    if |s| <= i then -1
    else if s[|s| - 1] == ')' then |s| - 1
    else LastClose(s[..|s| - 1], i)
  }

  /** `^\$name\s*=\s*'([^']*)'` at `p`: the quoted name and the index after its closing quote. */
  function NameAt(s: string, p: nat): (r: Option<(string, nat)>)
    requires p <= |s|
    ensures r.Some? ==> '\'' !in r.value.0 && r.value.1 <= |s|
  {
    if LineStart(s, p) && Strs.OccursAt(s, "$name", p) then
      var a := SkipSpace(s, p + 5);
      if a < |s| && s[a] == '=' then
        var b := SkipSpace(s, a + 1);
        if b < |s| && s[b] == '\'' then
          var c := FindQuote(s, b + 1);
          if c < |s| then Some((s[b + 1..c], c + 1)) else None
        else None
      else None
    else None
  }

  /** `^@benchmarks\s*=\s*qw\((.*)\)` at `q`: everything between `qw(` and the last `)` of the text. */
  function BenchAt(s: string, q: nat): (r: Option<string>)
    requires q <= |s|
    ensures r.Some? ==> q < |s| && s[q] == '@'
    ensures r.Some? ==> exists k :: q < k < |s| && s[k] == ')'
  {
    if LineStart(s, q) && Strs.OccursAt(s, "@benchmarks", q) then
      var a := SkipSpace(s, q + 11);
      if a < |s| && s[a] == '=' then
        var b := SkipSpace(s, a + 1);
        if b + 3 <= |s| && s[b] == 'q' && s[b + 1] == 'w' && s[b + 2] == '(' then
          var c := LastClose(s, b + 3);
          if c >= 0 then Some(s[b + 3..c]) else None
        else None
      else None
    else None
  }

  /** The greedy `.*` before `@benchmarks`: the last start in `[from, hi]` where the rest matches. */
  function LastBench(s: string, from: nat, hi: nat): Option<string>
    requires from <= hi <= |s|
    decreases hi - from
  {
    if BenchAt(s, hi).Some? then BenchAt(s, hi)
    else if hi == from then None
    else LastBench(s, from, hi - 1)
  }

  /** `re.search`: the leftmost start from `p` on where the whole pattern matches. */
  function SearchFrom(s: string, p: nat): (r: Option<(string, string)>)
    requires p <= |s|
    ensures r.Some? ==> '\'' !in r.value.0
    decreases |s| - p
  {
    var name := NameAt(s, p);
    if name.Some? && LastBench(s, name.value.1, |s|).Some? then
      Some((name.value.0, LastBench(s, name.value.1, |s|).value))
    else if p == |s| then None
    else SearchFrom(s, p + 1)
  }

  /**
   * `parse_setfile(path)` on the file's contents: the set's name and its
   * benchmarks.  The `assert match` fails when the file has no such
   * assignments.
   */
  function ParseSetfile(contents: string): (r: Result<(string, seq<string>)>)
    ensures r.Err? ==> r.error == AssertionError
    ensures r.Ok? ==> '\'' !in r.value.0
    ensures r.Ok? ==> forall k :: 0 <= k < |r.value.1| ==> |r.value.1[k]| > 0 && forall j :: 0 <= j < |r.value.1[k]| ==> !Strs.IsSpace(r.value.1[k][j])
  {
    var m := SearchFrom(contents, 0);
    if m.None? then Err(AssertionError) else Ok((m.value.0, Strs.Words(m.value.1)))
  }

  // ---------------------------------------------------------------------
  // What parse_setfile reads back from a set file

  /** A set file naming `name` and listing `benchmarks`, followed by `rest`. */
  function SetFile(name: string, benchmarks: seq<string>, rest: string): string
  {
    "$name = '" + (name + ("';\n" + ("@benchmarks = qw(" + (Strs.Join(" ", benchmarks) + (");\n" + rest)))))
  }

  /** `LastClose` finds the `)` that no other `)` follows. */
  lemma LastCloseIs(s: string, i: nat, c: nat)
    requires i <= c < |s| && s[c] == ')' && forall k :: c < k < |s| ==> s[k] != ')'
    ensures LastClose(s, i) == c
  {
  }

  /** Backtracking from the end stops at the last start where `@benchmarks` matches. */
  lemma {:induction false} LastBenchAt(s: string, from: nat, hi: nat, q: nat)
    requires from <= q <= hi <= |s| && BenchAt(s, q).Some?
    requires forall k :: q < k <= hi ==> BenchAt(s, k).None?
    ensures LastBench(s, from, hi) == BenchAt(s, q)
    decreases hi - q
  {
    if hi > q {
      LastBenchAt(s, from, hi - 1, q);
    }
  }

  /** The name assignment of a set file is read at its start. */
  lemma NameOfSetFile(name: string, benchmarks: seq<string>, rest: string)
    requires '\'' !in name
    ensures NameAt(SetFile(name, benchmarks, rest), 0) == Some((name, 10 + |name|))
  {
    var s := SetFile(name, benchmarks, rest);
    var tail := "';\n" + ("@benchmarks = qw(" + (Strs.Join(" ", benchmarks) + (");\n" + rest)));
    assert s == "$name = '" + (name + tail);
    assert s[..9] == "$name = '";
    assert s[0..5] == "$name";
    assert s[5] == ' ' && s[6] == '=' && s[7] == ' ' && s[8] == '\'';
    assert SkipSpace(s, 5) == 6 && SkipSpace(s, 7) == 8;
    assert s[9..9 + |name|] == name;
    assert s[9 + |name|] == '\'';
    assert forall k :: 9 <= k < 9 + |name| ==> s[k] == name[k - 9];
    assert FindQuote(s, 9) == 9 + |name|;
  }

  /** The benchmarks assignment, on a line of its own after `pre`. */
  function BenchLine(body: string, rest: string): string
  {
    "@benchmarks = qw(" + (body + (");\n" + rest))
  }

  /** The pattern's steps at `q`, once the characters are known. */
  lemma BenchAtShape(s: string, q: nat, c: nat)
    requires q + 17 <= c < |s| && LineStart(s, q) && Strs.OccursAt(s, "@benchmarks", q)
    requires s[q + 11] == ' ' && s[q + 12] == '=' && s[q + 13] == ' '
    requires s[q + 14] == 'q' && s[q + 15] == 'w' && s[q + 16] == '('
    requires s[c] == ')' && forall k :: c < k < |s| ==> s[k] != ')'
    ensures BenchAt(s, q) == Some(s[q + 17..c])
  {
    assert SkipSpace(s, q + 11) == q + 12 && SkipSpace(s, q + 13) == q + 14;
    LastCloseIs(s, q + 17, c);
  }

  /** The characters of the assignment line. */
  lemma BenchLineChars(body: string, rest: string)
    requires ')' !in rest
    ensures var t := BenchLine(body, rest);
      && t[..11] == "@benchmarks" && t[11] == ' ' && t[12] == '=' && t[13] == ' '
      && t[14] == 'q' && t[15] == 'w' && t[16] == '(' && t[17..17 + |body|] == body
      && t[17 + |body|] == ')' && forall k :: 17 + |body| < k < |t| ==> t[k] != ')'
  {
    var t := BenchLine(body, rest);
    var c := 17 + |body|;
    assert t[c..] == ");\n" + rest;
    forall k | c < k < |t| ensures t[k] != ')' {
      assert t[k] == (");\n" + rest)[k - c];
      if k >= c + 3 { assert t[k] == rest[k - c - 3]; }
    }
  }

  /** The members of a list assignment at the start of a line are read up to its `)`. */
  lemma BenchAfter(pre: string, body: string, rest: string)
    requires |pre| > 0 && pre[|pre| - 1] == '\n' && ')' !in rest
    ensures BenchAt(pre + BenchLine(body, rest), |pre|) == Some(body)
  {
    BenchLineChars(body, rest);
    BenchAtLine(pre, BenchLine(body, rest), 17 + |body|);
  }

  /** `BenchAtShape` for a line `t` that follows `pre`. */
  lemma BenchAtLine(pre: string, t: string, c: nat)
    requires |pre| > 0 && pre[|pre| - 1] == '\n' && 17 <= c < |t|
    requires t[..11] == "@benchmarks" && t[11] == ' ' && t[12] == '=' && t[13] == ' '
    requires t[14] == 'q' && t[15] == 'w' && t[16] == '('
    requires t[c] == ')' && forall k :: c < k < |t| ==> t[k] != ')'
    ensures BenchAt(pre + t, |pre|) == Some(t[17..c])
  {
    var s := pre + t;
    var q := |pre|;
    assert s[q - 1] == '\n';
    assert s[q..q + 11] == t[..11];
    assert s[q + 11] == t[11] && s[q + 12] == t[12] && s[q + 13] == t[13];
    assert s[q + 14] == t[14] && s[q + 15] == t[15] && s[q + 16] == t[16];
    assert s[q + c] == t[c];
    forall k | q + c < k < |s| ensures s[k] != ')' {
      assert s[k] == t[k - q];
    }
    BenchAtShape(s, q, q + c);
    assert s[q + 17..q + c] == t[17..c];
  }

  /** No later start matches: the list holds no `@` and nothing after it holds a `)`. */
  lemma NoBenchAfter(pre: string, body: string, rest: string)
    requires '@' !in body && ')' !in rest
    ensures forall q :: |pre| < q <= |pre + BenchLine(body, rest)| ==> BenchAt(pre + BenchLine(body, rest), q).None?
  {
    BenchLineMarks(body, rest);
    NoBenchIn(pre, BenchLine(body, rest), 20 + |body|);
  }

  /** Where the assignment line has its only `@` and its last `)`. */
  lemma BenchLineMarks(body: string, rest: string)
    requires '@' !in body && ')' !in rest
    ensures var t := BenchLine(body, rest);
      && 20 + |body| <= |t|
      && (forall k :: 0 < k < 20 + |body| ==> t[k] != '@')
      && (forall k :: 20 + |body| <= k < |t| ==> t[k] != ')')
  {
    var t := BenchLine(body, rest);
    var c := 17 + |body|;
    forall k | 0 < k < c + 3 ensures t[k] != '@' {
      if k < 17 {
        assert t[k] == "@benchmarks = qw("[k];
      } else if k < c {
        assert t[k] == body[k - 17];
      } else {
        assert t[k] == (");\n" + rest)[k - c];
      }
    }
    forall k | c + 3 <= k < |t| ensures t[k] != ')' {
      assert t[k] == rest[k - c - 3];
    }
  }

  /** After a line without a further `@` before `d` and without a `)` from `d` on, no start matches. */
  lemma NoBenchIn(pre: string, t: string, d: nat)
    requires d <= |t| && (forall k :: 0 < k < d ==> t[k] != '@') && (forall k :: d <= k < |t| ==> t[k] != ')')
    ensures forall q :: |pre| < q <= |pre + t| ==> BenchAt(pre + t, q).None?
  {
    var s := pre + t;
    forall q | |pre| < q <= |s| ensures BenchAt(s, q).None? {
      if q < |pre| + d {
        assert s[q] == t[q - |pre|];
      } else {
        forall k | q < k < |s| ensures s[k] != ')' {
          assert s[k] == t[k - |pre|];
        }
      }
    }
  }

  /**
   * `parse_setfile` on a set file reads back the name and the benchmarks
   * written into it, when the name has no quote, no benchmark holds an `@`,
   * and no `)` follows the list.
   */
  lemma ParseSetFile(name: string, benchmarks: seq<string>, rest: string)
    requires '\'' !in name && ')' !in rest
    requires forall k :: 0 <= k < |benchmarks| ==> |benchmarks[k]| > 0 && '@' !in benchmarks[k]
    requires forall k, j :: 0 <= k < |benchmarks| && 0 <= j < |benchmarks[k]| ==> !Strs.IsSpace(benchmarks[k][j])
    ensures ParseSetfile(SetFile(name, benchmarks, rest)) == Ok((name, benchmarks))
  {
    var body := Strs.Join(" ", benchmarks);
    var pre := "$name = '" + name + "';\n";
    var s := SetFile(name, benchmarks, rest);
    assert s == pre + BenchLine(body, rest);
    AtNotInJoin(benchmarks);
    NameOfSetFile(name, benchmarks, rest);
    BenchAfter(pre, body, rest);
    NoBenchAfter(pre, body, rest);
    LastBenchAt(s, 10 + |name|, |s|, |pre|);
    Strs.WordsJoin(benchmarks);
  }

  /** Joining words without `@` by spaces gives a text without `@`. */
  lemma {:induction false} AtNotInJoin(ws: seq<string>)
    requires forall k :: 0 <= k < |ws| ==> '@' !in ws[k]
    ensures '@' !in Strs.Join(" ", ws)
    decreases |ws|
  {
    if |ws| > 1 {
      AtNotInJoin(ws[1..]);
      assert Strs.Join(" ", ws) == ws[0] + " " + Strs.Join(" ", ws[1..]);
    }
  }

  /** A text with no `$name` assignment fails the `assert match`. */
  lemma NoNameFails(contents: string)
    requires forall p :: 0 <= p <= |contents| ==> !Strs.OccursAt(contents, "$name", p)
    ensures ParseSetfile(contents) == Err(AssertionError)
  {
    NoNameNoMatch(contents, 0);
  }

  lemma {:induction false} NoNameNoMatch(s: string, p: nat)
    requires p <= |s| && forall i :: p <= i <= |s| ==> !Strs.OccursAt(s, "$name", i)
    ensures SearchFrom(s, p).None?
    decreases |s| - p
  {
    if p < |s| {
      NoNameNoMatch(s, p + 1);
    }
  }

  // ---------------------------------------------------------------------
  // __main__: the table of sets

  /** The sets named by the parsed files, in order: a later file with the same name replaces an earlier one. */
  function Collect(parsed: seq<(string, seq<string>)>): map<string, seq<string>>
  {
    if |parsed| == 0 then map[]
    else Collect(parsed[..|parsed| - 1])[parsed[|parsed| - 1].0 := parsed[|parsed| - 1].1]
  }

  /** Every benchmark some parsed file lists. */
  function AllBench(parsed: seq<(string, seq<string>)>): set<string>
  {
    if |parsed| == 0 then {}
    else AllBench(parsed[..|parsed| - 1]) + Members(parsed[|parsed| - 1].1)
  }

  function Members(xs: seq<string>): set<string>
  {
    set b | b in xs
  }

  /** A set is named exactly when a file names it, and it holds the list of the last such file. */
  lemma {:induction false} CollectLast(parsed: seq<(string, seq<string>)>, n: string)
    ensures n in Collect(parsed) <==> exists i :: 0 <= i < |parsed| && parsed[i].0 == n
    ensures forall i :: 0 <= i < |parsed| && parsed[i].0 == n && (forall j :: i < j < |parsed| ==> parsed[j].0 != n)
              ==> n in Collect(parsed) && Collect(parsed)[n] == parsed[i].1
    decreases |parsed|
  {
    if |parsed| > 0 {
      var init := parsed[..|parsed| - 1];
      CollectLast(init, n);
      assert forall i :: 0 <= i < |init| ==> init[i] == parsed[i];
    }
  }

  /** A benchmark is in `allbench` exactly when some file lists it. */
  lemma {:induction false} AllBenchMembers(parsed: seq<(string, seq<string>)>, b: string)
    ensures b in AllBench(parsed) <==> exists i :: 0 <= i < |parsed| && b in parsed[i].1
    decreases |parsed|
  {
    if |parsed| > 0 {
      var init := parsed[..|parsed| - 1];
      AllBenchMembers(init, b);
      assert forall i :: 0 <= i < |init| ==> init[i] == parsed[i];
    }
  }

  /** The parsed contents of every set file, when each parses. */
  function Parsed(files: seq<string>): (r: seq<(string, seq<string>)>)
    requires forall i :: 0 <= i < |files| ==> ParseSetfile(files[i]).Ok?
    ensures |r| == |files| && forall i :: 0 <= i < |files| ==> ParseSetfile(files[i]) == Ok(r[i])
  {
    seq(|files|, i requires 0 <= i < |files| => ParseSetfile(files[i]).value)
  }

  /** `allbench.add(bench)` for every benchmark of a set. */
  method AddAll(acc: set<string>, xs: seq<string>) returns (r: set<string>)
    ensures r == acc + Members(xs)
  {
    r := acc;
    for k := 0 to |xs|
      invariant r == acc + set m | 0 <= m < k :: xs[m]
    {
      r := r + {xs[k]};
    }
    assert (set m | 0 <= m < |xs| :: xs[m]) == Members(xs);
  }

  /** The loop over the set files: the sets by name and every benchmark listed. */
  method ParseFiles(files: seq<string>) returns (r: Result<(map<string, seq<string>>, set<string>)>)
    ensures r.Ok? <==> forall i :: 0 <= i < |files| ==> ParseSetfile(files[i]).Ok?
    ensures r.Err? ==> r.error == AssertionError
    ensures r.Ok? ==> r.value == (Collect(Parsed(files)), AllBench(Parsed(files)))
  {
    var sets: map<string, seq<string>> := map[];
    var allbench: set<string> := {};
    ghost var parsed: seq<(string, seq<string>)> := [];
    for i := 0 to |files|
      invariant |parsed| == i && forall j :: 0 <= j < i ==> ParseSetfile(files[j]) == Ok(parsed[j])
      invariant sets == Collect(parsed) && allbench == AllBench(parsed)
    {
      var p := ParseSetfile(files[i]);
      if p.Err? {
        return Err(p.error);
      }
      var entry := p.value;
      sets := sets[entry.0 := entry.1];
      allbench := AddAll(allbench, entry.1);
      CollectSnoc(parsed, entry);
      parsed := parsed + [entry];
    }
    ParsedIs(files, parsed);
    r := Ok((sets, allbench));
  }

  /** `sets[bench] = [bench]` for every benchmark, in any order. */
  method AddSingletons(sets: map<string, seq<string>>, bench: set<string>) returns (t: map<string, seq<string>>)
    ensures forall s :: s in t <==> s in sets || s in bench
    ensures forall b :: b in bench ==> t[b] == [b]
    ensures forall s :: s in sets && s !in bench ==> t[s] == sets[s]
  {
    t := sets;
    var left := bench;
    while left != {}
      invariant left <= bench
      invariant forall s :: s in t <==> s in sets || s in bench - left
      invariant forall b :: b in bench - left ==> t[b] == [b]
      invariant forall s :: s in sets && s !in bench - left ==> t[s] == sets[s]
      decreases left
    {
      var b :| b in left;
      t := t[b := [b]];
      left := left - {b};
    }
  }

  /**
   * The script's `__main__` on its arguments `argv`, with `specdirExists`
   * the outcome of `os.path.exists(SPECDIR)` and `files` the contents of
   * the `*.bset` files the glob finds there, in the order it finds them.
   * The table is what the script pretty-prints: every parsed set, then
   * `all`, the sorted benchmarks without repeats, then one singleton set per
   * benchmark.
   */
  method Run(argv: seq<string>, specdirExists: bool, files: seq<string>) returns (r: Result<map<string, seq<string>>>)
    ensures |argv| != 2 ==> r == Err(Exit(1))
    ensures |argv| == 2 && !specdirExists ==> r == Err(AssertionError)
    ensures r.Ok? <==> |argv| == 2 && specdirExists && forall i :: 0 <= i < |files| ==> ParseSetfile(files[i]).Ok?
    ensures r.Err? && |argv| == 2 ==> r == Err(AssertionError)
    ensures r.Ok? ==> var p := Parsed(files);
      && (forall s :: s in r.value <==> s in Collect(p) || s == "all" || s in AllBench(p))
      && (forall b :: b in AllBench(p) ==> r.value[b] == [b])
      && ("all" !in AllBench(p) ==> Strs.StrictlySorted(r.value["all"])
                                     && forall b :: b in r.value["all"] <==> b in AllBench(p))
      && (forall s :: s in Collect(p) && s != "all" && s !in AllBench(p) ==> r.value[s] == Collect(p)[s])
  {
    if |argv| != 2 {
      return Err(Exit(1));
    }
    if !specdirExists {
      return Err(AssertionError);
    }
    var parsed := ParseFiles(files);
    if parsed.Err? {
      return Err(parsed.error);
    }
    var (sets, allbench) := parsed.value;
    var all := Strs.SortSet(allbench);
    sets := sets["all" := all];
    var table := AddSingletons(sets, allbench);
    r := Ok(table);
  }

  lemma CollectSnoc(parsed: seq<(string, seq<string>)>, e: (string, seq<string>))
    ensures Collect(parsed + [e]) == Collect(parsed)[e.0 := e.1]
    ensures AllBench(parsed + [e]) == AllBench(parsed) + Members(e.1)
  {
    assert (parsed + [e])[..|parsed|] == parsed;
  }

  lemma ParsedIs(files: seq<string>, parsed: seq<(string, seq<string>)>)
    requires |parsed| == |files| && forall j :: 0 <= j < |files| ==> ParseSetfile(files[j]) == Ok(parsed[j])
    ensures forall i :: 0 <= i < |files| ==> ParseSetfile(files[i]).Ok?
    ensures Parsed(files) == parsed
  {
  }
}
