/**
 * The run metadata of `infra/report.py`: a `BenchmarkRunner` appends a footer
 * to each run's output file, made of marker lines and `[setup-report]
 * name=value` lines, and a `BenchmarkReporter` reads every such line of a file
 * back into one dict, the last value of a name winning.
 *
 * A file is its text; its lines are what a text-mode file yields, `Strs.TextLines`. Values
 * are the text `'%s' % value` gives for them. The warning logged for a
 * duplicate name is returned as the list of duplicated names.
 */
module Report {

  import opened Wrappers
  import Strs
  import Dicts

  const Prefix: string := "[setup-report]"

  /** `special_prefix % kind`: the marker lines, which do not start with the prefix. */
  function Special(kind: string): string
  {
    "[setup-report-" + kind + "]"
  }

  type Meta = seq<(string, string)>

  // ---------------------------------------------------------------------
  // Writing.

  /** The line `print(prefix, '%s=%s' % (name, value))` writes, without its newline. */
  function Entry(name: string, value: string): string
  {
    Prefix + " " + name + "=" + value
  }

  /** `BenchmarkRunner.report(name, value)`: the line it prints, or its failed assertion. */
  function ReportLine(name: string, value: string): (r: Result<string>)
    ensures r.Err? <==> ' ' in name
    ensures r.Ok? ==> r.value == Entry(name, value)
  {
    if ' ' in name then Err(AssertionError) else Ok(Entry(name, value))
  }

  /** `BenchmarkRunner.report_next()`. */
  function ReportNext(): string
  {
    Special("next")
  }

  /**
   * The lines `_print_footer` appends to a job's output file: a begin marker,
   * the target and instance names, whatever the target's `report_output`
   * prints (`own`), and an end marker.
   */
  function Footer(target: string, instance: string, own: seq<string>): seq<string>
  {
    [Special("begin"), Entry("target", target), Entry("instance", instance)] + own + [Special("end")]
  }

  /** The output file after `_print_footer`: the footer is appended to what was there. */
  function AppendFooter(file: string, target: string, instance: string, own: seq<string>): (r: string)
    ensures Strs.StartsWith(r, file)
  {
    file + Strs.Printed(Footer(target, instance, own))
  }

  // ---------------------------------------------------------------------
  // Reading.

  /** The dict being filled and the duplicated names warned about so far. */
  datatype State = State(meta: Meta, dups: seq<string>)

  /** `line[len(prefix) + 1:]`: Python's slice is empty when the line is too short. */
  function AfterPrefix(line: string): string
  {
    if |line| > |Prefix| then line[|Prefix| + 1..] else ""
  }

  /** `s.split('=', 1)` unpacked into two names, or the `ValueError` unpacking raises. */
  function SplitAssign(s: string): (r: Result<(string, string)>)
    ensures r.Err? <==> '=' !in s
    ensures r.Ok? ==> r.value.0 + "=" + r.value.1 == s && '=' !in r.value.0
    decreases |s|
  {
    if |s| == 0 then Err(ValueError("not enough values to unpack (expected 2, got 1)"))
    else if s[0] == '=' then Ok(("", s[1..]))
    else match SplitAssign(s[1..])
      case Err(e) => Err(e)
      case Ok((name, value)) => Ok(([s[0]] + name, value))
  }

  /** The state after `meta[name] = value`, with the warning for a name already present. */
  function Assigned(st: State, name: string, value: string): State
  {
    State(Dicts.Set(st.meta, name, value), st.dups + Warned(st.meta, name))
  }

  /** The warning `_parse_metadata` logs when assigning `name` into `meta`. */
  function Warned(meta: Meta, name: string): seq<string>
  {
    if name in Dicts.Keys(meta) then [name] else []
  }

  /** One iteration of the line loop of `BenchmarkReporter._parse_metadata`. */
  function Step(st: State, line: string): Result<State>
  {
    if !Strs.StartsWith(line, Prefix) then Ok(st)
    else match SplitAssign(Strs.RStrip(AfterPrefix(line)))
      case Err(e) => Err(e)
      case Ok((name, value)) =>
        Ok(Assigned(st, name, value))
  }

  /** The loop over `lines`, stopping at the first error. */
  function Parse(st: State, lines: seq<string>): Result<State>
    decreases |lines|
  {
    if |lines| == 0 then Ok(st)
    else match Step(st, lines[0])
      case Err(e) => Err(e)
      case Ok(next) => Parse(next, lines[1..])
  }

  const Start := State([], [])

  /** The dict of a file and the duplicates warned about, or the error that ends the parse. */
  function Metadata(text: string): Result<State>
  {
    Parse(Start, Strs.TextLines(text))
  }

  /** The loop from line `k` on: one step, then the rest. */
  lemma ParseAt(st: State, lines: seq<string>, k: nat)
    requires k < |lines|
    ensures Parse(st, lines[k..]) == match Step(st, lines[k])
      case Err(e) => Err(e)
      case Ok(next) => Parse(next, lines[k + 1..])
  {
    assert lines[k..][0] == lines[k] && lines[k..][1..] == lines[k + 1..];
  }

  /** `BenchmarkReporter._parse_metadata` on the text of a file. */
  method ParseMetadata(text: string) returns (r: Result<State>)
    ensures r == Metadata(text)
  {
    r := ParseLines(Strs.TextLines(text));
  }

  /** The reading loop of `_parse_metadata`, over the lines the file yields. */
  method ParseLines(lines: seq<string>) returns (r: Result<State>)
    ensures r == Parse(Start, lines)
  {
    var st := Start;
    for k := 0 to |lines|
      invariant Parse(Start, lines) == Parse(st, lines[k..])
    {
      ParseAt(st, lines, k);
      var next := ReadLine(st, lines[k]);
      if next.Err? {
        return Err(next.error);
      }
      st := next.value;
    }
    assert lines[|lines|..] == [];
    return Ok(st);
  }

  /** One pass of the loop: a metadata line is split at its first `=` and assigned into the dict. */
  method ReadLine(st: State, line: string) returns (r: Result<State>)
    ensures r == Step(st, line)
  {
    if !Strs.StartsWith(line, Prefix) {
      return Ok(st);
    }
    var split := SplitAssign(Strs.RStrip(AfterPrefix(line)));
    if split.Err? {
      return Err(split.error);
    }
    var (name, value) := split.value;
    var dups := st.dups;
    if name in Dicts.Keys(st.meta) {
      dups := dups + [name];
    }
    assert dups == st.dups + Warned(st.meta, name);
    return Ok(State(Dicts.Set(st.meta, name, value), dups));
  }

  // ---------------------------------------------------------------------
  // Reporting modes.

  /**
   * `BenchmarkReporter.report(mode)`: `brief` prints nothing, `full` and `csv`
   * are not implemented, and any other mode has no `report_<mode>` method.
   */
  function ReportMode(mode: string): (r: Result<()>)
    ensures r.Ok? <==> mode == "brief"
    ensures r == Err(NotImplementedError) <==> mode == "full" || mode == "csv"
    ensures r.Err? && r.error.FatalError? <==> mode != "brief" && mode != "full" && mode != "csv"
    ensures r.Err? && r.error.FatalError? ==> r.error.msg == "unknown reporting mode \"" + mode + "\""
  {
    if mode == "brief" then Ok(())
    else if mode == "full" || mode == "csv" then Err(NotImplementedError)
    else Err(FatalError("unknown reporting mode \"" + mode + "\""))
  }

  // ---------------------------------------------------------------------
  // Properties.

  lemma ParseOk(st: State, line: string, rest: seq<string>, next: State)
    requires Step(st, line) == Ok(next)
    ensures Parse(st, [line] + rest) == Parse(next, rest)
  {
    assert ([line] + rest)[1..] == rest;
  }

  /** The marker lines are not `[setup-report]` lines, so the parser skips them. */
  lemma MarkerSkipped(st: State, kind: string)
    ensures Step(st, Special(kind)) == Ok(st)
  {
    var m := Special(kind);
    assert m[13] == '-' && Prefix[13] == ']';
    assert m[..|Prefix|] != Prefix by {
      assert m[..|Prefix|][13] != Prefix[13];
    }
  }

  /** A name and a value that a `report` line carries through the parser unchanged. */
  predicate Reportable(name: string, value: string)
  {
    ' ' !in name && '=' !in name && Strs.NoBreak(name) && Strs.NoBreak(value)
    && (|value| == 0 || !Strs.IsSpace(value[|value| - 1]))
  }

  /** `SplitAssign` on a name without `=`, an `=` and the rest. */
  lemma {:induction false} SplitAt(name: string, value: string)
    requires '=' !in name
    ensures SplitAssign(name + "=" + value) == Ok((name, value))
    decreases |name|
  {
    var s := name + "=" + value;
    if |name| == 0 {
      assert s == "=" + value;
      assert s[1..] == value;
    } else {
      assert s[1..] == name[1..] + "=" + value;
      SplitAt(name[1..], value);
      assert [s[0]] + name[1..] == name;
    }
  }

  /** Reading one `report(name, value)` line assigns `meta[name] = value`, warning on a duplicate. */
  lemma ReportStep(st: State, name: string, value: string)
    requires Reportable(name, value)
    ensures Step(st, Entry(name, value)) == Ok(Assigned(st, name, value))
  {
    var line := Entry(name, value);
    var body := name + "=" + value;
    assert line == Prefix + " " + body;
    assert line[..|Prefix|] == Prefix;
    assert AfterPrefix(line) == body;
    assert body[|body| - 1] == if |value| == 0 then '=' else value[|value| - 1];
    Strs.RStripNoTrailing(body);
    SplitAt(name, value);
  }

  /** The lines a sequence of `report` calls prints. */
  function Entries(pairs: Meta): seq<string>
    decreases |pairs|
  {
    if |pairs| == 0 then [] else [Entry(pairs[0].0, pairs[0].1)] + Entries(pairs[1..])
  }

  /** The names `_parse_metadata` warns about when reading `pairs` into `acc`. */
  function Duplicates(acc: Meta, pairs: Meta): seq<string>
    decreases |pairs|
  {
    if |pairs| == 0 then []
    else
      Warned(acc, pairs[0].0) + Duplicates(Dicts.Set(acc, pairs[0].0, pairs[0].1), pairs[1..])
  }

  ghost predicate AllReportable(pairs: Meta)
    decreases |pairs|
  {
    |pairs| == 0 || (Reportable(pairs[0].0, pairs[0].1) && AllReportable(pairs[1..]))
  }

  /** The first line of a sequence of `report` lines is read as its assignment. */
  lemma EntriesHead(st: State, pairs: Meta, rest: seq<string>)
    requires |pairs| > 0 && Reportable(pairs[0].0, pairs[0].1)
    ensures Parse(st, Entries(pairs) + rest) == Parse(Assigned(st, pairs[0].0, pairs[0].1), Entries(pairs[1..]) + rest)
  {
    var x := Entries(pairs[1..]) + rest;
    assert Entries(pairs) + rest == [Entry(pairs[0].0, pairs[0].1)] + x;
    ReportStep(st, pairs[0].0, pairs[0].1);
    ParseOk(st, Entry(pairs[0].0, pairs[0].1), x, Assigned(st, pairs[0].0, pairs[0].1));
  }

  lemma {:induction false} DuplicatesHead(st: State, pairs: Meta)
    requires |pairs| > 0
    ensures Assigned(st, pairs[0].0, pairs[0].1).dups + Duplicates(Assigned(st, pairs[0].0, pairs[0].1).meta, pairs[1..])
         == st.dups + Duplicates(st.meta, pairs)
  {
    var w := Warned(st.meta, pairs[0].0);
    var rest := Duplicates(Dicts.Set(st.meta, pairs[0].0, pairs[0].1), pairs[1..]);
    assert Duplicates(st.meta, pairs) == w + rest;
    assert (st.dups + w) + rest == st.dups + (w + rest);
  }

  /**
   * Reading the lines of a sequence of `report` calls assigns the pairs in
   * order, so a later value of a name replaces an earlier one.
   */
  lemma {:induction false} EntriesParse(st: State, pairs: Meta, rest: seq<string>)
    requires AllReportable(pairs)
    ensures Parse(st, Entries(pairs) + rest)
         == Parse(State(Dicts.Assign(st.meta, pairs), st.dups + Duplicates(st.meta, pairs)), rest)
    decreases |pairs|
  {
    if |pairs| == 0 {
      assert Entries(pairs) + rest == rest;
      assert st.dups + [] == st.dups;
    } else {
      assert Reportable(pairs[0].0, pairs[0].1) && AllReportable(pairs[1..]);
      var next := Assigned(st, pairs[0].0, pairs[0].1);
      DuplicatesHead(st, pairs);
      assert Dicts.Assign(st.meta, pairs) == Dicts.Assign(next.meta, pairs[1..]);
      EntriesHead(st, pairs, rest);
      EntriesParse(next, pairs[1..], rest);
    }
  }

  lemma {:induction false} EntriesOneLine(pairs: Meta)
    requires AllReportable(pairs)
    ensures forall i :: 0 <= i < |Entries(pairs)| ==> Strs.NoBreak(Entries(pairs)[i])
    decreases |pairs|
  {
    if |pairs| > 0 {
      assert Reportable(pairs[0].0, pairs[0].1) && AllReportable(pairs[1..]);
      EntriesOneLine(pairs[1..]);
      var ls := Entries(pairs);
      assert ls[0] == Prefix + " " + pairs[0].0 + "=" + pairs[0].1;
      forall i | 0 <= i < |ls| ensures Strs.NoBreak(ls[i]) {
        if i > 0 { assert ls[i] == Entries(pairs[1..])[i - 1]; }
      }
    }
  }

  /**
   * The round trip: a file made of `report(name, value)` lines reads back as
   * the dict those assignments build, and a name reported twice keeps its
   * last value.
   */
  lemma ReportRoundTrip(pairs: Meta)
    requires AllReportable(pairs)
    ensures Metadata(Strs.Printed(Entries(pairs))) == Ok(State(Dicts.Assign([], pairs), Duplicates([], pairs)))
    ensures forall name :: name in Dicts.Keys(pairs) ==> Dicts.Get(Dicts.Assign([], pairs), name) == Some(LastValue(pairs, name))
  {
    var done := State(Dicts.Assign([], pairs), Duplicates([], pairs));
    assert [] + Duplicates([], pairs) == Duplicates([], pairs);
    assert [""] == [""] + [];
    assert Step(done, "") == Ok(done);
    ParseOk(done, "", [], done);
    EntriesOneLine(pairs);
    Strs.TextLinesPrinted(Entries(pairs));
    EntriesParse(Start, pairs, [""]);
    forall name | name in Dicts.Keys(pairs) ensures Dicts.Get(Dicts.Assign([], pairs), name) == Some(LastValue(pairs, name)) {
      AssignLast([], pairs, name);
    }
  }

  /**
   * A `\r` inside a reported value ends the line when the file is read back:
   * the name gets the text before it, and the text after it is a line of its
   * own, which the parser skips when it does not start with the prefix.
   */
  lemma ReturnEndsLine(name: string, a: string, b: string)
    requires Reportable(name, a) && |b| > 0 && Strs.NoBreak(b) && !Strs.StartsWith(b, Prefix)
    ensures Metadata(Strs.Printed([Entry(name, a + "\r" + b)])) == Ok(State([(name, a)], []))
  {
    var e := Entry(name, a);
    assert Strs.Printed([Entry(name, a + "\r" + b)]) == e + "\r" + (b + "\n") by {
      assert Strs.Printed([Entry(name, a + "\r" + b)]) == Entry(name, a + "\r" + b) + "\n" + Strs.Printed([]);
    }
    assert Strs.NoBreak(e);
    Strs.UniversalReturn(e, b + "\n");
    assert e + "\n" + (b + "\n") == Strs.Printed([e, b]) by {
      assert Strs.Printed([e, b]) == e + "\n" + Strs.Printed([b]);
      assert Strs.Printed([b]) == b + "\n" + Strs.Printed([]);
    }
    Strs.SplitPrinted([e, b]);
    ReturnEndsParse(name, a, b);
  }

  lemma ReturnEndsParse(name: string, a: string, b: string)
    requires Reportable(name, a) && !Strs.StartsWith(b, Prefix)
    ensures Parse(Start, [Entry(name, a), b] + [""]) == Ok(State([(name, a)], []))
  {
    var done := State([(name, a)], []);
    ReportStep(Start, name, a);
    assert Dicts.Set([], name, a) == [(name, a)];
    assert Assigned(Start, name, a) == done;
    assert Step(done, b) == Ok(done);
    assert Step(done, "") == Ok(done);
    assert [Entry(name, a), b] + [""] == [Entry(name, a)] + [b, ""];
    ParseOk(Start, Entry(name, a), [b, ""], done);
    ParseOk(done, b, [""], done);
    ParseOk(done, "", [], done);
  }

  /** The value of the last pair with the given name. */
  function LastValue(pairs: Meta, name: string): string
    requires name in Dicts.Keys(pairs)
    decreases |pairs|
  {
    if name in Dicts.Keys(pairs[1..]) then LastValue(pairs[1..], name) else pairs[0].1
  }

  /** Assigning pairs in order leaves each name with its last value. */
  lemma {:induction false} AssignLast(acc: Meta, pairs: Meta, name: string)
    requires name in Dicts.Keys(pairs)
    ensures Dicts.Get(Dicts.Assign(acc, pairs), name) == Some(LastValue(pairs, name))
    decreases |pairs|
  {
    var next := Dicts.Set(acc, pairs[0].0, pairs[0].1);
    if name in Dicts.Keys(pairs[1..]) {
      AssignLast(next, pairs[1..], name);
    } else {
      assert name == pairs[0].0;
      Dicts.GetSet(acc, name, pairs[0].1);
      AssignKeeps(next, pairs[1..], name);
    }
  }

  /** Assigning pairs that do not mention a name leaves its value alone. */
  lemma {:induction false} AssignKeeps(acc: Meta, pairs: Meta, name: string)
    requires name !in Dicts.Keys(pairs)
    ensures Dicts.Get(Dicts.Assign(acc, pairs), name) == Dicts.Get(acc, name)
    decreases |pairs|
  {
    if |pairs| > 0 {
      Dicts.GetSetOther(acc, pairs[0].0, pairs[0].1, name);
      AssignKeeps(Dicts.Set(acc, pairs[0].0, pairs[0].1), pairs[1..], name);
    }
  }

  /**
   * `_print_footer` reports the target and the instance before anything the
   * target prints, and its markers are skipped: a footer is read as those two
   * assignments followed by the target's own lines.
   */
  lemma FooterParse(st: State, target: string, instance: string, own: seq<string>, rest: seq<string>)
    requires Reportable("target", target) && Reportable("instance", instance)
    ensures Parse(st, Footer(target, instance, own) + rest)
         == Parse(State(Dicts.Assign(st.meta, [("target", target), ("instance", instance)]),
                        st.dups + Duplicates(st.meta, [("target", target), ("instance", instance)])),
                  own + ([Special("end")] + rest))
  {
    var pairs: Meta := [("target", target), ("instance", instance)];
    FooterPairs(target, instance);
    MarkerSkipped(st, "begin");
    var x := Entries(pairs) + (own + ([Special("end")] + rest));
    FooterAssoc(Special("begin"), Entry("target", target), Entry("instance", instance), own, Special("end"), rest);
    ParseOk(st, Special("begin"), x, st);
    EntriesParse(st, pairs, own + ([Special("end")] + rest));
  }

  /** The two assignments of a footer, and their lines. */
  lemma FooterPairs(target: string, instance: string)
    requires Reportable("target", target) && Reportable("instance", instance)
    ensures var pairs: Meta := [("target", target), ("instance", instance)];
      AllReportable(pairs) && Entries(pairs) == [Entry("target", target), Entry("instance", instance)]
  {
    var pairs: Meta := [("target", target), ("instance", instance)];
    assert pairs[1..] == [("instance", instance)];
    assert pairs[1..][1..] == [];
    assert Entries(pairs[1..]) == [Entry("instance", instance)] + Entries([]);
  }

  lemma FooterAssoc<T>(b: T, e1: T, e2: T, own: seq<T>, e: T, rest: seq<T>)
    ensures [b, e1, e2] + own + [e] + rest == [b] + ([e1, e2] + (own + ([e] + rest)))
  {
  }
}
