/**
 * The result records of `infra/report/runner.py`: `log_result` prints a
 * `[setup-report] begin` line, one `[setup-report] key: value` line per entry
 * and a `[setup-report] end` line into a run's log, and `_parse_metadata`
 * reads those records back from the log file, unboxing each value into a
 * bool, an int, a float or a string.
 *
 * A file is its text; its lines are what a text-mode file yields, `Strs.TextLines`. The
 * log messages `_parse_metadata` emits are returned as diagnostics.
 */
module ReportRunner {

  import opened Wrappers
  import Strs
  import Dicts

  const Prefix: string := "[setup-report]"

  /**
   * The values a result entry holds. A float is kept as the text `str()`
   * gives for it; floating-point arithmetic is not modelled.
   */
  datatype Value = Bool(b: bool) | Int(i: int) | Float(text: string) | Str(s: string)

  /** A record: a dict from entry names to values, in insertion order. */
  type Meta = seq<(string, Value)>

  // ---------------------------------------------------------------------
  // Boxing and unboxing.

  /** `_box_value(value)`, which is `str(value)`. */
  function Box(v: Value): string
  {
    match v
    case Bool(b) => if b then "True" else "False"
    case Int(i) => Strs.IntToString(i)
    case Float(text) => text
    case Str(s) => s
  }

  /** A digit part of a Python float literal: digits with single underscores between them. */
  predicate DigitPart(s: string)
  {
    |s| > 0 && Strs.IsDigit(s[0]) && Strs.IsDigit(s[|s| - 1])
    && forall i :: 0 <= i < |s| ==> Strs.IsDigit(s[i]) || (s[i] == '_' && i + 1 < |s| && Strs.IsDigit(s[i + 1]))
  }

  predicate OptDigitPart(s: string)
  {
    |s| == 0 || DigitPart(s)
  }

  /** The part before the exponent: `digits`, `digits.`, `.digits` or `digits.digits`. */
  predicate Mantissa(m: string)
  {
    ('.' !in m && DigitPart(m))
    || (|m| > 1 && exists i :: 0 <= i < |m| && m[i] == '.' && OptDigitPart(m[..i]) && OptDigitPart(m[i + 1..]))
  }

  predicate Exponent(e: string)
  {
    if |e| > 0 && (e[0] == '+' || e[0] == '-') then DigitPart(e[1..]) else DigitPart(e)
  }

  /** A decimal float literal: a mantissa and an optional `e`/`E` exponent. */
  predicate Decimal(t: string)
  {
    Mantissa(t)
    || exists i :: 0 <= i < |t| && (t[i] == 'e' || t[i] == 'E') && Mantissa(t[..i]) && Exponent(t[i + 1..])
  }

  /** ASCII lower case. */
  function Lower(s: string): (r: string)
    ensures |r| == |s|
  {
    seq(|s|, i requires 0 <= i < |s| => if 'A' <= s[i] <= 'Z' then (s[i] as int + 32) as char else s[i])
  }

  /**
   * Does `float(s)` accept `s`? Surrounding whitespace, an optional sign, and
   * a decimal literal or `inf`, `infinity`, `nan` in any case.
   */
  predicate IsFloat(s: string)
  {
    var t := Strs.Strip(s);
    var body := if |t| > 0 && (t[0] == '+' || t[0] == '-') then t[1..] else t;
    Lower(body) == "inf" || Lower(body) == "infinity" || Lower(body) == "nan" || Decimal(body)
  }

  /**
   * `_unbox_value(value)`: 'True' and 'False' are bools, an all-digit string
   * is an int, a string `float()` accepts is a float and anything else stays
   * a string.
   */
  function Unbox(value: string): (r: Value)
    ensures r.Bool? <==> value == "True" || value == "False"
    ensures r.Int? <==> value != "True" && value != "False" && Strs.AllDigits(value)
    ensures r.Float? <==> value != "True" && value != "False" && !Strs.AllDigits(value) && IsFloat(value)
    ensures Box(r) == value || r.Int?
  {
    if value == "True" then Bool(true)
    else if value == "False" then Bool(false)
    else if Strs.AllDigits(value) then Int(Strs.DigitsValue(value))
    else if IsFloat(value) then Float(value)
    else Str(value)
  }

  /** A line break of Python's universal newlines. */
  predicate IsBreak(ch: char)
  {
    ch == '\n' || ch == '\r'
  }

  /** A value text that survives being one line of a log: no line break, no trailing whitespace. */
  predicate OneLine(s: string)
  {
    |s| > 0 && !Strs.IsSpace(s[|s| - 1]) && forall i :: 0 <= i < |s| ==> !IsBreak(s[i])
  }

  /** The values whose text `_unbox_value` reads back as the same value. */
  predicate Unboxable(v: Value)
  {
    match v
    case Bool(_) => true
    case Int(i) => i >= 0
    case Float(text) => OneLine(text) && IsFloat(text) && !Strs.AllDigits(text) && text != "True" && text != "False"
    case Str(s) => OneLine(s) && !IsFloat(s) && !Strs.AllDigits(s) && s != "True" && s != "False"
  }

  /** `_unbox_value(_box_value(v)) == v` for the values above. */
  lemma UnboxBox(v: Value)
    requires Unboxable(v)
    ensures Unbox(Box(v)) == v
  {
    if v.Int? {
      Strs.NatToStringRoundTrip(v.i);
    }
  }

  /** The text of a negative int is a float literal, so it comes back as a float. */
  lemma NegativeIntUnboxesAsFloat(i: int)
    requires i < 0
    ensures Unbox(Box(Int(i))) == Float(Strs.IntToString(i))
  {
    var d := Strs.NatToString(-i);
    var s := Strs.IntToString(i);
    assert s == "-" + d;
    assert Strs.IsDigit(d[|d| - 1]);
    assert s[|s| - 1] == d[|d| - 1];
    Strs.StripClean(s);
    assert s[1..] == d;
    assert '.' !in d by {
      forall k | 0 <= k < |d| ensures d[k] != '.' { assert Strs.IsDigit(d[k]); }
    }
    assert Mantissa(d);
    assert !Strs.AllDigits(s) by { assert !Strs.IsDigit(s[0]); }
  }

  // ---------------------------------------------------------------------
  // Printing.

  /** `print(prefix, statement)`, without its newline. */
  function Statement(s: string): string
  {
    Prefix + " " + s
  }

  /** `print(prefix, key + ':', _box_value(value))`, without its newline. */
  function EntryLine(key: string, v: Value): string
  {
    Statement(key + ": " + Box(v))
  }

  /** The lines `log_result(data)` prints for its entries. */
  function EntryLines(data: Meta): (ls: seq<string>)
    ensures |ls| == |data|
    decreases |data|
  {
    if |data| == 0 then [] else [EntryLine(data[0].0, data[0].1)] + EntryLines(data[1..])
  }

  function RecordLines(data: Meta): seq<string>
  {
    [Statement("begin")] + EntryLines(data) + [Statement("end")]
  }

  /** `log_result(data)`: the text it prints, one line at a time. */
  method LogResult(data: Meta) returns (out: string)
    ensures out == Strs.Printed(RecordLines(data))
  {
    out := Statement("begin") + "\n";
    ghost var printed: seq<string> := [Statement("begin")];
    Strs.PrintedSnoc([], Statement("begin"));
    assert [] + [Statement("begin")] == printed;
    for k := 0 to |data|
      invariant printed == [Statement("begin")] + EntryLines(data[..k])
      invariant out == Strs.Printed(printed)
    {
      var line := EntryLine(data[k].0, data[k].1);
      assert data[..k + 1] == data[..k] + [data[k]];
      EntryLinesSnoc(data[..k], data[k]);
      Strs.PrintedSnoc(printed, line);
      printed := printed + [line];
      out := out + (line + "\n");
    }
    assert data[..|data|] == data;
    Strs.PrintedSnoc(printed, Statement("end"));
    out := out + (Statement("end") + "\n");
  }

  lemma {:induction false} EntryLinesSnoc(data: Meta, e: (string, Value))
    ensures EntryLines(data + [e]) == EntryLines(data) + [EntryLine(e.0, e.1)]
    decreases |data|
  {
    if |data| > 0 {
      assert (data + [e])[1..] == data[1..] + [e];
      EntryLinesSnoc(data[1..], e);
    }
  }

  lemma {:induction false} EntryLinesAt(data: Meta, i: int)
    requires 0 <= i < |data|
    ensures EntryLines(data)[i] == EntryLine(data[i].0, data[i].1)
    decreases |data|
  {
    if i > 0 {
      EntryLinesAt(data[1..], i - 1);
    }
  }

  // ---------------------------------------------------------------------
  // Parsing.

  /** The messages `_parse_metadata` logs. */
  datatype Diag = Outside | Duplicate(name: string) | Unterminated

  /** The parser between lines: the open record, the records yielded so far and the log. */
  datatype State = State(meta: Option<Meta>, records: seq<Option<Meta>>, diags: seq<Diag>)

  /** `line[len(prefix) + 1:]`: Python's slice is empty when the line is too short. */
  function AfterPrefix(line: string): string
  {
    if |line| > |Prefix| then line[|Prefix| + 1..] else ""
  }

  /** No `': '` occurs in `s`. */
  predicate NoSep(s: string)
  {
    forall k :: 0 <= k < |s| ==> !Strs.OccursAt(s, ": ", k)
  }

  /** `statement.split(': ', 1)` unpacked into two names, or the `ValueError` unpacking raises. */
  function SplitEntry(statement: string): (r: Result<(string, string)>)
    ensures r.Err? <==> NoSep(statement)
    ensures r.Ok? ==> r.value.0 + ": " + r.value.1 == statement
    ensures r.Ok? ==> NoSep(r.value.0)
  {
    match Strs.FindFrom(statement, ": ", 0)
    case None => Err(ValueError("not enough values to unpack (expected 2, got 1)"))
    case Some(i) =>
      var name := statement[..i];
      forall k | 0 <= k < |name| && Strs.OccursAt(name, ": ", k) ensures Strs.OccursAt(statement, ": ", k) {
        assert statement[k..k + 2] == name[k..k + 2];
      }
      assert statement[..i] + ": " + statement[i + 2..] == statement by {
        assert statement[i..i + 2] == ": ";
      }
      Ok((name, statement[i + 2..]))
  }

  /** The statement of a line that starts with the prefix once rstripped; `None` for other lines. */
  function StatementOf(raw: string): Option<string>
  {
    var line := Strs.RStrip(raw);
    if Strs.StartsWith(line, Prefix) then Some(AfterPrefix(line)) else None
  }

  /** What one statement does to the parser. */
  function Apply(st: State, statement: string): Result<State>
  {
    if statement == "begin" then Ok(st.(meta := Some([])))
    else if statement == "end" then Ok(State(None, st.records + [st.meta], st.diags))
    else if st.meta.None? then Ok(st.(diags := st.diags + [Outside]))
    else match SplitEntry(statement)
      case Err(e) => Err(e)
      case Ok((name, value)) =>
        var diags := if name in Dicts.Keys(st.meta.value) then st.diags + [Duplicate(name)] else st.diags;
        Ok(State(Some(Dicts.Set(st.meta.value, name, Unbox(value))), st.records, diags))
  }

  /** One iteration of the line loop of `_parse_metadata`. */
  function Step(st: State, raw: string): Result<State>
  {
    match StatementOf(raw)
    case None => Ok(st)
    case Some(statement) => Apply(st, statement)
  }

  /** The loop over `lines`, stopping at the first error. */
  function Parse(st: State, lines: seq<string>): Result<State>
    decreases |lines|
  {
    if |lines| == 0 then Ok(st)
    else match Step(st, lines[0])
      case Err(e) => Err(e)
      case Ok(next) => Parse(next, lines[1..])
  }

  /** After the loop: an open record is reported and dropped. */
  function Finish(st: State): (seq<Option<Meta>>, seq<Diag>)
  {
    (st.records, if st.meta.Some? then st.diags + [Unterminated] else st.diags)
  }

  const Start := State(None, [], [])

  /** The records of a file, in file order, and the log; or the error that ends the parse. */
  function Metadata(text: string): Result<(seq<Option<Meta>>, seq<Diag>)>
  {
    match Parse(Start, Strs.TextLines(text))
    case Err(e) => Err(e)
    case Ok(st) => Ok(Finish(st))
  }

  /** `_parse_metadata` and the loop that consumes its records. */
  method ParseMetadata(text: string) returns (r: Result<(seq<Option<Meta>>, seq<Diag>)>)
    ensures r == Metadata(text)
  {
    var lines := Strs.TextLines(text);
    var meta: Option<Meta> := None;
    var records: seq<Option<Meta>> := [];
    var diags: seq<Diag> := [];
    for k := 0 to |lines|
      invariant Parse(Start, lines) == Parse(State(meta, records, diags), lines[k..])
    {
      ghost var st := State(meta, records, diags);
      assert lines[k..][1..] == lines[k + 1..];
      var line := Strs.RStrip(lines[k]);
      if Strs.StartsWith(line, Prefix) {
        var statement := AfterPrefix(line);
        if statement == "begin" {
          meta := Some([]);
        } else if statement == "end" {
          records := records + [meta];
          meta := None;
        } else if meta.None? {
          diags := diags + [Outside];
        } else {
          var split := SplitEntry(statement);
          if split.Err? {
            return Err(split.error);
          }
          var (name, value) := split.value;
          if name in Dicts.Keys(meta.value) {
            diags := diags + [Duplicate(name)];
          }
          meta := Some(Dicts.Set(meta.value, name, Unbox(value)));
        }
      }
      assert Step(st, lines[k]) == Ok(State(meta, records, diags));
    }
    if meta.Some? {
      diags := diags + [Unterminated];
    }
    return Ok((records, diags));
  }

  // ---------------------------------------------------------------------
  // Properties.

  lemma ParseCons(st: State, line: string, rest: seq<string>)
    ensures Step(st, line).Err? ==> Parse(st, [line] + rest) == Err(Step(st, line).error)
    ensures Step(st, line).Ok? ==> Parse(st, [line] + rest) == Parse(Step(st, line).value, rest)
  {
    assert ([line] + rest)[1..] == rest;
  }

  lemma ParseOk(st: State, line: string, rest: seq<string>, next: State)
    requires Step(st, line) == Ok(next)
    ensures Parse(st, [line] + rest) == Parse(next, rest)
  {
    ParseCons(st, line, rest);
  }

  lemma ParseChain(s0: State, s1: State, s2: State, line: string, x: seq<string>, rest: seq<string>, lines: seq<string>)
    requires lines == [line] + x
    requires Parse(s0, [line] + x) == Parse(s1, x)
    requires Parse(s1, x) == Parse(s2, rest)
    ensures Parse(s0, lines) == Parse(s2, rest)
  {
  }

  /** A line without the prefix changes nothing. */
  lemma ForeignLine(st: State, raw: string)
    requires !Strs.StartsWith(raw, Prefix)
    ensures Step(st, raw) == Ok(st)
  {
  }

  /** A printed statement that does not end in whitespace reads back as itself. */
  lemma StatementRead(s: string)
    requires |s| > 0 && !Strs.IsSpace(s[|s| - 1])
    ensures StatementOf(Statement(s)) == Some(s)
  {
    var line := Statement(s);
    assert line[|line| - 1] == s[|s| - 1];
    Strs.RStripNoTrailing(line);
    assert line[..|Prefix|] == Prefix;
    assert line[|Prefix| + 1..] == s;
  }

  /** An entry statement splits at the end of its key and is neither `begin` nor `end`. */
  lemma EntrySplit(key: string, b: string)
    requires NoSep(key)
    ensures key + ": " + b != "begin" && key + ": " + b != "end"
    ensures SplitEntry(key + ": " + b) == Ok((key, b))
  {
    var statement := key + ": " + b;
    assert statement[|key|] == ':';
    assert Strs.OccursAt(statement, ": ", |key|) by {
      assert statement[|key|..|key| + 2] == ": ";
    }
    assert statement == key + (": " + b);
    Strs.NoOccurrenceAcross(key, ": ", ": " + b);
    assert Strs.FindFrom(statement, ": ", 0) == Some(|key|);
    assert statement[..|key|] == key;
    assert statement[|key| + 2..] == b;
  }

  lemma UnboxableOneLine(v: Value)
    requires Unboxable(v)
    ensures OneLine(Box(v))
  {
    if v.Int? {
      var s := Strs.NatToString(v.i);
      assert Strs.IsDigit(s[|s| - 1]);
      forall i | 0 <= i < |s| ensures !IsBreak(s[i]) { assert Strs.IsDigit(s[i]); }
    }
  }

  /** An entry line outside a record is logged and otherwise ignored. */
  lemma OutsideIgnored(records: seq<Option<Meta>>, diags: seq<Diag>, key: string, v: Value)
    requires NoSep(key)
    requires OneLine(Box(v))
    ensures Step(State(None, records, diags), EntryLine(key, v)) == Ok(State(None, records, diags + [Outside]))
  {
    StatementRead(key + ": " + Box(v));
    EntrySplit(key, Box(v));
  }

  /**
   * A `begin` line opens an empty record; one inside an open record discards
   * what that record held.
   */
  lemma BeginOpens(st: State)
    ensures Step(st, Statement("begin")) == Ok(st.(meta := Some([])))
  {
    StatementRead("begin");
  }

  /**
   * An `end` line yields the open record and closes it; a stray `end` yields
   * `None`.
   */
  lemma EndYields(st: State)
    ensures Step(st, Statement("end")) == Ok(State(None, st.records + [st.meta], st.diags))
  {
    StatementRead("end");
  }

  /** A record left open at the end of the file is dropped with a message. */
  lemma UnterminatedDropped(m: Meta, records: seq<Option<Meta>>, diags: seq<Diag>)
    ensures Finish(State(Some(m), records, diags)) == (records, diags + [Unterminated])
  {
  }

  /** A duplicate entry keeps the last value and is logged. */
  lemma DuplicateLastWins(m: Meta, records: seq<Option<Meta>>, diags: seq<Diag>, key: string, v: Value)
    requires NoSep(key)
    requires Unboxable(v)
    requires key in Dicts.Keys(m)
    ensures Step(State(Some(m), records, diags), EntryLine(key, v)).Ok?
    ensures var st := Step(State(Some(m), records, diags), EntryLine(key, v)).value;
      st.meta.Some? && Dicts.Get(st.meta.value, key) == Some(v)
      && Dicts.Keys(st.meta.value) == Dicts.Keys(m) && st.diags == diags + [Duplicate(key)]
  {
    UnboxableOneLine(v);
    StatementRead(key + ": " + Box(v));
    EntrySplit(key, Box(v));
    UnboxBox(v);
    Dicts.GetSet(m, key, v);
  }

  /** An empty string value prints a line that `_parse_metadata` cannot split. */
  lemma EmptyStringRejected(m: Meta, records: seq<Option<Meta>>, diags: seq<Diag>, key: string)
    requires NoSep(key)
    ensures Step(State(Some(m), records, diags), EntryLine(key, Str(""))).Err?
  {
    var raw := EntryLine(key, Str(""));
    var statement := key + ":";
    assert raw == Statement(statement) + " ";
    assert raw[..|raw| - 1] == Statement(statement);
    StatementRead(statement);
    assert StatementOf(raw) == Some(statement);
    assert statement != "begin" && statement != "end" by {
      assert statement[|statement| - 1] == ':';
    }
    Strs.NoOccurrenceAcross(key, ": ", ":");
  }

  /** An entry that can go through a log line and come back. */
  ghost predicate LoggableEntry(e: (string, Value))
  {
    NoSep(e.0) && (forall j :: 0 <= j < |e.0| ==> !IsBreak(e.0[j])) && Unboxable(e.1)
  }

  /** Every entry of a record can go through a log line and come back. */
  ghost predicate LoggableEntries(data: Meta)
    decreases |data|
  {
    |data| == 0 || (LoggableEntry(data[0]) && LoggableEntries(data[1..]))
  }

  /** A record that can go through `log_result` and come back. */
  ghost predicate Loggable(data: Meta)
  {
    Dicts.DistinctKeys(data) && LoggableEntries(data)
  }

  lemma EntryParse(acc: Meta, records: seq<Option<Meta>>, diags: seq<Diag>, e: (string, Value), rest: seq<string>)
    requires LoggableEntry(e) && e.0 !in Dicts.Keys(acc)
    ensures Parse(State(Some(acc), records, diags), [EntryLine(e.0, e.1)] + rest) == Parse(State(Some(acc + [e]), records, diags), rest)
  {
    EntryStep(acc, records, diags, e);
    ParseOk(State(Some(acc), records, diags), EntryLine(e.0, e.1), rest, State(Some(acc + [e]), records, diags));
  }

  /** Reading one entry line with a new key into an open record appends the entry. */
  lemma EntryStep(acc: Meta, records: seq<Option<Meta>>, diags: seq<Diag>, e: (string, Value))
    requires LoggableEntry(e) && e.0 !in Dicts.Keys(acc)
    ensures Step(State(Some(acc), records, diags), EntryLine(e.0, e.1)) == Ok(State(Some(acc + [e]), records, diags))
  {
    UnboxableOneLine(e.1);
    StatementRead(e.0 + ": " + Box(e.1));
    EntrySplit(e.0, Box(e.1));
    UnboxBox(e.1);
    Dicts.SetNew(acc, e.0, e.1);
  }

  /** `(acc + [d[0]]) + d[1..] == acc + d`, kept apart from the facts about `d`. */
  lemma SnocTail<T>(acc: seq<T>, d: seq<T>)
    requires |d| > 0
    ensures acc + [d[0]] + d[1..] == acc + d
  {
    assert [d[0]] + d[1..] == d;
  }

  /** The first entry of a loggable record with new keys, and what remains of it. */
  lemma EntriesCons(acc: Meta, data: Meta)
    requires |data| > 0 && LoggableEntries(data) && Dicts.NewKeys(acc, data)
    ensures LoggableEntry(data[0]) && data[0].0 !in Dicts.Keys(acc)
    ensures LoggableEntries(data[1..]) && Dicts.NewKeys(acc + [data[0]], data[1..])
    ensures acc + [data[0]] + data[1..] == acc + data
  {
    SnocTail(acc, data);
  }

  /** The entry lines of a record start with the line of its first entry. */
  lemma EntryLinesCons(data: Meta, rest: seq<string>)
    requires |data| > 0
    ensures EntryLines(data) + rest == [EntryLine(data[0].0, data[0].1)] + (EntryLines(data[1..]) + rest)
  {
    ConsAssoc(EntryLine(data[0].0, data[0].1), EntryLines(data[1..]), rest);
  }

  lemma ConsAssoc<T>(a: T, b: seq<T>, c: seq<T>)
    ensures [a] + b + c == [a] + (b + c)
  {
  }

  /** Reading a record's entry lines into an open record appends the entries. */
  lemma {:induction false} EntriesParse(acc: Meta, records: seq<Option<Meta>>, diags: seq<Diag>, data: Meta, rest: seq<string>)
    requires LoggableEntries(data) && Dicts.NewKeys(acc, data)
    ensures Parse(State(Some(acc), records, diags), EntryLines(data) + rest)
         == Parse(State(Some(acc + data), records, diags), rest)
    decreases |data|
  {
    if |data| == 0 {
      assert EntryLines(data) + rest == rest && acc + data == acc;
    } else {
      EntriesCons(acc, data);
      EntryLinesCons(data, rest);
      var x := EntryLines(data[1..]) + rest;
      EntryParse(acc, records, diags, data[0], x);
      EntriesParse(acc + [data[0]], records, diags, data[1..], rest);
      ParseChain(State(Some(acc), records, diags), State(Some(acc + [data[0]]), records, diags), State(Some(acc + data), records, diags),
        EntryLine(data[0].0, data[0].1), x, rest, EntryLines(data) + rest);
    }
  }

  lemma NoBreakChar(s: string)
    requires forall j :: 0 <= j < |s| ==> !IsBreak(s[j])
    ensures Strs.NoBreak(s)
  {
  }

  /** An entry line contains no line break. */
  lemma EntryLineOneLine(e: (string, Value))
    requires LoggableEntry(e)
    ensures Strs.NoBreak(EntryLine(e.0, e.1))
  {
    UnboxableOneLine(e.1);
    NoBreakChar(e.0);
    NoBreakChar(Box(e.1));
    NoBreakConcat(e.0, ": ");
    NoBreakConcat(e.0 + ": ", Box(e.1));
    NoBreakConcat(Prefix + " ", e.0 + ": " + Box(e.1));
  }

  lemma NoBreakConcat(a: string, b: string)
    requires Strs.NoBreak(a) && Strs.NoBreak(b)
    ensures Strs.NoBreak(a + b)
  {
  }

  /** The entry lines of a record contain no line break. */
  lemma {:induction false} EntryLinesOneLine(data: Meta)
    requires LoggableEntries(data)
    ensures forall i :: 0 <= i < |data| ==> Strs.NoBreak(EntryLines(data)[i])
    decreases |data|
  {
    if |data| > 0 {
      EntryLineOneLine(data[0]);
      EntryLinesOneLine(data[1..]);
      var ls := EntryLines(data);
      assert ls == [EntryLine(data[0].0, data[0].1)] + EntryLines(data[1..]);
      forall i | 0 <= i < |data| ensures Strs.NoBreak(ls[i]) {
        if i > 0 { assert ls[i] == EntryLines(data[1..])[i - 1]; }
      }
    }
  }

  /** The lines `log_result` prints contain no line break. */
  lemma RecordLinesOneLine(data: Meta)
    requires Loggable(data)
    ensures forall i :: 0 <= i < |RecordLines(data)| ==> Strs.NoBreak(RecordLines(data)[i])
  {
    var ls := RecordLines(data);
    var b, e := Statement("begin"), Statement("end");
    FramesOneLine();
    EntryLinesOneLine(data);
    assert ls == [b] + EntryLines(data) + [e];
    forall i | 0 <= i < |ls| ensures Strs.NoBreak(ls[i]) {
      if i == 0 {
        assert ls[i] == b;
      } else if i == |ls| - 1 {
        assert ls[i] == e;
      } else {
        assert ls[i] == EntryLines(data)[i - 1];
      }
    }
  }

  lemma FramesOneLine()
    ensures Strs.NoBreak(Statement("begin")) && Strs.NoBreak(Statement("end"))
  {
  }

  /** A record's lines are the `begin` line, the entry lines and the `end` line. */
  lemma RecordLinesCons(data: Meta, rest: seq<string>)
    ensures RecordLines(data) + rest == [Statement("begin")] + (EntryLines(data) + ([Statement("end")] + rest))
  {
    FrameAssoc(Statement("begin"), EntryLines(data), Statement("end"), rest);
  }

  lemma FrameAssoc<T>(b: T, body: seq<T>, e: T, rest: seq<T>)
    ensures [b] + body + [e] + rest == [b] + (body + ([e] + rest))
  {
  }

  /** Reading the lines of one `log_result` record, from any parser state, yields that record. */
  lemma RecordParse(st: State, data: Meta, rest: seq<string>)
    requires Loggable(data)
    ensures Parse(st, RecordLines(data) + rest) == Parse(State(None, st.records + [Some(data)], st.diags), rest)
  {
    assert LoggableEntries(data) && Dicts.NewKeys([], data);
    var begin := Statement("begin");
    var end := Statement("end");
    var open := st.(meta := Some([]));
    var filled := st.(meta := Some(data));
    var closed := State(None, st.records + [Some(data)], st.diags);
    assert [] + data == data;
    BeginOpens(st);
    EndYields(filled);
    ParseOk(filled, end, rest, closed);
    var x := EntryLines(data) + ([end] + rest);
    RecordLinesCons(data, rest);
    ParseOk(st, begin, x, open);
    EntriesParse([], st.records, st.diags, data, [end] + rest);
  }

  /** Every record of a sequence can go through `log_result` and come back. */
  ghost predicate AllLoggable(datas: seq<Meta>)
    decreases |datas|
  {
    |datas| == 0 || (Loggable(datas[0]) && AllLoggable(datas[1..]))
  }

  /** The lines of a log that `log_result` wrote to once per record, in order. */
  function LogLines(datas: seq<Meta>): seq<string>
    decreases |datas|
  {
    if |datas| == 0 then [] else RecordLines(datas[0]) + LogLines(datas[1..])
  }

  /** Each record as `_parse_metadata` yields it. */
  function Yielded(datas: seq<Meta>): (r: seq<Option<Meta>>)
    ensures |r| == |datas| && forall i :: 0 <= i < |datas| ==> r[i] == Some(datas[i])
  {
    seq(|datas|, i requires 0 <= i < |datas| => Some(datas[i]))
  }

  /** Reading a log of records from any parser state yields them in order. */
  lemma {:induction false} LogParse(st: State, datas: seq<Meta>, rest: seq<string>)
    requires st.meta.None? && AllLoggable(datas)
    ensures Parse(st, LogLines(datas) + rest) == Parse(State(None, st.records + Yielded(datas), st.diags), rest)
    decreases |datas|
  {
    if |datas| == 0 {
      assert LogLines(datas) + rest == rest;
      assert st.records + Yielded(datas) == st.records;
    } else {
      assert Loggable(datas[0]) && AllLoggable(datas[1..]);
      var next := State(None, st.records + [Some(datas[0])], st.diags);
      assert next.records + Yielded(datas[1..]) == st.records + Yielded(datas);
      assert LogLines(datas) + rest == RecordLines(datas[0]) + (LogLines(datas[1..]) + rest);
      RecordParse(st, datas[0], LogLines(datas[1..]) + rest);
      LogParse(next, datas[1..], rest);
    }
  }

  /** The lines of such a log contain no line break. */
  lemma {:induction false} LogLinesOneLine(datas: seq<Meta>)
    requires AllLoggable(datas)
    ensures forall i :: 0 <= i < |LogLines(datas)| ==> Strs.NoBreak(LogLines(datas)[i])
    decreases |datas|
  {
    if |datas| > 0 {
      RecordLinesOneLine(datas[0]);
      LogLinesOneLine(datas[1..]);
      var a := RecordLines(datas[0]);
      var ls := LogLines(datas);
      assert ls == a + LogLines(datas[1..]);
      forall i | 0 <= i < |ls| ensures Strs.NoBreak(ls[i]) {
        if i >= |a| { assert ls[i] == LogLines(datas[1..])[i - |a|]; }
      }
    }
  }

  /**
   * The round trip: a log that `log_result` wrote to once per record is read
   * back by `_parse_metadata` as exactly those records, in order, with
   * nothing logged.
   */
  lemma LogParseRoundTrip(datas: seq<Meta>)
    requires AllLoggable(datas)
    ensures Metadata(Strs.Printed(LogLines(datas))) == Ok((Yielded(datas), []))
  {
    var closed := State(None, Yielded(datas), []);
    assert [] + Yielded(datas) == Yielded(datas);
    assert [""] == [""] + [];
    ForeignLine(closed, "");
    ParseOk(closed, "", [], closed);
    LogLinesOneLine(datas);
    Strs.TextLinesPrinted(LogLines(datas));
    LogParse(Start, datas, [""]);
  }
}
