/**
 * `_unindent`, defined identically in infra/targets/spec2006/__init__.py,
 * infra/report/runner.py and infra/report.py: it turns an indented
 * triple-quoted shell script into flush-left lines.  First
 * `re.sub(r'^\n|\n *$', '', cmd)` removes one leading newline and a final
 * newline followed only by spaces; then the leading spaces of the first
 * line that has any are removed from every line that starts with them.
 */
module Unindent {

  import opened Wrappers
  import Strs

  /** The number of leading spaces. */
  function SpaceRun(s: string): (n: nat)
    ensures n <= |s| && (forall k :: 0 <= k < n ==> s[k] == ' ') && (n < |s| ==> s[n] != ' ')
    decreases |s|
  {
    if |s| == 0 || s[0] != ' ' then 0 else 1 + SpaceRun(s[1..])
  }

  /** Where `$` matches without `re.M`: at the end, or just before a final newline. */
  predicate AtEnd(u: string)
  {
    |u| == 0 || u == "\n"
  }

  /** The scan for `\n *$` from some position onwards: each match is removed. */
  function TrailStrip(t: string): (r: string)
    ensures |r| <= |t|
    decreases |t|
  {
    if |t| == 0 then ""
    else if t[0] == '\n' && AtEnd(t[1 + SpaceRun(t[1..])..]) then TrailStrip(t[1 + SpaceRun(t[1..])..])
    else [t[0]] + TrailStrip(t[1..])
  }

  /** `re.sub(r'^\n|\n *$', '', cmd)`: at position 0 the first alternative wins. */
  function StripEnds(cmd: string): string
  {
    if |cmd| > 0 && cmd[0] == '\n' then TrailStrip(cmd[1..]) else TrailStrip(cmd)
  }

  /** The index of the first line that starts with a space. */
  function FirstIndented(lines: seq<string>): (r: Option<nat>)
    ensures r.Some? ==> r.value < |lines| && Strs.StartsWith(lines[r.value], " ")
    ensures r.Some? ==> forall k :: 0 <= k < r.value ==> !Strs.StartsWith(lines[k], " ")
    ensures r.None? ==> forall k :: 0 <= k < |lines| ==> !Strs.StartsWith(lines[k], " ")
  {
    if |lines| == 0 then None
    else if Strs.StartsWith(lines[0], " ") then Some(0)
    else match FirstIndented(lines[1..])
      case None => None
      case Some(k) => Some(k + 1)
  }

  /** One line of `re.sub('^' + indent, '', s, 0, re.M)`. */
  function DropLine(indent: string, line: string): (r: string)
    ensures Strs.StartsWith(line, indent) ==> line == indent + r
    ensures !Strs.StartsWith(line, indent) ==> r == line
  {
    if Strs.StartsWith(line, indent) then line[|indent|..] else line
  }

  /** `re.sub('^' + indent, '', s, 0, re.M)` on the lines of `s`. */
  function DropIndent(indent: string, lines: seq<string>): (r: seq<string>)
    ensures |r| == |lines| && forall k :: 0 <= k < |lines| ==> r[k] == DropLine(indent, lines[k])
  {
    if |lines| == 0 then [] else [DropLine(indent, lines[0])] + DropIndent(indent, lines[1..])
  }

  /** The indentation `re.search('^ +', s, re.M)` finds, if any. */
  function Indent(lines: seq<string>): Option<string>
  {
    match FirstIndented(lines)
    case None => None
    case Some(k) => Some(lines[k][..SpaceRun(lines[k])])
  }

  function Unindent(cmd: string): string
  {
    var stripped := StripEnds(cmd);
    match Indent(Strs.Split(stripped, '\n'))
    case None => stripped
    case Some(indent) => Strs.Join("\n", DropIndent(indent, Strs.Split(stripped, '\n')))
  }

  /**
   * Line by line: with no indented line nothing changes; otherwise every
   * line starting with the indentation of the first indented line loses it,
   * the others are kept, and that first indented line no longer starts with
   * a space.
   */
  lemma UnindentLines(cmd: string)
    ensures var lines := Strs.Split(StripEnds(cmd), '\n');
      var out := Strs.Split(Unindent(cmd), '\n');
      && |out| == |lines|
      && (FirstIndented(lines).None? ==> out == lines)
      && (FirstIndented(lines).Some? ==>
           var k0 := FirstIndented(lines).value;
           var indent := lines[k0][..SpaceRun(lines[k0])];
           && |indent| > 0
           && (forall k :: 0 <= k < |lines| ==> out[k] == DropLine(indent, lines[k]))
           && (forall k :: 0 <= k < k0 ==> out[k] == lines[k])
           && !Strs.StartsWith(out[k0], " "))
  {
    var stripped := StripEnds(cmd);
    var lines := Strs.Split(stripped, '\n');
    Strs.JoinSplit(stripped, '\n');
    if FirstIndented(lines).Some? {
      var k0 := FirstIndented(lines).value;
      var indent := lines[k0][..SpaceRun(lines[k0])];
      var dropped := DropIndent(indent, lines);
      DroppedLines(indent, lines);
      Strs.SplitJoin(dropped, '\n');
      assert Unindent(cmd) == Strs.Join("\n", dropped);
    }
  }

  /** Dropping an indentation keeps lines free of newlines, leaves unindented lines alone and strips the first indented line's spaces. */
  lemma DroppedLines(indent: string, lines: seq<string>)
    requires |lines| > 0 && forall k :: 0 <= k < |lines| ==> '\n' !in lines[k]
    requires FirstIndented(lines).Some?
    requires var k0 := FirstIndented(lines).value; indent == lines[k0][..SpaceRun(lines[k0])]
    ensures var dropped := DropIndent(indent, lines);
      && |dropped| > 0
      && (forall k :: 0 <= k < |dropped| ==> '\n' !in dropped[k])
      && (forall k :: 0 <= k < FirstIndented(lines).value ==> dropped[k] == lines[k])
      && !Strs.StartsWith(dropped[FirstIndented(lines).value], " ")
  {
    var k0 := FirstIndented(lines).value;
    var dropped := DropIndent(indent, lines);
    forall k | 0 <= k < |dropped| ensures '\n' !in dropped[k] {
      DropLineNoNewline(indent, lines[k]);
    }
    IndentOf(lines[k0]);
    forall k | 0 <= k < k0 ensures dropped[k] == lines[k] {
      DropLineUnindented(indent, lines[k]);
    }
  }

  /** A line's own leading spaces are a non-empty indentation when it starts with a space, and dropping them leaves no leading space. */
  lemma IndentOf(line: string)
    requires Strs.StartsWith(line, " ")
    ensures var indent := line[..SpaceRun(line)];
      |indent| > 0 && indent[0] == ' ' && !Strs.StartsWith(DropLine(indent, line), " ")
  {
    var indent := line[..SpaceRun(line)];
    assert Strs.StartsWith(line, indent);
    assert DropLine(indent, line) == line[SpaceRun(line)..];
  }

  /** A line without a leading space does not start with an indentation. */
  lemma DropLineUnindented(indent: string, line: string)
    requires |indent| > 0 && indent[0] == ' ' && !Strs.StartsWith(line, " ")
    ensures DropLine(indent, line) == line
  {
    if |line| >= |indent| {
      assert line[..|indent|][0] == line[0];
    }
  }

  lemma DropLineNoNewline(indent: string, line: string)
    requires '\n' !in line
    ensures '\n' !in DropLine(indent, line)
  {
    var r := DropLine(indent, line);
    if Strs.StartsWith(line, indent) {
      assert forall j :: 0 <= j < |r| ==> r[j] == line[|indent| + j];
    }
  }

  /**
   * A triple-quoted script whose text starts on the line after the quotes
   * and whose closing quotes sit on a line of their own: the surrounding
   * newlines and the closing line's spaces are removed and nothing else.
   */
  lemma StripTripleQuoted(body: string, spaces: string)
    requires |body| > 0 && body[|body| - 1] != ' ' && body[|body| - 1] != '\n'
    requires forall k :: 0 <= k < |spaces| ==> spaces[k] == ' '
    ensures StripEnds("\n" + body + "\n" + spaces) == body
  {
    var tail := "\n" + spaces;
    assert ("\n" + body + "\n" + spaces)[1..] == body + tail;
    ClosingLine(spaces);
    KeepBody(body, tail);
    assert body + "" == body;
  }

  lemma ClosingLine(spaces: string)
    requires forall k :: 0 <= k < |spaces| ==> spaces[k] == ' '
    ensures TrailStrip("\n" + spaces) == ""
  {
    var t := "\n" + spaces;
    assert t[1..] == spaces;
    AllSpaces(spaces);
    assert t[1 + |spaces|..] == "";
  }

  lemma {:induction false} AllSpaces(s: string)
    requires forall k :: 0 <= k < |s| ==> s[k] == ' '
    ensures SpaceRun(s) == |s|
    decreases |s|
  {
    if |s| > 0 {
      AllSpaces(s[1..]);
    }
  }

  /** A body that ends in a character other than a space or a newline is kept in front of a tail starting with a newline. */
  lemma {:induction false} KeepBody(body: string, tail: string)
    requires |body| > 0 && body[|body| - 1] != ' ' && body[|body| - 1] != '\n'
    requires |tail| > 0 && tail[0] == '\n'
    ensures TrailStrip(body + tail) == body + TrailStrip(tail)
    decreases |body|
  {
    var t := body + tail;
    var rest := body[1..];
    assert t[1..] == rest + tail;
    if t[0] == '\n' {
      SpaceRunStops(rest, tail);
    }
    TrailKeep(t);
    if |rest| > 0 {
      KeepBody(rest, tail);
      assert [body[0]] + (rest + TrailStrip(tail)) == body + TrailStrip(tail);
    }
  }

  lemma TrailKeep(t: string)
    requires |t| > 0 && (t[0] != '\n' || |t[1 + SpaceRun(t[1..])..]| >= 2)
    ensures TrailStrip(t) == [t[0]] + TrailStrip(t[1..])
  {
  }

  lemma {:induction false} SpaceRunStops(a: string, b: string)
    requires |a| > 0 && a[|a| - 1] != ' '
    ensures SpaceRun(a + b) == SpaceRun(a) && SpaceRun(a) < |a|
    decreases |a|
  {
    if a[0] == ' ' {
      assert (a + b)[1..] == a[1..] + b;
      SpaceRunStops(a[1..], b);
    }
  }

  /** Each line with `indent` in front. */
  function Indented(indent: string, lines: seq<string>): (r: seq<string>)
    ensures |r| == |lines| && forall k :: 0 <= k < |lines| ==> r[k] == indent + lines[k]
  {
    seq(|lines|, k requires 0 <= k < |lines| => indent + lines[k])
  }

  /**
   * A triple-quoted script written as the lines `head`, each indented by
   * `indent`, then the lines `tail` as they are, then the closing quotes
   * indented by `indent` again: `_unindent` gives `head` flush left and
   * removes `indent` from the lines of `tail` that start with it.
   */
  lemma UnindentBlock(indent: string, head: seq<string>, tail: seq<string>)
    requires |indent| > 0 && forall k :: 0 <= k < |indent| ==> indent[k] == ' '
    requires |head| > 0 && |head[0]| > 0 && head[0][0] != ' '
    requires forall k :: 0 <= k < |head| ==> '\n' !in head[k]
    requires forall k :: 0 <= k < |tail| ==> '\n' !in tail[k]
    requires var last := if |tail| > 0 then tail[|tail| - 1] else head[|head| - 1];
      |last| > 0 && last[|last| - 1] != ' '
    ensures Unindent("\n" + Strs.Join("\n", Indented(indent, head) + tail + [indent]))
            == Strs.Join("\n", head + DropIndent(indent, tail))
  {
    var lines := Indented(indent, head) + tail;
    var body := Strs.Join("\n", lines);
    var cmd := "\n" + Strs.Join("\n", lines + [indent]);
    BlockLines(indent, head, tail);
    BlockStrip(indent, lines);
    Strs.SplitJoin(lines, '\n');
    BlockIndent(indent, head, tail);
    assert StripEnds(cmd) == body;
    assert Strs.Split(StripEnds(cmd), '\n') == lines;
  }

  lemma BlockLines(indent: string, head: seq<string>, tail: seq<string>)
    requires forall k :: 0 <= k < |indent| ==> indent[k] == ' '
    requires forall k :: 0 <= k < |head| ==> '\n' !in head[k]
    requires forall k :: 0 <= k < |tail| ==> '\n' !in tail[k]
    ensures var lines := Indented(indent, head) + tail; forall k :: 0 <= k < |lines| ==> '\n' !in lines[k]
  {
    var lines := Indented(indent, head) + tail;
    forall k | 0 <= k < |lines| ensures '\n' !in lines[k] {
      if k < |head| {
        NoNewlineAfter(indent, head[k]);
      } else {
        assert lines[k] == tail[k - |head|];
      }
    }
  }

  lemma BlockStrip(indent: string, lines: seq<string>)
    requires forall k :: 0 <= k < |indent| ==> indent[k] == ' '
    requires |lines| > 0 && forall k :: 0 <= k < |lines| ==> '\n' !in lines[k]
    requires var l := lines[|lines| - 1]; |l| > 0 && l[|l| - 1] != ' '
    ensures StripEnds("\n" + Strs.Join("\n", lines + [indent])) == Strs.Join("\n", lines)
  {
    var body := Strs.Join("\n", lines);
    Strs.JoinSnoc("\n", lines, indent);
    assert "\n" + Strs.Join("\n", lines + [indent]) == "\n" + body + "\n" + indent;
    var l := lines[|lines| - 1];
    assert l[|l| - 1] in l;
    Strs.JoinLast("\n", lines);
    StripTripleQuoted(body, indent);
  }

  lemma BlockIndent(indent: string, head: seq<string>, tail: seq<string>)
    requires |indent| > 0 && forall k :: 0 <= k < |indent| ==> indent[k] == ' '
    requires |head| > 0 && |head[0]| > 0 && head[0][0] != ' '
    ensures var lines := Indented(indent, head) + tail;
      Indent(lines) == Some(indent) && DropIndent(indent, lines) == head + DropIndent(indent, tail)
  {
    var lines := Indented(indent, head) + tail;
    assert lines[0] == indent + head[0];
    assert lines[0][..1] == " ";
    SpaceRunAfter(indent, head[0]);
    assert lines[0][..|indent|] == indent;
    var out := DropIndent(indent, lines);
    forall k | 0 <= k < |lines| ensures out[k] == (head + DropIndent(indent, tail))[k] {
      if k < |head| {
        assert lines[k] == indent + head[k];
        assert Strs.StartsWith(lines[k], indent);
      } else {
        assert lines[k] == tail[k - |head|];
      }
    }
  }

  lemma NoNewlineAfter(indent: string, s: string)
    requires (forall k :: 0 <= k < |indent| ==> indent[k] == ' ') && '\n' !in s
    ensures '\n' !in indent + s
  {
    forall k | 0 <= k < |indent + s| ensures (indent + s)[k] != '\n' {
      if k >= |indent| { assert (indent + s)[k] == s[k - |indent|]; }
    }
  }

  lemma {:induction false} SpaceRunAfter(indent: string, s: string)
    requires forall k :: 0 <= k < |indent| ==> indent[k] == ' '
    requires |s| > 0 && s[0] != ' '
    ensures SpaceRun(indent + s) == |indent|
    decreases |indent|
  {
    if |indent| > 0 {
      assert (indent + s)[1..] == indent[1..] + s;
      SpaceRunAfter(indent[1..], s);
    } else {
      assert indent + s == s;
    }
  }
}
