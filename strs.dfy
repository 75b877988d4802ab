/**
 * Python string operations that the modelled code relies on: prefixes,
 * `sep.join`, `str.split(sep)`, `str.split()`, `str.rstrip()`, code-point
 * ordering as used by `sorted`, and decimal conversion as done by `str(int)`,
 * `'%d' % n` and `int(s)` on digit strings.
 */
module Strs {

  import opened Wrappers

  predicate StartsWith(s: string, p: string)
  {
    |p| <= |s| && s[..|p|] == p
  }

  predicate EndsWith(s: string, p: string)
  {
    |p| <= |s| && s[|s| - |p|..] == p
  }

  /** `sep.join(parts)`. */
  function Join(sep: string, parts: seq<string>): string
    decreases |parts|
  {
    if |parts| == 0 then ""
    else if |parts| == 1 then parts[0]
    else parts[0] + sep + Join(sep, parts[1..])
  }

  /** Joining a first part in front of a nonempty list. */
  lemma JoinCons(sep: string, a: string, rest: seq<string>)
    requires |rest| > 0
    ensures Join(sep, [a] + rest) == a + sep + Join(sep, rest)
  {
    assert ([a] + rest)[1..] == rest;
  }

  /** Joining one more part at the end. */
  lemma {:induction false} JoinSnoc(sep: string, parts: seq<string>, w: string)
    requires |parts| > 0
    ensures Join(sep, parts + [w]) == Join(sep, parts) + sep + w
    decreases |parts|
  {
    if |parts| > 1 {
      JoinSnoc(sep, parts[1..], w);
      assert (parts + [w])[1..] == parts[1..] + [w];
    } else {
      assert parts + [w] == [parts[0], w];
    }
  }

  /** Joining three more parts at the end. */
  lemma {:induction false} JoinSnoc3(sep: string, parts: seq<string>, a: string, b: string, c: string)
    requires |parts| > 0
    ensures Join(sep, parts + [a, b, c]) == Join(sep, parts) + (sep + a + sep + b + sep + c)
  {
    var p1 := parts + [a];
    var p2 := p1 + [b];
    assert p2 + [c] == parts + [a, b, c];
    JoinSnoc(sep, parts, a);
    JoinSnoc(sep, p1, b);
    JoinSnoc(sep, p2, c);
    var j := Join(sep, parts);
    assert j + sep + a + sep + b + sep + c == j + (sep + a + sep + b + sep + c);
  }

  lemma JoinThree(sep: string, a: string, b: string, c: string)
    ensures Join(sep, [a, b, c]) == a + sep + b + sep + c
  {
    JoinCons(sep, b, [c]);
    assert [b, c] == [b] + [c];
    JoinCons(sep, a, [b, c]);
    assert [a, b, c] == [a] + [b, c];
  }

  /** Joining two nonempty lists: the joins with a separator between. */
  lemma {:induction false} JoinAppend(sep: string, a: seq<string>, b: seq<string>)
    requires |a| > 0 && |b| > 0
    ensures Join(sep, a + b) == Join(sep, a) + sep + Join(sep, b)
    decreases |a|
  {
    if |a| == 1 {
      JoinCons(sep, a[0], b);
      assert [a[0]] + b == a + b;
    } else {
      JoinAppend(sep, a[1..], b);
      assert (a + b)[1..] == a[1..] + b;
      var j := Join(sep, a[1..]);
      assert a[0] + sep + (j + sep + Join(sep, b)) == a[0] + sep + j + sep + Join(sep, b);
    }
  }

  /** Text in front of a join joins with the first part. */
  lemma PrefixFirst(sep: string, p: string, parts: seq<string>)
    requires |parts| > 0
    ensures p + Join(sep, parts) == Join(sep, [p + parts[0]] + parts[1..])
  {
    if |parts| > 1 {
      JoinCons(sep, p + parts[0], parts[1..]);
      assert p + (parts[0] + sep + Join(sep, parts[1..])) == p + parts[0] + sep + Join(sep, parts[1..]);
    } else {
      assert [p + parts[0]] + parts[1..] == [p + parts[0]];
    }
  }

  /** A join ends as its last part does. */
  lemma {:induction false} JoinLast(sep: string, parts: seq<string>)
    requires |parts| > 0 && |parts[|parts| - 1]| > 0
    ensures var j := Join(sep, parts); var l := parts[|parts| - 1];
      |j| > 0 && j[|j| - 1] == l[|l| - 1]
    decreases |parts|
  {
    if |parts| > 1 {
      JoinLast(sep, parts[1..]);
    }
  }

  /** `s.split(c)` for a one-character separator: never empty, parts keep empty strings. */
  function Split(s: string, c: char): (parts: seq<string>)
    ensures |parts| > 0
    ensures forall i :: 0 <= i < |parts| ==> c !in parts[i]
    decreases |s|
  {
    if |s| == 0 then [""]
    else if s[0] == c then [""] + Split(s[1..], c)
    else
      var rest := Split(s[1..], c);
      [[s[0]] + rest[0]] + rest[1..]
  }

  lemma {:induction false} JoinSplit(s: string, c: char)
    ensures Join([c], Split(s, c)) == s
    decreases |s|
  {
    if |s| == 0 {
    } else if s[0] == c {
      JoinSplit(s[1..], c);
      var rest := Split(s[1..], c);
      assert Split(s, c) == [""] + rest;
      assert s == [c] + s[1..];
    } else {
      JoinSplit(s[1..], c);
      var rest := Split(s[1..], c);
      var parts := [[s[0]] + rest[0]] + rest[1..];
      assert Split(s, c) == parts;
      if |rest| == 1 {
        assert Join([c], rest) == rest[0];
      } else {
        assert Join([c], rest) == rest[0] + [c] + Join([c], rest[1..]);
        assert parts[1..] == rest[1..];
      }
    }
  }

  /** Splitting a join gives the parts back when no part contains the separator. */
  lemma {:induction false} SplitJoin(parts: seq<string>, c: char)
    requires |parts| > 0
    requires forall i :: 0 <= i < |parts| ==> c !in parts[i]
    ensures Split(Join([c], parts), c) == parts
    decreases |parts|
  {
    if |parts| == 1 {
      SplitNoSep(parts[0], c);
    } else {
      var rest := parts[1..];
      assert forall i :: 0 <= i < |rest| ==> c !in rest[i] by {
        forall i | 0 <= i < |rest| ensures c !in rest[i] {
          assert rest[i] == parts[i + 1];
        }
      }
      SplitJoin(rest, c);
      var j := Join([c], rest);
      assert Join([c], parts) == parts[0] + [c] + j;
      assert c !in parts[0];
      SplitAppend(parts[0], j, c);
      assert [parts[0]] + rest == parts;
    }
  }

  lemma {:induction false} SplitNoSep(s: string, c: char)
    requires c !in s
    ensures Split(s, c) == [s]
    decreases |s|
  {
    if |s| > 0 {
      SplitNoSep(s[1..], c);
      assert [s[0]] + s[1..] == s;
    }
  }

  lemma {:induction false} SplitAppend(a: string, b: string, c: char)
    requires c !in a
    ensures Split(a + [c] + b, c) == [a] + Split(b, c)
    decreases |a|
  {
    if |a| == 0 {
      assert a + [c] + b == [c] + b;
      assert ([c] + b)[1..] == b;
    } else {
      SplitAppend(a[1..], b, c);
      assert (a + [c] + b)[1..] == a[1..] + [c] + b;
      assert [a[0]] + a[1..] == a;
    }
  }

  /** The text `print(l)` writes for each line `l` in turn. */
  function Printed(ls: seq<string>): string
    decreases |ls|
  {
    if |ls| == 0 then "" else ls[0] + "\n" + Printed(ls[1..])
  }

  lemma {:induction false} PrintedAppend(a: seq<string>, b: seq<string>)
    ensures Printed(a + b) == Printed(a) + Printed(b)
    decreases |a|
  {
    if |a| > 0 {
      assert (a + b)[1..] == a[1..] + b;
      PrintedAppend(a[1..], b);
    } else {
      assert a + b == b;
    }
  }

  lemma PrintedSnoc(ls: seq<string>, l: string)
    ensures Printed(ls + [l]) == Printed(ls) + (l + "\n")
  {
    PrintedAppend(ls, [l]);
    assert Printed([l]) == l + "\n" + Printed([]);
  }

  /** Printed lines without a line break read back as those lines and a last empty piece. */
  lemma {:induction false} SplitPrinted(ls: seq<string>)
    requires forall i :: 0 <= i < |ls| ==> '\n' !in ls[i]
    ensures Split(Printed(ls), '\n') == ls + [""]
    decreases |ls|
  {
    if |ls| > 0 {
      SplitPrinted(ls[1..]);
      SplitAppend(ls[0], Printed(ls[1..]), '\n');
      assert [ls[0]] + (ls[1..] + [""]) == ls + [""];
    }
  }

  /** A line without `\n` and `\r`, the two characters universal newlines end a line at. */
  predicate NoBreak(s: string)
  {
    '\n' !in s && '\r' !in s
  }

  /**
   * The text a text-mode `open` reads from `s` (universal newlines): `\r\n`
   * and a lone `\r` are each read as one `\n`.
   */
  function Universal(s: string): (r: string)
    ensures '\r' !in r
    decreases |s|
  {
    if |s| == 0 then ""
    else if s[0] == '\r' then "\n" + Universal(if |s| > 1 && s[1] == '\n' then s[2..] else s[1..])
    else [s[0]] + Universal(s[1..])
  }

  /** The lines `for line in f` yields from a file holding `s`, each without its `\n`. */
  function TextLines(s: string): seq<string>
  {
    Split(Universal(s), '\n')
  }

  /** Text without `\r` is read as it is. */
  lemma {:induction false} UniversalPlain(s: string)
    requires '\r' !in s
    ensures Universal(s) == s
    decreases |s|
  {
    if |s| > 0 {
      UniversalPlain(s[1..]);
    }
  }

  /** A lone `\r` between two texts without `\r` is read as `\n`. */
  lemma {:induction false} UniversalReturn(a: string, b: string)
    requires '\r' !in a && '\r' !in b && (|b| == 0 || b[0] != '\n')
    ensures Universal(a + "\r" + b) == a + "\n" + b
    decreases |a|
  {
    var s := a + "\r" + b;
    if |a| == 0 {
      assert s == "\r" + b && s[1..] == b;
      UniversalPlain(b);
    } else {
      assert s[0] == a[0] && s[1..] == a[1..] + "\r" + b;
      UniversalReturn(a[1..], b);
    }
  }

  lemma {:induction false} PrintedNoReturn(ls: seq<string>)
    requires forall i :: 0 <= i < |ls| ==> '\r' !in ls[i]
    ensures '\r' !in Printed(ls)
    decreases |ls|
  {
    if |ls| > 0 {
      PrintedNoReturn(ls[1..]);
    }
  }

  /** Printed lines without a line break are read back by a text-mode file as those lines and a last empty piece. */
  lemma TextLinesPrinted(ls: seq<string>)
    requires forall i :: 0 <= i < |ls| ==> NoBreak(ls[i])
    ensures TextLines(Printed(ls)) == ls + [""]
  {
    PrintedNoReturn(ls);
    UniversalPlain(Printed(ls));
    SplitPrinted(ls);
  }

  // ---------------------------------------------------------------------
  // Character classes with Python's meaning.

  /** `str.isspace()` for one character. */
  predicate IsSpace(ch: char)
  {
    var n := ch as int;
    (9 <= n <= 13) || (28 <= n <= 32) || n == 0x85 || n == 0xA0 || n == 0x1680
    || (0x2000 <= n <= 0x200A) || n == 0x2028 || n == 0x2029 || n == 0x202F
    || n == 0x205F || n == 0x3000
  }

  /** An ASCII decimal digit: `\d` with `re.ASCII`, and the digits `int()` reads here. */
  predicate IsDigit(ch: char)
  {
    '0' as int <= ch as int <= '9' as int
  }

  /** `s.isdigit()`, restricted to ASCII digits: non-empty and all digits. */
  predicate AllDigits(s: string)
  {
    |s| > 0 && forall i :: 0 <= i < |s| ==> IsDigit(s[i])
  }

  /** `s.rstrip()`: drop trailing whitespace. */
  function RStrip(s: string): (r: string)
    ensures StartsWith(s, r)
    ensures |r| == 0 || !IsSpace(r[|r| - 1])
    ensures forall i :: |r| <= i < |s| ==> IsSpace(s[i])
    decreases |s|
  {
    if |s| == 0 || !IsSpace(s[|s| - 1]) then s else RStrip(s[..|s| - 1])
  }

  lemma RStripNoTrailing(s: string)
    requires |s| == 0 || !IsSpace(s[|s| - 1])
    ensures RStrip(s) == s
  {
  }

  /** The longest prefix of `s` made of characters that are not whitespace. */
  function WordPrefix(s: string): (w: string)
    ensures StartsWith(s, w)
    ensures forall i :: 0 <= i < |w| ==> !IsSpace(w[i])
    ensures |w| == |s| || IsSpace(s[|w|])
    decreases |s|
  {
    if |s| == 0 || IsSpace(s[0]) then "" else [s[0]] + WordPrefix(s[1..])
  }

  /** `s.split()` with no argument: maximal runs of non-whitespace, in order. */
  function Words(s: string): (ws: seq<string>)
    ensures forall i :: 0 <= i < |ws| ==> |ws[i]| > 0
    ensures forall i, j :: 0 <= i < |ws| && 0 <= j < |ws[i]| ==> !IsSpace(ws[i][j])
    decreases |s|
  {
    if |s| == 0 then []
    else if IsSpace(s[0]) then Words(s[1..])
    else
      var w := WordPrefix(s);
      [w] + Words(s[|w|..])
  }

  /** Joining words with single spaces and splitting again gives the words back. */
  lemma {:induction false} WordsJoin(ws: seq<string>)
    requires forall i :: 0 <= i < |ws| ==> |ws[i]| > 0
    requires forall i, j :: 0 <= i < |ws| && 0 <= j < |ws[i]| ==> !IsSpace(ws[i][j])
    ensures Words(Join(" ", ws)) == ws
    decreases |ws|
  {
    if |ws| == 1 {
      WordsOfWord(ws[0], "");
      assert ws[0] + "" == ws[0];
    } else if |ws| > 1 {
      var rest := Join(" ", ws[1..]);
      WordsJoin(ws[1..]);
      assert Join(" ", ws) == ws[0] + (" " + rest);
      WordsOfWord(ws[0], " " + rest);
      assert (" " + rest)[1..] == rest;
      assert Words(" " + rest) == Words(rest);
      assert [ws[0]] + ws[1..] == ws;
    }
  }

  lemma {:induction false} WordsOfWord(w: string, rest: string)
    requires |w| > 0
    requires forall j :: 0 <= j < |w| ==> !IsSpace(w[j])
    requires |rest| == 0 || IsSpace(rest[0])
    ensures Words(w + rest) == [w] + Words(rest)
  {
    WordPrefixOf(w, rest);
    assert (w + rest)[|w|..] == rest;
  }

  lemma {:induction false} WordPrefixOf(w: string, rest: string)
    requires forall j :: 0 <= j < |w| ==> !IsSpace(w[j])
    requires |rest| == 0 || IsSpace(rest[0])
    ensures WordPrefix(w + rest) == w
    decreases |w|
  {
    if |w| == 0 {
      assert w + rest == rest;
    } else {
      WordPrefixOf(w[1..], rest);
      assert (w + rest)[1..] == w[1..] + rest;
      assert [w[0]] + w[1..] == w;
    }
  }

  // ---------------------------------------------------------------------
  // Decimal numerals.

  function DigitChar(d: nat): (ch: char)
    requires d < 10
    ensures IsDigit(ch)
  {
    (d + '0' as int) as char
  }

  /** `str(n)` / `'%d' % n` for a non-negative integer. */
  function NatToString(n: nat): (s: string)
    ensures AllDigits(s)
    decreases n
  {
    if n < 10 then [DigitChar(n)] else NatToString(n / 10) + [DigitChar(n % 10)]
  }

  /** `str(i)` / `'%d' % i` for any integer. */
  function IntToString(i: int): string
  {
    if i < 0 then "-" + NatToString(-i) else NatToString(i)
  }

  /** The value of a string of ASCII digits, as `int(s)` reads it (leading zeros allowed). */
  function DigitsValue(s: string): nat
    requires forall i :: 0 <= i < |s| ==> IsDigit(s[i])
    decreases |s|
  {
    if |s| == 0 then 0 else DigitsValue(s[..|s| - 1]) * 10 + DigitValue(s[|s| - 1])
  }

  function DigitValue(ch: char): (d: nat)
    requires IsDigit(ch)
    ensures d < 10
  {
    ch as int - '0' as int
  }

  lemma {:induction false} NatToStringRoundTrip(n: nat)
    ensures DigitsValue(NatToString(n)) == n
    decreases n
  {
    if n >= 10 {
      NatToStringRoundTrip(n / 10);
      var s := NatToString(n);
      assert s[..|s| - 1] == NatToString(n / 10);
    }
  }

  /** Decimal numerals without leading zeros are exactly the ones `NatToString` prints. */
  lemma {:induction false} DigitsCanonical(s: string)
    requires AllDigits(s) && (s[0] != '0' || |s| == 1)
    ensures NatToString(DigitsValue(s)) == s
    decreases |s|
  {
    if |s| == 1 {
    } else {
      var init := s[..|s| - 1];
      assert init[0] == s[0];
      DigitsCanonical(init);
      DigitsValueLower(init);
      var v := DigitsValue(s);
      assert v / 10 == DigitsValue(init);
      assert v % 10 == DigitValue(s[|s| - 1]);
      assert s == init + [s[|s| - 1]];
    }
  }

  lemma {:induction false} DigitsValueLower(s: string)
    requires AllDigits(s) && s[0] != '0'
    ensures DigitsValue(s) >= 1
    decreases |s|
  {
    if |s| > 1 {
      var init := s[..|s| - 1];
      assert init[0] == s[0];
      DigitsValueLower(init);
    }
  }

  // ---------------------------------------------------------------------
  // Code-point ordering of strings, the order `sorted` uses on `str`.

  predicate StrLt(a: string, b: string)
    decreases |a|
  {
    if |a| == 0 then |b| > 0
    else if |b| == 0 then false
    else if a[0] == b[0] then StrLt(a[1..], b[1..])
    else a[0] < b[0]
  }

  lemma {:induction false} StrLtIrreflexive(a: string)
    ensures !StrLt(a, a)
    decreases |a|
  {
    if |a| > 0 {
      StrLtIrreflexive(a[1..]);
    }
  }

  lemma {:induction false} StrLtTransitive(a: string, b: string, c: string)
    requires StrLt(a, b) && StrLt(b, c)
    ensures StrLt(a, c)
    decreases |a|
  {
    if |a| > 0 && |b| > 0 && |c| > 0 && a[0] == b[0] && b[0] == c[0] {
      StrLtTransitive(a[1..], b[1..], c[1..]);
    }
  }

  lemma {:induction false} StrLtTotal(a: string, b: string)
    ensures a == b || StrLt(a, b) || StrLt(b, a)
    decreases |a|
  {
    if |a| > 0 && |b| > 0 && a[0] == b[0] {
      StrLtTotal(a[1..], b[1..]);
      if a[1..] == b[1..] {
        assert a == [a[0]] + a[1..] && b == [b[0]] + b[1..];
      }
    }
  }

  lemma StrLtAsymmetric(a: string, b: string)
    requires StrLt(a, b)
    ensures !StrLt(b, a)
  {
    if StrLt(b, a) {
      StrLtTransitive(a, b, a);
      StrLtIrreflexive(a);
    }
  }

  /** Strictly increasing, hence also free of duplicates. */
  predicate StrictlySorted(s: seq<string>)
  {
    forall i, j :: 0 <= i < j < |s| ==> StrLt(s[i], s[j])
  }

  /** Non-decreasing: what `sorted` returns for a list that may hold duplicates. */
  predicate Sorted(s: seq<string>)
  {
    forall i, j :: 0 <= i < j < |s| ==> !StrLt(s[j], s[i])
  }

  predicate NoDuplicates<T(==)>(s: seq<T>)
  {
    forall i, j :: 0 <= i < j < |s| ==> s[i] != s[j]
  }

  lemma StrictlySortedNoDuplicates(s: seq<string>)
    requires StrictlySorted(s)
    ensures NoDuplicates(s)
  {
    forall i, j | 0 <= i < j < |s| ensures s[i] != s[j] {
      StrLtIrreflexive(s[i]);
    }
  }

  /** Insert `x` into a strictly sorted list unless it is already there. */
  function InsertUnique(x: string, s: seq<string>): seq<string>
    decreases |s|
  {
    if |s| == 0 then [x]
    else if x == s[0] then s
    else if StrLt(x, s[0]) then [x] + s
    else [s[0]] + InsertUnique(x, s[1..])
  }

  lemma {:induction false} InsertUniqueSpec(x: string, s: seq<string>)
    requires StrictlySorted(s)
    ensures StrictlySorted(InsertUnique(x, s))
    ensures forall y :: y in InsertUnique(x, s) <==> y == x || y in s
    decreases |s|
  {
    if |s| == 0 {
    } else if x == s[0] {
    } else if StrLt(x, s[0]) {
      var r := [x] + s;
      forall i, j | 0 <= i < j < |r| ensures StrLt(r[i], r[j]) {
        if i == 0 && j > 1 {
          StrLtTransitive(x, s[0], s[j - 1]);
        }
      }
    } else {
      StrLtTotal(x, s[0]);
      InsertUniqueSpec(x, s[1..]);
      var t := InsertUnique(x, s[1..]);
      var r := [s[0]] + t;
      forall i, j | 0 <= i < j < |r| ensures StrLt(r[i], r[j]) {
        if i == 0 {
          assert r[j] in t;
          if r[j] != x {
            var k :| 1 <= k < |s| && s[k] == r[j];
          }
        }
      }
      forall y ensures y in r <==> y == x || y in s {
        assert s == [s[0]] + s[1..];
      }
    }
  }

  function Head(s: seq<string>): string
  {
    if |s| > 0 then s[0] else ""
  }

  /** Two strictly sorted lists holding the same strings are equal. */
  lemma {:induction false} StrictlySortedUnique(a: seq<string>, b: seq<string>)
    requires StrictlySorted(a) && StrictlySorted(b)
    requires forall x :: x in a <==> x in b
    ensures a == b
    decreases |a|
  {
    if |a| == 0 {
      assert |b| == 0 || Head(b) in b;
    } else {
      assert a[0] in b;
      assert |b| > 0;
      if a[0] != b[0] {
        assert b[0] in a;
        var i :| 0 <= i < |a| && a[i] == b[0];
        var j :| 0 <= j < |b| && b[j] == a[0];
        assert i > 0 && j > 0;
        assert StrLt(a[0], b[0]) && StrLt(b[0], a[0]);
        StrLtAsymmetric(a[0], b[0]);
      }
      forall x ensures x in a[1..] <==> x in b[1..] {
        if x in a[1..] {
          var i :| 1 <= i < |a| && a[i] == x;
          StrLtIrreflexive(x);
          assert x != a[0];
          assert x in b;
        }
        if x in b[1..] {
          var j :| 1 <= j < |b| && b[j] == x;
          StrLtIrreflexive(x);
          assert x != b[0];
          assert x in a;
        }
      }
      StrictlySortedUnique(a[1..], b[1..]);
      assert a == [a[0]] + a[1..] && b == [b[0]] + b[1..];
    }
  }

  /** `sorted(s)` for a set of strings: the unique strictly sorted list of its members. */
  method SortSet(s: set<string>) returns (r: seq<string>)
    ensures StrictlySorted(r)
    ensures forall x :: x in r <==> x in s
  {
    r := [];
    var rest := s;
    while rest != {}
      invariant rest <= s
      invariant StrictlySorted(r)
      invariant forall x :: x in r <==> x in s && x !in rest
      decreases |rest|
    {
      var x :| x in rest;
      InsertUniqueSpec(x, r);
      r := InsertUnique(x, r);
      rest := rest - {x};
    }
  }

  /** Insert `x` into a sorted list, keeping duplicates. */
  function InsertSorted(x: string, s: seq<string>): seq<string>
    decreases |s|
  {
    if |s| == 0 then [x]
    else if StrLt(s[0], x) || s[0] == x then [s[0]] + InsertSorted(x, s[1..])
    else [x] + s
  }

  /** `sorted(xs)` for a list that may hold duplicates (insertion sort). */
  function SortList(xs: seq<string>): seq<string>
    decreases |xs|
  {
    if |xs| == 0 then [] else InsertSorted(xs[0], SortList(xs[1..]))
  }

  /** `sorted(xs)` / `xs.sort()`: a non-decreasing rearrangement of `xs`. */
  method Sort(xs: seq<string>) returns (r: seq<string>)
    ensures Sorted(r) && multiset(r) == multiset(xs)
  {
    r := SortList(xs);
    SortListSpec(xs);
  }

  /** Every element of `s` is at least `y`. */
  predicate AtLeast(y: string, s: seq<string>)
  {
    forall k :: 0 <= k < |s| ==> !StrLt(s[k], y)
  }

  lemma {:induction false} InsertSortedAtLeast(y: string, x: string, s: seq<string>)
    requires AtLeast(y, s) && !StrLt(x, y)
    ensures AtLeast(y, InsertSorted(x, s))
    decreases |s|
  {
    if |s| > 0 && (StrLt(s[0], x) || s[0] == x) {
      InsertSortedAtLeast(y, x, s[1..]);
    }
  }

  /** A sorted list stays sorted with a least element put in front. */
  lemma SortedCons(y: string, t: seq<string>)
    requires Sorted(t) && AtLeast(y, t)
    ensures Sorted([y] + t)
  {
    var r := [y] + t;
    forall i, j | 0 <= i < j < |r| ensures !StrLt(r[j], r[i]) {
      assert r[j] == t[j - 1];
      if i > 0 {
        assert r[i] == t[i - 1];
      }
    }
  }

  /** Before the head of a sorted list, `x` is no greater than any of its elements. */
  lemma BelowSorted(x: string, s: seq<string>)
    requires Sorted(s) && |s| > 0 && StrLt(x, s[0])
    ensures AtLeast(x, s)
  {
    forall k | 0 <= k < |s| ensures !StrLt(s[k], x) {
      StrLtAsymmetric(x, s[0]);
      if k > 0 && StrLt(s[k], x) {
        assert !StrLt(s[k], s[0]);
        StrLtTotal(s[k], s[0]);
        if s[k] != s[0] {
          StrLtTransitive(s[0], s[k], x);
        }
      }
    }
  }

  lemma {:induction false} InsertSortedMultiset(x: string, s: seq<string>)
    ensures multiset(InsertSorted(x, s)) == multiset(s) + multiset{x}
    decreases |s|
  {
    if |s| > 0 && (StrLt(s[0], x) || s[0] == x) {
      InsertSortedMultiset(x, s[1..]);
      assert s == [s[0]] + s[1..];
    }
  }

  lemma {:induction false} InsertSortedSpec(x: string, s: seq<string>)
    requires Sorted(s)
    ensures Sorted(InsertSorted(x, s))
    ensures multiset(InsertSorted(x, s)) == multiset(s) + multiset{x}
    decreases |s|
  {
    InsertSortedMultiset(x, s);
    if |s| == 0 {
    } else if StrLt(s[0], x) || s[0] == x {
      assert Sorted(s[1..]) by {
        forall i, j | 0 <= i < j < |s[1..]| ensures !StrLt(s[1..][j], s[1..][i]) {
          assert s[1..][j] == s[j + 1] && s[1..][i] == s[i + 1];
        }
      }
      InsertSortedSpec(x, s[1..]);
      assert AtLeast(s[0], s[1..]) by {
        forall k | 0 <= k < |s[1..]| ensures !StrLt(s[1..][k], s[0]) {
          assert s[1..][k] == s[k + 1];
        }
      }
      if StrLt(s[0], x) { StrLtAsymmetric(s[0], x); } else { StrLtIrreflexive(x); }
      InsertSortedAtLeast(s[0], x, s[1..]);
      SortedCons(s[0], InsertSorted(x, s[1..]));
    } else {
      StrLtTotal(s[0], x);
      BelowSorted(x, s);
      SortedCons(x, s);
    }
  }

  lemma {:induction false} SortListSpec(xs: seq<string>)
    ensures Sorted(SortList(xs))
    ensures multiset(SortList(xs)) == multiset(xs)
    decreases |xs|
  {
    if |xs| > 0 {
      SortListSpec(xs[1..]);
      InsertSortedSpec(xs[0], SortList(xs[1..]));
      assert xs == [xs[0]] + xs[1..];
    }
  }

  /** Consecutive strict increase is strict increase. */
  lemma {:induction false} ChainStrictlySorted(s: seq<string>)
    requires forall i :: 0 <= i < |s| - 1 ==> StrLt(s[i], s[i + 1])
    ensures StrictlySorted(s)
    decreases |s|
  {
    if |s| > 1 {
      var t := s[1..];
      forall i | 0 <= i < |t| - 1 ensures StrLt(t[i], t[i + 1]) {
        assert t[i] == s[i + 1] && t[i + 1] == s[i + 2];
      }
      ChainStrictlySorted(t);
      forall i, j | 0 <= i < j < |s| ensures StrLt(s[i], s[j]) {
        if i == 0 && j > 1 {
          assert s[1] == t[0] && s[j] == t[j - 1];
          StrLtTransitive(s[0], s[1], s[j]);
        } else if i > 0 {
          assert s[i] == t[i - 1] && s[j] == t[j - 1];
        }
      }
    }
  }

  /** A list without duplicates holds each element once. */
  lemma {:induction false} NoDuplicatesCount<T>(b: seq<T>)
    requires NoDuplicates(b)
    ensures forall x :: multiset(b)[x] <= 1
    decreases |b|
  {
    if |b| > 0 {
      var t := b[1..];
      assert NoDuplicates(t) by {
        forall i, j | 0 <= i < j < |t| ensures t[i] != t[j] {
          assert t[i] == b[i + 1] && t[j] == b[j + 1];
        }
      }
      NoDuplicatesCount(t);
      assert b == [b[0]] + t;
      assert multiset(b) == multiset{b[0]} + multiset(t);
      assert b[0] !in t by {
        forall k | 0 <= k < |t| ensures t[k] != b[0] {
          assert t[k] == b[k + 1];
        }
      }
    }
  }

  /** A permutation of a list without duplicates has none either. */
  lemma NoDuplicatesOfPermutation<T>(a: seq<T>, b: seq<T>)
    requires NoDuplicates(b) && multiset(a) == multiset(b)
    ensures NoDuplicates(a)
  {
    NoDuplicatesCount(b);
    forall i, j | 0 <= i < j < |a| ensures a[i] != a[j] {
      assert a == a[..j] + a[j..];
      assert a[i] in a[..j] && a[j] in a[j..];
      assert multiset(a) == multiset(a[..j]) + multiset(a[j..]);
      assert multiset(a[..j])[a[i]] >= 1 && multiset(a[j..])[a[j]] >= 1;
      assert multiset(a)[a[i]] <= 1;
    }
  }

  /** Non-decreasing without duplicates is strictly increasing. */
  lemma SortedDistinct(a: seq<string>)
    requires Sorted(a) && NoDuplicates(a)
    ensures StrictlySorted(a)
  {
    forall i, j | 0 <= i < j < |a| ensures StrLt(a[i], a[j]) {
      StrLtTotal(a[i], a[j]);
    }
  }

  /** Sorting a list without duplicates gives the strictly sorted list of the same strings. */
  lemma SortListDistinct(xs: seq<string>, sorted: seq<string>)
    requires StrictlySorted(sorted) && multiset(xs) == multiset(sorted)
    ensures SortList(xs) == sorted && NoDuplicates(xs)
  {
    SortListSpec(xs);
    StrictlySortedNoDuplicates(sorted);
    NoDuplicatesOfPermutation(SortList(xs), sorted);
    NoDuplicatesOfPermutation(xs, sorted);
    SortedDistinct(SortList(xs));
    forall x ensures x in SortList(xs) <==> x in sorted {
      assert x in SortList(xs) <==> x in multiset(SortList(xs));
      assert x in sorted <==> x in multiset(sorted);
    }
    StrictlySortedUnique(SortList(xs), sorted);
  }

  // ---------------------------------------------------------------------
  // Searching.

  /** Does `pat` occur in `s` starting exactly at `i`? */
  predicate OccursAt(s: string, pat: string, i: nat)
  {
    i + |pat| <= |s| && s[i..i + |pat|] == pat
  }

  /** `s.find(pat, start) != npos` / `pat in s[start:]`: the first occurrence at or after `start`. */
  function FindFrom(s: string, pat: string, start: nat): (r: Option<nat>)
    ensures r.Some? ==> start <= r.value && OccursAt(s, pat, r.value)
    ensures r.Some? ==> forall k :: start <= k < r.value ==> !OccursAt(s, pat, k)
    ensures r.None? ==> forall k :: start <= k ==> !OccursAt(s, pat, k)
    decreases |s| - start
  {
    if start + |pat| > |s| then None
    else if s[start..start + |pat|] == pat then Some(start)
    else FindFrom(s, pat, start + 1)
  }


  // ---------------------------------------------------------------------
  // Replacing and integer parsing.

  /** `s.replace(pat, rep)`: every non-overlapping occurrence, scanning left to right. */
  function ReplaceAll(s: string, pat: string, rep: string): (r: string)
    requires |pat| > 0
    decreases |s|
  {
    if |s| < |pat| then s
    else if s[..|pat|] == pat then rep + ReplaceAll(s[|pat|..], pat, rep)
    else [s[0]] + ReplaceAll(s[1..], pat, rep)
  }

  /** Replacing a pattern that does not occur changes nothing. */
  lemma {:induction false} ReplaceAbsent(s: string, pat: string, rep: string)
    requires |pat| > 0 && forall k :: 0 <= k <= |s| ==> !OccursAt(s, pat, k)
    ensures ReplaceAll(s, pat, rep) == s
    decreases |s|
  {
    if |s| >= |pat| {
      assert !OccursAt(s, pat, 0);
      forall k | 0 <= k <= |s[1..]| ensures !OccursAt(s[1..], pat, k) {
        assert !OccursAt(s, pat, k + 1);
      }
      ReplaceAbsent(s[1..], pat, rep);
      assert [s[0]] + s[1..] == s;
    }
  }

  /** Replacing in `p + rest` keeps `p` when no occurrence starts inside `p`. */
  lemma {:induction false} ReplacePrefixFree(p: string, rest: string, pat: string, rep: string)
    requires |pat| > 0 && forall k :: 0 <= k < |p| ==> !OccursAt(p + rest, pat, k)
    ensures ReplaceAll(p + rest, pat, rep) == p + ReplaceAll(rest, pat, rep)
    decreases |p|
  {
    if |p| > 0 {
      var s := p + rest;
      assert !OccursAt(s, pat, 0);
      assert s[1..] == p[1..] + rest;
      forall k | 0 <= k < |p[1..]| ensures !OccursAt(p[1..] + rest, pat, k) {
        assert !OccursAt(s, pat, k + 1);
        if k + |pat| <= |s[1..]| { assert s[1..][k..k + |pat|] == s[k + 1..k + 1 + |pat|]; }
      }
      ReplacePrefixFree(p[1..], rest, pat, rep);
      assert [p[0]] + (p[1..] + ReplaceAll(rest, pat, rep)) == p + ReplaceAll(rest, pat, rep);
    } else {
      assert p + rest == rest;
    }
  }

  /**
   * No occurrence of `pat` starts inside `p + rest` before `|p|` when none
   * lies within `p` and the first character of `rest` cannot continue a
   * partial match.
   */
  lemma NoOccurrenceAcross(p: string, pat: string, rest: string)
    requires |pat| > 0 && |rest| > 0 && rest[0] !in pat[1..]
    requires forall k :: 0 <= k <= |p| ==> !OccursAt(p, pat, k)
    ensures forall k :: 0 <= k < |p| ==> !OccursAt(p + rest, pat, k)
  {
    var s := p + rest;
    forall k | 0 <= k < |p| ensures !OccursAt(s, pat, k) {
      if k + |pat| <= |p| {
        assert s[k..k + |pat|] == p[k..k + |pat|];
        assert !OccursAt(p, pat, k);
      } else if k + |pat| <= |s| {
        var j := |p| - k;
        assert s[k..k + |pat|][j] == rest[0];
        assert pat[1..][j - 1] == pat[j];
      }
    }
  }

  /** `s.lstrip()`. */
  function LStrip(s: string): (r: string)
    ensures EndsWith(s, r) && (|r| == 0 || !IsSpace(r[0]))
    decreases |s|
  {
    if |s| == 0 || !IsSpace(s[0]) then s else LStrip(s[1..])
  }

  /** `s.strip()`. */
  function Strip(s: string): string
  {
    LStrip(RStrip(s))
  }

  /**
   * The digits of a base-10 `int()` literal: ASCII digits, where a single
   * underscore may stand between two digits (`"1_000"`).
   */
  predicate DigitGroups(s: string)
    decreases |s|
  {
    && |s| > 0 && IsDigit(s[0])
    && (|s| == 1 || if s[1] == '_' then |s| > 2 && DigitGroups(s[2..]) else DigitGroups(s[1..]))
  }

  /** `s` without its underscores. */
  function DropUnderscores(s: string): string
    decreases |s|
  {
    if |s| == 0 then "" else (if s[0] == '_' then "" else [s[0]]) + DropUnderscores(s[1..])
  }

  /** What is left of a `DigitGroups` literal without its underscores is digits. */
  lemma {:induction false} DropGroups(s: string)
    requires DigitGroups(s)
    ensures forall i :: 0 <= i < |DropUnderscores(s)| ==> IsDigit(DropUnderscores(s)[i])
    decreases |s|
  {
    var r := DropUnderscores(s);
    if |s| == 1 {
      assert r == [s[0]] + DropUnderscores(s[1..]);
    } else if s[1] != '_' {
      DropGroups(s[1..]);
      assert r == [s[0]] + DropUnderscores(s[1..]);
    } else {
      DropGroups(s[2..]);
      assert s[1..][1..] == s[2..];
      assert r == [s[0]] + DropUnderscores(s[2..]);
    }
  }

  /** The number a literal of `DigitGroups` spells. */
  function GroupsValue(s: string): (v: nat)
    requires DigitGroups(s)
  {
    DropGroups(s);
    DigitsValue(DropUnderscores(s))
  }

  /**
   * `int(s)` for base 10: surrounding whitespace, an optional sign and ASCII
   * digits, in groups that single underscores may separate; anything else
   * is the `ValueError` (here `None`).
   */
  function ParseInt(s: string): (r: Option<int>)
  {
    var t := Strip(s);
    var signed := |t| > 0 && (t[0] == '-' || t[0] == '+');
    var body := if signed then t[1..] else t;
    if DigitGroups(body) then
      var v: int := GroupsValue(body);
      Some(if signed && t[0] == '-' then -v else v)
    else None
  }

  lemma {:induction false} DropUnderscoresAppend(a: string, b: string)
    ensures DropUnderscores(a + b) == DropUnderscores(a) + DropUnderscores(b)
    decreases |a|
  {
    if |a| == 0 {
      assert a + b == b;
    } else {
      assert (a + b)[1..] == a[1..] + b;
      DropUnderscoresAppend(a[1..], b);
    }
  }

  /** Text of digits alone has no underscore to drop. */
  lemma {:induction false} DropNoUnderscores(d: string)
    requires forall i :: 0 <= i < |d| ==> IsDigit(d[i])
    ensures DropUnderscores(d) == d
    decreases |d|
  {
    if |d| > 0 {
      DropNoUnderscores(d[1..]);
    }
  }

  /** Digits alone are one group, worth their plain value. */
  lemma {:induction false} OneGroup(d: string)
    requires AllDigits(d)
    ensures DigitGroups(d) && GroupsValue(d) == DigitsValue(d)
    decreases |d|
  {
    if |d| > 1 {
      OneGroup(d[1..]);
    }
    DropNoUnderscores(d);
  }

  /** Digits, one underscore, then a `DigitGroups` literal make a `DigitGroups` literal. */
  lemma {:induction false} JoinGroups(d: string, e: string)
    requires AllDigits(d) && DigitGroups(e)
    ensures DigitGroups(d + "_" + e)
    decreases |d|
  {
    var u := d + "_" + e;
    if |d| == 1 {
      assert u[2..] == e;
    } else {
      assert u[1..] == d[1..] + "_" + e;
      JoinGroups(d[1..], e);
    }
  }

  /** Two runs of digits joined by one underscore are worth the two runs written together. */
  lemma TwoGroups(d: string, e: string)
    requires AllDigits(d) && AllDigits(e)
    ensures DigitGroups(d + "_" + e) && GroupsValue(d + "_" + e) == DigitsValue(d + e)
  {
    OneGroup(e);
    JoinGroups(d, e);
    DropJoin(d, e);
  }

  lemma DropJoin(d: string, e: string)
    requires AllDigits(d) && AllDigits(e)
    ensures DropUnderscores(d + "_" + e) == d + e
  {
    DropTrailing(d);
    DropUnderscoresAppend(d + "_", e);
    DropNoUnderscores(e);
  }

  lemma DropTrailing(d: string)
    requires AllDigits(d)
    ensures DropUnderscores(d + "_") == d
  {
    DropUnderscoresAppend(d, "_");
    assert "_"[1..] == "";
    DropNoUnderscores(d);
  }

  /** A single underscore between two runs of digits does not change the number `int()` reads. */
  lemma ParseIntUnderscore(d: string, e: string)
    requires AllDigits(d) && AllDigits(e)
    ensures ParseInt(d + "_" + e) == ParseInt(d + e) == Some(DigitsValue(d + e))
  {
    TwoGroups(d, e);
    ParseUnsigned(d + "_" + e);
    JoinDigits(d, e);
    OneGroup(d + e);
    ParseUnsigned(d + e);
  }

  lemma JoinDigits(d: string, e: string)
    requires AllDigits(d) && AllDigits(e)
    ensures AllDigits(d + e)
  {
  }

  /** A `DigitGroups` literal ends in a digit. */
  lemma {:induction false} GroupsEndInDigit(t: string)
    requires DigitGroups(t)
    ensures IsDigit(t[|t| - 1])
    decreases |t|
  {
    if |t| > 1 {
      if t[1] != '_' {
        GroupsEndInDigit(t[1..]);
      } else {
        GroupsEndInDigit(t[2..]);
      }
    }
  }

  /** Unsigned groups of digits with nothing around them are read as their value. */
  lemma ParseUnsigned(t: string)
    requires DigitGroups(t)
    ensures ParseInt(t) == Some(GroupsValue(t))
  {
    GroupsEndInDigit(t);
    StripClean(t);
  }

  /** A string that neither starts nor ends with whitespace is its own `strip()`. */
  lemma StripClean(s: string)
    requires |s| > 0 && !IsSpace(s[0]) && !IsSpace(s[|s| - 1])
    ensures Strip(s) == s
  {
    assert RStrip(s) == s;
  }

  /** `int(str(i)) == i`. */
  lemma ParseIntRoundTrip(i: int)
    ensures ParseInt(IntToString(i)) == Some(i)
  {
    var s := IntToString(i);
    var d := if i < 0 then NatToString(-i) else NatToString(i);
    NatToStringRoundTrip(if i < 0 then -i else i);
    assert IsDigit(d[0]) && IsDigit(d[|d| - 1]);
    assert s[|s| - 1] == d[|d| - 1];
    StripClean(s);
    OneGroup(d);
    if i < 0 {
      assert s[1..] == d;
    } else {
      assert s == d;
    }
  }
}
