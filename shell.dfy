/**
 * Shell quoting as used by `qjoin` in infra/util.py (Python's `shlex.quote`)
 * and the POSIX-mode `shlex.split` that the job pools apply to string
 * commands.  Joining quoted arguments with single spaces and splitting the
 * result again gives the arguments back.
 */
module Shell {

  import opened Wrappers
  import Strs

  /** The characters `shlex.quote` leaves unquoted: ASCII word characters and `@%+=:,./-`. */
  predicate IsSafe(c: char)
  {
    ('a' <= c <= 'z') || ('A' <= c <= 'Z') || ('0' <= c <= '9') || c == '_'
    || c == '@' || c == '%' || c == '+' || c == '=' || c == ':' || c == ',' || c == '.' || c == '/' || c == '-'
  }

  predicate AllSafe(s: string)
  {
    forall k :: 0 <= k < |s| ==> IsSafe(s[k])
  }

  /** `s.replace("'", "'\"'\"'")`: every single quote closes the quoting, emits a double-quoted quote and reopens. */
  function QuoteBody(s: string): (r: string)
    ensures '\'' !in s ==> r == s
    decreases |s|
  {
    if |s| == 0 then ""
    else (if s[0] == '\'' then "'\"'\"'" else [s[0]]) + QuoteBody(s[1..])
  }

  /**
   * `shlex.quote(s)`: the empty string becomes `''`, a string of safe
   * characters is returned as it is, anything else is wrapped in single
   * quotes.
   */
  function Quote(s: string): (r: string)
    ensures |s| == 0 ==> r == "''"
    ensures |s| > 0 && AllSafe(s) ==> r == s
    ensures !AllSafe(s) ==> |r| >= 2 && r[0] == '\'' && r[|r| - 1] == '\'' && r[1..|r| - 1] == QuoteBody(s)
    ensures |r| > 0
  {
    if |s| == 0 then "''"
    else if AllSafe(s) then s
    else "'" + QuoteBody(s) + "'"
  }

  /** `[shlex.quote(a) for a in args]`. */
  function Quotes(args: seq<string>): (r: seq<string>)
    ensures |r| == |args| && forall k :: 0 <= k < |args| ==> r[k] == Quote(args[k])
  {
    if |args| == 0 then [] else [Quote(args[0])] + Quotes(args[1..])
  }

  /** `qjoin(args)` on string arguments. */
  function QJoin(args: seq<string>): string
  {
    Strs.Join(" ", Quotes(args))
  }

  // ---------------------------------------------------------------------
  // `shlex.split(s)`: POSIX mode, whitespace splitting, no comments.

  datatype Mode = Plain | Single | Double

  predicate IsWhite(c: char)
  {
    c == ' ' || c == '\t' || c == '\r' || c == '\n'
  }

  function Prepend(w: string, r: Result<seq<string>>): (q: Result<seq<string>>)
    ensures q.Ok? <==> r.Ok?
    ensures q.Ok? ==> q.value == [w] + r.value
    ensures q.Err? ==> q == r
  {
    if r.Ok? then Ok([w] + r.value) else r
  }

  /**
   * The lexer state machine: `cur` is the word being read, `inWord` says
   * whether a word has started (a pair of quotes starts an empty word), and
   * `mode` whether a quotation is open.
   */
  function Lex(s: string, cur: string, inWord: bool, mode: Mode): Result<seq<string>>
    decreases |s|
  {
    if |s| == 0 then
      if mode != Plain then Err(ValueError("No closing quotation"))
      else Ok(if inWord then [cur] else [])
    else
      var c, t := s[0], s[1..];
      match mode
      case Plain =>
        if IsWhite(c) then
          if inWord then Prepend(cur, Lex(t, "", false, Plain)) else Lex(t, "", false, Plain)
        else if c == '\'' then Lex(t, cur, true, Single)
        else if c == '"' then Lex(t, cur, true, Double)
        else if c == '\\' then
          if |t| == 0 then Err(ValueError("No escaped character")) else Lex(t[1..], cur + [t[0]], true, Plain)
        else Lex(t, cur + [c], true, Plain)
      case Single =>
        if c == '\'' then Lex(t, cur, true, Plain) else Lex(t, cur + [c], true, Single)
      case Double =>
        if c == '"' then Lex(t, cur, true, Plain)
        else if c == '\\' then
          if |t| == 0 then Err(ValueError("No escaped character"))
          else if t[0] == '"' || t[0] == '\\' then Lex(t[1..], cur + [t[0]], true, Double)
          else Lex(t[1..], cur + [c, t[0]], true, Double)
        else Lex(t, cur + [c], true, Double)
  }

  /** `shlex.split(s)`. */
  function Split(s: string): Result<seq<string>>
  {
    Lex(s, "", false, Plain)
  }

  /** A space ends the current word. */
  lemma LexSpace(t: string, cur: string)
    ensures Lex(" " + t, cur, true, Plain) == Prepend(cur, Lex(t, "", false, Plain))
  {
    assert (" " + t)[0] == ' ' && (" " + t)[1..] == t;
  }

  /** Safe characters are taken into the current word as they are. */
  lemma {:induction false} LexSafe(t: string, rest: string, cur: string, inWord: bool)
    requires AllSafe(t)
    ensures Lex(t + rest, cur, inWord, Plain) == Lex(rest, cur + t, inWord || |t| > 0, Plain)
    decreases |t|
  {
    if |t| > 0 {
      assert (t + rest)[0] == t[0] && (t + rest)[1..] == t[1..] + rest;
      LexSafe(t[1..], rest, cur + [t[0]], true);
      assert cur + [t[0]] + t[1..] == cur + t;
    } else {
      assert t + rest == rest && cur + t == cur;
    }
  }

  /** Inside single quotes the quoted body of `s` reads back as `s`, and the closing quote ends the quotation. */
  lemma {:induction false} LexBody(s: string, rest: string, cur: string)
    ensures Lex(QuoteBody(s) + "'" + rest, cur, true, Single) == Lex(rest, cur + s, true, Plain)
    decreases |s|
  {
    if |s| == 0 {
      assert QuoteBody(s) + "'" + rest == "'" + rest;
      assert ("'" + rest)[0] == '\'' && ("'" + rest)[1..] == rest;
      assert cur + s == cur;
    } else {
      var head := if s[0] == '\'' then "'" else [s[0]];
      LexBodyStep(s, rest, cur);
      LexBody(s[1..], rest, cur + head);
      assert cur + head + s[1..] == cur + s;
    }
  }

  /** The first character of a quoted body: a quote reads back through `'"'"'`, any other as itself. */
  lemma LexBodyStep(s: string, rest: string, cur: string)
    requires |s| > 0
    ensures Lex(QuoteBody(s) + "'" + rest, cur, true, Single) ==
            Lex(QuoteBody(s[1..]) + "'" + rest, cur + (if s[0] == '\'' then "'" else [s[0]]), true, Single)
  {
    var x := QuoteBody(s[1..]) + "'" + rest;
    if s[0] == '\'' {
      assert QuoteBody(s) + "'" + rest == "'\"'\"'" + x;
      EscapedQuote(x, cur);
    } else {
      var text := [s[0]] + x;
      assert QuoteBody(s) + "'" + rest == text;
      assert text[0] == s[0] && text[1..] == x;
    }
  }

  /** `'"'"'` inside single quotes reads as one quote character, and single quotes are open again afterwards. */
  lemma EscapedQuote(x: string, cur: string)
    ensures Lex("'\"'\"'" + x, cur, true, Single) == Lex(x, cur + "'", true, Single)
  {
    EscapeOpens(x, cur);
    EscapeCloses(x, cur);
  }

  /** The first two characters of `'"'"'` close the single quotes and open double ones. */
  lemma EscapeOpens(x: string, cur: string)
    ensures Lex("'\"'\"'" + x, cur, true, Single) == Lex("'\"'" + x, cur, true, Double)
  {
    var t1, t2 := "\"'\"'" + x, "'\"'" + x;
    assert ("'\"'\"'" + x)[0] == '\'' && ("'\"'\"'" + x)[1..] == t1;
    assert Lex("'\"'\"'" + x, cur, true, Single) == Lex(t1, cur, true, Plain);
    assert t1[0] == '"' && t1[1..] == t2;
  }

  /** The last three characters of `'"'"'` give the quote and reopen single quotes. */
  lemma EscapeCloses(x: string, cur: string)
    ensures Lex("'\"'" + x, cur, true, Double) == Lex(x, cur + "'", true, Single)
  {
    var t2, t3, t4 := "'\"'" + x, "\"'" + x, "'" + x;
    assert t2[0] == '\'' && t2[1..] == t3;
    assert Lex(t2, cur, true, Double) == Lex(t3, cur + "'", true, Double);
    assert t3[0] == '"' && t3[1..] == t4;
    assert Lex(t3, cur + "'", true, Double) == Lex(t4, cur + "'", true, Plain);
    assert t4[0] == '\'' && t4[1..] == x;
  }

  /** A quoted argument reads back as the argument, appended to the current word. */
  lemma LexQuote(a: string, rest: string, cur: string, inWord: bool)
    ensures Lex(Quote(a) + rest, cur, inWord, Plain) == Lex(rest, cur + a, true, Plain)
  {
    if |a| == 0 {
      assert Quote(a) + rest == "''" + rest;
      assert ("''" + rest)[1..] == "'" + rest;
      assert ("'" + rest)[1..] == rest;
      assert cur + a == cur;
    } else if AllSafe(a) {
      LexSafe(a, rest, cur, inWord);
    } else {
      var text := "'" + (QuoteBody(a) + "'" + rest);
      assert Quote(a) + rest == text;
      assert text[0] == '\'' && text[1..] == QuoteBody(a) + "'" + rest;
      LexBody(a, rest, cur);
    }
  }

  /** `shlex.split(qjoin(args)) == args`. */
  lemma QJoinRoundTrip(args: seq<string>)
    ensures Split(QJoin(args)) == Ok(args)
  {
    LexJoined(args);
  }

  lemma {:induction false} LexJoined(args: seq<string>)
    ensures Lex(QJoin(args), "", false, Plain) == Ok(args)
    decreases |args|
  {
    if |args| == 1 {
      var a := args[0];
      assert QJoin(args) == Quote(a) + "";
      LexQuote(a, "", "", false);
      assert "" + a == a;
      assert [a] == args;
    } else if |args| > 1 {
      var a, more := args[0], args[1..];
      LexJoined(more);
      QJoinCons(args);
      LexQuote(a, " " + QJoin(more), "", false);
      WordThenSpace(QJoin(args), a, QJoin(more));
      assert [a] + more == args;
    }
  }

  /** The first quoted argument, a space, and the rest joined. */
  lemma QJoinCons(args: seq<string>)
    requires |args| > 1
    ensures QJoin(args) == Quote(args[0]) + (" " + QJoin(args[1..]))
  {
    assert Quotes(args)[1..] == Quotes(args[1..]);
    SpaceAssoc(Quote(args[0]), QJoin(args[1..]));
  }

  /** A word of safe characters followed by a space is read as one word. */
  lemma LexSafeWord(w: string, rest: string)
    requires |w| > 0 && AllSafe(w)
    ensures Lex(w + " " + rest, "", false, Plain) == Prepend(w, Split(rest))
  {
    LexSafe(w, " " + rest, "", false);
    assert w + " " + rest == w + (" " + rest);
    assert "" + w == w;
    LexSpace(rest, w);
  }

  /** Inside double quotes, text without `"` or backslash is taken as it is. */
  lemma {:induction false} LexDoubleBody(body: string, rest: string, cur: string)
    requires '"' !in body && '\\' !in body
    ensures Lex(body + "\"" + rest, cur, true, Double) == Lex(rest, cur + body, true, Plain)
    decreases |body|
  {
    var text := body + "\"" + rest;
    if |body| == 0 {
      assert text == "\"" + rest && text[1..] == rest;
      assert cur + body == cur;
    } else {
      assert text[0] == body[0] && text[1..] == body[1..] + "\"" + rest;
      LexDoubleBody(body[1..], rest, cur + [body[0]]);
      assert cur + [body[0]] + body[1..] == cur + body;
    }
  }

  /** A word followed by a space and quoted arguments: the word, then the arguments. */
  lemma LexThenQJoin(w: string, args: seq<string>)
    ensures Lex(" " + QJoin(args), w, true, Plain) == Ok([w] + args)
  {
    LexJoined(args);
    LexSpace(QJoin(args), w);
  }

  function PrependAll(ws: seq<string>, r: Result<seq<string>>): (q: Result<seq<string>>)
    ensures q.Ok? <==> r.Ok?
    ensures q.Ok? ==> q.value == ws + r.value
  {
    if r.Ok? then Ok(ws + r.value) else r
  }

  /** Quoted arguments followed by a space and more text split into the arguments and then the words of the text. */
  lemma {:induction false} LexQJoinThen(args: seq<string>, rest: string)
    ensures Split(QJoin(args) + " " + rest) == PrependAll(args, Split(rest))
    decreases |args|
  {
    if |args| == 0 {
      assert QJoin(args) + " " + rest == " " + rest;
      assert (" " + rest)[0] == ' ' && (" " + rest)[1..] == rest;
      if Split(rest).Ok? {
        assert [] + Split(rest).value == Split(rest).value;
      }
    } else if |args| == 1 {
      assert QJoin(args) + " " + rest == Quote(args[0]) + " " + rest;
      LexQuoteSpace(args[0], rest);
      assert [args[0]] == args;
    } else {
      var a, more := args[0], args[1..];
      var tail := QJoin(more) + " " + rest;
      assert Quotes(args)[1..] == Quotes(more);
      assert QJoin(args) + " " + rest == Quote(a) + " " + tail;
      LexQuoteSpace(a, tail);
      LexQJoinThen(more, rest);
      if Split(rest).Ok? {
        assert [a] + (more + Split(rest).value) == args + Split(rest).value;
      }
    }
  }

  /** The same, for text whose words are known. */
  lemma SplitQJoinThen(args: seq<string>, rest: string, words: seq<string>)
    requires Split(rest) == Ok(words)
    ensures Split(QJoin(args) + " " + rest) == Ok(args + words)
  {
    LexQJoinThen(args, rest);
  }

  lemma LexQuoteSpace(a: string, tail: string)
    ensures Split(Quote(a) + " " + tail) == Prepend(a, Split(tail))
  {
    SpaceAssoc(Quote(a), tail);
    LexQuote(a, " " + tail, "", false);
    WordThenSpace(Quote(a) + (" " + tail), a, tail);
  }

  lemma SpaceAssoc(q: string, tail: string)
    ensures q + " " + tail == q + (" " + tail)
  {
  }

  /** Text that reads as the word `a` up to a space splits into `a` and then the words after the space. */
  lemma WordThenSpace(text: string, a: string, tail: string)
    requires Lex(text, "", false, Plain) == Lex(" " + tail, "" + a, true, Plain)
    ensures Split(text) == Prepend(a, Split(tail))
  {
    assert "" + a == a;
    LexSpace(tail, a);
  }

  /** Words of safe characters need no quoting. */
  lemma SafeWords(ws: seq<string>)
    requires forall k :: 0 <= k < |ws| ==> |ws[k]| > 0 && AllSafe(ws[k])
    ensures QJoin(ws) == Strs.Join(" ", ws)
  {
    assert Quotes(ws) == ws;
  }
}
