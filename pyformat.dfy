/**
 * Python's `str.format` called with keyword arguments only, as
 * infra/targets/spec2006/__init__.py applies it to its shell command
 * templates: `{{` and `}}` stand for single braces, `{name}` is replaced by
 * the argument called `name`, and every other character is copied.  A
 * brace that opens no field or closes none is an error.  A template is
 * formatted piece by piece with `FormatThen`.
 */
module PyFormat {

  import opened Wrappers
  import Strs

  predicate IsBrace(c: char)
  {
    c == '{' || c == '}'
  }

  predicate BraceFree(s: string)
  {
    '{' !in s && '}' !in s
  }

  /** The length of the field name at the start of `s`: up to the next brace. */
  function NameLength(s: string): (n: nat)
    ensures n <= |s| && (forall k :: 0 <= k < n ==> !IsBrace(s[k])) && (n < |s| ==> IsBrace(s[n]))
    decreases |s|
  {
    if |s| == 0 || IsBrace(s[0]) then 0 else 1 + NameLength(s[1..])
  }

  /** An empty or all-digit field name refers to a positional argument, and there are none. */
  predicate Positional(name: string)
  {
    name == "" || Strs.AllDigits(name)
  }

  /** The argument a positional field asks for: `{}` the first, as no field before it succeeded; `{N}` number `N`. */
  function FieldIndex(name: string): nat
    requires Positional(name)
  {
    if name == "" then 0 else Strs.DigitsValue(name)
  }

  /** The error of a positional field whose argument, number `i`, is not there. */
  function IndexOutOfRange(i: nat): Error
  {
    IndexError("Replacement index " + Strs.NatToString(i) + " out of range for positional args tuple")
  }

  /** `p` in front of a result; an error stays as it is. */
  function Prepend(p: string, r: Result<string>): (q: Result<string>)
    ensures q.Ok? <==> r.Ok?
    ensures r.Ok? ==> q.value == p + r.value
    ensures r.Err? ==> q == r
  {
    if r.Ok? then Ok(p + r.value) else r
  }

  /** The error of a `}` that closes no field. */
  const LoneClose := ValueError("Single '}' encountered in format string")

  /** `s.format(**env)`. */
  function Format(s: string, env: map<string, string>): Result<string>
    decreases |s|
  {
    if |s| == 0 then Ok("")
    else if s[0] == '{' && |s| > 1 && s[1] == '{' then Prepend("{", Format(s[2..], env))
    else if s[0] == '{' then
      var n := NameLength(s[1..]);
      var name := s[1..1 + n];
      if 1 + n == |s| then
        Err(ValueError(if n == 0 then "Single '{' encountered in format string" else "expected '}' before end of string"))
      else if s[1 + n] == '{' then Err(ValueError("unexpected '{' in field name"))
      else if Positional(name) then Err(IndexOutOfRange(FieldIndex(name)))
      else if name !in env then Err(KeyError(name))
      else Prepend(env[name], Format(s[2 + n..], env))
    else if s[0] == '}' && |s| > 1 && s[1] == '}' then Prepend("}", Format(s[2..], env))
    else if s[0] == '}' then Err(LoneClose)
    else Prepend(s[..1], Format(s[1..], env))
  }

  lemma {:induction false} NameLengthAppend(x: string, y: string)
    requires NameLength(x) < |x|
    ensures NameLength(x + y) == NameLength(x)
    decreases |x|
  {
    if !IsBrace(x[0]) {
      assert (x + y)[1..] == x[1..] + y;
      NameLengthAppend(x[1..], y);
    }
  }

  lemma {:induction false} NameLengthOf(name: string, rest: string)
    requires BraceFree(name) && |rest| > 0 && IsBrace(rest[0])
    ensures NameLength(name + rest) == |name|
    decreases |name|
  {
    if |name| > 0 {
      assert (name + rest)[1..] == name[1..] + rest;
      NameLengthOf(name[1..], rest);
    }
  }

  lemma PrependPrepend(p: string, q: string, r: Result<string>)
    ensures Prepend(p, Prepend(q, r)) == Prepend(p + q, r)
  {
    if r.Ok? {
      assert p + (q + r.value) == p + q + r.value;
    }
  }

  /** A field that formats at the start of `a` is replaced the same way when `b` follows. */
  lemma FieldStep(a: string, b: string, env: map<string, string>)
    requires |a| > 0 && a[0] == '{' && !(|a| > 1 && a[1] == '{') && Format(a, env).Ok?
    ensures var n := NameLength(a[1..]);
      && 1 + n < |a| && a[1..1 + n] in env
      && Format(a, env) == Prepend(env[a[1..1 + n]], Format(a[2 + n..], env))
      && Format(a + b, env) == Prepend(env[a[1..1 + n]], Format(a[2 + n..] + b, env))
  {
    var s := a + b;
    var n := NameLength(a[1..]);
    assert s[1..] == a[1..] + b;
    NameLengthAppend(a[1..], b);
    assert s[1..1 + n] == a[1..1 + n];
    assert s[2 + n..] == a[2 + n..] + b;
  }

  /** Formatting works from left to right: once a prefix formats, the rest is formatted after it. */
  lemma {:induction false} FormatAppend(a: string, b: string, env: map<string, string>)
    requires Format(a, env).Ok?
    ensures Format(a + b, env) == Prepend(Format(a, env).value, Format(b, env))
    decreases |a|
  {
    var s := a + b;
    if |a| == 0 {
      assert s == b;
      if Format(b, env).Ok? {
        assert "" + Format(b, env).value == Format(b, env).value;
      }
    } else if a[0] == '{' && |a| > 1 && a[1] == '{' {
      assert s[2..] == a[2..] + b;
      FormatAppend(a[2..], b, env);
      PrependPrepend("{", Format(a[2..], env).value, Format(b, env));
    } else if a[0] == '{' {
      var n := NameLength(a[1..]);
      FieldStep(a, b, env);
      FormatAppend(a[2 + n..], b, env);
      PrependPrepend(env[a[1..1 + n]], Format(a[2 + n..], env).value, Format(b, env));
    } else if a[0] == '}' {
      assert s[2..] == a[2..] + b;
      FormatAppend(a[2..], b, env);
      PrependPrepend("}", Format(a[2..], env).value, Format(b, env));
    } else {
      assert s[1..] == a[1..] + b;
      assert s[..1] == a[..1];
      FormatAppend(a[1..], b, env);
      PrependPrepend(a[..1], Format(a[1..], env).value, Format(b, env));
    }
  }

  /** A text without braces is its own formatting. */
  lemma {:induction false} FormatPlain(s: string, env: map<string, string>)
    requires BraceFree(s)
    ensures Format(s, env) == Ok(s)
    decreases |s|
  {
    if |s| > 0 {
      FormatPlain(s[1..], env);
      assert s[..1] + s[1..] == s;
    }
  }

  /** The replacement field `{name}`. */
  function FieldText(name: string): string
  {
    "{" + name + "}"
  }

  /** `{{name}}`: formatting gives the field `{name}` back, for a later `format` to fill in. */
  function EscapedText(name: string): string
  {
    "{{" + name + "}}"
  }

  /** `{name}` gives the argument called `name`, for a name that does not start with a digit. */
  lemma FormatField(name: string, env: map<string, string>)
    requires BraceFree(name) && |name| > 0 && !Strs.IsDigit(name[0]) && name in env
    ensures Format(FieldText(name), env) == Ok(env[name])
  {
    assert !Positional(name);
    var s := "{" + name + "}";
    assert s[1..] == name + "}";
    NameLengthOf(name, "}");
    assert s[1..1 + |name|] == name;
    assert s[2 + |name|..] == "";
    assert env[name] + "" == env[name];
  }

  /** `{}` and `{i}` ask for positional arguments, of which there are none: the error names the index. */
  lemma FormatPositional(i: nat, env: map<string, string>)
    ensures Format("{}", env) == Err(IndexOutOfRange(0))
    ensures Format(FieldText(Strs.NatToString(i)), env) == Err(IndexOutOfRange(i))
  {
    var e := "{}";
    assert e[1..] == "}" && NameLength(e[1..]) == 0 && e[1..1] == "";
    var name := Strs.NatToString(i);
    assert BraceFree(name) by {
      forall k | 0 <= k < |name| ensures !IsBrace(name[k]) {
        assert Strs.IsDigit(name[k]);
      }
    }
    var s := "{" + name + "}";
    assert s[1..] == name + "}";
    NameLengthOf(name, "}");
    assert s[1..1 + |name|] == name;
    Strs.NatToStringRoundTrip(i);
  }

  /** `{{name}}` gives `{name}`, to be filled in by a later `format`. */
  lemma FormatEscapedField(name: string, env: map<string, string>)
    requires BraceFree(name)
    ensures Format(EscapedText(name), env) == Ok(FieldText(name))
  {
    var s := "{{" + name + "}}";
    assert s[2..] == name + "}}";
    FormatPlain(name, env);
    FormatAppend(name, "}}", env);
    FormatEscapes(env);
    assert "{" + (name + "}") == "{" + name + "}";
  }

  /** `{{` and `}}` stand for single braces. */
  lemma FormatEscapes(env: map<string, string>)
    ensures Format("{{", env) == Ok("{") && Format("}}", env) == Ok("}")
    ensures Format("{{{{", env) == Ok("{{") && Format("}}}}", env) == Ok("}}")
  {
    var o, c := "{{", "}}";
    assert o[2..] == "" && c[2..] == "";
    assert "{" + "" == "{" && "}" + "" == "}";
    assert Format(o, env) == Ok("{") && Format(c, env) == Ok("}");
    var oo, cc := "{{{{", "}}}}";
    assert oo[2..] == o && cc[2..] == c;
    assert "{" + "{" == "{{" && "}" + "}" == "}}";
  }

  /** A lone `}` is an error, whatever comes after it. */
  lemma FormatLoneClose(a: string, c: string, env: map<string, string>)
    requires BraceFree(a) && (|c| == 0 || c[0] != '}')
    ensures Format(a + "}" + c, env) == Err(LoneClose)
  {
    FormatPlain(a, env);
    FormatAppend(a, "}" + c, env);
    assert a + "}" + c == a + ("}" + c);
  }

  /**
   * A text that formats, then one with a lone `}` followed by something
   * other than `}`: the whole fails, whatever comes after.
   */
  lemma FormatLoneCloseAfter(p: string, v: string, a: string, c: string, y: string, env: map<string, string>)
    requires Format(p, env) == Ok(v) && BraceFree(a) && |c| > 0 && c[0] != '}'
    ensures Format(p + (a + "}" + c) + y, env) == Err(LoneClose)
  {
    assert p + (a + "}" + c) + y == p + (a + "}" + (c + y));
    FormatLoneClose(a, c + y, env);
    FormatAppend(p, a + "}" + (c + y), env);
  }

  /**
   * A text with a lone `}` inside `mid`, between a prefix that formats and
   * a brace-free text, and followed by something other than `}`: the whole
   * fails, whatever comes after.
   */
  lemma FormatLoneCloseWithin(pre: string, v: string, p: string, a: string, c: string, q: string, y: string,
                              env: map<string, string>)
    requires Format(pre, env) == Ok(v) && BraceFree(p) && BraceFree(a) && (|c| == 0 || c[0] != '}')
    requires |q| > 0 && q[0] != '}'
    ensures Format(pre + (p + (a + "}" + c) + q) + y, env) == Err(LoneClose)
  {
    var c' := c + q;
    assert c'[0] != '}';
    assert pre + (p + (a + "}" + c) + q) + y == pre + p + (a + "}" + c') + y;
    FormatThenPlain(pre, v, p, env);
    FormatLoneCloseAfter(pre + p, v + p, a, c', y, env);
  }

  /** Two texts that format, one after the other. */
  lemma FormatThen(s: string, v: string, t: string, u: string, env: map<string, string>)
    requires Format(s, env) == Ok(v) && Format(t, env) == Ok(u)
    ensures Format(s + t, env) == Ok(v + u)
  {
    FormatAppend(s, t, env);
  }

  /** A text that formats, followed by text without braces. */
  lemma FormatThenPlain(s: string, v: string, t: string, env: map<string, string>)
    requires Format(s, env) == Ok(v) && BraceFree(t)
    ensures Format(s + t, env) == Ok(v + t)
  {
    FormatPlain(t, env);
    FormatAppend(s, t, env);
  }

  /** A text that formats, between two without braces. */
  lemma FormatAround(t0: string, x: string, x': string, t1: string, env: map<string, string>)
    requires BraceFree(t0) && BraceFree(t1) && Format(x, env) == Ok(x')
    ensures Format(t0 + x + t1, env) == Ok(t0 + x' + t1)
  {
    FormatPlain(t0, env);
    FormatThen(t0, t0, x, x', env);
    FormatThenPlain(t0 + x, t0 + x', t1, env);
  }

  /** Two texts that format, each after one without braces, and a last one without braces. */
  lemma FormatAround2(t0: string, x: string, x': string, t1: string, y: string, y': string, t2: string,
                      env: map<string, string>)
    requires BraceFree(t0) && BraceFree(t1) && BraceFree(t2)
    requires Format(x, env) == Ok(x') && Format(y, env) == Ok(y')
    ensures Format(t0 + x + t1 + y + t2, env) == Ok(t0 + x' + t1 + y' + t2)
  {
    FormatAround(t0, x, x', t1, env);
    FormatThen(t0 + x + t1, t0 + x' + t1, y, y', env);
    FormatThenPlain(t0 + x + t1 + y, t0 + x' + t1 + y', t2, env);
  }

  /** Three texts that format, each followed by one without braces. */
  lemma FormatBetween(x: string, x': string, t0: string, y: string, y': string, t1: string, z: string, z': string,
                      t2: string, env: map<string, string>)
    requires BraceFree(t0) && BraceFree(t1) && BraceFree(t2)
    requires Format(x, env) == Ok(x') && Format(y, env) == Ok(y') && Format(z, env) == Ok(z')
    ensures Format(x + t0 + y + t1 + z + t2, env) == Ok(x' + t0 + y' + t1 + z' + t2)
  {
    FormatThenPlain(x, x', t0, env);
    FormatThen(x + t0, x' + t0, y, y', env);
    FormatThenPlain(x + t0 + y, x' + t0 + y', t1, env);
    FormatThen(x + t0 + y + t1, x' + t0 + y' + t1, z, z', env);
    FormatThenPlain(x + t0 + y + t1 + z, x' + t0 + y' + t1 + z', t2, env);
  }

  /** A text that formats, followed by one that does not. */
  lemma FormatThenFails(s: string, v: string, t: string, env: map<string, string>)
    requires Format(s, env) == Ok(v) && Format(t, env).Err?
    ensures Format(s + t, env) == Format(t, env)
  {
    FormatAppend(s, t, env);
  }

  /** Texts without braces joined by a separator without braces have none. */
  lemma {:induction false} BraceFreeJoin(sep: string, parts: seq<string>)
    requires BraceFree(sep) && forall k :: 0 <= k < |parts| ==> BraceFree(parts[k])
    ensures BraceFree(Strs.Join(sep, parts))
    decreases |parts|
  {
    if |parts| > 1 {
      BraceFreeJoin(sep, parts[1..]);
    }
  }

  /** Lines that each format, joined by newlines, format line by line. */
  lemma {:induction false} FormatJoin(lines: seq<string>, outs: seq<string>, env: map<string, string>)
    requires |lines| == |outs| && forall k :: 0 <= k < |lines| ==> Format(lines[k], env) == Ok(outs[k])
    ensures Format(Strs.Join("\n", lines), env) == Ok(Strs.Join("\n", outs))
    decreases |lines|
  {
    if |lines| > 1 {
      FormatJoin(lines[1..], outs[1..], env);
      FormatPlain("\n", env);
      FormatThen(lines[0], outs[0], "\n", "\n", env);
      FormatThen(lines[0] + "\n", outs[0] + "\n", Strs.Join("\n", lines[1..]), Strs.Join("\n", outs[1..]), env);
    }
  }

  /** Whether formatting succeeds depends only on which names have arguments, not on their values. */
  lemma {:induction false} FormatOkSameNames(s: string, env: map<string, string>, env': map<string, string>)
    requires env.Keys == env'.Keys
    ensures Format(s, env).Ok? <==> Format(s, env').Ok?
    decreases |s|
  {
    if |s| == 0 {
    } else if s[0] == '{' && |s| > 1 && s[1] == '{' {
      FormatOkSameNames(s[2..], env, env');
    } else if s[0] == '{' {
      var n := NameLength(s[1..]);
      if 1 + n < |s| {
        FormatOkSameNames(s[2 + n..], env, env');
      }
    } else if s[0] == '}' && |s| > 1 && s[1] == '}' {
      FormatOkSameNames(s[2..], env, env');
    } else if s[0] != '}' {
      FormatOkSameNames(s[1..], env, env');
    }
  }
}
