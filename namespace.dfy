/**
 * `Namespace` of infra/util.py: the dictionary whose keys are also
 * attributes, used for the configuration context.  Lists and dictionaries
 * stored in it are mutable objects shared by reference; a namespace nested
 * inside another is a value here (an ordered list of entries).
 */
module Namespaces {

  import opened Wrappers
  import Strs

  /** A Python list: its elements, updated in place. */
  class PyList {
    var items: seq<Value>

    constructor(items: seq<Value>)
      ensures this.items == items
    {
      this.items := items;
    }
  }

  /** A Python dict with string keys: its entries in insertion order. */
  class PyDict {
    var items: seq<(string, Value)>

    constructor(items: seq<(string, Value)>)
      ensures this.items == items
    {
      this.items := items;
    }
  }

  /**
   * A value stored in a namespace.  `Other` is any other object, given by
   * the text `str()` makes of it.
   */
  datatype Value =
    | Str(s: string)
    | Tuple(elems: seq<Value>)
    | List(list: PyList)
    | Dict(dict: PyDict)
    | Ns(entries: seq<(string, Value)>)
    | Other(text: string)

  /** The lists and dictionaries a `copy` replaces: those held directly or by nested namespaces. */
  function Refs(v: Value): set<object>
  {
    match v
    case List(l) => {l}
    case Dict(d) => {d}
    case Ns(es) => set i, o | 0 <= i < |es| && o in Refs(es[i].1) :: o
    case _ => {}
  }

  /**
   * `w` is what `copy` makes of `v`: a list or dict becomes one with the
   * same elements (the elements themselves are shared), a nested namespace
   * is copied entry by entry, and every other value is kept as it is.
   */
  predicate CopyOf(w: Value, v: Value)
    reads Refs(w), Refs(v)
  {
    match v
    case List(l) => w.List? && w.list.items == l.items
    case Dict(d) => w.Dict? && w.dict.items == d.items
    case Ns(es) =>
      && w.Ns? && |w.entries| == |es|
      && forall i :: 0 <= i < |es| ==> w.entries[i].0 == es[i].0 && CopyOf(w.entries[i].1, es[i].1)
    case _ => w == v
  }

  /** `value.copy()` for the values `Namespace.copy` copies, and the value itself otherwise. */
  method CopyValue(v: Value) returns (w: Value)
    ensures CopyOf(w, v)
    ensures forall o :: o in Refs(w) ==> fresh(o) && allocated(o)
    decreases v
  {
    match v
    case List(l) =>
      var c := new PyList(l.items);
      w := List(c);
    case Dict(d) =>
      var c := new PyDict(d.items);
      w := Dict(c);
    case Ns(es) =>
      RefsAllocated(v);
      forall j, o | 0 <= j < |es| && o in Refs(es[j].1) ensures allocated(o) {
        assert o in Refs(v);
      }
      var out: seq<(string, Value)> := [];
      for i := 0 to |es|
        invariant forall j, o :: 0 <= j < |es| && o in Refs(es[j].1) ==> allocated(o)
        invariant |out| == i
        invariant forall j :: 0 <= j < i ==> out[j].0 == es[j].0 && CopyOf(out[j].1, es[j].1)
        invariant forall j, o :: 0 <= j < i && o in Refs(out[j].1) ==> fresh(o) && allocated(o)
      {
        var c := CopyValue(es[i].1);
        assert forall j :: 0 <= j < i ==> CopyOf(out[j].1, es[j].1);
        out := out + [(es[i].0, c)];
      }
      w := Ns(out);
    case _ =>
      w := v;
  }

  lemma RefsAllocated(v: Value)
    requires allocated(v)
    ensures forall o :: o in Refs(v) ==> allocated(o)
  {
    if v.Ns? {
      forall i | 0 <= i < |v.entries| ensures forall o :: o in Refs(v.entries[i].1) ==> allocated(o) {
        assert allocated(v.entries[i]);
        RefsAllocated(v.entries[i].1);
      }
    }
  }

  /** The loop of `Namespace.copy`: every value under `keys` copied with `CopyValue`. */
  method CopyValues(keys: seq<string>, mem: map<string, Value>) returns (m: map<string, Value>)
    requires forall k :: k in mem <==> k in keys
    requires forall k, o :: k in mem && o in Refs(mem[k]) ==> allocated(o)
    ensures m.Keys == mem.Keys
    ensures forall k :: k in mem ==> CopyOf(m[k], mem[k])
    ensures forall k, o :: k in mem && o in Refs(m[k]) ==> fresh(o) && allocated(o)
  {
    m := map[];
    ghost var made: set<object> := {};
    for i := 0 to |keys|
      invariant forall k :: k in m <==> k in keys[..i]
      invariant forall k :: k in m ==> k in mem && CopyOf(m[k], mem[k]) && Refs(m[k]) <= made
      invariant forall o :: o in made ==> fresh(o) && allocated(o)
    {
      var c := CopyValue(mem[keys[i]]);
      m := m[keys[i] := c];
      made := made + Refs(c);
      assert keys[..i + 1] == keys[..i] + [keys[i]];
    }
    assert keys[..|keys|] == keys;
  }

  /** The element strings of a list or tuple that `':'.join` accepts: all must be `str`. */
  function Strings(items: seq<Value>, from: nat): (r: Result<seq<string>>)
    ensures r.Ok? <==> forall k :: 0 <= k < |items| ==> items[k].Str?
    ensures r.Ok? ==> |r.value| == |items| && forall k :: 0 <= k < |items| ==> r.value[k] == items[k].s
    ensures r.Err? ==> r.error.TypeError?
    decreases |items|
  {
    if |items| == 0 then Ok([])
    else if !items[0].Str? then Err(TypeError("sequence item " + Strs.NatToString(from) + ": expected str instance"))
    else match Strings(items[1..], from + 1)
      case Err(e) => Err(e)
      case Ok(rest) =>
        assert forall k :: 1 <= k < |items| ==> items[k] == items[1..][k - 1];
        Ok([items[0].s] + rest)
  }

  /** How deep the recursion of `join_paths` may go below `v`. */
  function Width(v: Value): nat
  {
    if v.Ns? then |v.entries| + 1 else 0
  }

  /**
   * What `join_paths` stores for one value: a list or tuple joined with ':',
   * a nested namespace with its own paths joined and then printed, and any
   * other value printed; `str` prints a value that is not a string.
   */
  function JoinValue(v: Value, str: Value -> string): Result<string>
    reads Refs(v)
    decreases v, Width(v)
  {
    match v
    case Str(s) => Ok(s)
    case Tuple(es) =>
      (match Strings(es, 0) case Err(e) => Err(e) case Ok(ss) => Ok(Strs.Join(":", ss)))
    case List(l) =>
      (match Strings(l.items, 0) case Err(e) => Err(e) case Ok(ss) => Ok(Strs.Join(":", ss)))
    case Ns(es) =>
      (match JoinEntries(es, 0, str) case Err(e) => Err(e) case Ok(joined) => Ok(str(Ns(joined))))
    case _ => Ok(str(v))
  }

  /** `join_paths` over the entries from index `i` on, stopping at the first error. */
  function JoinEntries(es: seq<(string, Value)>, i: nat, str: Value -> string): (r: Result<seq<(string, Value)>>)
    requires i <= |es|
    reads Refs(Ns(es))
    ensures r.Ok? ==> |r.value| == |es| - i && forall k :: 0 <= k < |r.value| ==> r.value[k].0 == es[i + k].0 && r.value[k].1.Str?
    decreases Ns(es), |es| - i
  {
    if i == |es| then Ok([])
    else
      assert Refs(es[i].1) <= Refs(Ns(es));
      match JoinValue(es[i].1, str)
      case Err(e) => Err(e)
      case Ok(s) =>
        match JoinEntries(es, i + 1, str)
        case Err(e) => Err(e)
        case Ok(rest) => Ok([(es[i].0, Str(s))] + rest)
  }

  /**
   * The attributes normal lookup finds on a namespace before `__getattr__`
   * is asked: the public methods of `dict` and those `Namespace` defines.
   */
  const MethodNames: set<string> :=
    {"clear", "copy", "fromkeys", "get", "items", "keys", "pop", "popitem", "setdefault", "update", "values",
     "join_paths"}

  /** What `ns.key` gives: an item of the namespace or a bound method, named. */
  datatype Attr = Item(value: Value) | Method(name: string)

  /** The namespace itself: keys in insertion order and their values. */
  class Namespace {
    var keys: seq<string>
    var mem: map<string, Value>

    /** The keys are those of the map, each listed once. */
    ghost predicate Valid()
      reads this
    {
      Strs.NoDuplicates(keys) && forall k :: k in mem <==> k in keys
    }

    constructor()
      ensures Valid() && keys == [] && mem == map[]
    {
      keys, mem := [], map[];
    }

    /** `self[key]`: a missing key raises `KeyError`. */
    function GetItem(key: string): (r: Result<Value>)
      reads this
      ensures r.Ok? <==> key in mem
      ensures r.Ok? ==> r.value == mem[key]
      ensures r.Err? ==> r.error == KeyError(key)
    {
      if key in mem then Ok(mem[key]) else Err(KeyError(key))
    }

    /**
     * `self.key`: `__getattr__` runs only when normal attribute lookup fails,
     * so the name of a method of `dict` or of `Namespace` gives that method;
     * any other name is the lookup `self[key]`.
     */
    function GetAttr(key: string): (r: Result<Attr>)
      reads this
      ensures key in MethodNames ==> r == Ok(Method(key))
      ensures key !in MethodNames ==> (r.Ok? <==> key in mem)
      ensures key !in MethodNames && r.Ok? ==> r.value == Item(mem[key])
      ensures key !in MethodNames && r.Err? ==> r.error == KeyError(key)
    {
      if key in MethodNames then Ok(Method(key))
      else
        var v := GetItem(key);
        if v.Ok? then Ok(Item(v.value)) else Err(v.error)
    }

    /** `self[key] = value`: a new key goes last, an existing one keeps its place. */
    method SetItem(key: string, value: Value)
      requires Valid()
      modifies this
      ensures Valid() && mem == old(mem)[key := value]
      ensures key in old(mem) ==> keys == old(keys)
      ensures key !in old(mem) ==> keys == old(keys) + [key]
    {
      if key !in mem {
        keys := keys + [key];
      }
      mem := mem[key := value];
    }

    /** `self.key = value`: the same update as `self[key] = value`. */
    method SetAttr(key: string, value: Value)
      requires Valid()
      modifies this
      ensures Valid() && mem == old(mem)[key := value]
      ensures key in old(mem) ==> keys == old(keys)
      ensures key !in old(mem) ==> keys == old(keys) + [key]
    {
      SetItem(key, value);
    }

    /**
     * `copy()`: a fresh namespace with the same keys in the same order;
     * namespaces, lists and dicts are replaced by fresh copies, the rest is
     * shared.
     */
    method Copy() returns (ns: Namespace)
      requires Valid()
      ensures fresh(ns) && ns.Valid() && ns.keys == keys && ns.mem.Keys == mem.Keys
      ensures forall k :: k in mem ==> CopyOf(ns.mem[k], mem[k])
      ensures forall k, o :: k in mem && o in Refs(ns.mem[k]) ==> fresh(o)
    {
      ValuesAllocated();
      var m := CopyValues(keys, mem);
      ns := new Namespace();
      ns.keys, ns.mem := keys, m;
    }

    /** Every list and dict the namespace holds was allocated before any call on it. */
    lemma ValuesAllocated()
      ensures forall k, o :: k in mem && o in Refs(mem[k]) ==> allocated(o)
    {
      forall k | k in mem ensures forall o :: o in Refs(mem[k]) ==> allocated(o) {
        RefsAllocated(mem[k]);
      }
    }

    /**
     * `join_paths()`: a fresh namespace with the same keys whose every value
     * is a string, or the `TypeError` of the first value that cannot be
     * joined.  The receiver is not changed.
     */
    method JoinPaths(str: Value -> string) returns (ns: Namespace, err: Option<Error>)
      requires Valid()
      ensures fresh(ns) && ns.Valid()
      ensures err.None? <==> forall k :: 0 <= k < |keys| ==> old(JoinValue(mem[keys[k]], str)).Ok?
      ensures err.None? ==>
        && ns.keys == keys
        && forall k :: 0 <= k < |keys| ==> ns.mem[keys[k]] == Str(old(JoinValue(mem[keys[k]], str)).value)
      ensures err.Some? ==> exists i ::
        && 0 <= i < |keys| && old(JoinValue(mem[keys[i]], str)) == Err(err.value)
        && forall k :: 0 <= k < i ==> old(JoinValue(mem[keys[k]], str)).Ok?
    {
      ValuesAllocated();
      var m;
      m, err := JoinValues(keys, mem, str);
      assert forall k :: 0 <= k < |keys| ==> JoinValue(mem[keys[k]], str) == old(JoinValue(mem[keys[k]], str));
      ns := new Namespace();
      if err.None? {
        ns.keys, ns.mem := keys, m;
      }
    }
  }

  /** The loop of `Namespace.join_paths`: the joined string under every key, or the first error. */
  method JoinValues(keys: seq<string>, mem: map<string, Value>, str: Value -> string)
    returns (m: map<string, Value>, err: Option<Error>)
    requires forall k :: k in mem <==> k in keys
    ensures err.None? <==> forall k :: 0 <= k < |keys| ==> JoinValue(mem[keys[k]], str).Ok?
    ensures err.None? ==>
      && m.Keys == mem.Keys
      && forall k :: 0 <= k < |keys| ==> m[keys[k]] == Str(JoinValue(mem[keys[k]], str).value)
    ensures err.Some? ==> exists i ::
      && 0 <= i < |keys| && JoinValue(mem[keys[i]], str) == Err(err.value)
      && forall k :: 0 <= k < i ==> JoinValue(mem[keys[k]], str).Ok?
  {
    m, err := map[], None;
    for i := 0 to |keys|
      invariant forall k :: k in m <==> k in keys[..i]
      invariant forall k :: 0 <= k < i ==> JoinValue(mem[keys[k]], str).Ok?
      invariant forall k :: 0 <= k < i ==> m[keys[k]] == Str(JoinValue(mem[keys[k]], str).value)
    {
      var r := JoinValue(mem[keys[i]], str);
      if r.Err? {
        err := Some(r.error);
        return;
      }
      m := m[keys[i] := Str(r.value)];
      assert keys[..i + 1] == keys[..i] + [keys[i]];
    }
    assert keys[..|keys|] == keys;
  }

  /** The string values of a list, in order. */
  function StrValues(ss: seq<string>): (r: seq<Value>)
    ensures |r| == |ss| && forall k :: 0 <= k < |ss| ==> r[k] == Str(ss[k])
  {
    seq(|ss|, k requires 0 <= k < |ss| => Str(ss[k]))
  }

  /**
   * A tuple of directories is joined with ':' into one string from which
   * `split(':')` gives the directories back, as long as none holds a ':'.
   */
  lemma JoinedPathsSplit(dirs: seq<string>, str: Value -> string)
    requires |dirs| > 0 && forall k :: 0 <= k < |dirs| ==> ':' !in dirs[k]
    ensures JoinValue(Tuple(StrValues(dirs)), str).Ok?
    ensures Strs.Split(JoinValue(Tuple(StrValues(dirs)), str).value, ':') == dirs
  {
    var items := StrValues(dirs);
    var r := Strings(items, 0);
    assert r.value == dirs;
    Strs.SplitJoin(dirs, ':');
  }

  /** A list or tuple holding a value that is not a string cannot be joined. */
  lemma JoinNonString(items: seq<Value>, k: nat, str: Value -> string)
    requires k < |items| && !items[k].Str?
    ensures JoinValue(Tuple(items), str).Err? && JoinValue(Tuple(items), str).error.TypeError?
  {
  }

  /** Strings and other scalars are kept as `str()` prints them. */
  lemma JoinScalar(v: Value, str: Value -> string)
    requires v.Str? || v.Other? || v.Dict?
    ensures v.Str? ==> JoinValue(v, str) == Ok(v.s)
    ensures !v.Str? ==> JoinValue(v, str) == Ok(str(v))
  {
  }

  /**
   * A nested namespace is printed after its own values are joined: the
   * printed namespace has the same keys, in order, and only string values.
   */
  lemma JoinNested(es: seq<(string, Value)>, str: Value -> string)
    requires JoinEntries(es, 0, str).Ok?
    ensures var joined := JoinEntries(es, 0, str).value;
      && JoinValue(Ns(es), str) == Ok(str(Ns(joined)))
      && |joined| == |es|
      && forall k :: 0 <= k < |es| ==> joined[k].0 == es[k].0 && joined[k].1.Str?
  {
  }
}
