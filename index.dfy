/**
 * `Index` and `LazyIndex` of infra/util.py: the registries of packages,
 * targets and instances.  An index maps names to values in insertion order,
 * refuses to overwrite a name, and reports a missing name (or one whose
 * value is `None`) as a `FatalError`.  A lazy index asks a lookup function
 * on a miss and remembers what it found.
 */
module Indexes {

  import opened Wrappers
  import Strs

  /** The message of a failed lookup. */
  function NoSuch(thingName: string, key: string): string
  {
    "no " + thingName + " called \"" + key + "\""
  }

  /** The message of a refused overwrite. */
  function AlreadyExists(thingName: string, key: string): string
  {
    thingName + " \"" + key + "\" already exists"
  }

  class Index<V(==)> {
    const thingName: string
    /** The names in insertion order (what iterating over the index yields). */
    var keys: seq<string>
    /** The stored values; `None` stands for a stored Python `None`. */
    var mem: map<string, Option<V>>

    ghost predicate Valid()
      reads this
    {
      Strs.NoDuplicates(keys) && forall k :: k in mem <==> k in keys
    }

    constructor(thingName: string)
      ensures Valid() && this.thingName == thingName && keys == [] && mem == map[]
    {
      this.thingName := thingName;
      keys, mem := [], map[];
    }

    /** `self[key]`. */
    function Get(key: string): (r: Result<V>)
      reads this
      ensures r.Ok? <==> key in mem && mem[key].Some?
      ensures r.Ok? ==> mem[key] == Some(r.value)
      ensures r.Err? ==> r.error == FatalError(NoSuch(thingName, key))
    {
      if key in mem && mem[key].Some? then Ok(mem[key].value) else Err(FatalError(NoSuch(thingName, key)))
    }

    /** `self[key] = value`: a new name goes last; an existing one is refused and nothing changes. */
    method Set(key: string, value: Option<V>) returns (err: Option<Error>)
      requires Valid()
      modifies this`keys, this`mem
      ensures Valid()
      ensures key in old(mem) ==> err == Some(FatalError(AlreadyExists(thingName, key))) && keys == old(keys) && mem == old(mem)
      ensures key !in old(mem) ==> err.None? && keys == old(keys) + [key] && mem == old(mem)[key := value]
    {
      if key in mem {
        return Some(FatalError(AlreadyExists(thingName, key)));
      }
      keys := keys + [key];
      mem := mem[key := value];
      err := None;
    }

    /** `all()`: the stored values in insertion order. */
    function All(): (r: seq<Option<V>>)
      requires Valid()
      reads this
      ensures |r| == |keys| && forall i :: 0 <= i < |keys| ==> keys[i] in mem && r[i] == mem[keys[i]]
    {
      seq(|keys|, i requires 0 <= i < |keys| && Valid() reads this => mem[keys[i]])
    }

    /** `select(keys)`: the values of the requested names in request order, or the first failed lookup. */
    function Select(ks: seq<string>): (r: Result<seq<V>>)
      reads this
      ensures r.Ok? <==> forall i :: 0 <= i < |ks| ==> Get(ks[i]).Ok?
      ensures r.Ok? ==> |r.value| == |ks| && forall i :: 0 <= i < |ks| ==> Get(ks[i]) == Ok(r.value[i])
      ensures r.Err? ==> exists i :: 0 <= i < |ks| && Get(ks[i]) == Err(r.error)
      decreases |ks|
    {
      if |ks| == 0 then Ok([])
      else match Get(ks[0])
        case Err(e) => Err(e)
        case Ok(v) =>
          match Select(ks[1..])
          case Err(e) =>
            assert forall i :: 1 <= i < |ks| ==> ks[i] == ks[1..][i - 1];
            Err(e)
          case Ok(rest) =>
            assert forall i :: 1 <= i < |ks| ==> ks[i] == ks[1..][i - 1];
            Ok([v] + rest)
    }
  }

  /** After storing a value under a new name, looking the name up gives it back. */
  method SetThenGet<V(==)>(ix: Index<V>, key: string, value: V) returns (r: Result<V>)
    requires ix.Valid() && key !in ix.mem
    modifies ix`keys, ix`mem
    ensures r == Ok(value) && ix.keys == old(ix.keys) + [key]
  {
    var err := ix.Set(key, Some(value));
    r := ix.Get(key);
  }

  /**
   * `LazyIndex(thing_name, find_value)`: an index whose lookups fall back on
   * `find_value`.  Its storage is an `Index`, whose `__setitem__` it uses as
   * it is.
   */
  class LazyIndex<V(==)> {
    const base: Index<V>
    const findValue: string -> Option<V>

    ghost predicate Valid()
      reads this, base
    {
      base.Valid()
    }

    constructor(thingName: string, findValue: string -> Option<V>)
      ensures Valid() && fresh(base) && base.thingName == thingName && base.keys == [] && base.mem == map[]
      ensures this.findValue == findValue
    {
      base := new Index(thingName);
      this.findValue := findValue;
    }

    /**
     * `self[key]`: a stored value is returned without calling `find_value`
     * (`called` is false); otherwise `find_value(key)` is called and its
     * result stored, and a `None` result is a `FatalError`.
     */
    method Get(key: string) returns (r: Result<V>, called: bool)
      requires Valid()
      modifies base`keys, base`mem
      ensures Valid()
      ensures called <==> old(key !in base.mem || base.mem[key].None?)
      ensures !called ==> base.keys == old(base.keys) && base.mem == old(base.mem) && r == old(base.Get(key))
      ensures called ==> base.mem == old(base.mem)[key := findValue(key)]
      ensures called && key in old(base.mem) ==> base.keys == old(base.keys)
      ensures called && key !in old(base.mem) ==> base.keys == old(base.keys) + [key]
      ensures called ==> r == base.Get(key)
      ensures r.Ok? ==> key in base.mem && base.mem[key] == Some(r.value)
    {
      if key in base.mem && base.mem[key].Some? {
        return Ok(base.mem[key].value), false;
      }
      var value := findValue(key);
      if key !in base.mem {
        base.keys := base.keys + [key];
      }
      base.mem := base.mem[key := value];
      called := true;
      r := base.Get(key);
    }

    /** `self[key] = value`, inherited from `Index`. */
    method Set(key: string, value: Option<V>) returns (err: Option<Error>)
      requires Valid()
      modifies base`keys, base`mem
      ensures Valid()
      ensures key in old(base.mem) ==> err == Some(FatalError(AlreadyExists(base.thingName, key))) && base.keys == old(base.keys) && base.mem == old(base.mem)
      ensures key !in old(base.mem) ==> err.None? && base.keys == old(base.keys) + [key] && base.mem == old(base.mem)[key := value]
    {
      err := base.Set(key, value);
    }
  }

  /** A second lookup of a name the lazy index has found does not call `find_value` again and gives the same value. */
  method LookupTwice<V(==)>(ix: LazyIndex<V>, key: string) returns (r1: Result<V>, r2: Result<V>, called2: bool)
    requires ix.Valid()
    modifies ix.base`keys, ix.base`mem
    ensures r1.Ok? ==> !called2 && r2 == r1
  {
    var c1;
    r1, c1 := ix.Get(key);
    r2, called2 := ix.Get(key);
  }
}
