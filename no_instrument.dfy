/**
 * The no-instrument helpers of `Utils/NoInstrument.cpp`: helper functions
 * that passes insert into a module are named with `NOINSTRUMENT_PREFIX`
 * (which is a parameter here), and every value whose name carries that
 * prefix, directly or inside a mangled C++ name, is left alone by the
 * instrumentation passes.
 */
module NoInstrument {
  import opened Wrappers
  import opened Strs
  import opened LlvmIr

  datatype Linkage = InternalLinkage | ExternalLinkage

  /**
   * A function of the module. `ty` identifies its `FunctionType`;
   * `isDeclaration` holds while it has no body, and `debugInfo` while it
   * carries debug metadata.
   */
  datatype Function = Function(
    name: string, ty: nat, linkage: Linkage, alwaysInline: bool, isDeclaration: bool, debugInfo: bool)

  /** `Function::Create(Ty, Linkage, Name, &M)`: a new declaration without attributes. */
  function Declared(name: string, ty: nat, linkage: Linkage): Function
  {
    Function(name, ty, linkage, false, true, false)
  }

  /** `stripDebugInfo(F)`. */
  function Stripped(f: Function): Function
  {
    f.(debugInfo := false)
  }

  /** `Module::getFunction`: the first function with that name, or none. */
  function Lookup(fs: seq<Function>, name: string): (r: Option<nat>)
    ensures r.Some? ==> r.value < |fs| && fs[r.value].name == name
    ensures r.Some? ==> forall j :: 0 <= j < r.value ==> fs[j].name != name
    ensures r.None? <==> forall j :: 0 <= j < |fs| ==> fs[j].name != name
    decreases |fs|
  {
    if |fs| == 0 then None
    else if fs[0].name == name then Some(0)
    else match Lookup(fs[1..], name)
      case None => None
      case Some(j) => Some(j + 1)
  }

  // ---------------------------------------------------------------------
  // Names.

  /** `Str` occurs in `s` at index `i`. */
  predicate OccursAt(s: string, str: string, i: nat)
  {
    i + |str| <= |s| && s[i..i + |str|] == str
  }

  /** `StringRef::find(Str, From)`: the first index from `From` on where `Str` occurs. */
  function Find(s: string, str: string, from: nat): (r: Option<nat>)
    ensures r.Some? ==> from <= r.value && OccursAt(s, str, r.value)
    ensures r.Some? ==> forall j :: from <= j < r.value ==> !OccursAt(s, str, j)
    ensures r.None? <==> forall j :: from <= j ==> !OccursAt(s, str, j)
    decreases |s| - from
  {
    if from + |str| > |s| then None
    else if OccursAt(s, str, from) then Some(from)
    else Find(s, str, from + 1)
  }

  /**
   * `isNoInstrument(V)`: `v` is the name of `V`, or none for a null value.
   * A mangled C++ name counts when the prefix appears anywhere after `_Z`.
   */
  function IsNoInstrument(prefix: string, v: Option<string>): (r: bool)
    ensures r <==> v.Some? && HasName(v.value)
                   && (StartsWith(v.value, prefix)
                       || (StartsWith(v.value, "_Z") && exists j :: 2 <= j && OccursAt(v.value, prefix, j)))
  {
    if v.Some? && HasName(v.value) then
      var name := v.value;
      if StartsWith(name, prefix) then true
      else if StartsWith(name, "_Z") then Find(name, prefix, 2).Some?
      else false
    else false
  }

  /** `shouldInstrument(F)`: a function with a body that is not a no-instrument helper. */
  function ShouldInstrument(prefix: string, f: Function): (r: bool)
    ensures r ==> !f.isDeclaration
    ensures !f.isDeclaration ==> (r <==> !IsNoInstrument(prefix, Some(f.name)))
  {
    if f.isDeclaration then false
    else if IsNoInstrument(prefix, Some(f.name)) then false
    else true
  }

  /** After `setNoInstrument`, a value is a no-instrument value (unless prefix and name are both empty). */
  lemma MarkedAfterSet(prefix: string, name: string)
    requires HasName(prefix + name)
    ensures IsNoInstrument(prefix, Some(prefix + name))
    ensures (prefix + name)[|prefix|..] == name
  {
    assert (prefix + name)[..|prefix|] == prefix;
  }

  /** A name that mentions the prefix somewhere inside a mangled C++ name is a no-instrument name. */
  lemma MangledMarked(prefix: string, head: string, tail: string)
    ensures IsNoInstrument(prefix, Some("_Z" + head + prefix + tail))
  {
    var s := "_Z" + head + prefix + tail;
    assert s[..2] == "_Z";
    assert OccursAt(s, prefix, 2 + |head|) by {
      assert s[2 + |head|..2 + |head| + |prefix|] == prefix;
    }
  }

  /** A name that neither starts with the prefix nor is mangled is instrumented. */
  lemma PlainUnmarked(prefix: string, name: string)
    requires !StartsWith(name, prefix) && !StartsWith(name, "_Z")
    ensures !IsNoInstrument(prefix, Some(name))
  {
  }

  // ---------------------------------------------------------------------
  // The module operations, as functions of the module's functions.

  /** `createNoInstrumentFunction`: appends an internal declaration named `prefix + name`. */
  function Created(fs: seq<Function>, prefix: string, ty: nat, name: string, alwaysInline: bool): (r: seq<Function>)
    ensures |r| == |fs| + 1 && r[..|fs|] == fs
    ensures r[|fs|].name == prefix + name && r[|fs|].ty == ty && r[|fs|].linkage == InternalLinkage
    ensures r[|fs|].alwaysInline == alwaysInline
  {
    fs + [Declared(prefix + name, ty, InternalLinkage).(alwaysInline := alwaysInline)]
  }

  /** The functions with the debug information of function `k`, if any, removed. */
  function StripAt(fs: seq<Function>, k: Option<nat>): (r: seq<Function>)
    requires k.Some? ==> k.value < |fs|
    ensures |r| == |fs|
    ensures forall j :: 0 <= j < |fs| ==> r[j] == if k == Some(j) then Stripped(fs[j]) else fs[j]
  {
    if k.None? then fs else fs[k.value := Stripped(fs[k.value])]
  }

  /**
   * `getNoInstrumentFunction`: the helper `prefix + name`, which loses its
   * debug information; a missing helper ends the program unless allowed.
   */
  function Got(fs: seq<Function>, prefix: string, name: string, allowMissing: bool): (r: (Result<Option<nat>>, seq<Function>))
    ensures r.0.Err? <==> Lookup(fs, prefix + name).None? && !allowMissing
    ensures r.0.Err? ==> r.0.error == Exit(1) && r.1 == fs
    ensures r.0.Ok? ==> r.0.value == Lookup(fs, prefix + name) && r.1 == StripAt(fs, r.0.value)
  {
    var f := Lookup(fs, prefix + name);
    if f.None? && !allowMissing then (Err(Exit(1)), fs)
    else (Ok(f), StripAt(fs, f))
  }

  /**
   * `getOrInsertNoInstrumentFunction`: an existing helper of another type
   * ends the program; one of the same type loses its debug information;
   * otherwise an external declaration is appended.
   */
  function GotOrInserted(fs: seq<Function>, prefix: string, name: string, ty: nat): (r: (Result<nat>, seq<Function>))
    ensures var f := Lookup(fs, prefix + name);
      (r.0.Err? <==> f.Some? && fs[f.value].ty != ty)
      && (r.0.Err? ==> r.0.error == Exit(1) && r.1 == fs)
      && (f.Some? && r.0.Ok? ==> r.0 == Ok(f.value) && r.1 == StripAt(fs, f))
      && (f.None? ==> r.0 == Ok(|fs|) && r.1 == fs + [Declared(prefix + name, ty, ExternalLinkage)])
    ensures r.0.Ok? ==> r.0.value < |r.1| && r.1[r.0.value].ty == ty && Lookup(r.1, prefix + name) == Some(r.0.value)
  {
    var full := prefix + name;
    var f := Lookup(fs, full);
    if f.Some? then
      if fs[f.value].ty != ty then (Err(Exit(1)), fs)
      else (Ok(f.value), StripAt(fs, f))
    else
      var r := fs + [Declared(full, ty, ExternalLinkage)];
      LookupAppendMissing(fs, Declared(full, ty, ExternalLinkage), full);
      (Ok(|fs|), r)
  }

  lemma LookupAppendMissing(fs: seq<Function>, g: Function, name: string)
    requires Lookup(fs, name).None? && g.name == name
    ensures Lookup(fs + [g], name) == Some(|fs|)
  {
    var r := Lookup(fs + [g], name);
    assert (fs + [g])[|fs|].name == name;
    assert forall j :: 0 <= j < |fs| ==> (fs + [g])[j] == fs[j];
  }

  // ---------------------------------------------------------------------
  // Properties.

  /** A helper created by the pass is never instrumented. */
  lemma CreatedNotInstrumented(fs: seq<Function>, prefix: string, ty: nat, name: string, alwaysInline: bool)
    requires HasName(prefix + name)
    ensures !ShouldInstrument(prefix, Created(fs, prefix, ty, name, alwaysInline)[|fs|])
  {
    MarkedAfterSet(prefix, name);
  }

  /** Asking twice gives the same helper and leaves the module as after the first call. */
  lemma {:induction false} GotOrInsertedTwice(fs: seq<Function>, prefix: string, name: string, ty: nat)
    requires GotOrInserted(fs, prefix, name, ty).0.Ok?
    ensures var (r, fs') := GotOrInserted(fs, prefix, name, ty);
      GotOrInserted(fs', prefix, name, ty) == (r, fs')
  {
    var (r, fs') := GotOrInserted(fs, prefix, name, ty);
    var k := r.value;
    assert StripAt(fs', Some(k)) == fs' by {
      assert Stripped(fs'[k]) == fs'[k];
    }
  }

  /** Once a helper is got or inserted, getting it finds it, even when missing helpers are not allowed. */
  lemma GotAfterInsert(fs: seq<Function>, prefix: string, name: string, ty: nat)
    requires GotOrInserted(fs, prefix, name, ty).0.Ok?
    ensures var (r, fs') := GotOrInserted(fs, prefix, name, ty);
      Got(fs', prefix, name, false).0 == Ok(Some(r.value))
  {
  }

  /** A module and its functions, which the helpers add to and rename in place. */
  class IrModule {
    var functions: seq<Function>

    constructor (functions: seq<Function>)
      ensures this.functions == functions
    {
      this.functions := functions;
    }

    /** `createNoInstrumentFunction`; returns the index of the new function. */
    method CreateNoInstrumentFunction(prefix: string, ty: nat, name: string, alwaysInline: bool) returns (f: nat)
      modifies this
      ensures functions == Created(old(functions), prefix, ty, name, alwaysInline)
      ensures f == |old(functions)|
    {
      var fullName := prefix + name;
      var created := Declared(fullName, ty, InternalLinkage);
      if alwaysInline {
        created := created.(alwaysInline := true);
      }
      f := |functions|;
      functions := functions + [created];
    }

    /** `getNoInstrumentFunction`. */
    method GetNoInstrumentFunction(prefix: string, name: string, allowMissing: bool) returns (r: Result<Option<nat>>)
      modifies this
      ensures (r, functions) == Got(old(functions), prefix, name, allowMissing)
    {
      var fullName := prefix + name;
      var f := Lookup(functions, fullName);
      if f.None? && !allowMissing {
        return Err(Exit(1));
      }
      if f.Some? {
        functions := functions[f.value := Stripped(functions[f.value])];
      }
      return Ok(f);
    }

    /** `getOrInsertNoInstrumentFunction`. */
    method GetOrInsertNoInstrumentFunction(prefix: string, name: string, ty: nat) returns (r: Result<nat>)
      modifies this
      ensures (r, functions) == GotOrInserted(old(functions), prefix, name, ty)
    {
      var fullName := prefix + name;
      var f := Lookup(functions, fullName);
      if f.Some? {
        if functions[f.value].ty != ty {
          return Err(Exit(1));
        }
        functions := functions[f.value := Stripped(functions[f.value])];
        return Ok(f.value);
      }
      r := Ok(|functions|);
      functions := functions + [Declared(fullName, ty, ExternalLinkage)];
    }

    /** `setNoInstrument(F)` on function `k`: its name gets the prefix. */
    method SetNoInstrument(prefix: string, k: nat)
      requires k < |functions|
      modifies this
      ensures |functions| == |old(functions)|
      ensures functions == old(functions)[k := old(functions)[k].(name := prefix + old(functions)[k].name)]
      ensures HasName(functions[k].name) ==> IsNoInstrument(prefix, Some(functions[k].name))
    {
      var f := functions[k];
      functions := functions[k := f.(name := prefix + f.name)];
      if HasName(prefix + f.name) {
        MarkedAfterSet(prefix, f.name);
      }
    }
  }
}
