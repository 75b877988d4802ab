/**
 * The older no-instrument helpers of `NoInstrument.cpp`. Creating a helper,
 * the name tests and renaming are the same code as in
 * `Utils/NoInstrument.cpp` and are the members of `NoInstrument`; getting a
 * helper here keeps its debug information, and getting or inserting one
 * goes through `Module::getOrInsertFunction` without a type check of its own.
 */
module NoInstrumentLegacy {
  import opened Wrappers
  import opened NoInstrument

  /** `getNoInstrumentFunction`: a missing helper ends the program unless allowed. */
  function LegacyGot(fs: seq<Function>, prefix: string, name: string, allowMissing: bool): (r: Result<Option<nat>>)
    ensures r.Err? <==> Lookup(fs, prefix + name).None? && !allowMissing
    ensures r.Err? ==> r.error == Exit(1)
    ensures r.Ok? ==> r.value == Lookup(fs, prefix + name)
  {
    var f := Lookup(fs, prefix + name);
    if f == None && !allowMissing then Err(Exit(1)) else Ok(f)
  }

  /**
   * `getOrInsertNoInstrumentFunction`: LLVM 4.0's `getOrInsertFunction`
   * appends an external declaration when the name is free, returns the
   * function when its type matches, and otherwise returns a bitcast of it,
   * on which `cast<Function>` asserts.
   */
  function LegacyGotOrInserted(fs: seq<Function>, prefix: string, name: string, ty: nat): (r: (Result<nat>, seq<Function>))
    ensures var f := Lookup(fs, prefix + name);
      (r.0.Err? <==> f.Some? && fs[f.value].ty != ty)
      && (r.0.Err? ==> r.0.error == AssertionError)
      && (f.Some? ==> r.1 == fs)
      && (f.None? ==> r.0 == Ok(|fs|) && r.1 == fs + [Declared(prefix + name, ty, ExternalLinkage)])
    ensures r.0.Ok? ==> r.0.value < |r.1| && r.1[r.0.value].ty == ty && Lookup(r.1, prefix + name) == Some(r.0.value)
  {
    var full := prefix + name;
    var f := Lookup(fs, full);
    if f.Some? then
      if fs[f.value].ty != ty then (Err(AssertionError), fs) else (Ok(f.value), fs)
    else
      LookupAppendMissing(fs, Declared(full, ty, ExternalLinkage), full);
      (Ok(|fs|), fs + [Declared(full, ty, ExternalLinkage)])
  }

  /** `getNoInstrumentFunction` on a module, which it does not change. */
  method GetNoInstrumentFunction(m: IrModule, prefix: string, name: string, allowMissing: bool) returns (r: Result<Option<nat>>)
    ensures r == LegacyGot(m.functions, prefix, name, allowMissing)
  {
    var fullName := prefix + name;
    var f := Lookup(m.functions, fullName);
    if f.None? && !allowMissing {
      return Err(Exit(1));
    }
    return Ok(f);
  }

  /** `getOrInsertNoInstrumentFunction` on a module. */
  method GetOrInsertNoInstrumentFunction(m: IrModule, prefix: string, name: string, ty: nat) returns (r: Result<nat>)
    modifies m
    ensures (r, m.functions) == LegacyGotOrInserted(old(m.functions), prefix, name, ty)
  {
    var fullName := prefix + name;
    var f := Lookup(m.functions, fullName);
    if f.None? {
      r := Ok(|m.functions|);
      m.functions := m.functions + [Declared(fullName, ty, ExternalLinkage)];
    } else if m.functions[f.value].ty != ty {
      r := Err(AssertionError);
    } else {
      r := Ok(f.value);
    }
  }

  // ---------------------------------------------------------------------
  // The two versions side by side.

  /** Both getters find the same helper and fail alike; only the newer one strips debug information. */
  lemma GettersAgree(fs: seq<Function>, prefix: string, name: string, allowMissing: bool)
    ensures LegacyGot(fs, prefix, name, allowMissing) == Got(fs, prefix, name, allowMissing).0
  {
  }

  /**
   * Both versions succeed on the same modules and return the same helper,
   * and they leave the module the same up to debug information; on a type
   * mismatch the newer one exits where the older one trips an assertion.
   */
  lemma GetOrInsertAgree(fs: seq<Function>, prefix: string, name: string, ty: nat)
    ensures var (r, fs') := GotOrInserted(fs, prefix, name, ty);
      var (r', fs'') := LegacyGotOrInserted(fs, prefix, name, ty);
      (r.Ok? <==> r'.Ok?) && (r.Ok? ==> r == r')
      && (r.Err? ==> r == Err(Exit(1)) && r' == Err(AssertionError))
      && |fs'| == |fs''| && forall j :: 0 <= j < |fs'| ==> Stripped(fs'[j]) == Stripped(fs''[j])
  {
  }

  /** Asking twice gives the same helper and does not change the module again. */
  lemma LegacyGotOrInsertedTwice(fs: seq<Function>, prefix: string, name: string, ty: nat)
    requires LegacyGotOrInserted(fs, prefix, name, ty).0.Ok?
    ensures var (r, fs') := LegacyGotOrInserted(fs, prefix, name, ty);
      LegacyGotOrInserted(fs', prefix, name, ty) == (r, fs')
  {
  }
}
