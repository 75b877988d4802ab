/**
 * `CustomFunctionPass`: a module pass that runs `doInitialization`, then
 * `runOnFunction` on every function that should be instrumented, in module
 * order, then `doFinalization`, and reports whether any of them changed the
 * module. The three hooks are parameters: the results of the two module
 * hooks and the per-function result as a function of the function.
 */
module CustomPass {
  import opened Wrappers
  import opened NoInstrument

  /** The calls the pass makes, in order. */
  datatype Event = Init | RunOn(f: Function) | Fini

  /** The functions `runOnFunction` is called on. */
  function Instrumented(prefix: string, fs: seq<Function>): (r: seq<Function>)
    ensures |r| <= |fs|
    ensures forall g :: g in r ==> g in fs && ShouldInstrument(prefix, g)
    decreases |fs|
  {
    if |fs| == 0 then []
    else Instrumented(prefix, fs[..|fs| - 1]) + (if ShouldInstrument(prefix, fs[|fs| - 1]) then [fs[|fs| - 1]] else [])
  }

  /** Every instrumentable function of the module is run. */
  lemma {:induction false} InstrumentedComplete(prefix: string, fs: seq<Function>, i: nat)
    requires i < |fs| && ShouldInstrument(prefix, fs[i])
    ensures fs[i] in Instrumented(prefix, fs)
    decreases |fs|
  {
    if i < |fs| - 1 {
      InstrumentedComplete(prefix, fs[..|fs| - 1], i);
    }
  }

  /** The calls of `runOnFunction`, one per function. */
  function Calls(fs: seq<Function>): (r: seq<Event>)
    ensures |r| == |fs| && forall i :: 0 <= i < |fs| ==> r[i] == RunOn(fs[i])
  {
    seq(|fs|, i requires 0 <= i < |fs| => RunOn(fs[i]))
  }

  /** What the loop over the functions accumulates with `|=`. */
  function RunAll(prefix: string, fs: seq<Function>, run: Function -> bool): bool
    decreases |fs|
  {
    if |fs| == 0 then false
    else RunAll(prefix, fs[..|fs| - 1], run) || (ShouldInstrument(prefix, fs[|fs| - 1]) && run(fs[|fs| - 1]))
  }

  /** The loop reports a change exactly when some instrumented function reported one. */
  lemma {:induction false} RunAllSpec(prefix: string, fs: seq<Function>, run: Function -> bool)
    ensures RunAll(prefix, fs, run) <==> exists i :: 0 <= i < |fs| && ShouldInstrument(prefix, fs[i]) && run(fs[i])
    decreases |fs|
  {
    if |fs| > 0 {
      var init := fs[..|fs| - 1];
      RunAllSpec(prefix, init, run);
      if RunAll(prefix, init, run) {
        var i :| 0 <= i < |init| && ShouldInstrument(prefix, init[i]) && run(init[i]);
        assert fs[i] == init[i];
      }
      if exists i :: 0 <= i < |fs| && ShouldInstrument(prefix, fs[i]) && run(fs[i]) {
        var i :| 0 <= i < |fs| && ShouldInstrument(prefix, fs[i]) && run(fs[i]);
        if i < |init| {
          assert init[i] == fs[i];
        }
      }
    }
  }

  lemma RunAllStep(prefix: string, fs: seq<Function>, run: Function -> bool, i: nat)
    requires i < |fs|
    ensures RunAll(prefix, fs[..i + 1], run) == (RunAll(prefix, fs[..i], run) || (ShouldInstrument(prefix, fs[i]) && run(fs[i])))
    ensures Instrumented(prefix, fs[..i + 1]) == Instrumented(prefix, fs[..i]) + (if ShouldInstrument(prefix, fs[i]) then [fs[i]] else [])
  {
    assert fs[..i + 1][..i] == fs[..i];
  }

  lemma CallsSnoc(fs: seq<Function>, g: Function)
    ensures Calls(fs + [g]) == Calls(fs) + [RunOn(g)]
  {
    assert forall i :: 0 <= i < |fs| ==> (fs + [g])[i] == fs[i];
  }

  /** What `runOnModule` returns. */
  function ModuleChanged(prefix: string, fs: seq<Function>, init: bool, run: Function -> bool, fini: bool): bool
  {
    init || RunAll(prefix, fs, run) || fini
  }

  /** The default `doInitialization` and `doFinalization`, which change nothing. */
  function DefaultInitialization(fs: seq<Function>): bool
  {
    false
  }

  function DefaultFinalization(fs: seq<Function>): bool
  {
    false
  }

  /**
   * `runOnModule`: the initialisation first, one `runOnFunction` per
   * instrumentable function in module order, the finalisation last, and
   * the OR of all their results.
   */
  method RunOnModule(prefix: string, fs: seq<Function>, init: bool, run: Function -> bool, fini: bool)
    returns (changed: bool, trace: seq<Event>)
    ensures trace == [Init] + Calls(Instrumented(prefix, fs)) + [Fini]
    ensures changed == ModuleChanged(prefix, fs, init, run, fini)
  {
    changed := init;
    var calls: seq<Event> := [];
    for i := 0 to |fs|
      invariant changed == (init || RunAll(prefix, fs[..i], run))
      invariant calls == Calls(Instrumented(prefix, fs[..i]))
    {
      RunAllStep(prefix, fs, run, i);
      var g := fs[i];
      if ShouldInstrument(prefix, g) {
        changed := changed || run(g);
        CallsSnoc(Instrumented(prefix, fs[..i]), g);
        calls := calls + [RunOn(g)];
      }
    }
    changed := changed || fini;
    assert fs[..|fs|] == fs;
    trace := [Init] + calls + [Fini];
  }

  /** The pass reports a change exactly when one of its hooks did. */
  lemma ModuleChangedSpec(prefix: string, fs: seq<Function>, init: bool, run: Function -> bool, fini: bool)
    ensures ModuleChanged(prefix, fs, init, run, fini)
        <==> init || fini || exists i :: 0 <= i < |fs| && ShouldInstrument(prefix, fs[i]) && run(fs[i])
  {
    RunAllSpec(prefix, fs, run);
  }

  /** With the default hooks, the pass changed the module exactly when some `runOnFunction` did. */
  lemma DefaultHooks(prefix: string, fs: seq<Function>, run: Function -> bool)
    ensures ModuleChanged(prefix, fs, DefaultInitialization(fs), run, DefaultFinalization(fs))
         <==> exists i :: 0 <= i < |fs| && ShouldInstrument(prefix, fs[i]) && run(fs[i])
  {
    RunAllSpec(prefix, fs, run);
  }

  /** Declarations and no-instrument helpers are never run. */
  lemma SkipsHelpers(prefix: string, fs: seq<Function>, g: Function)
    requires g.isDeclaration || IsNoInstrument(prefix, Some(g.name))
    ensures g !in Instrumented(prefix, fs)
  {
  }
}
