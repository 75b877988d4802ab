/**
 * The `allocs` module pass (`AllocsPass` in `Allocs.cpp`): it records an
 * allocation site for every global and for every call to a known allocation
 * function, keyed by the value and grouped by the function that contains it
 * (globals under the null function), and walks all sites with a
 * `ListIterator` when asked to print them.
 *
 * A `Value*` is named by its position: global `g`, or instruction `i` of
 * function `f`, so distinct values have distinct keys. The `DenseMap` from
 * functions to site lists is an association list; its iteration order is
 * taken to be the order in which the functions were added.
 */
module AllocsAnalysis {

  import opened Wrappers
  import LlvmIr
  import Allocs
  import Dicts

  datatype SiteKey = GlobalKey(g: nat) | InstKey(f: nat, i: nat)

  /** The global variables (their store sizes) and the functions (their instructions), in module order. */
  datatype Module = Module(globals: seq<LlvmIr.U64>, functions: seq<seq<LlvmIr.Instruction>>)

  /** `SiteList`, a `MapVector<Value*, AllocSite*>`. */
  type SiteList = seq<(SiteKey, Allocs.AllocSite)>

  /** `FuncSites`; the key `None` is the null function. */
  type FuncMap = seq<(Option<nat>, SiteList)>

  /** The key of function `f`. */
  function Fn(f: nat): Option<nat>
  {
    Some(f)
  }

  // ---------------------------------------------------------------------
  // Filling the map.

  /** `FuncSites.FindAndConstruct(key)`: adds an empty list for a new key. */
  function Construct(fm: FuncMap, key: Option<nat>): FuncMap
  {
    if key in Dicts.Keys(fm) then fm else fm + [(key, [])]
  }

  /** `Sites[k] = s` on the list stored under `key`. */
  function SetIn(fm: FuncMap, key: Option<nat>, k: SiteKey, s: Allocs.AllocSite): FuncMap
    decreases |fm|
  {
    if |fm| == 0 then fm
    else if fm[0].0 == key then [(key, Dicts.Set(fm[0].1, k, s))] + fm[1..]
    else [fm[0]] + SetIn(fm[1..], key, k, s)
  }

  /** The globals loop of `runOnModule`, after its first `n` iterations. */
  function GlobalsUpTo(fm: FuncMap, gs: seq<LlvmIr.U64>, n: nat): FuncMap
    requires n <= |gs|
    decreases n
  {
    if n == 0 then fm
    else SetIn(GlobalsUpTo(fm, gs, n - 1), None, GlobalKey(n - 1), Allocs.GlobalSite(gs[n - 1]))
  }

  /** The instruction loop over function `f`, after its first `n` iterations. */
  function InstsUpTo(fm: FuncMap, f: nat, insts: seq<LlvmIr.Instruction>, n: nat): FuncMap
    requires n <= |insts|
    decreases n
  {
    if n == 0 then fm
    else
      var prev := InstsUpTo(fm, f, insts, n - 1);
      match Allocs.TryCreate(insts[n - 1])
      case None => prev
      case Some(a) => SetIn(prev, Fn(f), InstKey(f, n - 1), a)
  }

  /** The function loop of `runOnModule`, after its first `n` iterations. */
  function FuncsUpTo(fm: FuncMap, fs: seq<seq<LlvmIr.Instruction>>, n: nat): FuncMap
    requires n <= |fs|
    decreases n
  {
    if n == 0 then fm
    else InstsUpTo(Construct(FuncsUpTo(fm, fs, n - 1), Fn(n - 1)), n - 1, fs[n - 1], |fs[n - 1]|)
  }

  /** `FuncSites` after the two filling loops of `runOnModule`, starting from `fm`. */
  function Recorded(fm: FuncMap, m: Module): FuncMap
  {
    FuncsUpTo(GlobalsUpTo(Construct(fm, None), m.globals, |m.globals|), m.functions, |m.functions|)
  }

  /** The globals loop of `runOnModule`: one site per global under the `nullptr` key. */
  method RecordGlobals(fm: FuncMap, gs: seq<LlvmIr.U64>) returns (r: FuncMap)
    ensures r == GlobalsUpTo(fm, gs, |gs|)
  {
    r := fm;
    for g := 0 to |gs|
      invariant r == GlobalsUpTo(fm, gs, g)
    {
      r := SetIn(r, None, GlobalKey(g), Allocs.GlobalSite(gs[g]));
    }
  }

  /** The instruction loop of `runOnModule` over function `f`: one site per allocation call. */
  method RecordFunction(fm: FuncMap, f: nat, insts: seq<LlvmIr.Instruction>) returns (r: FuncMap)
    ensures r == InstsUpTo(fm, f, insts, |insts|)
  {
    r := fm;
    for i := 0 to |insts|
      invariant r == InstsUpTo(fm, f, insts, i)
    {
      var a := Allocs.TryCreate(insts[i]);
      if a.Some? {
        r := SetIn(r, Fn(f), InstKey(f, i), a.value);
      }
    }
  }

  /** The function loop of `runOnModule`: a list per function, then its sites. */
  method RecordFunctions(fm: FuncMap, fs: seq<seq<LlvmIr.Instruction>>) returns (r: FuncMap)
    ensures r == FuncsUpTo(fm, fs, |fs|)
  {
    r := fm;
    for f := 0 to |fs|
      invariant r == FuncsUpTo(fm, fs, f)
    {
      r := RecordFunction(Construct(r, Fn(f)), f, fs[f]);
    }
  }

  // ---------------------------------------------------------------------
  // What a fresh pass records.

  /** One site per global, in order. */
  function GlobalSites(gs: seq<LlvmIr.U64>): SiteList
    decreases |gs|
  {
    if |gs| == 0 then []
    else GlobalSites(gs[..|gs| - 1]) + [(GlobalKey(|gs| - 1), Allocs.GlobalSite(gs[|gs| - 1]))]
  }

  /** One site per instruction of function `f` that `TryCreate` accepts, in order. */
  function InstSites(f: nat, insts: seq<LlvmIr.Instruction>): SiteList
    decreases |insts|
  {
    if |insts| == 0 then []
    else
      var prev := InstSites(f, insts[..|insts| - 1]);
      match Allocs.TryCreate(insts[|insts| - 1])
      case None => prev
      case Some(a) => prev + [(InstKey(f, |insts| - 1), a)]
  }

  /** One list per function, in order. */
  function FuncLists(fs: seq<seq<LlvmIr.Instruction>>): FuncMap
    decreases |fs|
  {
    if |fs| == 0 then []
    else FuncLists(fs[..|fs| - 1]) + [(Fn(|fs| - 1), InstSites(|fs| - 1, fs[|fs| - 1]))]
  }

  lemma {:induction false} GlobalSitesFresh(gs: seq<LlvmIr.U64>, k: nat)
    requires k >= |gs|
    ensures GlobalKey(k) !in Dicts.Keys(GlobalSites(gs))
    decreases |gs|
  {
    if |gs| > 0 {
      var init := gs[..|gs| - 1];
      GlobalSitesFresh(init, k);
      Dicts.KeysSnoc(GlobalSites(init), (GlobalKey(|gs| - 1), Allocs.GlobalSite(gs[|gs| - 1])));
    }
  }

  lemma {:induction false} InstSitesFresh(f: nat, insts: seq<LlvmIr.Instruction>, i: nat)
    requires i >= |insts|
    ensures InstKey(f, i) !in Dicts.Keys(InstSites(f, insts))
    decreases |insts|
  {
    if |insts| > 0 {
      var init := insts[..|insts| - 1];
      InstSitesFresh(f, init, i);
      match Allocs.TryCreate(insts[|insts| - 1])
      case None =>
      case Some(a) => Dicts.KeysSnoc(InstSites(f, init), (InstKey(f, |insts| - 1), a));
    }
  }

  lemma {:induction false} FuncListsFresh(fs: seq<seq<LlvmIr.Instruction>>, j: nat)
    requires j >= |fs|
    ensures Fn(j) !in Dicts.Keys(FuncLists(fs)) && None !in Dicts.Keys(FuncLists(fs))
    decreases |fs|
  {
    if |fs| > 0 {
      var init := fs[..|fs| - 1];
      FuncListsFresh(init, j);
      Dicts.KeysSnoc(FuncLists(init), (Fn(|fs| - 1), InstSites(|fs| - 1, fs[|fs| - 1])));
    }
  }

  /** Assigning into the last list, whose key is not used before it. */
  lemma {:induction false} SetInLast(fm: FuncMap, key: Option<nat>, l: SiteList, k: SiteKey, s: Allocs.AllocSite)
    requires key !in Dicts.Keys(fm)
    ensures SetIn(fm + [(key, l)], key, k, s) == fm + [(key, Dicts.Set(l, k, s))]
    decreases |fm|
  {
    if |fm| == 0 {
      assert fm + [(key, l)] == [(key, l)];
    } else {
      assert (fm + [(key, l)])[1..] == fm[1..] + [(key, l)];
      SetInLast(fm[1..], key, l, k, s);
    }
  }

  lemma {:induction false} GlobalsFresh(gs: seq<LlvmIr.U64>, n: nat)
    requires n <= |gs|
    ensures GlobalsUpTo([(None, [])], gs, n) == [(None, GlobalSites(gs[..n]))]
    decreases n
  {
    if n > 0 {
      GlobalsFresh(gs, n - 1);
      var prev := GlobalSites(gs[..n - 1]);
      var site := Allocs.GlobalSite(gs[n - 1]);
      SetInLast([], None, prev, GlobalKey(n - 1), site);
      var empty: FuncMap := [];
      assert empty + [(None, prev)] == [(None, prev)];
      GlobalSitesFresh(gs[..n - 1], n - 1);
      Dicts.SetNew(prev, GlobalKey(n - 1), site);
      assert gs[..n][..n - 1] == gs[..n - 1];
    }
  }

  lemma {:induction false} InstsFresh(pre: FuncMap, f: nat, insts: seq<LlvmIr.Instruction>, n: nat)
    requires n <= |insts| && Fn(f) !in Dicts.Keys(pre)
    ensures InstsUpTo(pre + [(Fn(f), [])], f, insts, n) == pre + [(Fn(f), InstSites(f, insts[..n]))]
    decreases n
  {
    if n == 0 {
      assert insts[..0] == [];
    } else {
      InstsFresh(pre, f, insts, n - 1);
      var prev := InstSites(f, insts[..n - 1]);
      assert insts[..n][..n - 1] == insts[..n - 1];
      match Allocs.TryCreate(insts[n - 1])
      case None =>
      case Some(a) =>
        SetInLast(pre, Fn(f), prev, InstKey(f, n - 1), a);
        InstSitesFresh(f, insts[..n - 1], n - 1);
        Dicts.SetNew(prev, InstKey(f, n - 1), a);
    }
  }

  lemma {:induction false} FuncsFresh(g: SiteList, fs: seq<seq<LlvmIr.Instruction>>, n: nat)
    requires n <= |fs|
    ensures FuncsUpTo([(None, g)], fs, n) == [(None, g)] + FuncLists(fs[..n])
    decreases n
  {
    if n == 0 {
      assert fs[..0] == [];
    } else {
      FuncsFresh(g, fs, n - 1);
      var prev := [(None, g)] + FuncLists(fs[..n - 1]);
      ConstructFresh(g, fs[..n - 1]);
      InstsFresh(prev, n - 1, fs[n - 1], |fs[n - 1]|);
      assert fs[n - 1][..|fs[n - 1]|] == fs[n - 1];
      FuncListsPrefix(fs, n);
    }
  }

  /** The entry of the next function is new. */
  lemma ConstructFresh(g: SiteList, fs: seq<seq<LlvmIr.Instruction>>)
    ensures Fn(|fs|) !in Dicts.Keys([(None, g)] + FuncLists(fs))
    ensures Construct([(None, g)] + FuncLists(fs), Fn(|fs|)) == [(None, g)] + FuncLists(fs) + [(Fn(|fs|), [])]
  {
    FuncListsFresh(fs, |fs|);
    Dicts.KeysAppend([(None, g)], FuncLists(fs));
  }

  lemma FuncListsPrefix(fs: seq<seq<LlvmIr.Instruction>>, n: nat)
    requires 0 < n <= |fs|
    ensures FuncLists(fs[..n]) == FuncLists(fs[..n - 1]) + [(Fn(n - 1), InstSites(n - 1, fs[n - 1]))]
  {
    assert fs[..n][..n - 1] == fs[..n - 1];
  }

  /**
   * A pass that has not run before records, under the null function, one
   * site per global in order, and then, for each function in order, one
   * site per instruction that is a call to a known allocation function.
   */
  lemma FreshRun(m: Module)
    ensures Recorded([], m) == [(None, GlobalSites(m.globals))] + FuncLists(m.functions)
  {
    assert Construct([], None) == [(None, [])];
    GlobalsFresh(m.globals, |m.globals|);
    assert m.globals[..|m.globals|] == m.globals;
    FuncsFresh(GlobalSites(m.globals), m.functions, |m.functions|);
    assert m.functions[..|m.functions|] == m.functions;
  }

  // ---------------------------------------------------------------------
  // Walking the sites.

  /** The values of one list, in order. */
  function Values<K, V>(l: seq<(K, V)>): (r: seq<V>)
    ensures |r| == |l| && forall i :: 0 <= i < |l| ==> r[i] == l[i].1
  {
    seq(|l|, i requires 0 <= i < |l| => l[i].1)
  }

  /** The values of all lists, list after list. */
  function Flat<K, V>(ls: seq<seq<(K, V)>>): seq<V>
    decreases |ls|
  {
    if |ls| == 0 then [] else Flat(ls[..|ls| - 1]) + Values(ls[|ls| - 1])
  }

  lemma {:induction false} FlatAppend<K, V>(a: seq<seq<(K, V)>>, b: seq<seq<(K, V)>>)
    ensures Flat(a + b) == Flat(a) + Flat(b)
    decreases |b|
  {
    if |b| == 0 {
      assert a + b == a;
    } else {
      var init := b[..|b| - 1];
      assert (a + b)[..|a + b| - 1] == a + init;
      FlatAppend(a, init);
    }
  }

  /** The value of entry `li` of list `fli` is at its offset in the flattening. */
  lemma FlatAt<K, V>(ls: seq<seq<(K, V)>>, fli: nat, li: nat)
    requires fli < |ls| && li < |ls[fli]|
    ensures |Flat(ls[..fli])| + li < |Flat(ls)|
    ensures Flat(ls)[|Flat(ls[..fli])| + li] == ls[fli][li].1
  {
    assert ls == ls[..fli + 1] + ls[fli + 1..];
    FlatAppend(ls[..fli + 1], ls[fli + 1..]);
    assert ls[..fli + 1][..fli] == ls[..fli];
  }

  /** Lengths of the flattened prefixes. */
  lemma FlatStep<K, V>(ls: seq<seq<(K, V)>>, k: nat)
    requires k < |ls|
    ensures |Flat(ls[..k + 1])| == |Flat(ls[..k])| + |ls[k]|
  {
    assert ls[..k + 1][..k] == ls[..k];
  }

  lemma {:induction false} FlatMonotone<K, V>(ls: seq<seq<(K, V)>>, a: nat, b: nat)
    requires a <= b <= |ls|
    ensures |Flat(ls[..a])| <= |Flat(ls[..b])|
    decreases b - a
  {
    if a < b {
      FlatStep(ls, a);
      FlatMonotone(ls, a + 1, b);
    }
  }

  lemma FlatWhole<K, V>(ls: seq<seq<(K, V)>>)
    ensures Flat(ls[..|ls|]) == Flat(ls)
  {
    assert ls[..|ls|] == ls;
  }

  /**
   * `ListIterator`: walks the values of the lists of the map entries from a
   * start position to the end `FLE` (here the end of `lists`), skipping
   * empty lists. `fli` is `FLI` and `li` is `LI` within `*L`.
   */
  class ListIterator<K, V> {
    const lists: seq<seq<(K, V)>>
    var fli: nat
    var li: nat
    /** Every value the iterator walks, and how many of them come before the current one. */
    ghost const all: seq<V>
    ghost var pos: nat

    /** Not at the end, the iterator stands on an entry. */
    ghost predicate Valid()
      reads this
    {
      all == Flat(lists) && fli <= |lists| && (fli < |lists| ==> li < |lists[fli]|)
      && pos == Position(lists, fli, li)
    }

    /** `ListIterator(B, E)`; `b` is the position of `B`. */
    constructor (lists: seq<seq<(K, V)>>, b: nat)
      requires b <= |lists|
      ensures this.lists == lists && Valid()
      ensures all == Flat(lists) && pos == |Flat(lists[..b])|
    {
      this.lists := lists;
      all := Flat(lists);
      fli := b;
      li := 0;
      pos := |Flat(lists[..b])|;
      new;
      if fli != |lists| {
        AdvanceToNextFunc();
      } else {
        FlatWhole(lists);
      }
    }

    /** `advanceToNextFunc`: from the end of a list, move to the start of the next non-empty one. */
    method AdvanceToNextFunc()
      requires all == Flat(lists) && fli < |lists| && li <= |lists[fli]|
      requires pos == |Flat(lists[..fli])| + li
      modifies this
      ensures Valid() && pos == old(pos)
    {
      while li == |lists[fli]|
        invariant fli < |lists| && li <= |lists[fli]|
        invariant pos == old(pos) && |Flat(lists[..fli])| + li == pos
        decreases |lists| - fli
      {
        FlatStep(lists, fli);
        fli := fli + 1;
        if fli == |lists| {
          FlatWhole(lists);
          return;
        }
        li := 0;
      }
    }

    predicate AtEnd()
      reads this
    {
      fli == |lists|
    }

    /** `operator*`: the current value. */
    function Get(): (v: V)
      reads this
      requires Valid() && !AtEnd()
      ensures pos < |all| && v == all[pos]
    {
      FlatAt(lists, fli, li);
      lists[fli][li].1
    }

    /** `operator++`. */
    method Next()
      requires Valid() && !AtEnd()
      modifies this
      ensures Valid() && pos == old(pos) + 1
    {
      li := li + 1;
      pos := pos + 1;
      AdvanceToNextFunc();
    }

    /** `operator==`; both iterators walk the same map. */
    predicate Equals(y: ListIterator<K, V>)
      reads this, y
      requires lists == y.lists
    {
      fli == y.fli && (fli == |lists| || li == y.li)
    }
  }

  /** How many values come before entry `li` of list `fli`; all of them at the end. */
  ghost function Position<K, V>(lists: seq<seq<(K, V)>>, fli: nat, li: nat): nat
  {
    if fli < |lists| then |Flat(lists[..fli])| + li else |Flat(lists)|
  }

  /** Two iterators over the same map are equal exactly when they have walked equally far. */
  lemma EqualsIffSamePosition<K, V>(x: ListIterator<K, V>, y: ListIterator<K, V>)
    requires x.Valid() && y.Valid() && x.lists == y.lists
    ensures x.Equals(y) <==> x.pos == y.pos
  {
    var ls := x.lists;
    if x.fli < y.fli {
      Before(ls, x.fli, x.li, y.fli);
    } else if y.fli < x.fli {
      Before(ls, y.fli, y.li, x.fli);
    }
  }

  /** An entry of list `a` comes before anything from list `b > a` on. */
  lemma Before<K, V>(ls: seq<seq<(K, V)>>, a: nat, li: nat, b: nat)
    requires a < b <= |ls| && li < |ls[a]|
    ensures |Flat(ls[..a])| + li < |Flat(ls[..b])|
    ensures |Flat(ls[..b])| <= |Flat(ls)|
  {
    FlatStep(ls, a);
    FlatMonotone(ls, a + 1, b);
    FlatMonotone(ls, b, |ls|);
    FlatWhole(ls);
  }

  /** The lists of a map, in order. */
  function Lists(fm: FuncMap): (r: seq<SiteList>)
    ensures |r| == |fm| && forall i :: 0 <= i < |fm| ==> r[i] == fm[i].1
  {
    seq(|fm|, i requires 0 <= i < |fm| => fm[i].1)
  }

  /** What `sites()` walks: every site of every list. */
  function Sites(fm: FuncMap): seq<Allocs.AllocSite>
  {
    Flat(Lists(fm))
  }

  /**
   * `func_sites(F)`: the sites of the entry of `F`, walked from that entry
   * to the next one; none when `F` has no entry.
   */
  function FuncSitesOf(fm: FuncMap, key: Option<nat>): (r: seq<Allocs.AllocSite>)
    ensures key !in Dicts.Keys(fm) ==> r == []
  {
    match Dicts.Get(fm, key)
    case None => []
    case Some(l) => Flat([l])
  }

  /** The list a fresh pass records for function `f`. */
  lemma {:induction false} FuncListsGet(fs: seq<seq<LlvmIr.Instruction>>, f: nat)
    requires f < |fs|
    ensures Dicts.Get(FuncLists(fs), Fn(f)) == Some(InstSites(f, fs[f]))
    decreases |fs|
  {
    var init := fs[..|fs| - 1];
    var last := [(Fn(|fs| - 1), InstSites(|fs| - 1, fs[|fs| - 1]))];
    Dicts.GetAppend(FuncLists(init), last, Fn(f));
    if f == |fs| - 1 {
      FuncListsFresh(init, f);
    } else {
      FuncListsGet(init, f);
      assert init[f] == fs[f];
    }
  }

  /**
   * After a fresh run, `func_sites(nullptr)` walks the global sites in
   * order, `func_sites(F)` the allocation calls of `F` in order, and a
   * function the module does not have has no sites.
   */
  lemma FreshFuncSites(m: Module, f: nat)
    ensures FuncSitesOf(Recorded([], m), None) == Values(GlobalSites(m.globals))
    ensures f < |m.functions| ==> FuncSitesOf(Recorded([], m), Fn(f)) == Values(InstSites(f, m.functions[f]))
    ensures f >= |m.functions| ==> FuncSitesOf(Recorded([], m), Fn(f)) == []
  {
    FreshRun(m);
    var g := [(None, GlobalSites(m.globals))];
    Dicts.GetAppend(g, FuncLists(m.functions), Fn(f));
    assert Dicts.Keys(g) == [None];
    if f < |m.functions| {
      FuncListsGet(m.functions, f);
    } else {
      FuncListsFresh(m.functions, f);
    }
    assert Flat([GlobalSites(m.globals)]) == Values(GlobalSites(m.globals));
    if f < |m.functions| {
      assert Flat([InstSites(f, m.functions[f])]) == Values(InstSites(f, m.functions[f]));
    }
  }

  // ---------------------------------------------------------------------
  // The debug loop of `runOnModule`.

  /**
   * One iteration of the debug loop, as written: for an allocation the
   * byte size is printed, and `getOrInsertSize(&Changed)` first resets
   * `Changed`. Its assertion rejects the `strdup` family, and
   * `getArgOperand` rejects an argument the call does not pass.
   */
  function DebugVisit(a: Allocs.AllocSite, changed: bool): Result<bool>
  {
    if !Allocs.IsAnyAlloc(a) then Ok(changed)
    else if Allocs.IsStrDup(a) || !Allocs.Coherent(a) then Err(AssertionError)
    else Ok(Allocs.GetOrInsertSize(a).1)
  }

  /** The debug loop over the first sites, as written. */
  function DebugFold(sites: seq<Allocs.AllocSite>): Result<bool>
    decreases |sites|
  {
    if |sites| == 0 then Ok(false)
    else match DebugFold(sites[..|sites| - 1])
      case Err(e) => Err(e)
      case Ok(c) => DebugVisit(sites[|sites| - 1], c)
  }

  /** The debug loop over the first `k` sites. */
  function DebugUpTo(sites: seq<Allocs.AllocSite>, k: nat): Result<bool>
    requires k <= |sites|
  {
    if k == 0 then Ok(false)
    else match DebugUpTo(sites, k - 1)
      case Err(e) => Err(e)
      case Ok(c) => DebugVisit(sites[k - 1], c)
  }

  lemma {:induction false} DebugUpToFold(sites: seq<Allocs.AllocSite>, k: nat)
    requires k <= |sites|
    ensures DebugUpTo(sites, k) == DebugFold(sites[..k])
  {
    if k > 0 {
      DebugUpToFold(sites, k - 1);
      assert sites[..k][..k - 1] == sites[..k - 1];
    }
  }

  lemma DebugUpToAll(sites: seq<Allocs.AllocSite>)
    ensures DebugUpTo(sites, |sites|) == DebugFold(sites)
  {
    DebugUpToFold(sites, |sites|);
    assert sites[..|sites|] == sites;
  }

  lemma DebugUpToStep(sites: seq<Allocs.AllocSite>, k: nat, c: bool)
    requires k < |sites| && DebugUpTo(sites, k) == Ok(c)
    ensures DebugUpTo(sites, k + 1) == DebugVisit(sites[k], c)
  {
  }

  /** Once an assertion fails, the rest of the loop does not run. */
  lemma {:induction false} DebugUpToStops(sites: seq<Allocs.AllocSite>, k: nat)
    requires k <= |sites| && DebugUpTo(sites, k).Err?
    ensures DebugUpTo(sites, |sites|) == DebugUpTo(sites, k)
    decreases |sites| - k
  {
    if k < |sites| {
      DebugUpToStops(sites, k + 1);
    }
  }

  /** The body of the debug loop for one site. */
  method PrintSize(a: Allocs.AllocSite, changed: bool) returns (r: Result<bool>)
    ensures r == DebugVisit(a, changed)
  {
    if Allocs.IsAnyAlloc(a) {
      if Allocs.IsStrDup(a) || !Allocs.Coherent(a) {
        return Err(AssertionError);
      }
      var (_, c) := Allocs.GetOrInsertSize(a);
      return Ok(c);
    }
    return Ok(changed);
  }

  /** The debug loop: walks `sites()` with a `ListIterator` and prints every site. */
  method DebugSizes(fm: FuncMap) returns (r: Result<bool>)
    ensures r == DebugFold(Sites(fm))
  {
    var lists := Lists(fm);
    ghost var all := Flat(lists);
    var it := new ListIterator(lists, 0);
    assert lists[..0] == [];
    var changed := false;
    ghost var k := it.pos;
    while !it.AtEnd()
      invariant fresh(it) && it.Valid() && it.lists == lists && it.all == all
      invariant k == it.pos && k <= |all|
      invariant DebugUpTo(all, k) == Ok(changed)
      decreases |all| - k
    {
      var a := it.Get();
      assert a == all[k];
      DebugUpToStep(all, k, changed);
      var res := PrintSize(a, changed);
      assert DebugUpTo(all, k + 1) == res;
      if res.Err? {
        DebugUpToStops(all, k + 1);
        DebugUpToAll(all);
        return res;
      }
      changed := res.value;
      k := k + 1;
      assert DebugUpTo(all, k) == Ok(changed);
      it.Next();
    }
    DebugUpToAll(all);
    return Ok(changed);
  }

  /** The `allocs` pass: `FuncSites` and the `-allocs-debug` option. */
  class AllocsPass {
    var funcSites: FuncMap
    const showDebugOutput: bool

    constructor (showDebugOutput: bool)
      ensures funcSites == [] && this.showDebugOutput == showDebugOutput
    {
      funcSites := [];
      this.showDebugOutput := showDebugOutput;
    }

    /**
     * `runOnModule`: records the sites of `m`; with debug output it prints
     * every site and returns whether the last byte size it printed needed
     * a new multiplication.
     */
    method RunOnModule(m: Module) returns (r: Result<bool>)
      modifies this
      ensures funcSites == Recorded(old(funcSites), m)
      ensures r == if showDebugOutput then DebugFold(Sites(funcSites)) else Ok(false)
    {
      var globals := RecordGlobals(Construct(funcSites, None), m.globals);
      funcSites := RecordFunctions(globals, m.functions);
      if showDebugOutput {
        r := DebugSizes(funcSites);
      } else {
        r := Ok(false);
      }
    }
  }

  // ---------------------------------------------------------------------
  // The debug loop as evidently intended.

  /** One iteration with `Changed` accumulated and the `strdup` family skipped. */
  function FixedVisit(a: Allocs.AllocSite, changed: bool): Result<bool>
  {
    if !Allocs.IsAnyAlloc(a) || Allocs.IsStrDup(a) then Ok(changed)
    else if !Allocs.Coherent(a) then Err(AssertionError)
    else Ok(changed || Allocs.GetOrInsertSize(a).1)
  }

  function FixedFold(sites: seq<Allocs.AllocSite>): Result<bool>
    decreases |sites|
  {
    if |sites| == 0 then Ok(false)
    else match FixedFold(sites[..|sites| - 1])
      case Err(e) => Err(e)
      case Ok(c) => FixedVisit(sites[|sites| - 1], c)
  }

  /** A site whose byte size is computed by `getOrInsertSize`. */
  predicate Sized(a: Allocs.AllocSite)
  {
    Allocs.IsAnyAlloc(a) && !Allocs.IsStrDup(a)
  }

  /** A site for which printing its byte size inserts a multiplication. */
  predicate InsertsMul(a: Allocs.AllocSite)
  {
    Sized(a) && Allocs.Coherent(a) && Allocs.GetOrInsertSize(a).1
  }

  /** The corrected loop over one more site. */
  lemma FixedFoldLast(sites: seq<Allocs.AllocSite>)
    requires |sites| > 0
    ensures FixedFold(sites) == match FixedFold(sites[..|sites| - 1])
      case Err(e) => Err(e)
      case Ok(c) => FixedVisit(sites[|sites| - 1], c)
  {
  }

  /** The corrected loop fails only on a call that does not pass its size arguments. */
  lemma {:induction false} FixedFoldOk(sites: seq<Allocs.AllocSite>)
    ensures FixedFold(sites).Ok? <==> forall i :: 0 <= i < |sites| && Sized(sites[i]) ==> Allocs.Coherent(sites[i])
    decreases |sites|
  {
    if |sites| > 0 {
      var init := sites[..|sites| - 1];
      FixedFoldLast(sites);
      FixedFoldOk(init);
      assert forall i :: 0 <= i < |init| ==> init[i] == sites[i];
    }
  }

  /** Otherwise it returns true exactly when some site needed a new multiplication. */
  lemma {:induction false} FixedFoldSpec(sites: seq<Allocs.AllocSite>)
    ensures FixedFold(sites).Ok? ==> (FixedFold(sites).value <==> exists i :: 0 <= i < |sites| && InsertsMul(sites[i]))
    decreases |sites|
  {
    if |sites| > 0 {
      var init := sites[..|sites| - 1];
      var last := sites[|sites| - 1];
      FixedFoldLast(sites);
      FixedFoldSpec(init);
      assert forall i :: 0 <= i < |init| ==> init[i] == sites[i];
      if FixedFold(init).Ok? && FixedFold(sites).Ok? {
        if FixedFold(sites).value && !FixedFold(init).value {
          assert InsertsMul(last);
        }
        if InsertsMul(last) {
          assert FixedFold(sites).value;
        }
      }
    }
  }

  // ---------------------------------------------------------------------
  // Two inputs where the debug loop as written goes wrong.

  const CallocOfUnknowns := Allocs.AllocSite(
    Allocs.Inst(LlvmIr.Call(LlvmIr.Direct("calloc"), [LlvmIr.Opaque(0), LlvmIr.Opaque(1)])), Allocs.Info(Allocs.Calloc, 1, 0))
  const MallocOfEight := Allocs.AllocSite(
    Allocs.Inst(LlvmIr.Call(LlvmIr.Direct("malloc"), [LlvmIr.ConstInt(8)])), Allocs.Info(Allocs.Malloc, 0, -1))
  const StrDupOfUnknown := Allocs.AllocSite(
    Allocs.Inst(LlvmIr.Call(LlvmIr.Direct("strdup"), [LlvmIr.Opaque(0)])), Allocs.Info(Allocs.StrDup, -1, -1))

  /**
   * A `calloc` of two unknown sizes followed by a `malloc(8)`: the first
   * byte size inserts a multiplication, but the second call resets
   * `Changed`, so the pass reports that it changed nothing.
   */
  lemma LastSiteDecides()
    ensures InsertsMul(CallocOfUnknowns)
    ensures DebugFold([CallocOfUnknowns, MallocOfEight]) == Ok(false)
    ensures FixedFold([CallocOfUnknowns, MallocOfEight]) == Ok(true)
  {
    var ops := Allocs.SizeFactors(CallocOfUnknowns);
    assert ops == [LlvmIr.Opaque(0), LlvmIr.Opaque(1)];
    assert !Allocs.AllConst(ops);
    var ops' := Allocs.SizeFactors(MallocOfEight);
    assert ops' == [LlvmIr.ConstInt(8)];
    assert Allocs.AllConst(ops') && Allocs.Product(ops') == 8 by {
      assert ops'[..0] == [];
    }
    assert Allocs.ConstSizeOf(ops') == 8;
    assert Allocs.GetOrInsertSize(MallocOfEight) == (Allocs.SizeInt(8), false);
    assert Allocs.GetOrInsertSize(CallocOfUnknowns) == (Allocs.NewMul(LlvmIr.Opaque(0), LlvmIr.Opaque(1)), true);
    var sites := [CallocOfUnknowns, MallocOfEight];
    assert sites[..1] == [CallocOfUnknowns];
    assert sites[..1][..0] == [];
    assert DebugFold(sites[..1]) == Ok(true);
    assert FixedFold(sites[..1]) == Ok(true);
  }

  /** A `strdup` call trips the assertion of `getOrInsertSize` as soon as debug output is on. */
  lemma StrDupAborts()
    ensures Allocs.TryCreate(StrDupOfUnknown.value.inst) == Some(StrDupOfUnknown)
    ensures DebugFold([StrDupOfUnknown]) == Err(AssertionError)
    ensures FixedFold([StrDupOfUnknown]) == Ok(false)
  {
    assert [StrDupOfUnknown][..0] == [];
  }
}
