/**
 * Allocation sites of the `allocs` analysis (`Allocs.h`, `Allocs.cpp`): the
 * kinds of allocation as bit masks, the table of known allocation functions,
 * the site built for a call to one of them or for a global, and the byte size
 * of an allocation computed from its size factors.
 */
module Allocs {

  import opened Wrappers
  import LlvmIr
  import Strs

  // ---------------------------------------------------------------------
  // Allocation kinds: an `unsigned short` of bits.

  type AllocType = bv16

  const Malloc: AllocType := 0x001   // may return null
  const New: AllocType := 0x002      // always allocates
  const Calloc: AllocType := 0x004   // zero-initialises
  const StrDup: AllocType := 0x008
  const Realloc: AllocType := 0x010
  const Free: AllocType := 0x020     // accepts null
  const Delete: AllocType := 0x040   // frees only non-null
  const Alloca: AllocType := 0x080   // stack
  const Global: AllocType := 0x100
  const HeapAlloc: AllocType := Malloc | New | Calloc | StrDup | Realloc
  const AnyAlloc: AllocType := HeapAlloc | Alloca | Global
  const AnyFree: AllocType := Free | Delete

  /** The nine basic kinds. */
  const Basic: seq<AllocType> := [Malloc, New, Calloc, StrDup, Realloc, Free, Delete, Alloca, Global]

  /** `Info.Type & Mask`, read as a `bool`. */
  predicate Has(t: AllocType, mask: AllocType)
  {
    t & mask != 0
  }

  /** The basic kinds are distinct single bits. */
  lemma BasicBits()
    ensures forall i :: 0 <= i < |Basic| ==> Basic[i] != 0 && Basic[i] & (Basic[i] - 1) == 0
    ensures forall i, j :: 0 <= i < j < |Basic| ==> Basic[i] & Basic[j] == 0
  {
  }

  /** A basic kind is an allocation or a free, never both: `AnyAlloc` and `AnyFree` share no bit. */
  lemma AllocOrFree()
    ensures AnyAlloc & AnyFree == 0
    ensures forall i :: 0 <= i < |Basic| ==> Has(Basic[i], AnyAlloc) != Has(Basic[i], AnyFree)
    ensures forall i :: 0 <= i < |Basic| ==> (Has(Basic[i], HeapAlloc) <==> i < 5)
    ensures forall i :: 0 <= i < |Basic| ==> (Has(Basic[i], AnyAlloc) <==> i < 5 || i >= 7)
  {
  }

  // ---------------------------------------------------------------------
  // The table of allocation functions.

  /**
   * `AllocInfo`. Its fields are declared in the order type, `MembArg`,
   * `SizeArg`, so the table's second column is `MembArg`.
   */
  datatype AllocInfo = AllocInfo(allocType: AllocType, membArg: int, sizeArg: int, isWrapper: bool)

  /** `AllocInfo::GlobalInfo`. */
  const GlobalInfo: AllocInfo := AllocInfo(Global, -1, -1, false)

  function Info(t: AllocType, membArg: int, sizeArg: int): AllocInfo
  {
    AllocInfo(t, membArg, sizeArg, false)
  }

  /** `AllocFuncs.find(name)`: the entry of the table for a function name. */
  function AllocFunc(name: string): Option<AllocInfo>
  {
    match name
    case "malloc" => Some(Info(Malloc, 0, -1))
    case "valloc" => Some(Info(Malloc, 0, -1))
    case "pvalloc" => Some(Info(Malloc, 0, -1))
    case "aligned_alloc" => Some(Info(Malloc, 1, -1))
    case "memalign" => Some(Info(Malloc, 1, -1))
    case "calloc" => Some(Info(Calloc, 1, 0))
    case "realloc" => Some(Info(Realloc, 1, -1))
    case "reallocf" => Some(Info(Realloc, 1, -1))
    case "reallocarray" => Some(Info(Realloc, 2, 1))
    case "_Znwj" => Some(Info(New, 0, -1))
    case "_ZnwjRKSt9nothrow_t" => Some(Info(Malloc, 0, -1))
    case "_Znwm" => Some(Info(New, 0, -1))
    case "_ZnwmRKSt9nothrow_t" => Some(Info(Malloc, 0, -1))
    case "_Znaj" => Some(Info(New, 0, -1))
    case "_ZnajRKSt9nothrow_t" => Some(Info(Malloc, 0, -1))
    case "_Znam" => Some(Info(New, 0, -1))
    case "_ZnamRKSt9nothrow_t" => Some(Info(Malloc, 0, -1))
    case "msvc_new_int" => Some(Info(New, 0, -1))
    case "msvc_new_int_nothrow" => Some(Info(Malloc, 0, -1))
    case "msvc_new_longlong" => Some(Info(New, 0, -1))
    case "msvc_new_longlong_nothrow" => Some(Info(Malloc, 0, -1))
    case "msvc_new_array_int" => Some(Info(New, 0, -1))
    case "msvc_new_array_int_nothrow" => Some(Info(Malloc, 0, -1))
    case "msvc_new_array_longlong" => Some(Info(New, 0, -1))
    case "msvc_new_array_longlong_nothrow" => Some(Info(Malloc, 0, -1))
    case "strdup" => Some(Info(StrDup, -1, -1))
    case "strndup" => Some(Info(StrDup, -1, -1))
    case "free" => Some(Info(Free, -1, -1))
    case _ => None
  }

  /** The shape every entry of the table has. */
  predicate EntryShape(name: string, e: AllocInfo)
  {
    // a plain heap allocation or `free`
    && !e.isWrapper && (Has(e.allocType, HeapAlloc) || e.allocType == Free)
    // allocations other than `strdup` name a factor argument
    && (e.membArg >= 0 <==> e.allocType != StrDup && e.allocType != Free)
    // only counted allocations name a second one
    && (e.sizeArg >= 0 <==> e.allocType == Calloc || name == "reallocarray")
    // a reallocation never takes its size from argument 0, the pointer it moves
    && (e.allocType == Realloc ==> e.membArg > 0 && e.sizeArg != 0)
  }

  lemma TableShape(name: string)
    requires AllocFunc(name).Some?
    ensures EntryShape(name, AllocFunc(name).value)
  {
    TableRows(name);
    HeapKinds();
  }

  /** The distinct entries of the table; the one with two size arguments is `reallocarray`'s alone. */
  lemma TableRows(name: string)
    requires AllocFunc(name).Some?
    ensures var e := AllocFunc(name).value;
      e == Info(Malloc, 0, -1) || e == Info(Malloc, 1, -1) || e == Info(Calloc, 1, 0)
      || e == Info(Realloc, 1, -1) || e == Info(Realloc, 2, 1) || e == Info(New, 0, -1)
      || e == Info(StrDup, -1, -1) || e == Info(Free, -1, -1)
    ensures AllocFunc(name).value == Info(Realloc, 2, 1) <==> name == "reallocarray"
  {
  }

  /** The kinds of the table that are heap allocations. */
  lemma HeapKinds()
    ensures Has(Malloc, HeapAlloc) && Has(Calloc, HeapAlloc) && Has(Realloc, HeapAlloc)
         && Has(New, HeapAlloc) && Has(StrDup, HeapAlloc)
  {
  }

  // ---------------------------------------------------------------------
  // Allocation sites.

  /** The value a site is about: a global variable (with its type's store size) or an instruction. */
  datatype SiteValue = GlobalVariable(storeSize: LlvmIr.U64) | Inst(inst: LlvmIr.Instruction)

  /** `AllocSite`: the value and the info it was built with. */
  datatype AllocSite = AllocSite(value: SiteValue, info: AllocInfo)

  /** `AllocSite(GlobalVariable &)`. */
  function GlobalSite(storeSize: LlvmIr.U64): (s: AllocSite)
    ensures IsGlobalAlloc(s) && IsAnyAlloc(s) && !IsHeapAlloc(s) && !IsAnyFree(s)
  {
    AllocSite(GlobalVariable(storeSize), GlobalInfo)
  }

  /**
   * `AllocSite::TryCreate`: a site for a direct call to a named function of
   * the table, carrying that function's entry, and nothing otherwise.
   */
  function TryCreate(i: LlvmIr.Instruction): (r: Option<AllocSite>)
    ensures r.Some? <==> i.Call? && i.callee.Direct? && LlvmIr.HasName(i.callee.name)
                         && AllocFunc(i.callee.name).Some?
    ensures r.Some? ==> r.value == AllocSite(Inst(i), AllocFunc(i.callee.name).value)
  {
    if i.Call? && i.callee.Direct? && LlvmIr.HasName(i.callee.name) then
      match AllocFunc(i.callee.name)
      case None => None
      case Some(info) => Some(AllocSite(Inst(i), info))
    else None
  }

  predicate IsMalloc(s: AllocSite) { Has(s.info.allocType, Malloc) }
  predicate IsCalloc(s: AllocSite) { Has(s.info.allocType, Calloc) }
  predicate IsRealloc(s: AllocSite) { Has(s.info.allocType, Realloc) }
  predicate IsStrDup(s: AllocSite) { Has(s.info.allocType, StrDup) }
  predicate IsNew(s: AllocSite) { Has(s.info.allocType, New) }
  predicate IsFree(s: AllocSite) { Has(s.info.allocType, Free) }
  predicate IsDelete(s: AllocSite) { Has(s.info.allocType, Delete) }
  predicate IsHeapAlloc(s: AllocSite) { Has(s.info.allocType, HeapAlloc) }
  predicate IsStackAlloc(s: AllocSite) { Has(s.info.allocType, Alloca) }
  predicate IsGlobalAlloc(s: AllocSite) { Has(s.info.allocType, Global) }
  predicate IsAnyAlloc(s: AllocSite) { Has(s.info.allocType, AnyAlloc) }
  predicate IsAnyFree(s: AllocSite) { Has(s.info.allocType, AnyFree) }
  predicate IsWrapper(s: AllocSite) { s.info.isWrapper }

  /** The sites the analysis builds: one for a global, or `TryCreate` of an instruction. */
  ghost predicate Built(s: AllocSite)
  {
    (s.value.GlobalVariable? && s == GlobalSite(s.value.storeSize))
    || (s.value.Inst? && TryCreate(s.value.inst) == Some(s))
  }

  /** No site the analysis builds is both an allocation and a free, and every one is one of them. */
  lemma BuiltAllocOrFree(s: AllocSite)
    requires Built(s)
    ensures IsAnyAlloc(s) != IsAnyFree(s)
    ensures IsAnyFree(s) <==> IsFree(s)
    ensures !IsWrapper(s) && !IsStackAlloc(s) && !IsDelete(s)
  {
    if s.value.Inst? {
      TableKinds(s.value.inst.callee.name);
      HeapOrFreeBits(s.info.allocType);
    }
  }

  /** The table holds plain allocations and `free`, each of one basic kind. */
  lemma TableKinds(name: string)
    requires AllocFunc(name).Some?
    ensures var e := AllocFunc(name).value;
      !e.isWrapper
      && (e.allocType == Malloc || e.allocType == New || e.allocType == Calloc
          || e.allocType == StrDup || e.allocType == Realloc || e.allocType == Free)
  {
    TableRows(name);
  }

  /** The bits of the kinds the table uses. */
  lemma HeapOrFreeBits(t: AllocType)
    requires t == Malloc || t == New || t == Calloc || t == StrDup || t == Realloc || t == Free
    ensures Has(t, AnyAlloc) != Has(t, AnyFree)
    ensures Has(t, AnyFree) <==> Has(t, Free)
    ensures !Has(t, Alloca) && !Has(t, Delete)
  {
  }

  /**
   * What `getSizeFactors` and the argument accessors rely on: a global
   * site's value is a global, a stack site's an `alloca`, and any other
   * site's a call passing the arguments its info names.
   */
  predicate Coherent(s: AllocSite)
  {
    if IsGlobalAlloc(s) then s.value.GlobalVariable?
    else if IsStackAlloc(s) then s.value.Inst? && s.value.inst.Alloca?
    else s.value.Inst? && s.value.inst.Call?
         && s.info.sizeArg < |s.value.inst.args| && s.info.membArg < |s.value.inst.args|
  }

  /** `getSizeFactors`: the operands whose product is the allocation's byte size. */
  function SizeFactors(s: AllocSite): (r: seq<LlvmIr.Value>)
    requires IsAnyAlloc(s) && Coherent(s)
    ensures |r| <= 2
    ensures IsGlobalAlloc(s) ==> r == [LlvmIr.ConstInt(s.value.storeSize)]
  {
    if IsGlobalAlloc(s) then [LlvmIr.ConstInt(s.value.storeSize)]
    else if IsStackAlloc(s) then
      var a := s.value.inst;
      [LlvmIr.ConstInt(a.allocSize)] + if LlvmIr.IsArrayAllocation(a.arraySize) then [a.arraySize] else []
    else
      var args := s.value.inst.args;
      (if s.info.sizeArg >= 0 then [args[s.info.sizeArg]] else [])
      + (if s.info.membArg >= 0 then [args[s.info.membArg]] else [])
  }

  /**
   * For a call the table recognises, the factors are arguments of the call:
   * two exactly for `calloc` and `reallocarray`, none exactly for the
   * `strdup` family, and one for every other allocation.
   */
  lemma TableFactors(i: LlvmIr.Instruction)
    requires TryCreate(i).Some? && IsAnyAlloc(TryCreate(i).value) && Coherent(TryCreate(i).value)
    ensures var s := TryCreate(i).value; var r := SizeFactors(s);
      && (|r| == 2 <==> s.info.allocType == Calloc || i.callee.name == "reallocarray")
      && (|r| == 0 <==> s.info.allocType == StrDup)
      && forall k :: 0 <= k < |r| ==> r[k] in i.args
  {
    var s := TryCreate(i).value;
    TableShape(i.callee.name);
    TableKinds(i.callee.name);
    HeapOrFreeBits(s.info.allocType);
  }

  // ---------------------------------------------------------------------
  // Byte sizes.

  const UnknownSize: LlvmIr.U64 := LlvmIr.TwoTo64 - 1

  predicate AllConst(fs: seq<LlvmIr.Value>)
  {
    forall i :: 0 <= i < |fs| ==> fs[i].ConstInt?
  }

  /** The exact product of constant factors. */
  function Product(fs: seq<LlvmIr.Value>): nat
    requires AllConst(fs)
    decreases |fs|
  {
    if |fs| == 0 then 1 else Product(fs[..|fs| - 1]) * fs[|fs| - 1].n
  }

  /** The product `getConstSize` is after: `uint64_t` arithmetic wraps modulo 2^64. */
  function ConstSizeOf(fs: seq<LlvmIr.Value>): (r: LlvmIr.U64)
    ensures !AllConst(fs) ==> r == UnknownSize
    ensures AllConst(fs) ==> r == Product(fs) % LlvmIr.TwoTo64
  {
    if AllConst(fs) then Product(fs) % LlvmIr.TwoTo64 else UnknownSize
  }

  lemma MulBounds(d: int, m: int)
    requires m > 0
    ensures d >= 1 ==> d * m >= m
    ensures d <= -1 ==> d * m <= -m
  {
  }

  /** Euclidean division is unique. */
  lemma ModUnique(n: int, m: int, q: int, r: int)
    requires m > 0 && 0 <= r < m && n == q * m + r
    ensures n % m == r
  {
    var q', r' := n / m, n % m;
    assert n == q' * m + r';
    assert (q - q') * m == r' - r;
    MulBounds(q - q', m);
  }

  /** Reducing before a multiplication does not change the result modulo m. */
  lemma MulMod(a: nat, b: nat, m: nat)
    requires m > 0
    ensures (a % m) * b % m == a * b % m
  {
    var q, r := a / m, a % m;
    var y := r * b;
    var q2, r2 := y / m, y % m;
    assert a * b == (q * b + q2) * m + r2 by {
      assert a == q * m + r;
      assert a * b == (q * m + r) * b == q * b * m + y;
    }
    ModUnique(a * b, m, q * b + q2, r2);
  }

  /** `getConstSize`: multiplies the factors in `uint64_t`, giving up at the first non-constant one. */
  method GetConstSize(s: AllocSite) returns (size: LlvmIr.U64)
    requires IsAnyAlloc(s) && Coherent(s)
    ensures size == ConstSizeOf(SizeFactors(s))
  {
    var ops := SizeFactors(s);
    size := 1;
    for k := 0 to |ops|
      invariant AllConst(ops[..k])
      invariant size == Product(ops[..k]) % LlvmIr.TwoTo64
    {
      if !ops[k].ConstInt? {
        return UnknownSize;
      }
      assert ops[..k + 1][..k] == ops[..k];
      MulMod(Product(ops[..k]), ops[k].n, LlvmIr.TwoTo64);
      size := (size * ops[k].n) % LlvmIr.TwoTo64;
    }
    assert ops[..|ops|] == ops;
  }

  /** The byte size `getOrInsertSize` returns: a constant, one of the factors, or a new multiplication. */
  datatype Size = SizeInt(n: LlvmIr.U64) | Factor(v: LlvmIr.Value) | NewMul(a: LlvmIr.Value, b: LlvmIr.Value) | NullSize

  /**
   * `getOrInsertSize(&Changed)`: the size value and the new `*Changed`. The
   * `strdup` family is refused; the zero-factor case cannot be reached,
   * because no factors make the constant size 1.
   */
  function GetOrInsertSize(s: AllocSite): (r: (Size, bool))
    requires IsAnyAlloc(s) && !IsStrDup(s) && Coherent(s)
    ensures r.1 <==> r.0.NewMul?
    ensures !r.0.NullSize?
  {
    var c := ConstSizeOf(SizeFactors(s));
    if c != UnknownSize then (SizeInt(c), false)
    else
      var ops := SizeFactors(s);
      if |ops| == 0 then (NullSize, false)
      else if |ops| == 1 then (Factor(ops[0]), false)
      else (NewMul(ops[0], ops[1]), true)
  }

  /** The value of an operand at run time: constants are themselves, `env` gives the others. */
  function Eval(env: LlvmIr.Value -> LlvmIr.U64, v: LlvmIr.Value): LlvmIr.U64
  {
    if v.ConstInt? then v.n else env(v)
  }

  /** The run-time value of a size; a multiplication wraps modulo 2^64. */
  function Denote(env: LlvmIr.Value -> LlvmIr.U64, z: Size): int
  {
    match z
    case SizeInt(n) => n
    case Factor(v) => Eval(env, v)
    case NewMul(a, b) => Eval(env, a) * Eval(env, b) % LlvmIr.TwoTo64
    case NullSize => -1
  }

  /** The product of the factors' run-time values, in `uint64_t`. */
  function ProductAt(env: LlvmIr.Value -> LlvmIr.U64, fs: seq<LlvmIr.Value>): LlvmIr.U64
    decreases |fs|
  {
    if |fs| == 0 then 1 else ProductAt(env, fs[..|fs| - 1]) * Eval(env, fs[|fs| - 1]) % LlvmIr.TwoTo64
  }

  lemma {:induction false} ProductAtConst(env: LlvmIr.Value -> LlvmIr.U64, fs: seq<LlvmIr.Value>)
    requires AllConst(fs)
    ensures ProductAt(env, fs) == Product(fs) % LlvmIr.TwoTo64
    decreases |fs|
  {
    if |fs| > 0 {
      var init := fs[..|fs| - 1];
      assert AllConst(init) by {
        forall i | 0 <= i < |init| ensures init[i].ConstInt? { assert init[i] == fs[i]; }
      }
      ProductAtConst(env, init);
      MulMod(Product(init), fs[|fs| - 1].n, LlvmIr.TwoTo64);
    }
  }

  /**
   * Whatever the non-constant operands turn out to be, the value
   * `getOrInsertSize` returns evaluates to the allocation's byte size, the
   * product of its factors in `uint64_t`.
   */
  lemma SizeDenotes(env: LlvmIr.Value -> LlvmIr.U64, s: AllocSite)
    requires IsAnyAlloc(s) && !IsStrDup(s) && Coherent(s)
    ensures Denote(env, GetOrInsertSize(s).0) == ProductAt(env, SizeFactors(s))
  {
    var ops := SizeFactors(s);
    if AllConst(ops) {
      ProductAtConst(env, ops);
    }
    ProductAtShort(env, ops);
  }

  /** The product of one or two factors. */
  lemma ProductAtShort(env: LlvmIr.Value -> LlvmIr.U64, fs: seq<LlvmIr.Value>)
    ensures |fs| == 1 ==> ProductAt(env, fs) == Eval(env, fs[0])
    ensures |fs| == 2 ==> ProductAt(env, fs) == Eval(env, fs[0]) * Eval(env, fs[1]) % LlvmIr.TwoTo64
  {
    if |fs| == 1 {
      assert fs[..0] == [];
    } else if |fs| == 2 {
      var init := fs[..1];
      assert init[..0] == [];
      assert ProductAt(env, init) == Eval(env, fs[0]);
    }
  }

  /**
   * `UnknownSize` is also an ordinary product: a constant size of 2^64 - 1
   * is reported as unknown, and `getOrInsertSize` then falls back to the
   * factor itself.  An illustration on one input, not a general property.
   */
  lemma UnknownSizeIsAProduct()
    ensures ConstSizeOf([LlvmIr.ConstInt(UnknownSize)]) == UnknownSize
  {
    var fs := [LlvmIr.ConstInt(UnknownSize)];
    assert fs[..0] == [];
    assert Product(fs) == 1 * UnknownSize;
  }

  /** `getFreedPointer`: the first argument of the call. */
  function GetFreedPointer(s: AllocSite): (p: LlvmIr.Value)
    requires IsAnyFree(s) && s.value.Inst? && s.value.inst.Call? && |s.value.inst.args| > 0
    ensures p == s.value.inst.args[0]
  {
    s.value.inst.args[0]
  }

  /** `getRellocatedPointer`: the first argument of the call. */
  function GetRellocatedPointer(s: AllocSite): (p: LlvmIr.Value)
    requires IsRealloc(s) && s.value.Inst? && s.value.inst.Call? && |s.value.inst.args| > 0
    ensures p == s.value.inst.args[0]
  {
    s.value.inst.args[0]
  }

  /**
   * For a reallocation found through the table, the pointer it moves is
   * never one of its size factors' argument positions.
   */
  lemma ReallocPointerNotAFactor(s: AllocSite)
    requires s.value.Inst? && TryCreate(s.value.inst) == Some(s) && IsRealloc(s) && Coherent(s)
    ensures s.info.membArg > 0 && s.info.sizeArg != 0
    ensures |s.value.inst.args| > 1
  {
    TableRows(s.value.inst.callee.name);
    ReallocBit(s.info.allocType);
  }

  /** Among the kinds of the table, only `Realloc` has the reallocation bit. */
  lemma ReallocBit(t: AllocType)
    requires t == Malloc || t == New || t == Calloc || t == StrDup || t == Realloc || t == Free
    ensures Has(t, Realloc) <==> t == Realloc
  {
  }
}
