/**
 * The small part of LLVM's IR that the pass helpers look at. Operands are
 * values that are either an integer constant (its zero-extended value), some
 * other constant, or anything else; an instruction is one of the kinds the
 * helpers dispatch on. Type sizes, alignments and function types, which LLVM
 * computes from a `DataLayout` or a `Type`, are carried as plain numbers.
 */
module LlvmIr {

  const TwoTo32: int := 0x1_0000_0000
  const TwoTo64: int := 0x1_0000_0000_0000_0000

  /** `unsigned`, 32 bits wide. */
  type U32 = x: int | 0 <= x < TwoTo32

  /** `uint64_t`. */
  type U64 = x: int | 0 <= x < TwoTo64

  /** An operand: a `ConstantInt` with its `getZExtValue()`, another `Constant`, or a non-constant value. */
  datatype Value = ConstInt(n: U64) | OtherConst(id: nat) | Opaque(id: nat)

  /** The called operand of a call: `getCalledFunction()` is null for an indirect call. */
  datatype Callee = Direct(name: string) | Indirect

  /**
   * The instruction kinds the helpers tell apart. A `MemTransfer` is a
   * `llvm.memcpy`/`llvm.memmove` and a `MemSet` a `llvm.memset`; both are
   * `MemIntrinsic`s. `storeSize` is the store size of the accessed type.
   */
  datatype Instruction =
    | Call(callee: Callee, args: seq<Value>)
    | Alloca(allocSize: U64, arraySize: Value)
    | Load(pointer: Value, storeSize: U64, align: U32)
    | Store(pointer: Value, storeSize: U64, align: U32)
    | MemTransfer(dest: Value, source: Value, length: Value, align: U32)
    | MemSet(dest: Value, length: Value, align: U32)
    | CmpXchg(pointer: Value, storeSize: U64, pointerAlign: U32)
    | AtomicRMW(pointer: Value, storeSize: U64, pointerAlign: U32)
    | OtherInstruction

  /** `V->hasName()`: LLVM's empty name means "unnamed". */
  predicate HasName(name: string)
  {
    |name| > 0
  }

  /** `AllocaInst::isArrayAllocation()`: the element count is not the constant 1. */
  predicate IsArrayAllocation(arraySize: Value)
  {
    arraySize != ConstInt(1)
  }
}
