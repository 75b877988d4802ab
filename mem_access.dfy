/**
 * `MemAccess`, `MemRead` and `MemWrite`: what an instruction reads or
 * writes in memory, as a pointer operand, a length operand in bytes, an
 * alignment and a read flag. A default-constructed access has a null
 * instruction and is invalid; its other fields are never initialised, so
 * the getters other than `getInstruction` are only meaningful on a valid one.
 */
module MemAccess {
  import opened Wrappers
  import opened LlvmIr

  datatype Access =
    | Invalid
    | Access(inst: Instruction, pointer: Value, length: Value, alignment: U32, isRead: bool)

  /**
   * `getInt(I, N)`: a constant of the largest legal integer type. `N` is an
   * `unsigned`, so a store size that does not fit in 32 bits keeps only its
   * low 32 bits; the largest legal integer type is taken to be at least 32
   * bits wide.
   */
  function SizeConstant(storeSize: U64): (r: Value)
    ensures r.ConstInt? && r.n < TwoTo32
    ensures storeSize < TwoTo32 ==> r.n == storeSize
  {
    ConstInt(storeSize % TwoTo32)
  }

  // ---------------------------------------------------------------------
  // The typed constructors.

  /** `MemRead(LoadInst&)`. */
  function LoadRead(i: Instruction): Access
    requires i.Load?
  {
    Access(i, i.pointer, SizeConstant(i.storeSize), i.align, true)
  }

  /** `MemRead(MemTransferInst&)`: the raw source. */
  function TransferRead(i: Instruction): Access
    requires i.MemTransfer?
  {
    Access(i, i.source, i.length, i.align, true)
  }

  /** `MemRead(AtomicCmpXchgInst&)` and `MemWrite(AtomicCmpXchgInst&)`, by `isRead`. */
  function CmpXchgAccess(i: Instruction, isRead: bool): Access
    requires i.CmpXchg?
  {
    Access(i, i.pointer, SizeConstant(i.storeSize), i.pointerAlign, isRead)
  }

  /** `MemRead(AtomicRMWInst&)` and `MemWrite(AtomicRMWInst&)`, by `isRead`. */
  function RmwAccess(i: Instruction, isRead: bool): Access
    requires i.AtomicRMW?
  {
    Access(i, i.pointer, SizeConstant(i.storeSize), i.pointerAlign, isRead)
  }

  /** `MemWrite(StoreInst&)`. */
  function StoreWrite(i: Instruction): Access
    requires i.Store?
  {
    Access(i, i.pointer, SizeConstant(i.storeSize), i.align, false)
  }

  /** `MemWrite(MemIntrinsic&)`: the raw destination of a `memcpy`, `memmove` or `memset`. */
  function IntrinsicWrite(i: Instruction): Access
    requires i.MemTransfer? || i.MemSet?
  {
    Access(i, i.dest, i.length, i.align, false)
  }

  /** The instructions `MemRead::Create` accepts. */
  predicate Reads(i: Instruction)
  {
    i.Load? || i.MemTransfer? || i.CmpXchg? || i.AtomicRMW?
  }

  /** The instructions `MemWrite::Create` accepts. */
  predicate Writes(i: Instruction)
  {
    i.Store? || i.MemTransfer? || i.MemSet? || i.CmpXchg? || i.AtomicRMW?
  }

  // ---------------------------------------------------------------------
  // `Create`.

  /** `MemRead::Create`: the first of load, memory transfer, cmpxchg and atomicrmw that matches. */
  function ReadOf(i: Instruction): (r: Access)
    ensures r.Access? <==> Reads(i)
    ensures r.Access? ==> r.inst == i && r.isRead
  {
    if i.Load? then LoadRead(i)
    else if i.MemTransfer? then TransferRead(i)
    else if i.CmpXchg? then CmpXchgAccess(i, true)
    else if i.AtomicRMW? then RmwAccess(i, true)
    else Invalid
  }

  /** `MemWrite::Create`: the first of store, memory intrinsic, cmpxchg and atomicrmw that matches. */
  function WriteOf(i: Instruction): (r: Access)
    ensures r.Access? <==> Writes(i)
    ensures r.Access? ==> r.inst == i && !r.isRead
  {
    if i.Store? then StoreWrite(i)
    else if i.MemTransfer? || i.MemSet? then IntrinsicWrite(i)
    else if i.CmpXchg? then CmpXchgAccess(i, false)
    else if i.AtomicRMW? then RmwAccess(i, false)
    else Invalid
  }

  /** `MemRead(Instruction&)`: starts invalid and assigns the typed access that matches. */
  method NewRead(i: Instruction) returns (r: Access)
    ensures r == ReadOf(i)
  {
    r := Invalid;
    if i.Load? {
      r := LoadRead(i);
    } else if i.MemTransfer? {
      r := TransferRead(i);
    } else if i.CmpXchg? {
      r := CmpXchgAccess(i, true);
    } else if i.AtomicRMW? {
      r := RmwAccess(i, true);
    }
  }

  /** `MemWrite(Instruction&)`. */
  method NewWrite(i: Instruction) returns (r: Access)
    ensures r == WriteOf(i)
  {
    r := Invalid;
    if i.Store? {
      r := StoreWrite(i);
    } else if i.MemTransfer? || i.MemSet? {
      r := IntrinsicWrite(i);
    } else if i.CmpXchg? {
      r := CmpXchgAccess(i, false);
    } else if i.AtomicRMW? {
      r := RmwAccess(i, false);
    }
  }

  // ---------------------------------------------------------------------
  // The accessors.

  /** `getInstruction()`: null for an invalid access. */
  function GetInstruction(a: Access): (r: Option<Instruction>)
    ensures r.Some? <==> a.Access?
    ensures r.Some? ==> r.value == a.inst
  {
    if a.Invalid? then None else Some(a.inst)
  }

  /** `isValid()`, and with it `operator bool`: the instruction is not null. */
  predicate IsValid(a: Access)
  {
    GetInstruction(a).Some?
  }

  /** `isRead()`. */
  predicate IsRead(a: Access)
    requires a.Access?
  {
    a.isRead
  }

  /** `isWrite()`. */
  predicate IsWrite(a: Access)
    requires a.Access?
  {
    !IsRead(a)
  }

  /** `hasConstLength()`: the length is some `Constant`. */
  predicate HasConstLength(a: Access)
    requires a.Access?
  {
    a.length.ConstInt? || a.length.OtherConst?
  }

  /**
   * `getConstLength()`: `cast<ConstantInt>` asserts that the length is an
   * integer constant, whose zero-extended value it returns.
   */
  function GetConstLength(a: Access): (r: Result<U64>)
    requires a.Access?
    ensures r.Ok? <==> a.length.ConstInt?
    ensures r.Ok? ==> HasConstLength(a) && r.value == a.length.n
    ensures r.Err? ==> r.error == AssertionError
  {
    if a.length.ConstInt? then Ok(a.length.n) else Err(AssertionError)
  }

  // ---------------------------------------------------------------------
  // Properties.

  /** A valid access reads or writes, never both; `MemRead` always reads and `MemWrite` always writes. */
  lemma ReadOrWrite(i: Instruction)
    ensures IsValid(ReadOf(i)) <==> Reads(i)
    ensures IsValid(WriteOf(i)) <==> Writes(i)
    ensures IsValid(ReadOf(i)) ==> IsRead(ReadOf(i)) && !IsWrite(ReadOf(i))
    ensures IsValid(WriteOf(i)) ==> IsWrite(WriteOf(i)) && !IsRead(WriteOf(i))
  {
  }

  /** An instruction both reads and writes exactly when it is a memory transfer or atomic. */
  lemma ReadsAndWrites(i: Instruction)
    ensures Reads(i) && Writes(i) <==> i.MemTransfer? || i.CmpXchg? || i.AtomicRMW?
    ensures !Reads(i) && !Writes(i) <==> i.Call? || i.Alloca? || i.OtherInstruction?
  {
  }

  /** An atomic instruction reads and writes the same bytes: its two accesses differ only in the read flag. */
  lemma AtomicSameBytes(i: Instruction)
    requires i.CmpXchg? || i.AtomicRMW?
    ensures WriteOf(i).Access? && ReadOf(i) == WriteOf(i).(isRead := true)
  {
  }

  /** A memory transfer reads its source and writes its destination, with one length and alignment. */
  lemma TransferBothEnds(i: Instruction)
    requires i.MemTransfer?
    ensures ReadOf(i).pointer == i.source && WriteOf(i).pointer == i.dest
    ensures ReadOf(i).length == WriteOf(i).length == i.length
    ensures ReadOf(i).alignment == WriteOf(i).alignment == i.align
  {
  }

  /**
   * Loads, stores and atomics have a constant length, the store size of
   * the accessed type cut to 32 bits; a memory intrinsic has the length
   * operand of the call.
   */
  lemma AccessLength(i: Instruction)
    ensures (i.Load? || i.CmpXchg? || i.AtomicRMW?) ==>
      GetConstLength(ReadOf(i)) == Ok(i.storeSize % TwoTo32)
    ensures (i.Store? || i.CmpXchg? || i.AtomicRMW?) ==>
      GetConstLength(WriteOf(i)) == Ok(i.storeSize % TwoTo32)
    ensures (i.MemTransfer? || i.MemSet?) ==> WriteOf(i).length == i.length
  {
  }

  /**
   * `hasConstLength` accepts every `Constant`, but `getConstLength` only an
   * integer constant: a transfer whose length is another constant passes
   * the first and trips the assertion in the second.
   */
  lemma ConstLengthNotReadable()
    ensures var a := ReadOf(MemTransfer(Opaque(0), Opaque(1), OtherConst(0), 1));
      HasConstLength(a) && GetConstLength(a) == Err(AssertionError)
  {
  }

  /** `hasConstLength` as evidently intended: the length is an integer constant. */
  predicate HasConstIntLength(a: Access)
    requires a.Access?
  {
    a.length.ConstInt?
  }

  /** With the intended test, `getConstLength` succeeds exactly on the accesses that pass it. */
  lemma ConstIntLengthReadable(a: Access)
    requires a.Access?
    ensures HasConstIntLength(a) <==> GetConstLength(a).Ok?
    ensures HasConstIntLength(a) ==> HasConstLength(a)
  {
  }
}
