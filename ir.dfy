/** The small typed IR that the demos build through LLVM's IRBuilder: types,
    constants, module-level symbols (globals and functions), operands,
    instructions, basic blocks and whole programs. Everything here is a value;
    the state that the demos change in place lives in the Session class. */
module Ir {
  import opened Wrappers

  /** LLVM types used by the demos. A named struct carries its body; a
      union is a struct whose single field is the union's storage type. */
  datatype Ty =
    | Void
    | Int(bits: nat)
    | Float
    | Double
    | X86Fp80
    | Ptr(pointee: Ty)
    | Array(elem: Ty, len: nat)
    | Struct(name: string, fields: seq<Ty>)

  const I1: Ty := Int(1)
  const I8: Ty := Int(8)
  const I16: Ty := Int(16)
  const I32: Ty := Int(32)
  const I64: Ty := Int(64)

  /** Types a single load or store can move: integers, floats and pointers. */
  predicate IsScalar(t: Ty) {
    t.Int? || t.Float? || t.Double? || t.X86Fp80? || t.Ptr?
  }

  /** The signed range of an n-bit integer. */
  predicate InSignedRange(bits: nat, v: int) {
    bits > 0 && -(Pow2(bits - 1) as int) <= v < Pow2(bits - 1)
  }

  function Pow2(n: nat): (r: nat)
    ensures r >= 1
  {
    if n == 0 then 1 else 2 * Pow2(n - 1)
  }

  /** Compile-time constants: integer and float literals (float values are
      recorded, never computed with), null pointers, constant arrays and
      constant structs. */
  datatype Constant =
    | IntC(bits: nat, v: int)
    | FloatC(fty: Ty, lit: real)
    | NullC(pty: Ty)
    | ArrayC(elemTy: Ty, elems: seq<Constant>)
    | StructC(sty: Ty, elems: seq<Constant>)

  /** `Constant::getType`: the type of a constant. An array constant's type
      has as many elements as the constant lists. */
  function TypeOfConst(c: Constant): Ty {
    match c
    case IntC(bits, _) => Int(bits)
    case FloatC(fty, _) => fty
    case NullC(pty) => pty
    case ArrayC(elemTy, elems) => Array(elemTy, |elems|)
    case StructC(sty, _) => sty
  }

  datatype Linkage = External | Private

  /** A global variable: its value type, initializer, the constant flag, its
      linkage and the DSO-local flag. */
  datatype Global = Global(ty: Ty, init: Constant, isConstant: bool, linkage: Linkage, dsoLocal: bool)

  /** A global string created by `CreateGlobalString`: the name asked for and
      the content. Each request is a separate global. */
  datatype StringGlobal = StringGlobal(requestedName: string, content: string)

  /** A function prototype: the FunProto record of the demos. */
  datatype Proto = Proto(ret: Ty, params: seq<Ty>, isVarArg: bool)

  /** Operands. A register is the result of an earlier instruction of the
      same function, an argument is a formal parameter, a global operand is the
      address of a global variable, a string operand the address of a global
      string, and a constant GEP the folded form of a `getelementptr` over a
      constant base: `srcTy`, the base, the integer indices and the type the
      indices reach. NoValue is the null `Value*` an emitter returns for
      `void`. */
  datatype Value =
    | Reg(id: nat, ty: Ty)
    | Arg(index: nat, ty: Ty)
    | ConstV(c: Constant)
    | GlobalV(name: string, valueTy: Ty)
    | StrV(index: nat, len: nat)
    | ConstGepV(srcTy: Ty, base: Value, ks: seq<int>, resTy: Ty)
    | NoValue

  /** `Value::getType`. */
  function TypeOf(v: Value): Ty {
    match v
    case Reg(_, ty) => ty
    case Arg(_, ty) => ty
    case ConstV(c) => TypeOfConst(c)
    case GlobalV(_, valueTy) => Ptr(valueTy)
    case StrV(_, len) => Ptr(Array(I8, len))
    case ConstGepV(_, _, _, resTy) => Ptr(resTy)
    case NoValue => Void
  }

  /** `isa<Constant>`: literals and the addresses of globals, global strings
      and constant GEP expressions. */
  predicate IsConstantValue(v: Value) {
    v.ConstV? || v.GlobalV? || v.StrV? || v.ConstGepV?
  }

  /** GEP indices that are all integer constants. */
  predicate IntConstants(idx: seq<Value>) {
    forall i :: 0 <= i < |idx| ==> idx[i].ConstV? && idx[i].c.IntC?
  }

  /** The integers of such indices, in order. */
  function IndexInts(idx: seq<Value>): (ks: seq<int>)
    requires IntConstants(idx)
    ensures |ks| == |idx| && forall i :: 0 <= i < |idx| ==> ks[i] == idx[i].c.v
  {
    if idx == [] then [] else [idx[0].c.v] + IndexInts(idx[1..])
  }

  /** IRBuilder's default `ConstantFolder` turns an in-bounds GEP of a
      constant base with constant indices into a `getelementptr` constant
      expression, and inserts no instruction. */
  predicate GepFolds(base: Value, idx: seq<Value>) {
    IsConstantValue(base) && IntConstants(idx)
  }

  /** The address of the first character of global string `k` of length
      `len`: the constant `getelementptr [len x i8], ptr @str, 0, 0` that
      `CreateGlobalStringPtr` returns, an `i8*`. */
  function FirstCharPtr(k: nat, len: nat): (v: Value)
    ensures TypeOf(v) == Ptr(I8) && IsConstantValue(v)
  {
    ConstGepV(Array(I8, len), StrV(k, len), [0, 0], I8)
  }

  /** `getNonOpaquePointerElementType`, defined on pointer types only. */
  function Pointee(t: Ty): Ty
    requires t.Ptr?
  {
    t.pointee
  }

  /** `GetElementPtrInst::getIndexedType`: the type a 'getelementptr' with
      source type `t` reaches. The first index steps over whole elements and
      keeps the type; each later one selects a struct field (a constant index)
      or an array element. None when an index does not fit. */
  function IndexedTy(t: Ty, idx: seq<Value>): Option<Ty>
    decreases |idx|
  {
    if |idx| <= 1 then Some(t) else Descend(t, idx[1..])
  }

  function Descend(t: Ty, idx: seq<Value>): Option<Ty>
    decreases |idx|
  {
    if idx == [] then Some(t)
    else match t
      case Struct(_, fields) =>
        (match idx[0]
         case ConstV(IntC(_, k)) => if 0 <= k < |fields| then Descend(fields[k], idx[1..]) else None
         case _ => None)
      case Array(elem, _) => Descend(elem, idx[1..])
      case _ => None
  }

  /** Integer predicates the demos emit. */
  datatype IPred = EQ | NE | SGT | SGE | SLT | SLE

  /** Float predicates the demos emit (OEQ only in the corrected comparison). */
  datatype FPred = OEQ | OGT | OGE | OLT | OLE | ONE | UNE

  /** Instructions. `dst` numbers the result register; block targets are
      indices into the function's block list. */
  datatype Instr =
    | Alloca(dst: nat, ty: Ty, name: string)
    | Load(dst: nat, ty: Ty, addr: Value)
    | Store(val: Value, addr: Value)
    | AddNsw(dst: nat, lhs: Value, rhs: Value)
    | ICmp(dst: nat, ipred: IPred, lhs: Value, rhs: Value)
    | FCmp(dst: nat, fpred: FPred, lhs: Value, rhs: Value)
    | Gep(dst: nat, srcTy: Ty, base: Value, indices: seq<Value>)
    | SExt(dst: nat, val: Value, to: Ty)
    | Call(dst: nat, callee: string, args: seq<Value>)
    | Br(target: nat)
    | CondBr(cond: Value, ifTrue: nat, ifFalse: nat)
    | Ret(val: Value)
    | RetVoid

  predicate IsTerminator(i: Instr) {
    i.Br? || i.CondBr? || i.Ret? || i.RetVoid?
  }

  datatype Block = Block(name: string, code: seq<Instr>)

  /** A function: its prototype, its blocks (none means a declaration), its
      linkage and the DSO-local flag. */
  datatype Function = Function(proto: Proto, blocks: seq<Block>, linkage: Linkage, dsoLocal: bool)

  /** The structural check of LLVM's `verifyFunction` that the demos rely on:
      every block is non-empty, ends in a terminator and has no terminator
      before the end, and every branch names an existing block. */
  predicate WellTerminated(blocks: seq<Block>) {
    forall k :: 0 <= k < |blocks| ==> BlockWellTerminated(blocks[k].code, |blocks|)
  }

  predicate BlockWellTerminated(code: seq<Instr>, nBlocks: nat) {
    |code| > 0 && IsTerminator(code[|code| - 1]) &&
    (forall j :: 0 <= j < |code| - 1 ==> !IsTerminator(code[j])) &&
    TargetsIn(code[|code| - 1], nBlocks)
  }

  predicate TargetsIn(i: Instr, nBlocks: nat) {
    match i
    case Br(t) => t < nBlocks
    case CondBr(_, t, f) => t < nBlocks && f < nBlocks
    case _ => true
  }

  /** A finished module as the interpreter sees it. */
  datatype Program = Program(functions: map<string, Function>, globals: map<string, Global>, strings: seq<StringGlobal>)
}
