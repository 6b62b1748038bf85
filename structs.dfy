/** The struct demo: `main` builds a `struct point` {10, 20} on its stack,
    swaps its fields through `swap_point(struct point *)` and returns the
    new `x`. The same file also has an array swap, `swap_array(int[], int,
    int)`, which its `emitProgram` never defines. */
module Structs {
  import opened Wrappers
  import opened Ir
  import opened Builder
  import Pointers

  const P: Ty := Ptr(I32)
  const PP: Ty := Ptr(P)

  const PointName: string := "struct.point"
  const PointTy: Ty := Struct(PointName, [I32, I32])
  const SwapPointName: string := "swap_point"
  const SwapArrayName: string := "swap_array"
  const ParamP: string := "param_p"
  const ParamArr: string := "param_arr"
  const SwapArrayProto: Proto := Proto(Void, [P, I32, I32], false)
  const SwapPointProto: Proto := Proto(Void, [Ptr(PointTy)], false)

  /** `emitPointType`: the named struct `struct.point` with body {i32, i32}. */
  method EmitPointType(s: Session) returns (t: Ty)
    requires PointName !in s.structs
    modifies s`structs
    ensures s.structs == old(s.structs)[PointName := [I32, I32]] && t == PointTy
  {
    t := s.CreateStructType(PointName, [I32, I32]);
  }

  /** `registerFunctionProto`: six prototypes; `printf` is variadic with
      the one fixed parameter `i8*`, and `swap_point` takes a pointer to
      the struct type it creates. */
  method RegisterFunctionProto(s: Session)
    requires PointName !in s.structs
    modifies s`protos, s`structs
    ensures s.structs == old(s.structs)[PointName := [I32, I32]]
    ensures s.protos == old(s.protos)[Pointers.MainName := Pointers.MainProto][Pointers.SumName := Pointers.SumProto]
      [Pointers.PrintfName := Pointers.PrintfProto][Pointers.SwapPtrName := Pointers.SwapPtrProto]
      [SwapArrayName := SwapArrayProto][SwapPointName := SwapPointProto]
  {
    s.RegisterProto(Pointers.MainName, Pointers.MainProto);
    s.RegisterProto(Pointers.SumName, Pointers.SumProto);
    s.RegisterProto(Pointers.PrintfName, Pointers.PrintfProto);
    s.RegisterProto(Pointers.SwapPtrName, Pointers.SwapPtrProto);
    s.RegisterProto(SwapArrayName, SwapArrayProto);
    var pointTy := EmitPointType(s);
    s.RegisterProto(SwapPointName, Proto(Void, [Ptr(pointTy)], false));
  }

  /** `registerFunctionImpl`: the names the demo has an emitter for. */
  predicate HasImpl(name: string) {
    name == Pointers.MainName || name == Pointers.SumName || name == Pointers.SwapPtrName ||
    name == SwapArrayName || name == SwapPointName
  }

  /** A struct type with at least the two fields the demo uses. */
  predicate TwoFields(t: Ty) {
    t.Struct? && |t.fields| >= 2
  }

  /** The address of field `k` of the struct `t` that `base` points to:
      the GEP of `getStructElementAddr`. */
  function FieldGep(n: nat, t: Ty, base: Value, k: nat): Instr {
    Gep(n, t, base, [I32C(0), I32C(k)])
  }

  /** The instructions `emitPoint` appends, with registers from `n` on:
      a slot for the struct, then `p.x = 10` and `p.y = 20`. */
  function PointCode(c: Code, n: nat, t: Ty): Code
    requires TwoFields(t)
  {
    var pt := Reg(n, Ptr(t));
    Snoc(Snoc(Snoc(Snoc(Snoc(c, Alloca(n, t, ParamP)),
      FieldGep(n + 1, t, pt, 0)), Store(I32C(10), Reg(n + 1, Ptr(t.fields[0])))),
      FieldGep(n + 2, t, pt, 1)), Store(I32C(20), Reg(n + 2, Ptr(t.fields[1]))))
  }

  /** `emitPoint`: `struct point p; p.x = 10; p.y = 20;`, the slot's
      address being the value. */
  method EmitPoint(s: Session) returns (v: Value)
    requires s.Positioned() && PointName in s.structs && TwoFields(s.StructTy(PointName))
    modifies s`cur, s`nextReg
    ensures s.cur == PointCode(old(s.cur), old(s.nextReg), s.StructTy(PointName))
    ensures s.nextReg == old(s.nextReg) + 3 && v == Reg(old(s.nextReg), Ptr(s.StructTy(PointName)))
  {
    var pointTy := s.StructTy(PointName);
    var tmp := s.CreateAlloca(pointTy, ParamP);
    FieldIndexedTy(pointTy, 0);
    var px := s.GetStructElementAddr(0, tmp);
    s.CreateStore(I32C(10), px);
    FieldIndexedTy(pointTy, 1);
    var py := s.GetStructElementAddr(1, tmp);
    s.CreateStore(I32C(20), py);
    v := tmp;
  }

  /** The instructions `emitMainStatementList` appends: the point, the
      call `swap_point(&p)`, and a load of `p.x` at the return type. */
  function MainCode(c: Code, n: nat, t: Ty, ret: Ty): Code
    requires TwoFields(t)
  {
    var pt := Reg(n, Ptr(t));
    Snoc(Snoc(Snoc(PointCode(c, n, t), Call(n + 3, SwapPointName, [pt])),
      FieldGep(n + 4, t, pt, 0)), Load(n + 5, ret, Reg(n + 4, Ptr(t.fields[0]))))
  }

  /** `emitMainStatementList`: `swap_point(&p); return p.x;`. */
  method EmitMainStatementList(s: Session) returns (v: Value)
    requires s.Positioned() && PointName in s.structs && TwoFields(s.StructTy(PointName))
    requires s.current in s.functions
    requires CallOk(s.functions, SwapPointName, [Reg(s.nextReg, Ptr(s.StructTy(PointName)))])
    modifies s`cur, s`nextReg
    ensures s.cur == MainCode(old(s.cur), old(s.nextReg), s.StructTy(PointName), s.functions[s.current].proto.ret)
    ensures s.nextReg == old(s.nextReg) + 6 && v == Reg(old(s.nextReg) + 5, s.functions[s.current].proto.ret)
  {
    var pointAddr := EmitPoint(s);
    var r := s.CreateCall(SwapPointName, [pointAddr]);
    FieldIndexedTy(s.StructTy(PointName), 0);
    var pointX := s.GetStructElementAddr(0, pointAddr);
    v := s.CreateLoad(s.functions[s.current].proto.ret, pointX);
  }

  /** The field's address from a slot holding the struct's address:
      `getStructElementLValue`, with registers from `n` on. */
  function LValueCode(c: Code, n: nat, t: Ty, slot: Value, k: nat): Code {
    Snoc(Snoc(c, Load(n, Ptr(t), slot)), FieldGep(n + 1, t, Reg(n, Ptr(t)), k))
  }

  /** `getStructElementRValue`: the LValue's instructions, then one load at
      the field's type. */
  function RValueCode(c: Code, n: nat, t: Ty, slot: Value, k: nat): Code
    requires t.Struct? && k < |t.fields|
  {
    Snoc(LValueCode(c, n, t, slot, k), Load(n + 2, t.fields[k], Reg(n + 1, Ptr(t.fields[k]))))
  }

  /** The instructions `emitSwapPointStatementList` appends, with registers
      from `n` on, for the argument `a0`: a slot for the pointer and one
      for `temp`, the argument stored, then `temp = p->x; p->x = p->y;
      p->y = temp`. */
  function SwapPointCode(c: Code, n: nat, t: Ty, a0: Value): Code
    requires TwoFields(t)
  {
    var tmpP, temp := Reg(n, Ptr(Ptr(t))), Reg(n + 1, P);
    var f0, f1 := t.fields[0], t.fields[1];
    var c1 := Snoc(Snoc(Snoc(c, Alloca(n, Ptr(t), ParamP)), Alloca(n + 1, I32, Pointers.TempName)), Store(a0, tmpP));
    var c2 := Snoc(RValueCode(c1, n + 2, t, tmpP, 0), Store(Reg(n + 4, f0), temp));
    var c3 := RValueCode(c2, n + 5, t, tmpP, 1);
    var c4 := Snoc(LValueCode(c3, n + 8, t, tmpP, 0), Store(Reg(n + 7, f1), Reg(n + 9, Ptr(f0))));
    Snoc(LValueCode(Snoc(c4, Load(n + 10, I32, temp)), n + 11, t, tmpP, 1), Store(Reg(n + 10, I32), Reg(n + 12, Ptr(f1))))
  }

  /** `emitSwapPointStatementList`. It returns no value. */
  method EmitSwapPointStatementList(s: Session) returns (v: Value)
    requires s.Positioned() && PointName in s.structs && TwoFields(s.StructTy(PointName))
    requires s.current in s.functions && |s.functions[s.current].proto.params| >= 1
    modifies s`cur, s`nextReg
    ensures s.cur == SwapPointCode(old(s.cur), old(s.nextReg), s.StructTy(PointName), s.ArgOf(0))
    ensures s.nextReg == old(s.nextReg) + 13 && v == NoValue
  {
    var ty := s.StructTy(PointName);
    var tmpP := s.CreateAlloca(Ptr(ty), ParamP);
    var temp := s.CreateAlloca(I32, Pointers.TempName);
    var arg := s.ArgOf(0);
    s.CreateStore(arg, tmpP);
    var pxR := s.GetStructElementRValue(tmpP, 0);
    s.CreateStore(pxR, temp);
    var pyR := s.GetStructElementRValue(tmpP, 1);
    var pxL := s.GetStructElementLValue(tmpP, 0);
    s.CreateStore(pyR, pxL);
    var tempR := s.CreateLoad(I32, temp);
    var pyL := s.GetStructElementLValue(tmpP, 1);
    s.CreateStore(tempR, pyL);
    v := NoValue;
  }

  /** `getElementAddr(arr, idx)` on an `int *` slot and an `int` slot,
      with registers from `n` on. */
  function ElemCode(c: Code, n: nat, arr: Value, idx: Value): Code {
    Snoc(Snoc(Snoc(Snoc(c, Load(n, P, arr)), Load(n + 1, I32, idx)), SExt(n + 2, Reg(n + 1, I32), I64)),
      Gep(n + 3, I32, Reg(n, P), [Reg(n + 2, I64)]))
  }

  /** The start of `emitSwapArrayStatementList`, with registers from `n`
      on: four slots (`arr`, `x`, `y`, `temp`) and the arguments `a0`,
      `a1`, `a2` stored in the first three, the third before the second. */
  function SlotsCode(c: Code, n: nat, a0: Value, a1: Value, a2: Value): Code {
    var c1 := Snoc(Snoc(Snoc(Snoc(c, Alloca(n, P, ParamArr)), Alloca(n + 1, I32, Pointers.ParamX)),
      Alloca(n + 2, I32, Pointers.ParamY)), Alloca(n + 3, I32, Pointers.TempName));
    Snoc(Snoc(Snoc(c1, Store(a0, Reg(n, PP))), Store(a2, Reg(n + 2, P))), Store(a1, Reg(n + 1, P)))
  }

  /** `temp = arr[x]`. */
  function SaveXCode(c: Code, n: nat): Code {
    Snoc(Snoc(ElemCode(c, n + 4, Reg(n, PP), Reg(n + 1, P)), Load(n + 8, I32, Reg(n + 7, P))), Store(Reg(n + 8, I32), Reg(n + 3, P)))
  }

  /** `arr[x] = arr[y]`, the address of `arr[x]` computed again. */
  function CopyYCode(c: Code, n: nat): Code {
    var cy := Snoc(ElemCode(c, n + 9, Reg(n, PP), Reg(n + 2, P)), Load(n + 13, I32, Reg(n + 12, P)));
    Snoc(ElemCode(cy, n + 14, Reg(n, PP), Reg(n + 1, P)), Store(Reg(n + 13, I32), Reg(n + 17, P)))
  }

  /** `arr[y] = temp`. */
  function RestoreCode(c: Code, n: nat): Code {
    Snoc(ElemCode(Snoc(c, Load(n + 18, I32, Reg(n + 3, P))), n + 19, Reg(n, PP), Reg(n + 2, P)), Store(Reg(n + 18, I32), Reg(n + 22, P)))
  }

  /** The instructions `emitSwapArrayStatementList` appends, with registers
      from `n` on, for the arguments `a0`, `a1` and `a2`: the slots, then
      `temp = arr[x]; arr[x] = arr[y]; arr[y] = temp`, every element
      address computed anew. */
  function SwapArrayCode(c: Code, n: nat, a0: Value, a1: Value, a2: Value): Code {
    RestoreCode(CopyYCode(SaveXCode(SlotsCode(c, n, a0, a1, a2), n), n), n)
  }

  /** `emitSwapArrayStatementList`. It returns no value. */
  method EmitSwapArrayStatementList(s: Session) returns (v: Value)
    requires s.Positioned()
    requires s.current in s.functions && |s.functions[s.current].proto.params| >= 3
    modifies s`cur, s`nextReg
    ensures s.cur == SwapArrayCode(old(s.cur), old(s.nextReg), s.ArgOf(0), s.ArgOf(1), s.ArgOf(2))
    ensures s.nextReg == old(s.nextReg) + 23 && v == NoValue
  {
    var ty := P;
    var tmpArr := s.CreateAlloca(ty, ParamArr);
    var tmpX := s.CreateAlloca(I32, Pointers.ParamX);
    var tmpY := s.CreateAlloca(I32, Pointers.ParamY);
    var temp := s.CreateAlloca(I32, Pointers.TempName);
    var argArr, argX, argY := s.ArgOf(0), s.ArgOf(1), s.ArgOf(2);
    s.CreateStore(argArr, tmpArr);
    s.CreateStore(argY, tmpY);
    s.CreateStore(argX, tmpX);
    var xAddr := s.GetElementAddr(tmpArr, tmpX);
    var xValue := s.CreateLoad(I32, xAddr);
    s.CreateStore(xValue, temp);
    var yAddr := s.GetElementAddr(tmpArr, tmpY);
    var yValue := s.CreateLoad(I32, yAddr);
    var xAddr1 := s.GetElementAddr(tmpArr, tmpX);
    s.CreateStore(yValue, xAddr1);
    var tempValue := s.CreateLoad(I32, temp);
    var yAddr1 := s.GetElementAddr(tmpArr, tmpY);
    s.CreateStore(tempValue, yAddr1);
    v := NoValue;
  }

  /** What the emitter registered for `name` needs of the module: the
      swap routines return no value, so their return type must be void;
      `swap_point` and `main` use `struct.point`, and `main` calls
      `swap_point` with the struct's address. */
  predicate Emittable(fs: map<string, Function>, gs: map<string, Global>, sts: map<string, seq<Ty>>, name: string) {
    name in fs && HasImpl(name) &&
    var pr := fs[name].proto;
    if name == SwapPointName then
      |pr.params| >= 1 && pr.ret.Void? && PointName in sts && TwoFields(Struct(PointName, sts[PointName]))
    else if name == SwapArrayName then
      |pr.params| >= 3 && pr.ret.Void?
    else if name == Pointers.SwapPtrName then
      |pr.params| >= 2 && pr.ret.Void?
    else if name == Pointers.MainName then
      PointName in sts && TwoFields(Struct(PointName, sts[PointName])) &&
      CallOk(fs, SwapPointName, [Reg(0, Ptr(Struct(PointName, sts[PointName])))])
    else
      |pr.params| >= 2 && Pointers.ResultName in gs &&
      CallOk(fs, Pointers.PrintfName, [Pointers.FormatPtr(0), Reg(2, TypeOfConst(gs[Pointers.ResultName].init))])
  }

  /** The instructions the emitter registered for `name` appends to the
      new entry block, registers numbered from 0. */
  function StatementCode(fs: map<string, Function>, gs: map<string, Global>, sts: map<string, seq<Ty>>, strs: nat, name: string): Code
    requires Emittable(fs, gs, sts, name)
  {
    var pr := fs[name].proto;
    if name == SwapPointName then SwapPointCode(Empty, 0, Struct(PointName, sts[PointName]), Arg(0, pr.params[0]))
    else if name == SwapArrayName then SwapArrayCode(Empty, 0, Arg(0, pr.params[0]), Arg(1, pr.params[1]), Arg(2, pr.params[2]))
    else if name == Pointers.SwapPtrName then Pointers.SwapPtrCode(Empty, 0, Arg(0, pr.params[0]), Arg(1, pr.params[1]))
    else if name == Pointers.MainName then MainCode(Empty, 0, Struct(PointName, sts[PointName]), pr.ret)
    else Pointers.SumCode(Empty, 0, Arg(0, pr.params[0]), Arg(1, pr.params[1]), strs, gs[Pointers.ResultName])
  }

  /** The value that emitter returns: none for the swaps, the loaded
      `p.x` for `main` and the sum for `sum`. */
  function StatementValue(fs: map<string, Function>, name: string): Value
    requires name in fs
  {
    if name == Pointers.MainName then Reg(5, fs[name].proto.ret)
    else if name == Pointers.SumName then Reg(6, I32)
    else NoValue
  }

  /** The entry block `emitFunctionBody(fn, name)` builds: the registered
      emitter's instructions, then the return of its value. */
  function BodyCode(fs: map<string, Function>, gs: map<string, Global>, sts: map<string, seq<Ty>>, strs: nat, name: string): Code
    requires Emittable(fs, gs, sts, name)
  {
    Snoc(StatementCode(fs, gs, sts, strs, name), ReturnOf(fs[name].proto.ret, StatementValue(fs, name)))
  }

  /** `funImplMap[name](fn)`: the emitter registered for `name`, run at the
      start of the function's entry block. */
  method EmitStatementList(s: Session, name: string) returns (v: Value)
    requires s.current == name && s.Positioned() && s.cur == Empty && s.nextReg == 0
    requires Emittable(s.functions, s.globals, s.structs, name)
    modifies s`cur, s`nextReg, s`strings
    ensures s.cur == StatementCode(s.functions, s.globals, s.structs, |old(s.strings)|, name)
    ensures v == StatementValue(s.functions, name)
    ensures s.strings == if name == Pointers.SumName then old(s.strings) + [StringGlobal(".str", Pointers.Format)] else old(s.strings)
  {
    if name == SwapPointName {
      v := EmitSwapPointStatementList(s);
    } else if name == SwapArrayName {
      v := EmitSwapArrayStatementList(s);
    } else if name == Pointers.SwapPtrName {
      v := Pointers.EmitSwapPtrStatementList(s);
    } else if name == Pointers.MainName {
      v := EmitMainStatementList(s);
    } else {
      v := Pointers.EmitSumStatementList(s);
    }
  }

  /** `emitFunctionBody(fn, name)`: an "entry" block as the insertion
      point, the emitter `funImplMap[name]`, and `emitReturn` of its value
      at the function's return type. */
  method EmitFunctionBody(s: Session, name: string)
    requires s.current == name && s.blocks == [] && s.insert == 0 && s.cur == Empty && s.nextReg == 0
    requires Emittable(s.functions, s.globals, s.structs, name)
    modifies s`blocks, s`insert, s`cur, s`nextReg, s`strings
    ensures s.Blocks() == [Draft(Pointers.EntryName, old(BodyCode(s.functions, s.globals, s.structs, |s.strings|, name)))]
    ensures s.strings == if name == Pointers.SumName then old(s.strings) + [StringGlobal(".str", Pointers.Format)] else old(s.strings)
  {
    ghost var fs, gs, sts, strs := s.functions, s.globals, s.structs, |s.strings|;
    var entry := s.CreateBB(Pointers.EntryName);
    s.SetInsertPoint(entry);
    var value := EmitStatementList(s, name);
    assert s.cur == StatementCode(fs, gs, sts, strs, name) && value == StatementValue(fs, name);
    s.EmitReturn(s.functions[s.current].proto.ret, value);
    assert s.cur == BodyCode(fs, gs, sts, strs, name);
  }

  /** `defineFunction(name)`: the declared function gets the body
      `emitFunctionBody` builds. */
  method DefineFunction(s: Session, name: string)
    requires Emittable(s.functions, s.globals, s.structs, name) && s.functions[name].blocks == []
    modifies s`current, s`blocks, s`insert, s`cur, s`nextReg, s`strings, s`functions
    ensures s.functions == old(s.functions)[name := old(s.functions[name]).(blocks :=
      Finish([Draft(Pointers.EntryName, old(BodyCode(s.functions, s.globals, s.structs, |s.strings|, name)))]))]
    ensures s.strings == if name == Pointers.SumName then old(s.strings) + [StringGlobal(".str", Pointers.Format)] else old(s.strings)
  {
    s.BeginFunction(name);
    EmitFunctionBody(s, name);
    s.EndFunction();
  }

  const PT: Ty := Ptr(PointTy)
  const PPT: Ty := Ptr(PT)

  /** A struct field's address from a slot, registers from `n`. */
  function LValueListing(n: nat, slot: nat, k: nat): seq<Instr> {
    [Load(n, PT, Reg(slot, PPT)), FieldGep(n + 1, PointTy, Reg(n, PT), k)]
  }

  /** A struct field's value from a slot, registers from `n`. */
  function RValueListing(n: nat, slot: nat, k: nat): seq<Instr> {
    LValueListing(n, slot, k) + [Load(n + 2, I32, Reg(n + 1, P))]
  }

  /** The body of `swap_point` as printed. */
  function SwapPointListing(): seq<Instr> {
    [Alloca(0, PT, ParamP), Alloca(1, I32, Pointers.TempName), Store(Arg(0, PT), Reg(0, PPT))] +
    RValueListing(2, 0, 0) + [Store(Reg(4, I32), Reg(1, P))] +
    RValueListing(5, 0, 1) +
    LValueListing(8, 0, 0) + [Store(Reg(7, I32), Reg(9, P)), Load(10, I32, Reg(1, P))] +
    LValueListing(11, 0, 1) + [Store(Reg(10, I32), Reg(12, P)), RetVoid]
  }

  /** The body of `main` as printed. */
  function MainListing(): seq<Instr> {
    [ Alloca(0, PointTy, ParamP),
      FieldGep(1, PointTy, Reg(0, PT), 0), Store(I32C(10), Reg(1, P)),
      FieldGep(2, PointTy, Reg(0, PT), 1), Store(I32C(20), Reg(2, P)),
      Call(3, SwapPointName, [Reg(0, PT)]),
      FieldGep(4, PointTy, Reg(0, PT), 0), Load(5, I32, Reg(4, P)),
      Ret(Reg(5, I32)) ]
  }

  /** `arr[k]`'s address from the slots `arr` and `k`, registers from `n`. */
  function ElemListing(n: nat, arr: nat, idx: nat): seq<Instr> {
    [Load(n, P, Reg(arr, PP)), Load(n + 1, I32, Reg(idx, P)), SExt(n + 2, Reg(n + 1, I32), I64), Gep(n + 3, I32, Reg(n, P), [Reg(n + 2, I64)])]
  }

  function SlotsListing(): seq<Instr> {
    [ Alloca(0, P, ParamArr), Alloca(1, I32, Pointers.ParamX), Alloca(2, I32, Pointers.ParamY), Alloca(3, I32, Pointers.TempName),
      Store(Arg(0, P), Reg(0, PP)), Store(Arg(2, I32), Reg(2, P)), Store(Arg(1, I32), Reg(1, P)) ]
  }

  function SaveXListing(): seq<Instr> {
    ElemListing(4, 0, 1) + [Load(8, I32, Reg(7, P)), Store(Reg(8, I32), Reg(3, P))]
  }

  function CopyYListing(): seq<Instr> {
    ElemListing(9, 0, 2) + [Load(13, I32, Reg(12, P))] + ElemListing(14, 0, 1) + [Store(Reg(13, I32), Reg(17, P))]
  }

  function RestoreListing(): seq<Instr> {
    [Load(18, I32, Reg(3, P))] + ElemListing(19, 0, 2) + [Store(Reg(18, I32), Reg(22, P))]
  }

  /** The body of `swap_array` as printed. */
  function SwapArrayListing(): seq<Instr> {
    SlotsListing() + SaveXListing() + CopyYListing() + RestoreListing() + [RetVoid]
  }

  function SwapPointFunction(): Function {
    Function(SwapPointProto, [Block(Pointers.EntryName, SwapPointListing())], External, true)
  }

  function MainFunction(): Function {
    Function(Pointers.MainProto, [Block(Pointers.EntryName, MainListing())], External, true)
  }

  /** `swap_array` as `defineFunction("swap_array")` would define it. */
  function SwapArrayFunction(): Function {
    Function(SwapArrayProto, [Block(Pointers.EntryName, SwapArrayListing())], External, true)
  }

  /** The module `emitProgram` builds: `printf` declared, `swap_point` and
      `main` defined, no globals and no strings. */
  function StructsProgram(): Program {
    Program(
      map[Pointers.PrintfName := Function(Pointers.PrintfProto, [], External, true),
          SwapPointName := SwapPointFunction(),
          Pointers.MainName := MainFunction()],
      map[],
      [])
  }

  lemma LValueListed(c: Code, n: nat, slot: nat, k: nat)
    ensures Instrs(LValueCode(c, n, PointTy, Reg(slot, PPT), k)) == Instrs(c) + LValueListing(n, slot, k)
  {
    InstrsSnoc2(c, Load(n, PT, Reg(slot, PPT)), FieldGep(n + 1, PointTy, Reg(n, PT), k));
  }

  lemma RValueListed(c: Code, n: nat, slot: nat, k: nat)
    requires k < 2
    ensures Instrs(RValueCode(c, n, PointTy, Reg(slot, PPT), k)) == Instrs(c) + RValueListing(n, slot, k)
  {
    LValueListed(c, n, slot, k);
  }

  /** The first two statements of swap_point's body: slots, then `temp = p->x`. */
  function SwapPointFront(): Code {
    var c1 := Snoc(Snoc(Snoc(Empty, Alloca(0, PT, ParamP)), Alloca(1, I32, Pointers.TempName)), Store(Arg(0, PT), Reg(0, PPT)));
    Snoc(RValueCode(c1, 2, PointTy, Reg(0, PPT), 0), Store(Reg(4, I32), Reg(1, P)))
  }

  lemma SwapPointFrontListed()
    ensures Instrs(SwapPointFront()) ==
      [Alloca(0, PT, ParamP), Alloca(1, I32, Pointers.TempName), Store(Arg(0, PT), Reg(0, PPT))] +
      RValueListing(2, 0, 0) + [Store(Reg(4, I32), Reg(1, P))]
  {
    var c1 := Snoc(Snoc(Snoc(Empty, Alloca(0, PT, ParamP)), Alloca(1, I32, Pointers.TempName)), Store(Arg(0, PT), Reg(0, PPT)));
    InstrsSnoc3(Empty, Alloca(0, PT, ParamP), Alloca(1, I32, Pointers.TempName), Store(Arg(0, PT), Reg(0, PPT)));
    RValueListed(c1, 2, 0, 0);
  }

  /** The rest of swap_point's body: `p->x = p->y; p->y = temp`. */
  lemma SwapPointBackListed(c: Code)
    ensures Instrs(Snoc(Snoc(LValueCode(Snoc(Snoc(LValueCode(RValueCode(c, 5, PointTy, Reg(0, PPT), 1), 8, PointTy, Reg(0, PPT), 0),
      Store(Reg(7, I32), Reg(9, P))), Load(10, I32, Reg(1, P))), 11, PointTy, Reg(0, PPT), 1), Store(Reg(10, I32), Reg(12, P))), RetVoid)) ==
      Instrs(c) + RValueListing(5, 0, 1) + LValueListing(8, 0, 0) + [Store(Reg(7, I32), Reg(9, P)), Load(10, I32, Reg(1, P))] +
      LValueListing(11, 0, 1) + [Store(Reg(10, I32), Reg(12, P)), RetVoid]
  {
    var c3 := RValueCode(c, 5, PointTy, Reg(0, PPT), 1);
    var l1 := LValueCode(c3, 8, PointTy, Reg(0, PPT), 0);
    var c5 := Snoc(Snoc(l1, Store(Reg(7, I32), Reg(9, P))), Load(10, I32, Reg(1, P)));
    var l2 := LValueCode(c5, 11, PointTy, Reg(0, PPT), 1);
    RValueListed(c, 5, 0, 1);
    LValueListed(c3, 8, 0, 0);
    InstrsSnoc2(l1, Store(Reg(7, I32), Reg(9, P)), Load(10, I32, Reg(1, P)));
    LValueListed(c5, 11, 0, 1);
    InstrsSnoc2(l2, Store(Reg(10, I32), Reg(12, P)), RetVoid);
  }

  /** The swap_point body, piece by piece. */
  lemma SwapPointListed()
    ensures Instrs(Snoc(SwapPointCode(Empty, 0, PointTy, Arg(0, PT)), RetVoid)) == SwapPointListing()
  {
    var tmpP := Reg(0, PPT);
    var c2 := SwapPointFront();
    assert SwapPointCode(Empty, 0, PointTy, Arg(0, PT)) ==
      Snoc(LValueCode(Snoc(Snoc(LValueCode(RValueCode(c2, 5, PointTy, tmpP, 1), 8, PointTy, tmpP, 0),
        Store(Reg(7, I32), Reg(9, P))), Load(10, I32, Reg(1, P))), 11, PointTy, tmpP, 1), Store(Reg(10, I32), Reg(12, P)));
    SwapPointFrontListed();
    SwapPointBackListed(c2);
  }

  /** The main body, instruction by instruction. */
  lemma MainListed()
    ensures Instrs(Snoc(MainCode(Empty, 0, PointTy, I32), Ret(Reg(5, I32)))) == MainListing()
  {
    var ls := MainListing();
    var c1 := Snoc(Snoc(Snoc(Snoc(Empty, ls[0]), ls[1]), ls[2]), ls[3]);
    var c2 := Snoc(Snoc(Snoc(Snoc(c1, ls[4]), ls[5]), ls[6]), ls[7]);
    assert Snoc(MainCode(Empty, 0, PointTy, I32), Ret(Reg(5, I32))) == Snoc(c2, ls[8]);
    InstrsSnoc4(Empty, ls[0], ls[1], ls[2], ls[3]);
    InstrsSnoc4(c1, ls[4], ls[5], ls[6], ls[7]);
    assert Instrs(Snoc(c2, ls[8])) == Instrs(c2) + [ls[8]];
  }

  /** An element address's instructions, listed. */
  lemma ElemListed(c: Code, n: nat, arr: nat, idx: nat)
    ensures Instrs(ElemCode(c, n, Reg(arr, PP), Reg(idx, P))) == Instrs(c) + ElemListing(n, arr, idx)
  {
    var e := ElemListing(n, arr, idx);
    InstrsSnoc4(c, e[0], e[1], e[2], e[3]);
  }

  lemma SlotsListed()
    ensures Instrs(SlotsCode(Empty, 0, Arg(0, P), Arg(1, I32), Arg(2, I32))) == SlotsListing()
  {
    var ls := SlotsListing();
    var c1 := Snoc(Snoc(Snoc(Snoc(Empty, ls[0]), ls[1]), ls[2]), ls[3]);
    InstrsSnoc4(Empty, ls[0], ls[1], ls[2], ls[3]);
    InstrsSnoc3(c1, ls[4], ls[5], ls[6]);
  }

  lemma SaveXListed(c: Code)
    ensures Instrs(SaveXCode(c, 0)) == Instrs(c) + SaveXListing()
  {
    var e := ElemCode(c, 4, Reg(0, PP), Reg(1, P));
    ElemListed(c, 4, 0, 1);
    InstrsSnoc2(e, Load(8, I32, Reg(7, P)), Store(Reg(8, I32), Reg(3, P)));
  }

  lemma ElemThenListed(c: Code, n: nat, arr: nat, idx: nat, t: Instr)
    ensures Instrs(Snoc(ElemCode(c, n, Reg(arr, PP), Reg(idx, P)), t)) == Instrs(c) + ElemListing(n, arr, idx) + [t]
  {
    ElemListed(c, n, arr, idx);
  }

  lemma CopyYListed(c: Code)
    ensures Instrs(CopyYCode(c, 0)) == Instrs(c) + CopyYListing()
  {
    var cy := Snoc(ElemCode(c, 9, Reg(0, PP), Reg(2, P)), Load(13, I32, Reg(12, P)));
    ElemThenListed(c, 9, 0, 2, Load(13, I32, Reg(12, P)));
    ElemThenListed(cy, 14, 0, 1, Store(Reg(13, I32), Reg(17, P)));
  }

  lemma RestoreListed(c: Code)
    ensures Instrs(RestoreCode(c, 0)) == Instrs(c) + RestoreListing()
  {
    var cl := Snoc(c, Load(18, I32, Reg(3, P)));
    assert Instrs(cl) == Instrs(c) + [Load(18, I32, Reg(3, P))];
    ElemListed(cl, 19, 0, 2);
  }

  /** The swap_array body, piece by piece. */
  lemma SwapArrayListed()
    ensures Instrs(Snoc(SwapArrayCode(Empty, 0, Arg(0, P), Arg(1, I32), Arg(2, I32)), RetVoid)) == SwapArrayListing()
  {
    var c1 := SlotsCode(Empty, 0, Arg(0, P), Arg(1, I32), Arg(2, I32));
    var c2 := SaveXCode(c1, 0);
    var c3 := CopyYCode(c2, 0);
    SlotsListed();
    SaveXListed(c1);
    CopyYListed(c2);
    RestoreListed(c3);
  }

  /** The struct types `registerFunctionProto` leaves in a fresh context. */
  function PointStructs(): map<string, seq<Ty>> { map[PointName := [I32, I32]] }

  /** `swap_point` is not yet declared when `printf` is, and
      `defineFunction("swap_point")` applies to its declaration and gives
      the listed body. */
  lemma SwapPointDefinable(fs: map<string, Function>, n: nat)
    requires fs == Pointers.PrintfDeclared()
    ensures SwapPointName !in fs
    ensures var decl := Function(SwapPointProto, [], External, true);
      Emittable(fs[SwapPointName := decl], map[], PointStructs(), SwapPointName) &&
      decl.(blocks := Finish([Draft(Pointers.EntryName, BodyCode(fs[SwapPointName := decl], map[], PointStructs(), n, SwapPointName))])) == SwapPointFunction()
  {
    var fs' := fs[SwapPointName := Function(SwapPointProto, [], External, true)];
    var body := BodyCode(fs', map[], PointStructs(), n, SwapPointName);
    assert body == Snoc(SwapPointCode(Empty, 0, PointTy, Arg(0, PT)), RetVoid);
    SwapPointListed();
    assert Finish([Draft(Pointers.EntryName, body)]) == [Block(Pointers.EntryName, SwapPointListing())];
  }

  /** Once `swap_point` is defined, `main` is not yet declared, and
      `defineFunction("main")` applies to its declaration and completes the
      module's functions. */
  lemma MainDefinable(fs: map<string, Function>, n: nat)
    requires fs == Pointers.PrintfDeclared()[SwapPointName := SwapPointFunction()]
    ensures Pointers.MainName !in fs
    ensures var decl := Function(Pointers.MainProto, [], External, true);
      Emittable(fs[Pointers.MainName := decl], map[], PointStructs(), Pointers.MainName) &&
      fs[Pointers.MainName := decl.(blocks := Finish([Draft(Pointers.EntryName, BodyCode(fs[Pointers.MainName := decl], map[], PointStructs(), n, Pointers.MainName))]))] ==
      StructsProgram().functions
  {
    var fs' := fs[Pointers.MainName := Function(Pointers.MainProto, [], External, true)];
    assert ArgsMatch([Reg(0, PT)], [PT], false);
    var body := BodyCode(fs', map[], PointStructs(), n, Pointers.MainName);
    assert body == Snoc(MainCode(Empty, 0, PointTy, I32), Ret(Reg(5, I32)));
    MainListed();
    assert Finish([Draft(Pointers.EntryName, body)]) == [Block(Pointers.EntryName, MainListing())];
  }

  /** In any module where `swap_array` is declared with its registered
      prototype and has no body, `defineFunction("swap_array")` would give
      the listed body. */
  lemma SwapArrayDefinable(fs: map<string, Function>, gs: map<string, Global>, sts: map<string, seq<Ty>>, n: nat)
    requires SwapArrayName in fs && fs[SwapArrayName] == Function(SwapArrayProto, [], External, true)
    ensures Emittable(fs, gs, sts, SwapArrayName)
    ensures fs[SwapArrayName].(blocks := Finish([Draft(Pointers.EntryName, BodyCode(fs, gs, sts, n, SwapArrayName))])) == SwapArrayFunction()
  {
    var body := BodyCode(fs, gs, sts, n, SwapArrayName);
    assert body == Snoc(SwapArrayCode(Empty, 0, Arg(0, P), Arg(1, I32), Arg(2, I32)), RetVoid);
    SwapArrayListed();
    assert Finish([Draft(Pointers.EntryName, body)]) == [Block(Pointers.EntryName, SwapArrayListing())];
  }

  /** `declareFunction("swap_point")` and `defineFunction("swap_point")`
      once `printf` is declared. */
  method DefineSwapPoint(s: Session)
    requires s.functions == Pointers.PrintfDeclared() && s.globals == map[] && s.structs == PointStructs()
    requires SwapPointName in s.protos && s.protos[SwapPointName] == SwapPointProto
    modifies s`current, s`blocks, s`insert, s`cur, s`nextReg, s`strings, s`functions
    ensures s.functions == Pointers.PrintfDeclared()[SwapPointName := SwapPointFunction()] && s.strings == old(s.strings)
  {
    SwapPointDefinable(s.functions, |s.strings|);
    var f := s.DeclareFunction(SwapPointName);
    DefineFunction(s, SwapPointName);
  }

  /** `declareFunction("main")` and `defineFunction("main")` once
      `swap_point` is defined. */
  method DefineMain(s: Session)
    requires s.functions == Pointers.PrintfDeclared()[SwapPointName := SwapPointFunction()] && s.globals == map[]
    requires s.structs == PointStructs()
    requires Pointers.MainName in s.protos && s.protos[Pointers.MainName] == Pointers.MainProto
    modifies s`current, s`blocks, s`insert, s`cur, s`nextReg, s`strings, s`functions
    ensures s.functions == StructsProgram().functions && s.strings == old(s.strings)
  {
    MainDefinable(s.functions, |s.strings|);
    var f := s.DeclareFunction(Pointers.MainName);
    DefineFunction(s, Pointers.MainName);
  }

  /** `emitProgram`, in the context `registerFunctionProto` prepared:
      `printf` declared without a body, then `swap_point` and `main`
      declared and defined; no globals are defined. */
  method EmitProgram(s: Session)
    requires s.functions == map[] && s.globals == map[] && s.strings == [] && s.structs == PointStructs()
    requires Pointers.PrintfName in s.protos && s.protos[Pointers.PrintfName] == Pointers.PrintfProto
    requires SwapPointName in s.protos && s.protos[SwapPointName] == SwapPointProto
    requires Pointers.MainName in s.protos && s.protos[Pointers.MainName] == Pointers.MainProto
    modifies s`functions, s`strings, s`current, s`blocks, s`insert, s`cur, s`nextReg
    ensures s.functions == StructsProgram().functions && s.globals == map[] && s.strings == []
  {
    var f := s.DeclareFunction(Pointers.PrintfName);
    assert s.functions == Pointers.PrintfDeclared();
    DefineSwapPoint(s);
    DefineMain(s);
  }

  /** No instruction of `code` is a terminator. */
  predicate Straight(code: seq<Instr>) {
    forall j :: 0 <= j < |code| ==> !IsTerminator(code[j])
  }

  lemma StraightConcat(a: seq<Instr>, b: seq<Instr>)
    requires Straight(a) && Straight(b)
    ensures Straight(a + b)
  {
    forall j | 0 <= j < |a + b|
      ensures !IsTerminator((a + b)[j])
    {
      if j >= |a| {
        assert (a + b)[j] == b[j - |a|];
      }
    }
  }

  /** A straight run closed by one terminator with no branch target is a
      well-terminated block. */
  lemma ClosedBlock(code: seq<Instr>, t: Instr)
    requires Straight(code) && IsTerminator(t) && !t.Br? && !t.CondBr?
    ensures BlockWellTerminated(code + [t], 1)
  {
    assert forall j :: 0 <= j < |code| ==> (code + [t])[j] == code[j];
  }

  lemma SwapPointStraight()
    ensures Straight(SwapPointListing()[..17])
  {
    var a := [Alloca(0, PT, ParamP), Alloca(1, I32, Pointers.TempName), Store(Arg(0, PT), Reg(0, PPT))] + RValueListing(2, 0, 0);
    var b := [Store(Reg(4, I32), Reg(1, P))] + RValueListing(5, 0, 1) + LValueListing(8, 0, 0);
    var c := [Store(Reg(7, I32), Reg(9, P)), Load(10, I32, Reg(1, P))] + LValueListing(11, 0, 1) + [Store(Reg(10, I32), Reg(12, P))];
    assert SwapPointListing()[..17] == a + b + c;
    assert Straight(a) && Straight(b) && Straight(c);
    StraightConcat(a, b);
    StraightConcat(a + b, c);
  }

  /** `swap_point`'s one block ends in its only terminator, `ret void`:
      what `verifyFunction` checks of the block structure. */
  lemma SwapPointWellTerminated()
    ensures WellTerminated(SwapPointFunction().blocks)
  {
    SwapPointStraight();
    assert SwapPointListing() == SwapPointListing()[..17] + [RetVoid];
    ClosedBlock(SwapPointListing()[..17], RetVoid);
    assert SwapPointFunction().blocks == [Block(Pointers.EntryName, SwapPointListing())];
  }

  /** `main`'s one block ends in its only terminator, `ret`. */
  lemma MainWellTerminated()
    ensures WellTerminated(MainFunction().blocks)
  {
    var code := MainListing()[..8];
    assert Straight(code);
    assert MainListing() == code + [Ret(Reg(5, I32))];
    ClosedBlock(code, Ret(Reg(5, I32)));
    assert MainFunction().blocks == [Block(Pointers.EntryName, MainListing())];
  }

  lemma ElemStraight(n: nat, arr: nat, idx: nat)
    ensures Straight(ElemListing(n, arr, idx))
  {}

  lemma SwapArrayStraight()
    ensures Straight(SlotsListing() + SaveXListing() + CopyYListing() + RestoreListing())
  {
    ElemStraight(4, 0, 1);
    ElemStraight(9, 0, 2);
    ElemStraight(14, 0, 1);
    ElemStraight(19, 0, 2);
    StraightConcat(ElemListing(4, 0, 1), [Load(8, I32, Reg(7, P)), Store(Reg(8, I32), Reg(3, P))]);
    StraightConcat(ElemListing(9, 0, 2), [Load(13, I32, Reg(12, P))]);
    StraightConcat(ElemListing(9, 0, 2) + [Load(13, I32, Reg(12, P))], ElemListing(14, 0, 1));
    StraightConcat(ElemListing(9, 0, 2) + [Load(13, I32, Reg(12, P))] + ElemListing(14, 0, 1), [Store(Reg(13, I32), Reg(17, P))]);
    StraightConcat([Load(18, I32, Reg(3, P))], ElemListing(19, 0, 2));
    StraightConcat([Load(18, I32, Reg(3, P))] + ElemListing(19, 0, 2), [Store(Reg(18, I32), Reg(22, P))]);
    StraightConcat(SlotsListing(), SaveXListing());
    StraightConcat(SlotsListing() + SaveXListing(), CopyYListing());
    StraightConcat(SlotsListing() + SaveXListing() + CopyYListing(), RestoreListing());
  }

  /** `swap_array`'s one block ends in its only terminator, `ret void`. */
  lemma SwapArrayWellTerminated()
    ensures WellTerminated(SwapArrayFunction().blocks)
  {
    SwapArrayStraight();
    ClosedBlock(SlotsListing() + SaveXListing() + CopyYListing() + RestoreListing(), RetVoid);
    assert SwapArrayFunction().blocks == [Block(Pointers.EntryName, SwapArrayListing())];
  }
}
