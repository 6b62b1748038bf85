/** The IR-builder demo: a module of globals of every kind the demos use
    (integers of four widths, floats, an array, a struct, a union, null
    pointers) and a `main` that returns the value of `i_32`. */
module IrBuilderDemo {
  import opened Wrappers
  import opened Ir
  import opened Builder

  const MainName: string := "main"
  const EntryName: string := "entry"
  const MainProto: Proto := Proto(I32, [], false)

  const I8Name: string := "i_8"
  const I16Name: string := "i_16"
  const I32Name: string := "i_32"
  const I64Name: string := "i_64"
  const UI8Name: string := "ui_8"
  const UI32Name: string := "ui_32"
  const FName: string := "f"
  const DName: string := "d"
  const LdName: string := "ld"
  const ArrName: string := "arr"
  const IpName: string := "i_p"
  const CpName: string := "c_p"
  const PointStruct: string := "struct.point"
  const PointerName: string := "pointer"
  const UnionAb: string := "union.ab"
  const UName: string := "u"

  /** `registerFunctionProto`. */
  method RegisterFunctionProto(s: Session)
    modifies s`protos
    ensures s.protos == old(s.protos)[MainName := MainProto]
  {
    s.RegisterProto(MainName, MainProto);
  }

  /** A new external, DSO-local, non-constant global. */
  function Fresh(ty: Ty, init: Constant): Global { Global(ty, init, false, External, true) }

  /** `emitIntegers`: i_8 = 1, i_16 = 2, i_32 = 3, i_64 = 4, ui_8 = 1 and
      ui_32 = 3, each at its own width (the unsigned ones at the widths of
      their signed counterparts). */
  method EmitIntegers(s: Session)
    requires Redefinable(s.globals, I8Name, I8) && Redefinable(s.globals, I16Name, I16)
    requires Redefinable(s.globals, I32Name, I32) && Redefinable(s.globals, I64Name, I64)
    requires Redefinable(s.globals, UI8Name, I8) && Redefinable(s.globals, UI32Name, I32)
    modifies s`globals
    ensures s.globals == Define(Define(Define(Define(Define(Define(old(s.globals),
      I8, I8Name, IntC(8, 1)), I16, I16Name, IntC(16, 2)), I32, I32Name, IntC(32, 3)),
      I64, I64Name, IntC(64, 4)), I8, UI8Name, IntC(8, 1)), I32, UI32Name, IntC(32, 3))
  {
    var g := s.DefineGlobalVariable(I8, I8Name, IntC(8, 1));
    g := s.DefineGlobalVariable(I16, I16Name, IntC(16, 2));
    g := s.DefineGlobalVariable(I32, I32Name, IntC(32, 3));
    g := s.DefineGlobalVariable(I64, I64Name, IntC(64, 4));
    g := s.DefineGlobalVariable(I8, UI8Name, IntC(8, 1));
    g := s.DefineGlobalVariable(I32, UI32Name, IntC(32, 3));
  }

  /** `emitFloats`: f = 1.0 (float), d = 2.0 (double), ld = 3.0
      (x86_fp80); the literals are recorded, never computed with. */
  method EmitFloats(s: Session)
    requires Redefinable(s.globals, FName, Float) && Redefinable(s.globals, DName, Double)
    requires Redefinable(s.globals, LdName, X86Fp80)
    modifies s`globals
    ensures s.globals == Define(Define(Define(old(s.globals),
      Float, FName, FloatC(Float, 1.0)), Double, DName, FloatC(Double, 2.0)), X86Fp80, LdName, FloatC(X86Fp80, 3.0))
  {
    var g := s.DefineGlobalVariable(Float, FName, FloatC(Float, 1.0));
    g := s.DefineGlobalVariable(Double, DName, FloatC(Double, 2.0));
    g := s.DefineGlobalVariable(X86Fp80, LdName, FloatC(X86Fp80, 3.0));
  }

  /** The initializer of `arr`: the constant array [1, 2, 3, 4] of i32. */
  function ArrInit(): Constant {
    ArrayC(I32, [IntC(32, 1), IntC(32, 2), IntC(32, 3), IntC(32, 4)])
  }

  /** `emitArray`: `int arr[4] = {1, 2, 3, 4}`. */
  method EmitArray(s: Session)
    requires Redefinable(s.globals, ArrName, Array(I32, 4))
    modifies s`globals
    ensures s.globals == Define(old(s.globals), Array(I32, 4), ArrName, ArrInit())
  {
    var num := 4;
    var arrType := Array(I32, num);
    var list := [IntC(32, 1), IntC(32, 2), IntC(32, 3), IntC(32, 4)];
    var c := ArrayC(I32, list);
    var g := s.DefineGlobalVariable(arrType, ArrName, c);
  }

  /** `emitPointer`: the null pointers `i_p` (i32*) and `c_p` (i8*). */
  method EmitPointer(s: Session)
    requires Redefinable(s.globals, IpName, Ptr(I32)) && Redefinable(s.globals, CpName, Ptr(I8))
    modifies s`globals
    ensures s.globals == Define(Define(old(s.globals), Ptr(I32), IpName, NullC(Ptr(I32))), Ptr(I8), CpName, NullC(Ptr(I8)))
  {
    var pointerTy := Ptr(I32);
    var g := s.DefineGlobalVariable(pointerTy, IpName, NullC(pointerTy));
    var charPtrTy := Ptr(I8);
    g := s.DefineGlobalVariable(charPtrTy, CpName, NullC(charPtrTy));
  }

  const PointTy: Ty := Struct(PointStruct, [I32, I32])
  const UnionTy: Ty := Struct(UnionAb, [I32])

  /** `emitStruct`: the type `struct.point {i32, i32}` and the global
      `pointer = {11, 12}`. */
  method EmitStruct(s: Session)
    requires PointStruct !in s.structs && Redefinable(s.globals, PointerName, PointTy)
    modifies s`structs, s`globals
    ensures s.structs == old(s.structs)[PointStruct := [I32, I32]]
    ensures s.globals == Define(old(s.globals), PointTy, PointerName, StructC(PointTy, [IntC(32, 11), IntC(32, 12)]))
  {
    var structTy := s.CreateStructType(PointStruct, [I32, I32]);
    var list := [IntC(32, 11), IntC(32, 12)];
    var c := StructC(structTy, list);
    var g := s.DefineGlobalVariable(structTy, PointerName, c);
  }

  /** `emitUnion`: `union ab { int a; float b; }` as the struct type
      `union.ab {i32}`, and `u = {1}`. */
  method EmitUnion(s: Session)
    requires UnionAb !in s.structs && Redefinable(s.globals, UName, UnionTy)
    modifies s`structs, s`globals
    ensures s.structs == old(s.structs)[UnionAb := [I32]]
    ensures s.globals == Define(old(s.globals), UnionTy, UName, StructC(UnionTy, [IntC(32, 1)]))
  {
    var structTy := s.CreateStructType(UnionAb, [I32]);
    var c := StructC(structTy, [IntC(32, 1)]);
    var g := s.DefineGlobalVariable(structTy, UName, c);
  }

  /** `emitConstString`: the global string "hello" requested as ".str".
      `emitProgram` does not call it. */
  method EmitConstString(s: Session)
    requires s.Positioned()
    modifies s`strings, s`cur, s`nextReg
    ensures s.strings == old(s.strings) + [StringGlobal(".str", "hello")]
    ensures s.cur == old(s.cur) && s.nextReg == old(s.nextReg)
  {
    var v := s.CreateGlobalStringPtr("hello", StringName("str"));
    assert StringName("str") == ".str";
  }

  /** The instruction `emitMainFunctionStatementList` appends: a load of
      `i_32` at its initializer's type. */
  function MainCode(c: Code, n: nat, g: Global): Code {
    Snoc(c, Load(n, TypeOfConst(g.init), GlobalV(I32Name, g.ty)))
  }

  /** `emitMainFunctionStatementList`: the loaded `i_32` is the value to
      return. */
  method EmitMainFunctionStatementList(s: Session) returns (v: Value)
    requires s.Positioned() && I32Name in s.globals
    modifies s`cur, s`nextReg
    ensures s.cur == MainCode(old(s.cur), old(s.nextReg), s.globals[I32Name])
    ensures s.nextReg == old(s.nextReg) + 1 && v == Reg(old(s.nextReg), TypeOfConst(s.globals[I32Name].init))
  {
    v := s.EmitLoadGlobal(I32Name);
  }

  /** The entry block `emitFunctionBody` builds for a function returning
      `ret`. */
  function BodyCode(gs: map<string, Global>, ret: Ty): Code
    requires I32Name in gs
  {
    Snoc(MainCode(Empty, 0, gs[I32Name]), ReturnOf(ret, Reg(0, TypeOfConst(gs[I32Name].init))))
  }

  /** `emitFunctionBody(fn)`: "entry" becomes the function's first block
      and the insertion point before anything is emitted; then the
      statement list and `emitReturn` of its value. */
  method EmitFunctionBody(s: Session)
    requires s.blocks == [] && s.insert == 0 && s.cur == Empty && s.nextReg == 0
    requires s.current in s.functions && I32Name in s.globals
    modifies s`blocks, s`insert, s`cur, s`nextReg
    ensures s.Blocks() == [Draft(EntryName, BodyCode(s.globals, s.functions[s.current].proto.ret))]
  {
    var entry := s.CreateBB(EntryName);
    s.SetInsertPoint(entry);
    var value := EmitMainFunctionStatementList(s);
    s.EmitReturn(s.functions[s.current].proto.ret, value);
  }

  /** `defineFunction(name)`. */
  method DefineFunction(s: Session, name: string)
    requires name in s.functions && s.functions[name].blocks == [] && I32Name in s.globals
    modifies s`current, s`blocks, s`insert, s`cur, s`nextReg, s`functions
    ensures s.functions == old(s.functions)[name := old(s.functions[name]).(blocks :=
      Finish([Draft(EntryName, BodyCode(s.globals, old(s.functions[name].proto.ret)))]))]
  {
    s.BeginFunction(name);
    EmitFunctionBody(s);
    s.EndFunction();
  }

  /** The globals after `emitIntegers` on an empty module. */
  function IntGlobals(): map<string, Global> {
    map[I8Name := Fresh(I8, IntC(8, 1)), I16Name := Fresh(I16, IntC(16, 2)),
        I32Name := Fresh(I32, IntC(32, 3)), I64Name := Fresh(I64, IntC(64, 4)),
        UI8Name := Fresh(I8, IntC(8, 1)), UI32Name := Fresh(I32, IntC(32, 3))]
  }

  /** ... then `emitFloats`. */
  function FloatGlobals(): map<string, Global> {
    IntGlobals()[FName := Fresh(Float, FloatC(Float, 1.0))][DName := Fresh(Double, FloatC(Double, 2.0))]
      [LdName := Fresh(X86Fp80, FloatC(X86Fp80, 3.0))]
  }

  /** ... then `emitArray` and `emitPointer`. */
  function PointerGlobals(): map<string, Global> {
    FloatGlobals()[ArrName := Fresh(Array(I32, 4), ArrInit())]
      [IpName := Fresh(Ptr(I32), NullC(Ptr(I32)))][CpName := Fresh(Ptr(I8), NullC(Ptr(I8)))]
  }

  /** The globals `emitProgram` defines: ... then `emitStruct` and
      `emitUnion`. */
  function IrGlobals(): map<string, Global> {
    PointerGlobals()[PointerName := Fresh(PointTy, StructC(PointTy, [IntC(32, 11), IntC(32, 12)]))]
      [UName := Fresh(UnionTy, StructC(UnionTy, [IntC(32, 1)]))]
  }

  /** Defining a name the module does not have yet adds a fresh global. */
  lemma DefineFresh(gs: map<string, Global>, ty: Ty, name: string, init: Constant)
    requires name !in gs
    ensures Define(gs, ty, name, init) == gs[name := Fresh(ty, init)]
    ensures Redefinable(gs, name, ty)
  {
  }

  /** On an empty module `emitIntegers` defines six fresh globals, and
      none of the names `emitFloats` uses. */
  lemma IntStage()
    ensures Define(Define(Define(Define(Define(Define(map[],
      I8, I8Name, IntC(8, 1)), I16, I16Name, IntC(16, 2)), I32, I32Name, IntC(32, 3)),
      I64, I64Name, IntC(64, 4)), I8, UI8Name, IntC(8, 1)), I32, UI32Name, IntC(32, 3)) == IntGlobals()
    ensures FName !in IntGlobals() && DName !in IntGlobals() && LdName !in IntGlobals()
  {
  }

  lemma FloatStage()
    ensures Define(Define(Define(IntGlobals(),
      Float, FName, FloatC(Float, 1.0)), Double, DName, FloatC(Double, 2.0)), X86Fp80, LdName, FloatC(X86Fp80, 3.0)) == FloatGlobals()
    ensures ArrName !in FloatGlobals() && IpName !in FloatGlobals() && CpName !in FloatGlobals()
  {
  }

  lemma PointerStage()
    ensures Define(Define(Define(FloatGlobals(), Array(I32, 4), ArrName, ArrInit()),
      Ptr(I32), IpName, NullC(Ptr(I32))), Ptr(I8), CpName, NullC(Ptr(I8))) == PointerGlobals()
    ensures PointerName !in PointerGlobals() && UName !in PointerGlobals()
  {
  }

  lemma StructStage()
    ensures Define(Define(PointerGlobals(), PointTy, PointerName, StructC(PointTy, [IntC(32, 11), IntC(32, 12)])),
      UnionTy, UName, StructC(UnionTy, [IntC(32, 1)])) == IrGlobals()
    ensures I32Name in IrGlobals() && IrGlobals()[I32Name] == Fresh(I32, IntC(32, 3))
  {
  }

  /** The body of `main` as printed. */
  function MainListing(): seq<Instr> {
    [Load(0, I32, GlobalV(I32Name, I32)), Ret(Reg(0, I32))]
  }

  function MainFunction(): Function {
    Function(MainProto, [Block(EntryName, MainListing())], External, true)
  }

  function IrProgram(): Program {
    Program(map[MainName := MainFunction()], IrGlobals(), [])
  }

  /** The aggregates of the finished module, by name. */
  lemma IrGlobalsHold()
    ensures ArrName in IrGlobals() && IrGlobals()[ArrName].init == ArrInit()
    ensures PointerName in IrGlobals() && IrGlobals()[PointerName].init == StructC(PointTy, [IntC(32, 11), IntC(32, 12)])
    ensures UName in IrGlobals() && IrGlobals()[UName].init == StructC(UnionTy, [IntC(32, 1)])
  {
  }

  /** Every global of the finished module has its initializer's type,
      the structs and the union included, so each load `emitLoadValue`
      makes reads a global at its own type. */
  lemma IrGlobalsTyped()
    ensures TypedByInit(IrGlobals())
  {
  }

  /** `defineFunction("main")` once `i_32` is defined gives the listed
      body. */
  lemma MainDefinable(gs: map<string, Global>)
    requires I32Name in gs && gs[I32Name] == Fresh(I32, IntC(32, 3))
    ensures Finish([Draft(EntryName, BodyCode(gs, I32))]) == [Block(EntryName, MainListing())]
  {
    var i0, i1 := Load(0, I32, GlobalV(I32Name, I32)), Ret(Reg(0, I32));
    assert BodyCode(gs, I32) == Snoc(Snoc(Empty, i0), i1);
    InstrsSnoc2(Empty, i0, i1);
    assert Instrs(Empty) + [i0, i1] == MainListing();
    assert Finish([Draft(EntryName, BodyCode(gs, I32))]) == [Block(EntryName, Instrs(BodyCode(gs, I32)))] + Finish([]);
  }

  /** The global part of `emitProgram`: integers, floats, the array, the
      pointers, the struct and the union, in that order, on an empty module. */
  method EmitGlobals(s: Session)
    requires s.globals == map[] && s.structs == map[]
    modifies s`globals, s`structs
    ensures s.globals == IrGlobals() && s.structs == map[PointStruct := [I32, I32], UnionAb := [I32]]
  {
    EmitIntegers(s);
    IntStage();
    EmitFloats(s);
    FloatStage();
    EmitArray(s);
    EmitPointer(s);
    PointerStage();
    EmitStruct(s);
    EmitUnion(s);
    StructStage();
  }

  /** `emitProgram` on the module `registerFunctionProto` prepared. */
  method EmitProgram(s: Session)
    requires s.functions == map[] && s.globals == map[] && s.strings == [] && s.structs == map[]
    requires MainName in s.protos && s.protos[MainName] == MainProto
    modifies s`functions, s`globals, s`structs, s`current, s`blocks, s`insert, s`cur, s`nextReg
    ensures s.functions == IrProgram().functions && s.globals == IrGlobals() && s.strings == []
    ensures s.structs == map[PointStruct := [I32, I32], UnionAb := [I32]]
  {
    EmitGlobals(s);
    StructStage();
    var f := s.DeclareFunction(MainName);
    MainDefinable(s.globals);
    DefineFunction(s, MainName);
  }
}
