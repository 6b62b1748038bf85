/** The constants demo: inside `main`, a private constant array, a private
    constant struct and a global string; `main` returns `global_a`. */
module Constants {
  import opened Wrappers
  import opened Ir
  import opened Builder
  import IrBuilderDemo

  const MainName: string := "main"
  const EntryName: string := "entry"
  const MainProto: Proto := Proto(I32, [], false)
  const GlobalA: string := "global_a"
  const IntArray: string := "int_array"
  const PointName: string := "point"
  const PointStruct: string := "struct.point"
  const StringLabel: string := "string"
  const Hello: string := "hello"

  const PointTy: Ty := Struct(PointStruct, [I32, I32])

  /** `registerFunctionProto`. */
  method RegisterFunctionProto(s: Session)
    modifies s`protos
    ensures s.protos == old(s.protos)[MainName := MainProto]
  {
    s.RegisterProto(MainName, MainProto);
  }

  /** `const int arr[] = {1, 2, 3, 4}`: the same constant as the global
      `arr` of the IR-builder demo. */
  function ArrayInit(): Constant { IrBuilderDemo.ArrInit() }

  /** The point constant: {11, 12} (its comment announces {1, 2}). */
  function PointInit(): Constant {
    StructC(PointTy, [IntC(32, 11), IntC(32, 12)])
  }

  /** A mangled constant name never clashes with `global_a`. */
  lemma ConstNameNotPlain(fnName: string, name: string)
    ensures ConstName(fnName, name) != GlobalA
  {
    assert ConstName(fnName, name)[0] == '_' && GlobalA[0] == 'g';
  }

  /** The two constants of one function get different names. */
  lemma ConstNamesDiffer(fnName: string)
    ensures ConstName(fnName, IntArray) != ConstName(fnName, PointName)
  {
    assert |ConstName(fnName, IntArray)| != |ConstName(fnName, PointName)|;
  }

  /** `emitConstArray`: the private constant `__constant.<fn>.int_array`,
      of type [4 x i32]. */
  method EmitConstArray(s: Session)
    requires s.Positioned() && Redefinable(s.globals, ConstName(s.current, IntArray), Array(I32, 4))
    modifies s`globals
    ensures s.globals == DefineConst(old(s.globals), Array(I32, 4), ConstName(s.current, IntArray), ArrayInit())
  {
    var num := 4;
    var arrType := Array(I32, num);
    var list := [IntC(32, 1), IntC(32, 2), IntC(32, 3), IntC(32, 4)];
    var c := ArrayC(I32, list);
    s.EmitConstantOfInit(arrType, IntArray, c);
  }

  /** `emitConstStruct`: the type `struct.point {i32, i32}` and the private
      constant `__constant.<fn>.point`. */
  method EmitConstStruct(s: Session)
    requires s.Positioned() && PointStruct !in s.structs && Redefinable(s.globals, ConstName(s.current, PointName), PointTy)
    modifies s`structs, s`globals
    ensures s.structs == old(s.structs)[PointStruct := [I32, I32]]
    ensures s.globals == DefineConst(old(s.globals), PointTy, ConstName(s.current, PointName), PointInit())
  {
    var structTy := s.CreateStructType(PointStruct, [I32, I32]);
    var list := [IntC(32, 11), IntC(32, 12)];
    var c := StructC(structTy, list);
    s.EmitConstantOfInit(structTy, PointName, c);
  }

  /** `emitConstString`: the global string "hello" requested as ".string". */
  method EmitConstString(s: Session)
    requires s.Positioned()
    modifies s`strings, s`cur, s`nextReg
    ensures s.strings == old(s.strings) + [StringGlobal(".string", Hello)]
    ensures s.cur == old(s.cur) && s.nextReg == old(s.nextReg)
  {
    var v := s.CreateGlobalStringPtr(Hello, StringName(StringLabel));
    assert StringName(StringLabel) == ".string";
  }

  /** The globals the statement list leaves, defined in function `fn`. */
  function ConstGlobals(gs: map<string, Global>, fn: string): map<string, Global> {
    DefineConst(DefineConst(gs, Array(I32, 4), ConstName(fn, IntArray), ArrayInit()),
      PointTy, ConstName(fn, PointName), PointInit())
  }

  /** Defining the two constants leaves `global_a` as it was. */
  lemma ConstGlobalsKeepA(gs: map<string, Global>, fn: string)
    requires GlobalA in gs
    ensures GlobalA in ConstGlobals(gs, fn) && ConstGlobals(gs, fn)[GlobalA] == gs[GlobalA]
  {
    ConstNameNotPlain(fn, IntArray);
    ConstNameNotPlain(fn, PointName);
  }

  /** The load of `global_a` the statement list ends with. */
  function LoadA(n: nat, g: Global): Instr {
    Load(n, TypeOfConst(g.init), GlobalV(GlobalA, g.ty))
  }

  /** `emitMainFunctionStatementList`: the array, the struct and the
      string, then the load of `global_a`, the value to return. */
  method EmitMainFunctionStatementList(s: Session) returns (v: Value)
    requires s.Positioned() && GlobalA in s.globals && PointStruct !in s.structs
    requires Redefinable(s.globals, ConstName(s.current, IntArray), Array(I32, 4))
    requires Redefinable(s.globals, ConstName(s.current, PointName), PointTy)
    modifies s`globals, s`structs, s`strings, s`cur, s`nextReg
    ensures s.globals == ConstGlobals(old(s.globals), s.current)
    ensures s.structs == old(s.structs)[PointStruct := [I32, I32]]
    ensures s.strings == old(s.strings) + [StringGlobal(".string", Hello)]
    ensures s.cur == Snoc(old(s.cur), LoadA(old(s.nextReg), old(s.globals)[GlobalA]))
    ensures s.nextReg == old(s.nextReg) + 1 && v == Reg(old(s.nextReg), TypeOfConst(old(s.globals)[GlobalA].init))
  {
    EmitConstArray(s);
    ConstNameNotPlain(s.current, IntArray);
    ConstNameNotPlain(s.current, PointName);
    ConstNamesDiffer(s.current);
    EmitConstStruct(s);
    EmitConstString(s);
    ConstGlobalsKeepA(old(s.globals), s.current);
    v := s.EmitLoadGlobal(GlobalA);
  }

  /** The entry block `emitFunctionBody` builds for a function returning
      `ret`, in a module whose `global_a` is `g`. */
  function BodyCode(g: Global, ret: Ty): Code {
    Snoc(Snoc(Empty, LoadA(0, g)), ReturnOf(ret, Reg(0, TypeOfConst(g.init))))
  }

  /** `emitFunctionBody(fn)`: "entry", then the statement list and the
      return of its value. */
  method EmitFunctionBody(s: Session)
    requires s.blocks == [] && s.insert == 0 && s.cur == Empty && s.nextReg == 0
    requires s.current in s.functions && GlobalA in s.globals && PointStruct !in s.structs
    requires Redefinable(s.globals, ConstName(s.current, IntArray), Array(I32, 4))
    requires Redefinable(s.globals, ConstName(s.current, PointName), PointTy)
    modifies s`blocks, s`insert, s`cur, s`nextReg, s`globals, s`structs, s`strings
    ensures s.Blocks() == [Draft(EntryName, BodyCode(old(s.globals)[GlobalA], s.functions[s.current].proto.ret))]
    ensures s.globals == ConstGlobals(old(s.globals), s.current)
    ensures s.structs == old(s.structs)[PointStruct := [I32, I32]]
    ensures s.strings == old(s.strings) + [StringGlobal(".string", Hello)]
  {
    var entry := s.CreateBB(EntryName);
    s.SetInsertPoint(entry);
    var value := EmitMainFunctionStatementList(s);
    s.EmitReturn(s.functions[s.current].proto.ret, value);
  }

  /** `defineFunction(name)`. */
  method DefineFunction(s: Session, name: string)
    requires name in s.functions && s.functions[name].blocks == [] && GlobalA in s.globals && PointStruct !in s.structs
    requires Redefinable(s.globals, ConstName(name, IntArray), Array(I32, 4))
    requires Redefinable(s.globals, ConstName(name, PointName), PointTy)
    modifies s`current, s`blocks, s`insert, s`cur, s`nextReg, s`functions, s`globals, s`structs, s`strings
    ensures s.functions == old(s.functions)[name := old(s.functions[name]).(blocks :=
      Finish([Draft(EntryName, BodyCode(old(s.globals)[GlobalA], old(s.functions[name].proto.ret)))]))]
    ensures s.globals == ConstGlobals(old(s.globals), name)
    ensures s.structs == old(s.structs)[PointStruct := [I32, I32]]
    ensures s.strings == old(s.strings) + [StringGlobal(".string", Hello)]
  {
    s.BeginFunction(name);
    EmitFunctionBody(s);
    s.EndFunction();
  }

  const IntArrayConst: string := "__constant.main.int_array"
  const PointConst: string := "__constant.main.point"

  /** The mangled names inside `main`. */
  lemma MainConstNames()
    ensures ConstName(MainName, IntArray) == IntArrayConst && ConstName(MainName, PointName) == PointConst
  {
  }

  const GlobalADef: Global := Global(I32, IntC(32, 1), false, External, true)

  /** The private constant global `emitConstant` creates in a module that
      does not have it. */
  function PrivateConst(init: Constant): Global {
    Global(TypeOfConst(init), init, true, Private, true)
  }

  function ConstantsGlobals(): map<string, Global> {
    map[GlobalA := GlobalADef, IntArrayConst := PrivateConst(ArrayInit()), PointConst := PrivateConst(PointInit())]
  }

  /** `global_a` and both private constants have their initializers'
      types. */
  lemma ConstantsGlobalsTyped()
    ensures TypedByInit(ConstantsGlobals())
  {
  }

  /** The body of `main` as printed. */
  function MainListing(): seq<Instr> {
    [Load(0, I32, GlobalV(GlobalA, I32)), Ret(Reg(0, I32))]
  }

  function MainFunction(): Function {
    Function(MainProto, [Block(EntryName, MainListing())], External, true)
  }

  function ConstantsProgram(): Program {
    Program(map[MainName := MainFunction()], ConstantsGlobals(), [StringGlobal(".string", Hello)])
  }

  /** The globals after `main` is defined in a module holding only
      `global_a`. */
  lemma MainGlobals()
    ensures ConstGlobals(map[GlobalA := GlobalADef], MainName) == ConstantsGlobals()
  {
    MainConstNames();
    ConstNameNotPlain(MainName, IntArray);
    ConstNamesDiffer(MainName);
  }

  /** The listed body of `main`. */
  lemma MainDefinable()
    ensures Finish([Draft(EntryName, BodyCode(GlobalADef, I32))]) == [Block(EntryName, MainListing())]
  {
    var i0, i1 := Load(0, I32, GlobalV(GlobalA, I32)), Ret(Reg(0, I32));
    assert BodyCode(GlobalADef, I32) == Snoc(Snoc(Empty, i0), i1);
    InstrsSnoc2(Empty, i0, i1);
    assert Instrs(Empty) + [i0, i1] == MainListing();
    assert Finish([Draft(EntryName, BodyCode(GlobalADef, I32))]) == [Block(EntryName, Instrs(BodyCode(GlobalADef, I32)))] + Finish([]);
  }

  /** `emitProgram`: `global_a = 1`, then `main` declared and defined. */
  method EmitProgram(s: Session)
    requires s.functions == map[] && s.globals == map[] && s.strings == [] && s.structs == map[]
    requires MainName in s.protos && s.protos[MainName] == MainProto
    modifies s`functions, s`globals, s`structs, s`strings, s`current, s`blocks, s`insert, s`cur, s`nextReg
    ensures s.functions == ConstantsProgram().functions && s.globals == ConstantsProgram().globals
    ensures s.strings == ConstantsProgram().strings && s.structs == map[PointStruct := [I32, I32]]
  {
    var g := s.DefineGlobal(GlobalA, IntC(32, 1));
    assert s.globals == map[GlobalA := GlobalADef];
    var f := s.DeclareFunction(MainName);
    MainConstNames();
    MainGlobals();
    MainDefinable();
    DefineFunction(s, MainName);
  }
}
