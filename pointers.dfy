/** The pointer demo: `main` swaps the globals `start` and `end` through
    `swap_ptr(int *, int *)` and returns the new `start`. */
module Pointers {
  import opened Wrappers
  import opened Ir
  import opened Builder

  const P: Ty := Ptr(I32)
  const PP: Ty := Ptr(P)

  const SwapPtrName: string := "swap_ptr"
  const MainName: string := "main"
  const PrintfName: string := "printf"
  const SumName: string := "sum"
  const StartName: string := "start"
  const EndName: string := "end"
  const ResultName: string := "result"
  const EntryName: string := "entry"
  const ParamX: string := "param_x"
  const ParamY: string := "param_y"
  const TempName: string := "temp"
  const MainProto: Proto := Proto(I32, [], false)
  const SumProto: Proto := Proto(I32, [I32, I32], false)
  const PrintfProto: Proto := Proto(I32, [Ptr(I8)], true)
  const SwapPtrProto: Proto := Proto(Void, [P, P], false)

  /** `registerFunctionProto`. */
  method RegisterFunctionProto(s: Session)
    modifies s`protos
    ensures s.protos == old(s.protos)[MainName := MainProto][SumName := SumProto][PrintfName := PrintfProto][SwapPtrName := SwapPtrProto]
  {
    s.RegisterProto(MainName, MainProto);
    s.RegisterProto(SumName, SumProto);
    s.RegisterProto(PrintfName, PrintfProto);
    s.RegisterProto(SwapPtrName, SwapPtrProto);
  }

  /** `registerFunctionImpl`: the names the demo has an emitter for. */
  predicate HasImpl(name: string) {
    name == MainName || name == SumName || name == SwapPtrName
  }

  /** A DSO-local i32 global defined through `defineGlobalVariable(name, init)`. */
  function IntGlobal(v: int): Global { Global(I32, IntC(32, v), false, External, true) }

  /** `emitIntegers`: start = 1, end = 10, result = 0. */
  method EmitIntegers(s: Session)
    requires Redefinable(s.globals, StartName, I32) && Redefinable(s.globals, EndName, I32) && Redefinable(s.globals, ResultName, I32)
    modifies s`globals
    ensures s.globals == Define(Define(Define(old(s.globals),
      I32, StartName, IntC(32, 1)), I32, EndName, IntC(32, 10)), I32, ResultName, IntC(32, 0))
  {
    var g := s.DefineGlobal(StartName, IntC(32, 1));
    g := s.DefineGlobal(EndName, IntC(32, 10));
    g := s.DefineGlobal(ResultName, IntC(32, 0));
  }

  /** The instructions `emitSwapPtrStatementList` appends to `c`, with
      registers from `n` on, for the arguments `ax` and `ay`. */
  function SwapPtrCode(c: Code, n: nat, ax: Value, ay: Value): Code {
    var tmpX := Reg(n, PP);
    var tmpY := Reg(n + 1, PP);
    var temp := Reg(n + 2, P);
    var c1 := Snoc(Snoc(Snoc(c, Alloca(n, P, ParamX)), Alloca(n + 1, P, ParamY)), Alloca(n + 2, I32, TempName));
    var c2 := Snoc(Snoc(c1, Store(ax, tmpX)), Store(ay, tmpY));
    var c3 := Snoc(Snoc(Snoc(c2, Load(n + 3, P, tmpX)), Load(n + 4, I32, Reg(n + 3, P))), Store(Reg(n + 4, I32), temp));
    var c4 := Snoc(Snoc(Snoc(Snoc(c3, Load(n + 5, P, tmpY)), Load(n + 6, I32, Reg(n + 5, P))), Load(n + 7, P, tmpX)), Store(Reg(n + 6, I32), Reg(n + 7, P)));
    Snoc(Snoc(Snoc(c4, Load(n + 8, I32, temp)), Load(n + 9, P, tmpY)), Store(Reg(n + 8, I32), Reg(n + 9, P)))
  }

  /** `emitSwapPtrStatementList`: three slots, the arguments stored in two
      of them, then `temp = *x; *x = *y; *y = temp`. It returns no value. */
  method EmitSwapPtrStatementList(s: Session) returns (v: Value)
    requires s.Positioned()
    requires s.current in s.functions && |s.functions[s.current].proto.params| >= 2
    modifies s`cur, s`nextReg
    ensures s.cur == SwapPtrCode(old(s.cur), old(s.nextReg), s.ArgOf(0), s.ArgOf(1))
    ensures s.nextReg == old(s.nextReg) + 10 && v == NoValue
  {
    var ty := P;
    var tmpX := s.CreateAlloca(ty, ParamX);
    var tmpY := s.CreateAlloca(ty, ParamY);
    var temp := s.CreateAlloca(I32, TempName);
    var argX, argY := s.ArgOf(0), s.ArgOf(1);
    s.CreateStore(argX, tmpX);
    s.CreateStore(argY, tmpY);
    var xValue := s.GetRValue(tmpX, ty);
    s.CreateStore(xValue, temp);
    var yValue := s.GetRValue(tmpY, ty);
    var xAddress := s.CreateLoad(ty, tmpX);
    s.CreateStore(yValue, xAddress);
    var tempValue := s.CreateLoad(I32, temp);
    var yAddress := s.CreateLoad(ty, tmpY);
    s.CreateStore(tempValue, yAddress);
    v := NoValue;
  }

  /** The call and the reload `emitMainStatementList` append: the
      addresses of `start` and `end`, not their values, are passed. */
  function MainCode(c: Code, n: nat, start: Global, end: Global): Code {
    Snoc(Snoc(c, Call(n, SwapPtrName, [GlobalV(StartName, start.ty), GlobalV(EndName, end.ty)])),
      Load(n + 1, TypeOfConst(start.init), GlobalV(StartName, start.ty)))
  }

  /** The arguments of main's call: the addresses of `start` and `end`. */
  function StartEnd(g: map<string, Global>): seq<Value>
    requires StartName in g && EndName in g
  {
    [GlobalV(StartName, g[StartName].ty), GlobalV(EndName, g[EndName].ty)]
  }

  /** `emitMainStatementList`: `swap_ptr(&start, &end)`, then the reloaded
      `start` is the value to return. */
  method EmitMainStatementList(s: Session) returns (v: Value)
    requires s.Positioned()
    requires StartName in s.globals && EndName in s.globals && CallOk(s.functions, SwapPtrName, StartEnd(s.globals))
    modifies s`cur, s`nextReg
    ensures s.cur == MainCode(old(s.cur), old(s.nextReg), s.globals[StartName], s.globals[EndName])
    ensures s.nextReg == old(s.nextReg) + 2
    ensures v == Reg(old(s.nextReg) + 1, TypeOfConst(s.globals[StartName].init))
  {
    var argsV := [GlobalV(StartName, s.globals[StartName].ty), GlobalV(EndName, s.globals[EndName].ty)];
    var r := s.CreateCall(SwapPtrName, argsV);
    v := s.EmitLoadGlobal(StartName);
  }

  const Format: string := "result:%d\n"

  /** The instructions `emitSumStatementList` appends, with registers from
      `n` on, for the arguments `ax` and `ay`, the format string at index
      `si` of the module's strings and the global `result`. */
  function SumCode(c: Code, n: nat, ax: Value, ay: Value, si: nat, result: Global): Code {
    var tmpX, tmpY := Reg(n, P), Reg(n + 1, P);
    var c1 := Snoc(Snoc(Snoc(Snoc(c, Alloca(n, I32, "")), Alloca(n + 1, I32, "")), Store(ax, tmpX)), Store(ay, tmpY));
    Snoc(Snoc(Snoc(PrintResultCode(c1, n + 2, si, result), Load(n + 4, I32, tmpX)), Load(n + 5, I32, tmpY)), AddNsw(n + 6, Reg(n + 4, I32), Reg(n + 5, I32)))
  }

  /** The address of the first character of the format string at index
      `si`: the constant `getelementptr` expression the builder folds
      `CreateInBoundsGEP(str, {0, 0})` into. */
  function FormatPtr(si: nat): Value {
    FirstCharPtr(si, |Format|)
  }

  /** The instructions `printf("result:%d\n", result)` appends in
      `emitSumStatementList`, with registers from `n` on and the format
      string at index `si` of the module's strings: the load of `result`
      and the call; the string's address is a folded constant. */
  function PrintResultCode(c: Code, n: nat, si: nat, result: Global): Code {
    var rt := TypeOfConst(result.init);
    Snoc(Snoc(c, Load(n, rt, GlobalV(ResultName, result.ty))),
      Call(n + 1, PrintfName, [FormatPtr(si), Reg(n, rt)]))
  }

  /** `printf("result:%d\n", result)`: the format string as a new global,
      the value of `result`, the address of the string's first character
      and the call. */
  method EmitPrintResult(s: Session)
    requires s.Positioned() && ResultName in s.globals
    requires CallOk(s.functions, PrintfName, [FormatPtr(|s.strings|), Reg(s.nextReg, TypeOfConst(s.globals[ResultName].init))])
    modifies s`cur, s`nextReg, s`strings
    ensures s.strings == old(s.strings) + [StringGlobal(".str", Format)]
    ensures s.cur == PrintResultCode(old(s.cur), old(s.nextReg), |old(s.strings)|, s.globals[ResultName])
    ensures s.nextReg == old(s.nextReg) + 2
  {
    var str := s.CreateGlobalString(Format, StringName("str"));
    var result := s.EmitLoadGlobal(ResultName);
    var strTy := Pointee(TypeOf(str));
    assert strTy == Array(I8, |Format|);
    ElementIndexedTy(strTy, I64C(0));
    var idx := [I64C(0), I64C(0)];
    assert GepFolds(str, idx) && IndexInts(idx) == [0, 0];
    var strAddr := s.CreateInBoundsGEP(strTy, str, idx);
    var r := s.CreateCall(PrintfName, [strAddr, result]);
    assert StringName("str") == ".str";
  }

  /** `emitSumStatementList`: two unnamed i32 slots for the arguments,
      `printf("result:%d\n", result)`, and the sum of the two slots as the
      value to return. */
  method EmitSumStatementList(s: Session) returns (v: Value)
    requires s.Positioned()
    requires s.current in s.functions && |s.functions[s.current].proto.params| >= 2
    requires ResultName in s.globals
    requires CallOk(s.functions, PrintfName, [FormatPtr(|s.strings|), Reg(s.nextReg + 2, TypeOfConst(s.globals[ResultName].init))])
    modifies s`cur, s`nextReg, s`strings
    ensures s.strings == old(s.strings) + [StringGlobal(".str", Format)]
    ensures s.cur == SumCode(old(s.cur), old(s.nextReg), s.ArgOf(0), s.ArgOf(1), |old(s.strings)|, s.globals[ResultName])
    ensures s.nextReg == old(s.nextReg) + 7 && v == Reg(old(s.nextReg) + 6, I32)
  {
    var ty := I32;
    var tmpX := s.CreateAlloca(ty, "");
    var tmpY := s.CreateAlloca(ty, "");
    var argX, argY := s.ArgOf(0), s.ArgOf(1);
    s.CreateStore(argX, tmpX);
    s.CreateStore(argY, tmpY);
    EmitPrintResult(s);
    var valueL := s.CreateLoad(ty, tmpX);
    var valueR := s.CreateLoad(ty, tmpY);
    v := s.CreateNSWAdd(valueL, valueR);
  }

  /** What the emitter registered for `name` needs of the module. */
  predicate Emittable(fs: map<string, Function>, gs: map<string, Global>, name: string) {
    name in fs && HasImpl(name) &&
    var pr := fs[name].proto;
    if name == SwapPtrName then
      |pr.params| >= 2 && pr.ret.Void?
    else if name == MainName then
      StartName in gs && EndName in gs && CallOk(fs, SwapPtrName, StartEnd(gs))
    else
      |pr.params| >= 2 && ResultName in gs &&
      CallOk(fs, PrintfName, [FormatPtr(0), Reg(2, TypeOfConst(gs[ResultName].init))])
  }

  /** The entry block `emitFunctionBody(fn, name)` builds: the registered
      emitter's instructions, then the return of its value. */
  function BodyCode(fs: map<string, Function>, gs: map<string, Global>, strs: nat, name: string): Code
    requires Emittable(fs, gs, name)
  {
    var pr := fs[name].proto;
    if name == SwapPtrName then
      Snoc(SwapPtrCode(Empty, 0, Arg(0, pr.params[0]), Arg(1, pr.params[1])), ReturnOf(pr.ret, NoValue))
    else if name == MainName then
      Snoc(MainCode(Empty, 0, gs[StartName], gs[EndName]),
        ReturnOf(pr.ret, Reg(1, TypeOfConst(gs[StartName].init))))
    else
      Snoc(SumCode(Empty, 0, Arg(0, pr.params[0]), Arg(1, pr.params[1]), strs, gs[ResultName]),
        ReturnOf(pr.ret, Reg(6, I32)))
  }

  /** `emitFunctionBody(fn, name)`: an "entry" block as the insertion
      point, the emitter `funImplMap[name]`, and `emitReturn` of its value
      at the function's return type. */
  method EmitFunctionBody(s: Session, name: string)
    requires s.current == name && s.blocks == [] && s.insert == 0 && s.cur == Empty && s.nextReg == 0
    requires Emittable(s.functions, s.globals, name)
    modifies s`blocks, s`insert, s`cur, s`nextReg, s`strings
    ensures s.Blocks() == [Draft(EntryName, old(BodyCode(s.functions, s.globals, |s.strings|, name)))]
    ensures s.strings == if name == SumName then old(s.strings) + [StringGlobal(".str", Format)] else old(s.strings)
  {
    ghost var fs, gs, strs := s.functions, s.globals, |s.strings|;
    var entry := s.CreateBB(EntryName);
    s.SetInsertPoint(entry);
    var value;
    if name == MainName {
      value := EmitMainStatementList(s);
    } else if name == SumName {
      assert TypeOf(FormatPtr(strs)) == TypeOf(FormatPtr(0));
      value := EmitSumStatementList(s);
    } else {
      value := EmitSwapPtrStatementList(s);
    }
    s.EmitReturn(s.functions[s.current].proto.ret, value);
    assert s.cur == BodyCode(fs, gs, strs, name);
  }

  /** `defineFunction(name)`: the declared function gets the body
      `emitFunctionBody` builds. */
  method DefineFunction(s: Session, name: string)
    requires Emittable(s.functions, s.globals, name) && s.functions[name].blocks == []
    modifies s`current, s`blocks, s`insert, s`cur, s`nextReg, s`strings, s`functions
    ensures s.functions == old(s.functions)[name := old(s.functions[name]).(blocks := Finish([Draft(EntryName, old(BodyCode(s.functions, s.globals, |s.strings|, name)))]))]
    ensures s.strings == if name == SumName then old(s.strings) + [StringGlobal(".str", Format)] else old(s.strings)
  {
    s.BeginFunction(name);
    EmitFunctionBody(s, name);
    s.EndFunction();
  }

  /** The body of `swap_ptr` as printed. */
  function SwapPtrListing(): seq<Instr> {
    [ Alloca(0, P, ParamX), Alloca(1, P, ParamY), Alloca(2, I32, TempName),
      Store(Arg(0, P), Reg(0, PP)), Store(Arg(1, P), Reg(1, PP)),
      Load(3, P, Reg(0, PP)), Load(4, I32, Reg(3, P)), Store(Reg(4, I32), Reg(2, P)),
      Load(5, P, Reg(1, PP)), Load(6, I32, Reg(5, P)),
      Load(7, P, Reg(0, PP)), Store(Reg(6, I32), Reg(7, P)),
      Load(8, I32, Reg(2, P)), Load(9, P, Reg(1, PP)), Store(Reg(8, I32), Reg(9, P)),
      RetVoid ]
  }

  /** The body of `main` as printed. */
  function MainListing(): seq<Instr> {
    [ Call(0, SwapPtrName, [GlobalV(StartName, I32), GlobalV(EndName, I32)]),
      Load(1, I32, GlobalV(StartName, I32)),
      Ret(Reg(1, I32)) ]
  }

  /** `swap_ptr` as defined. */
  function SwapPtrFunction(): Function {
    Function(SwapPtrProto, [Block(EntryName, SwapPtrListing())], External, true)
  }

  /** `main` as defined. */
  function MainFunction(): Function {
    Function(MainProto, [Block(EntryName, MainListing())], External, true)
  }

  /** The globals `emitIntegers` defines. */
  function Globals18(): map<string, Global> {
    map[StartName := IntGlobal(1), EndName := IntGlobal(10), ResultName := IntGlobal(0)]
  }

  /** The module `emitProgram` builds. */
  function Program18(): Program {
    Program(
      map[PrintfName := Function(PrintfProto, [], External, true),
          SwapPtrName := SwapPtrFunction(),
          MainName := MainFunction()],
      Globals18(),
      [])
  }

  /** The swap body, instruction by instruction. */
  lemma SwapPtrListed()
    ensures Instrs(Snoc(SwapPtrCode(Empty, 0, Arg(0, P), Arg(1, P)), RetVoid)) == SwapPtrListing()
  {
    var i0, i1, i2 := Alloca(0, P, ParamX), Alloca(1, P, ParamY), Alloca(2, I32, TempName);
    var i3, i4 := Store(Arg(0, P), Reg(0, PP)), Store(Arg(1, P), Reg(1, PP));
    var i5, i6, i7 := Load(3, P, Reg(0, PP)), Load(4, I32, Reg(3, P)), Store(Reg(4, I32), Reg(2, P));
    var i8, i9, i10, i11 := Load(5, P, Reg(1, PP)), Load(6, I32, Reg(5, P)), Load(7, P, Reg(0, PP)), Store(Reg(6, I32), Reg(7, P));
    var i12, i13, i14 := Load(8, I32, Reg(2, P)), Load(9, P, Reg(1, PP)), Store(Reg(8, I32), Reg(9, P));
    var c1 := Snoc(Snoc(Snoc(Empty, i0), i1), i2);
    var c2 := Snoc(Snoc(c1, i3), i4);
    var c3 := Snoc(Snoc(Snoc(c2, i5), i6), i7);
    var c4 := Snoc(Snoc(Snoc(Snoc(c3, i8), i9), i10), i11);
    var c5 := Snoc(Snoc(Snoc(Snoc(c4, i12), i13), i14), RetVoid);
    assert Snoc(SwapPtrCode(Empty, 0, Arg(0, P), Arg(1, P)), RetVoid) == c5;
    InstrsSnoc3(Empty, i0, i1, i2);
    InstrsSnoc2(c1, i3, i4);
    InstrsSnoc3(c2, i5, i6, i7);
    InstrsSnoc4(c3, i8, i9, i10, i11);
    InstrsSnoc4(c4, i12, i13, i14, RetVoid);
  }

  /** The main body, instruction by instruction. */
  lemma MainListed()
    ensures Instrs(Snoc(MainCode(Empty, 0, IntGlobal(1), IntGlobal(10)), Ret(Reg(1, I32)))) == MainListing()
  {
    var i0 := Call(0, SwapPtrName, [GlobalV(StartName, I32), GlobalV(EndName, I32)]);
    var i1 := Load(1, I32, GlobalV(StartName, I32));
    assert IntGlobal(1).ty == I32;
    assert MainCode(Empty, 0, IntGlobal(1), IntGlobal(10)) == Snoc(Snoc(Empty, i0), i1);
    InstrsSnoc3(Empty, i0, i1, Ret(Reg(1, I32)));
  }

  /** The body of `sum` as printed, with the format string at index `si`:
      nine instructions before the return, the string's address folded into
      the call's operand. It lists the slots and stores of the arguments,
      then the `printf` call, then the sum and its return. */
  function SumListing(si: nat): seq<Instr> {
    [Alloca(0, I32, ""), Alloca(1, I32, ""), Store(Arg(0, I32), Reg(0, P)), Store(Arg(1, I32), Reg(1, P))] +
    [Load(2, I32, GlobalV(ResultName, I32)), Call(3, PrintfName, [FormatPtr(si), Reg(2, I32)])] +
    [Load(4, I32, Reg(0, P)), Load(5, I32, Reg(1, P)), AddNsw(6, Reg(4, I32), Reg(5, I32)), Ret(Reg(6, I32))]
  }

  /** The sum body, instruction by instruction. */
  lemma SumListed(si: nat)
    ensures Instrs(Snoc(SumCode(Empty, 0, Arg(0, I32), Arg(1, I32), si, IntGlobal(0)), Ret(Reg(6, I32)))) == SumListing(si)
  {
    var i0, i1, i2, i3 := Alloca(0, I32, ""), Alloca(1, I32, ""), Store(Arg(0, I32), Reg(0, P)), Store(Arg(1, I32), Reg(1, P));
    var i4, i5 := Load(2, I32, GlobalV(ResultName, I32)), Call(3, PrintfName, [FormatPtr(si), Reg(2, I32)]);
    var i6, i7, i8 := Load(4, I32, Reg(0, P)), Load(5, I32, Reg(1, P)), AddNsw(6, Reg(4, I32), Reg(5, I32));
    var c1 := Snoc(Snoc(Snoc(Snoc(Empty, i0), i1), i2), i3);
    var c2 := Snoc(Snoc(c1, i4), i5);
    assert PrintResultCode(c1, 2, si, IntGlobal(0)) == c2;
    assert SumCode(Empty, 0, Arg(0, I32), Arg(1, I32), si, IntGlobal(0)) == Snoc(Snoc(Snoc(c2, i6), i7), i8);
    InstrsSnoc4(Empty, i0, i1, i2, i3);
    InstrsSnoc2(c1, i4, i5);
    InstrsSnoc4(c2, i6, i7, i8, Ret(Reg(6, I32)));
  }

  /** The functions once `printf` is declared. */
  function PrintfDeclared(): map<string, Function> {
    map[PrintfName := Function(PrintfProto, [], External, true)]
  }

  /** `swap_ptr` is not yet declared when `printf` is, and
      `defineFunction(SwapPtrName)` applies to its declaration and gives the
      listed body. */
  lemma SwapPtrDefinable(fs: map<string, Function>, gs: map<string, Global>, n: nat)
    requires fs == PrintfDeclared() && gs == Globals18()
    ensures SwapPtrName !in fs
    ensures var decl := Function(SwapPtrProto, [], External, true);
      Emittable(fs[SwapPtrName := decl], gs, SwapPtrName) &&
      decl.(blocks := Finish([Draft(EntryName, BodyCode(fs[SwapPtrName := decl], gs, n, SwapPtrName))])) == SwapPtrFunction()
  {
    var fs' := fs[SwapPtrName := Function(SwapPtrProto, [], External, true)];
    var body := BodyCode(fs', gs, n, SwapPtrName);
    assert body == Snoc(SwapPtrCode(Empty, 0, Arg(0, P), Arg(1, P)), RetVoid);
    SwapPtrListed();
    assert Finish([Draft(EntryName, body)]) == [Block(EntryName, SwapPtrListing())];
  }

  /** Once `swap_ptr` is defined, `main` is not yet declared, and
      `defineFunction(MainName)` applies to its declaration and completes the
      module's functions. */
  lemma MainDefinable(fs: map<string, Function>, gs: map<string, Global>, n: nat)
    requires fs == PrintfDeclared()[SwapPtrName := SwapPtrFunction()] && gs == Globals18()
    ensures MainName !in fs
    ensures var decl := Function(MainProto, [], External, true);
      Emittable(fs[MainName := decl], gs, MainName) &&
      fs[MainName := decl.(blocks := Finish([Draft(EntryName, BodyCode(fs[MainName := decl], gs, n, MainName))]))] == Program18().functions
  {
    var fs' := fs[MainName := Function(MainProto, [], External, true)];
    assert StartEnd(gs) == [GlobalV(StartName, I32), GlobalV(EndName, I32)];
    assert ArgsMatch(StartEnd(gs), [P, P], false);
    var body := BodyCode(fs', gs, n, MainName);
    assert body == Snoc(MainCode(Empty, 0, IntGlobal(1), IntGlobal(10)), Ret(Reg(1, I32)));
    MainListed();
    assert Finish([Draft(EntryName, body)]) == [Block(EntryName, MainListing())];
  }

  /** `declareFunction("swap_ptr")` and `defineFunction("swap_ptr")`
      once `printf` is declared. */
  method DefineSwapPtr(s: Session)
    requires s.functions == PrintfDeclared() && s.globals == Globals18()
    requires SwapPtrName in s.protos && s.protos[SwapPtrName] == SwapPtrProto
    modifies s`current, s`blocks, s`insert, s`cur, s`nextReg, s`strings, s`functions
    ensures s.functions == PrintfDeclared()[SwapPtrName := SwapPtrFunction()] && s.strings == old(s.strings)
  {
    SwapPtrDefinable(s.functions, s.globals, |s.strings|);
    var f := s.DeclareFunction(SwapPtrName);
    DefineFunction(s, SwapPtrName);
  }

  /** `declareFunction("main")` and `defineFunction("main")` once
      `swap_ptr` is defined. */
  method DefineMain(s: Session)
    requires s.functions == PrintfDeclared()[SwapPtrName := SwapPtrFunction()] && s.globals == Globals18()
    requires MainName in s.protos && s.protos[MainName] == MainProto
    modifies s`current, s`blocks, s`insert, s`cur, s`nextReg, s`strings, s`functions
    ensures s.functions == Program18().functions && s.strings == old(s.strings)
  {
    MainDefinable(s.functions, s.globals, |s.strings|);
    var f := s.DeclareFunction(MainName);
    DefineFunction(s, MainName);
  }

  /** `emitProgram`, in the module `registerFunctionProto` prepared:
      the three globals, `printf` declared without a body, and `swap_ptr`
      and `main` defined. */
  method EmitProgram(s: Session)
    requires s.functions == map[] && s.globals == map[] && s.strings == []
    requires PrintfName in s.protos && s.protos[PrintfName] == PrintfProto
    requires SwapPtrName in s.protos && s.protos[SwapPtrName] == SwapPtrProto
    requires MainName in s.protos && s.protos[MainName] == MainProto
    modifies s`functions, s`globals, s`strings, s`current, s`blocks, s`insert, s`cur, s`nextReg
    ensures s.functions == Program18().functions && s.globals == Globals18() && s.strings == []
  {
    EmitIntegers(s);
    assert s.globals == Globals18();
    var f := s.DeclareFunction(PrintfName);
    assert s.functions == PrintfDeclared();
    DefineSwapPtr(s);
    DefineMain(s);
  }
}
