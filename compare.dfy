/** The comparison demo: integer globals compared with the six signed
    `icmp` predicates, their "unsigned" counterparts compared with the same
    signed predicates, and two floats compared with six `fcmp` predicates;
    `main` returns `i32_1`. */
module Compare {
  import opened Wrappers
  import opened Ir
  import opened Builder

  const MainName: string := "main"
  const EntryName: string := "entry"
  const MainProto: Proto := Proto(I32, [], false)

  const I8Name: string := "i_8"
  const I16Name: string := "i_16"
  const I32Name: string := "i_32"
  const I64Name: string := "i_64"
  const UI8Name: string := "ui_8"
  const UI32Name: string := "ui_32"
  const I32One: string := "i32_1"
  const I32Two: string := "i32_2"
  const UI32One: string := "ui32_1"
  const UI32Two: string := "ui32_2"
  const FName: string := "f"
  const DfName: string := "df"
  const LdName: string := "ld"
  const FOne: string := "f_1"
  const FTwo: string := "f_2"

  /** `registerFunctionProto`. */
  method RegisterFunctionProto(s: Session)
    modifies s`protos
    ensures s.protos == old(s.protos)[MainName := MainProto]
  {
    s.RegisterProto(MainName, MainProto);
  }

  /** A new external, DSO-local, non-constant global. */
  function Fresh(init: Constant): Global { Global(TypeOfConst(init), init, false, External, true) }

  /** The first six definitions of `emitIntegers`, each at its stated
      width. */
  function SizedDefined(gs: map<string, Global>): map<string, Global> {
    var g1 := Define(Define(Define(gs, I8, I8Name, IntC(8, 1)), I16, I16Name, IntC(16, 2)), I32, I32Name, IntC(32, 3));
    Define(Define(Define(g1, I64, I64Name, IntC(64, 4)), I8, UI8Name, IntC(8, 1)), I32, UI32Name, IntC(32, 3))
  }

  /** The last four, at the initializer's type. */
  function PairsDefined(gs: map<string, Global>): map<string, Global> {
    Define(Define(Define(Define(gs, I32, I32One, IntC(32, 1)), I32, I32Two, IntC(32, 2)),
      I32, UI32One, IntC(32, 1)), I32, UI32Two, IntC(32, 2))
  }

  /** The globals `emitIntegers` leaves in a module `gs`. */
  function IntDefined(gs: map<string, Global>): map<string, Global> {
    PairsDefined(SizedDefined(gs))
  }

  /** The six sized definitions leave the four pair names as they were. */
  lemma SizedKeepsPairs(gs: map<string, Global>)
    ensures forall n :: n in {I32One, I32Two, UI32One, UI32Two} ==>
      (n in SizedDefined(gs) <==> n in gs) && (n in gs ==> SizedDefined(gs)[n] == gs[n])
  {
  }

  /** i_8 = 1, i_16 = 2, i_32 = 3, i_64 = 4, ui_8 = 1, ui_32 = 3, each at
      its stated width. */
  method EmitSizedIntegers(s: Session)
    requires Redefinable(s.globals, I8Name, I8) && Redefinable(s.globals, I16Name, I16)
    requires Redefinable(s.globals, I32Name, I32) && Redefinable(s.globals, I64Name, I64)
    requires Redefinable(s.globals, UI8Name, I8) && Redefinable(s.globals, UI32Name, I32)
    modifies s`globals
    ensures s.globals == SizedDefined(old(s.globals))
  {
    var g := s.DefineGlobalVariable(I8, I8Name, IntC(8, 1));
    g := s.DefineGlobalVariable(I16, I16Name, IntC(16, 2));
    g := s.DefineGlobalVariable(I32, I32Name, IntC(32, 3));
    g := s.DefineGlobalVariable(I64, I64Name, IntC(64, 4));
    g := s.DefineGlobalVariable(I8, UI8Name, IntC(8, 1));
    g := s.DefineGlobalVariable(I32, UI32Name, IntC(32, 3));
  }

  /** i32_1 = 1, i32_2 = 2, ui32_1 = 1, ui32_2 = 2, typed by the
      initializer. */
  method EmitIntPairs(s: Session)
    requires Redefinable(s.globals, I32One, I32) && Redefinable(s.globals, I32Two, I32)
    requires Redefinable(s.globals, UI32One, I32) && Redefinable(s.globals, UI32Two, I32)
    modifies s`globals
    ensures s.globals == PairsDefined(old(s.globals))
  {
    var g := s.DefineGlobal(I32One, IntC(32, 1));
    g := s.DefineGlobal(I32Two, IntC(32, 2));
    g := s.DefineGlobal(UI32One, IntC(32, 1));
    g := s.DefineGlobal(UI32Two, IntC(32, 2));
  }

  /** `emitIntegers`: the six sized definitions, then the four pairs. */
  method EmitIntegers(s: Session)
    requires Redefinable(s.globals, I8Name, I8) && Redefinable(s.globals, I16Name, I16)
    requires Redefinable(s.globals, I32Name, I32) && Redefinable(s.globals, I64Name, I64)
    requires Redefinable(s.globals, UI8Name, I8) && Redefinable(s.globals, UI32Name, I32)
    requires Redefinable(s.globals, I32One, I32) && Redefinable(s.globals, I32Two, I32)
    requires Redefinable(s.globals, UI32One, I32) && Redefinable(s.globals, UI32Two, I32)
    modifies s`globals
    ensures s.globals == IntDefined(old(s.globals))
  {
    SizedKeepsPairs(s.globals);
    EmitSizedIntegers(s);
    EmitIntPairs(s);
  }

  /** The globals `emitFloats` leaves in a module `gs`. */
  function FloatDefined(gs: map<string, Global>): map<string, Global> {
    var g1 := Define(Define(Define(gs, Float, FName, FloatC(Float, 1.0)), Double, DfName, FloatC(Double, 2.0)),
      X86Fp80, LdName, FloatC(X86Fp80, 3.0));
    Define(Define(g1, Float, FOne, FloatC(Float, 1.0)), Float, FTwo, FloatC(Float, 2.0))
  }

  /** `emitFloats`: f = 1.0, df = 2.0, ld = 3.0, f_1 = 1.0 and f_2 = 2.0;
      the literals are recorded, never computed with. */
  method EmitFloats(s: Session)
    requires Redefinable(s.globals, FName, Float) && Redefinable(s.globals, DfName, Double)
    requires Redefinable(s.globals, LdName, X86Fp80)
    requires Redefinable(s.globals, FOne, Float) && Redefinable(s.globals, FTwo, Float)
    modifies s`globals
    ensures s.globals == FloatDefined(old(s.globals))
  {
    var g := s.DefineGlobalVariable(Float, FName, FloatC(Float, 1.0));
    g := s.DefineGlobalVariable(Double, DfName, FloatC(Double, 2.0));
    g := s.DefineGlobalVariable(X86Fp80, LdName, FloatC(X86Fp80, 3.0));
    g := s.DefineGlobal(FOne, FloatC(Float, 1.0));
    g := s.DefineGlobal(FTwo, FloatC(Float, 2.0));
  }

  /** The predicates of the integer comparison lines, in order:
      `>`, `>=`, `<`, `<=`, `==`, `!=`. */
  const IntPreds: seq<IPred> := [SGT, SGE, SLT, SLE, EQ, NE]

  /** The predicates the float comparison lines use, in order. */
  const FloatPreds: seq<FPred> := [OGT, OGE, OLT, OLE, ONE, UNE]

  /** Six `icmp`s of `l` and `r`, one per predicate of `IntPreds`. */
  function ICmps(c: Code, n: nat, l: Value, r: Value): Code {
    Snoc(Snoc(Snoc(Snoc(Snoc(Snoc(c, ICmp(n, SGT, l, r)), ICmp(n + 1, SGE, l, r)), ICmp(n + 2, SLT, l, r)),
      ICmp(n + 3, SLE, l, r)), ICmp(n + 4, EQ, l, r)), ICmp(n + 5, NE, l, r))
  }

  /** Six `fcmp`s of `l` and `r`, one per predicate of `FloatPreds`. */
  function FCmps(c: Code, n: nat, l: Value, r: Value): Code {
    Snoc(Snoc(Snoc(Snoc(Snoc(Snoc(c, FCmp(n, OGT, l, r)), FCmp(n + 1, OGE, l, r)), FCmp(n + 2, OLT, l, r)),
      FCmp(n + 3, OLE, l, r)), FCmp(n + 4, ONE, l, r)), FCmp(n + 5, UNE, l, r))
  }

  /** The six integer comparison lines; the same signed predicates serve
      the signed and the "unsigned" pair. */
  method EmitIntComparisons(s: Session, l: Value, r: Value)
    requires s.Positioned()
    modifies s`cur, s`nextReg
    ensures s.cur == ICmps(old(s.cur), old(s.nextReg), l, r) && s.nextReg == old(s.nextReg) + 6
  {
    var v := s.CreateICmp(SGT, l, r);
    v := s.CreateICmp(SGE, l, r);
    v := s.CreateICmp(SLT, l, r);
    v := s.CreateICmp(SLE, l, r);
    v := s.CreateICmp(EQ, l, r);
    v := s.CreateICmp(NE, l, r);
  }

  /** The six float comparison lines. */
  method EmitFloatComparisons(s: Session, l: Value, r: Value)
    requires s.Positioned()
    modifies s`cur, s`nextReg
    ensures s.cur == FCmps(old(s.cur), old(s.nextReg), l, r) && s.nextReg == old(s.nextReg) + 6
  {
    var v := s.CreateFCmp(OGT, l, r);
    v := s.CreateFCmp(OGE, l, r);
    v := s.CreateFCmp(OLT, l, r);
    v := s.CreateFCmp(OLE, l, r);
    v := s.CreateFCmp(ONE, l, r);
    v := s.CreateFCmp(UNE, l, r);
  }

  /** `emitLoadGlobalVar(name)`: a load at the initializer's type. */
  function LoadG(n: nat, name: string, g: Global): Instr {
    Load(n, TypeOfConst(g.init), GlobalV(name, g.ty))
  }

  function RegOf(n: nat, g: Global): Value { Reg(n, TypeOfConst(g.init)) }

  /** The names the statement list loads are in the module. */
  predicate Loadable(gs: map<string, Global>) {
    I32One in gs && I32Two in gs && UI32One in gs && UI32Two in gs && FOne in gs && FTwo in gs
  }

  /** What `emitMainFunctionStatementList` appends to `c`, registers from
      `n` on: each pair loaded, then compared six ways. */
  function MainCode(c: Code, n: nat, gs: map<string, Global>): Code
    requires Loadable(gs)
  {
    var c1 := Snoc(Snoc(c, LoadG(n, I32One, gs[I32One])), LoadG(n + 1, I32Two, gs[I32Two]));
    var c2 := ICmps(c1, n + 2, RegOf(n, gs[I32One]), RegOf(n + 1, gs[I32Two]));
    var c3 := Snoc(Snoc(c2, LoadG(n + 8, UI32One, gs[UI32One])), LoadG(n + 9, UI32Two, gs[UI32Two]));
    var c4 := ICmps(c3, n + 10, RegOf(n + 8, gs[UI32One]), RegOf(n + 9, gs[UI32Two]));
    var c5 := Snoc(Snoc(c4, LoadG(n + 16, FOne, gs[FOne])), LoadG(n + 17, FTwo, gs[FTwo]));
    FCmps(c5, n + 18, RegOf(n + 16, gs[FOne]), RegOf(n + 17, gs[FTwo]))
  }

  /** `emitMainFunctionStatementList`: the loaded `i32_1` is the value to
      return. */
  method EmitMainFunctionStatementList(s: Session) returns (v: Value)
    requires s.Positioned() && Loadable(s.globals)
    modifies s`cur, s`nextReg
    ensures s.cur == MainCode(old(s.cur), old(s.nextReg), s.globals)
    ensures s.nextReg == old(s.nextReg) + 24 && v == RegOf(old(s.nextReg), s.globals[I32One])
  {
    var siV1 := s.EmitLoadGlobal(I32One);
    var siV2 := s.EmitLoadGlobal(I32Two);
    EmitIntComparisons(s, siV1, siV2);
    var usiV1 := s.EmitLoadGlobal(UI32One);
    var usiV2 := s.EmitLoadGlobal(UI32Two);
    EmitIntComparisons(s, usiV1, usiV2);
    var fV1 := s.EmitLoadGlobal(FOne);
    var fV2 := s.EmitLoadGlobal(FTwo);
    EmitFloatComparisons(s, fV1, fV2);
    v := siV1;
  }

  /** The entry block `emitFunctionBody` builds for a function returning
      `ret`. */
  function BodyCode(gs: map<string, Global>, ret: Ty): Code
    requires Loadable(gs)
  {
    Snoc(MainCode(Empty, 0, gs), ReturnOf(ret, RegOf(0, gs[I32One])))
  }

  /** `emitFunctionBody(fn)`. */
  method EmitFunctionBody(s: Session)
    requires s.blocks == [] && s.insert == 0 && s.cur == Empty && s.nextReg == 0
    requires s.current in s.functions && Loadable(s.globals)
    modifies s`blocks, s`insert, s`cur, s`nextReg
    ensures s.Blocks() == [Draft(EntryName, BodyCode(s.globals, s.functions[s.current].proto.ret))]
  {
    var entry := s.CreateBB(EntryName);
    s.SetInsertPoint(entry);
    var value := EmitMainFunctionStatementList(s);
    s.EmitReturn(s.functions[s.current].proto.ret, value);
  }

  /** `defineFunction(name)`. */
  method DefineFunction(s: Session, name: string)
    requires name in s.functions && s.functions[name].blocks == [] && Loadable(s.globals)
    modifies s`current, s`blocks, s`insert, s`cur, s`nextReg, s`functions
    ensures s.functions == old(s.functions)[name := old(s.functions[name]).(blocks :=
      Finish([Draft(EntryName, BodyCode(s.globals, old(s.functions[name].proto.ret)))]))]
  {
    s.BeginFunction(name);
    EmitFunctionBody(s);
    s.EndFunction();
  }

  /** The globals the sized definitions create in an empty module. */
  function SizedGlobals(): map<string, Global> {
    map[I8Name := Fresh(IntC(8, 1)), I16Name := Fresh(IntC(16, 2)), I32Name := Fresh(IntC(32, 3)),
        I64Name := Fresh(IntC(64, 4)), UI8Name := Fresh(IntC(8, 1)), UI32Name := Fresh(IntC(32, 3))]
  }

  /** The globals `emitIntegers` creates in an empty module. */
  function IntGlobals(): map<string, Global> {
    SizedGlobals()[I32One := Fresh(IntC(32, 1))][I32Two := Fresh(IntC(32, 2))]
      [UI32One := Fresh(IntC(32, 1))][UI32Two := Fresh(IntC(32, 2))]
  }

  /** The globals of the finished module. */
  function CompareGlobals(): map<string, Global> {
    IntGlobals()[FName := Fresh(FloatC(Float, 1.0))][DfName := Fresh(FloatC(Double, 2.0))]
      [LdName := Fresh(FloatC(X86Fp80, 3.0))][FOne := Fresh(FloatC(Float, 1.0))][FTwo := Fresh(FloatC(Float, 2.0))]
  }

  lemma SizedStage()
    ensures SizedDefined(map[]) == SizedGlobals()
    ensures I32One !in SizedGlobals() && I32Two !in SizedGlobals() && UI32One !in SizedGlobals() && UI32Two !in SizedGlobals()
  {
  }

  lemma PairsStage()
    ensures PairsDefined(SizedGlobals()) == IntGlobals()
    ensures FName !in IntGlobals() && DfName !in IntGlobals() && LdName !in IntGlobals()
    ensures FOne !in IntGlobals() && FTwo !in IntGlobals()
  {
  }

  /** The six globals `main` loads, as the finished module holds them. */
  predicate LoadsAsDefined(gs: map<string, Global>) {
    Loadable(gs) && gs[I32One] == Fresh(IntC(32, 1)) && gs[I32Two] == Fresh(IntC(32, 2)) &&
    gs[UI32One] == Fresh(IntC(32, 1)) && gs[UI32Two] == Fresh(IntC(32, 2)) &&
    gs[FOne] == Fresh(FloatC(Float, 1.0)) && gs[FTwo] == Fresh(FloatC(Float, 2.0))
  }

  lemma FloatStage()
    ensures FloatDefined(IntGlobals()) == CompareGlobals()
  {
  }

  lemma CompareGlobalsLoad()
    ensures LoadsAsDefined(CompareGlobals())
  {
  }

  /** The six integer comparisons of registers `l` and `r` as printed. */
  function ICmpList(n: nat, l: Value, r: Value): seq<Instr> {
    [ICmp(n, SGT, l, r), ICmp(n + 1, SGE, l, r), ICmp(n + 2, SLT, l, r),
     ICmp(n + 3, SLE, l, r), ICmp(n + 4, EQ, l, r), ICmp(n + 5, NE, l, r)]
  }

  /** The six float comparisons as printed. */
  function FCmpList(n: nat, l: Value, r: Value): seq<Instr> {
    [FCmp(n, OGT, l, r), FCmp(n + 1, OGE, l, r), FCmp(n + 2, OLT, l, r),
     FCmp(n + 3, OLE, l, r), FCmp(n + 4, ONE, l, r), FCmp(n + 5, UNE, l, r)]
  }

  /** The body of `main` as printed: 24 instructions, then the return of
      the first load. */
  function MainListing(): seq<Instr> {
    [Load(0, I32, GlobalV(I32One, I32)), Load(1, I32, GlobalV(I32Two, I32))] + ICmpList(2, Reg(0, I32), Reg(1, I32)) +
    [Load(8, I32, GlobalV(UI32One, I32)), Load(9, I32, GlobalV(UI32Two, I32))] + ICmpList(10, Reg(8, I32), Reg(9, I32)) +
    [Load(16, Float, GlobalV(FOne, Float)), Load(17, Float, GlobalV(FTwo, Float))] +
    FCmpList(18, Reg(16, Float), Reg(17, Float)) + [Ret(Reg(0, I32))]
  }

  function MainFunction(): Function {
    Function(MainProto, [Block(EntryName, MainListing())], External, true)
  }

  function CompareProgram(): Program {
    Program(map[MainName := MainFunction()], CompareGlobals(), [])
  }

  /** The comparison lines list as printed. */
  lemma ICmpsListed(c: Code, n: nat, l: Value, r: Value)
    ensures Instrs(ICmps(c, n, l, r)) == Instrs(c) + ICmpList(n, l, r)
  {
    var a, b, d := ICmp(n, SGT, l, r), ICmp(n + 1, SGE, l, r), ICmp(n + 2, SLT, l, r);
    var e, f, g := ICmp(n + 3, SLE, l, r), ICmp(n + 4, EQ, l, r), ICmp(n + 5, NE, l, r);
    var c3 := Snoc(Snoc(Snoc(c, a), b), d);
    InstrsSnoc3(c, a, b, d);
    InstrsSnoc3(c3, e, f, g);
    assert [a, b, d] + [e, f, g] == ICmpList(n, l, r);
    assert (Instrs(c) + [a, b, d]) + [e, f, g] == Instrs(c) + ([a, b, d] + [e, f, g]);
  }

  lemma FCmpsListed(c: Code, n: nat, l: Value, r: Value)
    ensures Instrs(FCmps(c, n, l, r)) == Instrs(c) + FCmpList(n, l, r)
  {
    var a, b, d := FCmp(n, OGT, l, r), FCmp(n + 1, OGE, l, r), FCmp(n + 2, OLT, l, r);
    var e, f, g := FCmp(n + 3, OLE, l, r), FCmp(n + 4, ONE, l, r), FCmp(n + 5, UNE, l, r);
    var c3 := Snoc(Snoc(Snoc(c, a), b), d);
    InstrsSnoc3(c, a, b, d);
    InstrsSnoc3(c3, e, f, g);
    assert [a, b, d] + [e, f, g] == FCmpList(n, l, r);
    assert (Instrs(c) + [a, b, d]) + [e, f, g] == Instrs(c) + ([a, b, d] + [e, f, g]);
  }

  /** The chain `main`'s statement list builds from the listed loads. */
  function ListedCode(): Code {
    var c1 := Snoc(Snoc(Empty, Load(0, I32, GlobalV(I32One, I32))), Load(1, I32, GlobalV(I32Two, I32)));
    var c2 := ICmps(c1, 2, Reg(0, I32), Reg(1, I32));
    var c3 := Snoc(Snoc(c2, Load(8, I32, GlobalV(UI32One, I32))), Load(9, I32, GlobalV(UI32Two, I32)));
    var c4 := ICmps(c3, 10, Reg(8, I32), Reg(9, I32));
    var c5 := Snoc(Snoc(c4, Load(16, Float, GlobalV(FOne, Float))), Load(17, Float, GlobalV(FTwo, Float)));
    Snoc(FCmps(c5, 18, Reg(16, Float), Reg(17, Float)), Ret(Reg(0, I32)))
  }

  /** In the finished module the statement list builds exactly that chain. */
  lemma BodyIsListedCode(gs: map<string, Global>)
    requires LoadsAsDefined(gs)
    ensures BodyCode(gs, I32) == ListedCode()
  {
  }

  /** ... which lists as `MainListing`. */
  lemma ListedCodeListed()
    ensures Instrs(ListedCode()) == MainListing()
  {
    var l0, l1 := Load(0, I32, GlobalV(I32One, I32)), Load(1, I32, GlobalV(I32Two, I32));
    var l8, l9 := Load(8, I32, GlobalV(UI32One, I32)), Load(9, I32, GlobalV(UI32Two, I32));
    var l16, l17 := Load(16, Float, GlobalV(FOne, Float)), Load(17, Float, GlobalV(FTwo, Float));
    var c1 := Snoc(Snoc(Empty, l0), l1);
    var c2 := ICmps(c1, 2, Reg(0, I32), Reg(1, I32));
    var c3 := Snoc(Snoc(c2, l8), l9);
    var c4 := ICmps(c3, 10, Reg(8, I32), Reg(9, I32));
    var c5 := Snoc(Snoc(c4, l16), l17);
    var c6 := FCmps(c5, 18, Reg(16, Float), Reg(17, Float));
    InstrsSnoc2(Empty, l0, l1);
    assert Instrs(c1) == [l0, l1];
    ICmpsListed(c1, 2, Reg(0, I32), Reg(1, I32));
    InstrsSnoc2(c2, l8, l9);
    ICmpsListed(c3, 10, Reg(8, I32), Reg(9, I32));
    InstrsSnoc2(c4, l16, l17);
    FCmpsListed(c5, 18, Reg(16, Float), Reg(17, Float));
    assert Instrs(ListedCode()) == Instrs(c6) + [Ret(Reg(0, I32))];
  }

  /** `defineFunction("main")` in the finished module gives the listed
      body. */
  lemma MainDefinable(gs: map<string, Global>)
    requires LoadsAsDefined(gs)
    ensures Finish([Draft(EntryName, BodyCode(gs, I32))]) == [Block(EntryName, MainListing())]
  {
    BodyIsListedCode(gs);
    ListedCodeListed();
    assert Finish([Draft(EntryName, ListedCode())]) == [Block(EntryName, Instrs(ListedCode()))] + Finish([]);
  }

  /** Declaring `main` in a module without functions and defining it
      gives the finished module's functions. */
  lemma MainDefinedMap(gs: map<string, Global>)
    requires LoadsAsDefined(gs)
    ensures var decl := Function(MainProto, [], External, true);
      map[MainName := decl][MainName := decl.(blocks := Finish([Draft(EntryName, BodyCode(gs, decl.proto.ret))]))] ==
      map[MainName := MainFunction()]
  {
    MainDefinable(gs);
  }

  /** The global part of `emitProgram` on an empty module. */
  method EmitGlobals(s: Session)
    requires s.globals == map[]
    modifies s`globals
    ensures s.globals == CompareGlobals()
  {
    SizedKeepsPairs(s.globals);
    EmitIntegers(s);
    SizedStage();
    PairsStage();
    EmitFloats(s);
    FloatStage();
  }

  /** `declareFunction("main"); defineFunction("main")` in the finished
      module. */
  method DeclareAndDefineMain(s: Session)
    requires s.functions == map[] && s.globals == CompareGlobals()
    requires MainName in s.protos && s.protos[MainName] == MainProto
    modifies s`functions, s`current, s`blocks, s`insert, s`cur, s`nextReg
    ensures s.functions == map[MainName := MainFunction()]
  {
    CompareGlobalsLoad();
    MainDefinedMap(s.globals);
    var f := s.DeclareFunction(MainName);
    DefineFunction(s, MainName);
  }

  /** `emitProgram` on the module `registerFunctionProto` prepared. */
  method EmitProgram(s: Session)
    requires s.functions == map[] && s.globals == map[] && s.strings == []
    requires MainName in s.protos && s.protos[MainName] == MainProto
    modifies s`functions, s`globals, s`current, s`blocks, s`insert, s`cur, s`nextReg
    ensures s.functions == CompareProgram().functions && s.globals == CompareProgram().globals && s.strings == []
  {
    EmitGlobals(s);
    DeclareAndDefineMain(s);
  }

  // The `==` float line. Its comment and its neighbours give each line's
  // C operator; the `==` line is emitted with `one` ("ordered and not
  // equal"), the negation of the intended `oeq`.

  /** An `fcmp` predicate on two values that are not NaN (the model's
      reals have none, so ordered and unordered predicates coincide). */
  predicate FHolds(pred: FPred, x: real, y: real) {
    match pred
    case OEQ => x == y
    case OGT => x > y
    case OGE => x >= y
    case OLT => x < y
    case OLE => x <= y
    case ONE => x != y
    case UNE => x != y
  }

  /** The C comparison written on the `k`-th float line:
      `>`, `>=`, `<`, `<=`, `==`, `!=`. */
  predicate FloatLine(k: nat, x: real, y: real)
    requires k < 6
  {
    if k == 0 then x > y else if k == 1 then x >= y else if k == 2 then x < y
    else if k == 3 then x <= y else if k == 4 then x == y else x != y
  }

  /** As written, the `==` line holds for f_1 = 1.0 and f_2 = 2.0, which
      C's `f_1 == f_2` does not; it is the only line that disagrees. */
  lemma FloatEqLineAsWritten()
    ensures FHolds(FloatPreds[4], 1.0, 2.0) && !FloatLine(4, 1.0, 2.0)
    ensures forall k, x: real, y: real :: 0 <= k < 6 && k != 4 ==> (FHolds(FloatPreds[k], x, y) <==> FloatLine(k, x, y))
  {
  }

  /** The predicates the float lines evidently intend: `oeq` on the `==`
      line. */
  const CorrectedFloatPreds: seq<FPred> := [OGT, OGE, OLT, OLE, OEQ, UNE]

  /** Every corrected predicate means its line's C comparison, on all
      values, and the correction changes the `==` line only. */
  lemma CorrectedFloatPredsMeanTheirLines(k: nat, x: real, y: real)
    requires k < 6
    ensures FHolds(CorrectedFloatPreds[k], x, y) <==> FloatLine(k, x, y)
    ensures k != 4 ==> CorrectedFloatPreds[k] == FloatPreds[k]
  {
  }
}
