/** What the comparison demo's `main` computes: with i32_1 = 1 and
    i32_2 = 2 the signed predicates `<`, `<=` and `!=` hold and `>`, `>=`
    and `==` do not, for the signed and the "unsigned" pair alike; the
    float comparisons yield values the model leaves undetermined; nothing
    is stored and `main` returns 1. */
module CompareRun {
  import opened Wrappers
  import opened Ir
  import opened Interp
  import opened Exec
  import opened Compare

  function At(name: string): Addr { ObjAddr(GlobalObj(name)) }

  /** The registers after the six integer comparisons at `n` of 1 with 2. */
  function IntBits(regs: map<nat, Val>, n: nat): map<nat, Val> {
    regs[n := Bit(false)][n + 1 := Bit(false)][n + 2 := Bit(true)]
      [n + 3 := Bit(true)][n + 4 := Bit(false)][n + 5 := Bit(true)]
  }

  /** The registers after the six float comparisons at `n`. */
  function FloatBits(regs: map<nat, Val>, n: nat): map<nat, Val> {
    regs[n := Undetermined][n + 1 := Undetermined][n + 2 := Undetermined]
      [n + 3 := Undetermined][n + 4 := Undetermined][n + 5 := Undetermined]
  }

  // The states after instructions 8, 16 and 24.

  function K0(): Ctx { Ctx([], map[], InitialMem) }

  function K8(): Ctx { K0().(regs := IntBits(map[0 := IntV(32, 1), 1 := IntV(32, 2)], 2)) }

  function K16(): Ctx { K8().(regs := IntBits(K8().regs[8 := IntV(32, 1)][9 := IntV(32, 2)], 10)) }

  function K24(): Ctx { K16().(regs := FloatBits(K16().regs[16 := FloatV(1.0)][17 := FloatV(2.0)], 18)) }

  /** Two loads of scalar globals into registers `lo` and `lo + 1`. */
  lemma TwoLoads(fuel: nat, p: Program, f: Function, code: seq<Instr>, lo: nat, c: Ctx,
                 n1: string, n2: string, t: Ty, v1: Val, v2: Val)
    requires lo + 2 <= |code| && code[lo] == Load(lo, t, GlobalV(n1, t)) && code[lo + 1] == Load(lo + 1, t, GlobalV(n2, t))
    requires n1 in p.globals && n2 in p.globals && IsScalar(t) && HasType(v1, t) && HasType(v2, t)
    requires AddrTy(p, c.mem, At(n1)) == Some(t) && Read(p, c.mem, At(n1)) == Some(v1)
    requires AddrTy(p, c.mem, At(n2)) == Some(t) && Read(p, c.mem, At(n2)) == Some(v2)
    ensures ExecCode(fuel, p, f, code, lo, c) == ExecCode(fuel, p, f, code, lo + 2, c.(regs := c.regs[lo := v1][lo + 1 := v2]))
  {
    var c1 := LoadStep(p, code, lo, lo, t, GlobalV(n1, t), c, At(n1), v1);
    var c2 := LoadStep(p, code, lo + 1, lo + 1, t, GlobalV(n2, t), c1, At(n2), v2);
    StepsOne(p, code, lo + 1, lo + 2, c1, c2, c2);
    StepsOne(p, code, lo, lo + 2, c, c1, c2);
    ExecSteps(fuel, p, f, code, lo, lo + 2, c, c2);
  }

  /** Three integer comparisons of registers `a` and `b`, written below `lo`. */
  lemma ThreeICmps(fuel: nat, p: Program, f: Function, code: seq<Instr>, lo: nat, c: Ctx,
                   a: nat, b: nat, x: int, y: int, p1: IPred, p2: IPred, p3: IPred)
    requires a < lo && b < lo && lo + 3 <= |code|
    requires code[lo] == ICmp(lo, p1, Reg(a, I32), Reg(b, I32)) && code[lo + 1] == ICmp(lo + 1, p2, Reg(a, I32), Reg(b, I32))
    requires code[lo + 2] == ICmp(lo + 2, p3, Reg(a, I32), Reg(b, I32))
    requires a in c.regs && c.regs[a] == IntV(32, x) && b in c.regs && c.regs[b] == IntV(32, y)
    ensures ExecCode(fuel, p, f, code, lo, c) == ExecCode(fuel, p, f, code, lo + 3,
      c.(regs := c.regs[lo := Bit(IHolds(p1, x, y))][lo + 1 := Bit(IHolds(p2, x, y))][lo + 2 := Bit(IHolds(p3, x, y))]))
  {
    var c1 := ICmpStep(p, code, lo, lo, p1, Reg(a, I32), Reg(b, I32), c, 32, x, y);
    var c2 := ICmpStep(p, code, lo + 1, lo + 1, p2, Reg(a, I32), Reg(b, I32), c1, 32, x, y);
    var c3 := ICmpStep(p, code, lo + 2, lo + 2, p3, Reg(a, I32), Reg(b, I32), c2, 32, x, y);
    StepsOne(p, code, lo + 2, lo + 3, c2, c3, c3);
    StepsOne(p, code, lo + 1, lo + 3, c1, c2, c3);
    StepsOne(p, code, lo, lo + 3, c, c1, c3);
    ExecSteps(fuel, p, f, code, lo, lo + 3, c, c3);
  }

  /** Three float comparisons of registers `a` and `b`, written below `lo`. */
  lemma ThreeFCmps(fuel: nat, p: Program, f: Function, code: seq<Instr>, lo: nat, c: Ctx,
                   a: nat, b: nat, x: real, y: real, p1: FPred, p2: FPred, p3: FPred)
    requires a < lo && b < lo && lo + 3 <= |code|
    requires code[lo] == FCmp(lo, p1, Reg(a, Float), Reg(b, Float)) && code[lo + 1] == FCmp(lo + 1, p2, Reg(a, Float), Reg(b, Float))
    requires code[lo + 2] == FCmp(lo + 2, p3, Reg(a, Float), Reg(b, Float))
    requires a in c.regs && c.regs[a] == FloatV(x) && b in c.regs && c.regs[b] == FloatV(y)
    ensures ExecCode(fuel, p, f, code, lo, c) == ExecCode(fuel, p, f, code, lo + 3,
      c.(regs := c.regs[lo := Undetermined][lo + 1 := Undetermined][lo + 2 := Undetermined]))
  {
    var c1 := FCmpStep(p, code, lo, lo, p1, Reg(a, Float), Reg(b, Float), c, x, y);
    var c2 := FCmpStep(p, code, lo + 1, lo + 1, p2, Reg(a, Float), Reg(b, Float), c1, x, y);
    var c3 := FCmpStep(p, code, lo + 2, lo + 2, p3, Reg(a, Float), Reg(b, Float), c2, x, y);
    StepsOne(p, code, lo + 2, lo + 3, c2, c3, c3);
    StepsOne(p, code, lo + 1, lo + 3, c1, c2, c3);
    StepsOne(p, code, lo, lo + 3, c, c1, c3);
    ExecSteps(fuel, p, f, code, lo, lo + 3, c, c3);
  }

  /** A global of the finished module, as loads see it before any store. */
  lemma GlobalLoadable(p: Program, name: string, init: Constant)
    requires name in p.globals && p.globals[name] == Fresh(init) && IsScalar(TypeOfConst(init)) && ScalarOf(init).Some?
    ensures AddrTy(p, InitialMem, At(name)) == Some(TypeOfConst(init)) && Read(p, InitialMem, At(name)) == ScalarOf(init)
  {
    assert At(name).path[1..] == [];
  }

  /** The signed pair: loaded, then compared six ways. */
  lemma SignedPart(fuel: nat, p: Program, f: Function, code: seq<Instr>)
    requires code == MainListing() && LoadsAsDefined(p.globals)
    ensures ExecCode(fuel, p, f, code, 0, K0()) == ExecCode(fuel, p, f, code, 8, K8())
  {
    var l, r := Reg(0, I32), Reg(1, I32);
    SignedLoads(fuel, p, f, code);
    var c5 := K0().(regs := map[0 := IntV(32, 1), 1 := IntV(32, 2)][2 := Bit(false)][3 := Bit(false)][4 := Bit(true)]);
    assert code[5] == ICmp(5, SLE, l, r) && code[6] == ICmp(6, EQ, l, r) && code[7] == ICmp(7, NE, l, r);
    assert IHolds(SLE, 1, 2) && !IHolds(EQ, 1, 2) && IHolds(NE, 1, 2);
    assert c5.(regs := c5.regs[5 := Bit(true)][6 := Bit(false)][7 := Bit(true)]) == K8();
    ThreeICmps(fuel, p, f, code, 5, c5, 0, 1, 1, 2, SLE, EQ, NE);
  }

  lemma SignedLoads(fuel: nat, p: Program, f: Function, code: seq<Instr>)
    requires code == MainListing() && LoadsAsDefined(p.globals)
    ensures ExecCode(fuel, p, f, code, 0, K0()) ==
      ExecCode(fuel, p, f, code, 5, K0().(regs := map[0 := IntV(32, 1), 1 := IntV(32, 2)][2 := Bit(false)][3 := Bit(false)][4 := Bit(true)]))
  {
    var l, r := Reg(0, I32), Reg(1, I32);
    assert |code| == 25 && code[0] == Load(0, I32, GlobalV(I32One, I32)) && code[1] == Load(1, I32, GlobalV(I32Two, I32));
    assert code[2] == ICmp(2, SGT, l, r) && code[3] == ICmp(3, SGE, l, r) && code[4] == ICmp(4, SLT, l, r);
    GlobalLoadable(p, I32One, IntC(32, 1));
    GlobalLoadable(p, I32Two, IntC(32, 2));
    TwoLoads(fuel, p, f, code, 0, K0(), I32One, I32Two, I32, IntV(32, 1), IntV(32, 2));
    var c2 := K0().(regs := map[0 := IntV(32, 1), 1 := IntV(32, 2)]);
    ThreeICmps(fuel, p, f, code, 2, c2, 0, 1, 1, 2, SGT, SGE, SLT);
  }

  /** The registers after the "unsigned" pair's loads and first three
      comparisons. */
  function K13(): Ctx {
    K8().(regs := K8().regs[8 := IntV(32, 1)][9 := IntV(32, 2)][10 := Bit(false)][11 := Bit(false)][12 := Bit(true)])
  }

  /** The "unsigned" pair: loaded, then compared with the same signed
      predicates. */
  lemma UnsignedPart(fuel: nat, p: Program, f: Function, code: seq<Instr>)
    requires code == MainListing() && LoadsAsDefined(p.globals)
    ensures ExecCode(fuel, p, f, code, 8, K8()) == ExecCode(fuel, p, f, code, 16, K16())
  {
    var l, r := Reg(8, I32), Reg(9, I32);
    UnsignedLoads(fuel, p, f, code);
    assert code[13] == ICmp(13, SLE, l, r) && code[14] == ICmp(14, EQ, l, r) && code[15] == ICmp(15, NE, l, r);
    UnsignedLastCmps(fuel, p, f, code);
  }

  /** The last three comparisons of the "unsigned" pair. */
  lemma UnsignedLastCmps(fuel: nat, p: Program, f: Function, code: seq<Instr>)
    requires |code| == 25 && code[13] == ICmp(13, SLE, Reg(8, I32), Reg(9, I32)) &&
      code[14] == ICmp(14, EQ, Reg(8, I32), Reg(9, I32)) && code[15] == ICmp(15, NE, Reg(8, I32), Reg(9, I32))
    ensures ExecCode(fuel, p, f, code, 13, K13()) == ExecCode(fuel, p, f, code, 16, K16())
  {
    ThreeICmps(fuel, p, f, code, 13, K13(), 8, 9, 1, 2, SLE, EQ, NE);
  }

  lemma UnsignedLoads(fuel: nat, p: Program, f: Function, code: seq<Instr>)
    requires code == MainListing() && LoadsAsDefined(p.globals)
    ensures ExecCode(fuel, p, f, code, 8, K8()) == ExecCode(fuel, p, f, code, 13, K13())
  {
    var l, r := Reg(8, I32), Reg(9, I32);
    assert |code| == 25 && code[8] == Load(8, I32, GlobalV(UI32One, I32)) && code[9] == Load(9, I32, GlobalV(UI32Two, I32));
    assert code[10] == ICmp(10, SGT, l, r) && code[11] == ICmp(11, SGE, l, r) && code[12] == ICmp(12, SLT, l, r);
    GlobalLoadable(p, UI32One, IntC(32, 1));
    GlobalLoadable(p, UI32Two, IntC(32, 2));
    TwoLoads(fuel, p, f, code, 8, K8(), UI32One, UI32Two, I32, IntV(32, 1), IntV(32, 2));
    var c10 := K8().(regs := K8().regs[8 := IntV(32, 1)][9 := IntV(32, 2)]);
    ThreeICmps(fuel, p, f, code, 10, c10, 8, 9, 1, 2, SGT, SGE, SLT);
  }

  function K21(): Ctx {
    K16().(regs := K16().regs[16 := FloatV(1.0)][17 := FloatV(2.0)][18 := Undetermined][19 := Undetermined][20 := Undetermined])
  }

  /** The float pair: loaded, then compared six ways. */
  lemma FloatPart(fuel: nat, p: Program, f: Function, code: seq<Instr>)
    requires code == MainListing() && LoadsAsDefined(p.globals)
    ensures ExecCode(fuel, p, f, code, 16, K16()) == ExecCode(fuel, p, f, code, 24, K24())
  {
    var l, r := Reg(16, Float), Reg(17, Float);
    FloatLoads(fuel, p, f, code);
    assert code[21] == FCmp(21, OLE, l, r) && code[22] == FCmp(22, ONE, l, r) && code[23] == FCmp(23, UNE, l, r);
    FloatLastCmps(fuel, p, f, code);
  }

  /** The last three comparisons of the float pair. */
  lemma FloatLastCmps(fuel: nat, p: Program, f: Function, code: seq<Instr>)
    requires |code| == 25 && code[21] == FCmp(21, OLE, Reg(16, Float), Reg(17, Float)) &&
      code[22] == FCmp(22, ONE, Reg(16, Float), Reg(17, Float)) && code[23] == FCmp(23, UNE, Reg(16, Float), Reg(17, Float))
    ensures ExecCode(fuel, p, f, code, 21, K21()) == ExecCode(fuel, p, f, code, 24, K24())
  {
    ThreeFCmps(fuel, p, f, code, 21, K21(), 16, 17, 1.0, 2.0, OLE, ONE, UNE);
  }

  lemma FloatLoads(fuel: nat, p: Program, f: Function, code: seq<Instr>)
    requires code == MainListing() && LoadsAsDefined(p.globals)
    ensures ExecCode(fuel, p, f, code, 16, K16()) == ExecCode(fuel, p, f, code, 21, K21())
  {
    var l, r := Reg(16, Float), Reg(17, Float);
    assert |code| == 25 && code[16] == Load(16, Float, GlobalV(FOne, Float)) && code[17] == Load(17, Float, GlobalV(FTwo, Float));
    assert code[18] == FCmp(18, OGT, l, r) && code[19] == FCmp(19, OGE, l, r) && code[20] == FCmp(20, OLT, l, r);
    GlobalLoadable(p, FOne, FloatC(Float, 1.0));
    GlobalLoadable(p, FTwo, FloatC(Float, 2.0));
    TwoLoads(fuel, p, f, code, 16, K16(), FOne, FTwo, Float, FloatV(1.0), FloatV(2.0));
    var c18 := K16().(regs := K16().regs[16 := FloatV(1.0)][17 := FloatV(2.0)]);
    ThreeFCmps(fuel, p, f, code, 18, c18, 16, 17, 1.0, 2.0, OGT, OGE, OLT);
  }

  /** `return i32_1;` */
  lemma CompareTail(fuel: nat, p: Program, f: Function, code: seq<Instr>)
    requires |code| == 25 && code[24] == Ret(Reg(0, I32))
    ensures ExecCode(fuel, p, f, code, 24, K24()) == Returned(InitialMem, Some(IntV(32, 1)))
  {
  }

  /** The comparisons of 1 with 2 in the state after both integer pairs:
      `<`, `<=` and `!=` hold, `>`, `>=` and `==` do not, for the signed
      pair (registers 2 to 7) and the "unsigned" pair (10 to 15) alike. */
  lemma IntVerdicts()
    ensures var r := K16().regs;
      r[2] == Bit(false) && r[3] == Bit(false) && r[4] == Bit(true) && r[5] == Bit(true) && r[6] == Bit(false) && r[7] == Bit(true) &&
      r[10] == Bit(false) && r[11] == Bit(false) && r[12] == Bit(true) && r[13] == Bit(true) && r[14] == Bit(false) && r[15] == Bit(true)
  {
  }

  /** With any fuel, `main` reaches the state of `IntVerdicts` after its
      sixteen integer instructions. */
  lemma {:induction false} ComparisonsEvaluate(fuel: nat)
    ensures var code := MainListing();
      ExecCode(fuel, CompareProgram(), MainFunction(), code, 0, K0()) == ExecCode(fuel, CompareProgram(), MainFunction(), code, 16, K16())
  {
    CompareGlobalsLoad();
    SignedPart(fuel, CompareProgram(), MainFunction(), MainListing());
    UnsignedPart(fuel, CompareProgram(), MainFunction(), MainListing());
  }

  /** With any fuel, `main` runs its 24 instructions, stores nothing and
      returns `i32_1`'s 1. */
  lemma {:induction false} MainReturnsOne(fuel: nat)
    ensures Run(fuel, CompareProgram(), MainName, [], InitialMem) == Returned(InitialMem, Some(IntV(32, 1)))
  {
    var p, f, code := CompareProgram(), MainFunction(), MainListing();
    CompareGlobalsLoad();
    SignedPart(fuel, p, f, code);
    UnsignedPart(fuel, p, f, code);
    FloatPart(fuel, p, f, code);
    assert |code| == 25 && code[24] == Ret(Reg(0, I32));
    CompareTail(fuel, p, f, code);
  }
}
