/** What the `for` loop demo's module does when it runs: the loop adds the
    indices 1 to 10 into `result`, leaves the index at 11 and `main`
    returns 55, once it has fuel for the ten rounds. */
module LoopForRun {
  import opened Wrappers
  import opened Ir
  import opened Interp
  import opened Exec
  import opened Builder
  import opened LoopFor

  /** The `index` slot: the only stack slot. */
  function IndexAddr(): Addr { ObjAddr(StackObj(0)) }

  function ResultAddr(): Addr { ObjAddr(GlobalObj(ResultName)) }

  function EndAddr(): Addr { ObjAddr(GlobalObj(EndName)) }

  /** The sum of the indices 1 to `k`. */
  function SumTo(k: nat): nat {
    if k == 0 then 0 else SumTo(k - 1) + k
  }

  /** The partial sums up to 10 stay at or below 55. */
  lemma {:induction false} SumToAtMost55(k: nat)
    requires k <= 10
    ensures SumTo(k) <= 55
    decreases 10 - k
  {
    if k < 10 {
      SumToAtMost55(k + 1);
    } else {
      assert SumTo(5) == 15;
    }
  }

  /** The two globals the loop reads and writes, as the module defines them. */
  predicate GlobalsKept(gs: map<string, Global>) {
    EndName in gs && gs[EndName] == I32Global(10) && ResultName in gs && gs[ResultName] == I32Global(0)
  }

  /** The state at the top of the condition block, with `index` holding
      `i` and `result` holding `r`: register 0 is the index slot, the one
      stack slot holds an i32. */
  predicate AtCondition(p: Program, regs: map<nat, Val>, m: Mem, i: int, r: int) {
    GlobalsKept(p.globals) && 0 in regs && regs[0] == PtrV(IndexAddr()) && m.stack == [I32] &&
    Read(p, m, IndexAddr()) == Some(IntV(32, i)) && Read(p, m, ResultAddr()) == Some(IntV(32, r)) &&
    Read(p, m, EndAddr()) == Some(IntV(32, 10))
  }

  /** Writing `result` keeps the other two cells and updates the sum. */
  lemma ResultWritten(p: Program, regs: map<nat, Val>, regs2: map<nat, Val>, m: Mem, i: int, r: int, v: int)
    requires AtCondition(p, regs, m, i, r) && 0 in regs2 && regs2[0] == regs[0]
    ensures AtCondition(p, regs2, m.(cells := m.cells[ResultAddr() := IntV(32, v)]), i, v)
  {
  }

  /** Writing `index` keeps the other two cells and updates the index. */
  lemma IndexWritten(p: Program, regs: map<nat, Val>, regs2: map<nat, Val>, m: Mem, i: int, r: int, v: int)
    requires AtCondition(p, regs, m, i, r) && 0 in regs2 && regs2[0] == regs[0]
    ensures AtCondition(p, regs2, m.(cells := m.cells[IndexAddr() := IntV(32, v)]), v, r)
  {
  }

  /** The registers after the condition block: the two loads and the
      comparison. */
  function CondRegs(regs: map<nat, Val>, i: int): map<nat, Val> {
    regs[2 := IntV(32, i)][3 := IntV(32, 10)][4 := Bit(i <= 10)]
  }

  /** The registers after the body block: the two loads and the sum. */
  function BodyRegs(regs: map<nat, Val>, i: int, r: int): map<nat, Val> {
    regs[5 := IntV(32, r)][6 := IntV(32, i)][7 := IntV(32, r + i)]
  }

  /** The memory after the body block: `result` written. */
  function BodyMem(m: Mem, i: int, r: int): Mem {
    m.(cells := m.cells[ResultAddr() := IntV(32, r + i)])
  }

  /** The registers after the increment block: the load and the sum. */
  function IncRegs(regs: map<nat, Val>, i: int): map<nat, Val> {
    regs[8 := IntV(32, i)][9 := IntV(32, i + 1)]
  }

  /** The memory after the increment block: `index` written. */
  function IncMem(m: Mem, i: int): Mem {
    m.(cells := m.cells[IndexAddr() := IntV(32, i + 1)])
  }

  /** The registers after one round of the loop. */
  function RoundRegs(regs: map<nat, Val>, i: int, r: int): map<nat, Val> {
    IncRegs(BodyRegs(CondRegs(regs, i), i, r), i)
  }

  /** The memory after one round: `result` and then `index` written. */
  function RoundMem(m: Mem, i: int, r: int): Mem {
    IncMem(BodyMem(m, i, r), i)
  }

  // The instructions of each block, as index facts: what the proofs below
  // need of the function they run.

  /** `index <= end`, at the head of a block. */
  predicate CompareShape(code: seq<Instr>) {
    |code| >= 3 && code[0] == Load(2, I32, Reg(0, P)) && code[1] == Load(3, I32, GlobalV(EndName, I32)) &&
    code[2] == ICmp(4, SLE, Reg(2, I32), Reg(3, I32))
  }

  /** The condition block, leaving for block `exit` when the test fails. */
  predicate CondShape(code: seq<Instr>, exit: nat) {
    |code| == 4 && CompareShape(code) && code[3] == CondBr(Reg(4, I1), 2, exit)
  }

  /** `result = result + index;`, at the head of a block. */
  predicate SumShape(code: seq<Instr>) {
    |code| >= 4 && code[0] == Load(5, I32, GlobalV(ResultName, I32)) && code[1] == Load(6, I32, Reg(0, P)) &&
    code[2] == AddNsw(7, Reg(5, I32), Reg(6, I32)) && code[3] == Store(Reg(7, I32), GlobalV(ResultName, I32))
  }

  predicate BodyShape(code: seq<Instr>) {
    |code| == 5 && SumShape(code) && code[4] == Br(3)
  }

  /** `index = index + 1`, from instruction `at` on. */
  predicate IncShapeAt(code: seq<Instr>, at: nat) {
    at + 3 <= |code| && code[at] == Load(8, I32, Reg(0, P)) && code[at + 1] == AddNsw(9, Reg(8, I32), I32C(1)) &&
    code[at + 2] == Store(Reg(9, I32), Reg(0, P))
  }

  predicate IncShape(code: seq<Instr>) {
    |code| == 4 && IncShapeAt(code, 0) && code[3] == Br(1)
  }

  predicate EndShape(code: seq<Instr>) {
    |code| == 2 && code[0] == Load(10, I32, GlobalV(ResultName, I32)) && code[1] == Ret(Reg(10, I32))
  }

  /** The loop's four blocks, as `main` has them. */
  predicate LoopShaped(f: Function) {
    |f.blocks| == 5 && CondShape(f.blocks[1].code, 4) && BodyShape(f.blocks[2].code) && IncShape(f.blocks[3].code) &&
    EndShape(f.blocks[4].code)
  }

  lemma MainLoopShaped()
    ensures LoopShaped(MainFunction())
  {
    var bs := MainFunction().blocks;
    assert bs[1].code == CondListing() && bs[2].code == BodyListing() && bs[3].code == IncListing() && bs[4].code == EndListing();
  }

  lemma MainLoopHolds(p: Program)
    ensures LoopHolds(p, MainFunction())
  {
    MainLoopShaped();
    CondBlockHolds(p, MainFunction(), 4);
    BodyBlockHolds(p, MainFunction());
    IncBlockHolds(p, MainFunction());
    EndBlockHolds(p, MainFunction(), 4);
  }

  /** `index <= end` evaluated. */
  lemma CondSteps(p: Program, code: seq<Instr>, regs: map<nat, Val>, m: Mem, i: int, r: int)
    requires CompareShape(code) && AtCondition(p, regs, m, i, r)
    ensures Steps(p, code, 0, 3, Ctx([], regs, m), Ctx([], CondRegs(regs, i), m))
  {
    var c0 := Ctx([], regs, m);
    var c1 := LoadStep(p, code, 0, 2, I32, Reg(0, P), c0, IndexAddr(), IntV(32, i));
    var c2 := LoadStep(p, code, 1, 3, I32, GlobalV(EndName, I32), c1, EndAddr(), IntV(32, 10));
    var c3 := ICmpStep(p, code, 2, 4, SLE, Reg(2, I32), Reg(3, I32), c2, 32, i, 10);
    StepsOne(p, code, 2, 3, c2, c3, c3);
    StepsOne(p, code, 1, 3, c1, c2, c3);
    StepsOne(p, code, 0, 3, c0, c1, c3);
  }

  /** `result = result + index;` */
  lemma BodySteps(p: Program, code: seq<Instr>, regs: map<nat, Val>, m: Mem, i: int, r: int)
    requires SumShape(code) && AtCondition(p, regs, m, i, r) && InSignedRange(32, r + i)
    ensures Steps(p, code, 0, 4, Ctx([], regs, m), Ctx([], BodyRegs(regs, i, r), BodyMem(m, i, r)))
  {
    var c0 := Ctx([], regs, m);
    var c1 := LoadStep(p, code, 0, 5, I32, GlobalV(ResultName, I32), c0, ResultAddr(), IntV(32, r));
    var c2 := LoadStep(p, code, 1, 6, I32, Reg(0, P), c1, IndexAddr(), IntV(32, i));
    BodyAddStore(p, code, regs, m, i, r);
    StepsOne(p, code, 1, 4, c1, c2, Ctx([], BodyRegs(regs, i, r), BodyMem(m, i, r)));
    StepsOne(p, code, 0, 4, c0, c1, Ctx([], BodyRegs(regs, i, r), BodyMem(m, i, r)));
  }

  /** The sum and its store, once both operands are loaded. */
  lemma BodyAddStore(p: Program, code: seq<Instr>, regs: map<nat, Val>, m: Mem, i: int, r: int)
    requires SumShape(code) && AtCondition(p, regs, m, i, r) && InSignedRange(32, r + i)
    ensures Steps(p, code, 2, 4, Ctx([], regs[5 := IntV(32, r)][6 := IntV(32, i)], m), Ctx([], BodyRegs(regs, i, r), BodyMem(m, i, r)))
  {
    var c2 := Ctx([], regs[5 := IntV(32, r)][6 := IntV(32, i)], m);
    var c3 := AddStep(p, code, 2, 7, Reg(5, I32), Reg(6, I32), c2, 32, r, i);
    var c4 := StoreStep(p, code, 3, Reg(7, I32), GlobalV(ResultName, I32), c3, IntV(32, r + i), ResultAddr());
    StepsOne(p, code, 3, 4, c3, c4, c4);
    StepsOne(p, code, 2, 4, c2, c3, c4);
  }

  /** `index = index + 1`. */
  lemma IncSteps(p: Program, code: seq<Instr>, at: nat, hi: nat, regs: map<nat, Val>, m: Mem, i: int, r: int)
    requires IncShapeAt(code, at) && hi == at + 3 && AtCondition(p, regs, m, i, r) && InSignedRange(32, i + 1)
    ensures Steps(p, code, at, hi, Ctx([], regs, m), Ctx([], IncRegs(regs, i), IncMem(m, i)))
  {
    var c0 := Ctx([], regs, m);
    var c1 := LoadStep(p, code, at, 8, I32, Reg(0, P), c0, IndexAddr(), IntV(32, i));
    var c2 := AddStep(p, code, at + 1, 9, Reg(8, I32), I32C(1), c1, 32, i, 1);
    var c3 := StoreStep(p, code, at + 2, Reg(9, I32), Reg(0, P), c2, IntV(32, i + 1), IndexAddr());
    StepsOne(p, code, at + 2, at + 3, c2, c3, c3);
    StepsOne(p, code, at + 1, at + 3, c1, c2, c3);
    StepsOne(p, code, at, at + 3, c0, c1, c3);
  }

  /** The condition block: to the body block with `index <= end`, to the
      end block `exit` otherwise, for one unit of fuel. */
  lemma CondBlock(fuel: nat, p: Program, f: Function, exit: nat, regs: map<nat, Val>, m: Mem, i: int, r: int)
    requires 1 < |f.blocks| && CondShape(f.blocks[1].code, exit) && AtCondition(p, regs, m, i, r) && fuel >= 1
    ensures ExecBlock(fuel, p, f, 1, Ctx([], regs, m)) == ExecBlock(fuel - 1, p, f, if i <= 10 then 2 else exit, Ctx([], CondRegs(regs, i), m))
  {
    var code := f.blocks[1].code;
    CondSteps(p, code, regs, m, i, r);
    ExecSteps(fuel, p, f, code, 0, 3, Ctx([], regs, m), Ctx([], CondRegs(regs, i), m));
  }

  /** The body block, then the jump to the increment block. */
  lemma BodyBlock(fuel: nat, p: Program, f: Function, regs: map<nat, Val>, m: Mem, i: int, r: int)
    requires 2 < |f.blocks| && BodyShape(f.blocks[2].code) && AtCondition(p, regs, m, i, r) && InSignedRange(32, r + i) && fuel >= 1
    ensures ExecBlock(fuel, p, f, 2, Ctx([], regs, m)) == ExecBlock(fuel - 1, p, f, 3, Ctx([], BodyRegs(regs, i, r), BodyMem(m, i, r)))
  {
    var code := f.blocks[2].code;
    BodySteps(p, code, regs, m, i, r);
    ExecSteps(fuel, p, f, code, 0, 4, Ctx([], regs, m), Ctx([], BodyRegs(regs, i, r), BodyMem(m, i, r)));
  }

  /** The increment block, then the jump back to the condition block. */
  lemma IncBlock(fuel: nat, p: Program, f: Function, regs: map<nat, Val>, m: Mem, i: int, r: int)
    requires 3 < |f.blocks| && IncShape(f.blocks[3].code) && AtCondition(p, regs, m, i, r) && InSignedRange(32, i + 1) && fuel >= 1
    ensures ExecBlock(fuel, p, f, 3, Ctx([], regs, m)) == ExecBlock(fuel - 1, p, f, 1, Ctx([], IncRegs(regs, i), IncMem(m, i)))
  {
    var code := f.blocks[3].code;
    IncSteps(p, code, 0, 3, regs, m, i, r);
    ExecSteps(fuel, p, f, code, 0, 3, Ctx([], regs, m), Ctx([], IncRegs(regs, i), IncMem(m, i)));
  }

  /** The end block `b` returns `result` and changes nothing. */
  lemma EndBlock(fuel: nat, p: Program, f: Function, b: nat, regs: map<nat, Val>, m: Mem, i: int, r: int)
    requires b < |f.blocks| && EndShape(f.blocks[b].code) && AtCondition(p, regs, m, i, r)
    ensures ExecBlock(fuel, p, f, b, Ctx([], regs, m)) == Returned(m, Some(IntV(32, r)))
  {
    var code := f.blocks[b].code;
    var c0 := Ctx([], regs, m);
    var c1 := LoadStep(p, code, 0, 10, I32, GlobalV(ResultName, I32), c0, ResultAddr(), IntV(32, r));
    StepsOne(p, code, 0, 1, c0, c1, c1);
    ExecSteps(fuel, p, f, code, 0, 1, c0, c1);
  }

  // What each block does from every state that has the loop's three
  // cells: the block lemmas above, quantified, so that the rounds below
  // can use them without the blocks' instructions.

  ghost predicate CondHolds(p: Program, f: Function, exit: nat) {
    forall fuel: nat, regs: map<nat, Val>, m: Mem, i: int, r: int | AtCondition(p, regs, m, i, r) && fuel >= 1 ::
      ExecBlock(fuel, p, f, 1, Ctx([], regs, m)) == ExecBlock(fuel - 1, p, f, if i <= 10 then 2 else exit, Ctx([], CondRegs(regs, i), m))
  }

  ghost predicate BodyHolds(p: Program, f: Function) {
    forall fuel: nat, regs: map<nat, Val>, m: Mem, i: int, r: int | AtCondition(p, regs, m, i, r) && InSignedRange(32, r + i) && fuel >= 1 ::
      ExecBlock(fuel, p, f, 2, Ctx([], regs, m)) == ExecBlock(fuel - 1, p, f, 3, Ctx([], BodyRegs(regs, i, r), BodyMem(m, i, r)))
  }

  ghost predicate IncHolds(p: Program, f: Function) {
    forall fuel: nat, regs: map<nat, Val>, m: Mem, i: int, r: int | AtCondition(p, regs, m, i, r) && InSignedRange(32, i + 1) && fuel >= 1 ::
      ExecBlock(fuel, p, f, 3, Ctx([], regs, m)) == ExecBlock(fuel - 1, p, f, 1, Ctx([], IncRegs(regs, i), IncMem(m, i)))
  }

  ghost predicate EndHolds(p: Program, f: Function, b: nat) {
    forall fuel: nat, regs: map<nat, Val>, m: Mem, i: int, r: int | AtCondition(p, regs, m, i, r) ::
      ExecBlock(fuel, p, f, b, Ctx([], regs, m)) == Returned(m, Some(IntV(32, r)))
  }

  /** The loop's four blocks behave as the lemmas above say. */
  ghost predicate LoopHolds(p: Program, f: Function) {
    CondHolds(p, f, 4) && BodyHolds(p, f) && IncHolds(p, f) && EndHolds(p, f, 4)
  }

  lemma CondBlockHolds(p: Program, f: Function, exit: nat)
    requires 1 < |f.blocks| && CondShape(f.blocks[1].code, exit)
    ensures CondHolds(p, f, exit)
  {
    forall fuel: nat, regs: map<nat, Val>, m: Mem, i: int, r: int | AtCondition(p, regs, m, i, r) && fuel >= 1
      ensures ExecBlock(fuel, p, f, 1, Ctx([], regs, m)) == ExecBlock(fuel - 1, p, f, if i <= 10 then 2 else exit, Ctx([], CondRegs(regs, i), m))
    {
      CondBlock(fuel, p, f, exit, regs, m, i, r);
    }
  }

  lemma BodyBlockHolds(p: Program, f: Function)
    requires 2 < |f.blocks| && BodyShape(f.blocks[2].code)
    ensures BodyHolds(p, f)
  {
    forall fuel: nat, regs: map<nat, Val>, m: Mem, i: int, r: int | AtCondition(p, regs, m, i, r) && InSignedRange(32, r + i) && fuel >= 1
      ensures ExecBlock(fuel, p, f, 2, Ctx([], regs, m)) == ExecBlock(fuel - 1, p, f, 3, Ctx([], BodyRegs(regs, i, r), BodyMem(m, i, r)))
    {
      BodyBlock(fuel, p, f, regs, m, i, r);
    }
  }

  lemma IncBlockHolds(p: Program, f: Function)
    requires 3 < |f.blocks| && IncShape(f.blocks[3].code)
    ensures IncHolds(p, f)
  {
    forall fuel: nat, regs: map<nat, Val>, m: Mem, i: int, r: int | AtCondition(p, regs, m, i, r) && InSignedRange(32, i + 1) && fuel >= 1
      ensures ExecBlock(fuel, p, f, 3, Ctx([], regs, m)) == ExecBlock(fuel - 1, p, f, 1, Ctx([], IncRegs(regs, i), IncMem(m, i)))
    {
      IncBlock(fuel, p, f, regs, m, i, r);
    }
  }

  lemma EndBlockHolds(p: Program, f: Function, b: nat)
    requires b < |f.blocks| && EndShape(f.blocks[b].code)
    ensures EndHolds(p, f, b)
  {
    forall fuel: nat, regs: map<nat, Val>, m: Mem, i: int, r: int | AtCondition(p, regs, m, i, r)
      ensures ExecBlock(fuel, p, f, b, Ctx([], regs, m)) == Returned(m, Some(IntV(32, r)))
    {
      EndBlock(fuel, p, f, b, regs, m, i, r);
    }
  }

  /** One round from the condition block back to it: three units of fuel,
      `result` grows by `index` and `index` by one. */
  lemma Round(fuel: nat, p: Program, f: Function, regs: map<nat, Val>, m: Mem, i: int, r: int)
    requires LoopHolds(p, f) && AtCondition(p, regs, m, i, r) && i <= 10 && InSignedRange(32, r + i) && InSignedRange(32, i + 1)
    requires fuel >= 3
    ensures ExecBlock(fuel, p, f, 1, Ctx([], regs, m)) == ExecBlock(fuel - 3, p, f, 1, Ctx([], RoundRegs(regs, i, r), RoundMem(m, i, r)))
  {
    var regs1 := CondRegs(regs, i);
    var regs2 := BodyRegs(regs1, i, r);
    assert AtCondition(p, regs1, m, i, r);
    ResultWritten(p, regs1, regs2, m, i, r, r + i);
    assert ExecBlock(fuel, p, f, 1, Ctx([], regs, m)) == ExecBlock(fuel - 1, p, f, 2, Ctx([], regs1, m));
    assert ExecBlock(fuel - 1, p, f, 2, Ctx([], regs1, m)) == ExecBlock(fuel - 2, p, f, 3, Ctx([], regs2, BodyMem(m, i, r)));
  }

  /** A round keeps the loop's state: `index` one more, `result` grown by
      the old index. */
  lemma RoundKeeps(p: Program, regs: map<nat, Val>, m: Mem, i: int, r: int)
    requires AtCondition(p, regs, m, i, r)
    ensures AtCondition(p, RoundRegs(regs, i, r), RoundMem(m, i, r), i + 1, r + i)
  {
    var regs2 := BodyRegs(CondRegs(regs, i), i, r);
    ResultWritten(p, regs, regs2, m, i, r, r + i);
    IndexWritten(p, regs2, RoundRegs(regs, i, r), BodyMem(m, i, r), i, r + i, i + 1);
  }

  /** The fuel the loop needs from the condition block with `index` at `i`:
      three per remaining round and one for the final test. */
  function LoopFuel(i: int): int { 3 * (11 - i) + 1 }

  /** The memory the loop leaves: `result` holds 55 and `index` 11, unless
      the loop was already done. */
  function LoopMem(m: Mem, i: int): Mem {
    if i == 11 then m else m.(cells := m.cells[ResultAddr() := IntV(32, 55)][IndexAddr() := IntV(32, 11)])
  }

  lemma SumToTen()
    ensures SumTo(10) == 55
  {
    assert SumTo(5) == 15;
  }

  /** The loop invariant: at the condition block with `result` the sum of
      the indices below `index`, the loop, given the fuel for its remaining
      rounds, ends returning 55. */
  lemma {:induction false} Loop(fuel: nat, p: Program, f: Function, regs: map<nat, Val>, m: Mem, i: int)
    requires LoopHolds(p, f) && 1 <= i <= 11 && AtCondition(p, regs, m, i, SumTo(i - 1)) && fuel >= LoopFuel(i)
    ensures ExecBlock(fuel, p, f, 1, Ctx([], regs, m)) == Returned(LoopMem(m, i), Some(IntV(32, 55)))
    decreases 11 - i
  {
    if i == 11 {
      LoopExit(fuel, p, f, 4, regs, m);
    } else {
      var r := SumTo(i - 1);
      NextAtCondition(p, regs, m, i);
      Loop(fuel - 3, p, f, RoundRegs(regs, i, r), RoundMem(m, i, r), i + 1);
      LoopStep(fuel, p, f, regs, m, i);
    }
  }

  /** A round keeps the loop invariant: `result` is the sum of the indices
      below `index`. */
  lemma NextAtCondition(p: Program, regs: map<nat, Val>, m: Mem, i: int)
    requires 1 <= i <= 10 && AtCondition(p, regs, m, i, SumTo(i - 1))
    ensures AtCondition(p, RoundRegs(regs, i, SumTo(i - 1)), RoundMem(m, i, SumTo(i - 1)), i + 1, SumTo(i))
  {
    RoundKeeps(p, regs, m, i, SumTo(i - 1));
  }

  /** One round, then the rest of the loop. */
  lemma LoopStep(fuel: nat, p: Program, f: Function, regs: map<nat, Val>, m: Mem, i: int)
    requires LoopHolds(p, f) && 1 <= i <= 10 && AtCondition(p, regs, m, i, SumTo(i - 1)) && fuel >= LoopFuel(i)
    requires ExecBlock(fuel - 3, p, f, 1, Ctx([], RoundRegs(regs, i, SumTo(i - 1)), RoundMem(m, i, SumTo(i - 1)))) ==
      Returned(LoopMem(RoundMem(m, i, SumTo(i - 1)), i + 1), Some(IntV(32, 55)))
    ensures ExecBlock(fuel, p, f, 1, Ctx([], regs, m)) == Returned(LoopMem(m, i), Some(IntV(32, 55)))
  {
    var r := SumTo(i - 1);
    SumToAtMost55(i);
    SumToTen();
    SmallInI32(r + i);
    SmallInI32(i + 1);
    Round(fuel, p, f, regs, m, i, r);
    RoundThenLoopMem(m, i, r);
  }

  /** With `index` past `end`, the end block `exit` returns `result`. */
  lemma LoopExit(fuel: nat, p: Program, f: Function, exit: nat, regs: map<nat, Val>, m: Mem)
    requires CondHolds(p, f, exit) && EndHolds(p, f, exit) && AtCondition(p, regs, m, 11, SumTo(10)) && fuel >= 1
    ensures ExecBlock(fuel, p, f, 1, Ctx([], regs, m)) == Returned(m, Some(IntV(32, 55)))
  {
    SumToTen();
    assert ExecBlock(fuel, p, f, 1, Ctx([], regs, m)) == ExecBlock(fuel - 1, p, f, exit, Ctx([], CondRegs(regs, 11), m));
    assert AtCondition(p, CondRegs(regs, 11), m, 11, 55);
  }

  /** After one more round the final memory is the same. */
  lemma RoundThenLoopMem(m: Mem, i: int, r: int)
    requires i <= 10 && (i == 10 ==> r + i == 55)
    ensures LoopMem(RoundMem(m, i, r), i + 1) == LoopMem(m, i)
  {
    if i < 10 {
      assert m.cells[ResultAddr() := IntV(32, r + i)][IndexAddr() := IntV(32, i + 1)][ResultAddr() := IntV(32, 55)][IndexAddr() := IntV(32, 11)]
        == m.cells[ResultAddr() := IntV(32, 55)][IndexAddr() := IntV(32, 11)];
    }
  }

  /** The memory `main` leaves: the index slot at 11, `result` at 55. */
  function FinalMem(): Mem { Mem([I32], map[IndexAddr() := IntV(32, 11), ResultAddr() := IntV(32, 55)]) }

  /** The registers after the entry block: the index slot and `start`. */
  function EntryRegs(): map<nat, Val> { map[0 := PtrV(IndexAddr()), 1 := IntV(32, 1)] }

  /** The memory after the entry block: the index slot holds `start`. */
  function EntryMem(): Mem { Mem([I32], map[IndexAddr() := IntV(32, 1)]) }

  /** The entry block: the index slot, `index = start`, and the jump. */
  lemma EntryBlock(fuel: nat, p: Program, f: Function)
    requires p.globals == LoopGlobals() && 1 < |f.blocks| && f.blocks[0].code == EntryListing() && fuel >= 1
    ensures ExecBlock(fuel, p, f, 0, Ctx([], map[], InitialMem)) == ExecBlock(fuel - 1, p, f, 1, Ctx([], EntryRegs(), EntryMem()))
    ensures AtCondition(p, EntryRegs(), EntryMem(), 1, 0)
  {
    var code := EntryListing();
    var c0 := Ctx([], map[], InitialMem);
    var c1 := AllocaStep(p, code, 0, 0, I32, IndexName, c0);
    var c2 := LoadStep(p, code, 1, 1, I32, GlobalV(StartName, I32), c1, ObjAddr(GlobalObj(StartName)), IntV(32, 1));
    var c3 := StoreStep(p, code, 2, Reg(1, I32), Reg(0, P), c2, IntV(32, 1), IndexAddr());
    StepsOne(p, code, 2, 3, c2, c3, c3);
    StepsOne(p, code, 1, 3, c1, c2, c3);
    StepsOne(p, code, 0, 3, c0, c1, c3);
    assert c3 == Ctx([], EntryRegs(), EntryMem());
    ExecSteps(fuel, p, f, code, 0, 3, c0, c3);
  }

  /** Given fuel for its 11 jumps to the condition block, 10 to the body
      and 10 to the increment, `main` returns 55, the sum 1 + 2 + ... + 10,
      and leaves `result` at 55 and `index` at 11. */
  lemma {:induction false} MainReturns55(fuel: nat)
    requires fuel >= 32
    ensures Run(fuel, LoopForProgram(), MainName, [], InitialMem) == Returned(FinalMem(), Some(IntV(32, 55)))
  {
    var p := LoopForProgram();
    assert MainFunction().blocks[0].code == EntryListing();
    EntryBlock(fuel, p, MainFunction());
    MainLoopHolds(p);
    Loop(fuel - 1, p, MainFunction(), EntryRegs(), EntryMem(), 1);
    assert LoopMem(EntryMem(), 1) == FinalMem();
  }
}
