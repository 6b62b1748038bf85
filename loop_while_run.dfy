/** What the `while` loop demo's module does when it runs: the same sum as
    the `for` loop demo, with the increment folded into the body block, so
    two jumps per round instead of three. */
module LoopWhileRun {
  import opened Wrappers
  import opened Ir
  import opened Interp
  import opened Exec
  import LoopFor
  import opened LoopWhile
  import opened LoopForRun

  /** The body block: `result = result + index;`, `index = index + 1`
      and the jump back to the condition block. */
  predicate WhileBodyShape(code: seq<Instr>) {
    |code| == 8 && SumShape(code) && IncShapeAt(code, 4) && code[7] == Br(1)
  }

  /** The loop's three blocks, as `main` has them. */
  predicate WhileShaped(f: Function) {
    |f.blocks| == 4 && CondShape(f.blocks[1].code, 3) && WhileBodyShape(f.blocks[2].code) && EndShape(f.blocks[3].code)
  }

  lemma BodyListingShaped()
    ensures WhileBodyShape(LoopWhile.BodyListing())
  {
  }

  lemma MainWhileShaped()
    ensures WhileShaped(LoopWhile.MainFunction())
  {
    var bs := LoopWhile.MainFunction().blocks;
    BodyListingShaped();
    assert bs[1].code == LoopWhile.CondListing() && bs[2].code == LoopWhile.BodyListing() && bs[3].code == LoopFor.EndListing();
  }

  /** The first half of the body block: the sum stored into `result`. */
  lemma WhileSumPart(fuel: nat, p: Program, f: Function, regs: map<nat, Val>, m: Mem, i: int, r: int)
    requires 2 < |f.blocks| && SumShape(f.blocks[2].code) && AtCondition(p, regs, m, i, r) && InSignedRange(32, r + i)
    ensures ExecBlock(fuel, p, f, 2, Ctx([], regs, m)) == ExecCode(fuel, p, f, f.blocks[2].code, 4, Ctx([], BodyRegs(regs, i, r), BodyMem(m, i, r)))
  {
    var code := f.blocks[2].code;
    BodySteps(p, code, regs, m, i, r);
    ExecSteps(fuel, p, f, code, 0, 4, Ctx([], regs, m), Ctx([], BodyRegs(regs, i, r), BodyMem(m, i, r)));
  }

  /** After the sum the three cells are still in place, `result` grown by
      `index`. */
  lemma SumWritten(p: Program, regs: map<nat, Val>, m: Mem, i: int, r: int)
    requires AtCondition(p, regs, m, i, r)
    ensures AtCondition(p, BodyRegs(regs, i, r), BodyMem(m, i, r), i, r + i)
  {
    ResultWritten(p, regs, BodyRegs(regs, i, r), m, i, r, r + i);
  }

  /** The second half, after the sum: `index` incremented and the jump
      back. */
  lemma WhileIncPart(fuel: nat, p: Program, f: Function, regs: map<nat, Val>, m: Mem, i: int, r: int)
    requires 2 < |f.blocks| && |f.blocks[2].code| == 8 && IncShapeAt(f.blocks[2].code, 4) && f.blocks[2].code[7] == Br(1)
    requires AtCondition(p, regs, m, i, r) && InSignedRange(32, i + 1) && fuel >= 1
    ensures ExecCode(fuel, p, f, f.blocks[2].code, 4, Ctx([], regs, m)) == ExecBlock(fuel - 1, p, f, 1, Ctx([], IncRegs(regs, i), IncMem(m, i)))
  {
    var code := f.blocks[2].code;
    IncSteps(p, code, 4, 7, regs, m, i, r);
    ExecSteps(fuel, p, f, code, 4, 7, Ctx([], regs, m), Ctx([], IncRegs(regs, i), IncMem(m, i)));
  }

  /** The two halves from every state that has the loop's three cells. */
  ghost predicate SumPartHolds(p: Program, f: Function) {
    2 < |f.blocks| &&
    forall fuel: nat, regs: map<nat, Val>, m: Mem, i: int, r: int |
      AtCondition(p, regs, m, i, r) && InSignedRange(32, r + i) ::
      ExecBlock(fuel, p, f, 2, Ctx([], regs, m)) == ExecCode(fuel, p, f, f.blocks[2].code, 4, Ctx([], BodyRegs(regs, i, r), BodyMem(m, i, r)))
  }

  ghost predicate IncPartHolds(p: Program, f: Function) {
    2 < |f.blocks| &&
    forall fuel: nat, regs: map<nat, Val>, m: Mem, i: int, r: int |
      AtCondition(p, regs, m, i, r) && InSignedRange(32, i + 1) && fuel >= 1 ::
      ExecCode(fuel, p, f, f.blocks[2].code, 4, Ctx([], regs, m)) == ExecBlock(fuel - 1, p, f, 1, Ctx([], IncRegs(regs, i), IncMem(m, i)))
  }

  lemma PartsHold(p: Program, f: Function)
    requires 2 < |f.blocks| && WhileBodyShape(f.blocks[2].code)
    ensures SumPartHolds(p, f) && IncPartHolds(p, f)
  {
    forall fuel: nat, regs: map<nat, Val>, m: Mem, i: int, r: int |
      AtCondition(p, regs, m, i, r) && InSignedRange(32, r + i)
      ensures ExecBlock(fuel, p, f, 2, Ctx([], regs, m)) == ExecCode(fuel, p, f, f.blocks[2].code, 4, Ctx([], BodyRegs(regs, i, r), BodyMem(m, i, r)))
    {
      WhileSumPart(fuel, p, f, regs, m, i, r);
    }
    forall fuel: nat, regs: map<nat, Val>, m: Mem, i: int, r: int |
      AtCondition(p, regs, m, i, r) && InSignedRange(32, i + 1) && fuel >= 1
      ensures ExecCode(fuel, p, f, f.blocks[2].code, 4, Ctx([], regs, m)) == ExecBlock(fuel - 1, p, f, 1, Ctx([], IncRegs(regs, i), IncMem(m, i)))
    {
      WhileIncPart(fuel, p, f, regs, m, i, r);
    }
  }

  /** The body block, from the condition's state back to the condition
      block: `result` grows by `index`, then `index` by one. */
  lemma WhileBodyBlock(fuel: nat, p: Program, f: Function, regs: map<nat, Val>, m: Mem, i: int, r: int)
    requires SumPartHolds(p, f) && IncPartHolds(p, f) && AtCondition(p, regs, m, i, r)
    requires InSignedRange(32, r + i) && InSignedRange(32, i + 1) && fuel >= 1
    ensures ExecBlock(fuel, p, f, 2, Ctx([], regs, m)) ==
      ExecBlock(fuel - 1, p, f, 1, Ctx([], IncRegs(BodyRegs(regs, i, r), i), IncMem(BodyMem(m, i, r), i)))
  {
    SumWritten(p, regs, m, i, r);
  }

  /** What the body block does from every state that has the loop's
      three cells. */
  ghost predicate WhileBodyHolds(p: Program, f: Function) {
    forall fuel: nat, regs: map<nat, Val>, m: Mem, i: int, r: int |
      AtCondition(p, regs, m, i, r) && InSignedRange(32, r + i) && InSignedRange(32, i + 1) && fuel >= 1 ::
      ExecBlock(fuel, p, f, 2, Ctx([], regs, m)) ==
      ExecBlock(fuel - 1, p, f, 1, Ctx([], IncRegs(BodyRegs(regs, i, r), i), IncMem(BodyMem(m, i, r), i)))
  }

  lemma WhileBodyBlockHolds(p: Program, f: Function)
    requires 2 < |f.blocks| && WhileBodyShape(f.blocks[2].code)
    ensures WhileBodyHolds(p, f)
  {
    PartsHold(p, f);
    forall fuel: nat, regs: map<nat, Val>, m: Mem, i: int, r: int |
      AtCondition(p, regs, m, i, r) && InSignedRange(32, r + i) && InSignedRange(32, i + 1) && fuel >= 1
      ensures ExecBlock(fuel, p, f, 2, Ctx([], regs, m)) ==
        ExecBlock(fuel - 1, p, f, 1, Ctx([], IncRegs(BodyRegs(regs, i, r), i), IncMem(BodyMem(m, i, r), i)))
    {
      WhileBodyBlock(fuel, p, f, regs, m, i, r);
    }
  }

  /** The loop's three blocks behave as the lemmas above say. */
  ghost predicate WhileHolds(p: Program, f: Function) {
    CondHolds(p, f, 3) && WhileBodyHolds(p, f) && EndHolds(p, f, 3)
  }

  lemma MainWhileHolds(p: Program)
    ensures WhileHolds(p, LoopWhile.MainFunction())
  {
    MainWhileShaped();
    CondBlockHolds(p, LoopWhile.MainFunction(), 3);
    WhileBodyBlockHolds(p, LoopWhile.MainFunction());
    EndBlockHolds(p, LoopWhile.MainFunction(), 3);
  }

  /** One round from the condition block back to it: two units of fuel,
      and the same registers and memory as a round of the `for` loop. */
  lemma WhileRound(fuel: nat, p: Program, f: Function, regs: map<nat, Val>, m: Mem, i: int, r: int)
    requires WhileHolds(p, f) && AtCondition(p, regs, m, i, r) && i <= 10 && InSignedRange(32, r + i) && InSignedRange(32, i + 1)
    requires fuel >= 2
    ensures ExecBlock(fuel, p, f, 1, Ctx([], regs, m)) == ExecBlock(fuel - 2, p, f, 1, Ctx([], RoundRegs(regs, i, r), RoundMem(m, i, r)))
  {
    assert AtCondition(p, CondRegs(regs, i), m, i, r);
    assert ExecBlock(fuel, p, f, 1, Ctx([], regs, m)) == ExecBlock(fuel - 1, p, f, 2, Ctx([], CondRegs(regs, i), m));
  }

  /** The fuel the loop needs from the condition block with `index` at `i`:
      two per remaining round and one for the final test. */
  function WhileFuel(i: int): int { 2 * (11 - i) + 1 }

  /** The loop invariant: at the condition block with `result` the sum of
      the indices below `index`, the loop, given the fuel for its remaining
      rounds, ends returning 55. */
  lemma {:induction false} WhileLoop(fuel: nat, p: Program, f: Function, regs: map<nat, Val>, m: Mem, i: int)
    requires WhileHolds(p, f) && 1 <= i <= 11 && AtCondition(p, regs, m, i, SumTo(i - 1)) && fuel >= WhileFuel(i)
    ensures ExecBlock(fuel, p, f, 1, Ctx([], regs, m)) == Returned(LoopMem(m, i), Some(IntV(32, 55)))
    decreases 11 - i
  {
    if i == 11 {
      LoopExit(fuel, p, f, 3, regs, m);
    } else {
      var r := SumTo(i - 1);
      NextAtCondition(p, regs, m, i);
      WhileLoop(fuel - 2, p, f, RoundRegs(regs, i, r), RoundMem(m, i, r), i + 1);
      WhileLoopStep(fuel, p, f, regs, m, i);
    }
  }

  /** One round, then the rest of the loop. */
  lemma WhileLoopStep(fuel: nat, p: Program, f: Function, regs: map<nat, Val>, m: Mem, i: int)
    requires WhileHolds(p, f) && 1 <= i <= 10 && AtCondition(p, regs, m, i, SumTo(i - 1)) && fuel >= WhileFuel(i)
    requires ExecBlock(fuel - 2, p, f, 1, Ctx([], RoundRegs(regs, i, SumTo(i - 1)), RoundMem(m, i, SumTo(i - 1)))) ==
      Returned(LoopMem(RoundMem(m, i, SumTo(i - 1)), i + 1), Some(IntV(32, 55)))
    ensures ExecBlock(fuel, p, f, 1, Ctx([], regs, m)) == Returned(LoopMem(m, i), Some(IntV(32, 55)))
  {
    var r := SumTo(i - 1);
    SumToAtMost55(i);
    SumToTen();
    SmallInI32(r + i);
    SmallInI32(i + 1);
    WhileRound(fuel, p, f, regs, m, i, r);
    RoundThenLoopMem(m, i, r);
  }

  /** Given fuel for its 11 jumps to the condition block and 10 to the
      body, `main` returns 55, the sum 1 + 2 + ... + 10, and leaves
      `result` at 55 and `index` at 11: what the `for` loop demo's `main`
      returns and leaves. */
  lemma {:induction false} MainReturns55(fuel: nat)
    requires fuel >= 22
    ensures Run(fuel, LoopWhileProgram(), LoopWhile.MainName, [], InitialMem) == Returned(FinalMem(), Some(IntV(32, 55)))
  {
    var p := LoopWhileProgram();
    assert LoopWhile.MainFunction().blocks[0].code == LoopFor.EntryListing();
    EntryBlock(fuel, p, LoopWhile.MainFunction());
    MainWhileHolds(p);
    WhileLoop(fuel - 1, p, LoopWhile.MainFunction(), EntryRegs(), EntryMem(), 1);
    assert LoopMem(EntryMem(), 1) == FinalMem();
  }
}
