/** What the locals demo's module does when it runs: `main` returns 1, the
    value of `global_a`, which overwrote the 2 first stored in `local_b`. */
module LocalsRun {
  import opened Wrappers
  import opened Ir
  import opened Interp
  import opened Exec
  import opened Builder
  import opened Locals

  /** The `local_b` slot: the first stack slot. */
  function LocalBAddr(): Addr { ObjAddr(StackObj(0)) }

  function GlobalAAddr(): Addr { ObjAddr(GlobalObj(GlobalA)) }

  // The states after instructions 2 and 4 of the body.

  function L0(): Ctx { Ctx([], map[], InitialMem) }

  function L2(): Ctx {
    Ctx([], map[0 := PtrV(LocalBAddr())], Mem([I32], map[LocalBAddr() := IntV(32, 2)]))
  }

  function L4(): Ctx {
    var c := L2();
    Ctx([], c.regs[1 := IntV(32, 1)], c.mem.(cells := c.mem.cells[LocalBAddr() := IntV(32, 1)]))
  }

  /** `int local_b; local_b = 2;` */
  lemma LocalsSegment1(p: Program, code: seq<Instr>)
    requires |code| == 6 && code[0] == Alloca(0, I32, LocalB) && code[1] == Store(I32C(2), Reg(0, P))
    ensures Steps(p, code, 0, 2, L0(), L2())
  {
    var c0 := L0();
    var c1 := AllocaStep(p, code, 0, 0, I32, LocalB, c0);
    var c2 := StoreStep(p, code, 1, I32C(2), Reg(0, P), c1, IntV(32, 2), LocalBAddr());
    assert c2 == L2();
    StepsOne(p, code, 1, 2, c1, c2, c2);
    StepsOne(p, code, 0, 2, c0, c1, c2);
  }

  /** `local_b = global_a;` */
  lemma LocalsSegment2(p: Program, code: seq<Instr>)
    requires |code| == 6 && code[2] == Load(1, I32, GlobalV(GlobalA, I32)) && code[3] == Store(Reg(1, I32), Reg(0, P))
    requires p.globals == LocalsProgram().globals
    ensures Steps(p, code, 2, 4, L2(), L4())
  {
    var c2 := L2();
    assert Read(p, c2.mem, GlobalAAddr()) == Some(IntV(32, 1));
    var c3 := LoadStep(p, code, 2, 1, I32, GlobalV(GlobalA, I32), c2, GlobalAAddr(), IntV(32, 1));
    var c4 := StoreStep(p, code, 3, Reg(1, I32), Reg(0, P), c3, IntV(32, 1), LocalBAddr());
    assert c4 == L4();
    StepsOne(p, code, 3, 4, c3, c4, c4);
    StepsOne(p, code, 2, 4, c2, c3, c4);
  }

  /** `return local_b;` */
  lemma LocalsTail(fuel: nat, p: Program, f: Function, code: seq<Instr>)
    requires |code| == 6 && code[4] == Load(2, I32, Reg(0, P)) && code[5] == Ret(Reg(2, I32))
    ensures ExecCode(fuel, p, f, code, 4, L4()) == Returned(L4().mem, Some(IntV(32, 1)))
  {
    var c4 := L4();
    var c5 := LoadStep(p, code, 4, 2, I32, Reg(0, P), c4, LocalBAddr(), IntV(32, 1));
    StepsOne(p, code, 4, 5, c4, c5, c5);
    ExecSteps(fuel, p, f, code, 4, 5, c4, c5);
  }

  /** The body of `main`, segment after segment. */
  lemma LocalsBody(fuel: nat, p: Program, f: Function, code: seq<Instr>)
    requires code == MainListing() && p.globals == LocalsProgram().globals
    ensures ExecCode(fuel, p, f, code, 0, L0()) == Returned(L4().mem, Some(IntV(32, 1)))
  {
    assert |code| == 6 && code[0] == Alloca(0, I32, LocalB) && code[1] == Store(I32C(2), Reg(0, P)) &&
      code[2] == Load(1, I32, GlobalV(GlobalA, I32)) && code[3] == Store(Reg(1, I32), Reg(0, P)) &&
      code[4] == Load(2, I32, Reg(0, P)) && code[5] == Ret(Reg(2, I32));
    LocalsSegment1(p, code);
    LocalsSegment2(p, code);
    ExecSteps(fuel, p, f, code, 0, 2, L0(), L2());
    ExecSteps(fuel, p, f, code, 2, 4, L2(), L4());
    LocalsTail(fuel, p, f, code);
  }

  /** With any fuel, `main` returns 1. The 2 first stored in `local_b` is
      overwritten by `global_a`'s value, and `global_a` itself is never
      written. */
  lemma {:induction false} MainReturnsOne(fuel: nat)
    ensures var o := Run(fuel, LocalsProgram(), MainName, [], InitialMem);
      o == Returned(Mem([I32], map[LocalBAddr() := IntV(32, 1)]), Some(IntV(32, 1))) &&
      Read(LocalsProgram(), L2().mem, LocalBAddr()) == Some(IntV(32, 2)) &&
      Read(LocalsProgram(), o.mem, LocalBAddr()) == Some(IntV(32, 1)) &&
      GlobalAAddr() !in o.mem.cells
  {
    LocalsBody(fuel, LocalsProgram(), MainFunction(), MainListing());
    assert L4().mem == Mem([I32], map[LocalBAddr() := IntV(32, 1)]);
  }
}
