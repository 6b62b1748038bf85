/** What the pointer demo's module does when it runs: `swap_ptr` exchanges
    the integers its two arguments point to, and `main` returns 10, the
    initial value of `end`. */
module PointersRun {
  import opened Wrappers
  import opened Ir
  import opened Interp
  import opened Exec
  import opened Pointers

  /** The `k`-th stack slot `swap_ptr` allocates on top of `m`'s. */
  function Slot(m: Mem, k: nat): Addr { ObjAddr(StackObj(|m.stack| + k)) }

  /** What `swap_ptr` needs of its arguments: two writable i32 locations
      holding `a` and `b` (possibly the same one, then `a == b`). */
  predicate SwapPre(p: Program, m: Mem, x: Addr, y: Addr, a: int, b: int) {
    AddrTy(p, m, x) == Some(I32) && AddrTy(p, m, y) == Some(I32) &&
    Read(p, m, x) == Some(IntV(32, a)) && Read(p, m, y) == Some(IntV(32, b)) &&
    Writable(p, x) && Writable(p, y)
  }

  /** The memory `swap_ptr` leaves: its three slots, the arguments stored
      in the first two, `a` in `temp`, and `*x = b`, `*y = a`. */
  function SwapMem(m: Mem, x: Addr, y: Addr, a: int, b: int): Mem {
    Mem(m.stack + [P, P, I32],
        m.cells[Slot(m, 0) := PtrV(x)][Slot(m, 1) := PtrV(y)][Slot(m, 2) := IntV(32, a)]
               [x := IntV(32, b)][y := IntV(32, a)])
  }

  // The states after instructions 3, 5, 7, 10, 12 and 15 of the body.

  function C0(m: Mem, x: Addr, y: Addr): Ctx { Ctx([PtrV(x), PtrV(y)], map[], m) }

  function C3(m: Mem, x: Addr, y: Addr): Ctx {
    Ctx([PtrV(x), PtrV(y)], map[0 := PtrV(Slot(m, 0)), 1 := PtrV(Slot(m, 1)), 2 := PtrV(Slot(m, 2))],
        Mem(m.stack + [P, P, I32], m.cells))
  }

  function C5(m: Mem, x: Addr, y: Addr): Ctx {
    var c := C3(m, x, y);
    c.(mem := c.mem.(cells := m.cells[Slot(m, 0) := PtrV(x)][Slot(m, 1) := PtrV(y)]))
  }

  function C7(m: Mem, x: Addr, y: Addr, a: int): Ctx {
    var c := C5(m, x, y);
    c.(regs := c.regs[3 := PtrV(x)][4 := IntV(32, a)])
  }

  function C10(m: Mem, x: Addr, y: Addr, a: int, b: int): Ctx {
    var c := C7(m, x, y, a);
    Ctx(c.args, c.regs[5 := PtrV(y)][6 := IntV(32, b)], c.mem.(cells := c.mem.cells[Slot(m, 2) := IntV(32, a)]))
  }

  function C12(m: Mem, x: Addr, y: Addr, a: int, b: int): Ctx {
    var c := C10(m, x, y, a, b);
    Ctx(c.args, c.regs[7 := PtrV(x)], c.mem.(cells := c.mem.cells[x := IntV(32, b)]))
  }

  function C15(m: Mem, x: Addr, y: Addr, a: int, b: int): Ctx {
    var c := C12(m, x, y, a, b);
    Ctx(c.args, c.regs[8 := IntV(32, a)][9 := PtrV(y)], SwapMem(m, x, y, a, b))
  }

  /** An argument address is none of the three new slots, and keeps its
      type once they are allocated. */
  lemma SwapArg(p: Program, m: Mem, x: Addr, cells: map<Addr, Val>)
    requires AddrTy(p, m, x) == Some(I32)
    ensures x != Slot(m, 0) && x != Slot(m, 1) && x != Slot(m, 2)
    ensures AddrTy(p, Mem(m.stack + [P, P, I32], cells), x) == Some(I32)
  {}

  /** The three slots. */
  lemma SwapSegment1(p: Program, code: seq<Instr>, m: Mem, x: Addr, y: Addr)
    requires |code| == 16 && code[0] == Alloca(0, P, ParamX) && code[1] == Alloca(1, P, ParamY) &&
      code[2] == Alloca(2, I32, TempName)
    ensures Steps(p, code, 0, 3, C0(m, x, y), C3(m, x, y))
  {
    var c0 := C0(m, x, y);
    var c1 := AllocaStep(p, code, 0, 0, P, ParamX, c0);
    var c2 := AllocaStep(p, code, 1, 1, P, ParamY, c1);
    var c3 := AllocaStep(p, code, 2, 2, I32, TempName, c2);
    assert c3 == C3(m, x, y);
    StepsOne(p, code, 2, 3, c2, c3, c3);
    StepsOne(p, code, 1, 3, c1, c2, c3);
    StepsOne(p, code, 0, 3, c0, c1, c3);
  }

  /** The arguments stored in the first two slots. */
  lemma SwapSegment2(p: Program, code: seq<Instr>, m: Mem, x: Addr, y: Addr)
    requires |code| == 16 && code[3] == Store(Arg(0, P), Reg(0, PP)) && code[4] == Store(Arg(1, P), Reg(1, PP))
    ensures Steps(p, code, 3, 5, C3(m, x, y), C5(m, x, y))
  {
    var c3 := C3(m, x, y);
    var c4 := StoreStep(p, code, 3, Arg(0, P), Reg(0, PP), c3, PtrV(x), Slot(m, 0));
    var c5 := StoreStep(p, code, 4, Arg(1, P), Reg(1, PP), c4, PtrV(y), Slot(m, 1));
    assert c5 == C5(m, x, y);
    StepsOne(p, code, 4, 5, c4, c5, c5);
    StepsOne(p, code, 3, 5, c3, c4, c5);
  }

  /** `*x` loaded. */
  lemma SwapSegment3(p: Program, code: seq<Instr>, m: Mem, x: Addr, y: Addr, a: int, b: int)
    requires |code| == 16 && code[5] == Load(3, P, Reg(0, PP)) && code[6] == Load(4, I32, Reg(3, P))
    requires SwapPre(p, m, x, y, a, b)
    ensures Steps(p, code, 5, 7, C5(m, x, y), C7(m, x, y, a))
  {
    var c5 := C5(m, x, y);
    SwapArg(p, m, x, c5.mem.cells);
    var c6 := LoadStep(p, code, 5, 3, P, Reg(0, PP), c5, Slot(m, 0), PtrV(x));
    var c7 := LoadStep(p, code, 6, 4, I32, Reg(3, P), c6, x, IntV(32, a));
    assert c7 == C7(m, x, y, a);
    StepsOne(p, code, 6, 7, c6, c7, c7);
    StepsOne(p, code, 5, 7, c5, c6, c7);
  }

  /** `temp = *x`, then `*y` loaded. */
  lemma SwapSegment4(p: Program, code: seq<Instr>, m: Mem, x: Addr, y: Addr, a: int, b: int)
    requires |code| == 16 && code[7] == Store(Reg(4, I32), Reg(2, P)) && code[8] == Load(5, P, Reg(1, PP)) &&
      code[9] == Load(6, I32, Reg(5, P))
    requires SwapPre(p, m, x, y, a, b)
    ensures Steps(p, code, 7, 10, C7(m, x, y, a), C10(m, x, y, a, b))
  {
    var c7 := C7(m, x, y, a);
    SwapArg(p, m, y, c7.mem.cells[Slot(m, 2) := IntV(32, a)]);
    var c8 := StoreStep(p, code, 7, Reg(4, I32), Reg(2, P), c7, IntV(32, a), Slot(m, 2));
    var c9 := LoadStep(p, code, 8, 5, P, Reg(1, PP), c8, Slot(m, 1), PtrV(y));
    var c10 := LoadStep(p, code, 9, 6, I32, Reg(5, P), c9, y, IntV(32, b));
    assert c10 == C10(m, x, y, a, b);
    StepsOne(p, code, 9, 10, c9, c10, c10);
    StepsOne(p, code, 8, 10, c8, c9, c10);
    StepsOne(p, code, 7, 10, c7, c8, c10);
  }

  /** `*x = *y`. */
  lemma SwapSegment5(p: Program, code: seq<Instr>, m: Mem, x: Addr, y: Addr, a: int, b: int)
    requires |code| == 16 && code[10] == Load(7, P, Reg(0, PP)) && code[11] == Store(Reg(6, I32), Reg(7, P))
    requires SwapPre(p, m, x, y, a, b)
    ensures Steps(p, code, 10, 12, C10(m, x, y, a, b), C12(m, x, y, a, b))
  {
    var c10 := C10(m, x, y, a, b);
    SwapArg(p, m, x, c10.mem.cells);
    var c11 := LoadStep(p, code, 10, 7, P, Reg(0, PP), c10, Slot(m, 0), PtrV(x));
    var c12 := StoreStep(p, code, 11, Reg(6, I32), Reg(7, P), c11, IntV(32, b), x);
    assert c12 == C12(m, x, y, a, b);
    StepsOne(p, code, 11, 12, c11, c12, c12);
    StepsOne(p, code, 10, 12, c10, c11, c12);
  }

  /** `*y = temp`. */
  lemma SwapSegment6(p: Program, code: seq<Instr>, m: Mem, x: Addr, y: Addr, a: int, b: int)
    requires |code| == 16 && code[12] == Load(8, I32, Reg(2, P)) && code[13] == Load(9, P, Reg(1, PP)) &&
      code[14] == Store(Reg(8, I32), Reg(9, P))
    requires SwapPre(p, m, x, y, a, b)
    ensures Steps(p, code, 12, 15, C12(m, x, y, a, b), C15(m, x, y, a, b))
  {
    var c12 := C12(m, x, y, a, b);
    SwapArg(p, m, x, c12.mem.cells);
    SwapArg(p, m, y, c12.mem.cells);
    var c13 := LoadStep(p, code, 12, 8, I32, Reg(2, P), c12, Slot(m, 2), IntV(32, a));
    var c14 := LoadStep(p, code, 13, 9, P, Reg(1, PP), c13, Slot(m, 1), PtrV(y));
    var c15 := StoreStep(p, code, 14, Reg(8, I32), Reg(9, P), c14, IntV(32, a), y);
    assert c15 == C15(m, x, y, a, b);
    StepsOne(p, code, 14, 15, c14, c15, c15);
    StepsOne(p, code, 13, 15, c13, c14, c15);
    StepsOne(p, code, 12, 15, c12, c13, c15);
  }

  /** The first seven instructions of the body, one segment after another. */
  lemma SwapFirstHalf(fuel: nat, p: Program, f: Function, code: seq<Instr>, m: Mem, x: Addr, y: Addr, a: int, b: int)
    requires code == SwapPtrListing() && SwapPre(p, m, x, y, a, b)
    ensures ExecCode(fuel, p, f, code, 0, C0(m, x, y)) == ExecCode(fuel, p, f, code, 7, C7(m, x, y, a))
  {
    assert |code| == 16 && code[0] == Alloca(0, P, ParamX) && code[1] == Alloca(1, P, ParamY) &&
      code[2] == Alloca(2, I32, TempName) && code[3] == Store(Arg(0, P), Reg(0, PP)) &&
      code[4] == Store(Arg(1, P), Reg(1, PP)) && code[5] == Load(3, P, Reg(0, PP)) &&
      code[6] == Load(4, I32, Reg(3, P));
    SwapSegment1(p, code, m, x, y);
    SwapSegment2(p, code, m, x, y);
    SwapSegment3(p, code, m, x, y, a, b);
    ExecSteps(fuel, p, f, code, 0, 3, C0(m, x, y), C3(m, x, y));
    ExecSteps(fuel, p, f, code, 3, 5, C3(m, x, y), C5(m, x, y));
    ExecSteps(fuel, p, f, code, 5, 7, C5(m, x, y), C7(m, x, y, a));
  }

  /** Instructions 7 to 15 of the swap body. */
  lemma SwapSecondHalfCode(code: seq<Instr>)
    requires code == SwapPtrListing()
    ensures |code| == 16 && code[7] == Store(Reg(4, I32), Reg(2, P)) && code[8] == Load(5, P, Reg(1, PP)) &&
      code[9] == Load(6, I32, Reg(5, P)) && code[10] == Load(7, P, Reg(0, PP)) &&
      code[11] == Store(Reg(6, I32), Reg(7, P)) && code[12] == Load(8, I32, Reg(2, P)) &&
      code[13] == Load(9, P, Reg(1, PP)) && code[14] == Store(Reg(8, I32), Reg(9, P)) && code[15] == RetVoid
  {
  }

  /** The rest of the body, ending in `ret void`. */
  lemma SwapSecondHalf(fuel: nat, p: Program, f: Function, code: seq<Instr>, m: Mem, x: Addr, y: Addr, a: int, b: int)
    requires |code| == 16 && code[7] == Store(Reg(4, I32), Reg(2, P)) && code[8] == Load(5, P, Reg(1, PP)) &&
      code[9] == Load(6, I32, Reg(5, P)) && code[10] == Load(7, P, Reg(0, PP)) &&
      code[11] == Store(Reg(6, I32), Reg(7, P)) && code[12] == Load(8, I32, Reg(2, P)) &&
      code[13] == Load(9, P, Reg(1, PP)) && code[14] == Store(Reg(8, I32), Reg(9, P)) && code[15] == RetVoid
    requires SwapPre(p, m, x, y, a, b)
    ensures ExecCode(fuel, p, f, code, 7, C7(m, x, y, a)) == Returned(SwapMem(m, x, y, a, b), None)
  {
    SwapSegment4(p, code, m, x, y, a, b);
    SwapSegment5(p, code, m, x, y, a, b);
    SwapSegment6(p, code, m, x, y, a, b);
    ExecSteps(fuel, p, f, code, 7, 10, C7(m, x, y, a), C10(m, x, y, a, b));
    ExecSteps(fuel, p, f, code, 10, 12, C10(m, x, y, a, b), C12(m, x, y, a, b));
    ExecSteps(fuel, p, f, code, 12, 15, C12(m, x, y, a, b), C15(m, x, y, a, b));
    RetVoidReturns(fuel, p, f, code, 15, C15(m, x, y, a, b));
  }

  /** `swap_ptr(x, y)` returns, with any fuel, leaving exactly `SwapMem`. */
  lemma SwapPtrRuns(fuel: nat, p: Program, m: Mem, x: Addr, y: Addr, a: int, b: int)
    requires SwapPtrName in p.functions && p.functions[SwapPtrName] == SwapPtrFunction()
    requires SwapPre(p, m, x, y, a, b)
    ensures Run(fuel, p, SwapPtrName, [PtrV(x), PtrV(y)], m) == Returned(SwapMem(m, x, y, a, b), None)
  {
    SwapFirstHalf(fuel, p, SwapPtrFunction(), SwapPtrListing(), m, x, y, a, b);
    SwapSecondHalfCode(SwapPtrListing());
    SwapSecondHalf(fuel, p, SwapPtrFunction(), SwapPtrListing(), m, x, y, a, b);
  }

  /** After `swap_ptr(x, y)`, `*x` holds the old `*y` and `*y` the old
      `*x`; every location outside its own slots is otherwise unchanged. */
  lemma {:induction false} SwapPtrSwaps(fuel: nat, p: Program, m: Mem, x: Addr, y: Addr, a: int, b: int, z: Addr)
    requires SwapPtrName in p.functions && p.functions[SwapPtrName] == SwapPtrFunction()
    requires SwapPre(p, m, x, y, a, b)
    requires AddrTy(p, m, z).Some? && z != x && z != y
    ensures var o := Run(fuel, p, SwapPtrName, [PtrV(x), PtrV(y)], m);
      o.Returned? && Read(p, o.mem, x) == Some(IntV(32, b)) && Read(p, o.mem, y) == Some(IntV(32, a)) &&
      Read(p, o.mem, z) == Read(p, m, z)
  {
    SwapPtrRuns(fuel, p, m, x, y, a, b);
    FreshSlots(p, m, z);
    if x == y {
      assert a == b;
    }
  }

  // `main` on the module `emitProgram` builds.

  function StartAddr(): Addr { ObjAddr(GlobalObj(StartName)) }
  function EndAddr(): Addr { ObjAddr(GlobalObj(EndName)) }

  /** The memory after `swap_ptr(&start, &end)` from the initial memory. */
  function MainMem(): Mem { SwapMem(InitialMem, StartAddr(), EndAddr(), 1, 10) }

  lemma Program18Facts(p: Program)
    requires p == Program18()
    ensures MainName in p.functions && p.functions[MainName] == MainFunction()
    ensures SwapPtrName in p.functions && p.functions[SwapPtrName] == SwapPtrFunction()
    ensures p.globals == Globals18()
  {}

  /** `start` and `end` are the two writable i32 locations `swap_ptr` needs. */
  lemma MainArgs(p: Program)
    requires p.globals == Globals18()
    ensures SwapPre(p, InitialMem, StartAddr(), EndAddr(), 1, 10)
  {}

  /** The call to `swap_ptr(&start, &end)` returns and execution goes on
      with the swapped memory. */
  lemma MainCall(fuel: nat, p: Program, f: Function, code: seq<Instr>)
    requires fuel >= 1 && code == MainListing()
    requires SwapPtrName in p.functions && p.functions[SwapPtrName] == SwapPtrFunction() && p.globals == Globals18()
    ensures ExecCode(fuel, p, f, code, 0, Ctx([], map[], InitialMem)) == ExecCode(fuel, p, f, code, 1, Ctx([], map[], MainMem()))
  {
    assert code[0] == Call(0, SwapPtrName, [GlobalV(StartName, I32), GlobalV(EndName, I32)]);
    var c0 := Ctx([], map[], InitialMem);
    EvalAllTwo(p, c0, GlobalV(StartName, I32), GlobalV(EndName, I32), PtrV(StartAddr()), PtrV(EndAddr()));
    MainArgs(p);
    SwapPtrRuns(fuel - 1, p, InitialMem, StartAddr(), EndAddr(), 1, 10);
  }

  /** `start` now holds 10, which `main` loads and returns. */
  lemma MainTail(fuel: nat, p: Program, f: Function, code: seq<Instr>)
    requires code == MainListing() && p.globals == Globals18()
    ensures ExecCode(fuel, p, f, code, 1, Ctx([], map[], MainMem())) == Returned(MainMem(), Some(IntV(32, 10)))
  {
    assert |code| == 3 && code[1] == Load(1, I32, GlobalV(StartName, I32)) && code[2] == Ret(Reg(1, I32));
    var c1 := Ctx([], map[], MainMem());
    assert Read(p, c1.mem, StartAddr()) == Some(IntV(32, 10));
    var c2 := LoadStep(p, code, 1, 1, I32, GlobalV(StartName, I32), c1, StartAddr(), IntV(32, 10));
    ExecSteps(fuel, p, f, code, 1, 2, c1, c2);
  }

  /** With fuel for its one call, `main` returns 10, the initial value of
      `end`, and leaves `start` and `end` swapped. */
  lemma {:induction false} MainReturnsTen(fuel: nat)
    requires fuel >= 1
    ensures var o := Run(fuel, Program18(), MainName, [], InitialMem);
      o == Returned(MainMem(), Some(IntV(32, 10))) &&
      Read(Program18(), o.mem, StartAddr()) == Some(IntV(32, 10)) && Read(Program18(), o.mem, EndAddr()) == Some(IntV(32, 1))
  {
    var p := Program18();
    Program18Facts(p);
    MainCall(fuel, p, MainFunction(), MainListing());
    MainTail(fuel, p, MainFunction(), MainListing());
  }

  /** Without fuel the call cannot be made. */
  lemma {:induction false} MainNeedsFuel()
    ensures Run(0, Program18(), MainName, [], InitialMem) == OutOfFuel
  {
    var p := Program18();
    Program18Facts(p);
    assert MainListing()[0] == Call(0, SwapPtrName, [GlobalV(StartName, I32), GlobalV(EndName, I32)]);
    EvalAllTwo(p, Ctx([], map[], InitialMem), GlobalV(StartName, I32), GlobalV(EndName, I32), PtrV(StartAddr()), PtrV(EndAddr()));
  }
}
