/** What the struct demo's module does when it runs: `swap_point` exchanges
    the two fields of the point its argument addresses, `main` returns 20,
    the initial `y` of its point, and `swap_array` (emitted but never
    defined by the demo) exchanges two elements of an i32 array. */
module StructsRun {
  import opened Wrappers
  import opened Ir
  import opened Interp
  import opened Exec
  import opened Builder
  import opened Structs
  import Pointers

  /** The `k`-th stack slot a function allocates on top of `m`'s. */
  function Slot(m: Mem, k: nat): Addr { ObjAddr(StackObj(|m.stack| + k)) }

  /** The address of field `k` of the struct at `q`. */
  function FieldAddr(q: Addr, k: int): Addr { Addr(q.base, q.path + [k]) }

  // Address arithmetic.

  /** Following one more index after a path is one step from where the path
      leads. */
  lemma {:induction false} NavigateSnoc(t: Ty, path: seq<int>, k: int)
    requires Navigate(t, path).Some?
    ensures Navigate(t, path + [k]) == Navigate(Navigate(t, path).value, [k])
    decreases |path|
  {
    if path == [] {
      assert path + [k] == [k];
    } else {
      assert (path + [k])[0] == path[0] && (path + [k])[1..] == path[1..] + [k];
      match t
      case Struct(_, fields) => NavigateSnoc(fields[path[0]], path[1..], k);
      case Array(elem, _) => NavigateSnoc(elem, path[1..], k);
    }
  }

  /** `getelementptr %struct.point, ptr q, i32 0, i32 k` is field `k` of
      `q`, of the field's type. */
  lemma FieldOf(p: Program, m: Mem, q: Addr, k: int)
    requires AddrTy(p, m, q) == Some(PointTy) && 0 <= k < 2
    ensures GepAddr(q, [0, k]) == FieldAddr(q, k)
    ensures AddrTy(p, m, FieldAddr(q, k)) == Some(I32)
  {
    var n := |q.path|;
    assert q.path[..n - 1] + [q.path[n - 1] + 0] == q.path;
    assert [0, k][1..] == [k];
    assert FieldAddr(q, k).path[1..] == q.path[1..] + [k];
    NavigateSnoc(ObjectTy(p, m, q.base).value, q.path[1..], k);
  }

  /** The two fields are different locations. */
  lemma FieldsDiffer(q: Addr)
    ensures FieldAddr(q, 0) != FieldAddr(q, 1)
  {
    assert FieldAddr(q, 0).path[|q.path|] == 0;
    assert FieldAddr(q, 1).path[|q.path|] == 1;
  }

  /** Growing the stack keeps every valid address valid, of the same type. */
  lemma StackGrows(p: Program, m: Mem, ts: seq<Ty>, cells: map<Addr, Val>, a: Addr)
    requires AddrTy(p, m, a).Some?
    ensures AddrTy(p, Mem(m.stack + ts, cells), a) == AddrTy(p, m, a)
    ensures forall k: nat :: a != Slot(m, k)
  {
    FreshSlots(p, m, a);
  }

  lemma ConstEval(p: Program, c: Ctx, k: int)
    ensures Eval(p, c, I32C(k)) == Some(IntV(32, k))
  {
    assert I32C(k) == ConstV(IntC(32, k));
    assert ScalarOf(IntC(32, k)) == Some(IntV(32, k));
  }

  lemma FieldIndices(p: Program, c: Ctx, k: int)
    ensures EvalIndices(p, c, [I32C(0), I32C(k)]) == Some([0, k])
  {
    ConstEval(p, c, 0);
    ConstEval(p, c, k);
    var one := [I32C(k)];
    assert one[1..] == [] && one[0] == I32C(k);
    assert EvalIndices(p, c, []) == Some([]);
    assert EvalIndices(p, c, one) == Some([k] + []);
    assert [k] + [] == [k];
    var two := [I32C(0), I32C(k)];
    assert two[1..] == one && two[0] == I32C(0);
    assert EvalIndices(p, c, two) == Some([0] + [k]);
    assert [0] + [k] == [0, k];
  }

  lemma ElemIndices(p: Program, c: Ctx, v: Value, x: int)
    requires Eval(p, c, v) == Some(IntV(64, x))
    ensures EvalIndices(p, c, [v]) == Some([x])
  {
    assert [v][1..] == [] && [x] + [] == [x];
  }

  // swap_point

  /** What `swap_point` needs of its argument: a point in writable memory
      whose fields hold `vx` and `vy`. */
  predicate PointPre(p: Program, m: Mem, q: Addr, vx: int, vy: int) {
    AddrTy(p, m, q) == Some(PointTy) && Writable(p, q) &&
    Read(p, m, FieldAddr(q, 0)) == Some(IntV(32, vx)) && Read(p, m, FieldAddr(q, 1)) == Some(IntV(32, vy))
  }

  /** The memory `swap_point` leaves: its two slots (the argument, then
      `temp = p->x`) and the fields exchanged. */
  function PointMem(m: Mem, q: Addr, vx: int, vy: int): Mem {
    Mem(m.stack + [PT, I32],
        m.cells[Slot(m, 0) := PtrV(q)][Slot(m, 1) := IntV(32, vx)]
               [FieldAddr(q, 0) := IntV(32, vy)][FieldAddr(q, 1) := IntV(32, vx)])
  }

  /** The facts about `q` every segment needs, in the memory with the two
      new slots. */
  lemma PointArg(p: Program, m: Mem, q: Addr, cells: map<Addr, Val>)
    requires AddrTy(p, m, q) == Some(PointTy)
    ensures AddrTy(p, Mem(m.stack + [PT, I32], cells), q) == Some(PointTy)
    ensures GepAddr(q, [0, 0]) == FieldAddr(q, 0) && GepAddr(q, [0, 1]) == FieldAddr(q, 1)
    ensures AddrTy(p, Mem(m.stack + [PT, I32], cells), FieldAddr(q, 0)) == Some(I32)
    ensures AddrTy(p, Mem(m.stack + [PT, I32], cells), FieldAddr(q, 1)) == Some(I32)
    ensures FieldAddr(q, 0) != Slot(m, 1) && FieldAddr(q, 1) != Slot(m, 1) && FieldAddr(q, 0) != FieldAddr(q, 1)
  {
    var m2 := Mem(m.stack + [PT, I32], cells);
    StackGrows(p, m, [PT, I32], cells, q);
    FieldOf(p, m, q, 0);
    FieldOf(p, m, q, 1);
    FieldOf(p, m2, q, 0);
    FieldOf(p, m2, q, 1);
    StackGrows(p, m, [PT, I32], cells, FieldAddr(q, 0));
    StackGrows(p, m, [PT, I32], cells, FieldAddr(q, 1));
    FieldsDiffer(q);
  }

  // The states after instructions 3, 6, 9, 12, 14 and 17 of the body.

  function P0(m: Mem, q: Addr): Ctx { Ctx([PtrV(q)], map[], m) }

  function P3(m: Mem, q: Addr): Ctx {
    Ctx([PtrV(q)], map[0 := PtrV(Slot(m, 0)), 1 := PtrV(Slot(m, 1))],
        Mem(m.stack + [PT, I32], m.cells[Slot(m, 0) := PtrV(q)]))
  }

  function P6(m: Mem, q: Addr, vx: int): Ctx {
    var c := P3(m, q);
    c.(regs := c.regs[2 := PtrV(q)][3 := PtrV(FieldAddr(q, 0))][4 := IntV(32, vx)])
  }

  function P9(m: Mem, q: Addr, vx: int): Ctx {
    var c := P6(m, q, vx);
    Ctx(c.args, c.regs[5 := PtrV(q)][6 := PtrV(FieldAddr(q, 1))], c.mem.(cells := c.mem.cells[Slot(m, 1) := IntV(32, vx)]))
  }

  function P12(m: Mem, q: Addr, vx: int, vy: int): Ctx {
    var c := P9(m, q, vx);
    c.(regs := c.regs[7 := IntV(32, vy)][8 := PtrV(q)][9 := PtrV(FieldAddr(q, 0))])
  }

  function P14(m: Mem, q: Addr, vx: int, vy: int): Ctx {
    var c := P12(m, q, vx, vy);
    Ctx(c.args, c.regs[10 := IntV(32, vx)], c.mem.(cells := c.mem.cells[FieldAddr(q, 0) := IntV(32, vy)]))
  }

  function P17(m: Mem, q: Addr, vx: int, vy: int): Ctx {
    var c := P14(m, q, vx, vy);
    Ctx(c.args, P16(m, q, vx, vy).regs, PointMem(m, q, vx, vy))
  }

  /** The two slots, and the argument stored in the first. */
  lemma PointSegment1(p: Program, code: seq<Instr>, m: Mem, q: Addr)
    requires |code| == 18 && code[0] == Alloca(0, PT, ParamP) && code[1] == Alloca(1, I32, Pointers.TempName) &&
      code[2] == Store(Arg(0, PT), Reg(0, PPT))
    ensures Steps(p, code, 0, 3, P0(m, q), P3(m, q))
  {
    var c0 := P0(m, q);
    var c1 := AllocaStep(p, code, 0, 0, PT, ParamP, c0);
    var c2 := AllocaStep(p, code, 1, 1, I32, Pointers.TempName, c1);
    var c3 := StoreStep(p, code, 2, Arg(0, PT), Reg(0, PPT), c2, PtrV(q), Slot(m, 0));
    assert c3 == P3(m, q);
    StepsOne(p, code, 2, 3, c2, c3, c3);
    StepsOne(p, code, 1, 3, c1, c2, c3);
    StepsOne(p, code, 0, 3, c0, c1, c3);
  }

  /** `p->x` read. */
  lemma PointSegment2(p: Program, code: seq<Instr>, m: Mem, q: Addr, vx: int, vy: int)
    requires |code| == 18 && code[3] == Load(2, PT, Reg(0, PPT)) && code[4] == FieldGep(3, PointTy, Reg(2, PT), 0) &&
      code[5] == Load(4, I32, Reg(3, P))
    requires PointPre(p, m, q, vx, vy)
    ensures Steps(p, code, 3, 6, P3(m, q), P6(m, q, vx))
  {
    var c3 := P3(m, q);
    PointArg(p, m, q, c3.mem.cells);
    var c4 := LoadStep(p, code, 3, 2, PT, Reg(0, PPT), c3, Slot(m, 0), PtrV(q));
    FieldIndices(p, c4, 0);
    var c5 := GepStep(p, code, 4, 3, PointTy, Reg(2, PT), [I32C(0), I32C(0)], c4, q, [0, 0]);
    var c6 := LoadStep(p, code, 5, 4, I32, Reg(3, P), c5, FieldAddr(q, 0), IntV(32, vx));
    assert c6 == P6(m, q, vx);
    StepsOne(p, code, 5, 6, c5, c6, c6);
    StepsOne(p, code, 4, 6, c4, c5, c6);
    StepsOne(p, code, 3, 6, c3, c4, c6);
  }

  /** `temp = p->x`, and the address of `p->y`. */
  lemma PointSegment3(p: Program, code: seq<Instr>, m: Mem, q: Addr, vx: int, vy: int)
    requires |code| == 18 && code[6] == Store(Reg(4, I32), Reg(1, P)) && code[7] == Load(5, PT, Reg(0, PPT)) &&
      code[8] == FieldGep(6, PointTy, Reg(5, PT), 1)
    requires PointPre(p, m, q, vx, vy)
    ensures Steps(p, code, 6, 9, P6(m, q, vx), P9(m, q, vx))
  {
    var c6 := P6(m, q, vx);
    var cells := c6.mem.cells[Slot(m, 1) := IntV(32, vx)];
    PointArg(p, m, q, cells);
    var c7 := StoreStep(p, code, 6, Reg(4, I32), Reg(1, P), c6, IntV(32, vx), Slot(m, 1));
    var c8 := LoadStep(p, code, 7, 5, PT, Reg(0, PPT), c7, Slot(m, 0), PtrV(q));
    FieldIndices(p, c8, 1);
    var c9 := GepStep(p, code, 8, 6, PointTy, Reg(5, PT), [I32C(0), I32C(1)], c8, q, [0, 1]);
    assert c9 == P9(m, q, vx);
    StepsOne(p, code, 8, 9, c8, c9, c9);
    StepsOne(p, code, 7, 9, c7, c8, c9);
    StepsOne(p, code, 6, 9, c6, c7, c9);
  }

  /** `p->y` read, and the address of `p->x` again. */
  lemma PointSegment4(p: Program, code: seq<Instr>, m: Mem, q: Addr, vx: int, vy: int)
    requires |code| == 18 && code[9] == Load(7, I32, Reg(6, P)) && code[10] == Load(8, PT, Reg(0, PPT)) &&
      code[11] == FieldGep(9, PointTy, Reg(8, PT), 0)
    requires PointPre(p, m, q, vx, vy)
    ensures Steps(p, code, 9, 12, P9(m, q, vx), P12(m, q, vx, vy))
  {
    var c9 := P9(m, q, vx);
    PointArg(p, m, q, c9.mem.cells);
    var c10 := LoadStep(p, code, 9, 7, I32, Reg(6, P), c9, FieldAddr(q, 1), IntV(32, vy));
    var c11 := LoadStep(p, code, 10, 8, PT, Reg(0, PPT), c10, Slot(m, 0), PtrV(q));
    FieldIndices(p, c11, 0);
    var c12 := GepStep(p, code, 11, 9, PointTy, Reg(8, PT), [I32C(0), I32C(0)], c11, q, [0, 0]);
    assert c12 == P12(m, q, vx, vy);
    StepsOne(p, code, 11, 12, c11, c12, c12);
    StepsOne(p, code, 10, 12, c10, c11, c12);
    StepsOne(p, code, 9, 12, c9, c10, c12);
  }

  /** `p->x = p->y`, and `temp` read back. */
  lemma PointSegment5(p: Program, code: seq<Instr>, m: Mem, q: Addr, vx: int, vy: int)
    requires |code| == 18 && code[12] == Store(Reg(7, I32), Reg(9, P)) && code[13] == Load(10, I32, Reg(1, P))
    requires PointPre(p, m, q, vx, vy)
    ensures Steps(p, code, 12, 14, P12(m, q, vx, vy), P14(m, q, vx, vy))
  {
    var c12 := P12(m, q, vx, vy);
    PointArg(p, m, q, c12.mem.cells);
    var c13 := StoreStep(p, code, 12, Reg(7, I32), Reg(9, P), c12, IntV(32, vy), FieldAddr(q, 0));
    var c14 := LoadStep(p, code, 13, 10, I32, Reg(1, P), c13, Slot(m, 1), IntV(32, vx));
    assert c14 == P14(m, q, vx, vy);
    StepsOne(p, code, 13, 14, c13, c14, c14);
    StepsOne(p, code, 12, 14, c12, c13, c14);
  }

  function P16(m: Mem, q: Addr, vx: int, vy: int): Ctx {
    var c := P14(m, q, vx, vy);
    c.(regs := c.regs[11 := PtrV(q)][12 := PtrV(FieldAddr(q, 1))])
  }

  /** The address of `p->y` again. */
  lemma PointSegment6(p: Program, code: seq<Instr>, m: Mem, q: Addr, vx: int, vy: int)
    requires |code| == 18 && code[14] == Load(11, PT, Reg(0, PPT)) && code[15] == FieldGep(12, PointTy, Reg(11, PT), 1)
    requires PointPre(p, m, q, vx, vy)
    ensures Steps(p, code, 14, 16, P14(m, q, vx, vy), P16(m, q, vx, vy))
  {
    var c14 := P14(m, q, vx, vy);
    PointArg(p, m, q, c14.mem.cells);
    var c15 := LoadStep(p, code, 14, 11, PT, Reg(0, PPT), c14, Slot(m, 0), PtrV(q));
    FieldIndices(p, c15, 1);
    var c16 := GepStep(p, code, 15, 12, PointTy, Reg(11, PT), [I32C(0), I32C(1)], c15, q, [0, 1]);
    assert c16 == P16(m, q, vx, vy);
    StepsOne(p, code, 15, 16, c15, c16, c16);
    StepsOne(p, code, 14, 16, c14, c15, c16);
  }

  /** `p->y = temp`. */
  lemma PointSegment7(p: Program, code: seq<Instr>, m: Mem, q: Addr, vx: int, vy: int)
    requires |code| == 18 && code[16] == Store(Reg(10, I32), Reg(12, P))
    requires PointPre(p, m, q, vx, vy)
    ensures Steps(p, code, 16, 17, P16(m, q, vx, vy), P17(m, q, vx, vy))
  {
    var c16 := P16(m, q, vx, vy);
    PointArg(p, m, q, c16.mem.cells);
    var c17 := StoreStep(p, code, 16, Reg(10, I32), Reg(12, P), c16, IntV(32, vx), FieldAddr(q, 1));
    assert c17 == P17(m, q, vx, vy);
    StepsOne(p, code, 16, 17, c16, c17, c17);
  }

  /** The first nine instructions of the body. */
  lemma PointFrontFacts()
    ensures var code := SwapPointListing();
      |code| == 18 && code[0] == Alloca(0, PT, ParamP) && code[1] == Alloca(1, I32, Pointers.TempName) &&
      code[2] == Store(Arg(0, PT), Reg(0, PPT)) && code[3] == Load(2, PT, Reg(0, PPT)) &&
      code[4] == FieldGep(3, PointTy, Reg(2, PT), 0) && code[5] == Load(4, I32, Reg(3, P)) &&
      code[6] == Store(Reg(4, I32), Reg(1, P)) && code[7] == Load(5, PT, Reg(0, PPT)) &&
      code[8] == FieldGep(6, PointTy, Reg(5, PT), 1)
  {}

  /** The other nine, ending in `ret void`. */
  lemma PointBackFacts()
    ensures var code := SwapPointListing();
      |code| == 18 && code[9] == Load(7, I32, Reg(6, P)) && code[10] == Load(8, PT, Reg(0, PPT)) &&
      code[11] == FieldGep(9, PointTy, Reg(8, PT), 0) && code[12] == Store(Reg(7, I32), Reg(9, P)) &&
      code[13] == Load(10, I32, Reg(1, P)) && code[14] == Load(11, PT, Reg(0, PPT)) &&
      code[15] == FieldGep(12, PointTy, Reg(11, PT), 1) && code[16] == Store(Reg(10, I32), Reg(12, P)) &&
      code[17] == RetVoid
  {}

  lemma PointFirstHalf(fuel: nat, p: Program, f: Function, code: seq<Instr>, m: Mem, q: Addr, vx: int, vy: int)
    requires |code| == 18 && code[0] == Alloca(0, PT, ParamP) && code[1] == Alloca(1, I32, Pointers.TempName) &&
      code[2] == Store(Arg(0, PT), Reg(0, PPT)) && code[3] == Load(2, PT, Reg(0, PPT)) &&
      code[4] == FieldGep(3, PointTy, Reg(2, PT), 0) && code[5] == Load(4, I32, Reg(3, P)) &&
      code[6] == Store(Reg(4, I32), Reg(1, P)) && code[7] == Load(5, PT, Reg(0, PPT)) &&
      code[8] == FieldGep(6, PointTy, Reg(5, PT), 1)
    requires PointPre(p, m, q, vx, vy)
    ensures ExecCode(fuel, p, f, code, 0, P0(m, q)) == ExecCode(fuel, p, f, code, 9, P9(m, q, vx))
  {
    PointSegment1(p, code, m, q);
    PointSegment2(p, code, m, q, vx, vy);
    PointSegment3(p, code, m, q, vx, vy);
    ExecSteps(fuel, p, f, code, 0, 3, P0(m, q), P3(m, q));
    ExecSteps(fuel, p, f, code, 3, 6, P3(m, q), P6(m, q, vx));
    ExecSteps(fuel, p, f, code, 6, 9, P6(m, q, vx), P9(m, q, vx));
  }

  lemma PointSecondHalf(fuel: nat, p: Program, f: Function, code: seq<Instr>, m: Mem, q: Addr, vx: int, vy: int)
    requires |code| == 18 && code[9] == Load(7, I32, Reg(6, P)) && code[10] == Load(8, PT, Reg(0, PPT)) &&
      code[11] == FieldGep(9, PointTy, Reg(8, PT), 0) && code[12] == Store(Reg(7, I32), Reg(9, P)) &&
      code[13] == Load(10, I32, Reg(1, P)) && code[14] == Load(11, PT, Reg(0, PPT)) &&
      code[15] == FieldGep(12, PointTy, Reg(11, PT), 1) && code[16] == Store(Reg(10, I32), Reg(12, P)) &&
      code[17] == RetVoid
    requires PointPre(p, m, q, vx, vy)
    ensures ExecCode(fuel, p, f, code, 9, P9(m, q, vx)) == Returned(PointMem(m, q, vx, vy), None)
  {
    PointSegment4(p, code, m, q, vx, vy);
    PointSegment5(p, code, m, q, vx, vy);
    PointSegment6(p, code, m, q, vx, vy);
    PointSegment7(p, code, m, q, vx, vy);
    ExecSteps(fuel, p, f, code, 9, 12, P9(m, q, vx), P12(m, q, vx, vy));
    ExecSteps(fuel, p, f, code, 12, 14, P12(m, q, vx, vy), P14(m, q, vx, vy));
    ExecSteps(fuel, p, f, code, 14, 16, P14(m, q, vx, vy), P16(m, q, vx, vy));
    ExecSteps(fuel, p, f, code, 16, 17, P16(m, q, vx, vy), P17(m, q, vx, vy));
  }

  /** `swap_point(q)` returns, with any fuel, leaving exactly `PointMem`. */
  lemma SwapPointRuns(fuel: nat, p: Program, m: Mem, q: Addr, vx: int, vy: int)
    requires SwapPointName in p.functions && p.functions[SwapPointName] == SwapPointFunction()
    requires PointPre(p, m, q, vx, vy)
    ensures Run(fuel, p, SwapPointName, [PtrV(q)], m) == Returned(PointMem(m, q, vx, vy), None)
  {
    PointFrontFacts();
    PointBackFacts();
    PointFirstHalf(fuel, p, SwapPointFunction(), SwapPointListing(), m, q, vx, vy);
    PointSecondHalf(fuel, p, SwapPointFunction(), SwapPointListing(), m, q, vx, vy);
  }

  /** After `swap_point(q)`, `q->x` holds the old `q->y` and `q->y` the old
      `q->x`; every location outside its own slots is otherwise unchanged. */
  lemma {:induction false} SwapPointSwaps(fuel: nat, p: Program, m: Mem, q: Addr, vx: int, vy: int, z: Addr)
    requires SwapPointName in p.functions && p.functions[SwapPointName] == SwapPointFunction()
    requires PointPre(p, m, q, vx, vy)
    requires AddrTy(p, m, z).Some? && z != FieldAddr(q, 0) && z != FieldAddr(q, 1)
    ensures var o := Run(fuel, p, SwapPointName, [PtrV(q)], m);
      o.Returned? && Read(p, o.mem, FieldAddr(q, 0)) == Some(IntV(32, vy)) &&
      Read(p, o.mem, FieldAddr(q, 1)) == Some(IntV(32, vx)) && Read(p, o.mem, z) == Read(p, m, z)
  {
    SwapPointRuns(fuel, p, m, q, vx, vy);
    FieldsDiffer(q);
    StackGrows(p, m, [], m.cells, z);
  }

  // main

  /** `main`'s point: the first stack slot of the initial memory. */
  function PointAddr(): Addr { Slot(InitialMem, 0) }

  /** The memory when `main` calls `swap_point`: the point {10, 20}. */
  function CallMem(): Mem {
    Mem([PointTy], map[FieldAddr(PointAddr(), 0) := IntV(32, 10)][FieldAddr(PointAddr(), 1) := IntV(32, 20)])
  }

  /** The memory `main` leaves: the point after `swap_point`. */
  function MainMem(): Mem { PointMem(CallMem(), PointAddr(), 10, 20) }

  function M3(): Ctx {
    Ctx([], map[0 := PtrV(PointAddr()), 1 := PtrV(FieldAddr(PointAddr(), 0))],
        Mem([PointTy], map[FieldAddr(PointAddr(), 0) := IntV(32, 10)]))
  }

  function M5(): Ctx {
    Ctx([], M3().regs[2 := PtrV(FieldAddr(PointAddr(), 1))], CallMem())
  }

  lemma PointAddrTy(p: Program, m: Mem)
    requires |m.stack| > 0 && m.stack[0] == PointTy
    ensures AddrTy(p, m, PointAddr()) == Some(PointTy)
    ensures AddrTy(p, m, FieldAddr(PointAddr(), 0)) == Some(I32) && AddrTy(p, m, FieldAddr(PointAddr(), 1)) == Some(I32)
    ensures GepAddr(PointAddr(), [0, 0]) == FieldAddr(PointAddr(), 0) && GepAddr(PointAddr(), [0, 1]) == FieldAddr(PointAddr(), 1)
  {
    assert PointAddr().path == [0];
    FieldOf(p, m, PointAddr(), 0);
    FieldOf(p, m, PointAddr(), 1);
  }

  /** The point's slot, and `point.x = 10`. */
  lemma MainSegment1(p: Program, code: seq<Instr>)
    requires |code| == 9 && code[0] == Alloca(0, PointTy, ParamP) && code[1] == FieldGep(1, PointTy, Reg(0, PT), 0) &&
      code[2] == Store(I32C(10), Reg(1, P))
    ensures Steps(p, code, 0, 3, Ctx([], map[], InitialMem), M3())
  {
    var c0 := Ctx([], map[], InitialMem);
    var c1 := AllocaStep(p, code, 0, 0, PointTy, ParamP, c0);
    PointAddrTy(p, c1.mem);
    FieldIndices(p, c1, 0);
    var c2 := GepStep(p, code, 1, 1, PointTy, Reg(0, PT), [I32C(0), I32C(0)], c1, PointAddr(), [0, 0]);
    ConstEval(p, c2, 10);
    var c3 := StoreStep(p, code, 2, I32C(10), Reg(1, P), c2, IntV(32, 10), FieldAddr(PointAddr(), 0));
    assert c3 == M3();
    StepsOne(p, code, 2, 3, c2, c3, c3);
    StepsOne(p, code, 1, 3, c1, c2, c3);
    StepsOne(p, code, 0, 3, c0, c1, c3);
  }

  /** `point.y = 20`. */
  lemma MainSegment2(p: Program, code: seq<Instr>)
    requires |code| == 9 && code[3] == FieldGep(2, PointTy, Reg(0, PT), 1) && code[4] == Store(I32C(20), Reg(2, P))
    ensures Steps(p, code, 3, 5, M3(), M5())
  {
    var c3 := M3();
    PointAddrTy(p, c3.mem);
    FieldIndices(p, c3, 1);
    var c4 := GepStep(p, code, 3, 2, PointTy, Reg(0, PT), [I32C(0), I32C(1)], c3, PointAddr(), [0, 1]);
    ConstEval(p, c4, 20);
    var c5 := StoreStep(p, code, 4, I32C(20), Reg(2, P), c4, IntV(32, 20), FieldAddr(PointAddr(), 1));
    assert c5 == M5();
    StepsOne(p, code, 4, 5, c4, c5, c5);
    StepsOne(p, code, 3, 5, c3, c4, c5);
  }

  /** The point {10, 20} is what `swap_point` needs. */
  lemma CallPre(p: Program)
    ensures PointPre(p, CallMem(), PointAddr(), 10, 20)
  {
    PointAddrTy(p, CallMem());
    FieldsDiffer(PointAddr());
  }

  /** The call `swap_point(&point)` returns and execution goes on with the
      fields exchanged. */
  lemma MainCall(fuel: nat, p: Program, f: Function, code: seq<Instr>)
    requires fuel >= 1 && |code| == 9 && code[5] == Call(3, SwapPointName, [Reg(0, PT)])
    requires SwapPointName in p.functions && p.functions[SwapPointName] == SwapPointFunction()
    ensures ExecCode(fuel, p, f, code, 5, M5()) == ExecCode(fuel, p, f, code, 6, M6())
  {
    assert [Reg(0, PT)][1..] == [] && [PtrV(PointAddr())] + [] == [PtrV(PointAddr())];
    assert EvalAll(p, M5(), [Reg(0, PT)]) == Some([PtrV(PointAddr())]);
    CallPre(p);
    SwapPointRuns(fuel - 1, p, CallMem(), PointAddr(), 10, 20);
  }

  function M6(): Ctx { M5().(mem := MainMem()) }

  function M7(): Ctx { M6().(regs := M6().regs[4 := PtrV(FieldAddr(PointAddr(), 0))]) }

  function M8(): Ctx { M7().(regs := M7().regs[5 := IntV(32, 20)]) }

  /** The address of `point.x` again. */
  lemma MainSegment3(p: Program, code: seq<Instr>)
    requires |code| == 9 && code[6] == FieldGep(4, PointTy, Reg(0, PT), 0)
    ensures Steps(p, code, 6, 7, M6(), M7())
  {
    var c6 := M6();
    PointAddrTy(p, MainMem());
    FieldIndices(p, c6, 0);
    var c7 := GepStep(p, code, 6, 4, PointTy, Reg(0, PT), [I32C(0), I32C(0)], c6, PointAddr(), [0, 0]);
    StepsOne(p, code, 6, 7, c6, c7, c7);
  }

  /** `point.x`, now 20, loaded. */
  lemma MainSegment4(p: Program, code: seq<Instr>)
    requires |code| == 9 && code[7] == Load(5, I32, Reg(4, P))
    ensures Steps(p, code, 7, 8, M7(), M8())
  {
    var c7 := M7();
    PointAddrTy(p, MainMem());
    FieldsDiffer(PointAddr());
    assert FieldAddr(PointAddr(), 0) in MainMem().cells && MainMem().cells[FieldAddr(PointAddr(), 0)] == IntV(32, 20);
    var c8 := LoadStep(p, code, 7, 5, I32, Reg(4, P), c7, FieldAddr(PointAddr(), 0), IntV(32, 20));
    StepsOne(p, code, 7, 8, c7, c8, c8);
  }

  /** `point.x` returned. */
  lemma MainTail(fuel: nat, p: Program, f: Function, code: seq<Instr>)
    requires |code| == 9 && code[6] == FieldGep(4, PointTy, Reg(0, PT), 0) && code[7] == Load(5, I32, Reg(4, P)) &&
      code[8] == Ret(Reg(5, I32))
    ensures ExecCode(fuel, p, f, code, 6, M6()) == Returned(MainMem(), Some(IntV(32, 20)))
  {
    MainSegment3(p, code);
    MainSegment4(p, code);
    ExecSteps(fuel, p, f, code, 6, 7, M6(), M7());
    ExecSteps(fuel, p, f, code, 7, 8, M7(), M8());
  }

  lemma MainFacts()
    ensures var code := MainListing();
      |code| == 9 && code[0] == Alloca(0, PointTy, ParamP) && code[1] == FieldGep(1, PointTy, Reg(0, PT), 0) &&
      code[2] == Store(I32C(10), Reg(1, P)) && code[3] == FieldGep(2, PointTy, Reg(0, PT), 1) &&
      code[4] == Store(I32C(20), Reg(2, P)) && code[5] == Call(3, SwapPointName, [Reg(0, PT)]) &&
      code[6] == FieldGep(4, PointTy, Reg(0, PT), 0) && code[7] == Load(5, I32, Reg(4, P)) &&
      code[8] == Ret(Reg(5, I32))
  {}

  lemma StructsProgramFacts(p: Program)
    requires p == StructsProgram()
    ensures Pointers.MainName in p.functions && p.functions[Pointers.MainName] == MainFunction()
    ensures SwapPointName in p.functions && p.functions[SwapPointName] == SwapPointFunction()
  {}

  /** With fuel for its one call, `main` returns 20, the point's initial
      `y`, and leaves the point's fields exchanged. */
  lemma {:induction false} MainReturnsTwenty(fuel: nat)
    requires fuel >= 1
    ensures var o := Run(fuel, StructsProgram(), Pointers.MainName, [], InitialMem);
      o == Returned(MainMem(), Some(IntV(32, 20))) &&
      Read(StructsProgram(), o.mem, FieldAddr(PointAddr(), 0)) == Some(IntV(32, 20)) &&
      Read(StructsProgram(), o.mem, FieldAddr(PointAddr(), 1)) == Some(IntV(32, 10))
  {
    var p := StructsProgram();
    var f := MainFunction();
    var code := MainListing();
    StructsProgramFacts(p);
    MainFacts();
    MainSegment1(p, code);
    MainSegment2(p, code);
    ExecSteps(fuel, p, f, code, 0, 3, Ctx([], map[], InitialMem), M3());
    ExecSteps(fuel, p, f, code, 3, 5, M3(), M5());
    MainCall(fuel, p, f, code);
    MainTail(fuel, p, f, code);
    FieldsDiffer(PointAddr());
  }

  /** Without fuel the call cannot be made. */
  lemma {:induction false} MainNeedsFuel()
    ensures Run(0, StructsProgram(), Pointers.MainName, [], InitialMem) == OutOfFuel
  {
    var p := StructsProgram();
    var f := MainFunction();
    var code := MainListing();
    StructsProgramFacts(p);
    MainFacts();
    MainSegment1(p, code);
    MainSegment2(p, code);
    ExecSteps(0, p, f, code, 0, 3, Ctx([], map[], InitialMem), M3());
    ExecSteps(0, p, f, code, 3, 5, M3(), M5());
    assert [Reg(0, PT)][1..] == [] && [PtrV(PointAddr())] + [] == [PtrV(PointAddr())];
    assert EvalAll(p, M5(), [Reg(0, PT)]) == Some([PtrV(PointAddr())]);
  }

  // swap_array

  /** Element `k` of the array `a` points into. */
  function ElemAddr(a: Addr, k: int): Addr
    requires |a.path| > 0
  {
    GepAddr(a, [k])
  }

  /** What `swap_array(a, x, y)` needs: `a` and its elements `x` and `y`
      are i32 locations in writable memory, the elements holding `vx` and
      `vy` (the same one when `x == y`, then `vx == vy`). */
  predicate ArrayPre(p: Program, m: Mem, a: Addr, x: int, y: int, vx: int, vy: int) {
    AddrTy(p, m, a) == Some(I32) && |a.path| > 0 && Writable(p, a) &&
    AddrTy(p, m, ElemAddr(a, x)) == Some(I32) && AddrTy(p, m, ElemAddr(a, y)) == Some(I32) &&
    Read(p, m, ElemAddr(a, x)) == Some(IntV(32, vx)) && Read(p, m, ElemAddr(a, y)) == Some(IntV(32, vy))
  }

  /** The four slots `swap_array` allocates: `arr`, `x`, `y`, `temp`. */
  function ArrayStack(m: Mem): seq<Ty> { m.stack + [P, I32, I32, I32] }

  /** The memory `swap_array` leaves: its slots (the arguments, then
      `temp = arr[x]`) and the two elements exchanged. */
  function ArrayMem(m: Mem, a: Addr, x: int, y: int, vx: int, vy: int): Mem
    requires |a.path| > 0
  {
    Mem(ArrayStack(m),
        m.cells[Slot(m, 0) := PtrV(a)][Slot(m, 2) := IntV(32, y)][Slot(m, 1) := IntV(32, x)][Slot(m, 3) := IntV(32, vx)]
               [ElemAddr(a, x) := IntV(32, vy)][ElemAddr(a, y) := IntV(32, vx)])
  }

  /** The facts about `a` and its elements every segment needs, in the
      memory with the four new slots. */
  lemma ArrayArg(p: Program, m: Mem, a: Addr, x: int, y: int, vx: int, vy: int, cells: map<Addr, Val>)
    requires ArrayPre(p, m, a, x, y, vx, vy)
    ensures AddrTy(p, Mem(ArrayStack(m), cells), a) == Some(I32)
    ensures AddrTy(p, Mem(ArrayStack(m), cells), ElemAddr(a, x)) == Some(I32)
    ensures AddrTy(p, Mem(ArrayStack(m), cells), ElemAddr(a, y)) == Some(I32)
    ensures ElemAddr(a, x) != Slot(m, 0) && ElemAddr(a, x) != Slot(m, 3)
    ensures ElemAddr(a, y) != Slot(m, 0) && ElemAddr(a, y) != Slot(m, 3)
  {
    StackGrows(p, m, [P, I32, I32, I32], cells, a);
    StackGrows(p, m, [P, I32, I32, I32], cells, ElemAddr(a, x));
    StackGrows(p, m, [P, I32, I32, I32], cells, ElemAddr(a, y));
  }

  /** An element of the array is none of the new slots. */
  lemma ElemNotSlot(p: Program, m: Mem, a: Addr, k: int)
    requires |a.path| > 0 && AddrTy(p, m, ElemAddr(a, k)).Some?
    ensures ElemAddr(a, k) != Slot(m, 0) && ElemAddr(a, k) != Slot(m, 3)
  {
    FreshSlots(p, m, ElemAddr(a, k));
  }

  function ArrayArgs(a: Addr, x: int, y: int): seq<Val> { [PtrV(a), IntV(32, x), IntV(32, y)] }

  // The states after instructions 4, 7, 10, ... of the body.

  function A0(m: Mem, a: Addr, x: int, y: int): Ctx { Ctx(ArrayArgs(a, x, y), map[], m) }

  function A4(m: Mem, a: Addr, x: int, y: int): Ctx {
    Ctx(ArrayArgs(a, x, y), map[0 := PtrV(Slot(m, 0)), 1 := PtrV(Slot(m, 1)), 2 := PtrV(Slot(m, 2)), 3 := PtrV(Slot(m, 3))],
        Mem(ArrayStack(m), m.cells))
  }

  function A7(m: Mem, a: Addr, x: int, y: int): Ctx {
    var c := A4(m, a, x, y);
    c.(mem := c.mem.(cells := m.cells[Slot(m, 0) := PtrV(a)][Slot(m, 2) := IntV(32, y)][Slot(m, 1) := IntV(32, x)]))
  }

  function A10(m: Mem, a: Addr, x: int, y: int): Ctx {
    var c := A7(m, a, x, y);
    c.(regs := c.regs[4 := PtrV(a)][5 := IntV(32, x)][6 := IntV(64, x)])
  }

  function A13(m: Mem, a: Addr, x: int, y: int, vx: int): Ctx
    requires |a.path| > 0
  {
    var c := A10(m, a, x, y);
    Ctx(c.args, c.regs[7 := PtrV(ElemAddr(a, x))][8 := IntV(32, vx)], c.mem.(cells := c.mem.cells[Slot(m, 3) := IntV(32, vx)]))
  }

  function A16(m: Mem, a: Addr, x: int, y: int, vx: int): Ctx
    requires |a.path| > 0
  {
    var c := A13(m, a, x, y, vx);
    c.(regs := c.regs[9 := PtrV(a)][10 := IntV(32, y)][11 := IntV(64, y)])
  }

  function A18(m: Mem, a: Addr, x: int, y: int, vx: int, vy: int): Ctx
    requires |a.path| > 0
  {
    var c := A16(m, a, x, y, vx);
    c.(regs := c.regs[12 := PtrV(ElemAddr(a, y))][13 := IntV(32, vy)])
  }

  function A19(m: Mem, a: Addr, x: int, y: int, vx: int, vy: int): Ctx
    requires |a.path| > 0
  {
    var c := A18(m, a, x, y, vx, vy);
    c.(regs := c.regs[14 := PtrV(a)])
  }

  function A22(m: Mem, a: Addr, x: int, y: int, vx: int, vy: int): Ctx
    requires |a.path| > 0
  {
    var c := A19(m, a, x, y, vx, vy);
    c.(regs := c.regs[15 := IntV(32, x)][16 := IntV(64, x)][17 := PtrV(ElemAddr(a, x))])
  }

  function A23(m: Mem, a: Addr, x: int, y: int, vx: int, vy: int): Ctx
    requires |a.path| > 0
  {
    var c := A22(m, a, x, y, vx, vy);
    c.(mem := c.mem.(cells := c.mem.cells[ElemAddr(a, x) := IntV(32, vy)]))
  }

  function A24(m: Mem, a: Addr, x: int, y: int, vx: int, vy: int): Ctx
    requires |a.path| > 0
  {
    var c := A23(m, a, x, y, vx, vy);
    c.(regs := c.regs[18 := IntV(32, vx)])
  }

  function A25(m: Mem, a: Addr, x: int, y: int, vx: int, vy: int): Ctx
    requires |a.path| > 0
  {
    var c := A24(m, a, x, y, vx, vy);
    c.(regs := c.regs[19 := PtrV(a)])
  }

  function A27(m: Mem, a: Addr, x: int, y: int, vx: int, vy: int): Ctx
    requires |a.path| > 0
  {
    var c := A25(m, a, x, y, vx, vy);
    c.(regs := c.regs[20 := IntV(32, y)][21 := IntV(64, y)])
  }

  function A28(m: Mem, a: Addr, x: int, y: int, vx: int, vy: int): Ctx
    requires |a.path| > 0
  {
    var c := A27(m, a, x, y, vx, vy);
    c.(regs := c.regs[22 := PtrV(ElemAddr(a, y))])
  }

  function A29(m: Mem, a: Addr, x: int, y: int, vx: int, vy: int): Ctx
    requires |a.path| > 0
  {
    A28(m, a, x, y, vx, vy).(mem := ArrayMem(m, a, x, y, vx, vy))
  }

  /** The four slots. */
  lemma ArraySegment1(p: Program, code: seq<Instr>, m: Mem, a: Addr, x: int, y: int)
    requires |code| == 30 && code[0] == Alloca(0, P, ParamArr) && code[1] == Alloca(1, I32, Pointers.ParamX) &&
      code[2] == Alloca(2, I32, Pointers.ParamY) && code[3] == Alloca(3, I32, Pointers.TempName)
    ensures Steps(p, code, 0, 4, A0(m, a, x, y), A4(m, a, x, y))
  {
    var c0 := A0(m, a, x, y);
    var c1 := AllocaStep(p, code, 0, 0, P, ParamArr, c0);
    var c2 := AllocaStep(p, code, 1, 1, I32, Pointers.ParamX, c1);
    var c3 := AllocaStep(p, code, 2, 2, I32, Pointers.ParamY, c2);
    var c4 := AllocaStep(p, code, 3, 3, I32, Pointers.TempName, c3);
    assert c4 == A4(m, a, x, y);
    StepsOne(p, code, 3, 4, c3, c4, c4);
    StepsOne(p, code, 2, 4, c2, c3, c4);
    StepsOne(p, code, 1, 4, c1, c2, c4);
    StepsOne(p, code, 0, 4, c0, c1, c4);
  }

  /** The arguments stored, `y` before `x`. */
  lemma ArraySegment2(p: Program, code: seq<Instr>, m: Mem, a: Addr, x: int, y: int)
    requires |code| == 30 && code[4] == Store(Arg(0, P), Reg(0, PP)) && code[5] == Store(Arg(2, I32), Reg(2, P)) &&
      code[6] == Store(Arg(1, I32), Reg(1, P))
    ensures Steps(p, code, 4, 7, A4(m, a, x, y), A7(m, a, x, y))
  {
    var c4 := A4(m, a, x, y);
    var c5 := StoreStep(p, code, 4, Arg(0, P), Reg(0, PP), c4, PtrV(a), Slot(m, 0));
    var c6 := StoreStep(p, code, 5, Arg(2, I32), Reg(2, P), c5, IntV(32, y), Slot(m, 2));
    var c7 := StoreStep(p, code, 6, Arg(1, I32), Reg(1, P), c6, IntV(32, x), Slot(m, 1));
    assert c7 == A7(m, a, x, y);
    StepsOne(p, code, 6, 7, c6, c7, c7);
    StepsOne(p, code, 5, 7, c5, c6, c7);
    StepsOne(p, code, 4, 7, c4, c5, c7);
  }

  /** `arr` and `x` loaded, `x` widened to i64. */
  lemma ArraySegment3(p: Program, code: seq<Instr>, m: Mem, a: Addr, x: int, y: int)
    requires |code| == 30 && code[7] == Load(4, P, Reg(0, PP)) && code[8] == Load(5, I32, Reg(1, P)) &&
      code[9] == SExt(6, Reg(5, I32), I64)
    ensures Steps(p, code, 7, 10, A7(m, a, x, y), A10(m, a, x, y))
  {
    var c7 := A7(m, a, x, y);
    var c8 := LoadStep(p, code, 7, 4, P, Reg(0, PP), c7, Slot(m, 0), PtrV(a));
    var c9 := LoadStep(p, code, 8, 5, I32, Reg(1, P), c8, Slot(m, 1), IntV(32, x));
    var c10 := SExtStep(p, code, 9, 6, Reg(5, I32), 64, c9, 32, x);
    assert c10 == A10(m, a, x, y);
    StepsOne(p, code, 9, 10, c9, c10, c10);
    StepsOne(p, code, 8, 10, c8, c9, c10);
    StepsOne(p, code, 7, 10, c7, c8, c10);
  }

  /** `temp = arr[x]`. */
  lemma ArraySegment4(p: Program, code: seq<Instr>, m: Mem, a: Addr, x: int, y: int, vx: int, vy: int)
    requires |code| == 30 && code[10] == Gep(7, I32, Reg(4, P), [Reg(6, I64)]) && code[11] == Load(8, I32, Reg(7, P)) &&
      code[12] == Store(Reg(8, I32), Reg(3, P))
    requires ArrayPre(p, m, a, x, y, vx, vy)
    ensures Steps(p, code, 10, 13, A10(m, a, x, y), A13(m, a, x, y, vx))
  {
    var c10 := A10(m, a, x, y);
    ArrayArg(p, m, a, x, y, vx, vy, c10.mem.cells);
    ElemIndices(p, c10, Reg(6, I64), x);
    var c11 := GepStep(p, code, 10, 7, I32, Reg(4, P), [Reg(6, I64)], c10, a, [x]);
    var c12 := LoadStep(p, code, 11, 8, I32, Reg(7, P), c11, ElemAddr(a, x), IntV(32, vx));
    var c13 := StoreStep(p, code, 12, Reg(8, I32), Reg(3, P), c12, IntV(32, vx), Slot(m, 3));
    assert c13 == A13(m, a, x, y, vx);
    StepsOne(p, code, 12, 13, c12, c13, c13);
    StepsOne(p, code, 11, 13, c11, c12, c13);
    StepsOne(p, code, 10, 13, c10, c11, c13);
  }

  /** `arr` and `y` loaded, `y` widened to i64. */
  lemma ArraySegment5(p: Program, code: seq<Instr>, m: Mem, a: Addr, x: int, y: int, vx: int)
    requires |code| == 30 && code[13] == Load(9, P, Reg(0, PP)) && code[14] == Load(10, I32, Reg(2, P)) &&
      code[15] == SExt(11, Reg(10, I32), I64)
    requires |a.path| > 0
    ensures Steps(p, code, 13, 16, A13(m, a, x, y, vx), A16(m, a, x, y, vx))
  {
    var c13 := A13(m, a, x, y, vx);
    var c14 := LoadStep(p, code, 13, 9, P, Reg(0, PP), c13, Slot(m, 0), PtrV(a));
    var c15 := LoadStep(p, code, 14, 10, I32, Reg(2, P), c14, Slot(m, 2), IntV(32, y));
    var c16 := SExtStep(p, code, 15, 11, Reg(10, I32), 64, c15, 32, y);
    assert c16 == A16(m, a, x, y, vx);
    StepsOne(p, code, 15, 16, c15, c16, c16);
    StepsOne(p, code, 14, 16, c14, c15, c16);
    StepsOne(p, code, 13, 16, c13, c14, c16);
  }

  /** `arr[y]` read. */
  lemma ArraySegment6(p: Program, code: seq<Instr>, m: Mem, a: Addr, x: int, y: int, vx: int, vy: int)
    requires |code| == 30 && code[16] == Gep(12, I32, Reg(9, P), [Reg(11, I64)]) && code[17] == Load(13, I32, Reg(12, P))
    requires ArrayPre(p, m, a, x, y, vx, vy)
    ensures Steps(p, code, 16, 18, A16(m, a, x, y, vx), A18(m, a, x, y, vx, vy))
  {
    var c16 := A16(m, a, x, y, vx);
    ArrayArg(p, m, a, x, y, vx, vy, c16.mem.cells);
    ElemIndices(p, c16, Reg(11, I64), y);
    var c17 := GepStep(p, code, 16, 12, I32, Reg(9, P), [Reg(11, I64)], c16, a, [y]);
    var c18 := LoadStep(p, code, 17, 13, I32, Reg(12, P), c17, ElemAddr(a, y), IntV(32, vy));
    assert c18 == A18(m, a, x, y, vx, vy);
    StepsOne(p, code, 17, 18, c17, c18, c18);
    StepsOne(p, code, 16, 18, c16, c17, c18);
  }

  /** `arr` loaded again. */
  lemma ArraySegment6b(p: Program, code: seq<Instr>, m: Mem, a: Addr, x: int, y: int, vx: int, vy: int)
    requires |code| == 30 && code[18] == Load(14, P, Reg(0, PP)) && |a.path| > 0
    ensures Steps(p, code, 18, 19, A18(m, a, x, y, vx, vy), A19(m, a, x, y, vx, vy))
  {
    var c18 := A18(m, a, x, y, vx, vy);
    var c19 := LoadStep(p, code, 18, 14, P, Reg(0, PP), c18, Slot(m, 0), PtrV(a));
    assert c19 == A19(m, a, x, y, vx, vy);
    StepsOne(p, code, 18, 19, c18, c19, c19);
  }

  /** The address of `arr[x]` again. */
  lemma ArraySegment7(p: Program, code: seq<Instr>, m: Mem, a: Addr, x: int, y: int, vx: int, vy: int)
    requires |code| == 30 && code[19] == Load(15, I32, Reg(1, P)) && code[20] == SExt(16, Reg(15, I32), I64) &&
      code[21] == Gep(17, I32, Reg(14, P), [Reg(16, I64)])
    requires ArrayPre(p, m, a, x, y, vx, vy)
    ensures Steps(p, code, 19, 22, A19(m, a, x, y, vx, vy), A22(m, a, x, y, vx, vy))
  {
    var c19 := A19(m, a, x, y, vx, vy);
    ArrayArg(p, m, a, x, y, vx, vy, c19.mem.cells);
    var c20 := LoadStep(p, code, 19, 15, I32, Reg(1, P), c19, Slot(m, 1), IntV(32, x));
    var c21 := SExtStep(p, code, 20, 16, Reg(15, I32), 64, c20, 32, x);
    ElemIndices(p, c21, Reg(16, I64), x);
    var c22 := GepStep(p, code, 21, 17, I32, Reg(14, P), [Reg(16, I64)], c21, a, [x]);
    assert c22 == A22(m, a, x, y, vx, vy);
    StepsOne(p, code, 21, 22, c21, c22, c22);
    StepsOne(p, code, 20, 22, c20, c21, c22);
    StepsOne(p, code, 19, 22, c19, c20, c22);
  }

  /** `arr[x] = arr[y]`. */
  lemma ArraySegment8(p: Program, code: seq<Instr>, m: Mem, a: Addr, x: int, y: int, vx: int, vy: int)
    requires |code| == 30 && code[22] == Store(Reg(13, I32), Reg(17, P))
    requires ArrayPre(p, m, a, x, y, vx, vy)
    ensures Steps(p, code, 22, 23, A22(m, a, x, y, vx, vy), A23(m, a, x, y, vx, vy))
  {
    var c22 := A22(m, a, x, y, vx, vy);
    ArrayArg(p, m, a, x, y, vx, vy, c22.mem.cells);
    var c23 := StoreStep(p, code, 22, Reg(13, I32), Reg(17, P), c22, IntV(32, vy), ElemAddr(a, x));
    assert c23 == A23(m, a, x, y, vx, vy);
    StepsOne(p, code, 22, 23, c22, c23, c23);
  }

  /** `temp` read back. */
  lemma ArraySegment8b(p: Program, code: seq<Instr>, m: Mem, a: Addr, x: int, y: int, vx: int, vy: int)
    requires |code| == 30 && code[23] == Load(18, I32, Reg(3, P))
    requires ArrayPre(p, m, a, x, y, vx, vy)
    ensures Steps(p, code, 23, 24, A23(m, a, x, y, vx, vy), A24(m, a, x, y, vx, vy))
  {
    var c23 := A23(m, a, x, y, vx, vy);
    ElemNotSlot(p, m, a, x);
    var c24 := LoadStep(p, code, 23, 18, I32, Reg(3, P), c23, Slot(m, 3), IntV(32, vx));
    StepsOne(p, code, 23, 24, c23, c24, c24);
  }

  /** `arr` loaded again. */
  lemma ArraySegment8c(p: Program, code: seq<Instr>, m: Mem, a: Addr, x: int, y: int, vx: int, vy: int)
    requires |code| == 30 && code[24] == Load(19, P, Reg(0, PP))
    requires ArrayPre(p, m, a, x, y, vx, vy)
    ensures Steps(p, code, 24, 25, A24(m, a, x, y, vx, vy), A25(m, a, x, y, vx, vy))
  {
    var c24 := A24(m, a, x, y, vx, vy);
    ElemNotSlot(p, m, a, x);
    var c25 := LoadStep(p, code, 24, 19, P, Reg(0, PP), c24, Slot(m, 0), PtrV(a));
    StepsOne(p, code, 24, 25, c24, c25, c25);
  }

  /** `y` loaded and widened to i64. */
  lemma ArraySegment9(p: Program, code: seq<Instr>, m: Mem, a: Addr, x: int, y: int, vx: int, vy: int)
    requires |code| == 30 && code[25] == Load(20, I32, Reg(2, P)) && code[26] == SExt(21, Reg(20, I32), I64)
    requires ArrayPre(p, m, a, x, y, vx, vy)
    ensures Steps(p, code, 25, 27, A25(m, a, x, y, vx, vy), A27(m, a, x, y, vx, vy))
  {
    var c25 := A25(m, a, x, y, vx, vy);
    ElemNotSlot(p, m, a, x);
    var c26 := LoadStep(p, code, 25, 20, I32, Reg(2, P), c25, Slot(m, 2), IntV(32, y));
    var c27 := SExtStep(p, code, 26, 21, Reg(20, I32), 64, c26, 32, y);
    StepsOne(p, code, 26, 27, c26, c27, c27);
    StepsOne(p, code, 25, 27, c25, c26, c27);
  }

  /** The address of `arr[y]` again. */
  lemma ArraySegment9b(p: Program, code: seq<Instr>, m: Mem, a: Addr, x: int, y: int, vx: int, vy: int)
    requires |code| == 30 && code[27] == Gep(22, I32, Reg(19, P), [Reg(21, I64)])
    requires ArrayPre(p, m, a, x, y, vx, vy)
    ensures Steps(p, code, 27, 28, A27(m, a, x, y, vx, vy), A28(m, a, x, y, vx, vy))
  {
    var c27 := A27(m, a, x, y, vx, vy);
    ArrayArg(p, m, a, x, y, vx, vy, c27.mem.cells);
    ElemIndices(p, c27, Reg(21, I64), y);
    var c28 := GepStep(p, code, 27, 22, I32, Reg(19, P), [Reg(21, I64)], c27, a, [y]);
    StepsOne(p, code, 27, 28, c27, c28, c28);
  }

  /** `arr[y] = temp`. */
  lemma ArraySegment10(p: Program, code: seq<Instr>, m: Mem, a: Addr, x: int, y: int, vx: int, vy: int)
    requires |code| == 30 && code[28] == Store(Reg(18, I32), Reg(22, P))
    requires ArrayPre(p, m, a, x, y, vx, vy)
    ensures Steps(p, code, 28, 29, A28(m, a, x, y, vx, vy), A29(m, a, x, y, vx, vy))
  {
    var c28 := A28(m, a, x, y, vx, vy);
    ArrayArg(p, m, a, x, y, vx, vy, c28.mem.cells);
    var c29 := StoreStep(p, code, 28, Reg(18, I32), Reg(22, P), c28, IntV(32, vx), ElemAddr(a, y));
    assert c29 == A29(m, a, x, y, vx, vy);
    StepsOne(p, code, 28, 29, c28, c29, c29);
  }

  lemma ArrayFirstThird(fuel: nat, p: Program, f: Function, code: seq<Instr>, m: Mem, a: Addr, x: int, y: int, vx: int, vy: int)
    requires |code| == 30 && code[0] == Alloca(0, P, ParamArr) && code[1] == Alloca(1, I32, Pointers.ParamX) &&
      code[2] == Alloca(2, I32, Pointers.ParamY) && code[3] == Alloca(3, I32, Pointers.TempName) &&
      code[4] == Store(Arg(0, P), Reg(0, PP)) && code[5] == Store(Arg(2, I32), Reg(2, P)) &&
      code[6] == Store(Arg(1, I32), Reg(1, P)) && code[7] == Load(4, P, Reg(0, PP)) &&
      code[8] == Load(5, I32, Reg(1, P)) && code[9] == SExt(6, Reg(5, I32), I64)
    ensures ExecCode(fuel, p, f, code, 0, A0(m, a, x, y)) == ExecCode(fuel, p, f, code, 10, A10(m, a, x, y))
  {
    ArraySegment1(p, code, m, a, x, y);
    ArraySegment2(p, code, m, a, x, y);
    ArraySegment3(p, code, m, a, x, y);
    ExecSteps(fuel, p, f, code, 0, 4, A0(m, a, x, y), A4(m, a, x, y));
    ExecSteps(fuel, p, f, code, 4, 7, A4(m, a, x, y), A7(m, a, x, y));
    ExecSteps(fuel, p, f, code, 7, 10, A7(m, a, x, y), A10(m, a, x, y));
  }

  lemma ArraySecondThird(fuel: nat, p: Program, f: Function, code: seq<Instr>, m: Mem, a: Addr, x: int, y: int, vx: int, vy: int)
    requires |code| == 30 && code[10] == Gep(7, I32, Reg(4, P), [Reg(6, I64)]) && code[11] == Load(8, I32, Reg(7, P)) &&
      code[12] == Store(Reg(8, I32), Reg(3, P)) && code[13] == Load(9, P, Reg(0, PP)) &&
      code[14] == Load(10, I32, Reg(2, P)) && code[15] == SExt(11, Reg(10, I32), I64) &&
      code[16] == Gep(12, I32, Reg(9, P), [Reg(11, I64)]) && code[17] == Load(13, I32, Reg(12, P)) &&
      code[18] == Load(14, P, Reg(0, PP))
    requires ArrayPre(p, m, a, x, y, vx, vy)
    ensures ExecCode(fuel, p, f, code, 10, A10(m, a, x, y)) == ExecCode(fuel, p, f, code, 19, A19(m, a, x, y, vx, vy))
  {
    ArraySegment4(p, code, m, a, x, y, vx, vy);
    ArraySegment5(p, code, m, a, x, y, vx);
    ArraySegment6(p, code, m, a, x, y, vx, vy);
    ArraySegment6b(p, code, m, a, x, y, vx, vy);
    ExecSteps(fuel, p, f, code, 10, 13, A10(m, a, x, y), A13(m, a, x, y, vx));
    ExecSteps(fuel, p, f, code, 13, 16, A13(m, a, x, y, vx), A16(m, a, x, y, vx));
    ExecSteps(fuel, p, f, code, 16, 18, A16(m, a, x, y, vx), A18(m, a, x, y, vx, vy));
    ExecSteps(fuel, p, f, code, 18, 19, A18(m, a, x, y, vx, vy), A19(m, a, x, y, vx, vy));
  }

  lemma ArrayLastThird(fuel: nat, p: Program, f: Function, code: seq<Instr>, m: Mem, a: Addr, x: int, y: int, vx: int, vy: int)
    requires |code| == 30 && code[19] == Load(15, I32, Reg(1, P)) && code[20] == SExt(16, Reg(15, I32), I64) &&
      code[21] == Gep(17, I32, Reg(14, P), [Reg(16, I64)]) && code[22] == Store(Reg(13, I32), Reg(17, P)) &&
      code[23] == Load(18, I32, Reg(3, P)) && code[24] == Load(19, P, Reg(0, PP)) &&
      code[25] == Load(20, I32, Reg(2, P)) && code[26] == SExt(21, Reg(20, I32), I64) &&
      code[27] == Gep(22, I32, Reg(19, P), [Reg(21, I64)]) && code[28] == Store(Reg(18, I32), Reg(22, P)) &&
      code[29] == RetVoid
    requires ArrayPre(p, m, a, x, y, vx, vy)
    ensures ExecCode(fuel, p, f, code, 19, A19(m, a, x, y, vx, vy)) == Returned(ArrayMem(m, a, x, y, vx, vy), None)
  {
    ArraySegment7(p, code, m, a, x, y, vx, vy);
    ArraySegment8(p, code, m, a, x, y, vx, vy);
    ArraySegment8b(p, code, m, a, x, y, vx, vy);
    ArraySegment8c(p, code, m, a, x, y, vx, vy);
    ArraySegment9(p, code, m, a, x, y, vx, vy);
    ArraySegment9b(p, code, m, a, x, y, vx, vy);
    ArraySegment10(p, code, m, a, x, y, vx, vy);
    ExecSteps(fuel, p, f, code, 19, 22, A19(m, a, x, y, vx, vy), A22(m, a, x, y, vx, vy));
    ExecSteps(fuel, p, f, code, 22, 23, A22(m, a, x, y, vx, vy), A23(m, a, x, y, vx, vy));
    ExecSteps(fuel, p, f, code, 23, 24, A23(m, a, x, y, vx, vy), A24(m, a, x, y, vx, vy));
    ExecSteps(fuel, p, f, code, 24, 25, A24(m, a, x, y, vx, vy), A25(m, a, x, y, vx, vy));
    ExecSteps(fuel, p, f, code, 25, 27, A25(m, a, x, y, vx, vy), A27(m, a, x, y, vx, vy));
    ExecSteps(fuel, p, f, code, 27, 28, A27(m, a, x, y, vx, vy), A28(m, a, x, y, vx, vy));
    ExecSteps(fuel, p, f, code, 28, 29, A28(m, a, x, y, vx, vy), A29(m, a, x, y, vx, vy));
  }

  lemma ArrayFirstFacts()
    ensures var code := SwapArrayListing();
      |code| == 30 && code[0] == Alloca(0, P, ParamArr) && code[1] == Alloca(1, I32, Pointers.ParamX) &&
      code[2] == Alloca(2, I32, Pointers.ParamY) && code[3] == Alloca(3, I32, Pointers.TempName) &&
      code[4] == Store(Arg(0, P), Reg(0, PP)) && code[5] == Store(Arg(2, I32), Reg(2, P)) &&
      code[6] == Store(Arg(1, I32), Reg(1, P)) && code[7] == Load(4, P, Reg(0, PP)) &&
      code[8] == Load(5, I32, Reg(1, P)) && code[9] == SExt(6, Reg(5, I32), I64)
  {}

  lemma ArraySecondFacts()
    ensures var code := SwapArrayListing();
      |code| == 30 && code[10] == Gep(7, I32, Reg(4, P), [Reg(6, I64)]) && code[11] == Load(8, I32, Reg(7, P)) &&
      code[12] == Store(Reg(8, I32), Reg(3, P)) && code[13] == Load(9, P, Reg(0, PP)) &&
      code[14] == Load(10, I32, Reg(2, P)) && code[15] == SExt(11, Reg(10, I32), I64) &&
      code[16] == Gep(12, I32, Reg(9, P), [Reg(11, I64)]) && code[17] == Load(13, I32, Reg(12, P)) &&
      code[18] == Load(14, P, Reg(0, PP))
  {}

  lemma ArrayLastFacts()
    ensures var code := SwapArrayListing();
      |code| == 30 && code[19] == Load(15, I32, Reg(1, P)) && code[20] == SExt(16, Reg(15, I32), I64) &&
      code[21] == Gep(17, I32, Reg(14, P), [Reg(16, I64)]) && code[22] == Store(Reg(13, I32), Reg(17, P)) &&
      code[23] == Load(18, I32, Reg(3, P)) && code[24] == Load(19, P, Reg(0, PP)) &&
      code[25] == Load(20, I32, Reg(2, P)) && code[26] == SExt(21, Reg(20, I32), I64) &&
      code[27] == Gep(22, I32, Reg(19, P), [Reg(21, I64)]) && code[28] == Store(Reg(18, I32), Reg(22, P)) &&
      code[29] == RetVoid
  {}

  /** `swap_array(a, x, y)`, in any program that defines it as its emitter
      would, returns with any fuel, leaving exactly `ArrayMem`. */
  lemma SwapArrayRuns(fuel: nat, p: Program, m: Mem, a: Addr, x: int, y: int, vx: int, vy: int)
    requires SwapArrayName in p.functions && p.functions[SwapArrayName] == SwapArrayFunction()
    requires ArrayPre(p, m, a, x, y, vx, vy)
    ensures Run(fuel, p, SwapArrayName, ArrayArgs(a, x, y), m) == Returned(ArrayMem(m, a, x, y, vx, vy), None)
  {
    var f := SwapArrayFunction();
    var code := SwapArrayListing();
    ArrayFirstFacts();
    ArraySecondFacts();
    ArrayLastFacts();
    ArrayFirstThird(fuel, p, f, code, m, a, x, y, vx, vy);
    ArraySecondThird(fuel, p, f, code, m, a, x, y, vx, vy);
    ArrayLastThird(fuel, p, f, code, m, a, x, y, vx, vy);
  }

  /** After `swap_array(a, x, y)`, element `x` holds the old element `y`
      and element `y` the old element `x`; every location outside its own
      slots is otherwise unchanged. */
  lemma {:induction false} SwapArraySwaps(fuel: nat, p: Program, m: Mem, a: Addr, x: int, y: int, vx: int, vy: int, z: Addr)
    requires SwapArrayName in p.functions && p.functions[SwapArrayName] == SwapArrayFunction()
    requires ArrayPre(p, m, a, x, y, vx, vy)
    requires AddrTy(p, m, z).Some? && z != ElemAddr(a, x) && z != ElemAddr(a, y)
    ensures var o := Run(fuel, p, SwapArrayName, ArrayArgs(a, x, y), m);
      o.Returned? && Read(p, o.mem, ElemAddr(a, x)) == Some(IntV(32, vy)) &&
      Read(p, o.mem, ElemAddr(a, y)) == Some(IntV(32, vx)) && Read(p, o.mem, z) == Read(p, m, z)
  {
    SwapArrayRuns(fuel, p, m, a, x, y, vx, vy);
    ArrayArg(p, m, a, x, y, vx, vy, m.cells);
    StackGrows(p, m, [], m.cells, z);
    if x == y {
      assert vx == vy;
    }
  }
}
