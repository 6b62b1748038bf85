/** Straight-line execution: a run of instructions that are neither calls nor
    terminators, described one step at a time, and the facts that let a
    proof about a whole function be split into short segments. */
module Exec {
  import opened Wrappers
  import opened Ir
  import opened Interp

  predicate Simple(i: Instr) { !i.Call? && !IsTerminator(i) }

  /** The instructions `code[lo..hi]` are all simple and take `c` to `c2`
      without an error. */
  predicate Steps(p: Program, code: seq<Instr>, lo: nat, hi: nat, c: Ctx, c2: Ctx)
    requires lo <= hi <= |code|
    decreases hi - lo
  {
    if lo == hi then c == c2
    else Simple(code[lo]) && Step(p, code[lo], c).Success? && Steps(p, code, lo + 1, hi, Step(p, code[lo], c).value, c2)
  }

  lemma StepsOne(p: Program, code: seq<Instr>, lo: nat, hi: nat, c: Ctx, c1: Ctx, c2: Ctx)
    requires lo < hi <= |code| && Simple(code[lo]) && Step(p, code[lo], c) == Success(c1)
    requires Steps(p, code, lo + 1, hi, c1, c2)
    ensures Steps(p, code, lo, hi, c, c2)
  {}

  /** A straight-line run can be skipped over: executing from `lo` is
      executing from `hi` in the state the run reaches. */
  lemma {:induction false} ExecSteps(fuel: nat, p: Program, f: Function, code: seq<Instr>, lo: nat, hi: nat, c: Ctx, c2: Ctx)
    requires lo <= hi <= |code| && Steps(p, code, lo, hi, c, c2)
    ensures ExecCode(fuel, p, f, code, lo, c) == ExecCode(fuel, p, f, code, hi, c2)
    decreases hi - lo
  {
    if lo < hi {
      ExecSteps(fuel, p, f, code, lo + 1, hi, Step(p, code[lo], c).value, c2);
    }
  }

  /** `ret void` ends the function with the memory as it is. */
  lemma RetVoidReturns(fuel: nat, p: Program, f: Function, code: seq<Instr>, pc: nat, c: Ctx)
    requires pc < |code| && code[pc] == RetVoid
    ensures ExecCode(fuel, p, f, code, pc, c) == Returned(c.mem, None)
  {}

  /** The operands of a two-argument call. */
  lemma EvalAllTwo(p: Program, c: Ctx, u: Value, v: Value, x: Val, y: Val)
    requires Eval(p, c, u) == Some(x) && Eval(p, c, v) == Some(y)
    ensures EvalAll(p, c, [u, v]) == Some([x, y])
  {
    assert [v][1..] == [] && [y] + [] == [y];
    assert EvalAll(p, c, [v]) == Some([y]);
    assert [u, v][1..] == [v] && [x] + [y] == [x, y];
  }

  /** A stack slot allocated after an address was valid is a different
      object. */
  lemma FreshSlots(p: Program, m: Mem, a: Addr)
    requires AddrTy(p, m, a).Some?
    ensures forall k: nat :: k >= |m.stack| ==> a.base != StackObj(k)
  {}

  // One lemma per kind of simple instruction: the state after it, given
  // the facts its operands need.

  lemma AllocaStep(p: Program, code: seq<Instr>, pc: nat, d: nat, t: Ty, nm: string, c: Ctx) returns (c2: Ctx)
    requires pc < |code| && code[pc] == Alloca(d, t, nm)
    ensures c2 == c.(regs := c.regs[d := PtrV(ObjAddr(StackObj(|c.mem.stack|)))],
                     mem := c.mem.(stack := c.mem.stack + [t]))
    ensures Simple(code[pc]) && Step(p, code[pc], c) == Success(c2)
  {
    c2 := Step(p, code[pc], c).value;
  }

  lemma LoadStep(p: Program, code: seq<Instr>, pc: nat, d: nat, t: Ty, av: Value, c: Ctx, ad: Addr, v: Val) returns (c2: Ctx)
    requires pc < |code| && code[pc] == Load(d, t, av)
    requires Eval(p, c, av) == Some(PtrV(ad)) && AddrTy(p, c.mem, ad) == Some(t)
    requires IsScalar(t) && Read(p, c.mem, ad) == Some(v) && HasType(v, t)
    ensures c2 == c.(regs := c.regs[d := v])
    ensures Simple(code[pc]) && Step(p, code[pc], c) == Success(c2)
  {
    c2 := Step(p, code[pc], c).value;
  }

  lemma StoreStep(p: Program, code: seq<Instr>, pc: nat, vv: Value, av: Value, c: Ctx, x: Val, ad: Addr) returns (c2: Ctx)
    requires pc < |code| && code[pc] == Store(vv, av)
    requires Eval(p, c, vv) == Some(x) && Eval(p, c, av) == Some(PtrV(ad))
    requires AddrTy(p, c.mem, ad).Some? && IsScalar(AddrTy(p, c.mem, ad).value) && HasType(x, AddrTy(p, c.mem, ad).value)
    requires Writable(p, ad)
    ensures c2 == c.(mem := c.mem.(cells := c.mem.cells[ad := x]))
    ensures Simple(code[pc]) && Step(p, code[pc], c) == Success(c2)
  {
    c2 := Step(p, code[pc], c).value;
  }

  lemma AddStep(p: Program, code: seq<Instr>, pc: nat, d: nat, l: Value, r: Value, c: Ctx, b: nat, x: int, y: int) returns (c2: Ctx)
    requires pc < |code| && code[pc] == AddNsw(d, l, r)
    requires Eval(p, c, l) == Some(IntV(b, x)) && Eval(p, c, r) == Some(IntV(b, y)) && InSignedRange(b, x + y)
    ensures c2 == c.(regs := c.regs[d := IntV(b, x + y)])
    ensures Simple(code[pc]) && Step(p, code[pc], c) == Success(c2)
  {
    c2 := Step(p, code[pc], c).value;
  }

  lemma ICmpStep(p: Program, code: seq<Instr>, pc: nat, d: nat, pred: IPred, l: Value, r: Value, c: Ctx, b: nat, x: int, y: int) returns (c2: Ctx)
    requires pc < |code| && code[pc] == ICmp(d, pred, l, r)
    requires Eval(p, c, l) == Some(IntV(b, x)) && Eval(p, c, r) == Some(IntV(b, y))
    ensures c2 == c.(regs := c.regs[d := Bit(IHolds(pred, x, y))])
    ensures Simple(code[pc]) && Step(p, code[pc], c) == Success(c2)
  {
    c2 := Step(p, code[pc], c).value;
  }

  lemma FCmpStep(p: Program, code: seq<Instr>, pc: nat, d: nat, pred: FPred, l: Value, r: Value, c: Ctx, x: real, y: real) returns (c2: Ctx)
    requires pc < |code| && code[pc] == FCmp(d, pred, l, r)
    requires Eval(p, c, l) == Some(FloatV(x)) && Eval(p, c, r) == Some(FloatV(y))
    ensures c2 == c.(regs := c.regs[d := Undetermined])
    ensures Simple(code[pc]) && Step(p, code[pc], c) == Success(c2)
  {
    c2 := Step(p, code[pc], c).value;
  }

  lemma GepStep(p: Program, code: seq<Instr>, pc: nat, d: nat, t: Ty, bv: Value, idx: seq<Value>, c: Ctx, ad: Addr, ks: seq<int>) returns (c2: Ctx)
    requires pc < |code| && code[pc] == Gep(d, t, bv, idx)
    requires Eval(p, c, bv) == Some(PtrV(ad)) && EvalIndices(p, c, idx) == Some(ks)
    requires |ks| > 0 && AddrTy(p, c.mem, ad) == Some(t)
    ensures c2 == c.(regs := c.regs[d := PtrV(GepAddr(ad, ks))])
    ensures Simple(code[pc]) && Step(p, code[pc], c) == Success(c2)
  {
    c2 := Step(p, code[pc], c).value;
  }

  lemma SExtStep(p: Program, code: seq<Instr>, pc: nat, d: nat, v: Value, w: nat, c: Ctx, b: nat, x: int) returns (c2: Ctx)
    requires pc < |code| && code[pc] == SExt(d, v, Int(w))
    requires Eval(p, c, v) == Some(IntV(b, x)) && w >= b
    ensures c2 == c.(regs := c.regs[d := IntV(w, x)])
    ensures Simple(code[pc]) && Step(p, code[pc], c) == Success(c2)
  {
    c2 := Step(p, code[pc], c).value;
  }

  /** 2^n is at least 64 from n = 6 on. */
  lemma {:induction false} Pow2AtLeast64(n: nat)
    requires n >= 6
    ensures Pow2(n) >= 64
    decreases n
  {
    if n > 6 {
      Pow2AtLeast64(n - 1);
    } else {
      assert Pow2(1) == 2 && Pow2(2) == 4 && Pow2(3) == 8 && Pow2(4) == 16 && Pow2(5) == 32;
    }
  }

  /** Small values stay in the signed 32-bit range. */
  lemma SmallInI32(x: int)
    requires -64 <= x < 64
    ensures InSignedRange(32, x)
  {
    Pow2AtLeast64(31);
  }
}
