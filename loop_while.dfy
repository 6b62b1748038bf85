/** The `while` loop demo: the same three globals as the `for` loop demo
    and a `main` whose body block both adds `index` into `result` and
    increments `index` before jumping back to the condition; there is no
    increment block. */
module LoopWhile {
  import opened Wrappers
  import opened Ir
  import opened Builder
  import LoopFor

  const MainName: string := "main"
  const EntryName: string := "entry"
  const CondBB: string := "condition"
  const BodyBB: string := "body"
  const EndBB: string := "end"
  const F1Name: string := "f_1"
  const F2Name: string := "f_2"

  /** The globals `emitFloats` leaves in a module `gs`. */
  function FloatDefined(gs: map<string, Global>): map<string, Global> {
    Define(Define(gs, Float, F1Name, FloatC(Float, 1.0)), Float, F2Name, FloatC(Float, 2.0))
  }

  /** `emitFloats`: f_1 = 1.0 and f_2 = 2.0 as floats; `emitProgram` never
      calls it. */
  method EmitFloats(s: Session)
    requires Redefinable(s.globals, F1Name, Float) && Redefinable(s.globals, F2Name, Float)
    modifies s`globals
    ensures s.globals == FloatDefined(old(s.globals))
  {
    var g := s.DefineGlobal(F1Name, FloatC(Float, 1.0));
    g := s.DefineGlobal(F2Name, FloatC(Float, 2.0));
  }

  // What the statement list emits into each block, registers from `n` on,
  // with the blocks it creates at `k` (condition), `k + 1` (body) and
  // `k + 2` (end). The entry code and the end block's load are those of
  // the `for` loop demo.

  /** `index <= end`: to the body when it holds, else to the end. */
  function CondCode(n: nat, k: nat, gs: map<string, Global>): Code
    requires LoopFor.Loadable(gs)
  {
    Snoc(Snoc(Snoc(Snoc(Empty, Load(n + 2, I32, LoopFor.IndexSlot(n))), LoopFor.LoadG(n + 3, LoopFor.EndName, gs[LoopFor.EndName])),
      ICmp(n + 4, SLE, Reg(n + 2, I32), LoopFor.RegOf(n + 3, gs[LoopFor.EndName]))), CondBr(Reg(n + 4, I1), k + 1, k + 2))
  }

  /** `result = result + index;` at the head of the body block. */
  function SumCode(n: nat, gs: map<string, Global>): Code
    requires LoopFor.Loadable(gs)
  {
    var g := gs[LoopFor.ResultName];
    Snoc(Snoc(Snoc(Snoc(Empty, LoopFor.LoadG(n + 5, LoopFor.ResultName, g)), Load(n + 6, I32, LoopFor.IndexSlot(n))),
      AddNsw(n + 7, LoopFor.RegOf(n + 5, g), Reg(n + 6, I32))), Store(LoopFor.RegOf(n + 7, g), GlobalV(LoopFor.ResultName, g.ty)))
  }

  /** After the code `c`: `index = index + 1` and the jump back to the
      condition block `k`. */
  function IncAfter(c: Code, n: nat, k: nat): Code {
    Snoc(Snoc(Snoc(Snoc(c, Load(n + 8, I32, LoopFor.IndexSlot(n))), AddNsw(n + 9, Reg(n + 8, I32), I32C(1))),
      Store(Reg(n + 9, I32), LoopFor.IndexSlot(n))), Br(k))
  }

  /** The whole body block. */
  function WhileBodyCode(n: nat, k: nat, gs: map<string, Global>): Code
    requires LoopFor.Loadable(gs)
  {
    IncAfter(SumCode(n, gs), n, k)
  }

  /** The condition block's instructions, at an empty insertion block. */
  method EmitCondition(s: Session, indexAddr: Value, body: nat, end: nat)
    requires s.Positioned() && LoopFor.Loadable(s.globals) && s.cur == Empty && s.nextReg >= 2
    requires indexAddr == LoopFor.IndexSlot(s.nextReg - 2) && end == body + 1 && body > 0
    modifies s`cur, s`nextReg
    ensures s.cur == CondCode(old(s.nextReg) - 2, body - 1, s.globals) && s.nextReg == old(s.nextReg) + 3
  {
    var indexV := s.EmitLoadValue(indexAddr);
    var endV := s.EmitLoadGlobal(LoopFor.EndName);
    var compare := s.CreateICmp(SLE, indexV, endV);
    s.CreateCondBr(compare, body, end);
  }

  /** `result = result + index;` into an empty body block. */
  method EmitSum(s: Session, indexAddr: Value)
    requires s.Positioned() && LoopFor.Loadable(s.globals) && s.cur == Empty && s.nextReg >= 5
    requires indexAddr == LoopFor.IndexSlot(s.nextReg - 5)
    modifies s`cur, s`nextReg
    ensures s.cur == SumCode(old(s.nextReg) - 5, s.globals) && s.nextReg == old(s.nextReg) + 3
  {
    var resultV := s.EmitLoadGlobal(LoopFor.ResultName);
    var indexV := s.EmitLoadValue(indexAddr);
    var sum := s.CreateNSWAdd(resultV, indexV);
    s.EmitStoreGlobalVar(sum, LoopFor.ResultName);
  }

  /** `index = index + 1` through `genIncrement`, and the jump back. */
  method EmitIncrementBack(s: Session, indexAddr: Value, cond: nat)
    requires s.Positioned() && s.nextReg >= 8 && indexAddr == LoopFor.IndexSlot(s.nextReg - 8)
    modifies s`cur, s`nextReg
    ensures s.cur == IncAfter(old(s.cur), old(s.nextReg) - 8, cond) && s.nextReg == old(s.nextReg) + 2
  {
    var incVal := s.GenIncrement(indexAddr, 1);
    s.CreateStore(incVal, indexAddr);
    s.CreateBr(cond);
  }

  /** Block creation, the entry code and the condition block: the
      insertion point is left in the condition block. */
  method EmitEntryAndCondition(s: Session) returns (indexAddr: Value)
    requires s.Positioned() && LoopFor.Loadable(s.globals)
    modifies s`blocks, s`insert, s`cur, s`nextReg
    ensures var n, k := old(s.nextReg), |old(s.blocks)|;
      s.blocks == old(s.blocks)[old(s.insert) := Draft(old(s.blocks[s.insert].name), LoopFor.EntryCode(old(s.cur), n, k, s.globals))] +
        [Draft(CondBB, Empty), Draft(BodyBB, Empty), Draft(EndBB, Empty)] &&
      s.insert == k && s.cur == CondCode(n, k, s.globals) && s.nextReg == n + 5 && indexAddr == LoopFor.IndexSlot(n)
  {
    var conditionBB := s.CreateBB(CondBB);
    var bodyBB := s.CreateBB(BodyBB);
    var endBB := s.CreateBB(EndBB);
    indexAddr := LoopFor.EmitEntry(s, conditionBB);
    s.SetInsertPoint(conditionBB);
    EmitCondition(s, indexAddr, bodyBB, endBB);
  }

  /** The body and end blocks, from the condition block on. */
  method EmitBodyToEnd(s: Session, indexAddr: Value) returns (v: Value)
    requires LoopFor.Loadable(s.globals) && s.nextReg >= 5 && indexAddr == LoopFor.IndexSlot(s.nextReg - 5)
    requires |s.blocks| >= 3 && s.insert == |s.blocks| - 3
    requires s.blocks[s.insert + 1].code == Empty && s.blocks[s.insert + 2].code == Empty
    modifies s`blocks, s`insert, s`cur, s`nextReg
    ensures var n, k := old(s.nextReg) - 5, old(s.insert);
      s.blocks == old(s.blocks)[k := Draft(old(s.blocks[k].name), old(s.cur))][k + 1 := Draft(old(s.blocks[k + 1].name), WhileBodyCode(n, k, s.globals))] &&
      s.insert == k + 2 && s.cur == LoopFor.EndCode(n, s.globals) && s.nextReg == n + 11 && v == LoopFor.RegOf(n + 10, s.globals[LoopFor.ResultName])
  {
    var k := s.insert;
    s.SetInsertPoint(k + 1);
    EmitSum(s, indexAddr);
    EmitIncrementBack(s, indexAddr, k);
    s.SetInsertPoint(k + 2);
    v := s.EmitLoadGlobal(LoopFor.ResultName);
  }

  /** The three blocks the statement list creates, as it leaves them. */
  function WhileDrafts(n: nat, k: nat, gs: map<string, Global>): seq<Draft>
    requires LoopFor.Loadable(gs)
  {
    [Draft(CondBB, CondCode(n, k, gs)), Draft(BodyBB, WhileBodyCode(n, k, gs)), Draft(EndBB, LoopFor.EndCode(n, gs))]
  }

  /** `emitMainFunctionStatementList`: three new blocks after the current
      ones, the entry code appended to the insertion block, and the
      insertion point left in the end block, whose load of `result` is the
      value to return. */
  method EmitMainFunctionStatementList(s: Session) returns (v: Value)
    requires s.Positioned() && LoopFor.Loadable(s.globals)
    modifies s`blocks, s`insert, s`cur, s`nextReg
    ensures var n, k := old(s.nextReg), |old(s.blocks)|;
      s.Blocks() == old(s.blocks)[old(s.insert) := Draft(old(s.blocks[s.insert].name), LoopFor.EntryCode(old(s.cur), n, k, s.globals))] +
        WhileDrafts(n, k, s.globals) &&
      |s.blocks| == k + 3 && s.insert == k + 2 && s.cur == LoopFor.EndCode(n, s.globals) &&
      s.nextReg == n + 11 && v == LoopFor.RegOf(n + 10, s.globals[LoopFor.ResultName])
  {
    ghost var n, k, gs := s.nextReg, |s.blocks|, s.globals;
    ghost var e := s.blocks[s.insert := Draft(s.blocks[s.insert].name, LoopFor.EntryCode(s.cur, n, k, gs))];
    var indexAddr := EmitEntryAndCondition(s);
    v := EmitBodyToEnd(s, indexAddr);
    assert s.blocks == e + WhileDrafts(n, k, gs)[2 := Draft(EndBB, Empty)];
  }

  /** The blocks `emitFunctionBody` builds for a function returning `ret`:
      the entry block, the three loop blocks, and the return in the end
      block. */
  function FunctionDrafts(gs: map<string, Global>, ret: Ty): seq<Draft>
    requires LoopFor.Loadable(gs)
  {
    [Draft(EntryName, LoopFor.EntryCode(Empty, 0, 1, gs)), Draft(CondBB, CondCode(0, 1, gs)), Draft(BodyBB, WhileBodyCode(0, 1, gs)),
     Draft(EndBB, Snoc(LoopFor.EndCode(0, gs), ReturnOf(ret, LoopFor.RegOf(10, gs[LoopFor.ResultName]))))]
  }

  /** `emitFunctionBody(fn)`. */
  method EmitFunctionBody(s: Session)
    requires s.blocks == [] && s.insert == 0 && s.cur == Empty && s.nextReg == 0
    requires s.current in s.functions && LoopFor.Loadable(s.globals)
    modifies s`blocks, s`insert, s`cur, s`nextReg
    ensures s.Blocks() == FunctionDrafts(s.globals, s.functions[s.current].proto.ret)
  {
    var entry := s.CreateBB(EntryName);
    s.SetInsertPoint(entry);
    var value := EmitMainFunctionStatementList(s);
    ghost var bs := s.Blocks();
    assert s.blocks[3].name == EndBB by { assert bs[3] == Draft(s.blocks[3].name, s.cur); }
    s.EmitReturn(s.functions[s.current].proto.ret, value);
    assert s.Blocks() == bs[3 := Draft(EndBB, s.cur)];
  }

  /** `defineFunction(name)`. */
  method DefineFunction(s: Session, name: string)
    requires name in s.functions && s.functions[name].blocks == [] && LoopFor.Loadable(s.globals)
    modifies s`current, s`blocks, s`insert, s`cur, s`nextReg, s`functions
    ensures s.functions == old(s.functions)[name := old(s.functions[name]).(blocks :=
      Finish(FunctionDrafts(s.globals, old(s.functions[name].proto.ret))))]
  {
    s.BeginFunction(name);
    EmitFunctionBody(s);
    s.EndFunction();
  }

  const P: Ty := Ptr(I32)

  // The four blocks of `main` as printed; the entry and end blocks are
  // those of the `for` loop demo.

  function CondListing(): seq<Instr> {
    [Load(2, I32, Reg(0, P)), Load(3, I32, GlobalV(LoopFor.EndName, I32)), ICmp(4, SLE, Reg(2, I32), Reg(3, I32)),
     CondBr(Reg(4, I1), 2, 3)]
  }

  function BodyListing(): seq<Instr> {
    [Load(5, I32, GlobalV(LoopFor.ResultName, I32)), Load(6, I32, Reg(0, P)), AddNsw(7, Reg(5, I32), Reg(6, I32)),
     Store(Reg(7, I32), GlobalV(LoopFor.ResultName, I32)),
     Load(8, I32, Reg(0, P)), AddNsw(9, Reg(8, I32), I32C(1)), Store(Reg(9, I32), Reg(0, P)), Br(1)]
  }

  function MainBlocks(): seq<Block> {
    [Block(EntryName, LoopFor.EntryListing()), Block(CondBB, CondListing()), Block(BodyBB, BodyListing()),
     Block(EndBB, LoopFor.EndListing())]
  }

  function MainFunction(): Function {
    Function(LoopFor.MainProto, MainBlocks(), External, true)
  }

  function LoopWhileProgram(): Program {
    Program(map[MainName := MainFunction()], LoopFor.LoopGlobals(), [])
  }

  lemma CondListed(gs: map<string, Global>)
    requires LoopFor.Loadable(gs)
    ensures Instrs(CondCode(0, 1, gs)) ==
      [Load(2, I32, LoopFor.IndexSlot(0)), LoopFor.LoadG(3, LoopFor.EndName, gs[LoopFor.EndName]),
       ICmp(4, SLE, Reg(2, I32), LoopFor.RegOf(3, gs[LoopFor.EndName])), CondBr(Reg(4, I1), 2, 3)]
  {
    InstrsSnoc4(Empty, Load(2, I32, LoopFor.IndexSlot(0)), LoopFor.LoadG(3, LoopFor.EndName, gs[LoopFor.EndName]),
      ICmp(4, SLE, Reg(2, I32), LoopFor.RegOf(3, gs[LoopFor.EndName])), CondBr(Reg(4, I1), 2, 3));
  }

  lemma SumListed(gs: map<string, Global>)
    requires LoopFor.Loadable(gs)
    ensures var g := gs[LoopFor.ResultName];
      Instrs(SumCode(0, gs)) ==
      [LoopFor.LoadG(5, LoopFor.ResultName, g), Load(6, I32, LoopFor.IndexSlot(0)), AddNsw(7, LoopFor.RegOf(5, g), Reg(6, I32)),
       Store(LoopFor.RegOf(7, g), GlobalV(LoopFor.ResultName, g.ty))]
  {
    var g := gs[LoopFor.ResultName];
    InstrsSnoc4(Empty, LoopFor.LoadG(5, LoopFor.ResultName, g), Load(6, I32, LoopFor.IndexSlot(0)),
      AddNsw(7, LoopFor.RegOf(5, g), Reg(6, I32)), Store(LoopFor.RegOf(7, g), GlobalV(LoopFor.ResultName, g.ty)));
  }

  lemma BodyListed(gs: map<string, Global>)
    requires LoopFor.LoadsAsDefined(gs)
    ensures Instrs(WhileBodyCode(0, 1, gs)) == BodyListing()
  {
    SumListed(gs);
    InstrsSnoc4(SumCode(0, gs), Load(8, I32, LoopFor.IndexSlot(0)), AddNsw(9, Reg(8, I32), I32C(1)),
      Store(Reg(9, I32), LoopFor.IndexSlot(0)), Br(1));
  }

  /** `defineFunction("main")` in the finished module gives the listed
      blocks. */
  lemma MainDefinable(gs: map<string, Global>)
    requires LoopFor.LoadsAsDefined(gs)
    ensures Finish(FunctionDrafts(gs, I32)) == MainBlocks()
  {
    var ds := FunctionDrafts(gs, I32);
    LoopFor.EntryListed(gs);
    CondListed(gs);
    BodyListed(gs);
    LoopFor.EndListed(gs, I32);
    FinishAt(ds, 0);
    FinishAt(ds, 1);
    FinishAt(ds, 2);
    FinishAt(ds, 3);
  }

  /** The one `alloca` of `main` is the index slot, the first instruction of
      the entry block: no loop block allocates. */
  lemma IndexAllocatedOnce()
    ensures var bs := MainBlocks();
      forall b, k :: 0 <= b < |bs| && 0 <= k < |bs[b].code| && bs[b].code[k].Alloca? ==>
        b == 0 && k == 0 && bs[b].code[k] == Alloca(0, I32, LoopFor.IndexName)
  {
  }

  /** Every block of `main` ends in exactly one terminator and every branch
      targets one of its four blocks. */
  lemma MainWellTerminated()
    ensures WellTerminated(MainFunction().blocks)
  {
    var bs := MainBlocks();
    forall k | 0 <= k < |bs|
      ensures BlockWellTerminated(bs[k].code, |bs|)
    {
      if k == 0 {
        FourTerminated(LoopFor.EntryListing());
      } else if k == 1 {
        FourTerminated(CondListing());
      } else if k == 2 {
        assert BlockWellTerminated(BodyListing(), 4);
      } else {
        assert BlockWellTerminated(LoopFor.EndListing(), 4);
      }
    }
  }

  /** A four-instruction block whose only terminator is the last and whose
      targets are among the four blocks. */
  lemma FourTerminated(code: seq<Instr>)
    requires |code| == 4 && !IsTerminator(code[0]) && !IsTerminator(code[1]) && !IsTerminator(code[2])
    requires IsTerminator(code[3]) && TargetsIn(code[3], 4)
    ensures BlockWellTerminated(code, 4)
  {
  }

  /** Declaring `main` in a module without functions and defining it
      gives the finished module's functions. */
  lemma MainDefinedMap(gs: map<string, Global>)
    requires LoopFor.LoadsAsDefined(gs)
    ensures var decl := Function(LoopFor.MainProto, [], External, true);
      map[MainName := decl][MainName := decl.(blocks := Finish(FunctionDrafts(gs, decl.proto.ret)))] ==
      map[MainName := MainFunction()]
  {
    MainDefinable(gs);
  }

  /** `emitProgram` on the module `registerFunctionProto` prepared: the
      integers, then `main` declared and defined. */
  method EmitProgram(s: Session)
    requires s.functions == map[] && s.globals == map[] && s.strings == []
    requires MainName in s.protos && s.protos[MainName] == LoopFor.MainProto
    modifies s`functions, s`globals, s`current, s`blocks, s`insert, s`cur, s`nextReg
    ensures s.functions == LoopWhileProgram().functions && s.globals == LoopWhileProgram().globals && s.strings == []
  {
    LoopFor.EmitIntegers(s);
    LoopFor.IntStage();
    MainDefinedMap(s.globals);
    var f := s.DeclareFunction(MainName);
    DefineFunction(s, MainName);
  }
}
