/** The `for` loop demo: `start = 1`, `end = 10`, `result = 0`, and a
    `main` that adds every index from `start` to `end` into `result` through
    a condition, a body and an increment block, then returns `result`. */
module LoopFor {
  import opened Wrappers
  import opened Ir
  import opened Builder

  const MainName: string := "main"
  const EntryName: string := "entry"
  const MainProto: Proto := Proto(I32, [], false)

  const StartName: string := "start"
  const EndName: string := "end"
  const ResultName: string := "result"
  const IndexName: string := "index"

  const CondBB: string := "condition"
  const BodyBB: string := "body"
  const IncBB: string := "increment"
  const EndBB: string := "end"

  /** `registerFunctionProto`. */
  method RegisterFunctionProto(s: Session)
    modifies s`protos
    ensures s.protos == old(s.protos)[MainName := MainProto]
  {
    s.RegisterProto(MainName, MainProto);
  }

  /** The globals `emitIntegers` leaves in a module `gs`. */
  function IntDefined(gs: map<string, Global>): map<string, Global> {
    Define(Define(Define(gs, I32, StartName, IntC(32, 1)), I32, EndName, IntC(32, 10)), I32, ResultName, IntC(32, 0))
  }

  /** `emitIntegers`: start = 1, end = 10, result = 0, each typed by its
      i32 initializer. */
  method EmitIntegers(s: Session)
    requires Redefinable(s.globals, StartName, I32) && Redefinable(s.globals, EndName, I32)
    requires Redefinable(s.globals, ResultName, I32)
    modifies s`globals
    ensures s.globals == IntDefined(old(s.globals))
  {
    var g := s.DefineGlobal(StartName, IntC(32, 1));
    g := s.DefineGlobal(EndName, IntC(32, 10));
    g := s.DefineGlobal(ResultName, IntC(32, 0));
  }

  function LoadG(n: nat, name: string, g: Global): Instr {
    Load(n, TypeOfConst(g.init), GlobalV(name, g.ty))
  }

  function RegOf(n: nat, g: Global): Value { Reg(n, TypeOfConst(g.init)) }

  /** The `index` slot, allocated as register `n`. */
  function IndexSlot(n: nat): Value { Reg(n, Ptr(I32)) }

  /** The names the statement list loads are in the module. */
  predicate Loadable(gs: map<string, Global>) {
    StartName in gs && EndName in gs && ResultName in gs
  }

  // What the statement list emits into each block, registers from `n` on,
  // with the blocks it creates at `k` (condition), `k + 1` (body), `k + 2`
  // (increment) and `k + 3` (end).

  /** The entry block, after its earlier code `c`: `int index; index =
      start;` and the jump to the condition. */
  function EntryCode(c: Code, n: nat, k: nat, gs: map<string, Global>): Code
    requires Loadable(gs)
  {
    Snoc(Snoc(Snoc(Snoc(c, Alloca(n, I32, IndexName)), LoadG(n + 1, StartName, gs[StartName])),
      Store(RegOf(n + 1, gs[StartName]), IndexSlot(n))), Br(k))
  }

  /** `index <= end`: to the body when it holds, else to the end. */
  function CondCode(n: nat, k: nat, gs: map<string, Global>): Code
    requires Loadable(gs)
  {
    Snoc(Snoc(Snoc(Snoc(Empty, Load(n + 2, I32, IndexSlot(n))), LoadG(n + 3, EndName, gs[EndName])),
      ICmp(n + 4, SLE, Reg(n + 2, I32), RegOf(n + 3, gs[EndName]))), CondBr(Reg(n + 4, I1), k + 1, k + 3))
  }

  /** `result = result + index;` and the jump to the increment. */
  function LoopBodyCode(n: nat, k: nat, gs: map<string, Global>): Code
    requires Loadable(gs)
  {
    Snoc(Snoc(Snoc(Snoc(Snoc(Empty, LoadG(n + 5, ResultName, gs[ResultName])), Load(n + 6, I32, IndexSlot(n))),
      AddNsw(n + 7, RegOf(n + 5, gs[ResultName]), Reg(n + 6, I32))),
      Store(RegOf(n + 7, gs[ResultName]), GlobalV(ResultName, gs[ResultName].ty))), Br(k + 2))
  }

  /** `index = index + 1` and the jump back to the condition. */
  function IncCode(n: nat, k: nat): Code {
    Snoc(Snoc(Snoc(Snoc(Empty, Load(n + 8, I32, IndexSlot(n))), AddNsw(n + 9, Reg(n + 8, I32), I32C(1))),
      Store(Reg(n + 9, I32), IndexSlot(n))), Br(k))
  }

  /** The end block so far: the load of `result` to return. */
  function EndCode(n: nat, gs: map<string, Global>): Code
    requires Loadable(gs)
  {
    Snoc(Empty, LoadG(n + 10, ResultName, gs[ResultName]))
  }

  /** The four blocks the statement list creates, as it leaves them. */
  function LoopDrafts(n: nat, k: nat, gs: map<string, Global>): seq<Draft>
    requires Loadable(gs)
  {
    [Draft(CondBB, CondCode(n, k, gs)), Draft(BodyBB, LoopBodyCode(n, k, gs)), Draft(IncBB, IncCode(n, k)),
     Draft(EndBB, EndCode(n, gs))]
  }

  /** The entry part: the index slot, `index = start` and the jump. */
  method EmitEntry(s: Session, cond: nat) returns (indexAddr: Value)
    requires s.Positioned() && Loadable(s.globals)
    modifies s`cur, s`nextReg
    ensures s.cur == EntryCode(old(s.cur), old(s.nextReg), cond, s.globals)
    ensures s.nextReg == old(s.nextReg) + 2 && indexAddr == IndexSlot(old(s.nextReg))
  {
    indexAddr := s.CreateAlloca(I32, IndexName);
    var startV := s.EmitLoadGlobal(StartName);
    s.CreateStore(startV, indexAddr);
    s.CreateBr(cond);
  }

  /** The condition block's instructions, at an empty insertion block. */
  method EmitCondition(s: Session, indexAddr: Value, body: nat, end: nat)
    requires s.Positioned() && Loadable(s.globals) && s.cur == Empty && s.nextReg >= 2
    requires indexAddr == IndexSlot(s.nextReg - 2) && end == body + 2 && body > 0
    modifies s`cur, s`nextReg
    ensures s.cur == CondCode(old(s.nextReg) - 2, body - 1, s.globals) && s.nextReg == old(s.nextReg) + 3
  {
    var indexV := s.EmitLoadValue(indexAddr);
    var endV := s.EmitLoadGlobal(EndName);
    var compare := s.CreateICmp(SLE, indexV, endV);
    s.CreateCondBr(compare, body, end);
  }

  /** The body block's instructions. */
  method EmitLoopBody(s: Session, indexAddr: Value, inc: nat)
    requires s.Positioned() && Loadable(s.globals) && s.cur == Empty && s.nextReg >= 5
    requires indexAddr == IndexSlot(s.nextReg - 5) && inc >= 2
    modifies s`cur, s`nextReg
    ensures s.cur == LoopBodyCode(old(s.nextReg) - 5, inc - 2, s.globals) && s.nextReg == old(s.nextReg) + 3
  {
    var resultV := s.EmitLoadGlobal(ResultName);
    var indexV := s.EmitLoadValue(indexAddr);
    var sum := s.CreateNSWAdd(resultV, indexV);
    s.EmitStoreGlobalVar(sum, ResultName);
    s.CreateBr(inc);
  }

  /** The increment block's instructions. */
  method EmitIncrement(s: Session, indexAddr: Value, cond: nat)
    requires s.Positioned() && s.cur == Empty && s.nextReg >= 8
    requires indexAddr == IndexSlot(s.nextReg - 8)
    modifies s`cur, s`nextReg
    ensures s.cur == IncCode(old(s.nextReg) - 8, cond) && s.nextReg == old(s.nextReg) + 2
  {
    var incVal := s.GenIncrement(indexAddr, 1);
    s.CreateStore(incVal, indexAddr);
    s.CreateBr(cond);
  }

  /** Block creation, the entry code and the condition block: the
      insertion point is left in the condition block. */
  method EmitEntryAndCondition(s: Session) returns (indexAddr: Value)
    requires s.Positioned() && Loadable(s.globals)
    modifies s`blocks, s`insert, s`cur, s`nextReg
    ensures var n, k := old(s.nextReg), |old(s.blocks)|;
      s.blocks == old(s.blocks)[old(s.insert) := Draft(old(s.blocks[s.insert].name), EntryCode(old(s.cur), n, k, s.globals))] +
        [Draft(CondBB, Empty), Draft(BodyBB, Empty), Draft(IncBB, Empty), Draft(EndBB, Empty)] &&
      s.insert == k && s.cur == CondCode(n, k, s.globals) && s.nextReg == n + 5 && indexAddr == IndexSlot(n)
  {
    var conditionBB := s.CreateBB(CondBB);
    var bodyBB := s.CreateBB(BodyBB);
    var incrementBB := s.CreateBB(IncBB);
    var endBB := s.CreateBB(EndBB);
    indexAddr := EmitEntry(s, conditionBB);
    s.SetInsertPoint(conditionBB);
    EmitCondition(s, indexAddr, bodyBB, endBB);
  }

  /** The body, increment and end blocks, from the condition block on. */
  method EmitBodyToEnd(s: Session, indexAddr: Value) returns (v: Value)
    requires Loadable(s.globals) && s.nextReg >= 5 && indexAddr == IndexSlot(s.nextReg - 5)
    requires |s.blocks| >= 4 && s.insert == |s.blocks| - 4
    requires s.blocks[s.insert + 1].code == Empty && s.blocks[s.insert + 2].code == Empty && s.blocks[s.insert + 3].code == Empty
    modifies s`blocks, s`insert, s`cur, s`nextReg
    ensures var n, k := old(s.nextReg) - 5, old(s.insert);
      s.blocks == old(s.blocks)[k := Draft(old(s.blocks[k].name), old(s.cur))][k + 1 := Draft(old(s.blocks[k + 1].name), LoopBodyCode(n, k, s.globals))]
        [k + 2 := Draft(old(s.blocks[k + 2].name), IncCode(n, k))] &&
      s.insert == k + 3 && s.cur == EndCode(n, s.globals) && s.nextReg == n + 11 && v == RegOf(n + 10, s.globals[ResultName])
  {
    var k := s.insert;
    s.SetInsertPoint(k + 1);
    EmitLoopBody(s, indexAddr, k + 2);
    s.SetInsertPoint(k + 2);
    EmitIncrement(s, indexAddr, k);
    s.SetInsertPoint(k + 3);
    v := s.EmitLoadGlobal(ResultName);
  }

  /** `emitMainFunctionStatementList`: four new blocks after the current
      ones, the entry code appended to the insertion block, and the
      insertion point left in the end block, whose load of `result` is the
      value to return. */
  method EmitMainFunctionStatementList(s: Session) returns (v: Value)
    requires s.Positioned() && Loadable(s.globals)
    modifies s`blocks, s`insert, s`cur, s`nextReg
    ensures var n, k := old(s.nextReg), |old(s.blocks)|;
      s.Blocks() == old(s.blocks)[old(s.insert) := Draft(old(s.blocks[s.insert].name), EntryCode(old(s.cur), n, k, s.globals))] +
        LoopDrafts(n, k, s.globals) &&
      |s.blocks| == k + 4 && s.insert == k + 3 && s.cur == EndCode(n, s.globals) &&
      s.nextReg == n + 11 && v == RegOf(n + 10, s.globals[ResultName])
  {
    ghost var n, k, gs := s.nextReg, |s.blocks|, s.globals;
    ghost var e := s.blocks[s.insert := Draft(s.blocks[s.insert].name, EntryCode(s.cur, n, k, gs))];
    var indexAddr := EmitEntryAndCondition(s);
    v := EmitBodyToEnd(s, indexAddr);
    assert s.blocks == e + LoopDrafts(n, k, gs)[3 := Draft(EndBB, Empty)];
  }

  /** The blocks `emitFunctionBody` builds for a function returning `ret`:
      the entry block, the four loop blocks, and the return in the end
      block. */
  function FunctionDrafts(gs: map<string, Global>, ret: Ty): seq<Draft>
    requires Loadable(gs)
  {
    [Draft(EntryName, EntryCode(Empty, 0, 1, gs)), Draft(CondBB, CondCode(0, 1, gs)), Draft(BodyBB, LoopBodyCode(0, 1, gs)),
     Draft(IncBB, IncCode(0, 1)), Draft(EndBB, Snoc(EndCode(0, gs), ReturnOf(ret, RegOf(10, gs[ResultName]))))]
  }

  /** `emitFunctionBody(fn)`. */
  method EmitFunctionBody(s: Session)
    requires s.blocks == [] && s.insert == 0 && s.cur == Empty && s.nextReg == 0
    requires s.current in s.functions && Loadable(s.globals)
    modifies s`blocks, s`insert, s`cur, s`nextReg
    ensures s.Blocks() == FunctionDrafts(s.globals, s.functions[s.current].proto.ret)
  {
    var entry := s.CreateBB(EntryName);
    s.SetInsertPoint(entry);
    var value := EmitMainFunctionStatementList(s);
    ghost var bs := s.Blocks();
    assert s.blocks[4].name == EndBB by { assert bs[4] == Draft(s.blocks[4].name, s.cur); }
    s.EmitReturn(s.functions[s.current].proto.ret, value);
    assert s.Blocks() == bs[4 := Draft(EndBB, s.cur)];
  }

  /** `defineFunction(name)`. */
  method DefineFunction(s: Session, name: string)
    requires name in s.functions && s.functions[name].blocks == [] && Loadable(s.globals)
    modifies s`current, s`blocks, s`insert, s`cur, s`nextReg, s`functions
    ensures s.functions == old(s.functions)[name := old(s.functions[name]).(blocks :=
      Finish(FunctionDrafts(s.globals, old(s.functions[name].proto.ret))))]
  {
    s.BeginFunction(name);
    EmitFunctionBody(s);
    s.EndFunction();
  }

  /** A new external, DSO-local i32 global holding `v`. */
  function I32Global(v: int): Global { Global(I32, IntC(32, v), false, External, true) }

  /** The globals of the finished module. */
  function LoopGlobals(): map<string, Global> {
    map[StartName := I32Global(1), EndName := I32Global(10), ResultName := I32Global(0)]
  }

  lemma IntStage()
    ensures IntDefined(map[]) == LoopGlobals()
  {
  }

  /** The three globals as the finished module holds them. */
  predicate LoadsAsDefined(gs: map<string, Global>) {
    Loadable(gs) && gs[StartName] == I32Global(1) && gs[EndName] == I32Global(10) && gs[ResultName] == I32Global(0)
  }

  const P: Ty := Ptr(I32)

  // The five blocks of `main` as printed.

  function EntryListing(): seq<Instr> {
    [Alloca(0, I32, IndexName), Load(1, I32, GlobalV(StartName, I32)), Store(Reg(1, I32), Reg(0, P)), Br(1)]
  }

  function CondListing(): seq<Instr> {
    [Load(2, I32, Reg(0, P)), Load(3, I32, GlobalV(EndName, I32)), ICmp(4, SLE, Reg(2, I32), Reg(3, I32)),
     CondBr(Reg(4, I1), 2, 4)]
  }

  function BodyListing(): seq<Instr> {
    [Load(5, I32, GlobalV(ResultName, I32)), Load(6, I32, Reg(0, P)), AddNsw(7, Reg(5, I32), Reg(6, I32)),
     Store(Reg(7, I32), GlobalV(ResultName, I32)), Br(3)]
  }

  function IncListing(): seq<Instr> {
    [Load(8, I32, Reg(0, P)), AddNsw(9, Reg(8, I32), I32C(1)), Store(Reg(9, I32), Reg(0, P)), Br(1)]
  }

  function EndListing(): seq<Instr> {
    [Load(10, I32, GlobalV(ResultName, I32)), Ret(Reg(10, I32))]
  }

  function MainBlocks(): seq<Block> {
    [Block(EntryName, EntryListing()), Block(CondBB, CondListing()), Block(BodyBB, BodyListing()),
     Block(IncBB, IncListing()), Block(EndBB, EndListing())]
  }

  function MainFunction(): Function {
    Function(MainProto, MainBlocks(), External, true)
  }

  function LoopForProgram(): Program {
    Program(map[MainName := MainFunction()], LoopGlobals(), [])
  }

  // Each block's chain lists as its instructions in order.

  lemma EntryListed(gs: map<string, Global>)
    requires Loadable(gs)
    ensures Instrs(EntryCode(Empty, 0, 1, gs)) ==
      [Alloca(0, I32, IndexName), LoadG(1, StartName, gs[StartName]), Store(RegOf(1, gs[StartName]), IndexSlot(0)), Br(1)]
  {
    InstrsSnoc4(Empty, Alloca(0, I32, IndexName), LoadG(1, StartName, gs[StartName]),
      Store(RegOf(1, gs[StartName]), IndexSlot(0)), Br(1));
  }

  lemma CondListed(gs: map<string, Global>)
    requires Loadable(gs)
    ensures Instrs(CondCode(0, 1, gs)) ==
      [Load(2, I32, IndexSlot(0)), LoadG(3, EndName, gs[EndName]), ICmp(4, SLE, Reg(2, I32), RegOf(3, gs[EndName])),
       CondBr(Reg(4, I1), 2, 4)]
  {
    InstrsSnoc4(Empty, Load(2, I32, IndexSlot(0)), LoadG(3, EndName, gs[EndName]),
      ICmp(4, SLE, Reg(2, I32), RegOf(3, gs[EndName])), CondBr(Reg(4, I1), 2, 4));
  }

  lemma BodyListed(gs: map<string, Global>)
    requires Loadable(gs)
    ensures Instrs(LoopBodyCode(0, 1, gs)) ==
      [LoadG(5, ResultName, gs[ResultName]), Load(6, I32, IndexSlot(0)), AddNsw(7, RegOf(5, gs[ResultName]), Reg(6, I32)),
       Store(RegOf(7, gs[ResultName]), GlobalV(ResultName, gs[ResultName].ty)), Br(3)]
  {
    var l := LoadG(5, ResultName, gs[ResultName]);
    assert Instrs(Snoc(Empty, l)) == [l];
    InstrsSnoc4(Snoc(Empty, l), Load(6, I32, IndexSlot(0)), AddNsw(7, RegOf(5, gs[ResultName]), Reg(6, I32)),
      Store(RegOf(7, gs[ResultName]), GlobalV(ResultName, gs[ResultName].ty)), Br(3));
  }

  lemma IncListed()
    ensures Instrs(IncCode(0, 1)) ==
      [Load(8, I32, IndexSlot(0)), AddNsw(9, Reg(8, I32), I32C(1)), Store(Reg(9, I32), IndexSlot(0)), Br(1)]
  {
    InstrsSnoc4(Empty, Load(8, I32, IndexSlot(0)), AddNsw(9, Reg(8, I32), I32C(1)), Store(Reg(9, I32), IndexSlot(0)), Br(1));
  }

  lemma EndListed(gs: map<string, Global>, ret: Ty)
    requires Loadable(gs)
    ensures Instrs(Snoc(EndCode(0, gs), ReturnOf(ret, RegOf(10, gs[ResultName])))) ==
      [LoadG(10, ResultName, gs[ResultName]), ReturnOf(ret, RegOf(10, gs[ResultName]))]
  {
    InstrsSnoc2(Empty, LoadG(10, ResultName, gs[ResultName]), ReturnOf(ret, RegOf(10, gs[ResultName])));
  }

  // Block by block, `defineFunction("main")` in the finished module gives
  // the listed blocks.

  lemma EntryDefinable(gs: map<string, Global>)
    requires LoadsAsDefined(gs)
    ensures Finish(FunctionDrafts(gs, I32))[0] == MainBlocks()[0]
  {
    FinishAt(FunctionDrafts(gs, I32), 0);
    EntryListed(gs);
  }

  lemma CondDefinable(gs: map<string, Global>)
    requires LoadsAsDefined(gs)
    ensures Finish(FunctionDrafts(gs, I32))[1] == MainBlocks()[1]
  {
    FinishAt(FunctionDrafts(gs, I32), 1);
    CondListed(gs);
  }

  lemma BodyDefinable(gs: map<string, Global>)
    requires LoadsAsDefined(gs)
    ensures Finish(FunctionDrafts(gs, I32))[2] == MainBlocks()[2]
  {
    FinishAt(FunctionDrafts(gs, I32), 2);
    BodyListed(gs);
  }

  lemma IncDefinable(gs: map<string, Global>)
    requires LoadsAsDefined(gs)
    ensures Finish(FunctionDrafts(gs, I32))[3] == MainBlocks()[3]
  {
    FinishAt(FunctionDrafts(gs, I32), 3);
    IncListed();
  }

  lemma EndDefinable(gs: map<string, Global>)
    requires LoadsAsDefined(gs)
    ensures Finish(FunctionDrafts(gs, I32))[4] == MainBlocks()[4]
  {
    FinishAt(FunctionDrafts(gs, I32), 4);
    EndListed(gs, I32);
  }

  /** `defineFunction("main")` in the finished module gives the listed
      blocks. */
  lemma MainDefinable(gs: map<string, Global>)
    requires LoadsAsDefined(gs)
    ensures Finish(FunctionDrafts(gs, I32)) == MainBlocks()
  {
    EntryDefinable(gs);
    CondDefinable(gs);
    BodyDefinable(gs);
    IncDefinable(gs);
    EndDefinable(gs);
  }

  /** Every block of `main` ends in exactly one terminator and every branch
      targets one of its five blocks: what `verifyFunction` checks of the
      block structure. */
  lemma MainWellTerminated()
    ensures WellTerminated(MainFunction().blocks)
  {
    var bs := MainBlocks();
    forall k | 0 <= k < |bs|
      ensures BlockWellTerminated(bs[k].code, |bs|)
    {
      if k == 0 {
        FourTerminated(EntryListing());
      } else if k == 1 {
        FourTerminated(CondListing());
      } else if k == 2 {
        assert BlockWellTerminated(BodyListing(), 5);
      } else if k == 3 {
        FourTerminated(IncListing());
      } else {
        assert BlockWellTerminated(EndListing(), 5);
      }
    }
  }

  /** The one `alloca` of `main` is the index slot, the first instruction of
      the entry block: no loop block allocates. */
  lemma IndexAllocatedOnce()
    ensures var bs := MainBlocks();
      forall b, k :: 0 <= b < |bs| && 0 <= k < |bs[b].code| && bs[b].code[k].Alloca? ==>
        b == 0 && k == 0 && bs[b].code[k] == Alloca(0, I32, IndexName)
  {
  }

  /** A four-instruction block whose only terminator is the last and whose
      targets are among the five blocks. */
  lemma FourTerminated(code: seq<Instr>)
    requires |code| == 4 && !IsTerminator(code[0]) && !IsTerminator(code[1]) && !IsTerminator(code[2])
    requires IsTerminator(code[3]) && TargetsIn(code[3], 5)
    ensures BlockWellTerminated(code, 5)
  {
  }

  /** Declaring `main` in a module without functions and defining it
      gives the finished module's functions. */
  lemma MainDefinedMap(gs: map<string, Global>)
    requires LoadsAsDefined(gs)
    ensures var decl := Function(MainProto, [], External, true);
      map[MainName := decl][MainName := decl.(blocks := Finish(FunctionDrafts(gs, decl.proto.ret)))] ==
      map[MainName := MainFunction()]
  {
    MainDefinable(gs);
  }

  /** `emitProgram` on the module `registerFunctionProto` prepared. */
  method EmitProgram(s: Session)
    requires s.functions == map[] && s.globals == map[] && s.strings == []
    requires MainName in s.protos && s.protos[MainName] == MainProto
    modifies s`functions, s`globals, s`current, s`blocks, s`insert, s`cur, s`nextReg
    ensures s.functions == LoopForProgram().functions && s.globals == LoopForProgram().globals && s.strings == []
  {
    EmitIntegers(s);
    IntStage();
    MainDefinedMap(s.globals);
    var f := s.DeclareFunction(MainName);
    DefineFunction(s, MainName);
  }
}
