/** The locals demo: `main` allocates `local_b`, stores 2 into it, then
    overwrites it with the value of the global `global_a`, and returns what
    `local_b` holds. */
module Locals {
  import opened Wrappers
  import opened Ir
  import opened Builder

  const P: Ty := Ptr(I32)
  const MainName: string := "main"
  const EntryName: string := "entry"
  const GlobalA: string := "global_a"
  const LocalB: string := "local_b"
  const MainProto: Proto := Proto(I32, [], false)

  /** `registerFunctionProto`. */
  method RegisterFunctionProto(s: Session)
    modifies s`protos
    ensures s.protos == old(s.protos)[MainName := MainProto]
  {
    s.RegisterProto(MainName, MainProto);
  }

  /** The instructions `emitMainFunctionStatementList` appends to `c`, with
      registers from `n` on, for the global `ga`. */
  function MainCode(c: Code, n: nat, ga: Global): Code {
    var localB := Reg(n, P);
    var gt := TypeOfConst(ga.init);
    Snoc(Snoc(Snoc(Snoc(Snoc(c,
      Alloca(n, I32, LocalB)),
      Store(I32C(2), localB)),
      Load(n + 1, gt, GlobalV(GlobalA, ga.ty))),
      Store(Reg(n + 1, gt), localB)),
      Load(n + 2, I32, localB))
  }

  /** `emitMainFunctionStatementList`: `int local_b; local_b = 2;
      local_b = global_a;` and the reloaded `local_b` as the value to
      return. */
  method EmitMainFunctionStatementList(s: Session) returns (v: Value)
    requires s.Positioned() && GlobalA in s.globals
    modifies s`cur, s`nextReg
    ensures s.cur == MainCode(old(s.cur), old(s.nextReg), s.globals[GlobalA])
    ensures s.nextReg == old(s.nextReg) + 3 && v == Reg(old(s.nextReg) + 2, I32)
  {
    var localB := s.EmitStackLocalVariable(I32, LocalB);
    s.EmitAssign(localB, I32C(2));
    var globalARvalue := s.EmitLoadGlobal(GlobalA);
    s.EmitAssign(localB, globalARvalue);
    v := s.EmitLoadValue(localB);
  }

  /** The entry block `emitFunctionBody` builds for a function returning
      `ret`: the statement list, then the return of its value. */
  function BodyCode(gs: map<string, Global>, ret: Ty): Code
    requires GlobalA in gs
  {
    Snoc(MainCode(Empty, 0, gs[GlobalA]), ReturnOf(ret, Reg(2, I32)))
  }

  /** `emitFunctionBody(fn)`: an "entry" block as the insertion point, the
      statement list and `emitReturn` of its value. */
  method EmitFunctionBody(s: Session)
    requires s.blocks == [] && s.insert == 0 && s.cur == Empty && s.nextReg == 0
    requires s.current in s.functions && GlobalA in s.globals
    modifies s`blocks, s`insert, s`cur, s`nextReg
    ensures s.Blocks() == [Draft(EntryName, BodyCode(s.globals, s.functions[s.current].proto.ret))]
  {
    var entry := s.CreateBB(EntryName);
    s.SetInsertPoint(entry);
    var value := EmitMainFunctionStatementList(s);
    s.EmitReturn(s.functions[s.current].proto.ret, value);
  }

  /** `defineFunction(name)`: the declared function gets the body. */
  method DefineFunction(s: Session, name: string)
    requires name in s.functions && s.functions[name].blocks == [] && GlobalA in s.globals
    modifies s`current, s`blocks, s`insert, s`cur, s`nextReg, s`functions
    ensures s.functions == old(s.functions)[name := old(s.functions[name]).(blocks :=
      Finish([Draft(EntryName, BodyCode(s.globals, old(s.functions[name].proto.ret)))]))]
  {
    s.BeginFunction(name);
    EmitFunctionBody(s);
    s.EndFunction();
  }

  /** `global_a` as `defineGlobalVariable("global_a", 1)` creates it. */
  const GlobalADef: Global := Global(I32, IntC(32, 1), false, External, true)

  /** The body of `main` as printed. */
  function MainListing(): seq<Instr> {
    [ Alloca(0, I32, LocalB), Store(I32C(2), Reg(0, P)),
      Load(1, I32, GlobalV(GlobalA, I32)), Store(Reg(1, I32), Reg(0, P)),
      Load(2, I32, Reg(0, P)), Ret(Reg(2, I32)) ]
  }

  function MainFunction(): Function {
    Function(MainProto, [Block(EntryName, MainListing())], External, true)
  }

  /** The module `emitProgram` builds. */
  function LocalsProgram(): Program {
    Program(map[MainName := MainFunction()], map[GlobalA := GlobalADef], [])
  }

  /** The main body, instruction by instruction. */
  lemma MainListed()
    ensures Instrs(BodyCode(map[GlobalA := GlobalADef], I32)) == MainListing()
  {
    var i0, i1 := Alloca(0, I32, LocalB), Store(I32C(2), Reg(0, P));
    var i2, i3 := Load(1, I32, GlobalV(GlobalA, I32)), Store(Reg(1, I32), Reg(0, P));
    var i4, i5 := Load(2, I32, Reg(0, P)), Ret(Reg(2, I32));
    var c1 := Snoc(Snoc(Snoc(Empty, i0), i1), i2);
    assert BodyCode(map[GlobalA := GlobalADef], I32) == Snoc(Snoc(Snoc(c1, i3), i4), i5);
    InstrsSnoc3(Empty, i0, i1, i2);
    InstrsSnoc3(c1, i3, i4, i5);
  }

  /** `defineFunction("main")` after `global_a` is defined gives the listed
      body. */
  lemma MainDefinable(gs: map<string, Global>)
    requires gs == map[GlobalA := GlobalADef]
    ensures GlobalA in gs && Finish([Draft(EntryName, BodyCode(gs, I32))]) == [Block(EntryName, MainListing())]
  {
    MainListed();
  }

  /** `emitProgram` in the module `registerFunctionProto` prepared:
      `global_a = 1`, then `main` declared and defined. */
  method EmitProgram(s: Session)
    requires s.functions == map[] && s.globals == map[] && s.strings == []
    requires MainName in s.protos && s.protos[MainName] == MainProto
    modifies s`functions, s`globals, s`current, s`blocks, s`insert, s`cur, s`nextReg
    ensures s.functions == LocalsProgram().functions && s.globals == LocalsProgram().globals && s.strings == []
  {
    var g := s.DefineGlobal(GlobalA, IntC(32, 1));
    assert s.globals == map[GlobalA := GlobalADef];
    var f := s.DeclareFunction(MainName);
    assert s.functions == map[MainName := Function(MainProto, [], External, true)];
    MainDefinable(s.globals);
    DefineFunction(s, MainName);
  }

  /** `main` reads `global_a` but never stores to it: its only stores go
      to the `local_b` slot. */
  lemma MainNeverStoresGlobal()
    ensures forall k :: 0 <= k < |MainListing()| && MainListing()[k].Store? ==> MainListing()[k].addr == Reg(0, P)
  {}
}
