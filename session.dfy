/** The state every demo mutates: LLVM's module (functions, globals, global
    strings), the context's named struct types, the demo's `funProtoMap`,
    and the IRBuilder (the function being defined, its blocks and the
    insertion point). The helpers that the demo files copy from one another
    are modelled once, as methods of `Session`. */
module Builder {
  import opened Wrappers
  import opened Ir

  /** An append-only instruction list, as the builder grows a block. */
  datatype Code = Empty | Snoc(init: Code, last: Instr)

  function Instrs(c: Code): (r: seq<Instr>)
    ensures c.Snoc? ==> |r| > 0 && r[|r| - 1] == c.last
  {
    match c
    case Empty => []
    case Snoc(init, last) => Instrs(init) + [last]
  }

  /** A block under construction: its name and its instructions so far. */
  datatype Draft = Draft(name: string, code: Code)

  /** The finished blocks. */
  function Finish(ds: seq<Draft>): (r: seq<Block>)
    ensures |r| == |ds|
  {
    if ds == [] then [] else [Block(ds[0].name, Instrs(ds[0].code))] + Finish(ds[1..])
  }

  /** The `k`-th finished block is the `k`-th draft, its chain listed. */
  lemma {:induction false} FinishAt(ds: seq<Draft>, k: nat)
    requires k < |ds|
    ensures Finish(ds)[k] == Block(ds[k].name, Instrs(ds[k].code))
    decreases k
  {
    if k > 0 {
      FinishAt(ds[1..], k - 1);
    }
  }

  /** Appending instructions to a chain lists them after the chain's own. */
  lemma {:induction false} InstrsSnoc2(c: Code, a: Instr, b: Instr)
    ensures Instrs(Snoc(Snoc(c, a), b)) == Instrs(c) + [a, b]
  {
    assert Instrs(Snoc(c, a)) == Instrs(c) + [a];
  }
  lemma {:induction false} InstrsSnoc3(c: Code, a: Instr, b: Instr, d: Instr)
    ensures Instrs(Snoc(Snoc(Snoc(c, a), b), d)) == Instrs(c) + [a, b, d]
  {
    InstrsSnoc2(c, a, b);
  }
  lemma {:induction false} InstrsSnoc4(c: Code, a: Instr, b: Instr, d: Instr, e: Instr)
    ensures Instrs(Snoc(Snoc(Snoc(Snoc(c, a), b), d), e)) == Instrs(c) + [a, b, d, e]
  {
    InstrsSnoc3(c, a, b, d);
  }

  /** The name `emitConstant` gives a function-local constant. */
  function ConstName(fnName: string, name: string): string {
    "__constant." + fnName + "." + name
  }

  /** The name `emitStringPtr` asks for. */
  function StringName(name: string): string { "." + name }

  /** A 32-bit integer constant operand: `Builder->getInt32(v)`. */
  function I32C(v: int): Value { ConstV(IntC(32, v)) }

  /** A 64-bit integer constant operand: `Builder->getInt64(v)`. */
  function I64C(v: int): Value { ConstV(IntC(64, v)) }

  /** The GEP of `getStructElementAddr` reaches the field's type. */
  lemma FieldIndexedTy(t: Ty, index: int)
    requires t.Struct? && 0 <= index < |t.fields|
    ensures IndexedTy(t, [I32C(0), I32C(index)]) == Some(t.fields[index])
  {
    assert [I32C(0), I32C(index)][1..] == [I32C(index)];
    assert [I32C(index)][1..] == [];
    assert Descend(t.fields[index], []) == Some(t.fields[index]);
  }

  /** An array type's element is reached by the GEP indices [0, i]. */
  lemma ElementIndexedTy(t: Ty, i: Value)
    requires t.Array?
    ensures IndexedTy(t, [I64C(0), i]) == Some(t.elem)
  {
    assert [I64C(0), i][1..] == [i];
    assert [i][1..] == [];
    assert Descend(t.elem, []) == Some(t.elem);
  }

  /** LLVM's condition on a call: the callee is in the module and the
      arguments match its parameters, with any number of extra arguments
      for a variadic callee. */
  predicate CallOk(functions: map<string, Function>, callee: string, args: seq<Value>) {
    callee in functions &&
    ArgsMatch(args, functions[callee].proto.params, functions[callee].proto.isVarArg)
  }

  predicate ArgsMatch(args: seq<Value>, params: seq<Ty>, isVarArg: bool)
    decreases params
  {
    if params == [] then isVarArg || args == []
    else args != [] && TypeOf(args[0]) == params[0] && ArgsMatch(args[1..], params[1..], isVarArg)
  }

  /** The terminator `emitReturn(ty, value)` appends. */
  function ReturnOf(ty: Ty, value: Value): Instr {
    if ty.Void? then RetVoid else Ret(value)
  }

  /** The functions after `declareFunction(name)`: unchanged when the module
      has `name`, otherwise with a new external, DSO-local declaration of
      the registered prototype. */
  function Declared(fs: map<string, Function>, protos: map<string, Proto>, name: string): map<string, Function>
    requires name in fs || name in protos
  {
    if name in fs then fs else fs[name := Function(protos[name], [], External, true)]
  }

  /** `declareFunction` is declare-or-fetch: an existing function is
      returned untouched, and otherwise exactly one function is added, with
      the registered signature and no body. */
  lemma DeclaredAddsOne(fs: map<string, Function>, protos: map<string, Proto>, name: string, other: string)
    requires name in fs || name in protos
    ensures var r := Declared(fs, protos, name);
      name in r && r.Keys == fs.Keys + {name} &&
      (name in fs ==> r == fs) &&
      (name !in fs ==> r[name].proto == protos[name] && r[name].blocks == []) &&
      (other != name && other in fs ==> r[other] == fs[other])
  {}

  /** Declaring a name twice is declaring it once. */
  lemma DeclaredIdempotent(fs: map<string, Function>, protos: map<string, Proto>, name: string)
    requires name in fs || name in protos
    ensures Declared(Declared(fs, protos, name), protos, name) == Declared(fs, protos, name)
  {}

  /** The global a `defineGlobalVariable(ty, name, init)` leaves: an
      existing global keeps its type, constant flag and linkage, takes the
      new initializer and becomes DSO-local; a new one is an external,
      non-constant global of type `ty`. */
  function DefinedGlobal(gs: map<string, Global>, ty: Ty, name: string, init: Constant): Global {
    if name in gs then gs[name].(init := init, dsoLocal := true)
    else Global(ty, init, false, External, true)
  }

  /** The globals after `defineGlobalVariable(ty, name, init)`. */
  function Define(gs: map<string, Global>, ty: Ty, name: string, init: Constant): map<string, Global> {
    gs[name := DefinedGlobal(gs, ty, name, init)]
  }

  /** The globals after `emitConstant`: the global is defined as by
      `defineGlobalVariable`, then marked constant with private linkage. */
  function DefineConst(gs: map<string, Global>, ty: Ty, name: string, init: Constant): map<string, Global> {
    gs[name := DefinedGlobal(gs, ty, name, init).(isConstant := true, linkage := Private)]
  }

  /** LLVM's condition on `setInitializer`: a global already in the module
      has the initializer's type. */
  predicate Redefinable(gs: map<string, Global>, name: string, ty: Ty) {
    name in gs ==> gs[name].ty == ty
  }

  /** Defining a name again keeps the one global and replaces its
      initializer: the last definition wins. */
  lemma DefineLastWins(gs: map<string, Global>, ty: Ty, ty2: Ty, name: string, init: Constant, init2: Constant)
    ensures Define(Define(gs, ty, name, init), ty2, name, init2) == Define(gs, ty, name, init2)
    ensures Define(gs, ty, name, init).Keys == gs.Keys + {name}
  {}

  /** Every global has its initializer's type, so the load `emitLoadValue`
      makes at `getInitializer()->getType()` reads the global at the type it
      was defined with. */
  predicate TypedByInit(gs: map<string, Global>) {
    forall n :: n in gs ==> gs[n].ty == TypeOfConst(gs[n].init)
  }

  /** `defineGlobalVariable`, and `emitConstant` after it, keep every
      global typed by its initializer exactly when LLVM's condition on
      `setInitializer` holds: the global's type, the existing one or the
      requested one, is the initializer's. */
  lemma DefineKeepsTyped(gs: map<string, Global>, ty: Ty, name: string, init: Constant)
    requires TypedByInit(gs)
    ensures TypedByInit(Define(gs, ty, name, init)) <==> (if name in gs then gs[name].ty else ty) == TypeOfConst(init)
    ensures TypedByInit(DefineConst(gs, ty, name, init)) <==> (if name in gs then gs[name].ty else ty) == TypeOfConst(init)
  {
    if TypedByInit(Define(gs, ty, name, init)) {
      assert Define(gs, ty, name, init)[name] == DefinedGlobal(gs, ty, name, init);
    }
    if TypedByInit(DefineConst(gs, ty, name, init)) {
      assert DefineConst(gs, ty, name, init)[name].ty == DefinedGlobal(gs, ty, name, init).ty;
    }
  }

  class Session {
    var functions: map<string, Function>
    var globals: map<string, Global>
    var strings: seq<StringGlobal>
    var structs: map<string, seq<Ty>>
    var protos: map<string, Proto>
    /** The function whose body is being emitted. */
    var current: string
    /** Its blocks; the insertion block's instructions are held in `cur`
        while it is the insertion block. */
    var blocks: seq<Draft>
    /** The insertion block: an index into `blocks`. */
    var insert: nat
    var cur: Code
    /** The number the next register-defining instruction receives. */
    var nextReg: nat

    /** The module as it is printed: functions, globals and strings. */
    function Prog(): Program
      reads this`functions, this`globals, this`strings
    {
      Program(functions, globals, strings)
    }

    predicate Positioned()
      reads this`insert, this`blocks
    {
      insert < |blocks|
    }

    /** The blocks of the function being emitted, with the insertion
        block's current instructions. */
    function Blocks(): seq<Draft>
      reads this`insert, this`blocks, this`cur
    {
      if Positioned() then blocks[insert := Draft(blocks[insert].name, cur)] else blocks
    }

    /** `initializeModule`: an empty module, context and builder. */
    constructor ()
      ensures functions == map[] && globals == map[] && strings == [] && structs == map[] && protos == map[]
      ensures current == "" && blocks == [] && insert == 0 && cur == Empty && nextReg == 0
    {
      functions, globals, strings, structs, protos := map[], map[], [], map[], map[];
      current, blocks, insert, cur, nextReg := "", [], 0, Empty, 0;
    }

    /** `funProtoMap[name] = proto`. */
    method RegisterProto(name: string, proto: Proto)
      modifies this`protos
      ensures protos == old(protos)[name := proto]
    {
      protos := protos[name := proto];
    }

    /** `declareFunction`: the function already in the module, or else a new
        external, DSO-local declaration with the registered prototype. */
    method DeclareFunction(name: string) returns (f: Function)
      requires name in functions || name in protos
      modifies this`functions
      ensures functions == Declared(old(functions), protos, name)
      ensures name in functions && f == functions[name]
    {
      if name !in functions {
        functions := functions[name := Function(protos[name], [], External, true)];
      }
      f := functions[name];
    }

    /** `defineGlobalVariable(type, name, init)`: get or insert the global,
        then overwrite its initializer. LLVM requires the initializer to have
        the global's value type. */
    method DefineGlobalVariable(ty: Ty, name: string, init: Constant) returns (g: Global)
      requires (if name in globals then globals[name].ty else ty) == TypeOfConst(init)
      modifies this`globals
      ensures globals == Define(old(globals), ty, name, init)
      ensures g == globals[name] && g.init == init && g.ty == TypeOfConst(init)
    {
      g := DefinedGlobal(globals, ty, name, init);
      globals := globals[name := g];
    }

    /** `defineGlobalVariable(name, init)`: the type is the initializer's. */
    method DefineGlobal(name: string, init: Constant) returns (g: Global)
      requires name in globals ==> globals[name].ty == TypeOfConst(init)
      modifies this`globals
      ensures globals == Define(old(globals), TypeOfConst(init), name, init)
      ensures g == globals[name] && g.init == init && g.ty == TypeOfConst(init)
    {
      g := DefineGlobalVariable(TypeOfConst(init), name, init);
    }

    /** `emitConstant(ty, name, init)`: a private constant global named
        after the function being emitted. */
    method EmitConstant(ty: Ty, name: string, init: Constant)
      requires Positioned()
      requires (if ConstName(current, name) in globals then globals[ConstName(current, name)].ty else ty) == TypeOfConst(init)
      modifies this`globals
      ensures globals == DefineConst(old(globals), ty, ConstName(current, name), init)
    {
      var constName := ConstName(current, name);
      var g := DefineGlobalVariable(ty, constName, init);
      globals := globals[constName := g.(isConstant := true)];
      globals := globals[constName := globals[constName].(linkage := Private)];
    }

    /** The `emitConstant` that defines the global through the one-argument
        `defineGlobalVariable`: the type comes from the initializer and the
        `ty` argument is not used. */
    method EmitConstantOfInit(ty: Ty, name: string, init: Constant)
      requires Positioned()
      requires ConstName(current, name) in globals ==> globals[ConstName(current, name)].ty == TypeOfConst(init)
      modifies this`globals
      ensures globals == DefineConst(old(globals), TypeOfConst(init), ConstName(current, name), init)
    {
      var constName := ConstName(current, name);
      var g := DefineGlobal(constName, init);
      globals := globals[constName := g.(isConstant := true)];
      globals := globals[constName := globals[constName].(linkage := Private)];
    }

    /** `CreateGlobalString(content, name)`: a new global string requested
        under `name`; the value is the string's `[len x i8]` array global
        itself. */
    method CreateGlobalString(content: string, name: string) returns (v: Value)
      requires Positioned()
      modifies this`strings
      ensures strings == old(strings) + [StringGlobal(name, content)]
      ensures v == StrV(|old(strings)|, |content|) && TypeOf(v) == Ptr(Array(I8, |content|))
    {
      v := StrV(|strings|, |content|);
      strings := strings + [StringGlobal(name, content)];
    }

    /** `CreateGlobalStringPtr(content, name)`: the same new global string,
        and as value the address of its first character, an `i8*` the
        constant folder computes without inserting an instruction. */
    method CreateGlobalStringPtr(content: string, name: string) returns (v: Value)
      requires Positioned()
      modifies this`strings, this`cur, this`nextReg
      ensures strings == old(strings) + [StringGlobal(name, content)]
      ensures cur == old(cur) && nextReg == old(nextReg)
      ensures v == FirstCharPtr(|old(strings)|, |content|)
    {
      var str := CreateGlobalString(content, name);
      var idx := [I32C(0), I32C(0)];
      assert Pointee(TypeOf(str)) == Array(I8, |content|);
      ElementIndexedTy(Array(I8, |content|), I32C(0));
      assert GepFolds(str, idx) && IndexInts(idx) == [0, 0];
      v := CreateInBoundsGEP(Array(I8, |content|), str, idx);
    }

    /** `StructType::create` followed by `setBody`. */
    method CreateStructType(name: string, fields: seq<Ty>) returns (t: Ty)
      requires name !in structs
      modifies this`structs
      ensures structs == old(structs)[name := fields]
      ensures t == Struct(name, fields)
    {
      structs := structs[name := fields];
      t := Struct(name, fields);
    }

    /** `StructType::getTypeByName`. */
    function StructTy(name: string): (t: Ty)
      reads this`structs
      requires name in structs
      ensures t.Struct? && t.name == name && t.fields == structs[name]
    {
      Struct(name, structs[name])
    }

    /** The i-th formal parameter of the function being emitted
        (`fn->arg_begin()` advanced i times). */
    function ArgOf(i: nat): (v: Value)
      reads this`functions, this`current
      requires current in functions && i < |functions[current].proto.params|
      ensures TypeOf(v) == functions[current].proto.params[i]
    {
      Arg(i, functions[current].proto.params[i])
    }

    /** Starts emitting the body of a declared function that has no body
        yet: no blocks and fresh register numbers. */
    method BeginFunction(name: string)
      requires name in functions && functions[name].blocks == []
      modifies this`current, this`blocks, this`insert, this`cur, this`nextReg
      ensures current == name && blocks == [] && insert == 0 && cur == Empty && nextReg == 0
    {
      current, blocks, insert, cur, nextReg := name, [], 0, Empty, 0;
    }

    /** Stores the emitted blocks in the module. */
    method EndFunction()
      requires current in functions
      modifies this`functions
      ensures functions == old(functions)[current := old(functions[current]).(blocks := Finish(Blocks()))]
    {
      functions := functions[current := functions[current].(blocks := Finish(Blocks()))];
    }

    /** `createBB(fn, name)`: a new empty block at the end of the function. */
    method CreateBB(name: string) returns (b: nat)
      requires Positioned() || (insert == |blocks| && cur == Empty)
      modifies this`blocks
      ensures blocks == old(blocks) + [Draft(name, Empty)] && b == |old(blocks)|
      ensures Positioned()
      ensures Blocks() == old(Blocks()) + [Draft(name, Empty)]
    {
      b := |blocks|;
      blocks := blocks + [Draft(name, Empty)];
    }

    /** `Builder->SetInsertPoint(block)`: the instructions of the old
        insertion block are kept, and appending continues at the end of
        block `b`. */
    method SetInsertPoint(b: nat)
      requires b < |blocks|
      modifies this`blocks, this`insert, this`cur
      ensures blocks == old(Blocks()) && insert == b && cur == blocks[b].code
      ensures Blocks() == old(Blocks())
    {
      blocks := Blocks();
      insert, cur := b, blocks[b].code;
    }

    // IRBuilder's instruction constructors.

    method CreateAlloca(ty: Ty, name: string) returns (r: Value)
      requires Positioned()
      modifies this`cur, this`nextReg
      ensures cur == Snoc(old(cur), Alloca(old(nextReg), ty, name))
      ensures nextReg == old(nextReg) + 1 && r == Reg(old(nextReg), Ptr(ty))
    {
      r := Reg(nextReg, Ptr(ty));
      cur, nextReg := Snoc(cur, Alloca(nextReg, ty, name)), nextReg + 1;
    }

    method CreateLoad(ty: Ty, addr: Value) returns (r: Value)
      requires Positioned()
      modifies this`cur, this`nextReg
      ensures cur == Snoc(old(cur), Load(old(nextReg), ty, addr))
      ensures nextReg == old(nextReg) + 1 && r == Reg(old(nextReg), ty)
    {
      r := Reg(nextReg, ty);
      cur, nextReg := Snoc(cur, Load(nextReg, ty, addr)), nextReg + 1;
    }

    method CreateStore(val: Value, addr: Value)
      requires Positioned()
      modifies this`cur
      ensures cur == Snoc(old(cur), Store(val, addr))
    {
      cur := Snoc(cur, Store(val, addr));
    }

    method CreateNSWAdd(lhs: Value, rhs: Value) returns (r: Value)
      requires Positioned()
      modifies this`cur, this`nextReg
      ensures cur == Snoc(old(cur), AddNsw(old(nextReg), lhs, rhs))
      ensures nextReg == old(nextReg) + 1 && r == Reg(old(nextReg), TypeOf(lhs))
    {
      r := Reg(nextReg, TypeOf(lhs));
      cur, nextReg := Snoc(cur, AddNsw(nextReg, lhs, rhs)), nextReg + 1;
    }

    method CreateICmp(pred: IPred, lhs: Value, rhs: Value) returns (r: Value)
      requires Positioned()
      modifies this`cur, this`nextReg
      ensures cur == Snoc(old(cur), ICmp(old(nextReg), pred, lhs, rhs))
      ensures nextReg == old(nextReg) + 1 && r == Reg(old(nextReg), I1)
    {
      r := Reg(nextReg, I1);
      cur, nextReg := Snoc(cur, ICmp(nextReg, pred, lhs, rhs)), nextReg + 1;
    }

    method CreateFCmp(pred: FPred, lhs: Value, rhs: Value) returns (r: Value)
      requires Positioned()
      modifies this`cur, this`nextReg
      ensures cur == Snoc(old(cur), FCmp(old(nextReg), pred, lhs, rhs))
      ensures nextReg == old(nextReg) + 1 && r == Reg(old(nextReg), I1)
    {
      r := Reg(nextReg, I1);
      cur, nextReg := Snoc(cur, FCmp(nextReg, pred, lhs, rhs)), nextReg + 1;
    }

    /** `CreateInBoundsGEP(ty, base, indices)`: the result points to the
        type the indices reach. On a constant base with constant indices the
        builder's constant folder returns a constant GEP expression and
        inserts nothing; otherwise one 'getelementptr' is appended. */
    method CreateInBoundsGEP(ty: Ty, base: Value, indices: seq<Value>) returns (r: Value)
      requires Positioned()
      requires IndexedTy(ty, indices).Some?
      modifies this`cur, this`nextReg
      ensures GepFolds(base, indices) ==>
        cur == old(cur) && nextReg == old(nextReg) &&
        r == ConstGepV(ty, base, IndexInts(indices), IndexedTy(ty, indices).value)
      ensures !GepFolds(base, indices) ==>
        cur == Snoc(old(cur), Gep(old(nextReg), ty, base, indices)) &&
        nextReg == old(nextReg) + 1 && r == Reg(old(nextReg), Ptr(IndexedTy(ty, indices).value))
    {
      if GepFolds(base, indices) {
        r := ConstGepV(ty, base, IndexInts(indices), IndexedTy(ty, indices).value);
      } else {
        r := Reg(nextReg, Ptr(IndexedTy(ty, indices).value));
        cur, nextReg := Snoc(cur, Gep(nextReg, ty, base, indices)), nextReg + 1;
      }
    }

    /** `CreateSExt(val, ty)`: a value that already has type `ty` is
        returned as it is, an integer literal is widened by the constant
        folder, and anything else gets one `sext` instruction. LLVM only
        admits a sign extension from an integer type to one at least as
        wide. */
    method CreateSExt(val: Value, ty: Ty) returns (r: Value)
      requires Positioned()
      requires TypeOf(val).Int? && ty.Int? && TypeOf(val).bits <= ty.bits
      modifies this`cur, this`nextReg
      ensures TypeOf(val) == ty ==> cur == old(cur) && nextReg == old(nextReg) && r == val
      ensures TypeOf(val) != ty && val.ConstV? && val.c.IntC? ==>
        cur == old(cur) && nextReg == old(nextReg) && r == ConstV(IntC(ty.bits, val.c.v))
      ensures TypeOf(val) != ty && !(val.ConstV? && val.c.IntC?) ==>
        cur == Snoc(old(cur), SExt(old(nextReg), val, ty)) &&
        nextReg == old(nextReg) + 1 && r == Reg(old(nextReg), ty)
      ensures TypeOf(r) == ty
    {
      if TypeOf(val) == ty {
        r := val;
      } else if val.ConstV? && val.c.IntC? {
        r := ConstV(IntC(ty.bits, val.c.v));
      } else {
        r := Reg(nextReg, ty);
        cur, nextReg := Snoc(cur, SExt(nextReg, val, ty)), nextReg + 1;
      }
    }

    /** `CreateCall(callee, args)`: LLVM requires the arguments to match the
        callee's parameters (at least as many for a variadic callee). */
    method CreateCall(callee: string, args: seq<Value>) returns (r: Value)
      requires Positioned()
      requires CallOk(functions, callee, args)
      modifies this`cur, this`nextReg
      ensures cur == Snoc(old(cur), Call(old(nextReg), callee, args))
      ensures nextReg == old(nextReg) + 1 && r == Reg(old(nextReg), functions[callee].proto.ret)
    {
      r := Reg(nextReg, functions[callee].proto.ret);
      cur, nextReg := Snoc(cur, Call(nextReg, callee, args)), nextReg + 1;
    }

    method CreateBr(target: nat)
      requires Positioned()
      modifies this`cur
      ensures cur == Snoc(old(cur), Br(target))
    {
      cur := Snoc(cur, Br(target));
    }

    method CreateCondBr(cond: Value, ifTrue: nat, ifFalse: nat)
      requires Positioned()
      modifies this`cur
      ensures cur == Snoc(old(cur), CondBr(cond, ifTrue, ifFalse))
    {
      cur := Snoc(cur, CondBr(cond, ifTrue, ifFalse));
    }

    // The demos' own helpers.

    /** `emitReturn(ty, value)`: `ret void` for a void return type, otherwise
        `ret value`. */
    method EmitReturn(ty: Ty, value: Value)
      requires Positioned()
      requires !ty.Void? ==> value != NoValue
      modifies this`cur
      ensures cur == Snoc(old(cur), ReturnOf(ty, value))
    {
      if ty.Void? {
        cur := Snoc(cur, RetVoid);
      } else {
        cur := Snoc(cur, Ret(value));
      }
    }

    /** `emitLoadValue(GlobalVariable*)`, reached through
        `emitLoadGlobalVar(name)`: a load at the initializer's type. */
    method EmitLoadGlobal(name: string) returns (r: Value)
      requires Positioned()
      requires name in globals
      modifies this`cur, this`nextReg
      ensures cur == Snoc(old(cur), Load(old(nextReg), TypeOfConst(globals[name].init), GlobalV(name, globals[name].ty)))
      ensures nextReg == old(nextReg) + 1 && r == Reg(old(nextReg), TypeOfConst(globals[name].init))
    {
      r := CreateLoad(TypeOfConst(globals[name].init), GlobalV(name, globals[name].ty));
    }

    /** `emitLoadValue(Value*)`: a load at the address's pointee type. */
    method EmitLoadValue(addr: Value) returns (r: Value)
      requires Positioned()
      requires TypeOf(addr).Ptr?
      modifies this`cur, this`nextReg
      ensures cur == Snoc(old(cur), Load(old(nextReg), Pointee(TypeOf(addr)), addr))
      ensures nextReg == old(nextReg) + 1 && r == Reg(old(nextReg), Pointee(TypeOf(addr)))
    {
      r := CreateLoad(Pointee(TypeOf(addr)), addr);
    }

    /** `emitAssign(left, right)`: store `right` at the address `left`. */
    method EmitAssign(left: Value, right: Value)
      requires Positioned()
      modifies this`cur
      ensures cur == Snoc(old(cur), Store(right, left))
    {
      CreateStore(right, left);
    }

    /** `emitStoreGlobalVar(value, name)`. */
    method EmitStoreGlobalVar(value: Value, name: string)
      requires Positioned()
      requires name in globals
      modifies this`cur
      ensures cur == Snoc(old(cur), Store(value, GlobalV(name, globals[name].ty)))
    {
      EmitAssign(GlobalV(name, globals[name].ty), value);
    }

    /** `emitStackLocalVariable(type, name)`: one alloca. */
    method EmitStackLocalVariable(ty: Ty, name: string) returns (r: Value)
      requires Positioned()
      modifies this`cur, this`nextReg
      ensures cur == Snoc(old(cur), Alloca(old(nextReg), ty, name))
      ensures nextReg == old(nextReg) + 1 && r == Reg(old(nextReg), Ptr(ty))
    {
      r := CreateAlloca(ty, name);
    }

    /** `genIncrement(left, step)`: load the slot and add the i32 constant
        `step` with nsw; nothing is stored. */
    method GenIncrement(left: Value, step: int) returns (r: Value)
      requires Positioned()
      requires TypeOf(left).Ptr?
      modifies this`cur, this`nextReg
      ensures var n, t := old(nextReg), Pointee(TypeOf(left));
        cur == Snoc(Snoc(old(cur), Load(n, t, left)), AddNsw(n + 1, Reg(n, t), I32C(step))) &&
        r == Reg(n + 1, t)
      ensures nextReg == old(nextReg) + 2
    {
      var valueL := CreateLoad(Pointee(TypeOf(left)), left);
      r := CreateNSWAdd(valueL, I32C(step));
    }

    /** `getRValue(slot, ty)`: load the pointer held in the slot at `ty`,
        then the value it points to at `ty`'s pointee type. */
    method GetRValue(slot: Value, ty: Ty) returns (r: Value)
      requires Positioned()
      requires ty.Ptr?
      modifies this`cur, this`nextReg
      ensures var n := old(nextReg);
        cur == Snoc(Snoc(old(cur), Load(n, ty, slot)), Load(n + 1, Pointee(ty), Reg(n, ty))) &&
        r == Reg(n + 1, Pointee(ty))
      ensures nextReg == old(nextReg) + 2
    {
      var address := CreateLoad(ty, slot);
      r := CreateLoad(Pointee(ty), address);
    }

    /** `getElementAddr(arrAddr, indexAddr)`: load the base pointer, load
        the index, sign-extend it to i64 and step over that many elements.
        An index that is already an i64 needs no `sext`. */
    method GetElementAddr(arrAddr: Value, indexAddr: Value) returns (r: Value)
      requires Positioned()
      requires TypeOf(arrAddr).Ptr? && Pointee(TypeOf(arrAddr)).Ptr? && TypeOf(indexAddr).Ptr?
      requires Pointee(TypeOf(indexAddr)).Int? && Pointee(TypeOf(indexAddr)).bits <= 64
      modifies this`cur, this`nextReg
      ensures var ty, it, n := Pointee(TypeOf(arrAddr)), Pointee(TypeOf(indexAddr)), old(nextReg);
        it != I64 ==>
        cur == Snoc(Snoc(Snoc(Snoc(old(cur),
          Load(n, ty, arrAddr)), Load(n + 1, it, indexAddr)),
          SExt(n + 2, Reg(n + 1, it), I64)), Gep(n + 3, Pointee(ty), Reg(n, ty), [Reg(n + 2, I64)])) &&
        r == Reg(n + 3, ty) && nextReg == n + 4
      ensures var ty, n := Pointee(TypeOf(arrAddr)), old(nextReg);
        Pointee(TypeOf(indexAddr)) == I64 ==>
        cur == Snoc(Snoc(Snoc(old(cur),
          Load(n, ty, arrAddr)), Load(n + 1, I64, indexAddr)),
          Gep(n + 2, Pointee(ty), Reg(n, ty), [Reg(n + 1, I64)])) &&
        r == Reg(n + 2, ty) && nextReg == n + 3
    {
      var ty := Pointee(TypeOf(arrAddr));
      var arr := CreateLoad(ty, arrAddr);
      var indexValue := CreateLoad(Pointee(TypeOf(indexAddr)), indexAddr);
      var index64 := CreateSExt(indexValue, I64);
      r := CreateInBoundsGEP(Pointee(ty), arr, [index64]);
    }

    /** `getStructElementAddr(index, ptr)`: one GEP with the i32 indices
        0 and `index`; the result points to that field. A constant `ptr`
        gives a constant GEP and no instruction. */
    method GetStructElementAddr(index: int, ptr: Value) returns (r: Value)
      requires Positioned()
      requires TypeOf(ptr).Ptr? && IndexedTy(Pointee(TypeOf(ptr)), [I32C(0), I32C(index)]).Some?
      modifies this`cur, this`nextReg
      ensures var t, idx := Pointee(TypeOf(ptr)), [I32C(0), I32C(index)];
        if IsConstantValue(ptr) then
          cur == old(cur) && nextReg == old(nextReg) && r == ConstGepV(t, ptr, [0, index], IndexedTy(t, idx).value)
        else
          cur == Snoc(old(cur), Gep(old(nextReg), t, ptr, idx)) && nextReg == old(nextReg) + 1 &&
          r == Reg(old(nextReg), Ptr(IndexedTy(t, idx).value))
    {
      var idx := [I32C(0), I32C(index)];
      assert IntConstants(idx) && IndexInts(idx) == [0, index];
      r := CreateInBoundsGEP(Pointee(TypeOf(ptr)), ptr, idx);
    }

    /** `gen_get_member_ptr(index, ptr)`: the same GEP with i64 indices. */
    method GenGetMemberPtr(index: int, ptr: Value) returns (r: Value)
      requires Positioned()
      requires TypeOf(ptr).Ptr? && IndexedTy(Pointee(TypeOf(ptr)), [I64C(0), I64C(index)]).Some?
      modifies this`cur, this`nextReg
      ensures var t, idx := Pointee(TypeOf(ptr)), [I64C(0), I64C(index)];
        if IsConstantValue(ptr) then
          cur == old(cur) && nextReg == old(nextReg) && r == ConstGepV(t, ptr, [0, index], IndexedTy(t, idx).value)
        else
          cur == Snoc(old(cur), Gep(old(nextReg), t, ptr, idx)) && nextReg == old(nextReg) + 1 &&
          r == Reg(old(nextReg), Ptr(IndexedTy(t, idx).value))
    {
      var idx := [I64C(0), I64C(index)];
      assert IntConstants(idx) && IndexInts(idx) == [0, index];
      r := CreateInBoundsGEP(Pointee(TypeOf(ptr)), ptr, idx);
    }

    /** `getStructElementLValue(slot, index)`: load the struct pointer held
        in the slot, then the field's address. */
    method GetStructElementLValue(slot: Value, index: int) returns (r: Value)
      requires Positioned()
      requires TypeOf(slot).Ptr? && Pointee(TypeOf(slot)).Ptr? && Pointee(Pointee(TypeOf(slot))).Struct?
      requires 0 <= index < |Pointee(Pointee(TypeOf(slot))).fields|
      modifies this`cur, this`nextReg
      ensures var ty, n := Pointee(TypeOf(slot)), old(nextReg);
        cur == Snoc(Snoc(old(cur), Load(n, ty, slot)), Gep(n + 1, Pointee(ty), Reg(n, ty), [I32C(0), I32C(index)])) &&
        r == Reg(n + 1, Ptr(Pointee(ty).fields[index]))
      ensures nextReg == old(nextReg) + 2
    {
      var ty := Pointee(TypeOf(slot));
      var structAddr := CreateLoad(ty, slot);
      FieldIndexedTy(Pointee(ty), index);
      r := GetStructElementAddr(index, structAddr);
    }

    /** `getStructElementRValue(slot, index)`: the LValue's address, then a
        load at the field's type. */
    method GetStructElementRValue(slot: Value, index: int) returns (r: Value)
      requires Positioned()
      requires TypeOf(slot).Ptr? && Pointee(TypeOf(slot)).Ptr? && Pointee(Pointee(TypeOf(slot))).Struct?
      requires 0 <= index < |Pointee(Pointee(TypeOf(slot))).fields|
      modifies this`cur, this`nextReg
      ensures var ty, n := Pointee(TypeOf(slot)), old(nextReg); var ft := Pointee(ty).fields[index];
        cur == Snoc(Snoc(Snoc(old(cur), Load(n, ty, slot)), Gep(n + 1, Pointee(ty), Reg(n, ty), [I32C(0), I32C(index)])),
          Load(n + 2, ft, Reg(n + 1, Ptr(ft)))) &&
        r == Reg(n + 2, ft)
      ensures nextReg == old(nextReg) + 3
    {
      var ft := Pointee(Pointee(TypeOf(slot))).fields[index];
      var elementAddr := GetStructElementLValue(slot, index);
      r := CreateLoad(ft, elementAddr);
    }
  }
}
