/** An integer-only reference interpreter for the recorded IR, following the
    LLVM Language Reference Manual's descriptions of the 'alloca', 'load',
    'store', 'add' (with nsw), 'icmp', 'getelementptr', 'sext', 'call', 'br'
    and 'ret' instructions. Execution is bounded by fuel: every branch and
    every call consumes one unit. Float values can be loaded and stored but
    'fcmp' yields an undetermined value. */
module Interp {
  import opened Wrappers
  import opened Ir

  /** Memory objects: a global variable, a stack slot (numbered in allocation
      order) or a global string. */
  datatype Base = GlobalObj(name: string) | StackObj(slot: nat) | StringObj(index: nat)

  /** An address: an object and a path into it. The first path element steps
      over whole objects (only 0 stays inside one); later elements select a
      struct field or an array element. */
  datatype Addr = Addr(base: Base, path: seq<int>)

  datatype Val = IntV(bits: nat, v: int) | PtrV(addr: Addr) | NullV | FloatV(lit: real) | Undetermined

  /** The type of every stack slot allocated so far, and every scalar cell
      written so far. A global's cells read from its initializer until
      written. */
  datatype Mem = Mem(stack: seq<Ty>, cells: map<Addr, Val>)

  datatype Err =
    | UnknownFunction | NoBody | ArityMismatch | NoBlock | NoTerminator
    | BadOperand | BadAddress | Uninitialised | ReadOnly | TypeMismatch | SignedOverflow

  datatype Outcome = Returned(mem: Mem, ret: Option<Val>) | Stuck(err: Err) | OutOfFuel

  /** One activation: its arguments, its registers and the shared memory. */
  datatype Ctx = Ctx(args: seq<Val>, regs: map<nat, Val>, mem: Mem)

  /** The address of a whole object. */
  function ObjAddr(b: Base): Addr { Addr(b, [0]) }

  function ObjectTy(p: Program, m: Mem, b: Base): Option<Ty> {
    match b
    case GlobalObj(n) => if n in p.globals then Some(p.globals[n].ty) else None
    case StackObj(k) => if k < |m.stack| then Some(m.stack[k]) else None
    case StringObj(k) => if k < |p.strings| then Some(Array(I8, |p.strings[k].content|)) else None
  }

  /** The type reached by following a path of field and element indices. */
  function Navigate(t: Ty, path: seq<int>): Option<Ty>
    decreases |path|
  {
    if path == [] then Some(t)
    else match t
      case Struct(_, fields) => if 0 <= path[0] < |fields| then Navigate(fields[path[0]], path[1..]) else None
      case Array(elem, len) => if 0 <= path[0] < len then Navigate(elem, path[1..]) else None
      case _ => None
  }

  /** The type of the location an address denotes, if it lies inside an
      allocated object. */
  function AddrTy(p: Program, m: Mem, a: Addr): Option<Ty> {
    match ObjectTy(p, m, a.base)
    case None => None
    case Some(t) => if |a.path| > 0 && a.path[0] == 0 then Navigate(t, a.path[1..]) else None
  }

  function ScalarOf(c: Constant): Option<Val> {
    match c
    case IntC(bits, v) => Some(IntV(bits, v))
    case FloatC(_, lit) => Some(FloatV(lit))
    case NullC(_) => Some(NullV)
    case _ => None
  }

  /** The scalar a constant initializer holds at a path. */
  function ConstAt(c: Constant, path: seq<int>): Option<Val>
    decreases |path|
  {
    if path == [] then ScalarOf(c)
    else match c
      case ArrayC(_, es) => if 0 <= path[0] < |es| then ConstAt(es[path[0]], path[1..]) else None
      case StructC(_, es) => if 0 <= path[0] < |es| then ConstAt(es[path[0]], path[1..]) else None
      case _ => None
  }

  /** What a load from an address sees: the last store there, or else the
      global's initializer (or the string's character); a stack slot never
      stored to is uninitialised. */
  function Read(p: Program, m: Mem, a: Addr): Option<Val> {
    if a in m.cells then Some(m.cells[a])
    else if |a.path| == 0 || a.path[0] != 0 then None
    else match a.base
      case GlobalObj(n) => if n in p.globals then ConstAt(p.globals[n].init, a.path[1..]) else None
      case StringObj(k) =>
        if k < |p.strings| && |a.path| == 2 && 0 <= a.path[1] < |p.strings[k].content|
        then Some(IntV(8, p.strings[k].content[a.path[1]] as int)) else None
      case StackObj(_) => None
  }

  /** Constant globals and global strings are read-only. */
  predicate Writable(p: Program, a: Addr) {
    match a.base
    case GlobalObj(n) => n in p.globals && !p.globals[n].isConstant
    case StackObj(_) => true
    case StringObj(_) => false
  }

  predicate HasType(v: Val, t: Ty) {
    match v
    case IntV(bits, _) => t == Int(bits)
    case PtrV(_) => t.Ptr?
    case NullV => t.Ptr?
    case FloatV(_) => t.Float? || t.Double? || t.X86Fp80?
    case Undetermined => false
  }

  /** Operand evaluation. A constant GEP evaluates as the `getelementptr`
      instruction does on its base. */
  function Eval(p: Program, c: Ctx, v: Value): Option<Val> {
    match v
    case Reg(id, _) => if id in c.regs then Some(c.regs[id]) else None
    case Arg(i, _) => if i < |c.args| then Some(c.args[i]) else None
    case ConstV(k) => ScalarOf(k)
    case GlobalV(n, _) => if n in p.globals then Some(PtrV(ObjAddr(GlobalObj(n)))) else None
    case StrV(k, _) => if k < |p.strings| then Some(PtrV(ObjAddr(StringObj(k)))) else None
    case ConstGepV(srcTy, b, ks, _) =>
      (match Eval(p, c, b)
       case Some(PtrV(ad)) =>
         if |ks| == 0 || AddrTy(p, c.mem, ad) != Some(srcTy) then None else Some(PtrV(GepAddr(ad, ks)))
       case _ => None)
    case NoValue => None
  }

  function EvalAll(p: Program, c: Ctx, vs: seq<Value>): (r: Option<seq<Val>>)
    ensures r.Some? ==> |r.value| == |vs|
  {
    if vs == [] then Some([])
    else match (Eval(p, c, vs[0]), EvalAll(p, c, vs[1..]))
      case (Some(x), Some(xs)) => Some([x] + xs)
      case _ => None
  }

  function EvalIndices(p: Program, c: Ctx, vs: seq<Value>): (r: Option<seq<int>>)
    ensures r.Some? ==> |r.value| == |vs|
  {
    if vs == [] then Some([])
    else match (Eval(p, c, vs[0]), EvalIndices(p, c, vs[1..]))
      case (Some(IntV(_, k)), Some(ks)) => Some([k] + ks)
      case _ => None
  }

  /** 'getelementptr': the first index moves the address by whole elements
      of the source type, the remaining ones descend into it. */
  function GepAddr(a: Addr, ks: seq<int>): Addr
    requires |a.path| > 0 && |ks| > 0
  {
    Addr(a.base, a.path[..|a.path| - 1] + [a.path[|a.path| - 1] + ks[0]] + ks[1..])
  }

  predicate IHolds(pred: IPred, x: int, y: int) {
    match pred
    case EQ => x == y
    case NE => x != y
    case SGT => x > y
    case SGE => x >= y
    case SLT => x < y
    case SLE => x <= y
  }

  function Bit(b: bool): Val { IntV(1, if b then 1 else 0) }

  function StepLoad(p: Program, d: nat, t: Ty, a: Value, c: Ctx): Result<Ctx, Err> {
    match Eval(p, c, a)
    case Some(PtrV(ad)) =>
      if AddrTy(p, c.mem, ad) != Some(t) || !IsScalar(t) then Failure(BadAddress)
      else (match Read(p, c.mem, ad)
            case None => Failure(Uninitialised)
            case Some(v) => if HasType(v, t) then Success(c.(regs := c.regs[d := v])) else Failure(TypeMismatch))
    case _ => Failure(BadOperand)
  }

  function StepStore(p: Program, v: Value, a: Value, c: Ctx): Result<Ctx, Err> {
    match (Eval(p, c, v), Eval(p, c, a))
    case (Some(x), Some(PtrV(ad))) =>
      var t := AddrTy(p, c.mem, ad);
      if t.None? || !IsScalar(t.value) then Failure(BadAddress)
      else if !HasType(x, t.value) then Failure(TypeMismatch)
      else if !Writable(p, ad) then Failure(ReadOnly)
      else Success(c.(mem := c.mem.(cells := c.mem.cells[ad := x])))
    case _ => Failure(BadOperand)
  }

  /** 'add nsw': signed overflow yields poison in LLVM; here it is an error. */
  function StepAdd(p: Program, d: nat, l: Value, r: Value, c: Ctx): Result<Ctx, Err> {
    match (Eval(p, c, l), Eval(p, c, r))
    case (Some(IntV(b1, x)), Some(IntV(b2, y))) =>
      if b1 != b2 then Failure(TypeMismatch)
      else if !InSignedRange(b1, x + y) then Failure(SignedOverflow)
      else Success(c.(regs := c.regs[d := IntV(b1, x + y)]))
    case _ => Failure(BadOperand)
  }

  function StepICmp(p: Program, d: nat, pred: IPred, l: Value, r: Value, c: Ctx): Result<Ctx, Err> {
    match (Eval(p, c, l), Eval(p, c, r))
    case (Some(IntV(b1, x)), Some(IntV(b2, y))) =>
      if b1 != b2 then Failure(TypeMismatch) else Success(c.(regs := c.regs[d := Bit(IHolds(pred, x, y))]))
    case _ => Failure(BadOperand)
  }

  function StepFCmp(p: Program, d: nat, l: Value, r: Value, c: Ctx): Result<Ctx, Err> {
    match (Eval(p, c, l), Eval(p, c, r))
    case (Some(FloatV(_)), Some(FloatV(_))) => Success(c.(regs := c.regs[d := Undetermined]))
    case _ => Failure(BadOperand)
  }

  function StepGep(p: Program, d: nat, srcTy: Ty, base: Value, idx: seq<Value>, c: Ctx): Result<Ctx, Err> {
    match (Eval(p, c, base), EvalIndices(p, c, idx))
    case (Some(PtrV(ad)), Some(ks)) =>
      if |ks| == 0 || AddrTy(p, c.mem, ad) != Some(srcTy) then Failure(BadAddress)
      else Success(c.(regs := c.regs[d := PtrV(GepAddr(ad, ks))]))
    case _ => Failure(BadOperand)
  }

  /** 'sext' keeps the signed value and widens its type. */
  function StepSExt(p: Program, d: nat, v: Value, to: Ty, c: Ctx): Result<Ctx, Err> {
    match Eval(p, c, v)
    case Some(IntV(b, x)) =>
      if to.Int? && to.bits >= b then Success(c.(regs := c.regs[d := IntV(to.bits, x)])) else Failure(TypeMismatch)
    case _ => Failure(BadOperand)
  }

  /** The effect of one instruction that is neither a call nor a
      terminator. */
  function Step(p: Program, i: Instr, c: Ctx): Result<Ctx, Err>
    requires !i.Call? && !IsTerminator(i)
  {
    match i
    case Alloca(d, t, _) =>
      Success(c.(regs := c.regs[d := PtrV(ObjAddr(StackObj(|c.mem.stack|)))],
                 mem := c.mem.(stack := c.mem.stack + [t])))
    case Load(d, t, a) => StepLoad(p, d, t, a, c)
    case Store(v, a) => StepStore(p, v, a, c)
    case AddNsw(d, l, r) => StepAdd(p, d, l, r, c)
    case ICmp(d, pred, l, r) => StepICmp(p, d, pred, l, r, c)
    case FCmp(d, _, l, r) => StepFCmp(p, d, l, r, c)
    case Gep(d, srcTy, base, idx) => StepGep(p, d, srcTy, base, idx, c)
    case SExt(d, v, to) => StepSExt(p, d, v, to, c)
  }

  /** Runs a function on argument values: its entry block is block 0. */
  function Run(fuel: nat, p: Program, name: string, args: seq<Val>, m: Mem): Outcome
    decreases fuel, 2, 0
  {
    if name !in p.functions then Stuck(UnknownFunction)
    else
      var f := p.functions[name];
      if f.blocks == [] then Stuck(NoBody)
      else if (if f.proto.isVarArg then |args| < |f.proto.params| else |args| != |f.proto.params|) then Stuck(ArityMismatch)
      else ExecBlock(fuel, p, f, 0, Ctx(args, map[], m))
  }

  function ExecBlock(fuel: nat, p: Program, f: Function, b: nat, c: Ctx): Outcome
    decreases fuel, 1, 0
  {
    if b < |f.blocks| then ExecCode(fuel, p, f, f.blocks[b].code, 0, c) else Stuck(NoBlock)
  }

  /** Executes a block's code from instruction `pc` on. */
  function ExecCode(fuel: nat, p: Program, f: Function, code: seq<Instr>, pc: nat, c: Ctx): Outcome
    decreases fuel, 0, |code| - pc
  {
    if pc >= |code| then Stuck(NoTerminator)
    else match code[pc]
      case Br(t) => if fuel == 0 then OutOfFuel else ExecBlock(fuel - 1, p, f, t, c)
      case CondBr(cv, t, e) =>
        (match Eval(p, c, cv)
         case Some(IntV(1, x)) => if fuel == 0 then OutOfFuel else ExecBlock(fuel - 1, p, f, if x == 1 then t else e, c)
         case _ => Stuck(BadOperand))
      case Ret(v) =>
        (match Eval(p, c, v)
         case Some(x) => Returned(c.mem, Some(x))
         case None => Stuck(BadOperand))
      case RetVoid => Returned(c.mem, None)
      case Call(d, callee, args) =>
        (match EvalAll(p, c, args)
         case None => Stuck(BadOperand)
         case Some(vs) =>
           if fuel == 0 then OutOfFuel
           else match Run(fuel - 1, p, callee, vs, c.mem)
             case Returned(m2, r) =>
               var regs := if r.Some? then c.regs[d := r.value] else c.regs;
               ExecCode(fuel, p, f, code, pc + 1, c.(regs := regs, mem := m2))
             case other => other)
      case _ =>
        match Step(p, code[pc], c)
        case Failure(e) => Stuck(e)
        case Success(c2) => ExecCode(fuel, p, f, code, pc + 1, c2)
  }

  /** The memory a program starts with: no stack slots, no stores yet. */
  const InitialMem: Mem := Mem([], map[])

  /** The folded pointer `CreateGlobalStringPtr` returns is the address of
      the string's character 0, and a load through it sees that character. */
  lemma FirstCharPtrEvals(p: Program, c: Ctx, k: nat)
    requires k < |p.strings|
    ensures Eval(p, c, FirstCharPtr(k, |p.strings[k].content|)) == Some(PtrV(Addr(StringObj(k), [0, 0])))
    ensures AddrTy(p, c.mem, Addr(StringObj(k), [0, 0])) == if |p.strings[k].content| > 0 then Some(I8) else None
    ensures |p.strings[k].content| > 0 && Addr(StringObj(k), [0, 0]) !in c.mem.cells ==>
      Read(p, c.mem, Addr(StringObj(k), [0, 0])) == Some(IntV(8, p.strings[k].content[0] as int))
  {
    var len := |p.strings[k].content|;
    assert AddrTy(p, c.mem, ObjAddr(StringObj(k))) == Some(Array(I8, len));
    assert GepAddr(ObjAddr(StringObj(k)), [0, 0]) == Addr(StringObj(k), [0, 0]);
    assert Addr(StringObj(k), [0, 0]).path[1..] == [0] && [0][1..] == [];
  }
}
