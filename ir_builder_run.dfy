/** What the IR-builder demo's module holds and does when it runs: every
    global reads as its initializer, and `main` returns 3, the value of
    `i_32`. */
module IrBuilderRun {
  import opened Wrappers
  import opened Ir
  import opened Interp
  import opened Exec
  import opened IrBuilderDemo

  function At(name: string): Addr { ObjAddr(GlobalObj(name)) }

  /** An element or field of a global aggregate. */
  function Elem(name: string, k: int): Addr { Addr(GlobalObj(name), [0, k]) }

  /** An untouched global reads, at every path inside it, what its
      initializer holds there. */
  lemma GlobalReadsInit(p: Program, name: string, path: seq<int>)
    requires name in p.globals
    ensures Read(p, InitialMem, Addr(GlobalObj(name), [0] + path)) == ConstAt(p.globals[name].init, path)
  {
    assert ([0] + path)[1..] == path;
  }

  /** Element `k` of `arr`'s initializer is k + 1. */
  lemma ArrInitAt(k: int)
    requires 0 <= k < 4
    ensures ConstAt(ArrInit(), [k]) == Some(IntV(32, k + 1))
  {
    assert [k][1..] == [];
    var es := [IntC(32, 1), IntC(32, 2), IntC(32, 3), IntC(32, 4)];
    assert es[k] == IntC(32, k + 1);
  }

  /** Before anything is stored, `i_32` reads 3, the elements of `arr`
      read 1, 2, 3, 4, the fields of `pointer` read 11 and 12 (not the 1
      and 2 its comment announces), the one field of `u` reads 1, and
      there is no third field of `pointer`. */
  lemma {:induction false} GlobalsReadAsDefined(p: Program, k: int)
    requires p.globals == IrGlobals() && 0 <= k < 4
    ensures Read(p, InitialMem, At(I32Name)) == Some(IntV(32, 3))
    ensures Read(p, InitialMem, Elem(ArrName, k)) == Some(IntV(32, k + 1))
    ensures Read(p, InitialMem, Elem(PointerName, 0)) == Some(IntV(32, 11))
    ensures Read(p, InitialMem, Elem(PointerName, 1)) == Some(IntV(32, 12))
    ensures Read(p, InitialMem, Elem(PointerName, 2)) == None
    ensures Read(p, InitialMem, Elem(UName, 0)) == Some(IntV(32, 1))
  {
    StructStage();
    IrGlobalsHold();
    GlobalReadsInit(p, I32Name, []);
    GlobalReadsInit(p, ArrName, [k]);
    ArrInitAt(k);
    GlobalReadsInit(p, PointerName, [0]);
    GlobalReadsInit(p, PointerName, [1]);
    GlobalReadsInit(p, PointerName, [2]);
    GlobalReadsInit(p, UName, [0]);
    assert [0][1..] == [] && [1][1..] == [];
  }

  /** `main`'s one block: the load of `i_32`, then its return. */
  lemma MainBody(fuel: nat, p: Program, f: Function, code: seq<Instr>)
    requires code == MainListing() && I32Name in p.globals && p.globals[I32Name] == Fresh(I32, IntC(32, 3))
    ensures ExecCode(fuel, p, f, code, 0, Ctx([], map[], InitialMem)) == Returned(InitialMem, Some(IntV(32, 3)))
  {
    assert |code| == 2 && code[0] == Load(0, I32, GlobalV(I32Name, I32)) && code[1] == Ret(Reg(0, I32));
    var c0 := Ctx([], map[], InitialMem);
    assert Read(p, InitialMem, At(I32Name)) == Some(IntV(32, 3));
    var c1 := LoadStep(p, code, 0, 0, I32, GlobalV(I32Name, I32), c0, At(I32Name), IntV(32, 3));
    StepsOne(p, code, 0, 1, c0, c1, c1);
    ExecSteps(fuel, p, f, code, 0, 1, c0, c1);
  }

  /** With any fuel, `main` loads `i_32` and returns its 3; memory is
      untouched. */
  lemma {:induction false} MainReturnsThree(fuel: nat)
    ensures Run(fuel, IrProgram(), MainName, [], InitialMem) == Returned(InitialMem, Some(IntV(32, 3)))
  {
    StructStage();
    MainBody(fuel, IrProgram(), MainFunction(), MainListing());
  }
}
