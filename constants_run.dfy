/** What the constants demo's module holds and does when it runs: the
    private constants read as their initializers and cannot be written,
    the string holds "hello", and `main` returns `global_a`'s 1. */
module ConstantsRun {
  import opened Wrappers
  import opened Ir
  import opened Interp
  import opened Exec
  import opened Constants
  import IrBuilderRun

  function At(name: string): Addr { ObjAddr(GlobalObj(name)) }

  function Elem(name: string, k: int): Addr { Addr(GlobalObj(name), [0, k]) }

  /** Before anything is stored, `__constant.main.int_array` reads 1, 2,
      3, 4 and `__constant.main.point` reads 11 and 12; no instruction
      may store into either, while `global_a` stays writable. */
  lemma {:induction false} ConstantsReadOnly(p: Program, k: int)
    requires p.globals == ConstantsGlobals() && 0 <= k < 4
    ensures Read(p, InitialMem, Elem(IntArrayConst, k)) == Some(IntV(32, k + 1))
    ensures Read(p, InitialMem, Elem(PointConst, 0)) == Some(IntV(32, 11))
    ensures Read(p, InitialMem, Elem(PointConst, 1)) == Some(IntV(32, 12))
    ensures !Writable(p, Elem(IntArrayConst, k)) && !Writable(p, Elem(PointConst, 0)) && Writable(p, At(GlobalA))
  {
    assert Elem(IntArrayConst, k).path[1..] == [k];
    IrBuilderRun.ArrInitAt(k);
    assert [0][1..] == [] && [1][1..] == [];
  }

  /** Character `k` of the string global reads as that byte of "hello". */
  lemma StringReadsHello(p: Program, k: int)
    requires p.strings == ConstantsProgram().strings && 0 <= k < 5
    ensures Read(p, InitialMem, Addr(StringObj(0), [0, k])) == Some(IntV(8, Hello[k] as int))
    ensures !Writable(p, Addr(StringObj(0), [0, k]))
  {
  }

  /** `main`'s one block. */
  lemma MainBody(fuel: nat, p: Program, f: Function, code: seq<Instr>)
    requires code == MainListing() && GlobalA in p.globals && p.globals[GlobalA] == GlobalADef
    ensures ExecCode(fuel, p, f, code, 0, Ctx([], map[], InitialMem)) == Returned(InitialMem, Some(IntV(32, 1)))
  {
    assert |code| == 2 && code[0] == Load(0, I32, GlobalV(GlobalA, I32)) && code[1] == Ret(Reg(0, I32));
    var c0 := Ctx([], map[], InitialMem);
    assert Read(p, InitialMem, At(GlobalA)) == Some(IntV(32, 1));
    var c1 := LoadStep(p, code, 0, 0, I32, GlobalV(GlobalA, I32), c0, At(GlobalA), IntV(32, 1));
    StepsOne(p, code, 0, 1, c0, c1, c1);
    ExecSteps(fuel, p, f, code, 0, 1, c0, c1);
  }

  /** With any fuel, `main` returns `global_a`'s 1 and stores nothing. */
  lemma {:induction false} MainReturnsOne(fuel: nat)
    ensures Run(fuel, ConstantsProgram(), MainName, [], InitialMem) == Returned(InitialMem, Some(IntV(32, 1)))
  {
    assert ConstantsGlobals()[GlobalA] == GlobalADef;
    MainBody(fuel, ConstantsProgram(), MainFunction(), MainListing());
  }
}
