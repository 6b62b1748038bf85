# LLVM IRBuilder demos, modelled in Dafny

The repository is a set of small C++ programs. Each one drives LLVM's
`IRBuilder` to build one module: globals, constants, structs, functions, and
their basic blocks. This project models that module-building state and each
demo's emitters. It then uses a small reference interpreter to prove what the
emitted code does when run.

The project has three layers.

* **The module and the builder** (`session.dfy`, module `Builder`). The
  class `Session` holds the state every demo mutates:
  * the module's function table (signature, blocks, linkage, DSO-local flag);
  * the global table (type, initializer, constant flag, linkage);
  * the global strings and the named struct types;
  * the registered prototypes (`funProtoMap`);
  * the function being emitted, its blocks, the insertion block and its
    instruction chain;
  * the next register number.

  Its methods are the shared helpers that every demo file repeats:
  `declareFunction`, `defineGlobalVariable`, `emitConstant`, `emitStringPtr`
  (over `CreateGlobalString` or `CreateGlobalStringPtr`),
  `createBB`, `SetInsertPoint`, `emitReturn`, `emitLoadValue`, `emitAssign`,
  `emitStoreGlobalVar`, `emitStackLocalVariable`, `genIncrement`,
  `getRValue`, `getElementAddr`, `getStructElementAddr`,
  `getStructElementLValue`, `getStructElementRValue` and `gen_get_member_ptr`.
  Each method appends exactly its instruction sequence, and its contract
  states the whole new state. An in-bounds GEP of a constant base with
  integer-constant indices is folded, as IRBuilder's default constant
  folder does: nothing is appended, and the value is a constant
  `getelementptr` expression. The instruction set and the types are in
  `ir.dfy` (module `Ir`).
* **The demos**: one module per source file (`IrBuilderDemo`, `Locals`,
  `Constants`, `Compare`, `LoopFor`, `LoopWhile`, `Pointers`, `Structs`).
  Each models its prototypes, its global definitions, its statement
  emitters, `emitFunctionBody`, `defineFunction` and `emitProgram` as
  `Session` methods. Lemmas show that the finished module's functions are
  the listed instruction sequences, and that every block ends in exactly
  one terminator.
* **The interpreter** (`interp.dfy`, module `Interp`, plus step lemmas in
  `exec.dfy`, module `Exec`). It is integer-only, bounded by fuel, and runs
  the recorded blocks. It follows the LLVM Language Reference Manual's
  sections on the `alloca`, `load`, `store`, `add` (with `nsw`), `icmp`,
  `getelementptr`, `sext`, `call`, `br` and `ret` instructions.
  * Memory is a stack of typed slots plus the module's globals, addressed
    by object and index path.
  * A signed overflow of `add nsw` stops the run as `Stuck(SignedOverflow)`.
  * `fcmp` gives an undetermined bit.

  The `*_run` modules prove each demo's end-to-end behaviour:
  * `main`'s return values: 3, 1, 1, 1, 55, 55, 10 and 20;
  * pointer, struct and array swaps that change nothing else;
  * constants that can never be written.

## Model

| member | source | states |
|---|---|---|
| Builder.Session.constructor | src/structs.cpp:14-20 | The module that `initializeModule` creates, and `emitProgram` starts from, is empty: no functions, globals, strings, struct types or prototypes, and no insertion point. |
| Builder.Session.RegisterProto | src/structs.cpp:49-94 | Registering a prototype under a name replaces only that name's entry in `funProtoMap`. |
| Builder.Session.DeclareFunction | src/structs.cpp:110-119 | The function table becomes `Declared(old, protos, name)`. The returned function is the table's entry for `name`. |
| Builder.DeclaredAddsOne | src/structs.cpp:110-119 | Declare-or-fetch: a name already present leaves the table as it was. Otherwise exactly one key is added: an external declaration with the registered signature and no blocks. Every other entry is untouched. |
| Builder.DeclaredIdempotent | src/06_locals.cpp:45-54 | Declaring a name twice gives the same table as declaring it once. |
| Builder.Session.DefineGlobalVariable | src/structs.cpp:152-158 | Get-or-insert, then overwrite the initializer. The global afterwards holds exactly `init`, and its type is `init`'s type. The only precondition is LLVM's `setInitializer` check: the global's value type, existing or given, must be `init`'s type. |
| Builder.Session.DefineGlobal | src/16_loop_while.cpp:89-95 | The one-argument form takes the global's type from the initializer. |
| Builder.DefineLastWins | src/07_constants.cpp:83-89 | Defining a name twice keeps one global, holding the last initializer. The key set grows by that name only. |
| Builder.DefineKeepsTyped | src/07_constants.cpp:83-93 | If every global has its initializer's type, then `defineGlobalVariable`, with or without `emitConstant`'s marking, keeps that so exactly when the global's type is the initializer's. That type is the existing global's, or the requested one. So `emitLoadValue`'s load at the initializer's type reads the global at its own type. |
| Builder.Session.EmitConstant | src/structs.cpp:192-202 | The global `__constant.<current function>.<name>` is defined and then marked constant with private linkage. |
| Builder.Session.EmitConstantOfInit | src/07_constants.cpp:114-124 | The same, with the type taken from the initializer: the `ty` argument plays no part. |
| Builder.Session.CreateGlobalString | src/18_pointers.cpp:175-178 | A global string under the given name, holding the content, is appended. The value is that string's `[len x i8]` array global itself, a pointer to the array. `structs.cpp:204-207` uses the same call. |
| Builder.Session.CreateGlobalStringPtr | src/07_constants.cpp:126-128 | The same global string is appended, and no instruction. The value is the folded `i8*` pointer to its first character. `ir_builder.cpp:126-128` uses the same call. Both demos discard the value. |
| Interp.FirstCharPtrEvals | src/07_constants.cpp:126-128 | That folded pointer evaluates to the address of character 0 of the string. The location has type i8 when the string is non-empty, and a load there with no store before it reads the first character. |
| Builder.Session.CreateInBoundsGEP | src/18_pointers.cpp:330-337 | With a constant base and integer-constant indices, nothing is appended, no register is used, and the value is the constant GEP with those indices. Otherwise exactly one `getelementptr` is appended. In both cases the result points to the type the indices reach. |
| Builder.Session.CreateStructType | src/structs.cpp:42-47 | A named struct type with the given body is recorded and returned. |
| Builder.Session.StructTy | src/structs.cpp:535-540 | `getTypeByName` returns the recorded struct of that name, with its fields. |
| Builder.Session.ArgOf | src/structs.cpp:546-548 | The i-th formal argument has the i-th parameter type of the function being emitted. |
| Builder.Session.CreateBB | src/structs.cpp:129-131 | A new empty block is appended after the function's existing blocks. All earlier blocks are kept. |
| Builder.Session.SetInsertPoint | src/15_loop_for.cpp:272 | Moving the insertion point keeps every block's instructions. Appending continues at the end of the chosen block. |
| Builder.Session.EndFunction | src/structs.cpp:145-150 | The function being emitted gets exactly the finished blocks. No other function changes. |
| Builder.FinishAt | src/structs.cpp:145-150 | The k-th finished block is the k-th draft, with its instructions listed in order. |
| Builder.Session.EmitReturn | src/structs.cpp:121-127 | The terminator is `ret void` when the return type is void, and `ret value` otherwise. |
| Builder.Session.EmitLoadGlobal | src/structs.cpp:164-177 | A global is loaded at its initializer's type. |
| Builder.Session.EmitLoadValue | src/06_locals.cpp:91-98 | Any other address is loaded at its pointee type. |
| Builder.Session.EmitAssign | src/06_locals.cpp:100-102 | `emitAssign(left, right)` stores `right` at the address `left`, destination first. |
| Builder.Session.EmitStoreGlobalVar | src/structs.cpp:183-186 | One store of the value into the named global. |
| Builder.Session.EmitStackLocalVariable | src/06_locals.cpp:104-106 | Exactly one `alloca` of the given type and name is appended. The slot's address is a pointer to that type. |
| Builder.Session.GenIncrement | src/15_loop_for.cpp:246-253 | A load of the slot, then an `add nsw` of the constant step. Nothing is stored, and the result is the sum. |
| Builder.Session.GetRValue | src/18_pointers.cpp:292-296 | Exactly two loads: the pointer at the slot's element type, then the value at that pointer's pointee type. |
| Builder.Session.GetElementAddr | src/structs.cpp:340-354 | In order: load of the base pointer, load of the index, `sext` to i64, then one single-index GEP over the element type. An index slot that already holds an i64 gets no `sext`, so there are three instructions. The index must be an integer of at most 64 bits. |
| Builder.Session.CreateSExt | src/structs.cpp:347 | A value already of the target type is returned unchanged, and an integer literal is folded to the wider literal. Either way nothing is appended. Any other value gets exactly one `sext`. The source must be an integer no wider than the target, and the result has the target type. |
| Builder.Session.GetStructElementAddr | src/structs.cpp:361-367 | One GEP with exactly the i32 indices [0, index] and no load, folded into a constant GEP when the struct pointer is a constant. The result points to that field's type. |
| Builder.FieldIndexedTy | src/structs.cpp:361-367 | The indices [0, index] reach field `index` of the struct type. |
| Builder.Session.GenGetMemberPtr | src/structs.cpp:394-400 | The same GEP, with i64 indices. |
| Builder.Session.GetStructElementLValue | src/structs.cpp:378-383 | A load of the struct pointer, then the field's GEP: the RValue without its final load. |
| Builder.Session.GetStructElementRValue | src/structs.cpp:369-376 | The LValue's two instructions, then a load at the struct's field type at `index`. |
| Builder.Session.CreateCall | src/structs.cpp:410 | A call whose result has the callee's return type. |
| Interp.EvalIndices | src/structs.cpp:340-354 | A successful evaluation of GEP indices gives one index per operand. |
| Exec.ExecSteps | src/structs.cpp:535-575 | A straight-line run of instructions can be skipped: running from its start equals running from its end in the state it reaches. |
| IrBuilderDemo.EmitIntegers | src/ir_builder.cpp:136-155 | i_8, i_16, i_32, i_64, ui_8 and ui_32 are defined at widths 8/16/32/64/8/32 with values 1/2/3/4/1/3. |
| IrBuilderDemo.EmitFloats | src/ir_builder.cpp:157-167 | f, d and ld are defined as float, double and x86_fp80 with 1.0, 2.0 and 3.0, recorded only. |
| IrBuilderRun.ArrInitAt | src/ir_builder.cpp:170-186 | Element k of `arr`'s initializer, for k from 0 to 3, is the i32 value k + 1. The constants demo's `int_array` is the same constant. |
| IrBuilderDemo.IrGlobalsTyped | src/ir_builder.cpp:136-238 | Every global of the finished module has its initializer's type, the struct and the union included. |
| IrBuilderDemo.EmitArray | src/ir_builder.cpp:170-186 | `arr` = [1, 2, 3, 4] as [4 x i32]. |
| IrBuilderDemo.EmitStruct | src/ir_builder.cpp:192-207 | `struct.point` = {i32, i32}, and `pointer` = {11, 12}. |
| IrBuilderDemo.EmitUnion | src/ir_builder.cpp:213-226 | `union.ab` is a struct with one i32 field, and `u` = {1}. |
| IrBuilderDemo.EmitPointer | src/ir_builder.cpp:228-238 | `i_p` and `c_p` are null pointers of types i32* and i8*. |
| IrBuilderDemo.EmitConstString | src/ir_builder.cpp:241-243 | The string "hello" is requested as ".str". |
| IrBuilderDemo.EmitFunctionBody | src/ir_builder.cpp:66-74 | "entry" becomes the only block and the insertion point before anything is emitted. It holds the statement list and its return. |
| IrBuilderDemo.EmitGlobals | src/ir_builder.cpp:252-262 | On an empty module, the global part of `emitProgram` gives exactly the finished global table and the two struct types. |
| IrBuilderDemo.EmitProgram | src/ir_builder.cpp:252-262 | The finished module: its globals, the two struct types, and `main` defined as the listed body. |
| IrBuilderRun.GlobalsReadAsDefined | src/ir_builder.cpp:192-207 | Before any store, `i_32` reads 3, `arr[k]` reads k+1, `pointer` reads 11 and 12 with no third field, and `u` reads 1. |
| IrBuilderRun.MainReturnsThree | src/ir_builder.cpp:245-250 | With any fuel, `main` loads `i_32`, returns 3 and leaves memory untouched. |
| Locals.EmitMainFunctionStatementList | src/06_locals.cpp:108-125 | The chain gains the alloca of `local_b`, the store of 2, the load of `global_a` stored into the slot, and the reload returned. |
| Locals.EmitProgram | src/06_locals.cpp:127-133 | The finished module: `global_a` = 1 and `main` defined. |
| Locals.MainNeverStoresGlobal | src/06_locals.cpp:117-120 | Every store of `main` goes to the `local_b` slot. None goes to `global_a`. |
| LocalsRun.MainReturnsOne | src/06_locals.cpp:114-124 | `local_b` first holds 2, which the second store overwrites with `global_a`'s 1. `main` returns 1, and `global_a` is never written. |
| Constants.EmitConstArray | src/07_constants.cpp:131-147 | `__constant.<fn>.int_array` = [1, 2, 3, 4] of [4 x i32], constant and private. |
| Constants.EmitConstStruct | src/07_constants.cpp:153-168 | `struct.point` = {i32, i32}, and `__constant.<fn>.point` = {11, 12}, constant and private. |
| Constants.EmitConstString | src/07_constants.cpp:171-173 | "hello" is requested under the name ".string". |
| Constants.ConstNamesDiffer | src/07_constants.cpp:114-118 | The two mangled names of one function differ. |
| Constants.ConstNameNotPlain | src/07_constants.cpp:114-118 | A mangled name never clashes with `global_a`. |
| Constants.ConstGlobalsKeepA | src/07_constants.cpp:175-184 | Defining the constants leaves `global_a` as it was. |
| Constants.MainConstNames | src/07_constants.cpp:175-178 | Inside `main` the names are `__constant.main.int_array` and `__constant.main.point`. |
| Constants.ConstantsGlobalsTyped | src/07_constants.cpp:131-168 | `global_a` and both private constants have their initializers' types. |
| Constants.EmitProgram | src/07_constants.cpp:186-192 | The finished module: `global_a`, the two constants, the string and `main`. |
| ConstantsRun.ConstantsReadOnly | src/07_constants.cpp:131-168 | Before any store the constants read 1..4 and 11, 12. No store may target them, while `global_a` stays writable. |
| ConstantsRun.StringReadsHello | src/07_constants.cpp:171-173 | Each character of the string global reads as its byte of "hello", and none is writable. |
| ConstantsRun.MainReturnsOne | src/07_constants.cpp:181-188 | With any fuel, `main` returns `global_a`'s 1 and stores nothing. |
| Compare.EmitIntegers | src/12_compare.cpp:140-168 | The sized globals at their stated widths, then i32_1 = 1, i32_2 = 2, ui32_1 = 1, ui32_2 = 2. Each name is defined once. |
| Compare.SizedKeepsPairs | src/12_compare.cpp:140-168 | The sized definitions neither add nor change any of the four pair names. |
| Compare.EmitFloats | src/12_compare.cpp:170-186 | The float globals, recorded only. |
| Compare.EmitIntComparisons | src/12_compare.cpp:265-295 | Six icmps in the order SGT, SGE, SLT, SLE, EQ, NE. The "unsigned" pair gets the same signed predicates. |
| Compare.EmitFloatComparisons | src/12_compare.cpp:297-311 | Six fcmps tagged OGT, OGE, OLT, OLE, ONE and UNE. |
| Compare.MainDefinable | src/12_compare.cpp:264-315 | `main`'s body in the finished module is the listed 24 instructions and the return. |
| Compare.EmitProgram | src/12_compare.cpp:317-323 | The finished module: every global and `main` defined. |
| Compare.FloatEqLineAsWritten | src/12_compare.cpp:309 | As written, the `==` line's predicate holds for 1.0 and 2.0, where C's `==` does not. The other five lines agree with their comments on all values. |
| Compare.CorrectedFloatPredsMeanTheirLines | src/12_compare.cpp:297-311 | With OEQ on the `==` line, every predicate means its line's comparison on all values, and only that line changes. |
| CompareRun.IntVerdicts | src/12_compare.cpp:265-295 | For 1 and 2, with both pairs: `<`, `<=` and `!=` hold; `>`, `>=` and `==` do not. |
| CompareRun.ComparisonsEvaluate | src/12_compare.cpp:265-295 | Running `main`'s sixteen integer instructions reaches exactly those verdicts. |
| CompareRun.MainReturnsOne | src/12_compare.cpp:264-315 | With any fuel, `main` stores nothing and returns `i32_1`'s 1. |
| LoopFor.EmitIntegers | src/15_loop_for.cpp:143-150 | start = 1, end = 10, result = 0 as i32. |
| LoopFor.EmitCondition | src/15_loop_for.cpp:272-277 | Load index, load `end`, signed `<=` (SLE), then condbr to body or end. |
| LoopFor.EmitLoopBody | src/15_loop_for.cpp:280-286 | `result = result + index` with nsw, stored into `result`, then br increment. |
| LoopFor.EmitIncrement | src/15_loop_for.cpp:289-292 | `genIncrement` of the index by 1, the caller's store, then br condition. |
| LoopFor.EmitMainFunctionStatementList | src/15_loop_for.cpp:255-299 | Four new blocks after the current ones, the entry code appended to the insertion block, and the insertion point left in the end block, whose value is the loaded `result`. |
| LoopFor.EmitFunctionBody | src/15_loop_for.cpp:70-78 | The blocks are exactly entry, condition, body, increment, end, in that order, with the listed instructions. |
| LoopFor.MainWellTerminated | src/15_loop_for.cpp:255-299 | Every block ends in exactly one terminator, each branch targets one of the five blocks, and no other instruction terminates. |
| LoopFor.IndexAllocatedOnce | src/15_loop_for.cpp:262 | The only `alloca` is the index slot, first in entry. No loop block allocates. |
| LoopFor.EmitProgram | src/15_loop_for.cpp:301-306 | The finished module: the three globals and `main`. |
| LoopForRun.Loop | src/15_loop_for.cpp:272-292 | Invariant: at the condition block with `result` = 1 + ... + (index - 1), sufficient fuel runs the loop to a return of 55. |
| LoopForRun.RoundKeeps | src/15_loop_for.cpp:280-292 | A round grows `result` by the old index and `index` by one, keeping the loop state. |
| LoopForRun.SumToAtMost55 | src/15_loop_for.cpp:280-286 | Every partial sum stays at or below 55, so `add nsw` never overflows. |
| LoopForRun.MainReturns55 | src/15_loop_for.cpp:255-299 | With fuel of at least 32 (the call and 31 jumps), `main` returns 55 and leaves `result` at 55 and `index` at 11. |
| LoopWhile.EmitFloats | src/16_loop_while.cpp:106-112 | f_1 = 1.0 and f_2 = 2.0, recorded only. |
| LoopWhile.EmitSum | src/16_loop_while.cpp:176-180 | `result = result + index` into the body block. |
| LoopWhile.EmitIncrementBack | src/16_loop_while.cpp:181-184 | `genIncrement` of the index, its store, then br back to the condition. |
| LoopWhile.BodyListed | src/16_loop_while.cpp:174-184 | The body lists the sum and its store before the increment and its store, ending in br condition. |
| LoopWhile.EmitMainFunctionStatementList | src/16_loop_while.cpp:151-191 | Three new blocks (condition, body, end) and no increment block. The insertion point is left in the end block. |
| LoopWhile.EmitFunctionBody | src/16_loop_while.cpp:72-80 | The blocks are exactly entry, condition, body, end. |
| LoopWhile.MainWellTerminated | src/16_loop_while.cpp:151-191 | Every block ends in exactly one terminator, targeting one of the four blocks. |
| LoopWhile.IndexAllocatedOnce | src/16_loop_while.cpp:157 | The only `alloca` is the index slot, first in entry. |
| LoopWhile.EmitProgram | src/16_loop_while.cpp:193-198 | The finished module: the three integers and `main`. `emitFloats` is never called. |
| LoopWhileRun.WhileRound | src/16_loop_while.cpp:167-184 | One round changes registers and memory exactly as a round of the `for` loop does. |
| LoopWhileRun.WhileLoop | src/16_loop_while.cpp:167-188 | Invariant: from the condition block with `result` = 1 + ... + (index - 1), the loop returns 55. |
| LoopWhileRun.MainReturns55 | src/16_loop_while.cpp:151-191 | With fuel of at least 22 (the call and 21 jumps), `main` returns 55, the same result as the `for` demo. |
| Pointers.RegisterFunctionProto | src/18_pointers.cpp:40-69 | `main` and `sum` return i32. `printf` is variadic with one fixed i8*. `swap_ptr` is void and takes two i32*. |
| Pointers.EmitIntegers | src/18_pointers.cpp:180-187 | start = 1, end = 10, result = 0. |
| Pointers.EmitSwapPtrStatementList | src/18_pointers.cpp:352-387 | Three slots first (param_x, param_y as i32*, temp as i32), the arguments stored, then `temp = *x; *x = *y; *y = temp`. No value is returned. |
| Pointers.SwapPtrListed | src/18_pointers.cpp:352-387 | The swap body lists as its 15 instructions, ending in `ret void`. |
| Pointers.EmitMainStatementList | src/18_pointers.cpp:302-312 | A call `swap_ptr(&start, &end)` with the globals' addresses, not their values, then the reload of `start` returned. |
| Pointers.EmitSumStatementList | src/18_pointers.cpp:314-350 | Two slots for the arguments, then `printf("result:%d\n", result)` with a new format string. The string's address is folded into the call's operand, with no GEP instruction. Then the sum of the slots is returned, using seven registers in all. |
| Pointers.SumListed | src/18_pointers.cpp:314-350 | The sum body lists as nine instructions and `ret`: two `alloca`s, two stores, the load of `result`, the call, two loads and the `add nsw`. |
| Pointers.EmitFunctionBody | src/18_pointers.cpp:104-114 | "entry" as the only block, the emitter registered for the name, and the return at the function's return type. |
| Pointers.DefineFunction | src/18_pointers.cpp:116-121 | The declared function gets exactly that body. |
| Pointers.EmitProgram | src/18_pointers.cpp:389-399 | The finished module: three globals, `printf` declared without a body, and only `swap_ptr` and `main` defined. |
| PointersRun.SwapPtrSwaps | src/18_pointers.cpp:363-384 | After `swap_ptr(x, y)`, `*x` holds the old `*y` and `*y` the old `*x`. Every location outside its own slots is unchanged. |
| PointersRun.MainReturnsTen | src/18_pointers.cpp:302-312 | With fuel for its one call, `main` returns 10 and leaves start = 10 and end = 1. |
| PointersRun.MainNeedsFuel | src/18_pointers.cpp:302-312 | Without fuel the call cannot be made. |
| Structs.EmitPointType | src/structs.cpp:42-47 | `struct.point` = {i32, i32}. |
| Structs.RegisterFunctionProto | src/structs.cpp:49-94 | Six prototypes are registered. `printf` is variadic with one fixed i8*, and `swap_point` is void on one pointer to `struct.point`. |
| Structs.EmitPoint | src/structs.cpp:276-287 | A `struct.point` slot, then `p.x = 10` and `p.y = 20` through field GEPs. The slot's address is the value. |
| Structs.EmitMainStatementList | src/structs.cpp:402-416 | The point, `swap_point(&p)`, then `p.x` loaded and returned. |
| Structs.EmitSwapPointStatementList | src/structs.cpp:535-575 | Two slots, the argument stored, then `temp = p->x; p->x = p->y; p->y = temp` through LValue/RValue helpers. No value is returned. |
| Structs.EmitSwapArrayStatementList | src/structs.cpp:492-533 | Four slots, the arguments stored (`y` before `x`), then `temp = arr[x]; arr[x] = arr[y]; arr[y] = temp` through `getElementAddr`. No value is returned. |
| Structs.EmitStatementList | src/structs.cpp:133-143 | The emitter registered for the name is the one that runs. Only `sum` adds a string. |
| Structs.EmitFunctionBody | src/structs.cpp:133-143 | "entry" as the only block: the statement list, then the return at the function's type. |
| Structs.DefineFunction | src/structs.cpp:145-150 | The declared function gets exactly that body. |
| Structs.SwapPointListed | src/structs.cpp:535-575 | The swap_point body lists as its 18 instructions. |
| Structs.SwapArrayListed | src/structs.cpp:492-533 | The swap_array body lists as its 30 instructions. |
| Structs.SwapArrayDefinable | src/structs.cpp:492-533 | In any module declaring `swap_array` with its registered prototype, `defineFunction` would give that body. |
| Structs.SwapPointWellTerminated | src/structs.cpp:535-575 | Its one block ends in its only terminator, `ret void`. |
| Structs.MainWellTerminated | src/structs.cpp:402-416 | Its one block ends in its only terminator, `ret`. |
| Structs.SwapArrayWellTerminated | src/structs.cpp:492-533 | Its one block ends in its only terminator, `ret void`. |
| Structs.EmitProgram | src/structs.cpp:577-585 | The finished module: `printf` declared, then `swap_point` and `main` defined. No globals. |
| StructsRun.FieldOf | src/structs.cpp:361-367 | The GEP [0, k] on a point address is exactly field k, of type i32. |
| StructsRun.SwapPointSwaps | src/structs.cpp:535-575 | After `swap_point(q)`, `q->x` holds the old `q->y` and `q->y` the old `q->x`. Every location outside its own slots is unchanged. |
| StructsRun.MainReturnsTwenty | src/structs.cpp:402-416 | With fuel for its one call, `main` returns 20 and leaves the point at {20, 10}. |
| StructsRun.MainNeedsFuel | src/structs.cpp:402-416 | Without fuel the call cannot be made. |
| StructsRun.SwapArraySwaps | src/structs.cpp:492-533 | After `swap_array(a, x, y)`, element x holds the old element y and y the old x, also when x = y. Every other location is unchanged. |

## Left out

- **Not executed or plumbing.** `03_module.cpp`, `initializeModule`'s LLVM objects, `saveModuleIRToFile`, module printing, target setup and each file's C++ `main` are I/O and process plumbing. The model starts from the empty `Session`.
- **LLVM's verifier.** `verifyFunction` is restated only as the block-structure predicate `WellTerminated`: one terminator per block, last, with branch targets in range. Type checking of operands is not modelled.
- **Float values.** They are recorded as literals and never computed with. `fcmp` yields an undetermined bit. x86_fp80 is only a type tag.
- **nsw poison.** nsw poison is modelled as a stop (`Stuck(SignedOverflow)`), not as a poison value. The lemmas show that no demo reaches it.
- **Integer widths.** The interpreter keeps integers unbounded. Width matters only through the signed-range check of `add nsw` and the widening `sext`.
- **Fuel.** The run lemmas prove that enough fuel suffices, and for one call that no fuel fails. They do not bound fuel more tightly.
- **Stack slots.** Slots are never freed, because the stack only grows. An address stays valid after its function returns.
- Builder.Session.CreateStructType: requires a fresh name, which every demo gives; LLVM's `StructType::create` would instead rename a duplicate.
- **Constant folding.** Only the in-bounds GEP fold, the same-type `sext` shortcut and the `sext` of an integer literal are modelled. Every other instruction the demos emit has a loaded value or an argument as an operand, which the folder leaves alone. The folded GEP keeps its indices as integers, without their width.
- **String globals.** NUL termination and the uniquing of string names in `CreateGlobalStringPtr` are not modelled. Strings are numbered in creation order and hold their characters only.
- **Pointer representation.** Typed against opaque pointers is not distinguished: every pointer carries its pointee type.
- **Linkage and DSO-local.** These flags are recorded, but their meaning is not modelled.
- **`funImplMap`.** Its function-pointer dispatch is a fixed match on the function's name.
- **Void calls.** A call to a void function still takes a register number. LLVM would leave it unnamed.
- Builder.Session.DeclareFunction: requires the name to be declared or registered, as every caller's is, because the source's `funProtoMap[name]` lookup would otherwise fabricate an empty prototype.
- **`emitProgram`.** Each demo's `emitProgram` is modelled only on the fresh module that its C++ `main` builds through `registerFunctionProto`.
- **Duplicate emitters in `structs.cpp`.** `emitSumStatementList` and `emitSwapPtrStatementList` (`src/structs.cpp:418-491`) are modelled once, in `Pointers`, which has the same code. The `structs.cpp` copies of `emitIntegers`, `emitArray`, `emitStruct` and `emitUnion` are those of `ir_builder.cpp`.
- Structs.EmitProgram: defines only `swap_point` and `main`; `sum`, `swap_ptr` and `swap_array` are registered but never defined, and no global is defined.
- StructsRun.SwapArraySwaps: proved for every program that defines `swap_array` as its emitter builds it, for any writable i32 array and indices in range. No demo calls it, so the concrete run on [1, 2, 3, 4] with x = 0 and y = 3 is an instance of this lemma rather than a lemma of its own.
- **Comments that disagree with the code.** The model follows the code.
  - The `pointer` and `__constant.main.point` initializers are {11, 12}, where their comments announce {1, 2}.
  - Both loop conditions are commented "index <= start" but compare with `end`: 15_loop_for.cpp:273-276 and 16_loop_while.cpp:168.
  - `12_compare.cpp`'s `==` float line emits ONE: see Findings.

## Findings

| source | as written | input that shows it | evidently intended | confidence | as-written member | corrected member |
|---|---|---|---|---|---|---|
| src/12_compare.cpp:308-309 | the line commented `f_1 == f_2` emits `FCMP_ONE` (ordered and not equal) | f_1 = 1.0, f_2 = 2.0: ONE holds, `==` does not | `FCMP_OEQ` | high, not executed | Compare.FloatEqLineAsWritten | Compare.CorrectedFloatPredsMeanTheirLines |

The emitter `Compare.EmitFloatComparisons` keeps the predicate list as written, `FCMP_ONE` included, because the model records the code. The interpreter gives every `fcmp` an undetermined bit, so no run lemma depends on which list is emitted.
