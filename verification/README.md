# Models of the vendored libraries

The engine vendors three libraries that hold its hard code: the Lua 5.3 interpreter, TinyXML-2 and
cppformat. This project models four clusters of them in Dafny and proves what they are for.

**The Lua code generator** (`Lua*.dfy` without `LuaUpvals`, `LuaRef`, `LuaFb`). `LuaMachine` is the
register machine of `lopcodes.h`, with an execution that also tells through which unfinished jump
control leaves a piece of code. `LuaSpec` has the source expressions, the expression descriptors and
the relation *this code, with these exits, stands for this expression*; `LuaProof` and `LuaCompose`
prove what one emitted instruction, one patched list or one composed operand does to that relation.
`LuaCode` is the generator itself: a class with the code array, the constants, the pending jumps and
the register counter, whose methods have the branches of `lcode.c`. `CompileFunction` is the end to
end theorem.

**The Lua collector** (`Lgc*.dfy`). A heap of strings, userdata, tables with weak modes, closures with
open and closed upvalues, threads and prototypes; the colours, the gray lists, the four lists of all
objects, the sweeper. `LgcMark` to `LgcAtomic` are the functions of `lgc.c` from `reallymarkobject` to
`atomic`, `LgcSweep` to `LgcCycle` the sweep and `singlestep`, `LgcBarrier` to `LgcObjects` what the
program does, `LgcRun` whole runs, `LgcFull` and `LgcExact` what a full collection leaves, `LgcParked`
and `LgcFinal` a hazard of `lua_setmetatable` and the order of finalizers, `LgcExamples` runs that show
what goes wrong. Most methods take a ghost
set `limit`: any set that is closed in the collector's sense bounds what gets marked; that is how the
same proofs give safety (with the set of all objects) and exactness (with the least closed set).

**TinyXML-2** (`Xml*.dfy`). `XmlText` decodes in place, `XmlEscape` shows that it undoes the printer's
escaping, `XmlDoc` is the grammar that the parser of `XmlReader` follows, `XmlForms` and `XmlGrammar` say
what it makes of the texts that people write, `XmlLayout` is the text that the printer of `XmlPrinter`
writes, `XmlMarkup` what that text looks like, `XmlTrip` the round trip. `XmlPool`, `XmlTree`, `XmlOwn`, `XmlDom`
and `XmlRun` are the pools, the sibling links, ownership, the editing methods and whole runs of them.

**Smaller cores.** `LuaUpvals`: open upvalues behave as boxes, also across stack reallocation.
`LuaRef`: the reference free list. `LuaFb`: floating-point bytes. `CppFormat`: digit counting and
decimal formatting, and the number parser of format strings.

`dafny verify dfyconfig.toml` checks everything.

## Model

| member | source | states |
|---|---|---|
| LuaMachine.ExecSplit | 3rd/lua/src/lopcodes.h:165-232 | running code from one pc to an end is running it to any pc in between that is no jump target from outside, and going on from the outcome there |
| LuaMachine.ExecPatched | 3rd/lua/src/lcode.c:148-177 | patching a list of jumps sends exactly the outcomes that leave through that list to the value target or to the default target, for every run of the machine |
| LuaMachine.ExecStripped | 3rd/lua/src/lcode.c:148-164 | turning the controlling TESTSETs of a list into TESTs changes an outcome by dropping the carried value and by nothing else |
| LuaMachine.ExecIsRun | 3rd/lua/src/lopcodes.h:165-232 | what the structural execution of finished code says is what finitely many single machine steps do |
| LuaCode.FuncState.PatchListAux | 3rd/lua/src/lcode.c:167-177 | the loop over the list threaded through sBx patches every jump of the list to its value target or its default target and changes no other instruction; it fails if and only if one of these jumps is too long |
| LuaCode.FuncState.Concat | 3rd/lua/src/lcode.c:215-226 | the result is the concatenation of two disjoint jump lists, and no instruction changes but the last link of the first |
| LuaCode.FuncState.Jump | 3rd/lua/src/lcode.c:76-83 | the new jump carries the jumps that were pending at this place, in one list |
| LuaCode.FuncState.PatchToHere | 3rd/lua/src/lcode.c:209-212 | the jumps of a list join those pending at the current position |
| LuaCode.FuncState.Discharge2Reg | 3rd/lua/src/lcode.c:445-485 | code that leaves the value of a descriptor in a register: afterwards control arrives with the value of the expression there |
| LuaCode.FuncState.Exp2Reg | 3rd/lua/src/lcode.c:496-517 | the value of an expression with pending true and false exits ends up in the register, with the two LOADBOOLs emitted only if some exit carries no value |
| LuaCode.FuncState.Exp2NextReg | 3rd/lua/src/lcode.c:520-525 | the expression ends up in the next free register |
| LuaCode.FuncState.Exp2AnyReg | 3rd/lua/src/lcode.c:528-539 | the expression ends up in a register, its own one if it has one without exits |
| LuaCode.FuncState.Exp2RK | 3rd/lua/src/lcode.c:556-589 | the expression becomes a register or a constant index that fits an RK field and denotes its value |
| LuaCode.FuncState.JumpOnCond | 3rd/lua/src/lcode.c:640-652 | the emitted test jumps exactly when the truth value is the given one; a final NOT is dropped and the condition inverted |
| LuaCode.FuncState.GoIfTrue | 3rd/lua/src/lcode.c:655-676 | control falls through exactly when the expression is true and otherwise leaves through the false list, and the true list is empty |
| LuaCode.FuncState.GoIfFalse | 3rd/lua/src/lcode.c:679-699 | control falls through exactly when the expression is false and otherwise leaves through the true list, and the false list is empty |
| LuaCode.FuncState.CodeNot | 3rd/lua/src/lcode.c:702-734 | the code stands for the negation: the exit lists are exchanged and no exit keeps the value it carried |
| LuaCode.FuncState.CodeComp | 3rd/lua/src/lcode.c:825-838 | the comparison ends in a jump taken exactly when it is true; "greater" forms exchange their operands |
| LuaCode.FuncState.Infix | 3rd/lua/src/lcode.c:855-882 | the first operand is left in the form that the operator needs, and still stands for its expression |
| LuaCode.FuncState.PosfixLogic | 3rd/lua/src/lcode.c:885-901 | for "and" and "or" the exits kept from the first operand join those of the second, and the code stands for the short-circuit expression |
| LuaCode.FuncState.Expression | 3rd/lua/src/lparser.c:1043-1070 | for every expression tree the emitted code stands for the value of the expression, whatever code it is appended to |
| LuaCode.ReturnRuns | 3rd/lua/src/lcode.c:86-88 | code that ends in the emitted return instruction runs, for all arguments, to a return of exactly the value of the expression |
| LuaCode.CompileFunction | 3rd/lua/src/lcode.c:445-526 | for every well-formed expression and all arguments the emitted code runs from pc 0 to a return of exactly the value of the expression, and code generation fails only at the stated limits: too many registers only if those of the larger side (for `and` and `or`), or of the first operand and of one more than the second (for other operators) exceed the limit |
| LuaCode.ArrivesWith | 3rd/lua/src/lcode.c:520-525 | the code of an expression runs from its first instruction to its end with the value in its register |
| LuaCompose.ShortCircuit | 3rd/lua/src/lcode.c:885-901 | code of a decided operand followed by code of the other one stands for "and" or "or" of the two |
| LuaCompose.FoldBinary | 3rd/lua/src/lcode.c:767-784 | a folded constant denotes the value of the operator on the two constants |
| LuaProof.TestNegated | 3rd/lua/src/lcode.c:640-652 | dropping a final NOT and testing its operand for the opposite truth value makes the same decisions |
| LuaProof.JmpOpen | 3rd/lua/src/lcode.c:825-838 | leaving through the loose jump of a comparison means true, falling through means exactly false |
| LuaProof.MergeNil | 3rd/lua/src/lcode.c:54-73 | extending the range of a preceding LOADNIL has the effect of a second LOADNIL, if nothing jumps in between |
| LuaSpec.Extend | 3rd/lua/src/lcode.c:229-241 | code appended to other code picks up wherever that code arrives |
| LgcMark.ReallyMarkObject | 3rd/lua/src/lgc.c:235-283 | marking one white object turns it, and userdata chains below it, to the colour of its kind, puts traversable objects in front of the gray list, and touches nothing else |
| LgcMark.IsCleared | 3rd/lua/src/lgc.c:139-146 | the answer is yes exactly for unmarked objects that are not strings, and strings are marked |
| LgcMark.RemoveEntry | 3rd/lua/src/lgc.c:125-129 | an absent entry loses a key that is not marked and nothing else |
| LgcPropagate.TraverseLclosure | 3rd/lua/src/lgc.c:514-527 | after the visit the closure refers to marked objects; open upvalues are noted as touched outside the atomic phase |
| LgcPropagate.TraverseThread | 3rd/lua/src/lgc.c:530-552 | the stack is marked, and inside the atomic phase a thread with open upvalues is in "twups" |
| LgcPropagate.TraverseTable | 3rd/lua/src/lgc.c:451-471 | a strong table turns black with everything marked; a weak one stays gray, its metatable marked, in the list that fits what was found |
| LgcTraverse.TraverseEphemeron | 3rd/lua/src/lgc.c:394-430 | the answer says whether a value was marked, and if not, every marked key has a marked value and only strings were marked |
| LgcTraverse.TraverseWeakValue | 3rd/lua/src/lgc.c:361-381 | keys are marked and the table is linked where its values will be looked at |
| LgcPropagate.PropagateMark | 3rd/lua/src/lgc.c:559-600 | visiting one gray object keeps the main invariant and the queues of gray objects, and makes progress |
| LgcPropagate.PropagateAll | 3rd/lua/src/lgc.c:603-605 | the gray list is emptied and the main invariant kept |
| LgcConverge.ConvergeEphemerons | 3rd/lua/src/lgc.c:608-623 | the loop ends, and then in every ephemeron table an entry with a marked key has a marked value |
| LgcWeak.ClearValues | 3rd/lua/src/lgc.c:657-674 | afterwards the tables of the list hold marked values only, and an entry was emptied only if its value is a dead object that is no string |
| LgcWeak.ClearKeys | 3rd/lua/src/lgc.c:639-650 | afterwards entries of the tables of the list have marked keys, and an entry was emptied only if its key is a dead object that is no string |
| LgcRemark.RemarkUpvals | 3rd/lua/src/lgc.c:312-331 | the values of touched open upvalues of threads that are not marked get marked, their notes are erased, and "twups" keeps the marked threads with open upvalues |
| LgcAtomic.SeparateToBeFnz | 3rd/lua/src/lgc.c:880-895 | objects with finalizers split, in order, into those that stay and those appended to "tobefnz": the white ones, or all |
| LgcAtomic.Saturated | 3rd/lua/src/lgc.c:985-1006 | when the first convergence ends, the marked objects are closed under strong references and ephemerons |
| LgcAtomic.MarksClosed | 3rd/lua/src/lgc.c:985-1027 | at the end every marked object refers to marked objects only, the metatables of tables that waited in "allweak" aside |
| LgcAtomic.AtomicPhase | 3rd/lua/src/lgc.c:985-1029 | from the start to the flip: live objects refer to live ones (up to metatables that were stored unmarked into parked tables), roots and finalizers are alive, dead objects with finalizers are separated, no live table keeps a dead entry, and what survives is within every bound that is closed |
| LgcGrow.GrowTri | 3rd/lua/src/lgc.h:15-25 | marking keeps the main invariant: no black object refers to a white one |
| LgcPropagate.GrowMarking | 3rd/lua/src/lgc.h:15-25 | marking keeps the main invariant and every gray object in its list |
| LgcBarrier.Barrier | 3rd/lua/src/lgc.h:118-128 | after a store of v into p the forward barrier restores the invariant: it does nothing unless p is black and v white, and then marks v or, in a sweep, whitens p |
| LgcBarrier.BarrierBack | 3rd/lua/src/lgc.c:171-176 | after a store of a white value into a black table the table is gray and in front of "grayagain", otherwise nothing changes, and the invariant holds |
| LgcBarrier.UpvalBarrier | 3rd/lua/src/lgc.c:185-191 | after a store into a closed upvalue its value is marked, outside a sweep, and the invariant holds for all closures that share it |
| LgcSweep.SweepList | 3rd/lua/src/lgc.c:734-751 | exactly the given number of elements is swept, or all that are left: dead ones are freed, live ones are white again, nothing behind them changes, and the pointer moves on |
| LgcSweep.FreeObj | 3rd/lua/src/lgc.c:696-720 | freeing happens only to objects that the program cannot reach, and closes the upvalues of a thread |
| LgcStep.SweepToLive | 3rd/lua/src/lgc.c:757-766 | sweeping stops behind a live object or at the end of the list, and the pointer moves |
| LgcStep.EnterSweep | 3rd/lua/src/lgc.c:960-967 | sweeping starts in "allgc" in a state of the invariant |
| LgcStep.SweepStep | 3rd/lua/src/lgc.c:1032-1045 | a bounded part of the current list is swept; at its end the sweeper goes to the next list and the whole list is white |
| LgcStep.EndSweep | 3rd/lua/src/lgc.c:1083-1088 | the main thread, which is in no list, turns white, and with it every object is white or fixed |
| LgcCycle.PauseStep | 3rd/lua/src/lgc.c:337-344 | a new cycle marks the roots and nothing else, from empty gray lists |
| LgcCycle.PropagateStep | 3rd/lua/src/lgc.c:1057-1064 | one object is visited, the invariant kept, and the next state is atomic exactly when nothing is gray |
| LgcCycle.AtomicStep | 3rd/lua/src/lgc.c:1065-1073 | the atomic step keeps the invariant if the metatables of parked tables are marked, and otherwise all of it but the references from parked tables to their metatables |
| LgcCycle.UData2Finalize | 3rd/lua/src/lgc.c:790-800 | the first object of "tobefnz" becomes an ordinary object in front of "allgc", white if the sweeper has passed |
| LgcCycle.RunAFewFinalizers | 3rd/lua/src/lgc.c:844-853 | exactly the first n pending objects leave "tobefnz", in order |
| LgcCycle.SingleStep | 3rd/lua/src/lgc.c:1048-1101 | every step does what its state says and keeps the invariant; the atomic step does so when parked tables have marked metatables |
| LgcObjects.NewObject | 3rd/lua/src/lgc.c:208-216 | a new object is alive, at the head of "allgc", and the invariant holds in every state |
| LgcObjects.CheckFinalizer | 3rd/lua/src/lgc.c:902-923 | an object not yet marked for finalization moves from "allgc" to the front of "finobj", in the middle of a sweep too, where the sweeper steps off it; lists and bits stay consistent |
| LgcObjects.Fix | 3rd/lua/src/lgc.c:194-201 | the newest object, a string, moves to "fixedgc" and is not white; the invariant is kept if and only if the sweeper does not stand right behind it |
| LgcObjects.FindString | 3rd/lua/src/lstring.c:173-181 | a string found in the string table is alive afterwards, dead or not before, and the invariant holds |
| LgcMutator.SetArray | 3rd/lua/src/lgc.h:122-124 | a store into the array part and its backward barrier are all that happens, and the invariant holds in every collector state |
| LgcMutator.SetNode | 3rd/lua/src/lgc.h:122-124 | a store into an existing entry and its backward barrier are all that happens, and the invariant holds in every collector state |
| LgcMutator.NewKey | 3rd/lua/src/lgc.h:122-124 | a new entry, possibly after a rehash, and the backward barrier for its key are all that happens, and the invariant holds in every collector state |
| LgcMutator.SetSlot | 3rd/lua/src/lgc.h:118-128 | a store into the metatable or the user value of a userdata, an upvalue of a C closure or a constant of a prototype writes that field and no other; with its forward barrier it is all that happens, and the invariant holds in every collector state |
| LgcMutator.SetStack | 3rd/lua/src/lgc.c:530-552 | rewriting a stack needs no barrier, because threads are never black |
| LgcMutator.SetTableMeta | 3rd/lua/src/lapi.c:857-865 | the metatable is stored and the invariant kept; on a parked table nothing else happens, and parked tables keep marked metatables unless the new one is unmarked |
| LgcRun.SetMetatable | 3rd/lua/src/lapi.c:845-882 | the object has the new metatable and its other fields as before, nothing else in the heap changes but for dead objects that a sweep frees on the way, the invariant holds, and if the metatable has "__gc" and the object was not marked yet, it is now the first of "finobj" |
| LgcRun.MetaSetStores | 3rd/lua/src/lapi.c:855-871 | in a run, setting a metatable writes that field of the table or userdata, and no other field of any object |
| LgcRun.SlotSetStores | 3rd/lua/src/lgc.h:118-128 | in a run, a store into a slot writes that slot, and no other field of any object |
| LgcClosures.FindUpval | 3rd/lua/src/lfunc.c:69-79 | a new upvalue is open and touched, its thread is in "twups", nothing else changes, and the invariant holds |
| LgcClosures.SetUpval | 3rd/lua/src/lgc.h:130-132 | assignment through an upvalue, open or closed, keeps the invariant |
| LgcClosures.CloseUpval | 3rd/lua/src/lfunc.c:83-96 | closing keeps the value of the upvalue and the invariant |
| LgcClosures.JoinUpval | 3rd/lua/src/lapi.c:1286-1296 | sharing an upvalue keeps the invariant |
| LgcInv.ReachableAlive | 3rd/lua/src/lgc.h:15-25 | in every state of the invariant what the program can reach exists and is not dead |
| LgcInv.RootsReachable | 3rd/lua/src/lgc.c:337-345 | the main thread, the running thread, the registry, the basic metatables and the objects to be finalized can be reached |
| LgcInv.FieldsReachable | 3rd/lua/src/lgc.c:384-557 | whatever an object that can be reached has in its fields, open and closed upvalues included, can be reached |
| LgcInv.OneList | 3rd/lua/src/lstate.h:19-30 | every object but the main thread is in exactly one place of exactly one of the four lists |
| LgcRun.Act | 3rd/lua/src/lgc.c:1048-1101 | every enabled action, of the collector or of the program, does what its specification says and keeps the invariant; only the atomic step can break it, and only by leaving a parked table with a dead metatable |
| LgcRun.Run | 3rd/lua/src/lgc.c:734-751 | over any sequence of collector steps and program operations no object that the program can reach is freed, until an atomic step leaves a live parked table with a dead metatable; the states passed are a history in the sense of the specification |
| LgcRun.RunGuarded | 3rd/lua/src/lgc.c:734-751 | the same without exception, if no white metatable is stored into a gray parked table; all states of the history are safe |
| LgcRun.RunNew | 3rd/lua/src/lstate.c:295-338 | the state that a new Lua state starts in satisfies the invariant, so every guarded run from it is a safe history |
| LgcParked.CollectOut | 3rd/lua/src/lgc.c:985-1101 | when the cycle goes on without the program, the outcome is safe if and only if every reachable table that waited in "allweak" has a metatable that got marked |
| LgcParked.StoreThenCollect | 3rd/lua/src/lapi.c:857-865 | a metatable stored during marking is freed under its table if and only if the table is gray and parked, is still reachable when marking ends, and nothing else has marked the metatable by then |
| LgcFinal.SelectInOrder | 3rd/lua/src/lgc.c:880-895 | of two objects in "finobj" that both stay, or are both found dead, the one in front stays in front |
| LgcFinal.ActedMoves | 3rd/lua/src/lgc.c:790-923 | in any action of a run objects get into "finobj" only at its front, from there to "tobefnz" only when the atomic step finds them dead, and leave that only from its front |
| LgcFinal.MarkedInReverse | 3rd/lua/src/lgc.c:902-923 | in any run, of two objects marked for finalization that are still in "finobj", the one marked later stands in front |
| LgcFinal.DeadTogether | 3rd/lua/src/lgc.c:880-895 | in any run, two objects that leave "finobj" in the same step were found dead by an atomic step and wait in "tobefnz" in the same order |
| LgcFinal.FinalizedInOrder | 3rd/lua/src/lgc.c:844-853 | when an object of "tobefnz" has been finalized, so have all in front of it |
| LgcFinal.ReverseOrder | 3rd/lua/src/lgc.c:790-923 | in any run, with any program and collector steps in between, objects found dead by the same cycle are finalized in reverse order of being marked: as long as the one marked later waits for its finalizer, the other one waits behind it |
| LgcFull.NeededLeast | 3rd/lua/src/lgc.c:985-1029 | the sets that hold the roots and the fixed objects and are closed under strong references, ephemerons, met strings and touched upvalues have a least element |
| LgcFull.NeededHeld | 3rd/lua/src/lgc.c:327-557 | every needed object is held by a root or by another needed object: by a field, by an entry as far as the weak modes let it (the value of an ephemeron only with a needed key), or as a string in a weak table |
| LgcFull.FinishCycle | 3rd/lua/src/lgc.c:1108-1112 | with no finalizer pending, stepping to a given state ends, and frees only dead objects |
| LgcFull.FullGc | 3rd/lua/src/lgc.c:1163-1179 | a full collection, from any state of the invariant in which nothing is to be finalized, ends, and what is left is exactly that least set, all white; nothing else disappears but entries of weak tables with dead keys or values |
| LgcFull.EntriesLeft | 3rd/lua/src/lgc.c:639-674 | an entry of a table that is left stays if and only if both its key and its value are left |
| LgcExact.NeededExactly | 3rd/lua/src/lgc.c:312-331 | without weak tables and finalizers that set is what the program can reach if and only if touched upvalues of live threads have reachable values |
| LgcExact.FullGcExactly | 3rd/lua/src/lgc.c:1163-1179 | a full collection then leaves exactly the reachable objects (and fixed strings) if and only if the same condition holds before it |
| LgcExamples.StaleUpvalueKept | 3rd/lua/src/lgc.c:312-331 | a run of seven operations from the initial state after which a table is unreachable, and a full collection keeps it |
| LgcExamples.ParkedMetatableFreed | 3rd/lua/src/lapi.c:857-865 | a run from the initial state, with explicit operations and collector steps, at whose end a metatable has been freed that the program can reach through its table |
| LgcBits.DeadByte | 3rd/lua/src/lgc.h:94-96 | the bit test "isdeadm" holds exactly of bytes with the other white |
| LgcBits.ColourBytes | 3rd/lua/src/lgc.h:66-101 | the bit operations change the colour as intended and leave the other bits alone |
| LgcBits.RevivedByte | 3rd/lua/src/lgc.h:98-98 | "changewhite" gives a dead object the current white |
| LuaUpvals.OnePerSlot | 3rd/lua/src/lfunc.c:57-80 | a stack slot has at most one open upvalue |
| LuaUpvals.ReadsBox | 3rd/lua/src/lfunc.c:57-96 | what a closure reads through an upvalue is what the box of the captured variable holds |
| LuaUpvals.LuaState.FindUpval | 3rd/lua/src/lfunc.c:57-80 | the upvalue of the slot is returned, a new one if and only if there was none, and the list stays strictly ordered |
| LuaUpvals.LuaState.Close | 3rd/lua/src/lfunc.c:83-96 | exactly the upvalues of slots from the level on are closed, with their values, or freed if unreferenced; none stays open there |
| LuaUpvals.LuaState.SetUpval | 3rd/lua/src/lfunc.c:57-96 | assignment through an upvalue is assignment to the box of the captured variable, wherever its value lives |
| LuaUpvals.LuaState.Release | 3rd/lua/src/lgc.c:677-682 | a closed upvalue without references is freed and an open one kept |
| LuaUpvals.LuaState.CorrectStack | 3rd/lua/src/ldo.c:158-170 | every open upvalue, the function and top of every activation record and the base of those of Lua functions move by the distance of the two stacks |
| LuaUpvals.LuaState.ReallocStack | 3rd/lua/src/ldo.c:176-188 | the stack moves and changes size: slots keep their contents, new ones are nil, and every upvalue reads as before |
| LuaUpvals.LuaState.Run | 3rd/lua/src/lfunc.c:57-96 | any sequence of captures, scope ends, reallocations, assignments and changes of reference counts leads through states that each action makes from the one before as specified, on the stack and the upvalues and on the boxes |
| LuaUpvals.LastAssigned | 3rd/lua/src/lfunc.c:57-96 | over any history an upvalue that a closure holds all the time reads at the end what was assigned last to its variable, through it or through its slot, before or after the scope ended, or what it read at first |
| LuaRef.RefTable.Ref | 3rd/lua/src/lauxlib.c:581-599 | a value that is not nil gets the first free reference, or, if there is none and the table has no hole, the one after the last; it is not live before and finds the value afterwards |
| LuaRef.RefTable.Unref | 3rd/lua/src/lauxlib.c:602-610 | a live reference is free again and heads the free list, and nothing else changes |
| LuaRef.Run | 3rd/lua/src/lauxlib.c:581-610 | over every sequence of calls with releases of held references, references are unique names and every live one finds its value |
| LuaFb.Int2Fb | 3rd/lua/src/lobject.c:41-53 | the result is the least code for the number, except for the 15 largest 32-bit numbers, where it is -8 |
| LuaFb.CodeAgain | 3rd/lua/src/lobject.c:41-59 | the code of the number that a code stands for is that code, whenever the number fits in 32 bits |
| LuaFb.LittleMore | 3rd/lua/src/lobject.c:41-59 | rounding up costs less than one eighth |
| LuaFb.Fb2IntMonotone | 3rd/lua/src/lobject.c:57-59 | larger codes stand for larger numbers |
| LuaFb.CodesInOrder | 3rd/lua/src/lobject.c:41-53 | larger numbers get codes that are not smaller |
| CppFormat.CountDigitsRight | 3rd/cppformat-master/format.h:680-685 | bits times 1233 over 4096, corrected by one table lookup, is the number of decimal digits of every number of 64 bits |
| CppFormat.CountDigitsByFour | 3rd/cppformat-master/format.h:688-702 | the loop that divides by 10000 gives the same number |
| CppFormat.FormatDecimal | 3rd/cppformat-master/format.h:713-732 | exactly the cells of the number are filled, with its decimal form |
| CppFormat.PairAt | 3rd/cppformat-master/format.cc:567-573 | the table of pairs holds the two digits of every number below 100 |
| CppFormat.ParseNonnegativeInt | 3rd/cppformat-master/format.cc:257-272 | the outcome in 32-bit arithmetic, for every string of digits |
| CppFormat.ParsedRight | 3rd/cppformat-master/format.cc:257-272 | numbers up to INT_MAX are read and larger ones refused if and only if it is not the case that a larger number has a residue up to INT_MAX and prefixes with residues that never get smaller |
| CppFormat.TenDigits | 3rd/cppformat-master/format.cc:257-272 | of the strings of ten digits exactly those from 4772185884 to 6442450943 and from 9544371768 to 9999999999 are misread |
| CppFormat.ParsedWrong | 3rd/cppformat-master/format.cc:257-272 | "6000000000" is read as 1705032704 |
| CppFormat.FormatParse | 3rd/cppformat-master/format.cc:257-272 | reading the decimal form of a number up to INT_MAX gives the number |
| XmlText.GetCharacterRef | 3rd/tinyxml2/tinyxml2.cpp:456-549 | the reference at the pointer is scanned back from its semicolon, in 32-bit arithmetic, to the bytes, the length and the place that the specification gives it |
| XmlText.ConvertUTF32ToUTF8 | 3rd/tinyxml2/tinyxml2.cpp:403-452 | the bytes are the UTF-8 encoding of the code, in as few bytes as possible |
| XmlText.StrPair.GetStr | 3rd/tinyxml2/tinyxml2.cpp:267-365 | the buffer is decoded in place, once, to the string that the specification of the in-place loop gives; the write pointer never passes the read pointer; lines with any line ends between them are read with single line feeds between them, with entities on and off |
| XmlText.LinesRead | 3rd/tinyxml2/tinyxml2.cpp:267-313 | reading makes one line feed of \n, \r, \r\n and \n\r, wherever they stand, and changes nothing else in text without references |
| XmlRound.LinesValue | 3rd/tinyxml2/tinyxml2.cpp:267-313 | attribute values, texts, comments, CDATA sections and the like are read with single line feeds for their line ends |
| XmlText.InPlaceDecodes | 3rd/tinyxml2/tinyxml2.cpp:267-365 | the in-place result is that of a decoder that keeps stray ampersands if and only if every stray ampersand happens to land on an ampersand |
| XmlEscape.NumericReference | 3rd/tinyxml2/tinyxml2.cpp:456-549 | a decimal or hexadecimal reference stands for the UTF-8 bytes of its number, and those bytes decode to the number |
| XmlEscape.NoReferenceRead | 3rd/tinyxml2/tinyxml2.cpp:456-549 | "&#" without a semicolon is read as it is, but loses its ampersand at the very end of the text |
| XmlEscape.EscapeRoundTrip | 3rd/tinyxml2/tinyxml2.cpp:2494-2546 | reading back an escaped string gives the string if and only if it has no carriage return |
| XmlEscape.DecodesInPlace | 3rd/tinyxml2/tinyxml2.cpp:267-365 | for text whose ampersands all start references the buffer is the pure decoding |
| XmlEscape.EscapeFree | 3rd/tinyxml2/tinyxml2.cpp:2494-2546 | escaped text has no angle brackets, and in attribute values no quotes |
| XmlEscape.EscapeEach | 3rd/tinyxml2/tinyxml2.cpp:2494-2546 | escaping works character by character: &, < and > (in attribute values also the two quotes) become their named entities, every other character stays as it is |
| XmlEscape.StrayAmpersandLost | 3rd/tinyxml2/tinyxml2.cpp:267-365 | "&lt;&x" is read as "<lx" |
| XmlEscape.CarriageReturnLost | 3rd/tinyxml2/tinyxml2.cpp:2494-2546 | a string with a carriage return is read back with a line feed |
| XmlReader.XMLDocument.Parse | 3rd/tinyxml2/tinyxml2.cpp:2285-2394 | the parser that advances a pointer and appends children accepts what the functional grammar accepts, with the same tree, and reports the same error otherwise; what texts the grammar accepts is in `XmlGrammar` |
| XmlReader.XMLDocument.ParseDeep | 3rd/tinyxml2/tinyxml2.cpp:988-1100 | one level: children up to an end tag, an error or the end of the text, as the grammar says |
| XmlReader.XMLDocument.ParseElement | 3rd/tinyxml2/tinyxml2.cpp:1898-1923 | a tag, its attributes and its children, as the grammar says |
| XmlReader.XMLDocument.ParseAttributes | 3rd/tinyxml2/tinyxml2.cpp:1815-1872 | the attributes of a tag, as the grammar says |
| XmlPrinter.XMLPrinter.PrintString | 3rd/tinyxml2/tinyxml2.cpp:2494-2546 | runs of bytes and entities written piecewise make up the escaped string, which has no angle brackets, and in attribute values no quotes |
| XmlPrinter.XMLPrinter.Accept | 3rd/tinyxml2/tinyxml2.cpp:2778-2835 | visiting a node writes the text that the layout gives it at its depth, and leaves the state of the printer as described |
| XmlPrinter.XMLPrinter.Print | 3rd/tinyxml2/tinyxml2.cpp:2316-2325 | printing a document writes the text that the layout gives it: compact, the plain nesting of its tags; pretty, for pure markup, an outline with one line for each tag; and in either mode every angle bracket is part of a tag or of a leaf that is written as it is |
| XmlMarkup.CompactText | 3rd/tinyxml2/tinyxml2.cpp:2561-2690 | compact text is each node's text after the other, without any white space |
| XmlMarkup.PrettyTop | 3rd/tinyxml2/tinyxml2.cpp:2561-2690 | pretty text of a tree without text nodes is an outline: one line for each tag and leaf, four spaces for each level, an empty line behind every root element but the last |
| XmlMarkup.BracketCount | 3rd/tinyxml2/tinyxml2.cpp:2494-2546 | the angle brackets of the written text are counted by its tags, comments and the like, none by text and attribute values |
| XmlForms.ItemsRead | 3rd/tinyxml2/tinyxml2.cpp:988-1100 | every list of items (tags with any white space, attributes in either quote, comments, CDATA, declarations, unknowns, text) at any place is read as what it means: its nodes in order, or its first error (repeated attribute, mismatched end tag, depth, misplaced declaration) |
| XmlGrammar.DocumentRead | 3rd/tinyxml2/tinyxml2.cpp:2377-2394 | every document of items, with or without white space and byte order mark before them, is parsed to its nodes, or rejected with the first error in it |
| XmlGrammar.CutDocument | 3rd/tinyxml2/tinyxml2.cpp:988-1372 | a document that breaks off, or goes on with something that is no tag, at any depth, is rejected with the first error in it or the error of the break: an unfinished comment, CDATA section, declaration or unknown, text up to the end, a missing end tag, a tag without a name or an end, an attribute without '=', quote or end |
| XmlGrammar.StrayEnd | 3rd/tinyxml2/tinyxml2.cpp:1017-1025 | a stray end tag at the top ends the document: what stands behind it is not read |
| XmlGrammar.SealedDocument | 3rd/tinyxml2/tinyxml2.cpp:1815-1872 | a document of one tag has its attributes in order, whatever white space and quotes it uses, or is rejected if a name is repeated |
| XmlGrammar.PairDocument | 3rd/tinyxml2/tinyxml2.cpp:1038-1060 | a start tag and an end tag with the same name make the element that the sealed tag makes; with different names they are a mismatch |
| XmlGrammar.EitherQuote | 3rd/tinyxml2/tinyxml2.cpp:1356-1384 | one attribute with either quote and white space anywhere is read with its value |
| XmlGrammar.NestedDocument | 3rd/tinyxml2/tinyxml2.cpp:2396-2402 | 99 elements can be nested, a hundred are an error |
| XmlTrip.FormsText | 3rd/tinyxml2/tinyxml2.cpp:2561-2690 | the printed text, compact or pretty, is one of the texts that the parser accepts, what pretty printing writes behind text being part of that text |
| XmlTrip.Reparsed | 3rd/tinyxml2/tinyxml2.cpp:2285-2394 | parsing the printed text of any document in normal form gives that document, padded where pretty printing indents after text, or the depth error, or the error for a document without nodes |
| XmlTrip.RoundTrip | 3rd/tinyxml2/tinyxml2.cpp:2778-2835 | printing and parsing gives a document in normal form back if and only if it has a node, no element with children is nested too deep and, in pretty mode, no element stands right after plain text |
| XmlTrip.MixedChanged | 3rd/tinyxml2/tinyxml2.cpp:2561-2580 | an element with the text x and an empty element, printed in pretty mode and parsed, has four spaces after the x |
| XmlLayout.PaddedSame | 3rd/tinyxml2/tinyxml2.cpp:2486-2491 | pretty printing adds nothing to any text if and only if no element stands right after plain text |
| XmlTree.CutForest | 3rd/tinyxml2/tinyxml2.cpp:804-825 | the writes that unlink a child keep every sibling list a well-formed doubly linked list |
| XmlTree.PutForest | 3rd/tinyxml2/tinyxml2.cpp:841-935 | the writes that insert a node at a position keep every sibling list a well-formed doubly linked list |
| XmlOwn.MovedAcyclic | 3rd/tinyxml2/tinyxml2.cpp:841-935 | moving a node under another one makes a cycle if and only if it is that node or above it |
| XmlOwn.PrunedSubtree | 3rd/tinyxml2/tinyxml2.cpp:794-826 | what is gone after a deletion is exactly the nodes with the deleted node above them |
| XmlPool.MemPool.Alloc | 3rd/tinyxml2/tinyxml2.h:374-398 | the item handed out is the first free one, or the first of a new block, and was not in use; free and used items share out the blocks |
| XmlPool.MemPool.Free | 3rd/tinyxml2/tinyxml2.h:400-411 | the item is free again and next to be handed out |
| XmlDom.XMLDocument.CreateUnlinkedNode | 3rd/tinyxml2/tinyxml2.h:1922-1933 | a node at a place that was not in use, without links, at the end of the unlinked list |
| XmlDom.XMLDocument.MarkInUse | 3rd/tinyxml2/tinyxml2.cpp:2034-2045 | the node leaves the unlinked list, and the last element takes its place |
| XmlDom.XMLDocument.Unlink | 3rd/tinyxml2/tinyxml2.cpp:804-825 | exactly the child leaves its list; all other lists stay as they are |
| XmlDom.XMLDocument.InsertEndChild | 3rd/tinyxml2/tinyxml2.cpp:841-868 | the node leaves its old place and is the last child, all other lists keep their order; the tree stays a tree if and only if the node was not the new parent or above it; a node of another document is refused |
| XmlDom.XMLDocument.InsertFirstChild | 3rd/tinyxml2/tinyxml2.cpp:871-899 | the node leaves its old place and is the first child; the tree stays a tree if and only if the node was not the new parent or above it |
| XmlDom.XMLDocument.InsertAfterChild | 3rd/tinyxml2/tinyxml2.cpp:902-935 | the node leaves its old place and stands right after the other one; the null read happens if and only if it was the last child right after that one, and a cycle if and only if it was the new parent or above it |
| XmlDom.XMLDocument.DeleteChildren | 3rd/tinyxml2/tinyxml2.cpp:794-801 | the node has no children any more and exactly what was below it is gone |
| XmlDom.XMLDocument.DeleteChild | 3rd/tinyxml2/tinyxml2.cpp:828-838 | exactly the child and what was below it are gone |
| XmlDom.XMLDocument.DeleteNode | 3rd/tinyxml2/tinyxml2.cpp:2149-2164 | exactly the node and what was below it are gone, whether it had a parent or was unlinked |
| XmlDom.XMLDocument.Clear | 3rd/tinyxml2/tinyxml2.cpp:2047-2078 | only the document is left, and all pools are empty |
| XmlRun.Run | 3rd/tinyxml2/tinyxml2.cpp:2034-2164 | any sequence of creations, insertions, deletions and clearings leads through states that each action makes from the one before: a new node at the end of the unlinked list, the node at its place and gone from its old one, exactly the node and what is below it gone, only the document left; at the end the nodes without a parent are exactly the unlinked ones and every pool counts its nodes and its unlinked nodes |
| XmlRun.NotHandedOut | 3rd/tinyxml2/tinyxml2.h:374-398 | over any history, an item is not handed out while a node has it |
| XmlRun.LastBehindItself | 3rd/tinyxml2/tinyxml2.cpp:902-935 | <a/><b/>, and b inserted after a: the null read is reached |
| XmlRun.UnderItself | 3rd/tinyxml2/tinyxml2.cpp:841-868 | an element inserted under itself is its own parent |

## Findings

Properties that one would expect and that the code does not have. Each is proved with the exact
condition under which it holds, and a concrete input or state where it fails.

| what fails | where | exact condition | example |
|---|---|---|---|
| A metatable given to a table during marking can be freed while the table uses it: a table that is weak in both ways is left gray in `allweak` (`traversetable`), is not visited again, and the barrier of `lua_setmetatable` needs a black table. | 3rd/lua/src/lapi.c:857-865, 3rd/lua/src/lgc.c:451-471 | `LgcParked.StoreThenCollect`: harmful if and only if the table is gray and parked, is reachable when marking ends, and nothing else has marked the metatable; a caller is safe if the metatable is not white or the table not gray (`LgcRun.RunGuarded`) | `LgcExamples.ParkedMetatableFreed`, a run from the initial state |
| A full collection can keep unreachable objects: `remarkupvals` marks the values of touched upvalues of dead threads, and the note may stem from an earlier cycle. | 3rd/lua/src/lgc.c:312-331 | `LgcExact.NeededExactly`, `LgcExact.FullGcExactly`: exactly the reachable objects stay if and only if touched open upvalues of live threads have reachable values | `LgcExamples.StaleUpvalueKept`, a run from the initial state |
| `InsertAfterChild` reads through a null pointer. | 3rd/tinyxml2/tinyxml2.cpp:931 | `XmlDom.XMLDocument.InsertAfterChild`: if and only if the inserted node is the last child, right after the other one, and is not that one | `XmlRun.LastBehindItself` |
| A node can be inserted under itself or below itself, which makes a cycle of parents. | 3rd/tinyxml2/tinyxml2.cpp:841-935 | `XmlDom.XMLDocument.InsertEndChild` and its siblings: if and only if the node is the new parent or above it | `XmlRun.UnderItself` |
| `GetStr` loses a stray ampersand when earlier references have made the text shorter. | 3rd/tinyxml2/tinyxml2.cpp:341-345 | `XmlText.InPlaceDecodes`: kept if and only if every stray ampersand lands on an ampersand | `XmlEscape.StrayAmpersandLost` |
| Escaping does not preserve carriage returns. | 3rd/tinyxml2/tinyxml2.cpp:2494-2546 | `XmlEscape.EscapeRoundTrip`: preserved if and only if there is none | `XmlEscape.CarriageReturnLost` |
| Pretty printing changes documents with mixed content. | 3rd/tinyxml2/tinyxml2.cpp:2561-2580 | `XmlTrip.RoundTrip`: unchanged if and only if no element stands right after plain text (and none with children is nested too deep) | `XmlTrip.MixedChanged` |
| `luaO_int2fb` of the 15 largest unsigned numbers is -8. | 3rd/lua/src/lobject.c:44-46 | `LuaFb.Int2Fb`: right if and only if the number is at most 2^32 - 16 | 4294967295, by the second case of `LuaFb.Int2Fb` |
| `parse_nonnegative_int` accepts some numbers that are too big: its test does not see every wrap-around. | 3rd/cppformat-master/format.cc:262-269 | `CppFormat.ParsedRight`: wrong if and only if the number is above `INT_MAX`, its residue is not, and the residues of its prefixes never get smaller; for ten digits `CppFormat.TenDigits` has the ranges | `CppFormat.ParsedWrong` |

Strings are never removed from weak tables and are kept by them, as the comment at `lgc.c:132-138`
says: in `LgcFull.FullGc` this is the clause `MetIn` of `Retains`.

Where code and comment differ, the code is followed: `lgc.h:19-24` says that every gray object is in a
list "so that it can be visited again"; a table in `allweak` is cleared, but not visited again.

## Left out

- Code generator: calls, varargs, upvalue and table access, the concatenation operator and the close argument of OP_JMP are not modelled; the operators of the machine are opaque total functions.
- Code generator: expression descriptors are passed by value and returned, where the source updates them through pointers; the growth of the code array and line information are not modelled.
- LuaCode.CompileFunction: covers constants, locals, parentheses, `not`, unary and binary arithmetic, comparisons, `and` and `or`; constant indices above MAXARG_Ax, too many registers and too long jumps are reported as failures. The registers that an operand is said to need are an upper bound: a local variable or a constant holds none, so code generation may succeed beyond it.
- Collector: emergency collections, stack shrinking, resizing of the string table, the API string cache, `Proto` caches, byte accounting and pacing are not modelled.
- Collector: `luaC_freeallobjects` and finalizers called in the middle of a sweep are not modelled; finalizers run in GCScallfin as steps of the program.
- Collector: gray lists are sequences, so that one link field serves all of them is not modelled.
- LgcRun.RunGuarded: the operands of an action must be live objects; what a program does with a dead metatable after the hazard is not modelled.
- LgcFull.FullGc: assumes that nothing is to be finalized (no finalizer is pending, and the objects that have one are needed), since finalizers are programs; what `atomic` does with dead objects that have one is in `LgcAtomic.AtomicPhase` and `LgcFinal`.
- LgcFull.FinishCycle: assumes that no finalizer is pending, for the same reason.
- LgcExact.FullGcExactly: assumes in addition that there are no weak tables, which `LgcFull.FullGc` covers.
- LgcObjects.Fix: runs (`LgcRun.Run`) use it only when the sweeper does not stand right behind the object, as for the callers at start-up, when the collector does not run.
- LgcClosures.FindUpval: opens an upvalue for a slot; that a slot has one at most, and the order of the list, is in `LuaUpvals`.
- LuaRef.RefTable.Unref: references that are not live are not released, as the library demands; the width of `int` is not modelled.
- CppFormat.FormatDecimal: the width of the value type is not modelled; any natural number is formatted.
- TinyXML-2: loading and saving files, error strings, line numbers, typed attribute and text access, cloning and comparison are not modelled.
- TinyXML-2: whitespace-collapsing mode and processEntities set to false are not modelled.
- TinyXML-2: the NUL bytes that parsing writes into the buffer are not modelled; the parser reads an immutable text and keeps slices of it.
- XmlDom.XMLDocument.InsertEndChild: the document itself is not inserted anywhere (it has no pool to account for); runs (`XmlRun.Run`) do not make cycles.
- TinyXML-2: the pool of attributes is not modelled; nodes of all leaf kinds but text share the pool of comments, as in the source.
- The engine's own start-up code, the Lua libraries and the rest of cppformat are not part of this model.
