# Meique, verified model

Meique is a build tool with a parallel scheduler that embeds a modified Lua 5.1.4. This project models the
parts of both that are hardest to get right, as Dafny classes and state machines that follow the code, and
proves what they promise. Every method that changes state is proved equal to a function on its state or
against a property stated outright; the theorems about whole runs, all expressions or all inputs are lemmas
about those functions.

| part | files | what is proved |
|---|---|---|
| Incremental collector | `Gc*.dfy` | Every event does to the program's objects what it should, and in every run of collector steps, allocations, guarded stores, closed upvalues and thread switches, nothing that can be reached is freed or condemned; no black object refers to a white one while marking; a full collection frees exactly the unreachable objects, and so does every cycle, whatever the program does meanwhile, with those that were unreachable when it started. |
| Code generator | `Cg*.dfy` | For every expression of local variables, comparisons, `and`, `or` and `not` the code written and patched in one pass leaves the value in its register when run on the virtual machine, and changes no other local variable. |
| Table | `Tbl*.dfy` | The array part and the chained hash part are one finite map under any sequence of assignments and deletions, with the exact condition for an overflow; every insertion keeps the chains; a rehash picks the best array size and never starts another. |
| Build scheduler | `Sch*.dfy` | In every interleaving of the dispatching thread and its workers a node is built once, after everything it depends on; the search fails only with a reason; the job counter and the result are right; every run ends, and exactly when one gets stuck is said. A node is built by its job unless it was up to date, what depends on a rebuilt node is rebuilt, and the search finds the first node that can be started whenever there is one. |
| Precompiled chunks | `Dmp*.dfy` | Undumping the dump of a function gives it back, for exactly the functions the reader accepts. |
| Quoted strings | `Quote*.dfy` | The lexer reads the `%q` form of any byte string as that string. |
| Precedence climbing | `Climb*.dfy` | The parser builds exactly the tree that respects the priorities. |
| Sort | `Sort.dfy` | For every comparison function the sort ends, with logarithmic nesting, and loses no element but to the slot behind the table; the elements stay in the table if no value is before itself, the error comes only if two are each before the other, and a strict weak order sorts. |
| Pattern matcher | `Mch*.dfy` | For every pattern backtracking finds the preferred match, with its captures, or the error on the way there, or there is none; a failed match restores the captures. What classes, sets and the other items match is said in terms of the pattern's text. |
| References | `Refs.dfy` | References kept in a table, with the list of free ones inside it, never alias and keep their values, as long as only what may be freed is freed. |

`Common.dfy` holds the types that several parts share. Where a comment or a message of the code says something
else than the code does, the model follows the code.

## What to read first

- Collector: `GcModel` (the state and the routines as functions), `GcInvariant.Inv`, `GcRun.RunsAreSafe`,
  `GcEvents.Effect` (what the program sees of each event), `GcFull.FullGcIsExact`, and the class `GcCollector.GlobalState`.
- Code generator: `CgMachine` (the machine), `CgExpr.Built` (what pending code promises), the class
  `CgFuncState.FuncState`, `CgFuncState.AssignRuns`, and `CgLaws` for what the values are.
- Table: `TblContents.Sane`, the class `TblTable.Table`.
- Scheduler: `SchTree.Sound`, `SchSearch.Find`, `SchSystem` (the steps), `SchSafety.RunsAreSafe`,
  `SchProgress.BuildEnds`, `SchJobs.BuiltWhy`, `SchOrder.FindExact`, `SchRebuild.RebuiltAbove`.
- Sort: `Sort.Parted` (what dividing leaves), `Sort.NoThirdStall`, `Sort.TableSort`.
- Matcher: `MchPattern.Valid` and `MchPattern.Leads` (what a match is), `MchPattern.BestIsBest`, the class
  `MchMatcher.MatchState`, and `MchClasses` for the text of patterns.

Seven things the code does that one might not expect are stated as theorems. A function whose source is missing
somewhere does not survive a dump unchanged: it inherits a source (`DmpRoundTrip.RoundTrip` says it is unchanged
exactly if no source is missing). The search of the scheduler may report a hook with a dependency of its target
instead of that target (`SchSearch.HookTarget` says when, `SchSearch.HookMisreported` shows an instance and
`SchRuns.MisledReached` that a build gets there). A build may end with success although a target that could be
built has never been started, if its last job ends at the wrong moment (`SchRuns.EndsEarly`): a build with a root
that ends with success has started and built everything exactly if no change of the tree ended it
(`SchSafety.CompleteBuild`). A build may never end, because its dispatching thread waits for a change that has
happened already or for a job that nobody will free (`SchRuns.GetsStuck`, `SchRuns.FailsStuck`; `SchProgress.StuckIff`
says exactly which states are stuck, `SchProgress.StuckStep` by which step one gets there). With a comparison
function like `<=` the sort moves elements out of the table, and nil into it (`Sort.ElementLeaves`;
`Sort.TableSort` says that it cannot if no value is before itself). A reference that is freed twice in a row is handed
out twice (`Refs.FreedTwice`; `Refs.FreedProper` says exactly what may be freed). A quoted string is not read back if
its newlines bring the chunk to the maximal number of lines (`QuoteText.RoundTrip`).

## Model

| member | source | states |
|---|---|---|
| `GcRun.RunsAreSafe` | ext/lua/lgc.cpp:556-607 | in any run from a new Lua state, of collector steps and program events, an object reachable from the roots is allocated, is not condemned, and is not freed by the next event |
| `GcRun.RunKeeps` | ext/lua/lgc.cpp:556-607 | every state of such a run satisfies the invariant |
| `GcRun.StepFreesNothingReachable` | ext/lua/lgc.cpp:556-607 | one event (a collector step, an allocation, a store with its barrier, closing an upvalue, new metatables or thread) frees nothing reachable |
| `GcRun.InitialInv` | ext/lua/lgc.cpp:556-566 | a new Lua state satisfies the invariant, so that every run can start |
| `GcStep.SingleStepKeeps` | ext/lua/lgc.cpp:556-607 | every phase of `singlestep` keeps the whole invariant, changes no object it keeps, and frees condemned objects only |
| `GcMark.PropagateKeepsTri` | ext/lua/lgc.cpp:277-320 | marking the references of one gray object keeps the tricolour invariant; threads stay gray for the atomic step |
| `GcMark.MarkSeqStep` | ext/lua/lgc.cpp:69-112 | marking a list of values marks them all, repaints white objects only and leaves each in the colour of its kind, and only adds to the gray list |
| `GcMark.RemarkReachesStage` | ext/lua/lgc.cpp:515-522 | after `remarkupvals` open upvalues no longer need the excuse of being gray |
| `GcMark.AtomicMarksAll` | ext/lua/lgc.cpp:525-553 | the three passes of `atomic` leave the marked objects closed under reference, with the running thread and the basic metatables among them |
| `GcStep.AtomicKeeps` | ext/lua/lgc.cpp:525-553 | flipping the white after the atomic step condemns only objects that the marked ones do not refer to |
| `GcStep.PropagateKeeps` | ext/lua/lgc.cpp:564-571 | a propagate step keeps the invariant |
| `GcSweep.SweepBucketKeeps` | ext/lua/lgc.cpp:572-580 | sweeping one bucket of the string table keeps the invariant |
| `GcSweep.SweepOneKeeps` | ext/lua/lgc.cpp:407-428 | one turn of `sweeplist` frees only condemned objects and the upvalues still open on a freed thread are closed; the lists stay exact and the turn makes progress |
| `GcStep.SweepListKeeps` | ext/lua/lgc.cpp:407-428 | so do any number of turns, including the sweep of the open upvalues of threads |
| `GcInvariant.SweptAllWhite` | ext/lua/lgc.cpp:581-591 | after both sweeps every object has the current white |
| `GcEvents.EventEffect` | ext/lua/lgc.cpp:556-607 | what each event does to the objects, the stacks, the open upvalues and the roots of the program: a new object has its kind and references and is on the stack, a store changes the references of one object alone, closing an upvalue keeps its value, and a collector step changes none of this |
| `GcEvents.MadeReachable` | ext/lua/lgc.cpp:686-692 | making or finding an object makes exactly that object reachable, besides what was |
| `GcEvents.StoredReachable` | ext/lua/lgc.h:86-97 | what has been stored in a reachable object is reachable |
| `GcProgram.ReachableLive` | ext/lua/lgc.h:70-77 | whatever the program can reach is not dead |
| `GcProgram.StoreKeeps` | ext/lua/lgc.cpp:662-683 | a store followed by its barrier keeps the invariant in every phase |
| `GcProgram.ForwardKeepsTri` | ext/lua/lgc.cpp:662-672 | the forward barrier restores the tricolour invariant that the store broke at the black object |
| `GcProgram.BackKeepsTri` | ext/lua/lgc.cpp:675-683 | so does turning a black table gray again |
| `GcProgram.BarrierAssertions` | ext/lua/lgc.cpp:662-683 | the assertions in both barriers hold whenever one fires, and what the barrier leaves behind |
| `GcAlloc.CreateKeeps` | ext/lua/lgc.cpp:686-692 | linking a new object in any phase keeps the invariant |
| `GcAlloc.CreateUdataKeeps` | ext/lua/lstring.cpp:96-111 | so does a userdata, which is linked behind the main thread |
| `GcAlloc.CreateStringKeeps` | ext/lua/lstring.cpp:50-72 | so does a new string, in its bucket |
| `GcAlloc.CreateUpvalKeeps` | ext/lua/lfunc.cpp:67-79 | so does a new open upvalue, in the list of its thread and in that of all |
| `GcAlloc.ResurrectKeeps` | ext/lua/lfunc.cpp:58-66 | a dead string or upvalue that is found again becomes live and the invariant stays |
| `GcAlloc.NewRootsKeep` | ext/lua/lgc.cpp:493-512 | changing the metatables or the running thread keeps the invariant |
| `GcClose.CloseKeeps` | ext/lua/lfunc.cpp:96-112 | closing the first open upvalue of a thread keeps the invariant, whether it is freed or linked into the root list |
| `GcFull.StepKeepsReachable` | ext/lua/lgc.cpp:556-607 | a collector step does not change what is reachable |
| `GcFull.Progress` | ext/lua/lgc.cpp:556-607 | outside the pause every step decreases a well-founded measure, so that a cycle ends |
| `GcCycle.CycleReclaims` | ext/lua/lgc.cpp:556-607 | an object that is unreachable when a cycle starts is freed before the sweep of the cycle ends, whatever the program does meanwhile, unless it is fixed or found again as a string or an upvalue |
| `GcCycle.StartLoses` | ext/lua/lgc.cpp:501-512 | starting a cycle marks nothing that is unreachable |
| `GcSpared.MarkRestSpares` | ext/lua/lgc.cpp:525-553 | the passes of `atomic` mark nothing in a set of unmarked objects that nothing outside it refers to |
| `GcFull.FullGcIsExact` | ext/lua/lgc.cpp:636-659 | a full collection frees exactly the unreachable objects, fixed strings apart, and leaves the others and reachability as they were |
| `GcCollector.GlobalState.ReallyMarkObject` | ext/lua/lgc.cpp:69-112 | refines the marking of a white object, recursion into userdata and upvalues included |
| `GcCollector.GlobalState.PropagateMark` | ext/lua/lgc.cpp:277-320 | refines the step for which the tricolour invariant is proved |
| `GcCollector.GlobalState.PropagateAll` | ext/lua/lgc.cpp:323-327 | the loop ends and refines marking to the end |
| `GcCollector.GlobalState.MarkRoot` | ext/lua/lgc.cpp:501-512 | refines the start of a cycle |
| `GcCollector.GlobalState.RemarkUpvals` | ext/lua/lgc.cpp:515-522 | the loop refines the pass over the open upvalues |
| `GcCollector.GlobalState.Atomic` | ext/lua/lgc.cpp:525-553 | refines the atomic step |
| `GcCollector.GlobalState.SweepWholeList` | ext/lua/lgc.cpp:407-428 | the loop keeps exactly the survivors of a bucket, in order, repainted |
| `GcCollector.GlobalState.SweepList` | ext/lua/lgc.cpp:407-428 | the loop refines the sweep of at most `count` objects |
| `GcCollector.GlobalState.BarrierForward` | ext/lua/lgc.cpp:662-672 | refines the forward barrier |
| `GcCollector.GlobalState.BarrierBack` | ext/lua/lgc.cpp:675-683 | refines the backward barrier |
| `GcCollector.GlobalState.Store` | ext/lua/lgc.h:86-97 | an assignment with its barrier gives the object its new references, changes no other object, and keeps the invariant |
| `GcCollector.GlobalState.LinkObject` | ext/lua/lgc.cpp:686-692 | refines linking, with the sweep pointer kept at its object |
| `GcCollector.GlobalState.LinkUpval` | ext/lua/lgc.cpp:695-710 | refines linking a closed upvalue, with its barrier |
| `GcCollector.GlobalState.CloseFirst` | ext/lua/lfunc.cpp:96-112 | refines one turn of `luaF_close` |
| `GcCollector.GlobalState.CloseAll` | ext/lua/lfunc.cpp:96-112 | the loop ends and refines closing all upvalues of a thread that is freed |
| `GcCollector.GlobalState.SingleStep` | ext/lua/lgc.cpp:556-607 | the whole new state, and the invariant |
| `GcCollector.GlobalState.RunFullGc` | ext/lua/lgc.cpp:636-659 | refines the full collection |
| `GcCollector.GlobalState.FullCollect` | ext/lua/lgc.cpp:636-659 | ends in the pause with exactly the reachable objects and the fixed strings left, unchanged |
| `CgFuncState.AssignRuns` | ext/lua/lvm.cpp:564-608 | the machine, run over the code of `v = x`, ends behind it with the value of `x` in `v` and every other active local unchanged; jumps that waited lead to its start |
| `CgFuncState.AssignWorks` | ext/lua/lvm.cpp:564-608 | the same for all registers, outcomes of comparisons and code behind it |
| `CgMachine.ExecIsRun` | ext/lua/lvm.cpp:564-608 | the execution used in the proofs is a run of the machine, whatever code follows |
| `CgMachine.Refine` | ext/lua/lcode.cpp:80-88 | code that only gets longer and whose pending jumps get targets executes as before up to those jumps |
| `CgProof.Settle` | ext/lua/lcode.cpp:163-166 | pending jumps made to lead to the end of the code keep what it computes |
| `CgProof.Append` | ext/lua/lcode.cpp:343-379 | an instruction that writes the value to a register |
| `CgProof.Branch` | ext/lua/lcode.cpp:524-536 | a test and a jump behind it split the true from the false outcome |
| `CgProof.Relink` | ext/lua/lcode.cpp:185-196 | linking jump lists through the instructions changes nothing that is computed |
| `CgProof.Fall` | ext/lua/lcode.cpp:390-393 | a comparison's jump in the true list means false when the code falls through |
| `CgSequence.Connect` | ext/lua/lcode.cpp:745-760 | the code of the second operand behind the short-circuit jumps of the first computes `and` or `or` |
| `CgSequence.Compare2` | ext/lua/lcode.cpp:681-694 | the code of two operands and a comparison computes the relation, swapped operands included |
| `CgFinish.Invert` | ext/lua/lcode.cpp:594-626 | exchanging the lists and dropping the values that jumps move computes the negation |
| `CgFinish.Finish` | ext/lua/lcode.cpp:390-411 | the loads of false and true and the targets of both lists leave the value in the register, however it was decided |
| `CgFinish.Delivered` | ext/lua/lcode.cpp:150-160 | a taken jump of the true or false list delivers the tested value or a boolean to the register |
| `CgFuncState.FuncState.FixJump` | ext/lua/lcode.cpp:80-88 | sets the target, and fails exactly if it is too far |
| `CgFuncState.FuncState.NeedValue` | ext/lua/lcode.cpp:122-128 | true exactly if some jump of the list moves no value |
| `CgFuncState.FuncState.PatchTestReg` | ext/lua/lcode.cpp:131-141 | gives a TESTSET its register or makes it a TEST, and touches nothing else |
| `CgFuncState.FuncState.RemoveValues` | ext/lua/lcode.cpp:144-147 | no jump of the list moves a value any more |
| `CgFuncState.FuncState.PatchListAux` | ext/lua/lcode.cpp:150-160 | value-moving jumps get one target, the others the other |
| `CgFuncState.FuncState.Concat` | ext/lua/lcode.cpp:185-196 | the list is the first one followed by the second |
| `CgFuncState.FuncState.PatchToHere` | ext/lua/lcode.cpp:179-182 | the jumps of the list wait together with those that waited already |
| `CgFuncState.FuncState.DischargeJpc` | ext/lua/lcode.cpp:163-166 | the waiting jumps lead to the next instruction |
| `CgFuncState.FuncState.EmitJump` | ext/lua/lcode.cpp:59-66 | the new jump heads the list of those that waited |
| `CgFuncState.FuncState.ReserveRegs` | ext/lua/lcode.cpp:209-212 | fails exactly if the stack would get too large |
| `CgFuncState.FuncState.FreeReg` | ext/lua/lcode.cpp:215-220 | registers are freed in the reverse order of their reservation |
| `CgFuncState.FuncState.Discharge2Reg` | ext/lua/lcode.cpp:343-379 | the value is in the register unless it is decided by jumps |
| `CgFuncState.FuncState.Exp2Reg` | ext/lua/lcode.cpp:390-411 | the value is in the register, whatever decides it, and no jump is pending |
| `CgFuncState.FuncState.Exp2NextReg` | ext/lua/lcode.cpp:414-419 | the value is in the next free register |
| `CgFuncState.FuncState.Exp2AnyReg` | ext/lua/lcode.cpp:422-433 | the value is in some register, which is kept |
| `CgFuncState.FuncState.Exp2RK` | ext/lua/lcode.cpp:444-469 | the same for operands of comparisons |
| `CgFuncState.FuncState.InvertJump` | ext/lua/lcode.cpp:516-521 | changes the condition of the comparison alone |
| `CgFuncState.FuncState.JumpOnCond` | ext/lua/lcode.cpp:524-536 | jumps on the wanted outcome, and drops an OP_NOT in front |
| `CgFuncState.FuncState.GoIfTrue` | ext/lua/lcode.cpp:539-564 | goes on when the value is true and jumps by the new false list otherwise |
| `CgFuncState.FuncState.GoIfFalse` | ext/lua/lcode.cpp:567-591 | goes on when the value is false and jumps by the new true list otherwise |
| `CgFuncState.FuncState.CodeNot` | ext/lua/lcode.cpp:594-626 | computes the negation with the lists exchanged |
| `CgFuncState.FuncState.CodeComp` | ext/lua/lcode.cpp:681-694 | computes the comparison in a pending jump, with the instruction, the flag and the order of the operands that the operator asks for, and frees both operands |
| `CgFuncState.FuncState.Infix` | ext/lua/lcode.cpp:718-742 | prepares the first operand for its operator |
| `CgFuncState.FuncState.Posfix` | ext/lua/lcode.cpp:745-789 | combines both operands into the value of the expression |
| `CgFuncState.FuncState.Compile` | ext/lua/lparser.cpp:832-857 | every expression is compiled into code that computes it, with no register left in use |
| `CgFuncState.FuncState.StoreVar` | ext/lua/lcode.cpp:472-500 | stores the value in the local variable |
| `CgFuncState.FuncState.Assign` | ext/lua/lparser.cpp:935-966 | the code that `v = x` adds runs to its end with the value in `v` and every other active local unchanged, whatever follows; every jump in it fits its field; fails exactly if the registers that the expression needs exceed the stack limit, except that a jump may be too long if the code has got longer than a jump reaches |
| `CgLaws.VarsCompared` | ext/lua/lvm.cpp:568-593 | two variables are equal, less, or less or equal exactly if the machine answers so |
| `CgLaws.Comparisons` | ext/lua/lcode.cpp:781-786 | `~=` is the negation of `==`, and `>` and `>=` are `<` and `<=` with exchanged operands |
| `CgLaws.Connectives` | ext/lua/lcode.cpp:745-760 | what `and`, `or` and `not` give, by the value of the first operand |
| `CgLaws.ComparisonsRun` | ext/lua/lcode.cpp:781-786 | the code of `v = x ~= y` leaves the value that the code of `v = not (x == y)` leaves; so for `>` and `<`, `>=` and `<=` |
| `CgLaws.VarsRun` | ext/lua/lvm.cpp:568-593 | the code of `v = a op b` leaves in `v` whether the values of the variables compare so |
| `CgLaws.TestSteps` | ext/lua/lvm.cpp:568-608 | a test takes the jump behind it or skips it, and moves a value only if it is a TESTSET that jumps |
| `TblTable.Table.PutAll` | ext/lua/ltable.cpp:494-505 | after any sequence of assignments every key has the value last given to it, and all others have theirs; it ends early exactly when it reaches a layout of the parts that blocks the next key, in the sense of `Put`, and then no fewer than 2^26 keys have a value |
| `TblTable.Table.Put` | ext/lua/ltable.cpp:494-505 | an assignment changes the map at its key alone; nil and NaN keys are refused; overflows exactly if the key has no slot, its main position is taken, no node is free and the best sizes need too large a hash part |
| `TblTable.Table.Index` | ext/lua/ltable.cpp:469-491 | reads the map; nil for what is absent |
| `TblTable.Table.Get` | ext/lua/ltable.cpp:469-491 | finds the slot of a key exactly if it has one |
| `TblTable.Table.Search` | ext/lua/ltable.cpp:435-449 | following the chain of the main position finds the key if it is anywhere |
| `TblTable.Table.Store` | ext/lua/ltable.cpp:494-505 | writing a slot changes the map at its key alone |
| `TblTable.Table.GetFreePos` | ext/lua/ltable.cpp:382-388 | a free node above which none is free, or none is left |
| `TblChain.ReuseAdds` | ext/lua/ltable.cpp:399-429 | a free main position takes the key: chains, uniqueness and contents stay |
| `TblChain.PushAdds` | ext/lua/ltable.cpp:418-423 | the key goes behind the main position of its chain: the same |
| `TblChain.EvictAdds` | ext/lua/ltable.cpp:409-417 | a colliding node that is out of its main position moves to the free node and its chain follows: the same |
| `TblTable.Table.MoveColliding` | ext/lua/ltable.cpp:409-417 | the walk to the predecessor ends, and the links are those for which the chain invariant is proved |
| `TblTable.Table.Previous` | ext/lua/ltable.cpp:410-413 | finds the predecessor on the chain, and ends because chains are acyclic |
| `TblTable.Table.NewKey` | ext/lua/ltable.cpp:399-429 | a slot for a key that has none; the map is unchanged and the invariant kept; with room left no rehash happens |
| `TblTable.Table.Set` | ext/lua/ltable.cpp:494-505 | the slot of a key, made if there is none; with room left no rehash happens, which bounds the recursion |
| `TblSizes.BestUnique` | ext/lua/ltable.cpp:189-208 | there is only one largest power of two more than half of whose slots would be in use |
| `TblSizes.ComputeSizes` | ext/lua/ltable.cpp:189-208 | computes that size, and how many keys go to the array part |
| `TblContents.HashedCount` | ext/lua/ltable.cpp:333-349 | what is left over is the number of keys for the hash part |
| `TblContents.LiveIff` | ext/lua/ltable.cpp:469-491 | a key has a value in the map exactly if it is counted as live |
| `TblSizes.ListInArray` | ext/lua/ltable.cpp:189-208 | the elements 1 to m of a list all go to an array part of the least power of two that holds them |
| `TblTable.Table.NumUseArray` | ext/lua/ltable.cpp:222-244 | counts the integer keys of the array part, slice by slice |
| `TblTable.Table.CountInt` | ext/lua/ltable.cpp:211-219 | counts one key if it is a candidate for the array part |
| `TblTable.Table.NumUseHash` | ext/lua/ltable.cpp:247-260 | counts the live keys of the hash part and the candidates among them |
| `TblTable.Table.NewSizes` | ext/lua/ltable.cpp:333-347 | the best array size with the new key included, and the exact number of keys for the hash part, too many of them exactly if the table overflows |
| `TblTable.Table.Resize` | ext/lua/ltable.cpp:297-324 | both parts get their sizes, the hash part the least power of two, the map is unchanged and reinsertion starts no rehash |
| `TblTable.Table.Rehash` | ext/lua/ltable.cpp:333-349 | the map is unchanged, the array part has its best size, the hash part the least power of two for the other keys, and there is room for the new key; overflows exactly if the best sizes need too large a hash part |
| `TblTable.Table.SetNodeVector` | ext/lua/ltable.cpp:272-294 | a fresh hash part whose size is the least power of two with room for that many, or the shared dummy node for none; overflows exactly above the limit |
| `TblTable.Table.New` | ext/lua/ltable.cpp:358-371 | an empty table with parts of the sizes asked for, the hash part rounded up to a power of two, fit for the other operations exactly if the array part is within the limit |
| `TblTable.Table.GetN` | ext/lua/ltable.cpp:560-578 | a border: the element there is present and the next one is not |
| `TblTable.Table.UnboundSearch` | ext/lua/ltable.cpp:532-553 | finds a border behind a present element, also when doubling overflows |
| `SchSafety.RunsAreSafe` | src/jobmanager.cpp:57-102 | in every run: nodes being built or built have all they depend on built, files also the dependencies and the hook of their target, no node is dispatched twice, the counter counts the unreported jobs within its bound, and the result is true exactly if no job failed, after all have reported |
| `SchSafety.StepKeeps` | src/jobmanager.cpp:57-102 | every step of the dispatching thread and of the workers keeps the invariant |
| `SchSafety.StepAdvances` | src/jobfactory.cpp:64-124 | statuses never go back, and a node is taken only when everything it depends on is built |
| `SchJobs.BuiltWhy` | src/jobfactory.cpp:96-114 | in every run a node is built because its job was started and reported success, or because the dispatching thread found it up to date, and then it is no hook |
| `SchJobs.NextStarted` | src/jobfactory.cpp:96-114 | a node that is taken and not up to date is the next whose job is started, and so is every hook |
| `SchJobs.ErrorStops` | src/jobmanager.cpp:57-82 | after a job has reported a failure at most one more is started |
| `SchJobs.WholeBuild` | src/jobmanager.cpp:57-90 | in a build that ends with success and not by a change of the tree, everything under the root has been built by its job or was up to date |
| `SchRebuild.RebuiltAbove` | src/jobfactory.cpp:112-121 | once a job has been made for a node that is no hook, nothing above it is taken for up to date |
| `SchRebuild.RebuiltByJob` | src/jobfactory.cpp:112-121 | so what lies above it and is built has been built by its own job |
| `SchRebuild.FilesRebuilt` | src/nodetree.cpp:119-125 | the files that a target gets when it is expanded after something below it has been rebuilt are rebuilt too |
| `SchSafety.CompleteBuild` | src/jobmanager.cpp:57-90 | a build that ends with success had nothing left to start, or no root (exactly if there is none), or met a change of the tree after a search; with a root, everything under it is started, and built, exactly if no such change ended the build |
| `SchRuns.EndsEarly` | src/jobfactory.cpp:71-94 | a run in which such a change ends a build with success although its only target is ready and has never been started |
| `SchProgress.BuildEnds` | src/jobmanager.cpp:57-102 | every run has a bounded number of events; one that cannot go on has no worker left and is over, or waits; it throws only if a dependency is unknown; with a job slot only the wait for a change of the tree can be the last, after a failure or a change |
| `SchProgress.StuckIff` | src/jobmanager.cpp:57-102 | nothing can happen in a build that is not over exactly if the dispatching thread waits for a job or a change and no worker is left to notify it |
| `SchProgress.StuckStep` | src/jobfactory.cpp:86-94 | with a job slot a build gets stuck exactly by the step that starts to wait for a change of the tree when no worker is left, and then a change has come after the test for one, or a job has failed |
| `SchProgress.StepShrinks` | src/jobmanager.cpp:57-102 | every step of the dispatching thread and of the workers decreases a measure of the work left |
| `SchRuns.GetsStuck` | src/jobfactory.cpp:86-94 | a run that gets stuck without any failure: the last job ends between the test for a change and the wait |
| `SchRuns.FailsStuck` | src/jobmanager.cpp:57-74 | a run that gets stuck because the only job fails after the test for an error |
| `SchSearch.SearchFinds` | src/jobfactory.cpp:126-162 | a node that is found can be built; a file only when the dependencies and the hook of its target are built, and with its target |
| `SchSearch.SearchEnds` | src/jobfactory.cpp:126-162 | when nothing is found the search asks to wait only if some node is being built; otherwise everything has been started |
| `SchSearch.FindResult` | src/jobfactory.cpp:126-162 | the same from any node, with what is reported and whether it waits |
| `SchOrder.FindExact` | src/jobfactory.cpp:126-162 | the search finds a node exactly if some node can be started: none of its children is unbuilt, and for a file neither the dependencies nor the hook of its target |
| `SchOrder.FindFirst` | src/jobfactory.cpp:126-162 | what is found lies below the first child below which something can be started, or is the node itself if nothing below it can |
| `SchSearch.FindLeft` | src/jobfactory.cpp:126-162 | if the search asks to wait, some node under the one it starts from has not been started |
| `SchSearch.HookTarget` | src/jobfactory.cpp:126-162 | a hook that is found belongs to exactly one target and is reported with it exactly if all dependencies of that target have been started |
| `SchSearch.HookMisreported` | src/jobfactory.cpp:126-162 | an instance where it is reported with a dependency instead |
| `SchRuns.MisledReached` | src/jobfactory.cpp:64-124 | a run that leads to this instance |
| `SchTree.AllBuilt` | src/jobfactory.cpp:126-162 | everything below a node that is being built is built |
| `SchExpand.ExpandSound` | src/nodetree.cpp:95-128 | expansion keeps the shape, order and acyclicity of the graph |
| `SchExpand.ExpandFinds` | src/jobfactory.cpp:77-84 | after the expansion of a target that was found, the search from it finds one of its files, or itself if it has none |
| `SchFactory.JobFactory.FindAGoodNode` | src/jobfactory.cpp:126-162 | the recursion and its loop compute the search |
| `SchFactory.JobFactory.ExpandTargetNode` | src/nodetree.cpp:95-128 | expands dependencies first; throws exactly if the name of a dependency is unknown, here or in a dependency that is expanded on the way; on a target that was found exactly its files become new children |
| `SchFactory.JobFactory.SearchForJob` | src/jobfactory.cpp:73-85 | the part of `createJob` under the lock is the search step of the system, or throws as that step does |
| `SchFactory.JobFactory.AddTargetHookNodes` | src/nodetree.cpp:243-256 | every target with a hook gets one hook node behind its other children, and nothing else changes |
| `DmpRoundTrip.DumpUndump` | ext/lua/lundump.cpp:161-209 | undumping a dump succeeds exactly if no line is negative, the functions nest at most 200 deep and each passes the code check, and gives the function with inherited sources, without debug data if stripped |
| `DmpRoundTrip.RoundTrip` | ext/lua/lundump.cpp:161-209 | a loadable function comes back unchanged exactly if no source in it is missing |
| `DmpRoundTrip.StripBare` | ext/lua/ldump.cpp:111-141 | in a stripped function every source is "=?" and all debug data is gone |
| `DmpRoundTrip.ProtoRead` | ext/lua/lundump.cpp:161-181 | reading one function consumes exactly what was written for it |
| `DmpRoundTrip.DebugRead` | ext/lua/lundump.cpp:137-159 | the debug data comes back if its program counters are not negative |
| `DmpRoundTrip.StringRead` | ext/lua/lundump.cpp:76-88 | strings come back, the missing one included |
| `DmpRoundTrip.ConstantRead` | ext/lua/lundump.cpp:100-129 | constants of every type come back |
| `DmpState.DumpState.DumpChunk` | ext/lua/ldump.cpp:153-164 | the chunk goes to the writer in blocks, up to the first one that it refuses; without an error all of it has been written, otherwise a prefix |
| `DmpState.DumpState.DumpFunction` | ext/lua/ldump.cpp:129-141 | writes one function, or a prefix of it after which nothing more is written |
| `DmpState.DumpState.DumpConstants` | ext/lua/ldump.cpp:80-105 | the loop writes the constants |
| `DmpState.DumpState.DumpDebug` | ext/lua/ldump.cpp:111-127 | writes the debug data, none of it if stripped |
| `DmpState.DumpState.DumpBlock` | ext/lua/ldump.cpp:29-37 | a block goes to the writer, whose answer is kept; after an error nothing is written |
| `DmpReader.LoadState.LoadChunk` | ext/lua/lundump.cpp:195-209 | the reader over its stream computes the undumping |
| `DmpReader.LoadState.LoadFunction` | ext/lua/lundump.cpp:161-181 | reads one function with its nested ones, restores the call depth, and fails where and why the format says |
| `DmpReader.LoadState.LoadConstants` | ext/lua/lundump.cpp:100-129 | the loop reads the constants or fails at the first bad one |
| `DmpReader.LoadState.LoadDebug` | ext/lua/lundump.cpp:137-159 | reads the debug data |
| `DmpReader.LoadState.LoadString` | ext/lua/lundump.cpp:76-88 | reads a string, dropping its last byte whatever it is |
| `DmpReader.VectorIsMany` | ext/lua/lundump.cpp:44-46 | reading a vector as one block is reading its elements one by one |
| `DmpSample.SampleBytes` | ext/lua/ldump.cpp:129-141 | a function written out byte by byte: the order of its fields, the sizes of counts and strings, and what stripping leaves out |
| `DmpSample.HeaderFirst` | ext/lua/lundump.cpp:214-228 | the twelve bytes of the header, and the function behind them |
| `DmpSample.FourBytes` | ext/lua/ldump.cpp:44-47 | an integer is four bytes, the least significant one first |
| `DmpSample.Strings` | ext/lua/ldump.cpp:61-75 | a string is its size in eight bytes, its text and a zero; a missing one is a size of zero |
| `DmpSample.Tags` | ext/lua/ldump.cpp:80-105 | the tags of the four types of constants |
| `QuoteText.RoundTrip` | ext/lua/llex.cpp:276-329 | whatever follows it, the `%q` form of any byte string is read as that string, up to its end and with its newlines counted, unless that makes too many lines |
| `QuoteText.QuotedPrefixFree` | ext/lua/lstrlib.cpp:696-723 | different strings have different forms and no form begins with another |
| `QuoteLexer.Buffer.AddQuoted` | ext/lua/lstrlib.cpp:696-723 | the loop writes the quoted form |
| `QuoteLexer.LexState.ReadString` | ext/lua/llex.cpp:276-329 | the loop reads a literal as the escapes say, leaves the stream behind it, and fails where and why the code does |
| `QuoteLexer.LexState.ReadItem` | ext/lua/llex.cpp:281-324 | one character or escape of a literal, as the value of the whole literal has it |
| `QuoteLexer.LexState.ReadEscape` | ext/lua/llex.cpp:288-320 | one escape: a control character, a line end, up to three digits, or the character itself |
| `QuoteLexer.LexState.ReadDecimal` | ext/lua/llex.cpp:303-313 | the value of up to three digits |
| `QuoteLexer.LexState.IncLineNumber` | ext/lua/llex.cpp:127-135 | skips one line end of one or two characters and counts it |
| `QuoteLexer.PrintAndRead` | ext/lua/lstrlib.cpp:696-723 | printing and then reading is the identity, up to the limit on lines |
| `QuoteText.ControlLetters` | ext/lua/llex.cpp:290-297 | the letters a, b, t, n, v, f, r behind a backslash are the bytes 7 to 13, and no other character is a control character |
| `QuoteText.Escapes` | ext/lua/llex.cpp:302-314 | up to three digits are the byte of that number, or an error above 255 |
| `QuoteText.OtherEscapes` | ext/lua/llex.cpp:298-303 | a line end behind a backslash is a newline, and any other character itself |
| `QuoteText.QuotedForms` | ext/lua/lstrlib.cpp:696-723 | which bytes `%q` escapes, and how |
| `ClimbParse.ParsedIff` | ext/lua/lparser.cpp:832-862 | a whole text is parsed into a tree exactly if the tree has that text and respects the priorities, and does not nest too deep |
| `ClimbParse.OneOrdered` | ext/lua/lparser.cpp:814-823 | the text of any expression is that of exactly one tree that respects the priorities |
| `ClimbParse.AnyTextParsed` | ext/lua/lparser.cpp:832-862 | every text of an expression is parsed to its end |
| `ClimbParse.NothingLeft` | ext/lua/lparser.cpp:860-862 | an expression takes in every operator behind it |
| `ClimbParse.SubExprSound` | ext/lua/lparser.cpp:832-857 | with any limit: what was read is the text of the tree, the operators above the limit are taken in, and the nesting was within its bound |
| `ClimbParse.SubExprComplete` | ext/lua/lparser.cpp:832-857 | with any limit: the text of a tree that respects it is read as that tree |
| `ClimbParse.GroupsByRow` | ext/lua/lparser.cpp:814-823 | two binary operators group as the table in section 2.5.6 of the Lua 5.1 Reference Manual says |
| `ClimbParse.UnaryByRow` | ext/lua/lparser.cpp:814-825 | so do a unary and a binary one |
| `ClimbParse.Prefixes` | ext/lua/lparser.cpp:782-789 | `not`, `-` and `#` in front of an operand are parsed as the three unary operators |
| `ClimbParse.Smallest` | ext/lua/lparser.cpp:832-857 | the trees of the smallest expressions, token by token |
| `ClimbTree.RegroupOrdered` | ext/lua/lparser.cpp:814-823 | regrouping a tree respects the priorities and keeps its text |
| `ClimbParse.LexState.SubExpression` | ext/lua/lparser.cpp:832-857 | the recursion and its loop compute the parse, and return the first operator not taken in |
| `ClimbParse.LexState.SimpleExp` | ext/lua/lparser.cpp:671-690 | an operand, or an expression in parentheses with its closing one |
| `Sort.TableSort` | ext/lua/ltablib.cpp:256-264 | for every comparison function it ends, rearranges only the elements and the slot behind them, and nests logarithmically; if no value is before itself the elements stay in the table; the error is raised only if two elements are each before the other, and is raised on four or more that all are before one another; a strict weak order puts them in order |
| `Sort.AuxSort` | ext/lua/ltablib.cpp:193-254 | the same for a range; of fewer than 2^d elements at most d calls are nested |
| `Sort.NoThirdStall` | ext/lua/ltablib.cpp:194-253 | under no comparison function does the loop keep its range three times in a row, so that it ends |
| `Sort.Partition` | ext/lua/ltablib.cpp:218-244 | divides the range around the middle element; when the error is raised, exactly; when the upward scan leaves the range, the pivot, which is before itself, goes behind the range |
| `Sort.SortThree` | ext/lua/ltablib.cpp:196-216 | the ends and the middle are put in order pairwise, unless two of them are each before the other |
| `Sort.ScanUp` | ext/lua/ltablib.cpp:225-229 | stops at the first element that is not smaller, or raises the error if there is none up to the slot behind the range |
| `Sort.ScanDown` | ext/lua/ltablib.cpp:230-234 | stops at the first element from above that is not larger, or raises the error if there is none down to the slot in front of the range |
| `Sort.ElementLeaves` | ext/lua/ltablib.cpp:218-252 | an input and a comparison for which one turn of the loop moves an element out of the table and nil into it, without an error |
| `MchPattern.BestIsBest` | ext/lua/lstrlib.cpp:365-440 | for every pattern and subject, captures, `%b`, `%f` and back-references included: backtracking finds the first match in the order of preference, or the error to which the first choice that does not fail leads, and nothing only if every choice fails |
| `MchPattern.GoalClass` | ext/lua/lstrlib.cpp:409-437 | what each repetition of a character class means for the answer |
| `MchPattern.GoalStep` | ext/lua/lstrlib.cpp:365-404 | what a capture, a balanced text, a frontier or a back-reference means for the answer |
| `MchPattern.GoalWithin` | ext/lua/lstrlib.cpp:160-170 | a match ends in the subject, not before its start; its captures lie before its end; captures that were there start where they did, and only open ones have been closed |
| `MchMatcher.MatchState.Match` | ext/lua/lstrlib.cpp:365-440 | computes the answer for every pattern, with exactly its captures or its error; a failure restores the level and all captures |
| `MchMatcher.MatchState.Special` | ext/lua/lstrlib.cpp:373-404 | the cases `%b`, `%f` and `%0` to `%9`: the answer is that of the rest from where they end, or a failure, or their error |
| `MchMatcher.MatchState.Repeat` | ext/lua/lstrlib.cpp:422-431 | the suffixes `*`, `+` and `-` give the answer |
| `MchMatcher.MatchState.MaxExpand` | ext/lua/lstrlib.cpp:301-313 | the answer of the most repetitions behind which the rest does not fail |
| `MchMatcher.MatchState.MinExpand` | ext/lua/lstrlib.cpp:316-326 | the answer of the fewest repetitions behind which the rest does not fail |
| `MchMatcher.MatchState.StartCapture` | ext/lua/lstrlib.cpp:329-340 | the answer with one more capture open at the position, or the error for too many; undone on failure |
| `MchMatcher.MatchState.EndCapture` | ext/lua/lstrlib.cpp:343-351 | the answer with the last open capture closed at the position, or the error if none is open; undone on failure |
| `MchMatcher.MatchState.CaptureToClose` | ext/lua/lstrlib.cpp:194-199 | the last open capture, if any |
| `MchMatcher.MatchState.CheckCapture` | ext/lua/lstrlib.cpp:186-191 | accepts exactly the digits of closed captures |
| `MchMatcher.MatchState.MatchCapture` | ext/lua/lstrlib.cpp:354-362 | matches exactly the text of the capture again |
| `MchMatcher.MatchState.MatchBalance` | ext/lua/lstrlib.cpp:281-298 | ends behind the first position where the two characters balance |
| `MchMatcher.MatchState.StrFind` | ext/lua/lstrlib.cpp:513-531 | the first position where the pattern matches or raises an error, or only the first one behind a caret |
| `MchClasses.ClassLetters` | ext/lua/lstrlib.cpp:226-243 | which bytes the ten class letters stand for |
| `MchClasses.OtherLetters` | ext/lua/lstrlib.cpp:226-243 | an upper-case class letter matches what its lower-case one does not, and any other character behind `%` itself |
| `MchClasses.SetMatches` | ext/lua/lstrlib.cpp:245-265 | a set, read from its text, matches exactly the bytes that one of its characters, ranges and classes matches, and a negated one exactly the others |
| `MchClasses.RangeMatches` | ext/lua/lstrlib.cpp:256-260 | `[x-y]` matches the bytes from x to y |
| `MchClasses.SingleMatches` | ext/lua/lstrlib.cpp:268-275 | a dot matches every byte, `%` and a letter its class, any other byte itself |
| `MchClasses.Repetitions` | ext/lua/lstrlib.cpp:409-437 | `*`, `+`, `-` and `?` behind a class say how often it is repeated |
| `MchClasses.Items` | ext/lua/lstrlib.cpp:365-404 | the other items by their characters |
| `MchClasses.MoreItems` | ext/lua/lstrlib.cpp:365-437 | where a class ends with its repetition, and what is wrong with malformed items |
| `MchClasses.StartMeans` | ext/lua/lstrlib.cpp:329-340 | a capture is opened at the position, or there are 32 already |
| `MchClasses.StopMeans` | ext/lua/lstrlib.cpp:343-351 | the last open capture gets its length |
| `MchClasses.BackMeans` | ext/lua/lstrlib.cpp:354-362 | a back-reference matches the text of its capture again |
| `MchClasses.FrontierMeans` | ext/lua/lstrlib.cpp:379-388 | a frontier is where the set matches the next byte and not the one before |
| `MchClasses.BalanceMeans` | ext/lua/lstrlib.cpp:281-298 | a balanced text ends where as many closing characters have come as opening ones, for the first time |
| `MchClasses.BalanceLeads` | ext/lua/lstrlib.cpp:281-298 | the item leads behind its balanced text |
| `MchClasses.BalanceFails` | ext/lua/lstrlib.cpp:281-298 | or does not match if there is none |
| `MchClasses.BalanceSame` | ext/lua/lstrlib.cpp:281-298 | if both characters are the same it ends at the next one |
| `Refs.RunKeeps` | ext/lua/lauxlib.cpp:481-512 | over any sequence of references taken and lawfully freed, a reference keeps its value until it is freed, and the next one handed out is not live |
| `Refs.NextIsFresh` | ext/lua/lauxlib.cpp:481-501 | a reference that is taken is positive and not live, and the slots stay divided into live and free ones |
| `Refs.FreedProper` | ext/lua/lauxlib.cpp:504-512 | they stay so divided exactly if the reference that is freed is negative, live, or the one that follows all others |
| `Refs.FreedTwice` | ext/lua/lauxlib.cpp:481-512 | whatever the table holds, if a reference is freed twice in a row, the next two values get that same reference and the first of them is lost |
| `Refs.BorderIsSize` | ext/lua/lauxlib.cpp:495-498 | with no free slot every border of the table is the last reference, so that the next slot is fresh |
| `Refs.Registry.Ref` | ext/lua/lauxlib.cpp:481-501 | on any table the slot that slot 0 leads to, or the one behind a border, gets the value; on proper references that is the next reference, the list stays threaded through the free slots, and all values and other keys stay |
| `Refs.Registry.Unref` | ext/lua/lauxlib.cpp:504-512 | on any table and for any reference the slot is put in front of the list; proper references stay so if it may be freed, and everything else is kept |

## Left out

Collector:

- Weak tables, finalizers and userdata with `__gc`, memory thresholds and pacing (`luaC_step`), stack size checks, resizing of the string table, and `luaC_freeall`.
- The spare mark bits: an object has a colour and a flag that protects fixed strings and the main thread. The linked lists are sequences.
- Stack slots are values of their thread; a dead part of a stack is not told apart.

Code generator:

- Operands that are constants, `nil`, `true`, `false`, upvalues, globals, calls or tables, and the metamethods `__eval` and `__not` that Meique's virtual machine tries on tables and userdata.
- Arithmetic and its constant folding, line information, the table of constants, the limit on nested syntax levels, and conflicts in multiple assignments.
- CgFuncState.FuncState.Assign: where the emitted code is longer than the 131071 instructions a jump reaches, it is not said for which expressions some jump is too long; then it may fail for that.

Table:

- Flags for absent metamethods, write barriers, and `luaH_next`. The hash function is any function into the size of the hash part, which leaves out how numbers with a fraction are hashed.
- Operations on array parts above 2^26 slots, which only `luaH_new` and `luaH_resizearray` can make, and the contents of a table after "table overflow".
- Dead keys: the collector turns the keys of entries without a value into dead keys (`removeentry`, called by `traversetable`, `ext/lua/lgc.cpp:62-66` and `:181-194`), which keep their nodes and links and are no longer found; here a deleted key keeps its node with its name, and is found again there.

Scheduler:

- Building the graph from the script, removing unused targets and joining the roots (`src/nodetree.cpp:139-241`), and the visitor over the graph; acyclicity is a precondition.
- Compiler and linker options, commands, files and time stamps; whether an output is up to date is an input of a step. That a marked node never is (`shouldBuild`) is said of that input in `SchRebuild.Heeds`.
- Waits that end without a notification.

Precompiled chunks:

- Failures to allocate memory, chunks of another byte order or other sizes, and the code check itself, which is any predicate on functions. Functions are values: a half-loaded one is not visible.

Strings and parser:

- The limit on the size of a token, the text of the offending token in messages, long strings and all other tokens.
- An operand stands for a whole simple expression; calls and indexing behind a parenthesis are not modelled, and neither is the code that the parser emits on the way (that is the code generator above).

Sort:

- Comparison functions with side effects or errors of their own, or that change the table; here the comparison is a function of two values, nil included. How `ElementLeaves` goes on.
- The overflow of `l+u`.

Matcher:

- The depth of the C stack, plain searches, the conversion of captures to values (`push_captures`), `gmatch` and `gsub`.

References:

- The conversion of references to C integers, and tables in which other code writes positive integer keys.
