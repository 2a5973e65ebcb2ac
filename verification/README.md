# Verification of the Lua virtual machine and the map geometry

This project models the parts of the repository whose correctness depends on state that many functions share, and proves
what they promise for all inputs and all runs.

Most of it is about piccolo, the Lua virtual machine that hands control back to its host between steps:

* **Compiler** (`Ast`, `Semantics`, `Codegen`, `StatementCodegen`, `Machine`, ...). Expressions and statements have a
  meaning of their own, with environments and fuel instead of registers; the compiler emits register code; the machine runs it.
  The chunk's code and the chunk's meaning end the same way, or both do not end. The methods that push operations, drive the register
  allocator and patch jumps in place are classes (`ExpressionCompiler`, `StatementCompiler`, `RegisterAllocator`,
  `VirtualMachine`) that are proved against those functions. `SourceCosts` counts operations, registers and constants on the syntax tree, and
  `Acceptance` shows that the compiler accepts what fits; `Arithmetic` says what the operators on integers compute.
* **Jumps** (`Jumps`, `JumpHistory`, `JumpTheorems`, `JumpSyntax`, `JumpFailures`, `JumpPanics`, `JumpRules`, `JumpBreaks`, `JumpClosing`, `JumpTables`, ...). The bookkeeping of blocks, labels, `goto` and
  `break`, as a machine of events with a history of every jump beside it; which jumps and ends of blocks close upvalues, and that no cell of a block stays open
  behind it; and the events of every statement, from which follows for which functions the
  compiler fails an assertion.
* **Names** (`Scopes`, `ScopeTheorems`, `ScopeBlocks`, `ScopeRuns`, `ScopeLimits`, `ScopeStacks`). `find_variable` against lexical scoping through any number of nested functions
  and blocks, in every state that a compilation reaches.
* **Threads and the executor** (`Threads`, `ThreadLayout`, `ThreadResults`, `ThreadInvariant`, `LuaTurns`, `Executors`, `ExecutorSafety`,
  `ExecutorRounds`, `ExecutorSteps`, ...). Every assertion and panic of the source is a `None` of the model; the invariant shows which can happen. What every reply of a callback,
  return, error and ended thread hands to whom is stated frame by frame and value by value. What callbacks,
  sequences and the instructions of a Lua function do between two calls is an arbitrary choice.
* **Upvalues** (`UpValues`), **tables** (`Tables`, `TableSizing`, `RawTables`) and the **expression parser** (`Grammar`,
  `ParsePrint`, `PrintParse`, `PriorityTables`, `OperatorLevels`, `Parsers`).

Outside piccolo: hex rings, spirals and rotations (`Hexes`) and the multi-resolution index of a map (`SpatialIndex`).

Functions and datatypes are the specification. A class holds the mutable state where the source does, and each of its methods
says in its postcondition which function of the old state the new state is; the lemmas then speak about that function.

## Where the code is not what it promises

The model follows the code. Each of these lemmas gives an input for which the code does not keep a promise, or says exactly when it does.

* A `goto` out of a `for` loop to a label behind it, in the same list of statements, is an assertion failure of the compiler when fewer than three variables
  are declared between the two, and jumps into the scope of the variables when there are three: `GotoExamples.LoopThenLabel`. Exactly when a function fails so:
  `JumpPanics.FunctionPanics`, and read off the program: `JumpRules.FunctionExactly`; what each label accepts and refuses: `JumpPanics.LabelVerdict`.
  Labels at the end of a block without `return` are behind an inner block and never fail.
* A `break` out of a `while` loop whose body ends in `return` is refused when a variable of the body is declared behind it: `JumpBreaks.EarlyBreakRefused`, and
  exactly when: `JumpBreaks.BreakVerdict`. Section 3.3.4 of the Lua 5.4 Reference Manual allows it.
* A jump back out of the scope of a variable that is captured behind it in the text does not close the variable, so that two variables share a cell:
  `JumpClosing.CapturedLate`. Exactly what a jump back closes: `JumpClosing.JumpBack`. By section 3.5 of the manual each execution of `local` makes a new variable.
* A pushed block of registers that ends exactly at register 256 is given away and not marked: `RegisterAllocation.RegisterAllocator.Push`, which says that this is the
  only case.
* A tail call with too few arguments can panic: `ThreadLayout.TailCallPanic`, and exactly when: `ThreadLayout.TailCallPanics`.
  It is the only panic of the executor: `ExecutorSafety.RunsAreSafe`.
* A missing argument can be a stale value: `ThreadLayout.StaleArgument`, and exactly when: `ThreadLayout.MissingArgument`.
* A numeric `for` whose next index overflows goes on: `CompilerTheorems.GreatestIntegerLoops`, and exactly when: `CompilerTheorems.ForStopsUnlessOverflow`.
  One with step zero, an error in section 3.3.5 of the Lua 5.4 Reference Manual, never ends: `CompilerTheorems.ZeroStepNeverEnds`.
* `>` and `>=` of a NaN are true: `Values.NaNIsGreater`; and right exactly where no NaN is compared: `Values.SwappedComparisons`.
* Integer `//` truncates, where its comment promises rounding towards negative infinity: `Arithmetic.FloorDivision` says exactly when that is the same. Integer `%` is
  wrong when an addition in it overflows: `Arithmetic.ModuloOfGreatest`, and exactly then: `Arithmetic.Modulo`.
* A key that is set again in a full table is counted twice, and the array part grows too far: `RawTables.GrowsTooFar`, and exactly when: `TableSizing.GrowthIsOptimal`.
* `~=` binds like `+`, where section 3.4.8 of the manual gives it the priority of `==`: `PriorityTables.NotEqualBindsLikeAdd`. Exactly which expressions are
  read differently: `PriorityTables.ReadAlike`.
* Adding an entity that is on the map already leaves it in its old cells: `SpatialIndex.AddedTwice`, and `SpatialIndex.AddAgrees` says exactly when that does no harm.
* Rotating a hex by -128 does not turn it: `Hexes.Rotate`, which is right only at hexes with three equal coordinates: `Hexes.LeastTurn`.

## Model

| member | source | states |
|---|---|---|
| `CompilerTheorems.ChunkCorrect` | piccolo/src/compiler/compiler.rs:151-170 | A compiled chunk, started on nil registers, can stop in a given state if and only if the chunk's meaning ends that way: same returned values, same globals, same failure, and it runs for ever exactly when the chunk does. |
| `CompilerTheorems.ChunkSimulated` | piccolo/src/compiler/compiler.rs:434-456 | For every amount of fuel: the machine reaches the meaning's end, or has taken at least that many steps and is still running while the meaning has not ended. |
| `CompilerTheorems.ChunkNeverPanics` | piccolo/src/thread/vm.rs:57-86 | No number of machine steps of a compiled chunk panics: every register, constant and operation it touches is in range of the stack size, constant table and code that the compiler computed. |
| `CompilerTheorems.NoRegisterLeaks` | piccolo/src/compiler/compiler.rs:2442-2455 | When a chunk has been compiled no register is in use and the stack top is 0, so the leak assertion of `finish` holds. |
| `CompilerTheorems.ExpressionCorrect` | piccolo/src/compiler/compiler.rs:1812-1835 | Compiling an expression to any destination and running the code yields the expression's value in its lexical scope there, or fails exactly when evaluation does; no other allocated register changes, and the allocator is as the destination demands. |
| `CompilerTheorems.IntegerForRunsEach` | piccolo/src/thread/vm.rs:275-303 | The loop operation of an integer `for` runs the body for exactly initial, initial + step, ... not past the limit, provided the index behind the last one fits 64 bits. |
| `CompilerTheorems.ForStartsAtInitial` | piccolo/src/thread/vm.rs:275-283 | The first index is the initial value even when subtracting the step in advance wraps around. |
| `CompilerTheorems.ForStopsUnlessOverflow` | piccolo/src/thread/vm.rs:284-303 | The loop stops behind the last value if and only if the next index does not overflow; the manual's section 3.3.5 promises that it always stops. |
| `CompilerTheorems.GreatestIntegerLoops` | piccolo/src/thread/vm.rs:284-303 | `for i = math.maxinteger, math.maxinteger` goes on with the least integer. |
| `CompilerTheorems.ZeroStepNeverEnds` | piccolo/src/thread/vm.rs:275-303 | An empty loop with step zero ends at once or runs out of every amount of fuel, the latter whenever the initial value is not above the limit; section 3.3.5 of the manual makes it an error. |
| `CompilerTheorems.StatementBreak` | piccolo/src/compiler/compiler.rs:1402-1452 | A statement whose meaning ends in a `break` has left an open jump for it in its code, so a compiled chunk has none. |
| `CompilerTheorems.LoopsDoNotBreak` | piccolo/src/compiler/compiler.rs:701-723 | A `break` never leaves more than its innermost loop. |
| `ExprRuns.DischargeRuns` | piccolo/src/compiler/compiler.rs:1812-2235 | The code of `expr_discharge` leaves the value of any tree of constants, variables and operators in the destination, even when that is a variable the tree reads, keeps all other allocated registers and the globals, and fails exactly when evaluation fails. |
| `ExprRuns.OperandsRun` | piccolo/src/compiler/compiler.rs:1949-1976 | Evaluating the right operand leaves the left one readable: both operands hold their values when the operator's operation runs. |
| `ExprRuns.ShortCircuitRuns` | piccolo/src/compiler/compiler.rs:2001-2031 | `and` and `or` yield the left operand, without running the right one's code, exactly when it decides; otherwise the right operand. |
| `ExprRuns.ComparisonStep` | piccolo/src/compiler/operators.rs:119-157 | However a comparison is lowered (swapped, negated), its operation skips exactly when the comparison it stands for equals the flag, and fails when it is undefined. |
| `ExprRuns.SimpleRuns` | piccolo/src/compiler/compiler.rs:1949-1976 | The code of an arithmetic or bit operator, operands and all, puts the value of the whole expression in the destination, keeps every other register in use, and fails exactly when the operator has no value for them. |
| `ExprCorrect.DischargePlaced` | piccolo/src/compiler/compiler.rs:1817-1835 | Register discipline: discharging to a given register gives the allocator back as it was, anything else allocates one fresh register, which for a push is the old stack top. |
| `ExprCorrect.OperandsOk` | piccolo/src/compiler/compiler.rs:1773-1810 | Evaluating two operands and freeing their temporaries leaves exactly the registers that were in use. |
| `ExprCorrect.EvalSame` | piccolo/src/compiler/compiler.rs:205-248 | A pending expression has the same value later as long as the registers that it reads are unchanged. |
| `DescribeCorrect.DescribeMeans` | piccolo/src/compiler/compiler.rs:1039-1082 | The descriptor of an expression, with its constants folded and names resolved to registers, has the expression's value in its scope, and reads registers of visible variables only. |
| `DescribeCorrect.BinaryOfMeans` | piccolo/src/compiler/operators.rs:102-176 | Folding a binary operator of two constants at compile time changes neither its value nor whether it fails. |
| `DescribeCorrect.UnaryOfMeans` | piccolo/src/compiler/operators.rs:191-201 | The same for unary operators. |
| `DescribeCorrect.FindLocalMeans` | piccolo/src/compiler/compiler.rs:1313-1318 | The register found for a name holds the innermost variable of that name; a name without one is a global. |
| `Values.SwappedComparisons` | piccolo/src/compiler/operators.rs:146-155 | `>` and `>=`, lowered to negated `<=` and `<`, mean what the manual says if and only if no NaN is compared: floats that are no NaN are ordered, and a NaN is neither less nor equal. |
| `Values.NaNIsGreater` | piccolo/src/compiler/operators.rs:146-155 | A NaN is greater than any number, where the manual's translation to `<` and `<=` says that it is not. |
| `Values.WrapSubAdd` | piccolo/src/constant.rs:92-105 | Wrapping subtraction of a step is undone by wrapping addition. |
| `Arithmetic.IntegerArithmetic` | piccolo/src/constant.rs:92-112 | Integer `+`, `-`, `*` and unary `-` give the 64-bit integer that is congruent to the exact result. |
| `Arithmetic.OneWrap` | piccolo/src/constant.rs:92-112 | There is only one such integer. |
| `Arithmetic.FloorDivision` | piccolo/src/constant.rs:120-133 | Integer `//` is the manual's floor division if and only if the division leaves nothing or the operands have the same sign; division by zero fails. |
| `Arithmetic.Modulo` | piccolo/src/constant.rs:135-150 | Integer `%` is the manual's modulo if and only if adding the divisor to the truncated remainder does not overflow; division by zero fails. |
| `Arithmetic.ModuloOfGreatest` | piccolo/src/constant.rs:135-150 | `(math.maxinteger - 1) % math.maxinteger` is -3. |
| `Arithmetic.FloatArithmetic` | piccolo/src/constant.rs:92-164 | Floats, and integers next to floats, meet their operator in the order they were written in; `/` and `^` do so with two integers too. |
| `Arithmetic.BitOperators` | piccolo/src/constant.rs:166-188 | Bitwise operators keep the order of their operands, take floats that stand for integers, and fail for values that no integer stands for. |
| `Arithmetic.NumberComparisons` | piccolo/src/constant.rs:194-231 | Numbers are compared in the order they were written in, an integer next to a float as a float. |
| `Arithmetic.FloatLoop` | piccolo/src/thread/vm.rs:304-325 | A numeric `for` with a float among its three numbers adds and compares as floats, upwards, or downwards if the step is negative. |
| `Arithmetic.TruthAndEquality` | piccolo/src/constant.rs:18-28 | Only nil and false are false, and values other than numbers equal only themselves. |
| `StatementCorrect.StatementRuns` | piccolo/src/compiler/compiler.rs:434-456 | The code of a statement simulates its meaning: from registers that hold the scope's variables it ends where the meaning ends (behind the code, at the break target, returned, failed) with matching variables, and changes no register in use but those of variables in scope. |
| `StatementCorrect.BlockRuns` | piccolo/src/compiler/compiler.rs:395-432 | The same for blocks, behind which the scope has the outer variables only, with their new values. |
| `StatementCorrect.WhileRuns` | piccolo/src/compiler/compiler.rs:701-723 | The same for `while`, with jumps back and out patched in; a loop whose `break` the source refuses is refused. |
| `StatementCorrect.RepeatRuns` | piccolo/src/compiler/compiler.rs:725-754 | The same for `repeat`, whose condition sees the variables of the body. |
| `StatementCorrect.ForRuns` | piccolo/src/compiler/compiler.rs:546-613 | The same for numeric `for`, with its three control registers and the loop variable. |
| `StatementCorrect.ChainRuns` | piccolo/src/compiler/compiler.rs:505-539 | The same for `if` with any number of `elseif` arms and an `else`. |
| `StatementCorrect.GlobalAssignmentRuns` | piccolo/src/compiler/compiler.rs:1560-1581 | Assignment to a global sets that global and nothing else, or fails with the expression. |
| `StatementCorrect.LocalAssignmentRuns` | piccolo/src/compiler/compiler.rs:929-1005 | Assignment to a local gives the innermost variable of that name the value that the expression had before. |
| `StatementPieces.TestRuns` | piccolo/src/compiler/compiler.rs:2322-2392 | The code of `expr_test` skips the operation behind it exactly when the condition equals the flag. |
| `StatementPieces.PushAllRuns` | piccolo/src/compiler/compiler.rs:1704-1771 | All values of a `return` stand on the stack top in order. |
| `StatementShape.StatementCodeOk` | piccolo/src/compiler/compiler.rs:434-456 | Behind a statement exactly its newly declared variables occupy registers beyond those in use before it. |
| `StatementShape.BlockCodeOk` | piccolo/src/compiler/compiler.rs:346-357 | Behind a block exactly the registers from before it are in use. |
| `RegisterAllocation.RegisterAllocator.Allocate` | piccolo/src/compiler/register_allocator.rs:40-62 | Allocates the least free register and keeps the cached first free register, stack top and high-water mark exact. |
| `RegisterAllocation.RegisterAllocator.Free` | piccolo/src/compiler/register_allocator.rs:65-76 | Frees one register; the caches stay exact, also when the top shrinks over a gap. |
| `RegisterAllocation.RegisterAllocator.Push` | piccolo/src/compiler/register_allocator.rs:81-98 | Allocates a block at the stack top, or refuses and changes nothing, and keeps the caches exact if and only if the block does not end exactly at register 256; such a block is given away with none of its registers marked. |
| `RegisterAllocation.RegisterAllocator.PopTo` | piccolo/src/compiler/register_allocator.rs:102-116 | Frees every register from the new top on and none below it. |
| `AllocatorSpec.AllocateOk` | piccolo/src/compiler/register_allocator.rs:40-62 | An allocated register was free and lies below the high-water mark. |
| `AllocatorSpec.PushOk` | piccolo/src/compiler/register_allocator.rs:81-98 | A pushed block is disjoint from all registers in use and begins at the old top. |
| `ExpressionCompilers.ExpressionCompiler.ExprDischarge` | piccolo/src/compiler/compiler.rs:1812-2235 | The method that emits operations and drives the allocator in place emits the code that the theorems are about and leaves the same registers and constants, or fails when it does. |
| `ExpressionCompilers.ExpressionCompiler.ExprOperands` | piccolo/src/compiler/compiler.rs:1949-1976 | Both operands are evaluated before either temporary is freed. |
| `ExpressionCompilers.ExpressionCompiler.ConstantIndex` | piccolo/src/compiler/compiler.rs:1516-1537 | A constant gets one index for good: the one it has, or the next one, or none beyond 65535. |
| `StatementCompilers.StatementCompiler.Statement` | piccolo/src/compiler/compiler.rs:434-456 | The methods that emit operations, declare variables and patch jumps in place produce the code, pending jumps, variables and registers of the specification that the simulation is proved of. |
| `StatementCompilers.StatementCompiler.ForStatement` | piccolo/src/compiler/compiler.rs:546-613 | The same for numeric `for`: both loop operations are patched to reach each other. |
| `StatementCompilers.StatementCompiler.WhileStatement` | piccolo/src/compiler/compiler.rs:701-723 | The same for `while`. |
| `StatementCompilers.StatementCompiler.RepeatStatement` | piccolo/src/compiler/compiler.rs:725-754 | The same for `repeat`. |
| `StatementCompilers.StatementCompiler.IfStatement` | piccolo/src/compiler/compiler.rs:505-539 | The same for `if`. |
| `StatementCompilers.StatementCompiler.Block` | piccolo/src/compiler/compiler.rs:332-388 | The same for a block, whose variables are forgotten and whose registers are freed at its end. |
| `StatementCompilers.StatementCompiler.JumpTarget` | piccolo/src/compiler/compiler.rs:1454-1514 | Placing a label patches every open jump to it that the statement has left, and no other; it fails exactly when one of them is out of reach. |
| `StatementCompilers.StatementCompiler.Chunk` | piccolo/src/compiler/compiler.rs:151-170 | Compiling a chunk gives exactly the program of `ChunkCorrect`, or no program when a `break` is left over or leaves a loop above its variables, or a limit is exceeded. |
| `Acceptance.ChunkAccepted` | piccolo/src/compiler/compiler.rs:151-170 | Which programs are compiled: one of the fragment that, counted on its syntax tree alone, takes at most 32767 operations, 255 registers and 65536 constants is compiled if and only if no `break` is outside of a loop. |
| `Acceptance.StatementFits` | piccolo/src/compiler/compiler.rs:434-456 | The same for every statement in every state that has room for its cost: it is accepted, emits no more operations and constants than the syntax says, keeps one register for each variable it declares, and leaves an open jump exactly if a `break` leaves it. |
| `Acceptance.LoopsExactly` | piccolo/src/compiler/compiler.rs:701-754 | A loop whose parts compile is refused if and only if its longest jump goes over more than 32767 operations. |
| `Acceptance.ArmExactly` | piccolo/src/compiler/compiler.rs:505-539 | The same for the jump past the block of an `if` arm. |
| `ExprAcceptance.ShortCircuitExactly` | piccolo/src/compiler/compiler.rs:2001-2031 | The same for the jump over the right operand of `and` and `or`. |
| `Acceptance.EndExactly` | piccolo/src/compiler/compiler.rs:1488-1511 | Open jumps are refused at their label if and only if one of them is more than 32767 operations away. |
| `ExprAcceptance.DischargeFits` | piccolo/src/compiler/compiler.rs:1812-2235 | Every descriptor is discharged, to any destination, in every state with room for its cost, and takes no more than that. |
| `ExprAcceptance.ConstantsExactly` | piccolo/src/compiler/compiler.rs:1516-1537 | A constant is refused if and only if it is new and there are 65536; a known one keeps its first index and a new one gets the next. |
| `ExprAcceptance.DescribeWithin` | piccolo/src/compiler/compiler.rs:1039-1082 | Every expression of the fragment has a descriptor, which costs no more than the syntax says, however constants fold and names resolve. |
| `Patching.PatchesItems` | piccolo/src/compiler/compiler.rs:1488-1511 | Patching pending jumps one after the other in the operation list equals patching each placeholder on its own, and fails exactly if one cannot reach the label. |
| `Patching.OthersStay` | piccolo/src/compiler/compiler.rs:1474-1486 | Exactly the jumps to other labels stay pending. |
| `VirtualMachines.VirtualMachine.RunVm` | piccolo/src/thread/vm.rs:57-563 | The loop that updates the counter and the registers in place does as many machine steps as it reports, and stops early only at a return, a failure or a panic. |
| `VirtualMachines.VirtualMachine.Perform` | piccolo/src/thread/vm.rs:86-563 | One turn of the loop changes counter, registers and globals as the machine step does. |
| `Machine.AssignedIsRead` | piccolo/src/thread/vm.rs:160-197 | A global that is read has the value assigned last, nil included; other globals keep theirs. |
| `Machine.StepsCompose` | piccolo/src/thread/vm.rs:57-86 | Machine runs can be cut anywhere. |
| `JumpTheorems.FinishedJumps` | piccolo/src/compiler/compiler.rs:2442-2489 | In every function that compiles each jump is patched exactly once, to a label of its name in a block around it: the offset leads to the label, a forward jump keeps its stack top and closes upvalues if and only if a block it leaves owned some, a backward jump goes to a stack top that is not higher. |
| `JumpTheorems.FinishExactly` | piccolo/src/compiler/compiler.rs:2442-2489 | The end of a function is accepted if and only if every jump has found its label, and is otherwise the error for that. |
| `JumpClosing.EndOfBlock` | piccolo/src/compiler/compiler.rs:361-369 | Leaving a block by running off its end: in every run of events, an operation that closes the upvalues from the stack top on at which the block was entered is emitted if a variable of the block has been captured since, and otherwise nothing; refused exactly if that top is above 254. |
| `JumpClosing.NoneBehindBlock` | piccolo/src/compiler/compiler.rs:361-369 | When straight-line code runs as it is compiled, behind a block no cell of a register from that stack top on is open, whatever closures were made in it and in blocks within it. |
| `JumpClosing.JumpBack` | piccolo/src/compiler/compiler.rs:1402-1432 | A jump back, in every run of events: it leads to the label, closes the upvalues from the label's stack top on exactly if the stack is higher now and a variable of a block from the label's on has been captured, and is refused exactly if it is more than 32767 operations away or cannot close there. |
| `JumpClosing.CapturedLate` | piccolo/src/compiler/compiler.rs:1413-1432 | `::a:: local x ::b:: if c then goto a end f = function() return x end goto b`: no jump closes the captured `x` when it leaves its scope, and its cell stays open on the register of the next `x`. |
| `JumpClosing.JumpAhead` | piccolo/src/compiler/compiler.rs:1402-1452 | A jump to a label that is not visible is always accepted and waits, above the stack top of its own place. |
| `JumpClosing.BlockCaptured` | piccolo/src/compiler/compiler.rs:1319-1328 | An open block owns upvalues if and only if one of its variables has been captured since it was entered. |
| `JumpClosing.OffsetExactly` | piccolo/src/compiler/compiler.rs:2498-2504 | A jump is refused for its length alone if and only if that is more than 32767, forwards or backwards. |
| `JumpTheorems.EventInv` | piccolo/src/compiler/compiler.rs:338-388 | Pending jumps stay ordered by block, each is a placeholder in an open block around it, and labels belong to open blocks, through every event of the compiler. |
| `JumpTheorems.OnlyStackOrderPanics` | piccolo/src/compiler/compiler.rs:1402-1514 | The only assertions that can fail are those that compare stack tops: no placeholder is patched twice and no label or pending jump is in an inner block. |
| `JumpPanics.FunctionPanics` | piccolo/src/compiler/compiler.rs:395-456 | Compiling a function is an assertion failure if and only if in some list of its statements that is reached, at any depth, a label meets a `goto` that has left a `for` before it in that list with fewer than three variables declared since, and that is the first waiting jump that cannot be patched. |
| `JumpPanics.LabelVerdict` | piccolo/src/compiler/compiler.rs:1454-1514 | At every label in every list: the assertion fails exactly so, and the label is accepted if and only if its block has none of that name and every waiting jump is in reach and left a statement with as many variables declared since as it still held registers: none, or three if it is a `for`. |
| `JumpRules.FunctionExactly` | piccolo/src/compiler/compiler.rs:395-456 | Read off the program: a function without any other compile error fails an assertion if and only if, in some list of its statements, a `goto` leaves a `for` for a label behind it in that list that nothing in between and no visible label takes, with fewer than three variables declared between the two; labels at the end of a block without `return` aside. |
| `JumpRules.SafeFunctions` | piccolo/src/compiler/compiler.rs:395-456 | A function without such a `goto` never fails an assertion, whatever its other errors. |
| `JumpCrossings.WaitsExactly` | piccolo/src/compiler/compiler.rs:1402-1514 | Behind a list of statements, a jump out of one of them waits for a label if and only if the program shows it: an operation of that statement jumps to a label that is not visible there, and no label behind it in the list takes it. |
| `JumpNames.ShowsAll` | piccolo/src/compiler/compiler.rs:338-388 | In every run of events the visible labels and waiting jumps of each open block, by name, are those that the events give without registers and operations. |
| `JumpBreaks.BreakVerdict` | piccolo/src/compiler/compiler.rs:701-723 | Behind a `while` loop whose body ends in `return` the break label never fails an assertion, and is accepted if and only if no variable of the body is declared behind a `break` and all of them are in reach. |
| `JumpBreaks.LoopRefused` | piccolo/src/compiler/compiler.rs:701-723 | A `while` loop with such a variable is not compiled. |
| `JumpBreaks.EarlyBreakRefused` | piccolo/src/compiler/compiler.rs:1488-1491 | `while c do break local ... return end`, with one or more variables, is a compile error. |
| `FragmentBreaks.AboveShape` | piccolo/src/compiler/compiler.rs:718-720 | In the compiled fragment the loops refused are exactly those. |
| `JumpPanics.ListRuns` | piccolo/src/compiler/compiler.rs:395-432 | Statement lists: besides, the register stack ends at the declared variables, blocks are as before, and each jump left waiting is an operation of one statement of the list and has the stack top before that statement, plus three if it is a `for`. |
| `JumpSteps.PlaceOutcome` | piccolo/src/compiler/compiler.rs:1488-1511 | In every reachable state placing a label is an assertion failure if and only if the block has no such label and the first waiting jump that cannot be patched has a stack top above the current one; it works if and only if all can be patched. |
| `GotoExamples.LoopThenLabel` | piccolo/src/compiler/compiler.rs:1488-1492 | `for i = 1, 3 do goto done end local ... ::done:: return`, for every number of variables: below three an assertion fails, at three the jump goes into their scope, which section 3.3.4 of the manual forbids, above it is the error for that. |
| `Jumps.OffsetUndone` | piccolo/src/compiler/compiler.rs:2498-2504 | `add_offset`, applied behind the jump, undoes `jump_offset`. |
| `JumpHistory.PatchEffect` | piccolo/src/compiler/compiler.rs:1488-1511 | Patching gives each resolved jump its offset and its upvalue closing, touches nothing else and never meets a jump that is no placeholder. |
| `JumpTables.JumpTable.ExitBlock` | piccolo/src/compiler/compiler.rs:346-388 | The scan of the pending jumps from the last one back, which stops early, brings out exactly the jumps of the closed block. |
| `JumpTables.JumpTable.Jump` | piccolo/src/compiler/compiler.rs:1402-1452 | The method that searches the labels and pushes a jump does what the specification does, errors included. |
| `JumpTables.JumpTable.JumpTarget` | piccolo/src/compiler/compiler.rs:1454-1514 | The same for placing a label, with `retain` and patching in place. |
| `ScopeRuns.ScopingIsLexical` | piccolo/src/compiler/compiler.rs:1295-1386 | In every state that declarations, blocks, functions and uses of names can lead to, at any nesting depth, `find_variable` finds the innermost declaration in the nested scopes of that state. |
| `ScopeRuns.RunTracks` | piccolo/src/compiler/compiler.rs:338-357 | In all those states every function's flat list of locals and its open blocks are the nested scopes that the same events build, and all upvalues denote visible variables. |
| `ScopeRuns.CapturedBlocksAreOwned` | piccolo/src/compiler/compiler.rs:1320-1328 | In all those states the block that declares a captured variable is marked as owning upvalues; only parameters have none. |
| `ScopeTheorems.FindsInnermost` | piccolo/src/compiler/compiler.rs:1295-1386 | Following the descriptors that it appends, as closures are made, leads to that declaration's register; all upvalues keep their meaning; a name without a declaration is a global. |
| `ScopeLimits.FoundUnlessFull` | piccolo/src/compiler/compiler.rs:1330-1386 | When a name is refused: if and only if some function that does not know the name, in a function that declares it, has 256 upvalues already; no function ever gets more. |
| `ScopeTheorems.HandDownOk` | piccolo/src/compiler/compiler.rs:1330-1348 | Handing a variable down gives every function on the way exactly one new upvalue, each denoting that variable. |
| `ScopeTheorems.CellsPush` | piccolo/src/thread/vm.rs:253-273 | A new upvalue adds one cell to closures of its function and changes no cell of any other. |
| `ScopeBlocks.FindsInnermostScope` | piccolo/src/compiler/compiler.rs:1314-1318 | Searching the flat list of locals from its end equals searching nested scopes from the innermost outwards. |
| `ScopeBlocks.ExitMatches` | piccolo/src/compiler/compiler.rs:346-357 | Leaving a block forgets exactly the variables declared in it. |
| `ScopeBlocks.MarksDeclaringBlock` | piccolo/src/compiler/compiler.rs:1320-1328 | Capturing a variable marks the block that declares it, and no other; for a parameter none. |
| `ScopeStacks.ScopeStack.Find` | piccolo/src/compiler/compiler.rs:1295-1386 | The method with its scanning loops and pushes computes that result. |
| `ThreadLayout.PushCallLayout` | piccolo/src/thread/thread.rs:333-367 | A called closure has the leading arguments in its parameters in order, nil for missing ones, and the excess ones below its base. |
| `ThreadLayout.CallFunctionLayout` | piccolo/src/thread/thread.rs:630-701 | The same for `call_function` for all arguments that are given, whatever their number. |
| `ThreadLayout.MissingArgument` | piccolo/src/thread/thread.rs:669-677 | A missing argument of `call_function` is nil if and only if the stack slot it would have been in held nil or did not exist. |
| `ThreadLayout.StaleArgument` | piccolo/src/thread/thread.rs:669-677 | A call with one argument to a function of two parameters that sees a stale value as its second one. |
| `ThreadLayout.CallFunctionKeepLayout` | piccolo/src/thread/thread.rs:703-780 | The same for `call_function_keep`, which leaves the function and arguments of the caller in place. |
| `ThreadLayout.CallMetaFunctionLayout` | piccolo/src/thread/thread.rs:782-850 | The same for metamethods, called above all registers of the frame. |
| `ThreadLayout.TailCallLayout` | piccolo/src/thread/thread.rs:852-931 | The same for tail calls that do not panic, at the bottom of the frame that they replace. |
| `ThreadLayout.TailCallPanics` | piccolo/src/thread/thread.rs:898-910 | A tail call panics if and only if it passes fewer arguments than the closure has parameters and the parameters reach past the end of the stack. |
| `ThreadLayout.TailCallPanic` | piccolo/src/thread/thread.rs:898-910 | `return f()` in a chunk with two registers, where `f` has five parameters, panics. |
| `ThreadLayout.VarArgsReadBack` | piccolo/src/thread/thread.rs:517-557 | A callee reads back exactly the excess arguments of its call, in order, truncated or padded to the number it asks for, and nothing below the destination changes. |
| `ThreadLayout.ReturnToDelivers` | piccolo/src/thread/thread.rs:369-422 | Exactly the expected number of results is delivered, truncated or padded with nil, and the caller's lower registers stay. |
| `ThreadLayout.ReturnUpperDelivers` | piccolo/src/thread/thread.rs:933-1035 | The same for returned registers, delivered where the called function was. |
| `ThreadLayout.CallThenReturn` | piccolo/src/thread/thread.rs:630-1035 | A call followed by a return, whatever the callee did to its own registers: the results are at the function's slot and everything below is as before the call. |
| `ThreadResults.OutermostReturns` | piccolo/src/thread/thread.rs:1026-1031 | When a thread's outermost function returns, the thread's result is exactly the registers returned, and the thread is stopped and empty once it has been taken. |
| `ThreadResults.ReturnUpperGets` | piccolo/src/thread/thread.rs:933-1035 | Whatever waits below gets exactly the registers returned: a sequence above its untouched values, a Lua frame in the number it expects, a metamethod's caller in one register or as a test, nothing at all a result; open upvalues from the bottom on are closed. |
| `ThreadResults.ReturnToGets` | piccolo/src/thread/thread.rs:369-422 | The same for what a callback returns. |
| `ThreadResults.MetaGets` | piccolo/src/thread/thread.rs:397-413 | What a metamethod returns goes to its register alone, is thrown away, or skips the next instruction exactly if its truth is the expected one. |
| `ThreadResults.StartGets` | piccolo/src/thread/thread.rs:134-156 | A thread that is resumed for the first time calls its function with exactly the arguments, whether that is Lua code or a callback. |
| `ThreadResults.YieldedGets` | piccolo/src/thread/thread.rs:134-156 | A thread that is resumed where it yielded gets exactly the arguments there. |
| `ThreadResults.ResumedWithError` | piccolo/src/thread/thread.rs:158-168 | One that is resumed with an error has it in place of the frame it was suspended in. |
| `ThreadResults.PushCallCalls` | piccolo/src/thread/thread.rs:333-367 | A function called at a bottom has exactly the values above it as arguments; the frames and values below are untouched. |
| `ThreadResults.CallbackGets` | piccolo/src/thread/thread.rs:688-695 | A callback called from Lua code has exactly its arguments above its bottom, the function itself gone. |
| `ThreadResults.CallbackKeepGets` | piccolo/src/thread/thread.rs:764-773 | The same above the kept function and arguments. |
| `ThreadResults.CallbackMetaGets` | piccolo/src/thread/thread.rs:839-845 | The same for a metamethod that is a callback. |
| `ThreadResults.CallbackTailGets` | piccolo/src/thread/thread.rs:921-927 | The same for a callback that takes the place of the frame. |
| `ThreadResults.NothingCalled` | piccolo/src/thread/thread.rs:630-931 | Calling what cannot be called, in any of the four ways, is an error of the caller and changes no value. |
| `ThreadInvariant.ReturnToGood` | piccolo/src/thread/thread.rs:369-422 | Returning to waiting frames never panics and leaves a thread that can go on. |
| `ThreadInvariant.PushCallGood` | piccolo/src/thread/thread.rs:333-367 | Calling on top of waiting frames keeps the thread invariant. |
| `ThreadInvariant.ResumeGood` | piccolo/src/thread/thread.rs:134-156 | Resuming a suspended thread never panics and keeps the invariant. |
| `ThreadInvariant.ResumeErrGood` | piccolo/src/thread/thread.rs:158-168 | The same for resuming with an error. |
| `ThreadInvariant.TakeResultGood` | piccolo/src/thread/thread.rs:424-437 | Taking a result leaves a stopped or a suspended thread. |
| `LuaTurns.RunLuaGood` | piccolo/src/thread/executor.rs:397-415 | A turn of a Lua frame, whatever its instructions compute, keeps the invariant, and panics if and only if it ends with a tail call as in `TailCallPanics`. |
| `LuaTurns.ReturnsGood` | piccolo/src/thread/thread.rs:933-1035 | `return_upper` never panics on a good thread. |
| `LuaTurns.CallsMetaGood` | piccolo/src/thread/thread.rs:782-850 | Calling a metamethod never panics on a good thread. |
| `ThreadStates.ThreadState.PushCall` | piccolo/src/thread/thread.rs:333-367 | Inserting the function and rotating the arguments in place does what the layout lemmas describe. |
| `ThreadStates.ThreadState.VarArgs` | piccolo/src/thread/thread.rs:517-557 | Copying varargs in place, or the error when the frame's stack is variable. |
| `ThreadStates.ThreadState.CallFunction` | piccolo/src/thread/thread.rs:630-701 | The in-place call, or the error for a call that does not fit the frame's variable stack. |
| `ThreadStates.ThreadState.CallFunctionKeep` | piccolo/src/thread/thread.rs:703-780 | The same with the function and arguments copied up. |
| `ThreadStates.ThreadState.CallMetaFunction` | piccolo/src/thread/thread.rs:782-850 | The same for metamethods. |
| `ThreadStates.ThreadState.TailCallFunction` | piccolo/src/thread/thread.rs:852-931 | The same with the frame popped and the arguments moved down. |
| `ThreadStates.ThreadState.ReturnTo` | piccolo/src/thread/thread.rs:369-422 | The in-place return to the frame below. |
| `ThreadStates.ThreadState.ReturnUpper` | piccolo/src/thread/thread.rs:933-1035 | The in-place return of registers, which `ReturnUpperGets` is about; the frame is popped even when the count does not fit the variable stack. |
| `ThreadStates.ThreadState.TakeResult` | piccolo/src/thread/thread.rs:424-437 | Drains the result. |
| `UpValues.UpValueStack.Capture` | piccolo/src/thread/thread.rs:1049-1068 | One shared cell per captured slot, with the list kept strictly sorted; no cell reads differently. |
| `UpValues.UpValueStack.Close` | piccolo/src/thread/thread.rs:439-463 | No value read through any cell changes, and no open cell refers to a slot at or above the bottom. |
| `UpValues.UpValueStack.Get` | piccolo/src/thread/thread.rs:1070-1085 | A read through an upvalue of this thread gives its value, or fails the assertion if and only if it is open at or above the running frame. |
| `UpValues.UpValueStack.Write` | piccolo/src/thread/thread.rs:1087-1109 | A write through an upvalue is read back through it, and through no other, or fails the same assertion and changes nothing. |
| `UpValues.UpValueStack.WriteRegister` | piccolo/src/thread/thread.rs:1049-1068 | Closures see a write to a register that they captured, and no other. |
| `UpValues.UpValueStack.Leave` | piccolo/src/thread/thread.rs:933-960 | When a frame goes, every upvalue still reads as before. |
| `UpValues.UpValueStack.OneCellEach` | piccolo/src/thread/thread.rs:1049-1068 | Two different open cells refer to different slots. |
| `UpValueRuns.ClosesExactly` | piccolo/src/thread/thread.rs:439-463 | Returns, tail calls and closing operations close exactly the open cells from their bottom on; nothing else changes a cell, and a slot has one cell however often it is captured. |
| `UpValueRuns.UsesAreSafe` | piccolo/src/thread/thread.rs:1070-1109 | In every run of captures, calls, tail calls, closings, returns and uses whose calls begin above the open upvalues of the closure called, no such assertion fails, and the open upvalues of every function that runs or waits lie below its frame. |
| `UpValueRuns.ThreadsAreSafe` | piccolo/src/thread/thread.rs:1070-1109 | In particular in every such run of a thread from its first function on. |
| `UpValueRuns.CallDecides` | piccolo/src/thread/thread.rs:1070-1109 | The condition on a call is exact: all upvalues of the closure can be used right behind it if and only if it holds. |
| `UpValueRuns.AboveAll` | piccolo/src/thread/thread.rs:1070-1109 | A call above all open upvalues meets the condition, whatever the closure. |
| `ExecutorSafety.RunsAreSafe` | piccolo/src/thread/executor.rs:148-452 | In every state that any run reaches, under arbitrary callbacks, sequences, yields, resumes and errors, the invariant holds; the next round panics if and only if it ends with a tail call as in `TailCallPanics`, and says that all is done if and only if one thread is left that is not in `Normal` mode. |
| `ExecutorSafety.RoundSound` | piccolo/src/thread/executor.rs:151-445 | One round keeps the invariant: threads on the stack are distinct, all but the top one wait, frames under a call expect its results. |
| `ExecutorSafety.AnswerSound` | piccolo/src/thread/executor.rs:216-293 | So does every reply of a callback or a sequence. |
| `ExecutorSafety.SettleSound` | piccolo/src/thread/executor.rs:163-213 | A thread that has ended hands over to the one below it, which then runs. |
| `ExecutorSafety.SettleDelivers` | piccolo/src/thread/executor.rs:174-192 | That thread gets exactly the values returned or yielded, or the error, of the thread that has ended, in the number it expects. |
| `ExecutorRounds.WaitingGetsRegisters` | piccolo/src/thread/executor.rs:174-192 | When the outermost function of a resumed thread returns, the round behind that gives exactly the registers returned to the thread that waits. |
| `ExecutorRounds.SettleGets` | piccolo/src/thread/executor.rs:174-192 | Whatever values an ended thread has as its result, the waiting thread gets exactly those, and leaves the ended one behind. |
| `ExecutorRounds.RoundReturns` | piccolo/src/thread/executor.rs:223-225 | A callback that returns: the frame below gets exactly the values of its window. |
| `ExecutorRounds.RoundCalls` | piccolo/src/thread/executor.rs:259-268 | A callback that calls: the function is called with exactly those values, and the sequence it names waits at the same bottom, below the function. |
| `ExecutorRounds.SequenceHasValues` | piccolo/src/thread/executor.rs:259-268 | When the function called returns, that sequence has the next turn, above its untouched values and with exactly the registers returned. |
| `ExecutorRounds.SequenceHasError` | piccolo/src/thread/executor.rs:416-441 | When it fails, or any Lua function that it has called, that sequence has the next turn behind the unwinding, with exactly that error, and nothing below has changed. |
| `ExecutorRounds.RoundContinues` | piccolo/src/thread/executor.rs:226-232 | A callback that goes on as a sequence: the sequence waits at its bottom with all its values. |
| `ExecutorRounds.RoundFails` | piccolo/src/thread/executor.rs:343-346 | A callback that fails: its values go and the error stands above the frames below. |
| `ExecutorRounds.RoundYields` | piccolo/src/thread/executor.rs:233-257 | A callback that yields to nobody: its thread's result is exactly the values of its window, and behind that it is suspended above the sequence. |
| `ExecutorRounds.RoundYieldsTo` | piccolo/src/thread/executor.rs:233-257 | One that yields to a thread: its own values go, and the thread goes on in its place, or it has the error. |
| `ExecutorRounds.RoundResumes` | piccolo/src/thread/executor.rs:269-292 | One that resumes a thread: the same, but it waits below the other thread unless nothing is left to wait for. |
| `ExecutorRounds.HandsOverValues` | piccolo/src/thread/executor.rs:269-292 | In both cases a thread that has yielded gets exactly the values of the window. |
| `ExecutorRounds.HandsOverArguments` | piccolo/src/thread/executor.rs:269-292 | And one that starts has exactly these as its arguments. |
| `ExecutorRounds.RoundUnwinds` | piccolo/src/thread/executor.rs:416-441 | A round with an error takes one frame: a Lua frame with its values and upvalues, a sequence gets the error. |
| `ExecutorRounds.RoundSettles` | piccolo/src/thread/executor.rs:163-213 | A thread that no longer runs is settled and the thread below has its turn in the same round. |
| `ExecutorRounds.TurnReturns` | piccolo/src/thread/executor.rs:397-415 | A turn of Lua code that ends with a return hands over exactly the registers that the return names. |
| `ExecutorRounds.TurnCalls` | piccolo/src/thread/executor.rs:397-415 | One that ends with a call, of any of the three kinds, calls with the arguments it names and waits for what it expects. |
| `ExecutorRounds.TurnTailCalls` | piccolo/src/thread/executor.rs:397-415 | One that ends with a tail call leaves no frame of its own. |
| `ExecutorRounds.TurnEnds` | piccolo/src/thread/executor.rs:397-415 | One that just ends keeps its frame on top, and one that fails has the error above it. |
| `ExecutorSafety.TurnSound` | piccolo/src/thread/executor.rs:322-443 | The turn of the top thread keeps the invariant. |
| `ExecutorSafety.UnwindGood` | piccolo/src/thread/executor.rs:416-441 | An error unwinds one frame without a panic and leaves a thread that can go on. |
| `ExecutorSafety.InterfaceSound` | piccolo/src/thread/executor.rs:454-502 | `mode` always answers, and `take_result`, `resume` and `resume_err` never panic in their modes and lead to a state that runs can go on from. |
| `ExecutorRounds.ModeMeans` | piccolo/src/thread/executor.rs:121-138 | What the executor's mode says: normal if and only if a round is left to do, and otherwise whether the one thread left has a result to take, can be resumed, or is empty. |
| `ExecutorSafety.RunIsSound` | piccolo/src/thread/executor.rs:96-100 | An executor for one thread starts in a sound state. |
| `ExecutorSteps.SlicingIsTransparent` | piccolo/src/thread/executor.rs:148-155 | However a run is cut into steps with whatever fuel, after equally many rounds it is in the same state, and it halts after the same number of rounds. |
| `ExecutorSteps.StepIsBounded` | piccolo/src/thread/executor.rs:446-452 | When no callback adds fuel one step takes at most max(1, ceil(fuel / 4)) rounds. |
| `ExecutorSteps.StopsExactly` | piccolo/src/thread/executor.rs:446-452 | A step ends behind a round if and only if that round has left no fuel or has interrupted it. |
| `ExecutorSteps.RoundCosts` | piccolo/src/thread/executor.rs:320-452 | A round costs 4 units of fuel, one of a callback 12 and one of a sequence 8, besides what the code itself uses. |
| `ExecutorSteps.StepEnds` | piccolo/src/thread/executor.rs:446-452 | A step does not go on for ever. |
| `ExecutorSteps.StepIsSafe` | piccolo/src/thread/executor.rs:148-452 | A step of a sound executor does not panic; its `true` means that one thread is left and the mode is not `Normal`. |
| `ExecutorSteps.StepPlays` | piccolo/src/thread/executor.rs:148-452 | A step does nothing but a prefix of the rounds, and at least one unless the run has halted. |
| `ExecutorLoop.Executor.Step` | piccolo/src/thread/executor.rs:148-452 | The loop that updates threads, the thread stack and the fuel counter in place computes that step. |
| `ExecutorLoop.Executor.CallbackReturn` | piccolo/src/thread/executor.rs:216-293 | The method that pushes frames and threads for a reply computes the reply of the model. |
| `ExecutorLoop.Executor.Settling` | piccolo/src/thread/executor.rs:163-213 | Popping a stopped thread and passing on its result in place. |
| `FuelSpec.FrugalNeverAdds` | piccolo/src/fuel.rs:41-81 | Code that adds no fuel never raises the counter, which stays within 32 bits, nor clears an interrupt. |
| `FuelCounter.Counter.Refill` | piccolo/src/fuel.rs:35-39 | Refilling never exceeds the maximum, never takes fuel away below it, and clears the interrupt. |
| `FuelCounter.Counter.Consuming` | piccolo/src/fuel.rs:48-50 | Saturating consumption in place. |
| `RawTables.RawTable.Get` | piccolo/src/table/raw.rs:60-80 | Looks the canonical key up in the one map that array part and hash part stand for. |
| `RawTables.RawTable.Set` | piccolo/src/table/raw.rs:82-217 | Stores in that map, removes for nil, returns the previous value, or refuses nil and NaN keys and changes nothing; no hash key is ever in the range of the array part, which stays as long as it was or has at least the size of `GrowthSize`. |
| `RawTables.RawTable.Grow` | piccolo/src/table/raw.rs:120-195 | Growing the array part leaves the map as it is. The part stays as long as it was if the size of `GrowthSize` is not larger, and has at least that size otherwise. |
| `RawTables.RawTable.Migrate` | piccolo/src/table/raw.rs:179-188 | Exactly the keys in range have moved to the array part afterwards, and the map is unchanged. |
| `RawTables.RawTable.GrowthSize` | piccolo/src/table/raw.rs:125-167 | The size chosen depends on the keys of the map and the key that is set alone: it is the largest power of two more than half of which the array indices in use afterwards fill, unless the key is there already and tips a half-used size over; then it is the largest such size. |
| `RawTables.RawTable.Length` | piccolo/src/table/raw.rs:219-275 | Always returns a border, holes or not, with both loops terminating. |
| `RawTables.RawTable.Border` | piccolo/src/table/raw.rs:222-232 | So does the binary search between an entry and a missing one. |
| `RawTables.RawTable.Next` | piccolo/src/table/raw.rs:277-337 | Computes the successor in the order of the entries. |
| `RawTables.RawTable.Iterate` | piccolo/src/table/table.rs:177-189 | Iterating from nil collects exactly the entries. |
| `TableSizing.ChooseSize` | piccolo/src/table/raw.rs:154-167 | The loop over the counts by highest bit, which skips empty ones and stops early, chooses the largest size with a used upper half that is more than half used. |
| `TableSizing.ChosenIsOptimal` | piccolo/src/table/raw.rs:154-167 | For different candidates that is the largest power of two more than half of whose slots are in the set of candidates, or 0. |
| `TableSizing.GrowthIsOptimal` | piccolo/src/table/raw.rs:146-167 | The size chosen is optimal for the indices in use afterwards if and only if the key is new or tips nothing over. |
| `TableSizing.OneGrowthSize` | piccolo/src/table/raw.rs:154-167 | There is one such size for a set of indices and a key. |
| `TableSizing.ChosenTwice` | piccolo/src/table/raw.rs:146-167 | With a key counted twice, because it is in the hash part already, it is so if and only if counting the key once more tips no larger half-used size over, and otherwise the size is the largest one that tips over. |
| `RawTables.GrowsTooFar` | piccolo/src/table/raw.rs:120-195 | A table with the keys 1, 3 and `true` in a hash part for three, which is full: when 3 is set again the array part grows to four slots or more with two used, and one slot would be optimal. |
| `TableSizing.CountBelowBits` | piccolo/src/table/raw.rs:463-465 | Candidates below a power of two are counted exactly by their highest bits. |
| `Tables.MoveToArray` | piccolo/src/table/raw.rs:180-188 | Moving one key from the hash part to its empty array slot leaves the map. |
| `Tables.CanonicalAgain` | piccolo/src/table/raw.rs:350-366 | Canonical keys are canonical, and a positive integer key has its array index. |
| `Tables.NextFollows` | piccolo/src/table/raw.rs:277-337 | From any entry `next` leads to the one behind it, and from the last one to the end, by any key that is the same canonically. |
| `Tables.VisitsInOrder` | piccolo/src/table/table.rs:177-189 | The n-th step from nil finds the n-th entry, and the step behind the last one reports the end, never a missing key. |
| `Tables.EntriesDiffer` | piccolo/src/table/raw.rs:277-337 | No key is visited twice. |
| `Tables.EntriesComplete` | piccolo/src/table/raw.rs:277-337 | Every key of the table is visited, with its value. |
| `Tables.NextNotFound` | piccolo/src/table/raw.rs:277-337 | A key without an entry is reported as not found, unless it is the index of a nil array slot with an element behind it. |
| `PrintParse.RoundTrip` | piccolo/src/compiler/parser.rs:708-737 | Parsing a printed tree gives the tree back and stops right behind it if and only if the tree obeys the priority table, is not nested too deeply and is followed by tokens that cannot belong to it. |
| `ParsePrint.SubPrints` | piccolo/src/compiler/parser.rs:708-737 | Printing a parsed tree gives back exactly the tokens consumed; the tree obeys the priority table. |
| `PrintParse.PrintedOnce` | piccolo/src/compiler/parser.rs:1156-1180 | Two trees that obey the table and print the same are the same. |
| `PrintParse.TooDeepFails` | piccolo/src/compiler/parser.rs:993-1002 | A tree nested more deeply than the recursion guards allow does not parse. |
| `OperatorLevels.TwoOperators` | piccolo/src/compiler/parser.rs:708-737 | What `a op b op c` is read as, for every two operators: the one of the higher level in the manual's list takes the middle operand, of the same level the left one unless it is right associative; with the code's table `~=` has the level of `+`. |
| `OperatorLevels.UnaryFirst` | piccolo/src/compiler/parser.rs:708-737 | A unary operator in front of a binary one applies to the first operand alone unless the binary one is `^`. |
| `OperatorLevels.UnarySecond` | piccolo/src/compiler/parser.rs:708-737 | Behind a binary operator it takes a `^` with it, and leaves every other operator to the two binary ones. |
| `OperatorLevels.BindsByLevel` | piccolo/src/compiler/parser.rs:1156-1180 | The priorities of the table are those levels, for every two operators and against the unary ones. |
| `OperatorLevels.SpellingsAre` | piccolo/src/compiler/parser.rs:1183-1219 | Each operator is read from its own token. |
| `PriorityTables.ReadAlike` | piccolo/src/compiler/parser.rs:1156-1180 | Tokens that the code's table parses are read as the same tree with the manual's table if and only if no `~=` in the tree stands next to an operator between their two priorities for it. |
| `PriorityTables.InnerAlike` | piccolo/src/compiler/parser.rs:1156-1180 | A tree that obeys the code's table obeys the manual's under the same condition. |
| `PriorityTables.DisputedIs` | piccolo/src/compiler/parser.rs:1171 | Two neighbouring operators are such a pair if and only if the tables disagree on whether the second one belongs to the right operand of the first: `~=` before `..`, a shift, `&`, `~`, `|`, `+` or `-`, and another comparison or one of those but `+` and `-` before `~=`. |
| `PriorityTables.PlainSubAlike` | piccolo/src/compiler/parser.rs:708-737 | Tokens without `~=` parse the same with both tables, errors included. |
| `PriorityTables.NotEqualBindsLikeAdd` | piccolo/src/compiler/parser.rs:1171 | `a ~= b + c` is parsed as `(a ~= b) + c` with the code's table and as `a ~= (b + c)` with the manual's. |
| `PrintParse.SuffixesParse` | piccolo/src/compiler/parser.rs:885-903 | Suffix chains of calls, fields and methods parse back to themselves. |
| `ParsePrint.TailPrints` | piccolo/src/compiler/parser.rs:721-731 | The operator loop consumes exactly the operators that bind tighter than its limit. |
| `Parsers.Parser.ParseSubExpression` | piccolo/src/compiler/parser.rs:708-737 | The method that consumes the read buffer computes that parse, error for error, and leaves exactly the remaining tokens. |
| `Parsers.Parser.ParseTail` | piccolo/src/compiler/parser.rs:721-731 | The same for its loop over operators. |
| `Parsers.Parser.ParseSimpleExpression` | piccolo/src/compiler/parser.rs:739-773 | The same for literals and suffixed expressions. |
| `Parsers.Parser.ParseExpressionList` | piccolo/src/compiler/parser.rs:698-706 | The same for argument lists. |
| `Parsers.Parser.LookAhead` | piccolo/src/compiler/parser.rs:1105-1145 | Looking ahead reads into the buffer and loses no token. |
| `Parsers.Parser.TakeNext` | piccolo/src/compiler/parser.rs:1092-1103 | Takes the first token off. |
| `Hexes.RingIsExact` | src/coords.rs:84-107 | A ring holds exactly the hexes of the centre's plane at that distance. |
| `Hexes.RingIsDistinct` | src/coords.rs:84-107 | It holds each of them once: 6r, or 1 for radius 0. |
| `Hexes.SpiralIsExact` | src/coords.rs:109-111 | A spiral holds exactly the hexes within that distance. |
| `Hexes.SpiralIsDistinct` | src/coords.rs:182-184 | Each once: 1 + 3r(r + 1). |
| `Hexes.RingIterator.Next` | src/coords.rs:84-107 | The closure that moves its position and counters yields the ring's hexes one by one, and then no more. |
| `Hexes.CollectRing` | src/coords.rs:84-107 | Exhausting the iterator gives the ring. |
| `Hexes.CollectSpiral` | src/coords.rs:109-111 | The rings one after another give the spiral. |
| `Hexes.Rotate` | src/coords.rs:53-66 | The rotating loop makes as many sixth turns as it is told, but none for -128, whose negation in 8 bits is itself. |
| `Hexes.LeastTurn` | src/coords.rs:53-66 | No turn is right for -128 if and only if all three coordinates are equal, as for the origin. |
| `Hexes.TurnsAdd` | src/coords.rs:47-66 | Turns add up, so that turning back undoes a turn. |
| `Hexes.FullTurn` | src/coords.rs:47-66 | Six sixths are no turn. |
| `Hexes.DirectionsTurn` | src/coords.rs:47-52 | A turn to the right takes each of the six directions to the one before it, and a turn to the left undoes that. |
| `Hexes.SidesTurn` | src/coords.rs:47-52 | The same of the sides of a ring around the origin, hex by hex. |
| `Hexes.TurnsKeepDistance` | src/coords.rs:67-72 | Turning both of two hexes keeps their distance. |
| `SpatialIndex.AddAgrees` | src/map.rs:223-227 | After adding an entity a resolution is right if and only if the entity was not there or stays in its cell. |
| `SpatialIndex.AddedTwice` | src/map.rs:223-227 | An entity that is added in two different cells is listed in both. |
| `SpatialIndex.RemoveAgrees` | src/map.rs:235-238 | Removing an entity from the cell of its recorded coordinates removes every listing of it. |
| `SpatialIndex.MoveAgrees` | src/map.rs:250-268 | Moving it only between cells that differ leaves it listed exactly once, in the new cell. |
| `SpatialIndex.Radii` | src/map.rs:84-96 | Resolution 0 has single hexes, resolution 1 the configured radius, and each further one twice the radius of the one before. |
| `SpatialIndex.Entities.IterAt` | src/map.rs:193-199 | A cell lists an entity exactly once if its recorded coordinates lower to the cell, and otherwise not at all. |
| `SpatialIndex.Entities.AddEntity` | src/map.rs:229-234 | Keeps that at all resolutions exactly for an entity that is new or stays in all its cells. |
| `SpatialIndex.Entities.RemoveEntity` | src/map.rs:240-249 | Keeps it always, and returns the recorded transform. |
| `SpatialIndex.Entities.MoveEntity` | src/map.rs:250-268 | Keeps it always, for an entity that is not there too. |
| `SpatialIndex.Maps.MoveEntity` | src/map.rs:289-305 | A move within or between maps changes only the two maps and only for that entity, and keeps all maps right if and only if the entity is not on the goal map already in other cells. |

## Left out

Compiler and virtual machine:

- Values, strings and floats: floats are an abstract type whose operations are the fields of a record, so that nothing is claimed of rounding; strings are sequences of characters.
- The bits that shift and bit operators compute are abstract, as is the conversion between strings and numbers.
- Arithmetic.Modulo: `math.mininteger % -1` panics in the source, for the remainder of that division overflows; here it is 0.
- Additions and negations of machine integers wrap, as they do without overflow checks; with them the source panics there: the `for` loop operation, the end of a pushed block of registers, a rotation by -128.
- Compiled programs have locals, globals, blocks, `if`, `while`, `repeat`, numeric `for`, `break`, `return` and expressions without calls. Calls, closures, tables, varargs, generic `for`, `goto` and concatenation are not in the compiled fragment: the calling convention, upvalues, jumps and name resolution are modelled apart from it.
- `local` with several values and assignment to several targets: the source declares or assigns each name before it compiles the next value. The model has one value and one target; a `local` may have several names, the others nil.
- A user variable named `_ENV` is refused in the compiled fragment; `Scopes` covers the name.
- Blocks: the extra inner block that the source opens around statements before trailing labels is not in the compiled fragment. What it matters for there, a `break` out of a `while` loop whose body has no such block because it ends in `return`, is a condition on the program, as `FragmentBreaks` shows. Line numbers are left out.
- AllocatorSpec.PushOk: a block of registers that would end exactly at register 256 is refused in compiled programs, where the source goes on with a broken allocator as `RegisterAllocation.RegisterAllocator.Push` says; the register spilling of concatenations is left out.
- StatementCompilers.StatementCompiler.JumpTarget: in this class labels of loops and `if` statements are found by position, and jumps over one block that have a label of their own are filled in directly; blocks forget their variables by count. `JumpTables` and `ScopeBlocks` have the source's lists, stack bottoms and searches.
- StatementCompilers.StatementCompiler.ForStatement: the two blocks around a `for` body and the check that the placeholder is one are not separate steps.
- Acceptance.ChunkAccepted: the bounds are sufficient; programs above them may be compiled too, as constants fold and globals share their constants.
- StatementCompilers.StatementCompiler.Chunk: nested prototypes and the encoding of operations are left out.
- VirtualMachines.VirtualMachine.RunVm: runs the operations of the compiled fragment; the others are turns of `LuaTurns`.

Jumps and names:

- JumpClosing.NoneBehindBlock: code that jumps is not run here; what jumps close is said by `JumpClosing.JumpBack` and `JumpTheorems.FinishedJumps`.
- JumpTheorems.FinishedJumps: says of backward jumps only where they lead; what they close is said by `JumpClosing.JumpBack`.
- JumpPanics.FunctionPanics: expressions are there as far as they use temporary registers, labels of their own and variables of outer functions; the functions inside a function are compiled apart from it. A `return` in the body of a `repeat` is part of the work of its condition.
- JumpTables.JumpTable.JumpTarget: the methods are called only where no assertion fails; what the source does at a failed assertion is not modelled.
- ScopeRuns.ScopingIsLexical: function prototypes are lists of upvalue descriptors; parsing and compiling their bodies are events.

Threads and the executor:

- ThreadLayout.CallFunctionLayout: says nothing of missing arguments, of which `MissingArgument` says all there is.
- ThreadStates.ThreadState.ReturnUpper: the methods of `ThreadState` are called only where the source does not panic.
- LuaTurns.RunLuaGood: what instructions compute is any change of the frame's own registers and of slots that open upvalues refer to, with the operands that compiled code has; bytecode with registers or constants out of range is left out.
- ExecutorSafety.RunsAreSafe: callbacks use their own part of the stack, change other threads only as the interface allows and refer to threads that exist; a thread that is changed while it waits, and a thread that two executors share, are left out.
- ExecutorLoop.Executor.Step: threads are values in a map by identity, so that borrowing the same thread twice is modelled by a comparison of identities.
- UpValueRuns.UsesAreSafe: that compiled code calls a closure above all variables it has captured, which is what `UpValueRuns.AboveAll` asks for, is not derived from the compiler; upvalues of other threads are used without an assertion and are left out.
- Garbage collection, finalizers, weak references and the error values of Lua are left out; errors are opaque.

Tables:

- RawTables.RawTable.Set: the hash part is a map, whether it is full is any boolean and the capacity of a grown array is any number that is enough; tables are smaller than half an address space.
- RawTables.RawTable.Next: the order of the hash part is any sequence of its buckets; what `next` does after the table has been changed is unspecified in the source.
- Tables.CanonicalAgain: which floats are integers is a parameter; a float of 2^63 is whatever the source's conversion says.
- Metatables are left out.

Parser:

- PrintParse.RoundTrip: table constructors and function bodies are not in the expressions; a string argument without parentheses is a tree of its own.
- Parsers.Parser.LookAhead: the lexer is a list of tokens, without lexical errors; the read buffer is there.
- Statements are left out: each is parsed by its first token.

Hexes and maps:

- Hexes.RingIsExact: coordinates are unbounded integers, so overflow far from the origin is left out; directions as angles and drawing are too.
- SpatialIndex.Entities.IterAt: how coordinates lower to a resolution is the library's function, a parameter; the radius does not overflow; that `find_within` covers its radius depends on that function and is left out.
- SpatialIndex.Maps.MoveEntity: the maps are different objects.
- Observers, networking, accounts, rendering, save files and the standard library are left out.
