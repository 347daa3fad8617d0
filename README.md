# Stack machine in Dafny

A model of `stack.py`, a small sequential stack-machine interpreter. It has three parts:

- **Bounded stack** (`stack.dfy`, module `BoundedStack`): a LIFO of integers whose capacity is fixed
  when it is built. Building it with more initial elements than the capacity raises. A push onto a
  full stack is discarded, and a pop from an empty stack returns no value. The pure functions
  `Pushed` and `Popped` describe a push and a pop. The class `Stack` mutates a `seq<int>` field and
  is proved against those functions.
- **Instructions** (`instructions.dfy`, module `Instructions`): the thirteen opcodes, an
  instruction as an opcode plus an optional operand, and the validating constructor
  `NewInstruction`. The constructor returns a `Result` where the source raises. It rejects an
  unknown name. It also rejects an operand given to a name that does not contain the substring
  "loadcon"; that substring test is modelled literally by `Contains`.
- **Machine semantics** (`semantics.dfy`, module `Semantics`): the machine state as a value. The
  state holds the stack contents, the capacity, the program counter and the values written so far.
  - There is one function per opcode, built from the same pops and pushes as the source. Each has
    an effect lemma (`AddEffect` for `AddOp`, and so on) that states its result directly.
  - `Fetch` models Python indexing. A counter above the last index ends the run. A counter from
    `-len` to `-1` indexes from the end. A counter below `-len` is an index error.
  - `Step` executes the fetched instruction, then adds 1 to the counter. A branch therefore lands
    at `pc + offset + 1`.
  - `Run` is the loop, bounded by fuel.
- **Executing machine** (`machine.dfy`, module `Machine`): the class `StackMachine`. It owns a
  `Stack`, holds the program, and has a mutable program counter and output. It has one method per
  opcode, each proved equal to the matching `Semantics` function. `Execute` dispatches with an
  exhaustive `match`, and `Run` is the `while` loop, proved to end as `Semantics.Run` says.
- **Programs** (`programs.dfy`, module `Programs`): whole programs run through `Semantics.Run`.
  - The demo program of the entry point (`loadcon 2, loadcon 3, negate, add, write`) writes
    exactly `-1` and empties the stack. So does the class-based machine (`RunDemo`).
  - The absolute-value program that is commented out in the entry point writes `|n|` for every `n`.
  - Two branching programs, a branch that raises an index error, and a loop that never halts.

`TRUE` and `FALSE` are the integers 1 and 0. Python integers are unbounded and so is Dafny's `int`.

Two consequences of the loop and the branch arithmetic, proved about the model:

- `[loadcon 1, loadcon 2, br, write, write]` fires no `write`. The `br` pops 2 at counter 2, and the
  increment after it lands the counter at 5, past the end (`BranchByTwoSkipsBothWrites`). An
  offset of 1 skips exactly one `write` (`BranchByOneSkipsOneWrite`).
- A negative counter does not end the run. The loop stops only when the counter exceeds the last
  index. A counter from `-len` to `-1` fetches from the end of the program, so
  `[loadcon -3, br, write]` never halts (`SpinNeverHalts`). A lower counter makes the fetch raise
  an index error (`FarBackwardBranchRaises`).

An instruction holds its opcode in `op`; `Instruction.Name` is `get_instruction_name`, and the
`value` field is what `get_instruction_value` returns.

## Model

| member | source | states |
|---|---|---|
| `Instructions.OpcodeOf` | stack.py:13-26 | a name denotes an opcode exactly when it is one of the 13 accepted names, and that opcode's mnemonic is the name |
| `Instructions.MnemonicRoundTrip` | stack.py:13-26 | every opcode's mnemonic is an accepted name and maps back to the same opcode |
| `Instructions.Contains` | stack.py:79 | `s` contains `sub` exactly when `sub` is a prefix of some suffix of `s`, which is Python's `in` on strings |
| `Instructions.OccursInTail` | stack.py:79 | when `sub` is not a prefix of `s`, it occurs in `s` exactly when it occurs in `s` without its first character |
| `Instructions.ShorterDoesNotContain` | stack.py:79 | a string shorter than the searched-for substring does not contain it |
| `Instructions.LoadconOnlyInLoadcon` | stack.py:79 | among the 13 names, only "loadcon" contains the substring "loadcon", so the substring test picks out exactly the `loadcon` opcode |
| `Instructions.NewInstruction` | stack.py:66-80 | an unknown name fails with an invalid-instruction error; a known name other than loadcon with an operand fails with an unexpected-value error; every other combination succeeds, keeping the name and the operand, and no opcode other than loadcon then carries an operand |
| `Instructions.Instruction.Name` | stack.py:82-83 | an instruction's name is one of the 13 accepted names, and it denotes the instruction's own opcode |
| `Instructions.LoadconWithoutValueAccepted` | stack.py:73-80 | `loadcon` without an operand is accepted by the constructor, and such an instruction has no operand to push |
| `BoundedStack.PushedOnTop` | stack.py:49-53 | a push keeps every element in place and adds at most one; it adds one exactly when the stack is below its limit, and the added element is `elem` |
| `BoundedStack.PoppedTakesTop` | stack.py:44-47 | a pop yields no value exactly on an empty stack, which it leaves unchanged; otherwise putting the popped value back on the rest gives the original contents |
| `BoundedStack.PushPopWithinLimit` | stack.py:44-53 | a push and a pop both keep the size within the limit |
| `BoundedStack.PushThenPop` | stack.py:44-53 | on a stack that is not full, a push of `x` and then a pop returns `x` and restores the original contents |
| `BoundedStack.PushAllWithinCapacity` | stack.py:49-53 | pushes that fit all land, in order: the contents become the old contents followed by the pushed values |
| `BoundedStack.PushAllBounded` | stack.py:49-53 | any sequence of pushes keeps the size within the limit and leaves every earlier element in place |
| `BoundedStack.Stack.constructor` | stack.py:33-39 | a stack built from contents that fit holds exactly those contents and that limit, within the limit |
| `BoundedStack.Stack.Create` | stack.py:33-39 | building fails exactly when the initial contents are longer than the limit (so always for a negative limit); otherwise the new stack holds them |
| `BoundedStack.Stack.Pop` | stack.py:44-47 | an empty stack returns `None` and stays empty; otherwise the top element is returned and only it is removed; the size stays within the limit |
| `BoundedStack.Stack.Push` | stack.py:49-53 | a full stack is left unchanged; otherwise exactly `elem` is appended on top; the size stays within the limit |
| `BoundedStack.Stack.Len` | stack.py:55-56 | the length is the number of elements and at most the limit |
| `Semantics.Initial` | stack.py:94-98 | a new machine has an empty stack, counter 0 and no output, within its capacity |
| `Semantics.LoadconEffect` | stack.py:166-167 | `loadcon v` appends `v` when the stack is not full and changes nothing when it is full |
| `Semantics.BrEffect` | stack.py:169-176 | `br` pops an offset and adds it to the counter; on an empty stack nothing changes |
| `Semantics.BrFalseEffect` | stack.py:178-187 | `br_false` pops an offset and a condition, and adds the offset unless the condition is 1, consuming both values either way; with fewer than two values nothing changes |
| `Semantics.AddEffect` | stack.py:189-198 | `add` replaces the two top values by their sum; the push never hits the full-stack path; with fewer than two values nothing changes |
| `Semantics.NegateEffect` | stack.py:200-205 | `negate` replaces the top value by its negation; on an empty stack nothing changes |
| `Semantics.EqualEffect` | stack.py:207-216 | `equal` replaces the two top values by 1 if they are equal and by 0 otherwise; with fewer than two values nothing changes |
| `Semantics.LessEffect` | stack.py:218-227 | `less` replaces the two top values by 1 exactly when the second from the top is less than the top, and by 0 otherwise; with fewer than two values nothing changes |
| `Semantics.SwapEffect` | stack.py:229-236 | `swap` exchanges the two top values; with fewer than two values nothing changes |
| `Semantics.MpyEffect` | stack.py:238-247 | `mpy` replaces the two top values by their product; with fewer than two values nothing changes |
| `Semantics.ZeroEffect` | stack.py:249-250 | `zero` appends 0 when the stack is not full and changes nothing when it is full |
| `Semantics.OneEffect` | stack.py:252-253 | `one` appends 1 when the stack is not full and changes nothing when it is full |
| `Semantics.WriteEffect` | stack.py:255-261 | `write` removes the top value and appends it to the output; on an empty stack nothing changes |
| `Semantics.DupEffect` | stack.py:263-270 | `dup` copies the top value, except that on a full stack it changes nothing because the second push is discarded; on an empty stack nothing changes |
| `Semantics.Exec` | stack.py:154-159 | executing an instruction keeps the stack within its capacity, keeps the capacity, only appends to the output, and leaves the counter alone unless it is a branch |
| `Semantics.Step` | stack.py:154-162 | a step keeps the stack within its capacity, keeps the capacity and only appends to the output |
| `Semantics.Fetch` | stack.py:147-150 | the fetch ends the run exactly when the counter exceeds the last index; it is an index error exactly below minus the length; in between it returns the instruction at the counter, indexed from the end when the counter is negative, and that instruction has its operand in an executable program |
| `Semantics.Run` | stack.py:143-164 | a run halts exactly with the counter past the last index, and raises an index error exactly with the counter below minus the length; the stack stays within its capacity and output is only appended |
| `Semantics.StepAdvancesCounter` | stack.py:162-187 | after every instruction the counter grows by exactly 1, except `br` with an offset on the stack and `br_false` with a condition other than 1, which land at counter + offset + 1 |
| `Semantics.UnderflowIsNoOp` | stack.py:169-270 | an instruction with fewer values than its opcode needs (2 for add, mpy, equal, less, swap and br_false; 1 for negate, dup, write and br) leaves stack and output unchanged and only advances the counter |
| `Semantics.SwapTwice` | stack.py:229-236 | swapping twice restores the state |
| `Semantics.RunPastEnd` | stack.py:147-148 | a run whose counter is past the last index halts at once, in that state |
| `Semantics.RunBeforeStart` | stack.py:147-150 | a run whose counter is below minus the length stops at once with an index error |
| `Semantics.RunNoFuel` | stack.py:146-150 | at a fetchable counter, a run with no fuel left stops where it is |
| `Semantics.RunAdvances` | stack.py:146-162 | with fuel left, a run executes the fetched instruction and continues from the state that instruction leaves |
| `Semantics.TraceTail` | stack.py:146-162 | dropping the first state of a chain of fetch-and-step transitions leaves such a chain |
| `Semantics.RunFollowsTrace` | stack.py:146-162 | a run with enough fuel passes through every state of a chain of fetch-and-step transitions, and continues from the last one |
| `Semantics.RunMoreFuel` | stack.py:146-150 | a run that halted or raised within some fuel ends identically with any more fuel |
| `Machine.StackMachine.constructor` | stack.py:94-98 | a new machine owns a fresh empty stack of the given capacity, with counter 0 and no output |
| `Machine.StackMachine.Create` | stack.py:94-98 | building a machine fails exactly when the capacity is negative (its stack cannot be built); otherwise it is in the initial state |
| `Machine.StackMachine.Loadcon` | stack.py:166-167 | the machine's new state is that of `Semantics.LoadconOp` on its old state |
| `Machine.StackMachine.Br` | stack.py:169-176 | the machine's new state is that of `Semantics.BrOp` on its old state |
| `Machine.StackMachine.BrFalse` | stack.py:178-187 | the machine's new state is that of `Semantics.BrFalseOp` on its old state |
| `Machine.StackMachine.Add` | stack.py:189-198 | the machine's new state is that of `Semantics.AddOp` on its old state |
| `Machine.StackMachine.Negate` | stack.py:200-205 | the machine's new state is that of `Semantics.NegateOp` on its old state |
| `Machine.StackMachine.Equal` | stack.py:207-216 | the machine's new state is that of `Semantics.EqualOp` on its old state |
| `Machine.StackMachine.Less` | stack.py:218-227 | the machine's new state is that of `Semantics.LessOp` on its old state |
| `Machine.StackMachine.Swap` | stack.py:229-236 | the machine's new state is that of `Semantics.SwapOp` on its old state |
| `Machine.StackMachine.Mpy` | stack.py:238-247 | the machine's new state is that of `Semantics.MpyOp` on its old state |
| `Machine.StackMachine.Zero` | stack.py:249-250 | the machine's new state is that of `Semantics.ZeroOp` on its old state |
| `Machine.StackMachine.One` | stack.py:252-253 | the machine's new state is that of `Semantics.OneOp` on its old state |
| `Machine.StackMachine.Write` | stack.py:255-261 | the machine's new state is that of `Semantics.WriteOp` on its old state |
| `Machine.StackMachine.Dup` | stack.py:263-270 | the machine's new state is that of `Semantics.DupOp` on its old state |
| `Machine.StackMachine.Execute` | stack.py:154-159 | dispatching an instruction changes the machine as `Semantics.Exec` says |
| `Machine.StackMachine.Advance` | stack.py:154-162 | executing an instruction and then incrementing the counter changes the machine as `Semantics.Step` says |
| `Machine.StackMachine.Cycle` | stack.py:146-162 | one pass of the loop either ends the run with the status and state `Semantics.Run` gives, or executes one instruction after which the run continues as `Semantics.Run` with one unit of fuel less |
| `Machine.StackMachine.Run` | stack.py:143-164 | the loop ends with the status and the state that `Semantics.Run` gives from the machine's starting state |
| `Programs.DemoStep` | stack.py:297 | each instruction of the demo program takes its state to the next one |
| `Programs.DemoIsTrace` | stack.py:297 | the demo's states form a chain of fetch-and-step transitions |
| `Programs.DemoWritesMinusOne` | stack.py:297-301 | on any capacity of at least 2 the demo program halts having written exactly `-1`, with an empty stack |
| `Programs.RunDemo` | stack.py:297-301 | the class-based machine of default capacity runs the demo and ends having written `[-1]` with an empty stack |
| `Programs.SkipStep` | stack.py:169-176 | each of the first three instructions of `[loadcon 1, loadcon offset, br, write, write]` takes its state to the next one |
| `Programs.SkipBranches` | stack.py:169-176 | after those three instructions the stack holds 1 and the counter is `3 + offset` |
| `Programs.BranchByTwoSkipsBothWrites` | stack.py:169-176 | with offset 2 the program halts without any `write`, leaving 1 on the stack |
| `Programs.BranchByOneSkipsOneWrite` | stack.py:169-176 | with offset 1 exactly one `write` fires, writing 1 |
| `Programs.AbsolutePrefixStep` | stack.py:295 | each of the first five instructions of the absolute-value program takes its state to the next one |
| `Programs.AbsoluteRestStep` | stack.py:295 | each remaining step does too, on the path that `br_false` selects for the sign of `n` |
| `Programs.AbsolutePrefixRuns` | stack.py:295 | the first five instructions leave `n`, the flag for `n < 0`, and the offset 3 on the stack |
| `Programs.AbsoluteRestRuns` | stack.py:295 | from there the run halts having written the absolute value of `n` |
| `Programs.AbsoluteWritesAbs` | stack.py:295 | for every `n`, on a capacity of at least 3, the absolute-value program halts having written exactly the absolute value of `n`, with an empty stack |
| `Programs.FarBackwardBranchRaises` | stack.py:147-148 | a branch to a counter below minus the program's length ends the run with an index error |
| `Programs.SpinStep` | stack.py:146-162 | each instruction of `[loadcon -3, br, write]` takes its state to the next one, the last one fetched at counter -1 from the end |
| `Programs.SpinIsTrace` | stack.py:146-162 | `[loadcon -3, br, write]` goes from its initial state back to that state in three steps, through counter -1 |
| `Programs.SpinNeverHalts` | stack.py:146-162 | that program never halts: whatever the fuel, the run is cut off by the fuel |

## Left out

- Console presentation is not modelled: `display`, every `__str__` and `__repr__`, and the message printed when a push is discarded. They do not affect state.
- The `logging` setup and the `logging.info` calls are not modelled. They do not affect state.
- `write` prints its value. The model appends the value to an output sequence instead.
- `convert_list_to_instructions` is not part of this model. It parses text with Python's `str.split`, `str.lower` and `int()`. The demo and absolute-value programs are given directly as instruction sequences.
- `main` and its `input()` call are not modelled. Its demo program appears only in `DemoWritesMinusOne` and `RunDemo`.
- `getattr` dispatch by name is not modelled as reflection. It is replaced by an exhaustive `match` over the opcode.
- `get_stack_elements` and `get_value_stack` are not modelled. They hand out the internal list and stack. `get_stack_elements` is called only by `display`, and `get_value_stack` is called nowhere. The aliasing they allow is therefore not modelled.
- Semantics.Run: the source loop can run forever. The model bounds each run by fuel, and a run that uses up its fuel ends with status `OutOfFuel`. `RunMoreFuel` shows that a run which halted or raised ends the same way with more fuel.
- Machine.StackMachine.Run: takes the same fuel bound as `Semantics.Run`.
- Executing a `loadcon` that has no operand is excluded. The constructor accepts such an instruction (`LoadconWithoutValueAccepted`), and Python would push `None`. The model's `Run` and `Execute` require every `loadcon` to carry its operand.
- Stack elements are integers only. In Python, `None` or values of other types could be pushed through an operand-less `loadcon` or by direct use of `Stack`.
- Machine.StackMachine.constructor: requires a non-negative capacity. The source raises from the stack constructor for a negative capacity, and `Create` models that error path.
