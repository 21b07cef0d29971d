# my-compiler: the stack VM and the builtin functions, in Dafny

This project models two parts of the Monkey-language toolchain `my-compiler`:

* **The bytecode virtual machine** (`vm/vm.go`). A machine holds the bytecode's
  instruction stream and constant pool. It also has an operand stack of
  `StackSize = 2048` slots and a stack pointer `sp`, which always names the next
  free slot. `Run` fetches one opcode at a time. `OpConstant` reads a 2-byte
  big-endian pool index and pushes that constant. `OpAdd` pops two Integers and
  pushes their 64-bit sum. Any other opcode is skipped.
  In `vm.dfy` the machine is a `class VM` with an `array` stack and a mutable
  `sp`. Its methods are proved against a value-level meaning: the `Stack`
  datatype and the functions `Step` and `Exec`. `Run`'s loop invariant says that
  the rest of the run, from the current `ip` and stack, is `Exec` of the whole
  program from the starting stack.
* **The builtin table of the evaluator** (`evaluator/builtins.go`). It holds
  `len`, `first`, `last`, `rest`, `push`, `pop` and `string_join`. Each builtin
  checks its argument count, then its argument types, and returns an object.
  Failures come back as Error objects. In `builtins.dfy` the builtins are pure
  functions over `Object`. `string_join` copies the element texts into a fresh
  array in a loop, so it is also a method with a loop invariant, proved equal
  to a specification function.

Supporting modules:

* `ints.dfy` has Go's `byte` and `int64` and the two's-complement wrap-around `Wrap64`.
* `objects.dfy` has the object model and the facts an Error message carries.
* `code.dfy` has the two opcodes and the 16-bit operand encoding.
* `wrappers.dfy` has `Option` and `Outcome`.

Go panics are modelled as outcomes. `Run` returns `Panicked(...)` for each panic
the loop can reach. Reported Go errors become `Failed(StackOverflow)` and
`Failed(StackEmpty)`.

## Model

| member | source | states |
|---|---|---|
| Ints.Wrap64 | vm/vm.go:62 | the result is congruent to the exact value modulo 2^64, and equals it when it lies in the int64 range (Go's wrapping int64 addition) |
| Code.ReadUint16 | vm/vm.go:44 | the operand is below 2^16; its high byte is the first byte and its low byte the second (big-endian) |
| Code.PutUint16 | vm/vm.go:44 | encoding a 16-bit value gives two bytes that ReadUint16 decodes back to the value |
| Code.PutReadUint16 | vm/vm.go:44 | decoding two bytes and encoding again gives the same two bytes, so the encoding is a bijection |
| Code.MakeConstant | vm/vm.go:43-45 | an OpConstant instruction is three bytes: the opcode, then an operand that decodes to the index |
| Objects.TypeIsVariant | evaluator/builtins.go:31 | two objects have the same type tag exactly when they are the same variant, so comparing `Type()` to ARRAY_OBJ is a variant test |
| Vm.Stack.Push | vm/vm.go:69-78 | push fails with a stack overflow exactly when sp >= StackSize; otherwise it stores obj at slot sp, leaves every other slot alone, and makes sp one larger and the contents `old contents + [obj]` |
| Vm.Stack.Pop | vm/vm.go:80-90 | pop fails with "stack is empty" exactly when sp == 0; otherwise it keeps every slot, makes sp one smaller, and the old contents are the new contents followed by the returned value |
| Vm.EmptyStack | vm/vm.go:25-26 | the starting stack has StackSize slots and no contents |
| Vm.PopAfterPush | vm/vm.go:69-90 | a pop right after a successful push returns the pushed value and the old contents |
| Vm.PushAfterPop | vm/vm.go:51-62 | after a successful pop, a push cannot overflow, so the push whose error Run ignores always succeeds |
| Vm.StepConstant | vm/vm.go:43-49 | OpConstant goes on exactly when two operand bytes follow, the index is inside the pool and the stack has room; it then moves ip by 3; a stop leaves the stack as it was; a short operand ends in the panic OperandOutOfRange, an index past the pool in the panic ConstantOutOfRange, and a full stack in the reported StackOverflow error |
| Vm.StepAdd | vm/vm.go:50-62 | OpAdd goes on exactly when the stack holds at least two values and both top ones are Integers; it then moves ip by 1; fewer than two values end in the reported StackEmpty error, and a non-Integer operand in the panic NotAnInteger |
| Vm.Step | vm/vm.go:39-63 | a step that goes on moves ip forward and stays inside the stream; a stop is never Done; an opcode with no case moves ip by one and leaves the stack alone |
| Vm.Exec | vm/vm.go:37-67 | a run from any ip ends with a valid stack (capacity StackSize, 0 <= sp <= StackSize) |
| Vm.ConstantStep | vm/vm.go:43-49 | OpConstant with a valid operand pushes the indexed constant (contents grow by exactly that object) and moves ip by 3; on a full stack it stops with the overflow error and the stack unchanged |
| Vm.AddStep | vm/vm.go:50-62 | OpAdd on fewer than two values stops with "stack is empty"; on two Integers it replaces them by their wrapped 64-bit sum, so sp drops by one and everything below stays |
| Vm.SkipUnknown | vm/vm.go:39-42 | a stream with no OpConstant or OpAdd runs to its end with Done and leaves the stack unchanged |
| Vm.ConstantProgram | vm/vm.go:43-45 | a program of k loads is 3k bytes long |
| Vm.ConstantProgramAt | vm/vm.go:43-45 | byte 3j of a constant program is OpConstant, and its operand decodes to the j-th index |
| Vm.ConstantProgramLoads | vm/vm.go:43-45 | every instruction of a constant program loads its index |
| Vm.Referenced | vm/vm.go:46 | the j-th referenced object is the constant at the j-th index |
| Vm.LoadStep | vm/vm.go:43-49 | the j-th instruction of a constant program pushes its constant and moves to instruction j+1, or stops with a stack overflow on a full stack |
| Vm.ExecEnd | vm/vm.go:39 | at the end of the stream a run is Done and leaves the stack as it is |
| Vm.ExecHalt | vm/vm.go:47-57 | a run whose step stops ends with that step's stack and result |
| Vm.ExecNext | vm/vm.go:39-64 | a run whose step goes on is the run from the ip and stack that step leads to |
| Vm.ExecConstantsFrom | vm/vm.go:39-49 | from instruction j, a constant program pushes the remaining constants in order when they fit; otherwise it pushes as many as fit and fails with a stack overflow |
| Vm.ExecConstants | vm/vm.go:37-67 | k loads on an empty stack end Done with exactly the k referenced constants on the stack, in order, when k <= 2048; otherwise they fail with a stack overflow and the first 2048 on the stack |
| Vm.VM.constructor | vm/vm.go:20-28 | New keeps the bytecode's instructions and constants and makes a fresh stack of StackSize empty slots with sp == 0 |
| Vm.VM.StackTop | vm/vm.go:30-35 | StackTop is None (Go's nil) exactly when the stack is empty, and otherwise the last of the contents |
| Vm.VM.Push | vm/vm.go:69-78 | on a full stack, Push reports the overflow and changes nothing; otherwise it writes slot sp and increments sp; either way the new state is the one Stack.Push gives |
| Vm.VM.Pop | vm/vm.go:80-90 | Pop never writes the array; on an empty stack it reports the error; otherwise it returns slot sp-1 and decrements sp, as Stack.Pop does |
| Vm.VM.LoadConstant | vm/vm.go:43-49 | the OpConstant case leaves the stack StepConstant gives and stops exactly when StepConstant halts, with its result |
| Vm.VM.Add | vm/vm.go:50-62 | the OpAdd case leaves the stack StepAdd gives and stops exactly when StepAdd halts, with its result |
| Vm.VM.Run | vm/vm.go:37-67 | the final stack and the outcome of Run are Exec of the program from ip 0 on the starting stack |
| Vm.RunConstants | vm/vm.go:20-67 | a fresh machine over k loads ends Done with exactly the referenced constants in slots 0..k-1 when k <= 2048; otherwise it fails with a stack overflow and a full stack |
| Builtins.Len | evaluator/builtins.go:10-25 | one argument, or a count error wanting 1; the element count of an Array or the byte count of a String; any other type gives the "not supported" error |
| Builtins.First | evaluator/builtins.go:26-42 | count error, then a non-Array error naming `first`; element 0 of a non-empty Array, Null for an empty one |
| Builtins.Last | evaluator/builtins.go:43-59 | count error, then a non-Array error naming `last`; the final element of a non-empty Array, Null for an empty one |
| Builtins.Rest | evaluator/builtins.go:60-76 | count error, then a non-Array error; for a non-empty Array, an Array one shorter whose i-th element is the old i+1-th; Null for an empty one |
| Builtins.Push | evaluator/builtins.go:77-90 | count error wanting 2, then a non-Array error; otherwise an Array one longer that starts with the old elements and ends with the second argument |
| Builtins.Pop | evaluator/builtins.go:91-107 | count error, then a non-Array error; for more than one element, an Array one shorter with the same leading elements; Null for zero or one element |
| Builtins.Join | evaluator/builtins.go:136 | `strings.Join` of no parts is empty; otherwise the joined text starts with the first part and ends with the last part |
| Builtins.JoinAppend | evaluator/builtins.go:136 | joining one more part appends the separator and that part |
| Builtins.JoinLength | evaluator/builtins.go:136 | n joined parts are as long as all their bytes plus n-1 separators |
| Builtins.Texts | evaluator/builtins.go:132-135 | one text per element, the i-th being the bytes of the i-th String |
| Builtins.StringJoinResult | evaluator/builtins.go:117-140 | count error, then the error for argument 0 not being an Array, then for argument 1 not being a String, in that order; Null for an empty Array; otherwise the joined element texts, with the length formula; one element comes back unchanged |
| Builtins.StringJoin | evaluator/builtins.go:131-137 | the loop that copies each element's text into a fresh array yields exactly StringJoinResult |
| Builtins.Table | evaluator/builtins.go:9-141 | every builtin of the table is filed under its own name, every name in the table is the name of its entry, and `print` is not in this table |
| Builtins.Apply | evaluator/builtins.go:9-141 | a call through the table first returns the count error with the builtin's own arity whenever the argument count is wrong; next, every builtin but `len` returns the Array error naming itself for a non-Array first argument, and `len` returns its "not supported" error for an argument that is neither Array nor String |
| Builtins.FirstThenRest | evaluator/builtins.go:26-76 | first and rest split a non-empty Array into its head and its tail |
| Builtins.PopThenLast | evaluator/builtins.go:43-107 | pop and last split an Array of more than one element into its front and its last element |
| Builtins.PopAfterPush | evaluator/builtins.go:77-107 | pop undoes push on a non-empty Array and gives Null on an empty one |
| Builtins.LastAfterPush | evaluator/builtins.go:43-90 | after push, last is the pushed value and len is one more |
| Builtins.LenAfterRest | evaluator/builtins.go:10-76 | rest makes a non-empty Array exactly one shorter, as len reports it |
| Builtins.RestAsWritten | evaluator/builtins.go:65-66 | rest as written: its type error names `last`; every other input behaves as Rest |
| Builtins.PushAsWritten | evaluator/builtins.go:82-83 | push as written: its type error names `last`; every other input behaves as Push |
| Builtins.StringJoinAsWritten | evaluator/builtins.go:119-120 | string_join as written: a wrong count reports want=1 although 2 are required |
| Builtins.TypeErrorsNameLast | evaluator/builtins.go:66 | `rest(5)` and `push(5, 1)` as written return an error naming `last`, which is neither builtin's name |
| Builtins.JoinArityMessageContradicts | evaluator/builtins.go:120 | `string_join` called with one argument as written reports "got=1, want=1", while its arity is 2 |

## Left out

- `print` (evaluator/builtins.go:108-116) writes to standard output, so it is left out; `Table` has no entry for it.
- The REPL (`repl/repl.go`) reads lines and prints results. It is I/O and is not part of this model.
- The lexer, parser and compiler are not part of this model, nor is the full `code` package. `code.dfy` gives only the operand encoding Run relies on. The byte values of `OpConstant` (0) and `OpAdd` (1) are stand-ins; only their being distinct matters.
- Error messages keep only their facts (count, builtin, argument position, expected and actual type). They do not keep the formatted text.
- Go's empty stack slots are `nil`. Here they are the `Null` object; no modelled operation reads a slot that was never written. `StackTop`'s nil result is `None`.
- Go slices share storage: `rest` and `pop` return Arrays that alias their argument, and `push` may write into the argument's backing array. The model works on values, so it does not capture aliasing.
- Builtins.Len: its contract covers lengths below 2^63 only. Longer lengths wrap through `Wrap64`, as `int64(len(...))` would, but no Go slice can reach them.
- Builtins.StringJoinResult: requires that every element of the Array is a String once both argument types are right. An element of another type makes the Go type assertion at evaluator/builtins.go:134 panic, and the model does not produce a result for that case.
- Vm.VM.Run: the `OpConstant` and `OpAdd` cases of the switch are the methods `LoadConstant` and `Add`, which `Run` calls. They run the same statements, plus an explicit guard for each Go panic. `ip += 2` comes after the call to `LoadConstant` instead of before the push, which nothing can observe.
- Vm.VM.Run: a panic of the Go runtime ends `Run` with a `Panicked` result instead of unwinding. There are three: a short operand, a pool index out of range, and an OpAdd operand that is not an Integer.
- The object model has only the variants the core touches: Integer, Boolean, String, Array, Null, Error and Builtin. Other variants of Go's `object` package, such as compiled functions, are not part of this model. The builtins would treat them as they treat a Boolean: as neither Array nor String.
- `LastPoppedStackElem` is not defined in vm/vm.go, so it is left out.

## Findings

| source | as written | input that shows it | evidently intended | confidence | as-written member | corrected member |
|---|---|---|---|---|---|---|
| evaluator/builtins.go:66 | the type error of `rest` says "argument to `last` must be array" | `rest(5)` | the error names `rest` | not executed | Builtins.RestAsWritten (shown by Builtins.TypeErrorsNameLast) | Builtins.Rest (Builtins.Apply) |
| evaluator/builtins.go:83 | the type error of `push` says "argument to `last` must be array" | `push(5, 1)` | the error names `push` | not executed | Builtins.PushAsWritten (shown by Builtins.TypeErrorsNameLast) | Builtins.Push (Builtins.Apply) |
| evaluator/builtins.go:120 | `string_join` rejects any count but 2 with "want=1" | `string_join("a")` | "want=2" | not executed | Builtins.StringJoinAsWritten (shown by Builtins.JoinArityMessageContradicts) | Builtins.StringJoinResult (Builtins.Apply) |
