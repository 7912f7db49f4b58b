# tinyscript, modelled in Dafny

tinyscript is a small scripting language written in Rust. A script is parsed into
a tree of tokens. Each top-level class becomes a global class value. Each function
of a class is compiled into stack-machine bytecode. All the bytecode is linked
into one program. A virtual machine then runs it from an entry function, with
call frames, an operand stack per frame and shared mutable containers (arrays,
dictionaries, objects).

This project models that core and proves properties of the model:

- `Values` (value.dfy): the value algebra of `src/vm/value.rs`. Shared
  containers (`Rc<RefCell<..>>`) are handles into an arena `Heap`.
- `Frames` (frame.dfy): a call frame. It has specification functions on
  `FrameState` and a class `Frame` whose methods update it in place.
- `Bytecode` (bytecode.dfy): the instruction set and the linked `Program`.
- `Interpreter` and `InterpreterProperties` (machine.dfy, machine_props.dfy):
  `VM::exec` as a step function on machine states, and what each instruction does.
- `VirtualMachine` (vm.dfy): the class `VM`. Its frame list and instruction
  pointer change in place. Every method is proved to move the machine exactly
  as `Interpreter` says.
- `Tokens` (token.dfy): the syntax tree.
- `CodeGen` and `CodeGenProperties` (codegen.dfy, codegen_props.dfy): the code
  generator of `src/compiler/function.rs` as functions on its state.
  - It proves that every placeholder jump gets patched.
  - It proves that every jump lands inside the construct that emitted it.
  - It proves that a compiled function ends in a `Return` and cannot run off its end,
    under the corrected end-of-function rule (see Findings).
- `Functions` (function.dfy): the class `Function`. Its instruction list and
  variable map grow in place. Every method is proved equal to `CodeGen`.
- `Linker` (linker.dfy): `Compiler::compile` as functions. This covers class
  declaration, default constructors, the globals, and linking the functions back
  to back with a symbol table.
- `Compilers` (compiler.dfy): the class `Compiler`. Its `Compile` method is
  proved equal to `Linker.CompileScript`.
- `Base` (base.dfy): `Option`/`Result`, 32-bit integers, and integer text as
  Rust prints and parses it.

Where the Rust code panics (`panic!`, `expect`, `unreachable!`, an arithmetic
overflow, `unwrap` on a missing entry), the model returns an error value. The
error says which panic it was.

## Model

| member | source | states |
|---|---|---|
| Base.WrapI32 | src/vm/mod.rs:240-254 | `n as i32` of a length: equal to n modulo 2^32, and n itself when it fits |
| Base.UsizeOf | src/vm/mod.rs:171-179 | `delta as usize`: below 2^64; unchanged for non-negative, 2^64 + i for negative |
| Base.NatToString | src/vm/value.rs:48 | decimal text of a natural is non-empty and all digits |
| Base.IntToString | src/vm/value.rs:48 | `{num}` of an i32: the digits, with a leading `-` for negatives |
| Base.ParseI32 | src/vm/value.rs:30 | `parse::<i32>`: empty text, a lone sign, a wrong first character or a later non-digit fail; digits with an optional `+` or `-` give their (negated) value when it is within i32 and fail otherwise |
| Base.ParseDisplayedI32 | src/vm/value.rs:29-31 | parsing the printed form of any i32 gives it back (round trip) |
| Base.DigitsOfNat | src/vm/value.rs:48 | the printed natural is all digits and denotes the number |
| Tokens.ToString | src/compiler/token.rs:53-61 | a function's or identifier's name; every other token the empty name |
| Tokens.NamedTokens | src/compiler/token.rs:53-61 | only a function or an identifier can have a non-empty name |
| Tokens.FunctionNameIgnoresSignature | src/compiler/token.rs:56 | a function's name does not depend on its parameters or body |
| Values.BoolText | src/vm/value.rs:50 | `{b}` of a bool is `true` or `false`, `true` exactly for true |
| Values.Display | src/vm/value.rs:44-56 | null, `true`/`false`, the decimal text of an integer (which parses back), the string itself, `Array`, the function name; the Debug forms are not modelled |
| Values.Parse | src/vm/value.rs:29-40 | an i32 when the text is one; else the f32 parse when it succeeds; else `true`/`false` as booleans; else the string itself |
| Values.ParsePrefersInteger | src/vm/value.rs:29-31 | the text of an i32 parses as that integer |
| Values.Add | src/vm/value.rs:91-120 | integer sum or overflow error; bool `and`; array + array extends the left array in place; every pair the match does not list (value.rs:118), and only those, fails with a type mismatch |
| Values.Sub | src/vm/value.rs:74-82 | integer difference exactly when it fits in i32; non-numbers fail |
| Values.Mul | src/vm/value.rs:127-135 | integer product exactly when it fits in i32; non-numbers fail |
| Values.TruncDiv | src/vm/value.rs:144 | Rust `/`: magnitude is the quotient of magnitudes, sign from the operands (rounds toward zero) |
| Values.Div | src/vm/value.rs:142-150 | truncating integer quotient; zero divisor and i32::MIN / -1 fail; non-numbers fail |
| Values.NumericMismatch | src/vm/value.rs:74-150 | the error is `FloatNotModelled` exactly when both operands are numbers |
| Values.Not | src/vm/value.rs:157-163 | always a bool, true exactly for `Bool(false)` |
| Values.Compare | src/vm/value.rs:60-67 | defined only for two integers or two floats, and then agrees with `<` and `==` |
| Values.Equal | src/vm/value.rs:10 | derived `PartialEq`: values of different variants differ; scalars compare by value |
| Values.EqualComparesContents | src/vm/value.rs:10 | arrays compare element by element, dictionaries, objects and classes entry by entry, not by handle |
| Values.EqualByContents | src/vm/value.rs:10 | two distinct arrays holding `[1]` are equal |
| Values.EqualSeq | src/vm/value.rs:10 | sequences of different lengths differ |
| Values.EqualSeqAllTrue | src/vm/value.rs:10 | two sequences are equal exactly when they have the same length and every pair of elements is equal |
| Values.EqualSeqFirstFalse | src/vm/value.rs:10 | the first unequal pair of elements makes the sequences unequal |
| Values.EqualMap | src/vm/value.rs:10 | maps with different keys differ |
| Values.EqualMapByKeys | src/vm/value.rs:10 | two maps are equal exactly when they have the same keys and equal values under every key; with the same keys, one unequal value makes them unequal |
| Values.EqualReflexive | src/vm/value.rs:10 | a value never compares unequal to itself |
| Values.EqualSymmetric | src/vm/value.rs:10 | equality is symmetric |
| Values.IntegerIsNotFloat | src/vm/value.rs:10 | `Integer(n)` differs from `Float(n)` |
| Values.BoolAddIsAnd | src/vm/value.rs:116 | bool + bool is `and`, commutative, true only for true + true |
| Values.StringAddAppendsDisplay | src/vm/value.rs:97-106 | string + string/bool/integer appends the printed right operand; integer + string prepends |
| Values.NotTable | src/vm/value.rs:157-163 | `!!b == b` for bools; `!` of a non-bool is false |
| Values.SubUndoesAdd | src/vm/value.rs:74-95 | (x + y) - y == x when the sum fits |
| Values.DivUndoesMul | src/vm/value.rs:127-144 | (x * y) / y == x when the product fits and y != 0 |
| Values.ArrayAddIsSeenByAliases | src/vm/value.rs:110-113 | array + array appends to the left array's cell, which every alias sees, and touches no other cell |
| Values.ArraySelfAddPanics | src/vm/value.rs:110-113 | adding an array to itself fails (`borrow_mut` while borrowed) |
| Frames.NewFrame | src/vm/frame.rs:21-32 | name and return position as given, the arguments as slots, an empty stack |
| Frames.Push | src/vm/frame.rs:57-60 | the value goes on top; nothing else changes |
| Frames.Pop | src/vm/frame.rs:101-105 | fails exactly on an empty stack, otherwise gives the top and the rest |
| Frames.Top | src/vm/frame.rs:95-98 | fails exactly on an empty stack, otherwise the last value |
| Frames.Pop2 | src/vm/frame.rs:108-112 | needs two values; gives (lhs, rhs) with rhs the top |
| Frames.SetSlot | src/vm/frame.rs:63-74 | the slot holds the value, the vector grows with `Null` to reach it, other slots and the stack are kept |
| Frames.Variable | src/vm/frame.rs:125-129 | the slot's value exactly when it exists |
| Frames.Move | src/vm/frame.rs:77-80 | pops the top into the slot; fails on an empty stack |
| Frames.Copy | src/vm/frame.rs:83-86 | copies the top into the slot, stack unchanged; fails on an empty stack |
| Frames.Load | src/vm/frame.rs:89-92 | pushes the slot's value; fails on a missing slot |
| Frames.PopAfterPush | src/vm/frame.rs:101-105 | pop after push gives the value back and the frame as it was |
| Frames.Pop2AfterPushes | src/vm/frame.rs:108-112 | popping two after pushing lhs, rhs gives (lhs, rhs) |
| Frames.PopNOf | src/vm/frame.rs:115-122 | popping n takes the top n values, last pushed first |
| Frames.PopNTakesReversedSuffix | src/vm/frame.rs:115-122 | the same, on any frame with at least n values |
| Frames.PopNUnderflows | src/vm/frame.rs:115-122 | popping more values than there are fails |
| Frames.SlotReadAfterWrite | src/vm/frame.rs:63-74 | reading the written slot gives the value; other existing slots are unchanged |
| Frames.MoveIsCopyThenPop | src/vm/frame.rs:77-86 | move is copy followed by dropping the top |
| Frames.Frame.constructor | src/vm/frame.rs:21-32 | `Frame::new` |
| Frames.Frame.PushValueToStack | src/vm/frame.rs:57-60 | state moves as `Push` |
| Frames.Frame.PushValueToVariableSlot | src/vm/frame.rs:63-74 | state moves as `SetSlot` |
| Frames.Frame.GetTopValueOnStack | src/vm/frame.rs:95-98 | answers `Top` |
| Frames.Frame.PopValueFromStack | src/vm/frame.rs:101-105 | answers and moves as `Pop`; unchanged on failure |
| Frames.Frame.Pop2ValuesFromStack | src/vm/frame.rs:108-112 | answers and moves as `Pop2` |
| Frames.Frame.PopValuesFromStack | src/vm/frame.rs:115-122 | the loop answers and moves as `PopN` |
| Frames.Frame.GetVariableOrPanic | src/vm/frame.rs:125-129 | answers `Variable` |
| Frames.Frame.MoveFromStackToVariableSlot | src/vm/frame.rs:77-80 | moves as `Move` |
| Frames.Frame.CopyFromStackToVariableSlot | src/vm/frame.rs:83-86 | moves as `Copy` |
| Frames.Frame.CopyFromVariableSlotToStack | src/vm/frame.rs:89-92 | moves as `Load` |
| Interpreter.Start | src/vm/mod.rs:39-60 | an empty program returns `Null`; otherwise one frame with no return position and the parameters as slots, at the entry's offset (0 when unknown) |
| Interpreter.Finish | src/vm/mod.rs:457-467 | at the end of the code the result is the top of the running frame's stack |
| Interpreter.Proceed | src/vm/mod.rs:457-460 | the machine stops when the instruction pointer reaches the end of the code; InterpreterProperties.StraightLineAdvances and RunSplits build on it |
| Interpreter.WithCurrent | src/vm/mod.rs:61 | replacing the running frame keeps the frames below it |
| Interpreter.Materialize | src/vm/mod.rs:203-206 | an empty array or dictionary literal is a fresh, empty container |
| Interpreter.Store | src/vm/mod.rs:339-375 | storing into a collection never changes the number of containers |
| Interpreter.Binary | src/vm/mod.rs:377-446 | only `Add` may change the heap, and never its size |
| InterpreterProperties.StraightKeeps | src/vm/mod.rs:73-446 | every straight-line instruction keeps the code, symbols, globals and frame count, never shrinks the heap, and advances the pointer by one |
| InterpreterProperties.StepKeepsProgram | src/vm/mod.rs:64-465 | a step never changes the code, symbols or globals; `Call` adds one frame, `Return` removes one, others keep them |
| InterpreterProperties.StraightLineAdvances | src/vm/mod.rs:73-446 | after a straight-line instruction the pointer is the next one, or the program ends |
| InterpreterProperties.CallPopsCallee | src/vm/mod.rs:94-102 | `Call(n)` takes the n arguments in order and then the callee below them |
| InterpreterProperties.CallOpensFrame | src/vm/mod.rs:94-123 | a call to a known function opens a frame named `name[depth]` returning to the next instruction, with the arguments as slots, and jumps to the function |
| InterpreterProperties.CallUnknownFunctionFails | src/vm/mod.rs:102 | a call to an unknown name fails |
| InterpreterProperties.ReturnFromOutermost | src/vm/mod.rs:125-136 | returning from the outermost frame ends the run with the value or `Null` |
| InterpreterProperties.ReturnToCaller | src/vm/mod.rs:138-153 | otherwise the frame is dropped, the pointer goes to the return position, and the value is pushed on the caller's stack |
| InterpreterProperties.ReturnWithoutCallerFails | src/vm/mod.rs:138-147 | a return position with no caller below fails |
| InterpreterProperties.JumpIfFalseEffect | src/vm/mod.rs:181-196 | pops the condition; only `Bool(false)` jumps, forward by a positive delta, not at all for 0; a negative delta underflows |
| InterpreterProperties.JumpsMoveIp | src/vm/mod.rs:171-179 | jumps move the pointer by the delta; a backward jump past 0 fails; `Halt` ends with the top value |
| InterpreterProperties.AssertEffect | src/vm/mod.rs:73-84 | only `Bool(true)` passes; anything else fails |
| InterpreterProperties.CreateObjectCopiesClass | src/vm/mod.rs:156-167 | an object is a fresh container holding a copy of the class's members |
| InterpreterProperties.DictionaryAddInPlace | src/vm/mod.rs:275-294 | the entry is added to the shared dictionary, keyed by the key's text |
| InterpreterProperties.DictionaryAddOnNonDictionaryDrops | src/vm/mod.rs:275-294 | on anything else the three values are dropped |
| InterpreterProperties.ArrayAddInPlace | src/vm/mod.rs:256-273 | the value is appended to the shared array; on a non-array both are dropped |
| InterpreterProperties.ArrayLengthEffect | src/vm/mod.rs:240-254 | pushes the length as i32 |
| InterpreterProperties.SetArrayItem | src/vm/mod.rs:339-375 | an in-range index replaces that element; out of range fails |
| InterpreterProperties.SetDictionaryItem | src/vm/mod.rs:339-375 | a string key sets that entry |
| InterpreterProperties.GetItem | src/vm/mod.rs:296-337 | array by in-range integer, dictionary by present string key; an index outside the array (negative or past the end), a missing key, a wrong key type or a non-collection fails |
| InterpreterProperties.BinaryPushesResult | src/vm/mod.rs:377-446 | an operator pops two values and pushes its result |
| InterpreterProperties.IntegerComparisons | src/vm/mod.rs:421-446 | on integers the comparisons agree with `<`, `<=`, `>`, `>=` |
| InterpreterProperties.IntegerEquality | src/vm/mod.rs:409-419 | on integers `Equal`/`NotEqual` agree with `==`/`!=` |
| InterpreterProperties.EmptyProgramReturnsNull | src/vm/mod.rs:50-53 | a program without instructions returns `Null` |
| InterpreterProperties.RunSplits | src/vm/mod.rs:64-465 | running a + b steps is running a and then b |
| InterpreterProperties.ContinueSplits | src/vm/mod.rs:63-464 | continuing a + b steps is continuing a and then b |
| VirtualMachine.VM.constructor | src/vm/mod.rs:29-37 | `VM::new`: the program's code, symbols and globals, no frames, pointer 0 |
| VirtualMachine.VM.Exec | src/vm/mod.rs:39-468 | `exec` computes exactly `Interpreter.Exec` |
| VirtualMachine.VM.Run | src/vm/mod.rs:64-465 | the loop computes exactly `Interpreter.Run` |
| VirtualMachine.VM.Step | src/vm/mod.rs:66-455 | one pass moves the machine as `Interpreter.Step` |
| VirtualMachine.VM.Tick | src/vm/mod.rs:63-464 | one pass of the loop leaves the rest of the run as `Interpreter.Run` says |
| VirtualMachine.VM.Finish | src/vm/mod.rs:466 | moves as `Interpreter.Finish` |
| VirtualMachine.VM.Proceed | src/vm/mod.rs:457-460 | moves as `Interpreter.Proceed` |
| VirtualMachine.VM.Advance | src/vm/mod.rs:457-460 | the updated running frame kept and the pointer moved on, as `Interpreter.Next` |
| VirtualMachine.VM.ExecControl | src/vm/mod.rs:73-196 | the control instructions move as `Interpreter.ExecControl` |
| VirtualMachine.VM.ExecStraight | src/vm/mod.rs:73-446 | the straight-line instructions move as `Interpreter.ExecStraight` |
| VirtualMachine.VM.StackInstruction | src/vm/mod.rs:86-206 | print, `CreateObject` and `StackPush` move as `Interpreter.ExecStraight` |
| VirtualMachine.VM.SlotInstruction | src/vm/mod.rs:213-234 | the slot and global instructions move as `Interpreter.ExecStraight` |
| VirtualMachine.VM.CollectionInstruction | src/vm/mod.rs:240-375 | the collection instructions move as `Interpreter.ExecStraight` |
| VirtualMachine.VM.ExecAssert | src/vm/mod.rs:73-84 | moves as the model's `Assert` step |
| VirtualMachine.VM.ExecPrint | src/vm/mod.rs:86-90 | moves as the model's `Print` step |
| VirtualMachine.VM.ExecCall | src/vm/mod.rs:94-123 | moves as the model's `Call` step |
| VirtualMachine.VM.Enter | src/vm/mod.rs:104-123 | entering the callee moves as `Interpreter.Enter` |
| VirtualMachine.VM.ExecReturn | src/vm/mod.rs:125-154 | moves as the model's `Return` step |
| VirtualMachine.VM.Resume | src/vm/mod.rs:138-154 | resuming the caller moves as `Interpreter.Resume` |
| VirtualMachine.VM.ExecCreateObject | src/vm/mod.rs:156-167 | moves as the model's `CreateObject` step |
| VirtualMachine.VM.ExecJump | src/vm/mod.rs:171-179 | moves as the model's jump and `Halt` steps |
| VirtualMachine.VM.ExecJumpIfFalse | src/vm/mod.rs:181-196 | moves as the model's `JumpIfFalse` step |
| VirtualMachine.VM.ExecStackPush | src/vm/mod.rs:203-206 | moves as the model's `StackPush` step |
| VirtualMachine.VM.ExecMove | src/vm/mod.rs:213-216 | moves as the model's `MoveToLocalVariable` step |
| VirtualMachine.VM.ExecCopy | src/vm/mod.rs:218-221 | moves as the model's `CopyToLocalVariable` step |
| VirtualMachine.VM.ExecLoad | src/vm/mod.rs:224-227 | moves as the model's `LoadLocalVariable` step |
| VirtualMachine.VM.ExecLoadGlobal | src/vm/mod.rs:230-234 | moves as the model's `LoadGlobal` step |
| VirtualMachine.VM.ExecArrayLength | src/vm/mod.rs:240-254 | moves as the model's `ArrayLength` step |
| VirtualMachine.VM.ExecArrayAdd | src/vm/mod.rs:256-273 | moves as the model's `ArrayAdd` step |
| VirtualMachine.VM.ExecDictionaryAdd | src/vm/mod.rs:275-294 | moves as the model's `DictionaryAdd` step |
| VirtualMachine.VM.ExecGetItem | src/vm/mod.rs:296-337 | moves as the model's `GetCollectionItemByKey` step |
| VirtualMachine.VM.ExecSetItem | src/vm/mod.rs:339-375 | moves as the model's `SetCollectionItemByKey` step |
| VirtualMachine.VM.ExecBinary | src/vm/mod.rs:377-446 | moves as the model's operator step |
| CodeGen.AddVariable | src/compiler/function.rs:590-598 | fails exactly on a name already present; otherwise the next slot number, a map with one more entry, dense slots stay dense |
| CodeGen.Slot | src/compiler/function.rs:581-587 | the name's slot exactly when declared, otherwise an undeclared-variable error |
| CodeGen.DeclareParameters | src/compiler/function.rs:57-64 | keeps existing slots, gives every parameter a slot, adds no other name, keeps slots dense |
| CodeGen.OperatorOf | src/compiler/function.rs:463-527 | every operator token compiles to a straight-line instruction |
| CodeGen.Expression | src/compiler/function.rs:369-536 | only appends code, always at least one instruction |
| CodeGen.Statement | src/compiler/function.rs:90-106 | only appends code |
| CodeGen.Expressions | src/compiler/function.rs:562-564 | at least one instruction per argument |
| CodeGen.Statements | src/compiler/function.rs:83-87 | only appends code |
| CodeGen.Operation | src/compiler/function.rs:463-527 | only appends code, at least one instruction |
| CodeGen.Elements | src/compiler/function.rs:414-425 | only appends code |
| CodeGen.Pairs | src/compiler/function.rs:426-440 | only appends code |
| CodeGen.NewObject | src/compiler/function.rs:332-367 | only appends code, at least one instruction; an unknown class fails |
| CodeGen.IndexRead | src/compiler/function.rs:443-456 | only appends code, at least one instruction, declares no variable |
| CodeGen.CallCode | src/compiler/function.rs:545-567 | only appends code, at least one instruction |
| CodeGen.ChainCode | src/compiler/function.rs:109-145 | only appends code, at least one instruction |
| CodeGen.Links | src/compiler/function.rs:116-145 | only appends code |
| CodeGen.Link | src/compiler/function.rs:120-143 | only appends code |
| CodeGen.Declaration | src/compiler/function.rs:158-170 | only appends code; a non-identifier name fails |
| CodeGen.Assignment | src/compiler/function.rs:172-194 | only appends code |
| CodeGen.LoopCode | src/compiler/function.rs:229-253 | only appends code |
| CodeGen.ForCode | src/compiler/function.rs:196-227 | only appends code |
| CodeGen.IfElseCode | src/compiler/function.rs:302-330 | only appends code |
| CodeGen.ElseCode | src/compiler/function.rs:321-326 | only appends code |
| CodeGenProperties.ExpressionStraight | src/compiler/function.rs:369-536 | an expression emits no jump and leaves no placeholder |
| CodeGenProperties.LeafStraight | src/compiler/function.rs:383-412 | literals, names and anonymous functions emit no jump |
| CodeGenProperties.CollectionStraight | src/compiler/function.rs:414-440 | array and dictionary literals emit no jump |
| CodeGenProperties.CompoundStraight | src/compiler/function.rs:441-462 | objects, indexed reads, calls and chains emit no jump |
| CodeGenProperties.OperationStraight | src/compiler/function.rs:463-527 | operators emit no jump |
| CodeGenProperties.NewObjectStraight | src/compiler/function.rs:332-367 | a new object emits no jump |
| CodeGenProperties.CallStraight | src/compiler/function.rs:545-567 | a call emits no jump |
| CodeGenProperties.ChainStraight | src/compiler/function.rs:109-145 | a chain emits no jump |
| CodeGenProperties.DeclarationStraight | src/compiler/function.rs:158-170 | a declaration emits no jump |
| CodeGenProperties.AssignmentStraight | src/compiler/function.rs:172-194 | an assignment emits no jump |
| CodeGenProperties.ReturnStraight | src/compiler/function.rs:570-573 | `return` emits straight-line code ending in `Return(true)` |
| CodeGenProperties.SimpleStatementBlock | src/compiler/function.rs:92-100 | every jump of `assert`, `print` and `return` lands inside its own code |
| CodeGenProperties.CodeStatementBlock | src/compiler/function.rs:94-102 | the same for calls, chains, declarations and assignments |
| CodeGenProperties.LoopStatementBlock | src/compiler/function.rs:97-101 | the same for the loop statements |
| CodeGenProperties.ForBlock | src/compiler/function.rs:196-227 | the same for a `for` loop |
| CodeGenProperties.ElseBlock | src/compiler/function.rs:321-326 | the same for an else part |
| CodeGenProperties.StatementBlock | src/compiler/function.rs:90-106 | every jump a statement emits lands inside its own code, and every placeholder is patched |
| CodeGenProperties.StatementsBlock | src/compiler/function.rs:83-87 | the same for a statement list |
| CodeGenProperties.LoopBlock | src/compiler/function.rs:196-253 | the same for `while` and `for` loops |
| CodeGenProperties.IfElseBlock | src/compiler/function.rs:302-330 | the same for `if`/`else` |
| CodeGenProperties.LoopShape | src/compiler/function.rs:229-253 | a loop is its test, a `JumpIfFalse` past the end, the body, and a `JumpBackward` to the test |
| CodeGenProperties.IfElseShape | src/compiler/function.rs:302-330 | the condition, a `JumpIfFalse` to the else part, the then part, a `JumpForward` past the end, the else part |
| CodeGenProperties.IfElseExample | src/compiler/function.rs:302-330 | the exact seven instructions of `if true { print 1 } else { return 2 }` |
| CodeGenProperties.AsWrittenKeeps | src/compiler/function.rs:69-72 | statements whose code ends in a `Return` get nothing appended by the as-written rule |
| CodeGenProperties.ReturningBlock | src/compiler/function.rs:570-574 | a body whose last statement is `return` ends in `Return(true)` with every jump inside it |
| CodeGenProperties.CompileWellFormed | src/compiler/function.rs:42-76 | compiled code is non-empty, ends in a `Return`, and every jump lands on one of its own instructions |
| CodeGenProperties.AsWrittenRunsOffTheEnd | src/compiler/function.rs:69-72 | compiled as written with any class lookup, an `if` whose else part returns leaves a jump one past the end |
| CodeGenProperties.AsWrittenAgrees | src/compiler/function.rs:69-72 | once the statements compiled, the two versions agree except where the last instruction is a `Return` and the last statement is not |
| CodeGenProperties.ErrorsAgree | src/compiler/function.rs:66-67 | when the statements fail, both versions report that error |
| CodeGenProperties.AsWrittenAppends | src/compiler/function.rs:69-72 | statements whose code does not end in a `Return` get `Return(false)` appended by the as-written rule |
| CodeGenProperties.CompileOf | src/compiler/function.rs:66-75 | the corrected rule appends `Return(false)` exactly when the last statement is not a `return` |
| CodeGenProperties.PrologueSlots | src/compiler/function.rs:53-64 | `this` is slot 0, slots are dense, distinct parameters get slots 1, 2, ... in order |
| CodeGenProperties.DeclareSplit | src/compiler/function.rs:57-64 | declaring `p` then `q` is declaring `p + q` |
| CodeGenProperties.RepeatedNameKeepsFirstSlot | src/compiler/function.rs:57-64 | a repeated parameter name keeps the slot of its first occurrence, the number of slots taken before it (`or_insert`) |
| CodeGenProperties.DeclareDistinct | src/compiler/function.rs:57-64 | distinct new parameter names get the slots after the existing ones, in order |
| CodeGenProperties.LocalCallShape | src/compiler/function.rs:545-567 | a call through a local variable loads it, pushes the arguments and calls with their count |
| CodeGenProperties.MethodCallShape | src/compiler/function.rs:545-567 | otherwise it loads `this`'s member and `this`, and calls with one more argument |
| CodeGenProperties.OperationShape | src/compiler/function.rs:463-527 | an operator compiles both operands, left first, then the instruction |
| CodeGenProperties.LiteralShape | src/compiler/function.rs:383-407 | a literal is one `StackPush` of its value |
| CodeGenProperties.PrintLiteral | src/compiler/function.rs:539-542 | `print` of a literal is the push and `Print` |
| CodeGenProperties.ReturnLiteral | src/compiler/function.rs:570-573 | an else part `return` of a literal is the push and `Return(true)` |
| Functions.FullName | src/compiler/function.rs:78-80 | `Class.name`: the class name, a dot, the function name |
| Functions.FullNameInjective | src/compiler/function.rs:78-80 | for class names without a dot, different members get different full names |
| Functions.ExpressionIsIdentifier | src/compiler/function.rs:408-412 | an identifier loads its slot, or fails when undeclared |
| Functions.ExpressionIsAnonymous | src/compiler/function.rs:373-381 | an anonymous function pushes a reference named `func` + the code length |
| Functions.StatementSkipped | src/compiler/function.rs:99-103 | `foreach` and comments emit nothing |
| Functions.StatementUnsupported | src/compiler/function.rs:104 | any other statement fails |
| Functions.AssignmentRefused | src/compiler/function.rs:190-192 | assigning to something that is neither a name nor an indexed name fails |
| Functions.LinkIsBad | src/compiler/function.rs:141-143 | a chain link that is neither a member nor a call fails |
| Functions.ExpressionUnsupported | src/compiler/function.rs:533 | any other expression fails |
| Functions.LinkIsMember | src/compiler/function.rs:122 | a member link loads the member |
| Functions.Function.constructor | src/compiler/function.rs:25-40 | `Function::new`: names, parameters and body as given, nothing emitted |
| Functions.Function.GetFullName | src/compiler/function.rs:78-80 | the full name |
| Functions.Function.Compile | src/compiler/function.rs:42-76 | computes `CodeGen.Compile` of its parameters and body |
| Functions.Function.StoreParameters | src/compiler/function.rs:57-64 | the loop gives the parameters their slots as `DeclareParameters` |
| Functions.Function.AddVariable | src/compiler/function.rs:590-598 | moves as `CodeGen.AddVariable` |
| Functions.Function.CreateTempVariable | src/compiler/function.rs:576-578 | moves as `CodeGen.CreateTemp` |
| Functions.Function.VariableSlot | src/compiler/function.rs:581-587 | the slot exactly when declared, otherwise the undeclared-variable error |
| Functions.Function.CompileStatements | src/compiler/function.rs:83-87 | the loop moves as `CodeGen.Statements` |
| Functions.Function.CompileStatement | src/compiler/function.rs:90-106 | moves as `CodeGen.Statement` |
| Functions.Function.CompileCodeStatement | src/compiler/function.rs:94-102 | calls, declarations, assignments and chains move as `CodeGen.Statement` |
| Functions.Function.CompileControl | src/compiler/function.rs:97-101 | `if`, `while` and `for` move as `CodeGen.Statement` |
| Functions.Function.CompileFollowed | src/compiler/function.rs:151-155 | `assert` (and `print`, `return` at lines 539-542 and 570-573) compiles the expression, then their instruction |
| Functions.Function.CompileChain | src/compiler/function.rs:109-145 | moves as `CodeGen.ChainCode` |
| Functions.Function.CompileLink | src/compiler/function.rs:120-143 | one chain link moves as `CodeGen.Link` |
| Functions.Function.CompileLinkCall | src/compiler/function.rs:123-140 | a call link moves as `CodeGen.Link` |
| Functions.Function.CompileVariable | src/compiler/function.rs:158-170 | moves as `CodeGen.Declaration` |
| Functions.Function.CompileAssignment | src/compiler/function.rs:172-194 | moves as `CodeGen.Assignment` |
| Functions.Function.CompileStore | src/compiler/function.rs:177-182 | an assignment to a name moves as `CodeGen.Assignment` |
| Functions.Function.CompileIndexStore | src/compiler/function.rs:183-189 | an assignment to an index moves as `CodeGen.Assignment` |
| Functions.Function.CompileForLoop | src/compiler/function.rs:196-227 | moves as `CodeGen.ForCode` |
| Functions.Function.CompileLoop | src/compiler/function.rs:229-253 | the placeholder jump and the back jump move as `CodeGen.LoopCode` |
| Functions.Function.CompileIfElse | src/compiler/function.rs:302-330 | the two patched jumps move as `CodeGen.IfElseCode` |
| Functions.Function.CompileThen | src/compiler/function.rs:309-316 | from the placeholder on, moves as `CodeGen.IfElseCode` |
| Functions.Function.CompileElse | src/compiler/function.rs:318-329 | from the else part on, moves as `CodeGen.IfElseCode` |
| Functions.Function.CompileNewObject | src/compiler/function.rs:332-365 | moves as `CodeGen.NewObject` |
| Functions.Function.CompileExpression | src/compiler/function.rs:369-536 | moves as `CodeGen.Expression` |
| Functions.Function.CompileLeaf | src/compiler/function.rs:373-412 | literals, anonymous functions and names move as `CodeGen.Expression` |
| Functions.Function.CompileCompound | src/compiler/function.rs:441-462 | objects, indexed reads, calls and chains move as `CodeGen.Expression` |
| Functions.Function.CompileArray | src/compiler/function.rs:414-425 | the element loop moves as `CodeGen.Expression` |
| Functions.Function.CompileDictionary | src/compiler/function.rs:426-440 | the pair loop moves as `CodeGen.Expression` |
| Functions.Function.CompileIndexRead | src/compiler/function.rs:443-456 | moves as `CodeGen.IndexRead` |
| Functions.Function.CompileOperation | src/compiler/function.rs:463-527 | moves as `CodeGen.Operation` |
| Functions.Function.CompileCall | src/compiler/function.rs:545-567 | moves as `CodeGen.CallCode` |
| Functions.Function.CompileArguments | src/compiler/function.rs:562-564 | the argument loop moves as `CodeGen.Expressions` |
| Linker.WithConstructor | src/compiler/compiler.rs:82-90 | the class always ends up with a `constructor`; a default one is added only when absent, with the fields as its body |
| Linker.AddItemsIsMembersOf | src/compiler/compiler.rs:62-80 | the item loop builds: each member's entry, the last of a name winning; the fields in order; the functions in order |
| Linker.MembersOfKeys | src/compiler/compiler.rs:62-80 | a name is in a class's map exactly when some member has it |
| Linker.ClassEntry | src/compiler/compiler.rs:66-77 | a function is a reference to `Class.name`; a field is `Null` |
| Linker.ClassMembersShape | src/compiler/compiler.rs:57-90 | the map has the members and `constructor`; the default constructor is queued last, only when no member has that name |
| Linker.DeclareClassConsistent | src/compiler/compiler.rs:95-99 | a class is appended to the globals and both maps point at it |
| Linker.DeclareConsistent | src/compiler/compiler.rs:53-104 | every lookup index is in range and holds the named class, and every global is a class with a `constructor` |
| Linker.DeclareClassesOnly | src/compiler/compiler.rs:53-104 | only the top-level classes are declared |
| Linker.ImportsIgnored | src/compiler/compiler.rs:38-47 | inserting an `import` anywhere leaves the program unchanged |
| Linker.LinkIsConcatenation | src/compiler/compiler.rs:106-113 | linking fails with the first function's error; otherwise the code is every function's code back to back, and each name maps to its start |
| Linker.SymbolEntry | src/compiler/compiler.rs:111 | a function's full name maps to the length of the code before it, unless a later function has the same name |
| Linker.FlattenSplit | src/compiler/compiler.rs:112 | each function's code sits between the code before it and the code after it |
| Linker.Outputs | src/compiler/compiler.rs:107-110 | one output per function |
| Linker.ProgramLayout | src/compiler/compiler.rs:28-121 | each function's code is a well-formed slice of the program starting at its symbol; the globals are consistent |
| Linker.AsWrittenExampleCode | src/compiler/function.rs:69-72 | the as-written generator gives that example seven instructions with `JumpForward(3)` at 4 |
| Linker.JumpPastEndEntersNextFunction | src/compiler/compiler.rs:106-113 | linked before another function, such code jumps from 4 to the first instruction of the next function |
| Linker.AsWrittenNonEmpty | src/compiler/function.rs:69-72 | the as-written code of a function is never empty |
| Compilers.Compiler.constructor | src/compiler/compiler.rs:21-26 | `Compiler::new`: both maps empty |
| Compilers.Compiler.Compile | src/compiler/compiler.rs:28-121 | computes `Linker.CompileScript`, and leaves the maps as `Linker.Declare` says |
| Compilers.Compiler.DeclareClass | src/compiler/compiler.rs:55-101 | one class moves the state as `Linker.DeclareClass` |
| Compilers.Compiler.CollectMembers | src/compiler/compiler.rs:62-80 | the item loop computes `Linker.AddItems`, with a new, distinct object per function |
| Compilers.Compiler.LinkFunctions | src/compiler/compiler.rs:106-113 | the function loop computes `Linker.Link` |

## Left out

- The parser (src/compiler/frontend.rs) is not part of this model. `Compile` receives the parsed token list. A parse error is not modelled.
- Reading imported files is left out. The source only logs imports (its reading code is commented out), so the import loop has no effect. `Linker.ImportsIgnored` states that.
- Logging (`debug!`, `trace!`, `info!`) and the text `print` writes are left out. `Print` pops its value and fails only on an empty stack.
- Floats are the real numbers they denote. Float arithmetic and float text are not modelled, because f32 rounding and Rust's float formatting are out of scope; they report `FloatNotModelled`. `Values.Parse` takes the f32 parser as a function parameter.
- `Values.Display`: the Debug text (`todo for ...`) of dictionaries, classes and objects is left out. These displays give `None`.
- `Values.Equal`: the derived deep equality takes a depth bound, and reports `None` when the bound runs out. The virtual machine passes its own bound. A `HashMap` comparison walks the keys in hash order; the model instead lets any differing value decide `Some(false)`, as `Values.EqualMapByKeys` states.
- `Interpreter.Materialize`: each execution of a `StackPush` of an empty array or dictionary gets a fresh cell. In the source `variant.clone()` (src/vm/mod.rs:204) clones the `Rc`, so every execution of one instruction would share one container; and src/compiler/function.rs:417 and :429 build `Value::Array(vec![])` and `Value::Dictionary(HashMap::default())`, which do not type-check against the `Rc<RefCell<..>>` variants. The model follows the evident intent, a new empty container per evaluation.
- `Tokens.Token`: `Variable` and `Assign` take a target `Token` rather than the `String` of src/compiler/token.rs:21-22, and `ArrayIndex` is added, because src/compiler/function.rs builds and matches them so.
- `VirtualMachine.VM.Run` and `Interpreter.Run`: the interpreter's unbounded loop runs for at most `fuel` steps. A run that needs more steps is not given a result.
- `VirtualMachine.VM.constructor`: it takes the initial container arena and the equality depth as parameters. `VM::new` takes only the program.
- Each panic is an error value, not a process abort. This covers `expect`, `panic!`, `unreachable!`, `assert!`, overflow, and a `usize` underflow of the instruction pointer.
- Integer overflow follows the overflow-checked (debug-build) semantics: `+`, `-`, `*` on two i32 (src/vm/value.rs:76, :95, :129) report `Overflow`, and the `usize` instruction-pointer subtractions (src/vm/mod.rs:178, :192) report `IpUnderflow`, where a debug build panics. A release build wraps modulo 2^32 (or 2^64) instead; that behaviour is not modelled.
- `Interpreter.ExecControl` and `Interpreter.ExecJumpIfFalse`: the forward `self.ip += *delta as usize` (src/vm/mod.rs:173, :189) is not bounded, because `ip` is a `nat`. A debug build panics when the sum passes `usize::MAX`, that is, when `ip + delta` is 2^64 or more; the model moves to that position instead.
- `Pow` compiles, and the interpreter only steps past it (its handler is a `todo`).
- `foreach` emits nothing, because its code in the source is commented out.
- An anonymous function only pushes a reference to its generated name. The `anonymous_functions` list it is queued on is never compiled or linked, so it is left out.
- `Functions.Function`: the `globals` map passed to `compile` is not kept, because no code generation step reads it. Only `global_lookup` is stored.
- `Functions.Function.Compile`: the model adds `Return(false)` unless the last STATEMENT is a `return`. The source checks the last INSTRUCTION. See Findings. The as-written rule is `CodeGen.CompileAsWritten`.
- `Linker.Generator`, `Linker.CompileScript`, `Linker.ProgramLayout` and `Compilers.Compiler.Compile`: the whole compilation uses the corrected rule `CodeGen.Compile`, so what they promise is about the corrected program. The as-written generator is `Linker.GeneratorAsWritten`; `Linker.AsWrittenExampleCode` and `Linker.JumpPastEndEntersNextFunction` state what linking it does to the example of Findings.
- Density of the variable slots is proved as a property of `CodeGen.AddVariable` and `DeclareParameters`. It is not an invariant of the `Function` class.
- src/vm/program.rs in its shipped form has no `symbols`, `globals` or `insert_global`. The program is modelled as the compiler and the VM use it, and `insert_global` as appending and returning the new index.
- The instruction set is the one function.rs emits and mod.rs runs. The older enum in src/vm/instruction.rs and src/vm/program.rs is left out.

## Findings

| source | as written | input that shows it | evidently intended | confidence | as-written member | corrected member |
|---|---|---|---|---|---|---|
| src/compiler/function.rs:69-72 | `Return(false)` is appended only when the last emitted instruction is not a `Return` | a body holding one `if true { print 1 } else { return 2 }`: the code ends in the else part's `Return(true)`, so nothing is appended; the `JumpForward(3)` at the end of the then part lands one past the function's last instruction, which in a linked program is the next function's code | append `Return(false)` unless the last statement is a `return`, so every path ends in a `Return` | not executed | CodeGenProperties.AsWrittenRunsOffTheEnd | CodeGenProperties.CompileWellFormed |
