/** The bytecode interpreter (src/vm/mod.rs, `VM::new` and `VM::exec`), as a
    function from one machine state to the next.

    A `Machine` holds what the source's `VM` holds: the instructions, the
    symbol table from function name to code offset, the call frames, the
    globals and the instruction pointer, plus the arena of shared containers.
    `Step` runs one instruction; `Run` repeats it a bounded number of times. */
module Interpreter {
  import opened Base
  import V = Values
  import F = Frames
  import opened Bytecode

  datatype Machine = Machine(
    instructions: seq<Instruction>,
    functions: map<string, nat>,
    frames: seq<F.FrameState>,
    globals: seq<V.Value>,
    heap: V.Heap,
    ip: nat,
    /** how deep `==` may look into nested containers (stands for the native stack) */
    depth: nat)

  /** Every way `exec` panics, each named after its cause. */
  datatype VmError =
    | ValueFault(valueError: V.ValueError)
    | FrameFault(frameError: F.FrameError)
    | AssertionFailed
    | UnknownFunction(callee: string)
    | NotDisplayable
    | NotAClass
    | NotAnArray
    | NotACollection
    | WrongKeyType
    | MissingKey
    | IndexOutOfRange
    | MissingGlobal
    | MissingInstruction
    | IpUnderflow
    | NoFrame
    | EqualityUndecided
    | Unhandled(instruction: Instruction)

  /** After one step: still running, finished with a value (and the containers
      it may refer to), or stopped by a panic. */
  datatype Outcome = Running(m: Machine) | Done(result: V.Value, heap: V.Heap) | Failed(error: VmError)

  // ---------------------------------------------------------------------------
  // Helpers

  function Current(m: Machine): F.FrameState
    requires |m.frames| > 0
  {
    m.frames[|m.frames| - 1]
  }

  function WithCurrent(m: Machine, f: F.FrameState): (m': Machine)
    requires |m.frames| > 0
    ensures |m'.frames| == |m.frames| && Current(m') == f
    ensures m'.frames[..|m.frames| - 1] == m.frames[..|m.frames| - 1]
  {
    m.(frames := m.frames[|m.frames| - 1 := f])
  }

  /** The end of the loop: the run stops with the current frame's top value. */
  function Finish(m: Machine): (o: Outcome)
    ensures o.Done? ==> |m.frames| > 0 && F.Top(Current(m)) == Ok(o.result) && o.heap == m.heap
    ensures |m.frames| > 0 && |Current(m).data| > 0 ==> o.Done?
  {
    if |m.frames| == 0 then Failed(NoFrame)
    else
      match F.Top(Current(m))
      case Ok(v) => Done(v, m.heap)
      case Err(e) => Failed(FrameFault(e))
  }

  /** The check at the bottom of the loop: reaching the end of the code stops the run. */
  function Proceed(m: Machine): (o: Outcome)
    ensures m.ip != |m.instructions| ==> o == Running(m)
    ensures m.ip == |m.instructions| ==> o == Finish(m)
  {
    if m.ip == |m.instructions| then Finish(m) else Running(m)
  }

  /** Replace the current frame and move to the next instruction. */
  function Next(m: Machine, f: F.FrameState): Outcome
    requires |m.frames| > 0
  {
    Proceed(WithCurrent(m, f).(ip := m.ip + 1))
  }

  /** The value a `StackPush` pushes; an empty container literal allocates a new cell. */
  function Materialize(heap: V.Heap, lit: Literal): (r: (V.Value, V.Heap))
    ensures lit.LEmptyArray? ==> r == (V.Array(|heap|), heap + [V.ArrayCell([])])
    ensures lit.LEmptyDictionary? ==> r == (V.Dictionary(|heap|), heap + [V.MapCell(map[])])
    ensures !(lit.LEmptyArray? || lit.LEmptyDictionary?) ==> r.1 == heap
  {
    match lit
    case LNull => (V.Null, heap)
    case LInteger(i) => (V.Integer(i), heap)
    case LFloat(x) => (V.Float(x), heap)
    case LBool(b) => (V.Bool(b), heap)
    case LString(s) => (V.String(s), heap)
    case LFunctionRef(name) => (V.FunctionRef(name), heap)
    case LEmptyArray => (V.Array(|heap|), heap + [V.ArrayCell([])])
    case LEmptyDictionary => (V.Dictionary(|heap|), heap + [V.MapCell(map[])])
  }

  /** The name a called function's frame gets: its name and the frame depth. */
  function FrameName(name: string, depth: nat): string {
    name + "[" + NatToString(depth) + "]"
  }

  // ---------------------------------------------------------------------------
  // One instruction

  function Step(m: Machine): Outcome {
    if m.ip >= |m.instructions| then Failed(MissingInstruction)
    else if |m.frames| == 0 then Failed(NoFrame)
    else if IsStraightLine(m.instructions[m.ip]) then ExecStraight(m, m.instructions[m.ip])
    else ExecControl(m, m.instructions[m.ip])
  }

  /** The instructions that decide where the run goes next. */
  function ExecControl(m: Machine, ins: Instruction): Outcome
    requires |m.frames| > 0
  {
    match ins
    case Call(n) => ExecCall(m, n)
    case Return(b) => ExecReturn(m, b)
    case JumpForward(d) => Proceed(m.(ip := m.ip + d))
    case JumpBackward(d) => if d > m.ip then Failed(IpUnderflow) else Proceed(m.(ip := m.ip - d))
    case JumpIfFalse(d) => ExecJumpIfFalse(m, d)
    case Halt(_) => Finish(m)
    case _ => Failed(Unhandled(ins))
  }

  /** `Call(n)`: pop the arguments and the callee, open a frame for it and jump to its code. */
  function ExecCall(m: Machine, n: nat): Outcome
    requires |m.frames| > 0
  {
    match F.PopN(Current(m), n)
    case Err(e) => Failed(FrameFault(e))
    case Ok((popped, f1)) =>
      match F.Pop(f1)
      case Err(e) => Failed(FrameFault(e))
      case Ok((callee, f2)) =>
        match V.Display(callee)
        case None => Failed(NotDisplayable)
        case Some(name) => Enter(WithCurrent(m, f2), name, popped)
  }

  /** The end of a call: a frame for `name` whose variables are the arguments in
      the order they were pushed, returning to the instruction after the call. */
  function Enter(m: Machine, name: string, popped: seq<V.Value>): Outcome {
    if name !in m.functions then Failed(UnknownFunction(name))
    else
      var frame := F.NewFrame(FrameName(name, |m.frames|), Some(m.ip + 1), F.Reversed(popped));
      Proceed(m.(frames := m.frames + [frame], ip := m.functions[name]))
  }

  /** `Return(b)`: hand the top value (or `Null`) back to the caller, or end the run
      from the outermost frame. */
  function ExecReturn(m: Machine, b: bool): Outcome
    requires |m.frames| > 0
  {
    var popped := if b then F.Pop(Current(m)) else Ok((V.Null, Current(m)));
    match popped
    case Err(e) => Failed(FrameFault(e))
    case Ok((v, _)) =>
      match Current(m).returnPosition
      case None => Done(v, m.heap)
      case Some(p) => Resume(m.(frames := m.frames[..|m.frames| - 1], ip := p), b, v)
  }

  /** The end of a return, once the callee's frame is gone and `ip` is the return
      position: the value goes onto the caller's stack when there is one. */
  function Resume(m: Machine, b: bool, v: V.Value): Outcome {
    if m.frames == [] then Failed(NoFrame)
    else Proceed(if b then WithCurrent(m, F.Push(Current(m), v)) else m)
  }

  /** `JumpIfFalse(d)`: pop the condition; only `false` jumps. A non-positive
      offset is subtracted after Rust's `as usize` conversion. */
  function ExecJumpIfFalse(m: Machine, d: i32): Outcome
    requires |m.frames| > 0
  {
    match F.Pop(Current(m))
    case Err(e) => Failed(FrameFault(e))
    case Ok((v, f1)) =>
      var m1 := WithCurrent(m, f1);
      if v != V.Bool(false) then Proceed(m1.(ip := m.ip + 1))
      else if d > 0 then Proceed(m1.(ip := m.ip + d))
      else if UsizeOf(d) > m.ip then Failed(IpUnderflow)
      else Proceed(m1.(ip := m.ip - UsizeOf(d)))
  }

  /** The instructions that end by moving to the next one. */
  function ExecStraight(m: Machine, ins: Instruction): Outcome
    requires |m.frames| > 0
  {
    match ins
    case Assert => ExecAssert(m)
    case Print => ExecPrint(m)
    case CreateObject => ExecCreateObject(m)
    case StackPush(lit) => ExecStackPush(m, lit)
    case MoveToLocalVariable(slot) => FrameStep(m, F.Move(Current(m), slot))
    case CopyToLocalVariable(slot) => FrameStep(m, F.Copy(Current(m), slot))
    case LoadLocalVariable(slot) => FrameStep(m, F.Load(Current(m), slot))
    case LoadGlobal(i) => ExecLoadGlobal(m, i)
    case ArrayLength => ExecArrayLength(m)
    case ArrayAdd => ExecArrayAdd(m)
    case DictionaryAdd => ExecDictionaryAdd(m)
    case GetCollectionItemByKey => ExecGetItem(m)
    case SetCollectionItemByKey => ExecSetItem(m)
    case Pow => Proceed(m.(ip := m.ip + 1))
    case _ => ExecBinary(m, ins)
  }

  /** The operators are the instructions `ExecStraight` leaves to `ExecBinary`. */
  lemma StraightOperator(m: Machine, op: Instruction)
    requires |m.frames| > 0 && IsOperator(op)
    ensures ExecStraight(m, op) == ExecBinary(m, op)
  {
  }

  /** `Assert`: pop a value and panic unless it is `true`. */
  function ExecAssert(m: Machine): Outcome
    requires |m.frames| > 0
  {
    match F.Pop(Current(m))
    case Err(e) => Failed(FrameFault(e))
    case Ok((v, f1)) => if v == V.Bool(true) then Next(m, f1) else Failed(AssertionFailed)
  }

  /** `Print`: pop a value; what is written to the console is not modelled. */
  function ExecPrint(m: Machine): Outcome
    requires |m.frames| > 0
  {
    match F.Pop(Current(m))
    case Err(e) => Failed(FrameFault(e))
    case Ok((_, f1)) => Next(m, f1)
  }

  /** `CreateObject`: pop a class and push a new object holding a copy of its members. */
  function ExecCreateObject(m: Machine): Outcome
    requires |m.frames| > 0
  {
    match F.Pop(Current(m))
    case Err(e) => Failed(FrameFault(e))
    case Ok((v, f1)) =>
      if !v.Class? then Failed(NotAClass)
      else Next(m.(heap := m.heap + [V.MapCell(v.members)]), F.Push(f1, V.Object(|m.heap|)))
  }

  function ExecStackPush(m: Machine, lit: Literal): Outcome
    requires |m.frames| > 0
  {
    var (v, heap') := Materialize(m.heap, lit);
    Next(m.(heap := heap'), F.Push(Current(m), v))
  }

  function ExecLoadGlobal(m: Machine, i: nat): Outcome
    requires |m.frames| > 0
  {
    if i < |m.globals| then Next(m, F.Push(Current(m), m.globals[i])) else Failed(MissingGlobal)
  }

  function FrameStep(m: Machine, r: Result<F.FrameState, F.FrameError>): Outcome
    requires |m.frames| > 0
  {
    match r
    case Err(e) => Failed(FrameFault(e))
    case Ok(f1) => Next(m, f1)
  }

  function ExecArrayLength(m: Machine): Outcome
    requires |m.frames| > 0
  {
    match F.Pop(Current(m))
    case Err(e) => Failed(FrameFault(e))
    case Ok((a, f1)) =>
      if !a.Array? then Failed(NotAnArray)
      else if !V.IsArrayIn(m.heap, a.h) then Failed(ValueFault(V.DanglingHandle))
      else Next(m, F.Push(f1, V.Integer(WrapI32(|m.heap[a.h].elements|))))
  }

  /** `ArrayAdd`: pop a value and an array and append in place; a non-array drops both. */
  function ExecArrayAdd(m: Machine): Outcome
    requires |m.frames| > 0
  {
    match F.Pop2(Current(m))
    case Err(e) => Failed(FrameFault(e))
    case Ok((a, v, f2)) =>
      if !a.Array? then Next(m, f2)
      else if !V.IsArrayIn(m.heap, a.h) then Failed(ValueFault(V.DanglingHandle))
      else
        var heap' := m.heap[a.h := V.ArrayCell(m.heap[a.h].elements + [v])];
        Next(m.(heap := heap'), F.Push(f2, a))
  }

  /** `DictionaryAdd`: pop a value, a key and a dictionary and insert under the
      key's text; a non-dictionary drops all three. */
  function ExecDictionaryAdd(m: Machine): Outcome
    requires |m.frames| > 0
  {
    match F.Pop(Current(m))
    case Err(e) => Failed(FrameFault(e))
    case Ok((v, f1)) =>
      match F.Pop2(f1)
      case Err(e) => Failed(FrameFault(e))
      case Ok((d, key, f3)) =>
        if !d.Dictionary? then Next(m, f3)
        else if V.Display(key).None? then Failed(NotDisplayable)
        else if !V.IsMapIn(m.heap, d.h) then Failed(ValueFault(V.DanglingHandle))
        else
          var heap' := m.heap[d.h := V.MapCell(m.heap[d.h].entries[V.Display(key).value := v])];
          Next(m.(heap := heap'), F.Push(f3, d))
  }

  /** `GetCollectionItemByKey`: pop a key and a collection and push the element
      at the key. */
  function ExecGetItem(m: Machine): Outcome
    requires |m.frames| > 0
  {
    match F.Pop2(Current(m))
    case Err(e) => Failed(FrameFault(e))
    case Ok((c, key, f2)) =>
      match Lookup(m.heap, c, key)
      case Err(e) => Failed(e)
      case Ok(item) => Next(m, F.Push(f2, item))
  }

  /** The element of collection `c` at `key`: an integer index into an array, a
      string key into a dictionary. */
  function Lookup(heap: V.Heap, c: V.Value, key: V.Value): Result<V.Value, VmError> {
    if c.Array? then
      if !key.Integer? then Err(WrongKeyType)
      else if !V.IsArrayIn(heap, c.h) then Err(ValueFault(V.DanglingHandle))
      else if UsizeOf(key.i) >= |heap[c.h].elements| then Err(IndexOutOfRange)
      else Ok(heap[c.h].elements[UsizeOf(key.i)])
    else if c.Dictionary? then
      if !key.String? then Err(WrongKeyType)
      else if !V.IsMapIn(heap, c.h) then Err(ValueFault(V.DanglingHandle))
      else if key.s !in heap[c.h].entries then Err(MissingKey)
      else Ok(heap[c.h].entries[key.s])
    else Err(NotACollection)
  }

  /** `SetCollectionItemByKey`: pop a key, a value and a collection, store the
      value in place and push the collection back. */
  function ExecSetItem(m: Machine): Outcome
    requires |m.frames| > 0
  {
    match F.Pop(Current(m))
    case Err(e) => Failed(FrameFault(e))
    case Ok((key, f1)) =>
      match F.Pop2(f1)
      case Err(e) => Failed(FrameFault(e))
      case Ok((c, v, f3)) =>
        match Store(m.heap, c, key, v)
        case Err(e) => Failed(e)
        case Ok(heap') => Next(m.(heap := heap'), F.Push(f3, c))
  }

  /** The heap after storing `v` in collection `c` at `key`: an in-range integer
      index of an array, or any string key of a dictionary. */
  function Store(heap: V.Heap, c: V.Value, key: V.Value, v: V.Value): (r: Result<V.Heap, VmError>)
    ensures r.Ok? ==> |r.value| == |heap|
  {
    if c.Array? then
      if !key.Integer? then Err(WrongKeyType)
      else if !V.IsArrayIn(heap, c.h) then Err(ValueFault(V.DanglingHandle))
      else if UsizeOf(key.i) >= |heap[c.h].elements| then Err(IndexOutOfRange)
      else Ok(heap[c.h := V.ArrayCell(heap[c.h].elements[UsizeOf(key.i) := v])])
    else if c.Dictionary? then
      if !key.String? then Err(WrongKeyType)
      else if !V.IsMapIn(heap, c.h) then Err(ValueFault(V.DanglingHandle))
      else Ok(heap[c.h := V.MapCell(heap[c.h].entries[key.s := v])])
    else Err(NotACollection)
  }

  /** What a binary operator computes from (lhs, rhs); only `+` can change the
      heap, and then only the contents of a cell. */
  function Binary(heap: V.Heap, depth: nat, op: Instruction, lhs: V.Value, rhs: V.Value): (r: Result<(V.Value, V.Heap), VmError>)
    ensures r.Ok? ==> |r.value.1| == |heap|
    ensures r.Ok? && !op.Add? ==> r.value.1 == heap
  {
    match op
    case Add => (match V.Add(heap, lhs, rhs) case Ok(r) => Ok(r) case Err(e) => Err(ValueFault(e)))
    case Sub => Arith(heap, V.Sub(lhs, rhs))
    case Multiply => Arith(heap, V.Mul(lhs, rhs))
    case Divide => Arith(heap, V.Div(lhs, rhs))
    case Equal => (match V.Equal(heap, lhs, rhs, depth) case Some(b) => Ok((V.Bool(b), heap)) case None => Err(EqualityUndecided))
    case NotEqual => (match V.Equal(heap, lhs, rhs, depth) case Some(b) => Ok((V.Bool(!b), heap)) case None => Err(EqualityUndecided))
    case LessThan => Order(heap, V.Compare(lhs, rhs), true, false, false)
    case LessThanOrEqual => Order(heap, V.Compare(lhs, rhs), true, true, false)
    case GreaterThan => Order(heap, V.Compare(lhs, rhs), false, false, true)
    case GreaterThanOrEqual => Order(heap, V.Compare(lhs, rhs), false, true, true)
    case _ => Err(Unhandled(op))
  }

  function Arith(heap: V.Heap, r: Result<V.Value, V.ValueError>): Result<(V.Value, V.Heap), VmError> {
    match r
    case Ok(v) => Ok((v, heap))
    case Err(e) => Err(ValueFault(e))
  }

  /** A comparison's result: which of the three orderings it accepts. */
  function Order(heap: V.Heap, r: Result<V.Ordering, V.ValueError>, less: bool, same: bool, greater: bool): Result<(V.Value, V.Heap), VmError> {
    match r
    case Ok(Less) => Ok((V.Bool(less), heap))
    case Ok(Same) => Ok((V.Bool(same), heap))
    case Ok(Greater) => Ok((V.Bool(greater), heap))
    case Err(e) => Err(ValueFault(e))
  }

  /** The operators: pop (lhs, rhs), push the result. */
  function ExecBinary(m: Machine, op: Instruction): Outcome
    requires |m.frames| > 0
  {
    match F.Pop2(Current(m))
    case Err(e) => Failed(FrameFault(e))
    case Ok((lhs, rhs, f2)) =>
      match Binary(m.heap, m.depth, op, lhs, rhs)
      case Err(e) => Failed(e)
      case Ok((v, heap')) => Next(m.(heap := heap'), F.Push(f2, v))
  }

  // ---------------------------------------------------------------------------
  // A whole run

  /** At most `fuel` steps; `Running` when the fuel ran out first. */
  function Run(m: Machine, fuel: nat): Outcome
    decreases fuel, 0
  {
    if fuel == 0 then Running(m) else Continue(Step(m), fuel - 1)
  }

  /** A run with fuel left takes one step and goes on from its outcome. */
  lemma RunSteps(m: Machine, fuel: nat)
    requires fuel > 0
    ensures Run(m, fuel) == Continue(Step(m), fuel - 1)
    ensures forall m' :: Continue(Running(m'), fuel - 1) == Run(m', fuel - 1)
  {
  }

  /** Go on from the outcome of a step while it is still running. */
  function Continue(o: Outcome, fuel: nat): Outcome
    decreases fuel, 1
  {
    match o
    case Running(m') => Run(m', fuel)
    case other => other
  }

  /** `VM::new` and the start of `exec`: an empty program returns `Null` at once;
      otherwise the run starts at the entry function if the symbol table has it
      (else at 0) in a `main` frame whose variables are the parameters. */
  function Start(program: Program, entry: string, parameters: Option<seq<V.Value>>, heap: V.Heap, depth: nat): (o: Outcome)
    ensures |program.instructions| == 0 ==> o == Done(V.Null, heap)
    ensures |program.instructions| > 0 ==> (
      o.Running? &&
      o.m.ip == (if entry in program.symbols then program.symbols[entry] else 0) &&
      o.m.instructions == program.instructions && o.m.functions == program.symbols &&
      o.m.globals == program.globals && o.m.heap == heap &&
      |o.m.frames| == 1 && o.m.frames[0].returnPosition == None && o.m.frames[0].data == [] &&
      o.m.frames[0].variables == (if parameters.Some? then parameters.value else []))
  {
    var ip := if entry in program.symbols then program.symbols[entry] else 0;
    if |program.instructions| == 0 then Done(V.Null, heap)
    else
      var args := if parameters.Some? then parameters.value else [];
      Running(Machine(program.instructions, program.symbols, [F.NewFrame("main", None, args)],
                      program.globals, heap, ip, depth))
  }

  function Exec(program: Program, entry: string, parameters: Option<seq<V.Value>>, heap: V.Heap, depth: nat, fuel: nat): Outcome {
    match Start(program, entry, parameters, heap, depth)
    case Running(m) => Run(m, fuel)
    case other => other
  }
}
