/** What one interpreter step does, instruction by instruction, stated in terms
    of the current frame's stack before the step (src/vm/mod.rs). */
module InterpreterProperties {
  import opened Base
  import V = Values
  import F = Frames
  import opened Bytecode
  import opened Interpreter

  /** The machine with the current frame's stack replaced by `data`. */
  function WithStack(m: Machine, data: seq<V.Value>): Machine
    requires |m.frames| > 0
  {
    WithCurrent(m, Current(m).(data := data))
  }

  lemma PopOf(f: F.FrameState, rest: seq<V.Value>, v: V.Value)
    requires f.data == rest + [v]
    ensures F.Pop(f) == Ok((v, f.(data := rest)))
  {
    assert f.data[..|f.data| - 1] == rest;
  }

  lemma Pop2Of(f: F.FrameState, rest: seq<V.Value>, a: V.Value, b: V.Value)
    requires f.data == rest + [a, b]
    ensures F.Pop2(f) == Ok((a, b, f.(data := rest)))
  {
    PopOf(f, rest + [a], b);
    PopOf(f.(data := rest + [a]), rest, a);
  }

  lemma ReversedTwice<T>(s: seq<T>)
    ensures F.Reversed(F.Reversed(s)) == s
  {
    if s != [] {
      ReversedTwice(s[1..]);
      F.ReversedOfSnoc(F.Reversed(s[1..]), s[0]);
      assert s == [s[0]] + s[1..];
    }
  }

  // ---------------------------------------------------------------------------
  // Invariants of every step

  /** What every step keeps: the code, symbols, globals and equality depth, a heap
      that only grows, and at least one frame; `dk` is the change in frame depth. */
  predicate Keeps(m: Machine, o: Outcome, dk: int) {
    o.Running? ==>
      o.m.instructions == m.instructions && o.m.functions == m.functions &&
      o.m.globals == m.globals && o.m.depth == m.depth &&
      |o.m.heap| >= |m.heap| && |o.m.frames| == |m.frames| + dk && |o.m.frames| > 0
  }

  /** What a straight-line instruction does to the instruction pointer. */
  predicate Advances(m: Machine, o: Outcome) {
    (o.Running? ==> o.m.ip == m.ip + 1) && (o.Done? ==> m.ip + 1 == |m.instructions|)
  }

  lemma ArrayLengthKeeps(m: Machine)
    requires |m.frames| > 0
    ensures Keeps(m, ExecArrayLength(m), 0) && Advances(m, ExecArrayLength(m))
  {
  }

  lemma ArrayAddKeeps(m: Machine)
    requires |m.frames| > 0
    ensures Keeps(m, ExecArrayAdd(m), 0) && Advances(m, ExecArrayAdd(m))
  {
  }

  lemma DictionaryAddKeeps(m: Machine)
    requires |m.frames| > 0
    ensures Keeps(m, ExecDictionaryAdd(m), 0) && Advances(m, ExecDictionaryAdd(m))
  {
  }

  lemma GetItemKeeps(m: Machine)
    requires |m.frames| > 0
    ensures Keeps(m, ExecGetItem(m), 0) && Advances(m, ExecGetItem(m))
  {
  }

  lemma SetItemKeeps(m: Machine)
    requires |m.frames| > 0
    ensures Keeps(m, ExecSetItem(m), 0) && Advances(m, ExecSetItem(m))
  {
  }

  lemma BinaryKeeps(m: Machine, op: Instruction)
    requires |m.frames| > 0
    ensures Keeps(m, ExecBinary(m, op), 0) && Advances(m, ExecBinary(m, op))
  {
    match F.Pop2(Current(m))
    case Err(_) =>
    case Ok((lhs, rhs, f2)) =>
      match Binary(m.heap, m.depth, op, lhs, rhs)
      case Err(_) =>
      case Ok((v, heap')) =>
  }

  lemma FrameStepKeeps(m: Machine, r: Result<F.FrameState, F.FrameError>)
    requires |m.frames| > 0
    ensures Keeps(m, FrameStep(m, r), 0) && Advances(m, FrameStep(m, r))
  {
  }

  lemma PopInstructionsKeep(m: Machine, ins: Instruction)
    requires |m.frames| > 0 && (ins.Assert? || ins.Print? || ins.CreateObject?)
    ensures Keeps(m, ExecStraight(m, ins), 0) && Advances(m, ExecStraight(m, ins))
  {
  }

  lemma PushInstructionsKeep(m: Machine, ins: Instruction)
    requires |m.frames| > 0 && (ins.StackPush? || ins.LoadGlobal? || ins.Pow?)
    ensures Keeps(m, ExecStraight(m, ins), 0) && Advances(m, ExecStraight(m, ins))
  {
  }

  lemma {:induction false} StraightKeeps(m: Machine, ins: Instruction)
    requires |m.frames| > 0 && IsStraightLine(ins)
    ensures Keeps(m, ExecStraight(m, ins), 0) && Advances(m, ExecStraight(m, ins))
  {
    var f := Current(m);
    if ins.Assert? || ins.Print? || ins.CreateObject? {
      PopInstructionsKeep(m, ins);
    } else if ins.StackPush? || ins.LoadGlobal? || ins.Pow? {
      PushInstructionsKeep(m, ins);
    } else if ins.MoveToLocalVariable? {
      assert ExecStraight(m, ins) == FrameStep(m, F.Move(f, ins.moveSlot));
      FrameStepKeeps(m, F.Move(f, ins.moveSlot));
    } else if ins.CopyToLocalVariable? {
      assert ExecStraight(m, ins) == FrameStep(m, F.Copy(f, ins.copySlot));
      FrameStepKeeps(m, F.Copy(f, ins.copySlot));
    } else if ins.LoadLocalVariable? {
      assert ExecStraight(m, ins) == FrameStep(m, F.Load(f, ins.loadSlot));
      FrameStepKeeps(m, F.Load(f, ins.loadSlot));
    } else if ins.ArrayLength? {
      ArrayLengthKeeps(m);
    } else if ins.ArrayAdd? {
      ArrayAddKeeps(m);
    } else if ins.DictionaryAdd? {
      DictionaryAddKeeps(m);
    } else if ins.GetCollectionItemByKey? {
      GetItemKeeps(m);
    } else if ins.SetCollectionItemByKey? {
      SetItemKeeps(m);
    } else {
      assert ExecStraight(m, ins) == ExecBinary(m, ins);
      BinaryKeeps(m, ins);
    }
  }

  lemma StepIsStraight(m: Machine)
    requires m.ip < |m.instructions| && |m.frames| > 0 && IsStraightLine(m.instructions[m.ip])
    ensures Step(m) == ExecStraight(m, m.instructions[m.ip])
  {
  }

  lemma StepIsControl(m: Machine)
    requires m.ip < |m.instructions| && |m.frames| > 0 && !IsStraightLine(m.instructions[m.ip])
    ensures Step(m) == ExecControl(m, m.instructions[m.ip])
  {
  }

  lemma CallKeeps(m: Machine, n: nat)
    requires |m.frames| > 0
    ensures Keeps(m, ExecCall(m, n), 1)
  {
  }

  lemma ReturnKeeps(m: Machine, b: bool)
    requires |m.frames| > 0
    ensures Keeps(m, ExecReturn(m, b), -1)
  {
  }

  lemma ProceedKeeps(m: Machine, m': Machine, dk: int)
    requires m'.instructions == m.instructions && m'.functions == m.functions
    requires m'.globals == m.globals && m'.depth == m.depth && |m'.heap| >= |m.heap|
    requires |m'.frames| == |m.frames| + dk && |m'.frames| > 0
    ensures Keeps(m, Proceed(m'), dk)
  {
  }

  lemma JumpIfFalseKeeps(m: Machine, d: i32)
    requires |m.frames| > 0
    ensures Keeps(m, ExecJumpIfFalse(m, d), 0)
  {
    match F.Pop(Current(m))
    case Err(_) =>
    case Ok((v, f1)) =>
      var m1 := WithCurrent(m, f1);
      if v != V.Bool(false) {
        ProceedKeeps(m, m1.(ip := m.ip + 1), 0);
      } else if d > 0 {
        ProceedKeeps(m, m1.(ip := m.ip + d), 0);
      } else if UsizeOf(d) <= m.ip {
        ProceedKeeps(m, m1.(ip := m.ip - UsizeOf(d)), 0);
      }
  }

  /** A step never changes the code, the symbol table, the globals or the
      equality depth, never frees a container, and leaves at least one frame;
      only `Call` adds a frame and only `Return` removes one. */
  lemma {:induction false} StepKeepsProgram(m: Machine)
    requires Step(m).Running?
    ensures var ins := m.instructions[m.ip];
      Keeps(m, Step(m), if ins.Call? then 1 else if ins.Return? then -1 else 0)
  {
    var ins := m.instructions[m.ip];
    if ins.Call? {
      CallKeeps(m, ins.argc);
    } else if ins.Return? {
      ReturnKeeps(m, ins.hasValue);
    } else if ins.JumpIfFalse? {
      JumpIfFalseKeeps(m, ins.offset);
    } else if IsStraightLine(ins) {
      StraightKeeps(m, ins);
      StepIsStraight(m);
    }
  }

  /** Every instruction other than a call, return, jump or halt moves to the next
      instruction; when that is the end of the code the run finishes there. */
  lemma {:induction false} StraightLineAdvances(m: Machine)
    requires m.ip < |m.instructions| && |m.frames| > 0 && IsStraightLine(m.instructions[m.ip])
    ensures Step(m).Running? ==> Step(m).m.ip == m.ip + 1 && |Step(m).m.frames| == |m.frames|
    ensures Step(m).Done? ==> m.ip + 1 == |m.instructions|
  {
    StraightKeeps(m, m.instructions[m.ip]);
    StepIsStraight(m);
  }

  // ---------------------------------------------------------------------------
  // Calls and returns
  //
  // The lemmas from here on are about the function `Step` dispatches to
  // (`StepIsStraight`, `StepIsControl`), given the current frame's stack.

  /** What `Call(n)` pops: the `n` arguments, newest first, then the callee. */
  lemma CallPopsCallee(m: Machine, rest: seq<V.Value>, callee: V.Value, args: seq<V.Value>)
    requires |m.frames| > 0 && Current(m).data == rest + [callee] + args
    ensures F.PopN(Current(m), |args|) == Ok((F.Reversed(args), Current(m).(data := rest + [callee])))
    ensures F.Pop(Current(m).(data := rest + [callee])) == Ok((callee, Current(m).(data := rest)))
  {
    var f := Current(m);
    var n := |args|;
    var below := rest + [callee];
    assert f.data[|f.data| - n..] == args;
    assert f.data[..|f.data| - n] == below;
    F.PopNTakesReversedSuffix(f, n);
    PopOf(f.(data := below), rest, callee);
  }

  /** `Call(n)` with the callee under `n` arguments: the arguments, in the order
      they were pushed, become the variables of a new frame named after the
      callee and the depth, which returns to the next instruction; the run jumps
      to the callee's code. */
  lemma {:induction false} CallOpensFrame(m: Machine, rest: seq<V.Value>, callee: V.Value, args: seq<V.Value>, name: string)
    requires |m.frames| > 0 && Current(m).data == rest + [callee] + args
    requires V.Display(callee) == Some(name) && name in m.functions
    ensures ExecCall(m, |args|) == Proceed(m.(
      frames := WithStack(m, rest).frames + [F.NewFrame(FrameName(name, |m.frames|), Some(m.ip + 1), args)],
      ip := m.functions[name]))
  {
    CallPopsCallee(m, rest, callee, args);
    var m1 := WithStack(m, rest);
    assert ExecCall(m, |args|) == Enter(m1, name, F.Reversed(args));
    ReversedTwice(args);
  }

  /** A callee whose name is not in the symbol table stops the run. */
  lemma {:induction false} CallUnknownFunctionFails(m: Machine, rest: seq<V.Value>, callee: V.Value, args: seq<V.Value>, name: string)
    requires |m.frames| > 0 && Current(m).data == rest + [callee] + args
    requires V.Display(callee) == Some(name) && name !in m.functions
    ensures ExecCall(m, |args|) == Failed(UnknownFunction(name))
  {
    CallPopsCallee(m, rest, callee, args);
  }

  /** `Return(b)` in the outermost frame ends the run with the top value, or
      `Null` when `b` is false. */
  lemma ReturnFromOutermost(m: Machine, b: bool)
    requires |m.frames| > 0 && Current(m).returnPosition == None
    requires b ==> |Current(m).data| > 0
    ensures ExecReturn(m, b) == Done(if b then Current(m).data[|Current(m).data| - 1] else V.Null, m.heap)
  {
  }

  /** `Return(b)` in a called frame drops the frame and resumes at its return
      position; the caller's stack gains the returned value only when `b` holds. */
  lemma ReturnToCaller(m: Machine, b: bool, p: nat)
    requires |m.frames| >= 2 && Current(m).returnPosition == Some(p)
    requires b ==> |Current(m).data| > 0
    ensures var callers := m.frames[..|m.frames| - 1];
      var caller := callers[|callers| - 1];
      ExecReturn(m, b) == Proceed(m.(
        frames := callers[|callers| - 1 := if b then F.Push(caller, Current(m).data[|Current(m).data| - 1]) else caller],
        ip := p))
  {
  }

  /** A `Return` from a called frame that is the only frame stops the run. */
  lemma ReturnWithoutCallerFails(m: Machine, b: bool, p: nat)
    requires |m.frames| == 1 && Current(m).returnPosition == Some(p)
    requires b ==> |Current(m).data| > 0
    ensures ExecReturn(m, b) == Failed(NoFrame)
  {
  }

  // ---------------------------------------------------------------------------
  // Jumps

  /** `JumpIfFalse(d)` always pops the condition. Only `false` jumps: forward by
      a positive `d`; a zero `d` stays on the same instruction and a negative one
      underflows the instruction pointer. Any other value falls through. */
  lemma JumpIfFalseEffect(m: Machine, d: i32, rest: seq<V.Value>, v: V.Value)
    requires |m.frames| > 0 && Current(m).data == rest + [v]
    requires m.ip <= I32_MAX
    ensures var m1 := WithStack(m, rest);
      ExecJumpIfFalse(m, d) == if v != V.Bool(false) then Proceed(m1.(ip := m.ip + 1))
                               else if d > 0 then Proceed(m1.(ip := m.ip + d))
                               else if d == 0 then Proceed(m1)
                               else Failed(IpUnderflow)
  {
    PopOf(Current(m), rest, v);
  }

  /** `JumpForward(d)` adds `d` to the instruction pointer; `JumpBackward(d)`
      subtracts it and fails when that would go below zero. Neither touches a
      frame. `Halt` ends the run with the current frame's top value, whatever
      the instruction pointer. */
  lemma JumpsMoveIp(m: Machine, d: nat, msg: string)
    requires |m.frames| > 0
    ensures ExecControl(m, JumpForward(d)) == Proceed(m.(ip := m.ip + d))
    ensures ExecControl(m, JumpBackward(d)) == if d <= m.ip then Proceed(m.(ip := m.ip - d)) else Failed(IpUnderflow)
    ensures |Current(m).data| > 0 ==> ExecControl(m, Halt(msg)) == Done(Current(m).data[|Current(m).data| - 1], m.heap)
  {
  }

  // ---------------------------------------------------------------------------
  // Built-ins and objects

  /** `Assert` pops one value: `true` goes on, anything else stops the run. */
  lemma AssertEffect(m: Machine, rest: seq<V.Value>, v: V.Value)
    requires |m.frames| > 0 && Current(m).data == rest + [v]
    ensures v == V.Bool(true) ==> ExecAssert(m) == Proceed(WithStack(m, rest).(ip := m.ip + 1))
    ensures v != V.Bool(true) ==> ExecAssert(m) == Failed(AssertionFailed)
  {
    PopOf(Current(m), rest, v);
  }

  /** `CreateObject` replaces a class with a new object whose entries are a copy of
      the class's members; the new handle differs from every existing one. */
  lemma CreateObjectCopiesClass(m: Machine, rest: seq<V.Value>, members: map<string, V.Value>)
    requires |m.frames| > 0 && Current(m).data == rest + [V.Class(members)]
    ensures ExecCreateObject(m) == Proceed(WithStack(m, rest + [V.Object(|m.heap|)]).(heap := m.heap + [V.MapCell(members)], ip := m.ip + 1))
    ensures !V.IsArrayIn(m.heap, |m.heap|) && !V.IsMapIn(m.heap, |m.heap|)
  {
    PopOf(Current(m), rest, V.Class(members));
  }

  // ---------------------------------------------------------------------------
  // Containers, updated in place

  /** `DictionaryAdd` inserts or overwrites one key of the shared dictionary (the
      key's display text), leaves every other key and every other cell alone and
      pushes the same handle back, so every alias sees the new entry. */
  lemma DictionaryAddInPlace(m: Machine, rest: seq<V.Value>, h: V.Handle, key: V.Value, v: V.Value, k: string)
    requires |m.frames| > 0 && Current(m).data == rest + [V.Dictionary(h), key, v]
    requires V.IsMapIn(m.heap, h) && V.Display(key) == Some(k)
    ensures ExecDictionaryAdd(m) == Proceed(WithStack(m, rest + [V.Dictionary(h)]).(
      heap := m.heap[h := V.MapCell(m.heap[h].entries[k := v])], ip := m.ip + 1))
  {
    PopOf(Current(m), rest + [V.Dictionary(h), key], v);
    Pop2Of(Current(m).(data := rest + [V.Dictionary(h), key]), rest, V.Dictionary(h), key);
  }

  /** `DictionaryAdd` on something other than a dictionary silently drops all three values. */
  lemma DictionaryAddOnNonDictionaryDrops(m: Machine, rest: seq<V.Value>, d: V.Value, key: V.Value, v: V.Value)
    requires |m.frames| > 0 && Current(m).data == rest + [d, key, v] && !d.Dictionary?
    ensures ExecDictionaryAdd(m) == Proceed(WithStack(m, rest).(ip := m.ip + 1))
  {
    PopOf(Current(m), rest + [d, key], v);
    Pop2Of(Current(m).(data := rest + [d, key]), rest, d, key);
  }

  /** `ArrayAdd` appends to the shared array in place and pushes the same handle
      back; on something other than an array it drops both values. */
  lemma ArrayAddInPlace(m: Machine, rest: seq<V.Value>, a: V.Value, v: V.Value)
    requires |m.frames| > 0 && Current(m).data == rest + [a, v]
    ensures a.Array? && V.IsArrayIn(m.heap, a.h) ==> ExecArrayAdd(m) == Proceed(WithStack(m, rest + [a]).(
      heap := m.heap[a.h := V.ArrayCell(m.heap[a.h].elements + [v])], ip := m.ip + 1))
    ensures !a.Array? ==> ExecArrayAdd(m) == Proceed(WithStack(m, rest).(ip := m.ip + 1))
  {
    Pop2Of(Current(m), rest, a, v);
  }

  /** `ArrayLength` replaces an array with its length, wrapped to an `i32`. */
  lemma ArrayLengthEffect(m: Machine, rest: seq<V.Value>, h: V.Handle)
    requires |m.frames| > 0 && Current(m).data == rest + [V.Array(h)] && V.IsArrayIn(m.heap, h)
    ensures ExecArrayLength(m) == Proceed(WithStack(m, rest + [V.Integer(WrapI32(|m.heap[h].elements|))]).(ip := m.ip + 1))
  {
    PopOf(Current(m), rest, V.Array(h));
  }

  /** `SetCollectionItemByKey` on an array overwrites one in-range index in place;
      an index outside the array stops the run. */
  lemma SetArrayItem(m: Machine, rest: seq<V.Value>, h: V.Handle, v: V.Value, i: i32)
    requires |m.frames| > 0 && Current(m).data == rest + [V.Array(h), v, V.Integer(i)]
    requires V.IsArrayIn(m.heap, h)
    ensures 0 <= i < |m.heap[h].elements| ==> ExecSetItem(m) == Proceed(WithStack(m, rest + [V.Array(h)]).(
      heap := m.heap[h := V.ArrayCell(m.heap[h].elements[i := v])], ip := m.ip + 1))
    ensures !(0 <= i < |m.heap[h].elements|) && |m.heap[h].elements| <= I32_MAX ==> ExecSetItem(m) == Failed(IndexOutOfRange)
  {
    PopOf(Current(m), rest + [V.Array(h), v], V.Integer(i));
    Pop2Of(Current(m).(data := rest + [V.Array(h), v]), rest, V.Array(h), v);
  }

  /** `SetCollectionItemByKey` on a dictionary with a string key inserts or
      overwrites that key in place. */
  lemma SetDictionaryItem(m: Machine, rest: seq<V.Value>, h: V.Handle, v: V.Value, k: string)
    requires |m.frames| > 0 && Current(m).data == rest + [V.Dictionary(h), v, V.String(k)]
    requires V.IsMapIn(m.heap, h)
    ensures ExecSetItem(m) == Proceed(WithStack(m, rest + [V.Dictionary(h)]).(
      heap := m.heap[h := V.MapCell(m.heap[h].entries[k := v])], ip := m.ip + 1))
  {
    PopOf(Current(m), rest + [V.Dictionary(h), v], V.String(k));
    Pop2Of(Current(m).(data := rest + [V.Dictionary(h), v]), rest, V.Dictionary(h), v);
  }

  /** `GetCollectionItemByKey` reads an array by integer index and a dictionary by
      string key; a missing index or key, or a key of the wrong type, stops the run. */
  lemma GetItem(m: Machine, rest: seq<V.Value>, c: V.Value, key: V.Value)
    requires |m.frames| > 0 && Current(m).data == rest + [c, key]
    ensures c.Array? && V.IsArrayIn(m.heap, c.h) && key.Integer? && 0 <= key.i < |m.heap[c.h].elements| ==>
      ExecGetItem(m) == Proceed(WithStack(m, rest + [m.heap[c.h].elements[key.i]]).(ip := m.ip + 1))
    ensures c.Array? && V.IsArrayIn(m.heap, c.h) && key.Integer? && |m.heap[c.h].elements| <= I32_MAX &&
            !(0 <= key.i < |m.heap[c.h].elements|) ==>
      ExecGetItem(m) == Failed(IndexOutOfRange)
    ensures c.Dictionary? && V.IsMapIn(m.heap, c.h) && key.String? && key.s in m.heap[c.h].entries ==>
      ExecGetItem(m) == Proceed(WithStack(m, rest + [m.heap[c.h].entries[key.s]]).(ip := m.ip + 1))
    ensures c.Dictionary? && V.IsMapIn(m.heap, c.h) && key.String? && key.s !in m.heap[c.h].entries ==>
      ExecGetItem(m) == Failed(MissingKey)
    ensures (c.Array? && !key.Integer?) || (c.Dictionary? && !key.String?) ==> ExecGetItem(m) == Failed(WrongKeyType)
    ensures !c.Array? && !c.Dictionary? ==> ExecGetItem(m) == Failed(NotACollection)
  {
    Pop2Of(Current(m), rest, c, key);
  }

  /** The arithmetic and comparison instructions push the operator's result on
      (lhs, rhs), where rhs was the top of the stack. */
  lemma BinaryPushesResult(m: Machine, rest: seq<V.Value>, lhs: V.Value, rhs: V.Value, op: Instruction)
    requires |m.frames| > 0 && Current(m).data == rest + [lhs, rhs]
    requires Binary(m.heap, m.depth, op, lhs, rhs).Ok?
    ensures var (v, heap') := Binary(m.heap, m.depth, op, lhs, rhs).value;
      ExecBinary(m, op) == Proceed(WithStack(m, rest + [v]).(heap := heap', ip := m.ip + 1))
  {
    Pop2Of(Current(m), rest, lhs, rhs);
  }

  /** On two integers the comparison instructions push exactly the mathematical comparison. */
  lemma IntegerComparisons(heap: V.Heap, depth: nat, x: i32, y: i32)
    ensures Binary(heap, depth, LessThan, V.Integer(x), V.Integer(y)) == Ok((V.Bool(x < y), heap))
    ensures Binary(heap, depth, LessThanOrEqual, V.Integer(x), V.Integer(y)) == Ok((V.Bool(x <= y), heap))
    ensures Binary(heap, depth, GreaterThan, V.Integer(x), V.Integer(y)) == Ok((V.Bool(x > y), heap))
    ensures Binary(heap, depth, GreaterThanOrEqual, V.Integer(x), V.Integer(y)) == Ok((V.Bool(x >= y), heap))
  {
    assert V.Compare(V.Integer(x), V.Integer(y)) == Ok(if x < y then V.Less else if x == y then V.Same else V.Greater);
  }

  lemma IntegerEquality(heap: V.Heap, depth: nat, x: i32, y: i32)
    ensures Binary(heap, depth, Equal, V.Integer(x), V.Integer(y)) == Ok((V.Bool(x == y), heap))
    ensures Binary(heap, depth, NotEqual, V.Integer(x), V.Integer(y)) == Ok((V.Bool(x != y), heap))
  {
    assert V.Equal(heap, V.Integer(x), V.Integer(y), depth) == Some(x == y);
  }

  // ---------------------------------------------------------------------------
  // Whole runs

  /** An empty program returns `Null` without running anything. */
  lemma EmptyProgramReturnsNull(program: Program, entry: string, parameters: Option<seq<V.Value>>, heap: V.Heap, depth: nat, fuel: nat)
    requires program.instructions == []
    ensures Exec(program, entry, parameters, heap, depth, fuel) == Done(V.Null, heap)
  {
  }

  /** Running `a + b` steps is running `a` steps, then `b` more from where that stopped. */
  lemma {:induction false} RunSplits(m: Machine, a: nat, b: nat)
    ensures Run(m, a + b) == Continue(Run(m, a), b)
    decreases a, 1
  {
    if a > 0 {
      RunSteps(m, a + b);
      RunSteps(m, a);
      RunSplitsAfter(m, Step(m), a, b);
    }
  }

  /** The step of `RunSplits` once the first step's outcome `o` is named. */
  lemma RunSplitsAfter(m: Machine, o: Outcome, a: nat, b: nat)
    requires a > 0
    requires Run(m, a + b) == Continue(o, a - 1 + b) && Run(m, a) == Continue(o, a - 1)
    ensures Run(m, a + b) == Continue(Run(m, a), b)
    decreases a, 0
  {
    ContinueSplits(o, a - 1, b);
  }

  lemma {:induction false} ContinueSplits(o: Outcome, a: nat, b: nat)
    ensures Continue(o, a + b) == Continue(Continue(o, a), b)
    decreases a, 2
  {
    if o.Running? {
      RunSplits(o.m, a, b);
    }
  }
}
