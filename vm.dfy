/** The virtual machine as the source keeps it (src/vm/mod.rs): a `VM` object
    whose instruction pointer, frame list and containers change in place.

    The source's `frames` vector is held as the frames below the running one,
    stored by value, and the running frame itself (the source's
    `self.frames.last_mut()`), a `Frame` object whose stack and slots change in
    place. Every method is proved to move the machine exactly as the functions
    of module `Interpreter` say, so what is proved about those functions holds
    of this object. */
module VirtualMachine {
  import opened Base
  import V = Values
  import F = Frames
  import opened Bytecode
  import I = Interpreter

  /** How a step ended: go on with the next instruction, or stop with a value or a panic. */
  datatype Status = Continue | Finished(result: V.Value, heap: V.Heap) | Panicked(error: I.VmError)

  /** The outcome a status stands for, on a machine now in state `m`. */
  function AsOutcome(s: Status, m: I.Machine): I.Outcome {
    match s
    case Continue => I.Running(m)
    case Finished(v, h) => I.Done(v, h)
    case Panicked(e) => I.Failed(e)
  }

  /** Replacing the last frame leaves the frames below it alone. */
  lemma ReplaceTop(m: I.Machine, callers: seq<F.FrameState>, f: F.FrameState)
    requires |m.frames| > 0 && m.frames[..|m.frames| - 1] == callers
    ensures I.WithCurrent(m, f).frames == callers + [f]
  {
    var fs := I.WithCurrent(m, f).frames;
    assert fs == fs[..|fs| - 1] + [fs[|fs| - 1]];
  }

  class VM {
    const instructions: seq<Instruction>
    const functions: map<string, nat>
    const globals: seq<V.Value>
    const depth: nat
    /** The frames below the running one, outermost first. */
    var callers: seq<F.FrameState>
    /** The running frame; `null` until `exec` pushes `main`. */
    var current: F.Frame?
    var heap: V.Heap
    var ip: nat

    /** Without a running frame there are no frames at all. */
    ghost predicate Valid()
      reads this
    {
      current == null ==> callers == []
    }

    /** The source's `frames` vector. */
    function Frames(): seq<F.FrameState>
      reads this, current
    {
      if current == null then callers else callers + [current.Snapshot()]
    }

    function View(): I.Machine
      reads this, current
    {
      I.Machine(instructions, functions, Frames(), globals, heap, ip, depth)
    }

    /** `m` is this machine in everything but its running frame. */
    ghost predicate Below(m: I.Machine)
      reads this
    {
      m.instructions == instructions && m.functions == functions && m.globals == globals &&
      m.heap == heap && m.ip == ip && m.depth == depth &&
      |m.frames| > 0 && m.frames[..|m.frames| - 1] == callers
    }

    /** `VM::new`: the program's code, symbols and globals, no frames, and `ip` at 0. */
    constructor (program: Program, heap: V.Heap, depth: nat)
      ensures Valid() && current == null
      ensures View() == I.Machine(program.instructions, program.symbols, [], program.globals, heap, 0, depth)
    {
      instructions := program.instructions;
      functions := program.symbols;
      globals := program.globals;
      this.depth := depth;
      callers := [];
      current := null;
      this.heap := heap;
      ip := 0;
    }

    /** The final `pop_value_from_stack` of `exec`. */
    method Finish() returns (o: Status)
      requires Valid()
      ensures AsOutcome(o, View()) == I.Finish(View())
    {
      if current == null {
        return Panicked(I.NoFrame);
      }
      var top := current.GetTopValueOnStack();
      if top.Err? {
        return Panicked(I.FrameFault(top.error));
      }
      o := Finished(top.value, heap);
    }

    /** The check at the bottom of the loop. */
    method Proceed() returns (o: Status)
      requires Valid()
      ensures AsOutcome(o, View()) == I.Proceed(View())
    {
      if ip != |instructions| {
        return Continue;
      }
      o := Finish();
    }

    /** Moving to the next instruction once the running frame has changed. */
    method Advance(ghost m: I.Machine) returns (o: Status)
      requires Valid() && current != null && Below(m)
      modifies this
      ensures callers == old(callers) && current == old(current) && heap == old(heap)
      ensures AsOutcome(o, View()) == I.Next(m, current.Snapshot())
    {
      ReplaceTop(m, callers, current.Snapshot());
      ip := ip + 1;
      o := Proceed();
    }

    /** `Assert`: pop a value and panic unless it is `true`. */
    method ExecAssert() returns (o: Status)
      requires Valid() && current != null
      modifies this, current
      ensures Valid() && callers == old(callers) && current == old(current)
      ensures AsOutcome(o, View()) == I.ExecStraight(old(View()), Assert)
    {
      ghost var m := View();
      assert I.ExecStraight(m, Assert) == I.ExecAssert(m);
      var r := current.PopValueFromStack();
      if r.Err? {
        assert I.ExecAssert(m) == I.Failed(I.FrameFault(r.error));
        return Panicked(I.FrameFault(r.error));
      }
      ghost var f1 := current.Snapshot();
      assert F.Pop(I.Current(m)) == Ok((r.value, f1));
      if r.value != V.Bool(true) {
        assert I.ExecAssert(m) == I.Failed(I.AssertionFailed);
        return Panicked(I.AssertionFailed);
      }
      assert I.ExecAssert(m) == I.Next(m, f1);
      o := Advance(m);
    }

    /** `Print`: pop a value (the text written to the console is not modelled). */
    method ExecPrint() returns (o: Status)
      requires Valid() && current != null
      modifies this, current
      ensures Valid() && callers == old(callers) && current == old(current)
      ensures AsOutcome(o, View()) == I.ExecStraight(old(View()), Print)
    {
      ghost var m := View();
      assert I.ExecStraight(m, Print) == I.ExecPrint(m);
      var r := current.PopValueFromStack();
      if r.Err? {
        assert I.ExecPrint(m) == I.Failed(I.FrameFault(r.error));
        return Panicked(I.FrameFault(r.error));
      }
      ghost var f1 := current.Snapshot();
      assert F.Pop(I.Current(m)) == Ok((r.value, f1));
      assert I.ExecPrint(m) == I.Next(m, f1);
      o := Advance(m);
    }

    /** `CreateObject`: pop a class and push a new object holding a copy of its members. */
    method ExecCreateObject() returns (o: Status)
      requires Valid() && current != null
      modifies this, current
      ensures Valid() && callers == old(callers) && current == old(current)
      ensures AsOutcome(o, View()) == I.ExecStraight(old(View()), CreateObject)
    {
      ghost var m := View();
      assert I.ExecStraight(m, CreateObject) == I.ExecCreateObject(m);
      var r := current.PopValueFromStack();
      if r.Err? {
        assert I.ExecCreateObject(m) == I.Failed(I.FrameFault(r.error));
        return Panicked(I.FrameFault(r.error));
      }
      ghost var f1 := current.Snapshot();
      assert F.Pop(I.Current(m)) == Ok((r.value, f1));
      var v := r.value;
      if !v.Class? {
        assert I.ExecCreateObject(m) == I.Failed(I.NotAClass);
        return Panicked(I.NotAClass);
      }
      var h := |heap|;
      heap := heap + [V.MapCell(v.members)];
      current.PushValueToStack(V.Object(h));
      ghost var m1 := m.(heap := heap);
      assert I.ExecCreateObject(m) == I.Next(m1, F.Push(f1, V.Object(h)));
      o := Advance(m1);
    }

    /** `StackPush(literal)`. */
    method ExecStackPush(lit: Literal) returns (o: Status)
      requires Valid() && current != null
      modifies this, current
      ensures Valid() && callers == old(callers) && current == old(current)
      ensures AsOutcome(o, View()) == I.ExecStraight(old(View()), StackPush(lit))
    {
      ghost var m := View();
      assert I.ExecStraight(m, StackPush(lit)) == I.ExecStackPush(m, lit);
      var (v, heap') := I.Materialize(heap, lit);
      heap := heap';
      current.PushValueToStack(v);
      ghost var m1 := m.(heap := heap');
      assert I.ExecStackPush(m, lit) == I.Next(m1, F.Push(I.Current(m), v));
      o := Advance(m1);
    }

    /** `LoadGlobal(i)`: push global `i`. */
    method ExecLoadGlobal(i: nat) returns (o: Status)
      requires Valid() && current != null
      modifies this, current
      ensures Valid() && callers == old(callers) && current == old(current)
      ensures AsOutcome(o, View()) == I.ExecStraight(old(View()), LoadGlobal(i))
    {
      ghost var m := View();
      assert I.ExecStraight(m, LoadGlobal(i)) == I.ExecLoadGlobal(m, i);
      if i >= |globals| {
        assert I.ExecLoadGlobal(m, i) == I.Failed(I.MissingGlobal);
        return Panicked(I.MissingGlobal);
      }
      current.PushValueToStack(globals[i]);
      assert I.ExecLoadGlobal(m, i) == I.Next(m, F.Push(I.Current(m), globals[i]));
      o := Advance(m);
    }

    /** `MoveToLocalVariable(slot)`: pop the top value into a variable slot. */
    method ExecMove(slot: nat) returns (o: Status)
      requires Valid() && current != null
      modifies this, current
      ensures Valid() && callers == old(callers) && current == old(current)
      ensures AsOutcome(o, View()) == I.ExecStraight(old(View()), MoveToLocalVariable(slot))
    {
      ghost var m := View();
      var r := current.MoveFromStackToVariableSlot(slot);
      if r.Err? {
        return Panicked(I.FrameFault(r.error));
      }
      o := Advance(m);
    }

    /** `CopyToLocalVariable(slot)`: copy the top value into a variable slot. */
    method ExecCopy(slot: nat) returns (o: Status)
      requires Valid() && current != null
      modifies this, current
      ensures Valid() && callers == old(callers) && current == old(current)
      ensures AsOutcome(o, View()) == I.ExecStraight(old(View()), CopyToLocalVariable(slot))
    {
      ghost var m := View();
      var r := current.CopyFromStackToVariableSlot(slot);
      if r.Err? {
        return Panicked(I.FrameFault(r.error));
      }
      o := Advance(m);
    }

    /** `LoadLocalVariable(slot)`: push the value of a variable slot. */
    method ExecLoad(slot: nat) returns (o: Status)
      requires Valid() && current != null
      modifies this, current
      ensures Valid() && callers == old(callers) && current == old(current)
      ensures AsOutcome(o, View()) == I.ExecStraight(old(View()), LoadLocalVariable(slot))
    {
      ghost var m := View();
      var r := current.CopyFromVariableSlotToStack(slot);
      if r.Err? {
        return Panicked(I.FrameFault(r.error));
      }
      o := Advance(m);
    }

    /** `ArrayLength`: pop an array and push its length as an `i32`. */
    method ExecArrayLength() returns (o: Status)
      requires Valid() && current != null
      modifies this, current
      ensures Valid() && callers == old(callers) && current == old(current)
      ensures AsOutcome(o, View()) == I.ExecStraight(old(View()), ArrayLength)
    {
      ghost var m := View();
      assert I.ExecStraight(m, ArrayLength) == I.ExecArrayLength(m);
      var r := current.PopValueFromStack();
      if r.Err? {
        assert I.ExecArrayLength(m) == I.Failed(I.FrameFault(r.error));
        return Panicked(I.FrameFault(r.error));
      }
      ghost var f1 := current.Snapshot();
      assert F.Pop(I.Current(m)) == Ok((r.value, f1));
      var a := r.value;
      if !a.Array? {
        assert I.ExecArrayLength(m) == I.Failed(I.NotAnArray);
        return Panicked(I.NotAnArray);
      }
      if !V.IsArrayIn(heap, a.h) {
        assert I.ExecArrayLength(m) == I.Failed(I.ValueFault(V.DanglingHandle));
        return Panicked(I.ValueFault(V.DanglingHandle));
      }
      var length := V.Integer(WrapI32(|heap[a.h].elements|));
      current.PushValueToStack(length);
      assert I.ExecArrayLength(m) == I.Next(m, F.Push(f1, length));
      o := Advance(m);
    }

    /** `ArrayAdd`: pop an array and a value and append in place. */
    method ExecArrayAdd() returns (o: Status)
      requires Valid() && current != null
      modifies this, current
      ensures Valid() && callers == old(callers) && current == old(current)
      ensures AsOutcome(o, View()) == I.ExecStraight(old(View()), ArrayAdd)
    {
      ghost var m := View();
      assert I.ExecStraight(m, ArrayAdd) == I.ExecArrayAdd(m);
      var r := current.Pop2ValuesFromStack();
      if r.Err? {
        assert I.ExecArrayAdd(m) == I.Failed(I.FrameFault(r.error));
        return Panicked(I.FrameFault(r.error));
      }
      ghost var f2 := current.Snapshot();
      var (a, v) := r.value;
      assert F.Pop2(I.Current(m)) == Ok((a, v, f2));
      if !a.Array? {
        assert I.ExecArrayAdd(m) == I.Next(m, f2);
        o := Advance(m);
        return;
      }
      if !V.IsArrayIn(heap, a.h) {
        assert I.ExecArrayAdd(m) == I.Failed(I.ValueFault(V.DanglingHandle));
        return Panicked(I.ValueFault(V.DanglingHandle));
      }
      heap := heap[a.h := V.ArrayCell(heap[a.h].elements + [v])];
      current.PushValueToStack(a);
      ghost var m1 := m.(heap := heap);
      assert I.ExecArrayAdd(m) == I.Next(m1, F.Push(f2, a));
      o := Advance(m1);
    }

    /** `DictionaryAdd`: pop a dictionary, a key and a value and insert in place. */
    method ExecDictionaryAdd() returns (o: Status)
      requires Valid() && current != null
      modifies this, current
      ensures Valid() && callers == old(callers) && current == old(current)
      ensures AsOutcome(o, View()) == I.ExecStraight(old(View()), DictionaryAdd)
    {
      ghost var m := View();
      assert I.ExecStraight(m, DictionaryAdd) == I.ExecDictionaryAdd(m);
      var r := current.PopValueFromStack();
      if r.Err? {
        assert I.ExecDictionaryAdd(m) == I.Failed(I.FrameFault(r.error));
        return Panicked(I.FrameFault(r.error));
      }
      ghost var f1 := current.Snapshot();
      assert F.Pop(I.Current(m)) == Ok((r.value, f1));
      var v := r.value;
      var r2 := current.Pop2ValuesFromStack();
      if r2.Err? {
        assert I.ExecDictionaryAdd(m) == I.Failed(I.FrameFault(r2.error));
        return Panicked(I.FrameFault(r2.error));
      }
      ghost var f3 := current.Snapshot();
      var (d, key) := r2.value;
      assert F.Pop2(f1) == Ok((d, key, f3));
      if !d.Dictionary? {
        assert I.ExecDictionaryAdd(m) == I.Next(m, f3);
        o := Advance(m);
        return;
      }
      var text := V.Display(key);
      if text.None? {
        assert I.ExecDictionaryAdd(m) == I.Failed(I.NotDisplayable);
        return Panicked(I.NotDisplayable);
      }
      if !V.IsMapIn(heap, d.h) {
        assert I.ExecDictionaryAdd(m) == I.Failed(I.ValueFault(V.DanglingHandle));
        return Panicked(I.ValueFault(V.DanglingHandle));
      }
      heap := heap[d.h := V.MapCell(heap[d.h].entries[text.value := v])];
      current.PushValueToStack(d);
      ghost var m1 := m.(heap := heap);
      assert I.ExecDictionaryAdd(m) == I.Next(m1, F.Push(f3, d));
      o := Advance(m1);
    }

    /** `GetCollectionItemByKey`: pop a collection and a key and push the element. */
    method ExecGetItem() returns (o: Status)
      requires Valid() && current != null
      modifies this, current
      ensures Valid() && callers == old(callers) && current == old(current)
      ensures AsOutcome(o, View()) == I.ExecStraight(old(View()), GetCollectionItemByKey)
    {
      ghost var m := View();
      assert I.ExecStraight(m, GetCollectionItemByKey) == I.ExecGetItem(m);
      var r := current.Pop2ValuesFromStack();
      if r.Err? {
        assert I.ExecGetItem(m) == I.Failed(I.FrameFault(r.error));
        return Panicked(I.FrameFault(r.error));
      }
      ghost var f2 := current.Snapshot();
      var (c, key) := r.value;
      assert F.Pop2(I.Current(m)) == Ok((c, key, f2));
      var item := I.Lookup(heap, c, key);
      if item.Err? {
        assert I.ExecGetItem(m) == I.Failed(item.error);
        return Panicked(item.error);
      }
      current.PushValueToStack(item.value);
      assert I.ExecGetItem(m) == I.Next(m, F.Push(f2, item.value));
      o := Advance(m);
    }

    /** `SetCollectionItemByKey`: pop a collection, a value and a key, store in
        place and push the collection back. */
    method ExecSetItem() returns (o: Status)
      requires Valid() && current != null
      modifies this, current
      ensures Valid() && callers == old(callers) && current == old(current)
      ensures AsOutcome(o, View()) == I.ExecStraight(old(View()), SetCollectionItemByKey)
    {
      ghost var m := View();
      assert I.ExecStraight(m, SetCollectionItemByKey) == I.ExecSetItem(m);
      var r := current.PopValueFromStack();
      if r.Err? {
        assert I.ExecSetItem(m) == I.Failed(I.FrameFault(r.error));
        return Panicked(I.FrameFault(r.error));
      }
      ghost var f1 := current.Snapshot();
      assert F.Pop(I.Current(m)) == Ok((r.value, f1));
      var key := r.value;
      var r2 := current.Pop2ValuesFromStack();
      if r2.Err? {
        assert I.ExecSetItem(m) == I.Failed(I.FrameFault(r2.error));
        return Panicked(I.FrameFault(r2.error));
      }
      ghost var f3 := current.Snapshot();
      var (c, v) := r2.value;
      assert F.Pop2(f1) == Ok((c, v, f3));
      var stored := I.Store(heap, c, key, v);
      if stored.Err? {
        assert I.ExecSetItem(m) == I.Failed(stored.error);
        return Panicked(stored.error);
      }
      heap := stored.value;
      current.PushValueToStack(c);
      ghost var m1 := m.(heap := heap);
      assert I.ExecSetItem(m) == I.Next(m1, F.Push(f3, c));
      o := Advance(m1);
    }

    /** The arithmetic and comparison instructions: pop (lhs, rhs), push the result. */
    method ExecBinary(op: Instruction) returns (o: Status)
      requires Valid() && current != null && IsOperator(op)
      modifies this, current
      ensures Valid() && callers == old(callers) && current == old(current)
      ensures AsOutcome(o, View()) == I.ExecBinary(old(View()), op)
    {
      ghost var m := View();
      var r := current.Pop2ValuesFromStack();
      if r.Err? {
        assert I.ExecBinary(m, op) == I.Failed(I.FrameFault(r.error));
        return Panicked(I.FrameFault(r.error));
      }
      ghost var f2 := current.Snapshot();
      var (lhs, rhs) := r.value;
      assert F.Pop2(I.Current(m)) == Ok((lhs, rhs, f2));
      var result := I.Binary(heap, depth, op, lhs, rhs);
      if result.Err? {
        assert I.ExecBinary(m, op) == I.Failed(result.error);
        return Panicked(result.error);
      }
      var (v, heap') := result.value;
      heap := heap';
      current.PushValueToStack(v);
      ghost var m1 := m.(heap := heap');
      assert I.ExecBinary(m, op) == I.Next(m1, F.Push(f2, v));
      o := Advance(m1);
    }

    /** `JumpIfFalse(d)`: pop the condition; only `false` jumps. */
    method ExecJumpIfFalse(d: i32) returns (o: Status)
      requires Valid() && current != null
      modifies this, current
      ensures Valid() && callers == old(callers) && current == old(current)
      ensures AsOutcome(o, View()) == I.ExecControl(old(View()), JumpIfFalse(d))
    {
      ghost var m := View();
      var r := current.PopValueFromStack();
      if r.Err? {
        assert I.ExecJumpIfFalse(m, d) == I.Failed(I.FrameFault(r.error));
        return Panicked(I.FrameFault(r.error));
      }
      ghost var f1 := current.Snapshot();
      assert F.Pop(I.Current(m)) == Ok((r.value, f1));
      ReplaceTop(m, callers, f1);
      ghost var m1 := I.WithCurrent(m, f1);
      if r.value != V.Bool(false) {
        ip := ip + 1;
      } else if d > 0 {
        ip := ip + d;
      } else if UsizeOf(d) > ip {
        assert I.ExecJumpIfFalse(m, d) == I.Failed(I.IpUnderflow);
        return Panicked(I.IpUnderflow);
      } else {
        ip := ip - UsizeOf(d);
      }
      assert View() == m1.(ip := ip);
      assert I.ExecJumpIfFalse(m, d) == I.Proceed(m1.(ip := ip));
      o := Proceed();
    }

    /** `Call(n)`: pop the arguments (top first, then reversed) and the callee,
        and push a frame for the callee that returns to the next instruction. */
    method ExecCall(n: nat) returns (o: Status)
      requires Valid() && current != null
      modifies this, current
      ensures Valid() && (current == old(current) || fresh(current))
      ensures AsOutcome(o, View()) == I.ExecControl(old(View()), Call(n))
    {
      ghost var m := View();
      var popped := current.PopValuesFromStack(n);
      if popped.Err? {
        assert I.ExecCall(m, n) == I.Failed(I.FrameFault(popped.error));
        return Panicked(I.FrameFault(popped.error));
      }
      ghost var f1 := current.Snapshot();
      assert F.PopN(I.Current(m), n) == Ok((popped.value, f1));
      var callee := current.PopValueFromStack();
      if callee.Err? {
        assert I.ExecCall(m, n) == I.Failed(I.FrameFault(callee.error));
        return Panicked(I.FrameFault(callee.error));
      }
      ghost var f2 := current.Snapshot();
      assert F.Pop(f1) == Ok((callee.value, f2));
      var name := V.Display(callee.value);
      if name.None? {
        assert I.ExecCall(m, n) == I.Failed(I.NotDisplayable);
        return Panicked(I.NotDisplayable);
      }
      ReplaceTop(m, callers, f2);
      assert View() == I.WithCurrent(m, f2);
      assert I.ExecCall(m, n) == I.Enter(View(), name.value, popped.value);
      o := Enter(name.value, popped.value);
    }

    /** The end of a call: a new running frame whose variables are the arguments
        in the order they were pushed, and a jump to the callee's code. */
    method Enter(name: string, popped: seq<V.Value>) returns (o: Status)
      requires Valid() && current != null
      modifies this
      ensures Valid() && (current == old(current) || fresh(current))
      ensures AsOutcome(o, View()) == I.Enter(old(View()), name, popped)
    {
      if name !in functions {
        return Panicked(I.UnknownFunction(name));
      }
      var frame := new F.Frame(I.FrameName(name, |callers| + 1), Some(ip + 1), F.Reversed(popped));
      callers := callers + [current.Snapshot()];
      current := frame;
      ip := functions[name];
      o := Proceed();
    }

    /** `Return(b)`: drop the running frame and resume the caller, or end the run
        from the outermost frame. */
    method ExecReturn(b: bool) returns (o: Status)
      requires Valid() && current != null
      modifies this, current
      ensures Valid() && (current == old(current) || fresh(current))
      ensures AsOutcome(o, View()) == I.ExecControl(old(View()), Return(b))
    {
      ghost var m := View();
      var v := V.Null;
      if b {
        var r := current.PopValueFromStack();
        if r.Err? {
          assert I.ExecReturn(m, b) == I.Failed(I.FrameFault(r.error));
          return Panicked(I.FrameFault(r.error));
        }
        v := r.value;
        assert F.Pop(I.Current(m)) == Ok((v, current.Snapshot()));
      }
      if current.returnPosition.None? {
        assert I.ExecReturn(m, b) == I.Done(v, heap);
        return Finished(v, heap);
      }
      var p := current.returnPosition.value;
      assert m.frames[..|m.frames| - 1] == callers;
      assert I.ExecReturn(m, b) == I.Resume(m.(frames := callers, ip := p), b, v);
      o := Resume(b, v, p);
    }

    /** The end of a return to `p`: the caller becomes the running frame again
        and gets the value on its stack when `b` holds. */
    method Resume(b: bool, v: V.Value, p: nat) returns (o: Status)
      requires Valid() && current != null
      modifies this
      ensures Valid() && (current == old(current) || fresh(current))
      ensures AsOutcome(o, View()) == I.Resume(old(View()).(frames := old(callers), ip := p), b, v)
    {
      ghost var m := View().(frames := callers, ip := p);
      if |callers| == 0 {
        return Panicked(I.NoFrame);
      }
      var caller := new F.Frame.Resume(callers[|callers| - 1]);
      callers := callers[..|callers| - 1];
      current := caller;
      ip := p;
      if b {
        caller.PushValueToStack(v);
      }
      ReplaceTop(m, callers, caller.Snapshot());
      o := Proceed();
    }

    /** `JumpForward`, `JumpBackward`, `Halt` and the instructions the interpreter has no case for. */
    method ExecJump(ins: Instruction) returns (o: Status)
      requires Valid() && current != null && !(ins.Call? || ins.Return? || ins.JumpIfFalse?)
      modifies this
      ensures Valid() && current == old(current)
      ensures AsOutcome(o, View()) == I.ExecControl(old(View()), ins)
    {
      if ins.JumpForward? {
        ip := ip + ins.forward;
        o := Proceed();
      } else if ins.JumpBackward? {
        if ins.backward > ip {
          return Panicked(I.IpUnderflow);
        }
        ip := ip - ins.backward;
        o := Proceed();
      } else if ins.Halt? {
        o := Finish();
      } else {
        o := Panicked(I.Unhandled(ins));
      }
    }

    /** The instructions that decide where the run goes next. */
    method ExecControl(ins: Instruction) returns (o: Status)
      requires Valid() && current != null
      modifies this, current
      ensures Valid() && (current == old(current) || fresh(current))
      ensures AsOutcome(o, View()) == I.ExecControl(old(View()), ins)
    {
      if ins.Call? {
        o := ExecCall(ins.argc);
      } else if ins.Return? {
        o := ExecReturn(ins.hasValue);
      } else if ins.JumpIfFalse? {
        o := ExecJumpIfFalse(ins.offset);
      } else {
        o := ExecJump(ins);
      }
    }

    /** The built-ins, `CreateObject` and `StackPush`. */
    method StackInstruction(ins: Instruction) returns (o: Status)
      requires Valid() && current != null && (ins.Assert? || ins.Print? || ins.CreateObject? || ins.StackPush?)
      modifies this, current
      ensures Valid() && current == old(current)
      ensures AsOutcome(o, View()) == I.ExecStraight(old(View()), ins)
    {
      match ins {
        case Assert => o := ExecAssert();
        case Print => o := ExecPrint();
        case CreateObject => o := ExecCreateObject();
        case StackPush(lit) => o := ExecStackPush(lit);
      }
    }

    /** The instructions on variable slots and globals. */
    method SlotInstruction(ins: Instruction) returns (o: Status)
      requires Valid() && current != null && (ins.MoveToLocalVariable? || ins.CopyToLocalVariable? || ins.LoadLocalVariable? || ins.LoadGlobal?)
      modifies this, current
      ensures Valid() && current == old(current)
      ensures AsOutcome(o, View()) == I.ExecStraight(old(View()), ins)
    {
      match ins {
        case MoveToLocalVariable(slot) => o := ExecMove(slot);
        case CopyToLocalVariable(slot) => o := ExecCopy(slot);
        case LoadLocalVariable(slot) => o := ExecLoad(slot);
        case LoadGlobal(i) => o := ExecLoadGlobal(i);
      }
    }

    /** The instructions on arrays and dictionaries. */
    method CollectionInstruction(ins: Instruction) returns (o: Status)
      requires Valid() && current != null && (ins.ArrayLength? || ins.ArrayAdd? || ins.DictionaryAdd? || ins.GetCollectionItemByKey? || ins.SetCollectionItemByKey?)
      modifies this, current
      ensures Valid() && current == old(current)
      ensures AsOutcome(o, View()) == I.ExecStraight(old(View()), ins)
    {
      match ins {
        case ArrayLength => o := ExecArrayLength();
        case ArrayAdd => o := ExecArrayAdd();
        case DictionaryAdd => o := ExecDictionaryAdd();
        case GetCollectionItemByKey => o := ExecGetItem();
        case SetCollectionItemByKey => o := ExecSetItem();
      }
    }

    /** The instructions after which the run moves to the next one. */
    method ExecStraight(ins: Instruction) returns (o: Status)
      requires Valid() && current != null && IsStraightLine(ins)
      modifies this, current
      ensures Valid() && current == old(current)
      ensures AsOutcome(o, View()) == I.ExecStraight(old(View()), ins)
    {
      if ins.Assert? || ins.Print? || ins.CreateObject? || ins.StackPush? {
        o := StackInstruction(ins);
      } else if ins.MoveToLocalVariable? || ins.CopyToLocalVariable? || ins.LoadLocalVariable? || ins.LoadGlobal? {
        o := SlotInstruction(ins);
      } else if ins.ArrayLength? || ins.ArrayAdd? || ins.DictionaryAdd? || ins.GetCollectionItemByKey? || ins.SetCollectionItemByKey? {
        o := CollectionInstruction(ins);
      } else if ins.Pow? {
        ip := ip + 1;
        o := Proceed();
      } else {
        I.StraightOperator(View(), ins);
        o := ExecBinary(ins);
      }
    }

    /** One pass of the loop in `exec`: fetch the instruction at `ip` and run it. */
    method Step() returns (o: Status)
      requires Valid()
      modifies this, current
      ensures Valid() && (current == old(current) || fresh(current))
      ensures AsOutcome(o, View()) == I.Step(old(View()))
    {
      if ip >= |instructions| {
        return Panicked(I.MissingInstruction);
      }
      if current == null {
        return Panicked(I.NoFrame);
      }
      var ins := instructions[ip];
      if IsStraightLine(ins) {
        o := ExecStraight(ins);
      } else {
        o := ExecControl(ins);
      }
    }

    /** One pass of the loop with `fuel` steps left. */
    method Tick(ghost fuel: nat) returns (s: Status)
      requires Valid() && fuel > 0
      modifies this, current
      ensures Valid() && (current == old(current) || fresh(current))
      ensures s.Continue? ==> I.Run(old(View()), fuel) == I.Run(View(), fuel - 1)
      ensures !s.Continue? ==> I.Run(old(View()), fuel) == AsOutcome(s, View())
    {
      I.RunSteps(View(), fuel);
      s := Step();
    }

    /** The loop of `exec`: step until the run ends or `fuel` steps have run. */
    method Run(fuel: nat) returns (r: I.Outcome)
      requires Valid()
      modifies this, current
      ensures r == I.Run(old(View()), fuel)
    {
      var left := fuel;
      while true
        invariant Valid() && (current == old(current) || fresh(current))
        invariant I.Run(View(), left) == I.Run(old(View()), fuel)
        decreases left
      {
        if left == 0 {
          return I.Running(View());
        }
        var s := Tick(left);
        if !s.Continue? {
          return AsOutcome(s, View());
        }
        left := left - 1;
      }
    }

    /** `exec`: start at the entry function (or at 0), in a `main` frame holding
        the parameters, and run at most `fuel` steps. */
    method Exec(entry: string, parameters: Option<seq<V.Value>>, fuel: nat) returns (r: I.Outcome)
      requires Valid() && current == null && ip == 0
      modifies this
      ensures r == I.Exec(Program(instructions, functions, globals), entry, parameters, old(heap), depth, fuel)
    {
      ghost var program := Program(instructions, functions, globals);
      if entry in functions {
        ip := functions[entry];
      }
      if |instructions| == 0 {
        return I.Done(V.Null, heap);
      }
      var args := if parameters.Some? then parameters.value else [];
      current := new F.Frame("main", None, args);
      assert I.Start(program, entry, parameters, old(heap), depth) == I.Running(View());
      r := Run(fuel);
    }
  }
}
