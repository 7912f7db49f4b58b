/** A call frame (src/vm/frame.rs): the function's name, where to return to,
    its variable slots and its operand stack.

    `FrameState` and the functions on it say what each operation does; the
    class `Frame` keeps the same fields and updates them in place, and each of
    its methods is proved to move its state exactly as the matching function
    says. */
module Frames {
  import opened Base
  import opened Values

  datatype FrameState = FrameState(
    name: string,
    returnPosition: Option<nat>,
    variables: seq<Value>,
    data: seq<Value>)

  /** The two ways a frame operation panics in the source. */
  datatype FrameError = EmptyStack | MissingVariable

  function Reversed<T>(s: seq<T>): (r: seq<T>)
    ensures |r| == |s|
  {
    if s == [] then [] else Reversed(s[1..]) + [s[0]]
  }

  // ---------------------------------------------------------------------------
  // The operations, on values

  /** `Frame::new`: the variables are exactly the arguments and the stack is empty. */
  function NewFrame(name: string, returnPosition: Option<nat>, args: seq<Value>): (f: FrameState)
    ensures f.variables == args && f.data == []
    ensures f.name == name && f.returnPosition == returnPosition
  {
    FrameState(name, returnPosition, args, [])
  }

  /** `push_value_to_stack`: `v` becomes the new top; nothing else changes. */
  function Push(f: FrameState, v: Value): (g: FrameState)
    ensures g.data == f.data + [v] && g.variables == f.variables
    ensures g.name == f.name && g.returnPosition == f.returnPosition
  {
    f.(data := f.data + [v])
  }

  /** `pop_value_from_stack`: the top value and the frame without it; an empty stack panics. */
  function Pop(f: FrameState): (r: Result<(Value, FrameState), FrameError>)
    ensures r.Ok? <==> |f.data| > 0
    ensures r.Ok? ==> r.value.1.data + [r.value.0] == f.data
    ensures r.Ok? ==> r.value.1 == f.(data := r.value.1.data)
  {
    if |f.data| == 0 then Err(EmptyStack)
    else Ok((f.data[|f.data| - 1], f.(data := f.data[..|f.data| - 1])))
  }

  /** `get_top_value_on_stack`: the top value, leaving the frame as it is. */
  function Top(f: FrameState): (r: Result<Value, FrameError>)
    ensures r.Ok? <==> |f.data| > 0
    ensures r.Ok? ==> r.value == f.data[|f.data| - 1]
  {
    if |f.data| == 0 then Err(EmptyStack) else Ok(f.data[|f.data| - 1])
  }

  /** `pop_2_values_from_stack`: the right operand is popped first, so the pair is
      (the value under the top, the top). */
  function Pop2(f: FrameState): (r: Result<(Value, Value, FrameState), FrameError>)
    ensures r.Ok? <==> |f.data| >= 2
    ensures r.Ok? ==> r.value.2.data + [r.value.0, r.value.1] == f.data
    ensures r.Ok? ==> r.value.2 == f.(data := r.value.2.data)
  {
    match Pop(f)
    case Err(e) => Err(e)
    case Ok((rhs, f1)) =>
      match Pop(f1)
      case Err(e) => Err(e)
      case Ok((lhs, f2)) => Ok((lhs, rhs, f2))
  }

  /** `pop_values_from_stack(count)`: `count` pops, collected in the order they
      come off the stack. */
  function PopN(f: FrameState, count: nat): (r: Result<(seq<Value>, FrameState), FrameError>)
    decreases count
  {
    if count == 0 then Ok(([], f))
    else
      match Pop(f)
      case Err(e) => Err(e)
      case Ok((v, f1)) =>
        match PopN(f1, count - 1)
        case Err(e) => Err(e)
        case Ok((vs, f2)) => Ok(([v] + vs, f2))
  }

  /** `push_value_to_variable_slot`: the slots grow with `Null` up to `slot` if
      needed, then `slot` holds `v`. */
  function SetSlot(f: FrameState, slot: nat, v: Value): (g: FrameState)
    ensures |g.variables| == if slot < |f.variables| then |f.variables| else slot + 1
    ensures g.variables[slot] == v
    ensures forall k :: 0 <= k < |f.variables| && k != slot ==> g.variables[k] == f.variables[k]
    ensures forall k :: |f.variables| <= k < |g.variables| && k != slot ==> g.variables[k] == Null
    ensures g.data == f.data && g.name == f.name && g.returnPosition == f.returnPosition
  {
    var padded := if |f.variables| <= slot then f.variables + seq(slot + 1 - |f.variables|, _ => Null) else f.variables;
    f.(variables := padded[slot := v])
  }

  /** `get_variable_or_panic`: a slot that does not exist panics. */
  function Variable(f: FrameState, slot: nat): (r: Result<Value, FrameError>)
    ensures r.Ok? <==> slot < |f.variables|
    ensures r.Ok? ==> r.value == f.variables[slot]
  {
    if slot < |f.variables| then Ok(f.variables[slot]) else Err(MissingVariable)
  }

  /** `move_from_stack_to_variable_slot`: pop the top into `slot`. */
  function Move(f: FrameState, slot: nat): (r: Result<FrameState, FrameError>)
    ensures r.Ok? <==> |f.data| > 0
    ensures r.Ok? ==> r.value.data == f.data[..|f.data| - 1]
    ensures r.Ok? ==> r.value.variables == SetSlot(f, slot, f.data[|f.data| - 1]).variables
  {
    match Pop(f)
    case Err(e) => Err(e)
    case Ok((v, f1)) => Ok(SetSlot(f1, slot, v))
  }

  /** `copy_from_stack_to_variable_slot`: store the top into `slot`, keeping it on the stack. */
  function Copy(f: FrameState, slot: nat): (r: Result<FrameState, FrameError>)
    ensures r.Ok? <==> |f.data| > 0
    ensures r.Ok? ==> r.value.data == f.data
    ensures r.Ok? ==> r.value.variables == SetSlot(f, slot, f.data[|f.data| - 1]).variables
  {
    match Top(f)
    case Err(e) => Err(e)
    case Ok(v) => Ok(SetSlot(f, slot, v))
  }

  /** `copy_from_variable_slot_to_stack`: push the value of `slot`; the slots are unchanged. */
  function Load(f: FrameState, slot: nat): (r: Result<FrameState, FrameError>)
    ensures r.Ok? <==> slot < |f.variables|
    ensures r.Ok? ==> r.value == Push(f, f.variables[slot])
  {
    match Variable(f, slot)
    case Err(e) => Err(e)
    case Ok(v) => Ok(Push(f, v))
  }

  // ---------------------------------------------------------------------------
  // Properties

  /** Popping right after a push gives back the pushed value and the frame as it was. */
  lemma PopAfterPush(f: FrameState, v: Value)
    ensures Pop(Push(f, v)) == Ok((v, f))
    ensures Top(Push(f, v)) == Ok(v)
  {
    assert (f.data + [v])[..|f.data|] == f.data;
  }

  /** The pair comes back in push order: the first value pushed is the left operand. */
  lemma Pop2AfterPushes(f: FrameState, lhs: Value, rhs: Value)
    ensures Pop2(Push(Push(f, lhs), rhs)) == Ok((lhs, rhs, f))
  {
    PopAfterPush(Push(f, lhs), rhs);
    PopAfterPush(f, lhs);
  }

  /** `pop_values_from_stack(|args|)` on a stack ending in `args` takes them
      top first, that is reversed, and leaves what was below. */
  lemma {:induction false} PopNOf(f: FrameState, below: seq<Value>, args: seq<Value>)
    requires f.data == below + args
    ensures PopN(f, |args|) == Ok((Reversed(args), f.(data := below)))
    decreases |args|
  {
    if args == [] {
      assert f.data == below;
    } else {
      var x := args[|args| - 1];
      var args' := args[..|args| - 1];
      assert args == args' + [x];
      var f1 := f.(data := below + args');
      assert f.data == f1.data + [x];
      assert Pop(f) == Ok((x, f1));
      PopNOf(f1, below, args');
      ReversedOfSnoc(args', x);
    }
  }

  /** The same, stated by position: the top `n` values, top first, and the rest. */
  lemma PopNTakesReversedSuffix(f: FrameState, n: nat)
    requires n <= |f.data|
    ensures PopN(f, n) == Ok((Reversed(f.data[|f.data| - n..]), f.(data := f.data[..|f.data| - n])))
  {
    var k := |f.data| - n;
    assert f.data == f.data[..k] + f.data[k..];
    PopNOf(f, f.data[..k], f.data[k..]);
  }

  /** With fewer than `n` values on the stack it panics. */
  lemma {:induction false} PopNUnderflows(f: FrameState, n: nat)
    requires n > |f.data|
    ensures PopN(f, n) == Err(EmptyStack)
    decreases n
  {
    if |f.data| > 0 {
      var f1 := f.(data := f.data[..|f.data| - 1]);
      assert Pop(f) == Ok((f.data[|f.data| - 1], f1));
      PopNUnderflows(f1, n - 1);
    }
  }

  /** Reversing `s + [x]` puts `x` first. */
  lemma ReversedOfSnoc<T>(s: seq<T>, x: T)
    ensures Reversed(s + [x]) == [x] + Reversed(s)
  {
    if s != [] {
      assert (s + [x])[1..] == s[1..] + [x];
      ReversedOfSnoc(s[1..], x);
    }
  }

  /** Writing a slot and reading it back gives the written value. */
  lemma SlotReadAfterWrite(f: FrameState, slot: nat, v: Value, other: nat)
    ensures Variable(SetSlot(f, slot, v), slot) == Ok(v)
    ensures other != slot && other < |f.variables| ==> Variable(SetSlot(f, slot, v), other) == Variable(f, other)
  {
  }

  /** Move and copy differ only in the stack: move shrinks it by one, copy keeps it. */
  lemma MoveIsCopyThenPop(f: FrameState, slot: nat)
    requires |f.data| > 0
    ensures Move(f, slot).Ok? && Copy(f, slot).Ok?
    ensures Move(f, slot).value == Copy(f, slot).value.(data := f.data[..|f.data| - 1])
    ensures |Move(f, slot).value.data| == |Copy(f, slot).value.data| - 1
  {
  }

  // ---------------------------------------------------------------------------
  // The frame as the source keeps it: fields updated in place

  class Frame {
    const name: string
    const returnPosition: Option<nat>
    var variables: seq<Value>
    var data: seq<Value>

    function Snapshot(): FrameState
      reads this
    {
      FrameState(name, returnPosition, variables, data)
    }

    constructor (name: string, returnPosition: Option<nat>, args: seq<Value>)
      ensures Snapshot() == NewFrame(name, returnPosition, args)
    {
      this.name := name;
      this.returnPosition := returnPosition;
      variables := args;
      data := [];
    }

    /** A frame object holding a frame that was stored by value, for the
        interpreter to work on once it is the last frame again. */
    constructor Resume(s: FrameState)
      ensures Snapshot() == s
    {
      name := s.name;
      returnPosition := s.returnPosition;
      variables := s.variables;
      data := s.data;
    }

    method PushValueToStack(v: Value)
      modifies this
      ensures Snapshot() == Push(old(Snapshot()), v)
    {
      data := data + [v];
    }

    method PushValueToVariableSlot(slot: nat, v: Value)
      modifies this
      ensures Snapshot() == SetSlot(old(Snapshot()), slot, v)
    {
      if |variables| <= slot {
        variables := variables + seq(slot + 1 - |variables|, _ => Null);
      }
      variables := variables[slot := v];
    }

    method GetTopValueOnStack() returns (r: Result<Value, FrameError>)
      ensures r == Top(Snapshot())
    {
      if |data| == 0 {
        r := Err(EmptyStack);
      } else {
        r := Ok(data[|data| - 1]);
      }
    }

    method PopValueFromStack() returns (r: Result<Value, FrameError>)
      modifies this
      ensures r.Ok? ==> Pop(old(Snapshot())) == Ok((r.value, Snapshot()))
      ensures r.Err? ==> Pop(old(Snapshot())) == Err(r.error) && Snapshot() == old(Snapshot())
    {
      if |data| == 0 {
        r := Err(EmptyStack);
      } else {
        r := Ok(data[|data| - 1]);
        data := data[..|data| - 1];
      }
    }

    method Pop2ValuesFromStack() returns (r: Result<(Value, Value), FrameError>)
      modifies this
      ensures r.Ok? ==> Pop2(old(Snapshot())) == Ok((r.value.0, r.value.1, Snapshot()))
      ensures r.Err? ==> Pop2(old(Snapshot())) == Err(r.error)
    {
      var rhs := PopValueFromStack();
      if rhs.Err? {
        return Err(rhs.error);
      }
      var lhs := PopValueFromStack();
      if lhs.Err? {
        return Err(lhs.error);
      }
      r := Ok((lhs.value, rhs.value));
    }

    method PopValuesFromStack(count: nat) returns (r: Result<seq<Value>, FrameError>)
      modifies this
      ensures r.Ok? ==> PopN(old(Snapshot()), count) == Ok((r.value, Snapshot()))
      ensures r.Err? ==> PopN(old(Snapshot()), count) == Err(r.error)
    {
      ghost var start := data;
      var values: seq<Value> := [];
      var i := 0;
      while i < count
        invariant 0 <= i <= count && i <= |start|
        invariant variables == old(variables)
        invariant data == start[..|start| - i]
        invariant values == Reversed(start[|start| - i..])
      {
        if |data| == 0 {
          PopNUnderflows(old(Snapshot()), count);
          return Err(EmptyStack);
        }
        var v := data[|data| - 1];
        data := data[..|data| - 1];
        ghost var taken := start[|start| - i..];
        assert start[|start| - (i + 1)..] == [v] + taken;
        assert ([v] + taken)[1..] == taken;
        values := values + [v];
        i := i + 1;
      }
      PopNTakesReversedSuffix(old(Snapshot()), count);
      r := Ok(values);
    }

    method GetVariableOrPanic(slot: nat) returns (r: Result<Value, FrameError>)
      ensures r == Variable(Snapshot(), slot)
    {
      if slot < |variables| {
        r := Ok(variables[slot]);
      } else {
        r := Err(MissingVariable);
      }
    }

    method MoveFromStackToVariableSlot(slot: nat) returns (r: Result<(), FrameError>)
      modifies this
      ensures r.Ok? ==> Move(old(Snapshot()), slot) == Ok(Snapshot())
      ensures r.Err? ==> Move(old(Snapshot()), slot) == Err(r.error) && Snapshot() == old(Snapshot())
    {
      var v := PopValueFromStack();
      if v.Err? {
        return Err(v.error);
      }
      PushValueToVariableSlot(slot, v.value);
      r := Ok(());
    }

    method CopyFromStackToVariableSlot(slot: nat) returns (r: Result<(), FrameError>)
      modifies this
      ensures r.Ok? ==> Copy(old(Snapshot()), slot) == Ok(Snapshot())
      ensures r.Err? ==> Copy(old(Snapshot()), slot) == Err(r.error) && Snapshot() == old(Snapshot())
    {
      var v := GetTopValueOnStack();
      if v.Err? {
        return Err(v.error);
      }
      PushValueToVariableSlot(slot, v.value);
      r := Ok(());
    }

    method CopyFromVariableSlotToStack(slot: nat) returns (r: Result<(), FrameError>)
      modifies this
      ensures r.Ok? ==> Load(old(Snapshot()), slot) == Ok(Snapshot())
      ensures r.Err? ==> Load(old(Snapshot()), slot) == Err(r.error) && Snapshot() == old(Snapshot())
    {
      var v := GetVariableOrPanic(slot);
      if v.Err? {
        return Err(v.error);
      }
      PushValueToStack(v.value);
      r := Ok(());
    }
  }
}
