/** The instruction set the code generator emits and the interpreter runs, and
    the linked program handed from one to the other.

    The instruction enum declared in the repository is out of date; this one is
    every instruction src/compiler/function.rs emits together with every one
    src/vm/mod.rs dispatches on. */
module Bytecode {
  import opened Base
  import opened Values

  /** The constant a `StackPush` carries. An empty array or dictionary literal
      stands for a fresh, empty container each time the instruction runs. */
  datatype Literal =
    | LNull
    | LInteger(i: i32)
    | LFloat(f: real)
    | LBool(b: bool)
    | LString(s: string)
    | LFunctionRef(name: string)
    | LEmptyArray
    | LEmptyDictionary

  datatype Instruction =
    // built-in functions
    | Assert
    | Print
    // functions and objects
    | Call(argc: nat)
    | Return(hasValue: bool)
    | CreateObject
    // control flow
    | JumpForward(forward: nat)
    | JumpBackward(backward: nat)
    | JumpIfFalse(offset: i32)
    // stack and variables
    | StackPush(literal: Literal)
    | MoveToLocalVariable(moveSlot: nat)
    | CopyToLocalVariable(copySlot: nat)
    | LoadLocalVariable(loadSlot: nat)
    | LoadGlobal(global: nat)
    // collections
    | ArrayLength
    | ArrayAdd
    | DictionaryAdd
    | GetCollectionItemByKey
    | SetCollectionItemByKey
    // arithmetic and comparison
    | Add
    | Sub
    | Multiply
    | Divide
    | Pow
    | Equal
    | NotEqual
    | LessThan
    | LessThanOrEqual
    | GreaterThan
    | GreaterThanOrEqual
    // control
    | Halt(message: string)
    // emitted by the code generator, not handled by the interpreter
    | LoadObjectMember(member: string)
    | SetKeyValue(keySlot: nat)
    | GetKeyValue(key: nat)

  /** A linked program: all functions' code back to back, where each function
      starts, and the globals (one class value per class). */
  datatype Program = Program(
    instructions: seq<Instruction>,
    symbols: map<string, nat>,
    globals: seq<Value>)

  /** The arithmetic and comparison operators. */
  predicate IsOperator(ins: Instruction) {
    ins.Add? || ins.Sub? || ins.Multiply? || ins.Divide? || ins.Equal? || ins.NotEqual? ||
    ins.LessThan? || ins.LessThanOrEqual? || ins.GreaterThan? || ins.GreaterThanOrEqual?
  }

  /** The instructions after which the interpreter always moves to the next one. */
  predicate IsStraightLine(ins: Instruction) {
    !(ins.Call? || ins.Return? || ins.JumpForward? || ins.JumpBackward? || ins.JumpIfFalse? ||
      ins.Halt? || ins.LoadObjectMember? || ins.SetKeyValue? || ins.GetKeyValue?)
  }
}
