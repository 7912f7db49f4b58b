/** The code generator of src/compiler/function.rs, as functions on its state.

    A `Gen` is what a `Function` accumulates while it compiles: the
    instructions emitted so far and the variable slots. Each compile step is a
    function from the state before to the state after, or the reason the source
    panics (`panic!`, `todo!`, `unreachable!`, or `unwrap` on a missing class),
    which ends the compilation. The map `classes` is the global lookup from a
    class name to its index among the globals. Forward jumps are emitted as a
    placeholder `Halt` and overwritten once the target is known, exactly as the
    source does, so positions are absolute: a step starting from `g` appends
    after `g.code` and patches only what it appended itself. */
module CodeGen {
  import opened Base
  import opened Tokens
  import B = Bytecode

  /** The variable a method's receiver is stored in; it always gets slot 0. */
  const SELF_NAME: string := "this"
  /** The class member the code for `new` calls. */
  const CONSTRUCTOR_NAME: string := "constructor"
  /** The texts of the two placeholders. */
  const NO_JUMP_NOT_TRUE: string := "no jump-not-true provided"
  const NO_JUMP_TO_ELSE: string := "no where to jump to"
  const NO_JUMP_TO_END: string := "can not jump tot end"

  datatype CompileError =
    | DuplicateVariable(duplicate: string)   // add_variable
    | UndeclaredVariable(undeclared: string) // get_variable_slot
    | UnknownClass(unknown: string)          // the lookup in compile_new_object
    | NotAnIdentifier                        // a declaration whose name is not an identifier
    | NotAssignable                          // an assignment to something else than a name or an index
    | NonIntegerIndex                        // an index that is not an integer literal
    | BadChainLink                           // a chain link that is neither a name nor a call
    | UnsupportedStatement                   // the `todo!` arm of compile_statement
    | UnsupportedExpression                  // the last arm of compile_expression

  datatype Gen = Gen(code: seq<B.Instruction>, vars: map<string, nat>)

  /** `h` is `g` with instructions appended and variables added: nothing
      emitted or declared before changes. */
  predicate Extends(g: Gen, h: Gen) {
    |g.code| <= |h.code| &&
    (forall i :: 0 <= i < |g.code| ==> h.code[i] == g.code[i]) &&
    (forall n :: n in g.vars ==> n in h.vars && h.vars[n] == g.vars[n])
  }

  /** The slots are exactly 0 .. |vars|-1, one per name. */
  predicate Dense(vars: map<string, nat>) {
    (forall n :: n in vars ==> vars[n] < |vars|) &&
    (forall n, m :: n in vars && m in vars && n != m ==> vars[n] != vars[m])
  }

  function Emit(g: Gen, ins: B.Instruction): Gen {
    g.(code := g.code + [ins])
  }

  function Patch(g: Gen, at: nat, ins: B.Instruction): Gen
    requires at < |g.code|
  {
    g.(code := g.code[at := ins])
  }

  // ---------------------------------------------------------------------------
  // Variables

  /** `add_variable`: a new name gets the next free slot; a name already
      declared is an error. */
  function AddVariable(g: Gen, name: string): (r: Result<(Gen, nat), CompileError>)
    ensures r.Err? <==> name in g.vars
    ensures r.Err? ==> r.error == DuplicateVariable(name)
    ensures r.Ok? ==> r.value.1 == |g.vars| && r.value.0.code == g.code
    ensures r.Ok? ==> r.value.0.vars.Keys == g.vars.Keys + {name} && r.value.0.vars[name] == r.value.1
    ensures r.Ok? ==> Extends(g, r.value.0)
    ensures r.Ok? && Dense(g.vars) ==> Dense(r.value.0.vars) && |r.value.0.vars| == |g.vars| + 1
  {
    if name in g.vars then Err(DuplicateVariable(name))
    else Ok((g.(vars := g.vars[name := |g.vars|]), |g.vars|))
  }

  /** `get_variable_slot`: the slot of a declared name; an undeclared one is an error. */
  function Slot(g: Gen, name: string): (r: Result<nat, CompileError>)
    ensures r.Ok? <==> name in g.vars
    ensures r.Ok? ==> r.value == g.vars[name]
    ensures r.Err? ==> r.error == UndeclaredVariable(name)
  {
    if name in g.vars then Ok(g.vars[name]) else Err(UndeclaredVariable(name))
  }

  /** The name `create_temp_variable` invents: `var` and the variable count. */
  function TempName(n: nat): string {
    "var" + NatToString(n)
  }

  /** `create_temp_variable`. */
  function CreateTemp(g: Gen): Result<(Gen, nat), CompileError> {
    AddVariable(g, TempName(|g.vars|))
  }

  /** The slots the parameters get at the start of `compile`: in order, each
      new name the next slot, a repeated name keeping its first one. */
  function DeclareParameters(vars: map<string, nat>, params: seq<Token>): (r: map<string, nat>)
    ensures Dense(vars) ==> Dense(r)
    ensures forall n :: n in vars ==> n in r && r[n] == vars[n]
    ensures forall p :: p in params ==> ToString(p) in r
    ensures forall n :: n in r ==> n in vars || exists p :: p in params && ToString(p) == n
    decreases |params|
  {
    if params == [] then vars
    else
      var name := ToString(params[0]);
      var vars' := if name in vars then vars else vars[name := |vars|];
      DeclareParameters(vars', params[1..])
  }

  // ---------------------------------------------------------------------------
  // Expressions

  /** The literal a literal token pushes. */
  predicate IsLiteral(t: Token) {
    t.Null? || t.Integer? || t.Float? || t.Bool? || t.String?
  }

  function LiteralOf(t: Token): B.Literal
    requires IsLiteral(t)
  {
    match t
    case Null => B.LNull
    case Integer(v) => B.LInteger(v)
    case Float(v) => B.LFloat(v)
    case Bool(v) => B.LBool(v)
    case String(v) => B.LString(v)
  }

  /** The tokens of the binary operators. */
  predicate IsOperation(t: Token) {
    t.Eq? || t.Ne? || t.Lt? || t.Le? || t.Gt? || t.Ge? ||
    t.Add? || t.Sub? || t.Mul? || t.Div? || t.Pow?
  }

  /** The instruction each binary operator token compiles to. */
  function OperatorOf(t: Token): (ins: B.Instruction)
    requires IsOperation(t)
    ensures B.IsStraightLine(ins)
  {
    match t
    case Eq(_, _) => B.Equal
    case Ne(_, _) => B.NotEqual
    case Lt(_, _) => B.LessThan
    case Le(_, _) => B.LessThanOrEqual
    case Gt(_, _) => B.GreaterThan
    case Ge(_, _) => B.GreaterThanOrEqual
    case Add(_, _) => B.Add
    case Sub(_, _) => B.Sub
    case Mul(_, _) => B.Multiply
    case Div(_, _) => B.Divide
    case Pow(_, _) => B.Pow
  }

  /** `compile_expression`. */
  function Expression(g: Gen, classes: map<string, nat>, t: Token): (r: Result<Gen, CompileError>)
    ensures r.Ok? ==> Extends(g, r.value) && |r.value.code| > |g.code|
    decreases t, 2
  {
    match t
    case AnonFunction(_, _) => Ok(Emit(g, B.StackPush(B.LFunctionRef("func" + NatToString(|g.code|)))))
    case Identifier(id) =>
      var slot :- Slot(g, id);
      Ok(Emit(g, B.LoadLocalVariable(slot)))
    case Array(elements) => Elements(Emit(g, B.StackPush(B.LEmptyArray)), classes, elements)
    case Dictionary(pairs) => Pairs(Emit(g, B.StackPush(B.LEmptyDictionary)), classes, pairs)
    case Object(_, _) => NewObject(g, classes, t)
    case ArrayIndex(_, _) => IndexRead(g, classes, t)
    case Call(_, _) => CallCode(g, classes, t)
    case Chain(_, _) => ChainCode(g, classes, t)
    case Null | Integer(_) | Float(_) | Bool(_) | String(_) => Ok(Emit(g, B.StackPush(LiteralOf(t))))
    case Eq(_, _) | Ne(_, _) | Lt(_, _) | Le(_, _) | Gt(_, _) | Ge(_, _) |
         Add(_, _) | Sub(_, _) | Mul(_, _) | Div(_, _) | Pow(_, _) => Operation(g, classes, t)
    case _ => Err(UnsupportedExpression)
  }

  /** A binary operator: the left operand, the right operand, the operator. */
  function Operation(g: Gen, classes: map<string, nat>, t: Token): (r: Result<Gen, CompileError>)
    requires IsOperation(t)
    ensures r.Ok? ==> Extends(g, r.value) && |r.value.code| > |g.code|
    decreases t, 1
  {
    var g1 :- Expression(g, classes, t.lhs);
    var g2 :- Expression(g1, classes, t.rhs);
    Ok(Emit(g2, OperatorOf(t)))
  }

  /** Each argument in order. */
  function Expressions(g: Gen, classes: map<string, nat>, ts: seq<Token>): (r: Result<Gen, CompileError>)
    ensures r.Ok? ==> Extends(g, r.value) && |r.value.code| >= |g.code| + |ts|
    decreases ts
  {
    if ts == [] then Ok(g)
    else
      var g1 :- Expression(g, classes, ts[0]);
      Expressions(g1, classes, ts[1..])
  }

  /** The elements of an array literal, each followed by `ArrayAdd`. */
  function Elements(g: Gen, classes: map<string, nat>, ts: seq<Token>): (r: Result<Gen, CompileError>)
    ensures r.Ok? ==> Extends(g, r.value)
    decreases ts
  {
    if ts == [] then Ok(g)
    else
      var g1 :- Expression(g, classes, ts[0]);
      Elements(Emit(g1, B.ArrayAdd), classes, ts[1..])
  }

  /** The pairs of a dictionary literal: the key, the value, `DictionaryAdd`.
      A token that is not a pair is skipped. */
  function Pairs(g: Gen, classes: map<string, nat>, ts: seq<Token>): (r: Result<Gen, CompileError>)
    ensures r.Ok? ==> Extends(g, r.value)
    decreases ts
  {
    if ts == [] then Ok(g)
    else if ts[0].KeyValuePair? then
      var g1 :- Expression(Emit(g, B.StackPush(B.LString(ts[0].key))), classes, ts[0].pairValue);
      Pairs(Emit(g1, B.DictionaryAdd), classes, ts[1..])
    else Pairs(g, classes, ts[1..])
  }

  /** `compile_new_object`: load the class, make an object of it, keep it in a
      fresh temporary, call its constructor with the object and the arguments,
      and leave the object on the stack. */
  function NewObject(g: Gen, classes: map<string, nat>, t: Token): (r: Result<Gen, CompileError>)
    requires t.Object?
    ensures r.Ok? ==> Extends(g, r.value) && |r.value.code| > |g.code|
    decreases t, 1
  {
    var name := ToString(t.className);
    if name !in classes then Err(UnknownClass(name))
    else
      var g1 := Emit(Emit(g, B.LoadGlobal(classes[name])), B.CreateObject);
      var (g2, obj) :- CreateTemp(g1);
      var g3 := Emit(Emit(Emit(g2, B.CopyToLocalVariable(obj)), B.LoadObjectMember(CONSTRUCTOR_NAME)), B.LoadLocalVariable(obj));
      var g4 :- Expressions(g3, classes, t.args);
      Ok(Emit(Emit(g4, B.Call(|t.args| + 1)), B.LoadLocalVariable(obj)))
  }

  /** An indexed read `a[i]`: load the variable, then `GetKeyValue` with the
      integer index (as `usize`). */
  function IndexRead(g: Gen, classes: map<string, nat>, t: Token): (r: Result<Gen, CompileError>)
    requires t.ArrayIndex?
    ensures r.Ok? ==> Extends(g, r.value) && |r.value.code| > |g.code|
    ensures r.Ok? ==> r.value.vars == g.vars
    decreases t, 1
  {
    var slot :- Slot(g, ToString(t.indexedName));
    var g1 := Emit(g, B.LoadLocalVariable(slot));
    if t.index.Integer? then Ok(Emit(g1, B.GetKeyValue(UsizeOf(t.index.i))))
    else Err(NonIntegerIndex)
  }

  /** `compile_call`: a callee held in a variable is loaded from its slot;
      any other name is looked up as a member of `this`, which is also passed
      as an extra first argument. */
  function CallCode(g: Gen, classes: map<string, nat>, t: Token): (r: Result<Gen, CompileError>)
    requires t.Call?
    ensures r.Ok? ==> Extends(g, r.value) && |r.value.code| > |g.code|
    decreases t, 1
  {
    var name := ToString(t.callee);
    var local := name in g.vars;
    var g1 :=
      if local then Emit(g, B.LoadLocalVariable(g.vars[name]))
      else Emit(Emit(Emit(g, B.LoadLocalVariable(0)), B.LoadObjectMember(name)), B.LoadLocalVariable(0));
    var g2 :- Expressions(g1, classes, t.callArgs);
    Ok(Emit(g2, B.Call(if local then |t.callArgs| else |t.callArgs| + 1)))
  }

  /** `compile_chain`: the start, then each link in turn. */
  function ChainCode(g: Gen, classes: map<string, nat>, t: Token): (r: Result<Gen, CompileError>)
    requires t.Chain?
    ensures r.Ok? ==> Extends(g, r.value) && |r.value.code| > |g.code|
    decreases t, 1
  {
    var g1 :- Expression(g, classes, t.start);
    Links(g1, classes, t.start, t.links)
  }

  function Links(g: Gen, classes: map<string, nat>, start: Token, ts: seq<Token>): (r: Result<Gen, CompileError>)
    ensures r.Ok? ==> Extends(g, r.value)
    decreases ts
  {
    if ts == [] then Ok(g)
    else
      var g1 :- Link(g, classes, start, ts[0]);
      Links(g1, classes, start, ts[1..])
  }

  /** One link of a chain: a name loads that member; a call loads the member,
      then the chain's start variable, then the arguments, and calls. */
  function Link(g: Gen, classes: map<string, nat>, start: Token, t: Token): (r: Result<Gen, CompileError>)
    ensures r.Ok? ==> Extends(g, r.value)
    decreases t, 0
  {
    match t
    case Identifier(name) => Ok(Emit(g, B.LoadObjectMember(name)))
    case Call(callee, args) =>
      var g1 := Emit(g, B.LoadObjectMember(ToString(callee)));
      var slot :- Slot(g1, ToString(start));
      var g2 :- Expressions(Emit(g1, B.LoadLocalVariable(slot)), classes, args);
      Ok(Emit(g2, B.Call(|args| + 1)))
    case _ => Err(BadChainLink)
  }

  // ---------------------------------------------------------------------------
  // Statements

  /** `compile_statement`. */
  function Statement(g: Gen, classes: map<string, nat>, t: Token): (r: Result<Gen, CompileError>)
    ensures r.Ok? ==> Extends(g, r.value)
    decreases t, 2
  {
    match t
    case Assert(e) =>
      var g1 :- Expression(g, classes, e);
      Ok(Emit(g1, B.Assert))
    case Print(e) =>
      var g1 :- Expression(g, classes, e);
      Ok(Emit(g1, B.Print))
    case Call(_, _) => CallCode(g, classes, t)
    case Variable(_, _) => Declaration(g, classes, t)
    case Assign(_, _) => Assignment(g, classes, t)
    case IfElse(_, _, _) => IfElseCode(g, classes, t)
    case WhileLoop(_, _) => LoopCode(g, classes, t)
    case ForEach(_, _, _) => Ok(g)
    case Return(e) =>
      var g1 :- Expression(g, classes, e);
      Ok(Emit(g1, B.Return(true)))
    case ForI(_, _, _, _) => ForCode(g, classes, t)
    case Chain(_, _) => ChainCode(g, classes, t)
    case Comment(_) => Ok(g)
    case _ => Err(UnsupportedStatement)
  }

  /** `compile_statements`. */
  function Statements(g: Gen, classes: map<string, nat>, ts: seq<Token>): (r: Result<Gen, CompileError>)
    ensures r.Ok? ==> Extends(g, r.value)
    decreases ts
  {
    if ts == [] then Ok(g)
    else
      var g1 :- Statement(g, classes, ts[0]);
      Statements(g1, classes, ts[1..])
  }

  /** `compile_variable`: declare the name, then assign to it. */
  function Declaration(g: Gen, classes: map<string, nat>, t: Token): (r: Result<Gen, CompileError>)
    requires t.Variable?
    ensures r.Ok? ==> Extends(g, r.value)
    decreases t, 1
  {
    if !t.target.Identifier? then Err(NotAnIdentifier)
    else
      var (g1, _) :- AddVariable(g, t.target.id);
      Assignment(g1, classes, t)
  }

  /** `compile_assignment`: to a name, the value and `MoveToLocalVariable`; to
      an index, the value, the indexed read and `SetKeyValue`. */
  function Assignment(g: Gen, classes: map<string, nat>, t: Token): (r: Result<Gen, CompileError>)
    requires t.Variable? || t.Assign?
    ensures r.Ok? ==> Extends(g, r.value)
    decreases t, 0
  {
    var left := if t.Variable? then t.target else t.left;
    var right := if t.Variable? then t.value else t.right;
    match left
    case Identifier(name) =>
      var slot :- Slot(g, name);
      var g1 :- Expression(g, classes, right);
      Ok(Emit(g1, B.MoveToLocalVariable(slot)))
    case ArrayIndex(indexed, _) =>
      var slot :- Slot(g, ToString(indexed));
      var g1 :- Expression(g, classes, right);
      var g2 :- Expression(g1, classes, left);
      Ok(Emit(g2, B.SetKeyValue(slot)))
    case _ => Err(NotAssignable)
  }

  /** What `compile_whileloop` and `compile_forloop` share: the test, a
      placeholder for the `JumpIfFalse` to just past the loop, the body (for a
      `for` loop followed by its step statement), and a `JumpBackward` to the
      test. */
  function LoopCode(g: Gen, classes: map<string, nat>, t: Token): (r: Result<Gen, CompileError>)
    requires t.WhileLoop? || t.ForI?
    ensures r.Ok? ==> Extends(g, r.value)
    decreases t, 0
  {
    var start := |g.code|;
    var g1 :- Expression(g, classes, if t.WhileLoop? then t.whileCondition else t.test);
    var jump := |g1.code|;
    var g2 :- Statements(Emit(g1, B.Halt(NO_JUMP_NOT_TRUE)), classes, if t.WhileLoop? then t.whileBody else t.forBody);
    var g3 :- if t.WhileLoop? then Ok(g2) else Statement(g2, classes, t.step);
    var g4 := Emit(g3, B.JumpBackward(|g3.code| - start));
    Ok(Patch(g4, jump, B.JumpIfFalse(WrapI32(|g4.code| - jump))))
  }

  /** `compile_forloop`: the initial statement, then the loop. */
  function ForCode(g: Gen, classes: map<string, nat>, t: Token): (r: Result<Gen, CompileError>)
    requires t.ForI?
    ensures r.Ok? ==> Extends(g, r.value)
    decreases t, 1
  {
    var g0 :- Statement(g, classes, t.init);
    LoopCode(g0, classes, t)
  }

  /** `compile_ifelse`: the condition, a `JumpIfFalse` to the else branch, the
      then branch, a `JumpForward` past the else branch, the else branch. */
  function IfElseCode(g: Gen, classes: map<string, nat>, t: Token): (r: Result<Gen, CompileError>)
    requires t.IfElse?
    ensures r.Ok? ==> Extends(g, r.value)
    decreases t, 1
  {
    var g1 :- Expression(g, classes, t.condition);
    var toElse := |g1.code|;
    var g2 :- Statements(Emit(g1, B.Halt(NO_JUMP_TO_ELSE)), classes, t.thenBody);
    var toEnd := |g2.code|;
    var g3 := Emit(g2, B.Halt(NO_JUMP_TO_END));
    var g4 := Patch(g3, toElse, B.JumpIfFalse(WrapI32(|g3.code| - toElse)));
    var g5 :- ElseCode(g4, classes, t.elseBranch);
    Ok(Patch(g5, toEnd, B.JumpForward(|g5.code| - toEnd)))
  }

  function ElseCode(g: Gen, classes: map<string, nat>, e: ElseBranch): (r: Result<Gen, CompileError>)
    ensures r.Ok? ==> Extends(g, r.value)
    decreases e
  {
    match e
    case NoElse => Ok(g)
    case Else(ts) => Statements(g, classes, ts)
  }

  // ---------------------------------------------------------------------------
  // A whole function

  /** The slots at the start of `compile`: `this`, then the parameters. */
  function Prologue(params: seq<Token>): map<string, nat> {
    DeclareParameters(map[], [Identifier(SELF_NAME)] + params)
  }

  /** `compile` as the source writes it: an empty body is a lone
      `Return(false)`; otherwise the statements are compiled after the
      prologue, and `Return(false)` is appended unless the last INSTRUCTION is
      already a `Return`. */
  function CompileAsWritten(params: seq<Token>, body: seq<Token>, classes: map<string, nat>): Result<seq<B.Instruction>, CompileError> {
    if body == [] then Ok([B.Return(false)])
    else
      var g :- Statements(Gen([], Prologue(params)), classes, body);
      Ok(WithReturn(g.code))
  }

  /** `code`, with `Return(false)` appended unless its last instruction is a `Return`. */
  function WithReturn(code: seq<B.Instruction>): seq<B.Instruction> {
    if |code| > 0 && code[|code| - 1].Return? then code else code + [B.Return(false)]
  }

  /** `compile` as intended: the same, except that `Return(false)` is appended
      unless the last STATEMENT is a `return`, so that no path runs off the
      end of the function's code. */
  function Compile(params: seq<Token>, body: seq<Token>, classes: map<string, nat>): Result<seq<B.Instruction>, CompileError> {
    if body == [] then Ok([B.Return(false)])
    else
      var g :- Statements(Gen([], Prologue(params)), classes, body);
      if body[|body| - 1].Return? then Ok(g.code)
      else Ok(g.code + [B.Return(false)])
  }
}
