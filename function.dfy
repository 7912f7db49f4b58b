/** The code generator as the source keeps it (src/compiler/function.rs): a
    `Function` object whose instruction list and variable map grow in place
    while its statements are compiled.

    Every method changes the object exactly as the functions of module
    `CodeGen` say: it ends in the state the function computes, or reports the
    error for which the function fails (where the source panics). What module
    `CodeGenProperties` proves about those functions therefore holds of the
    code this object emits. */
module Functions {
  import opened Base
  import T = Tokens
  import B = Bytecode
  import CG = CodeGen
  import CGP = CodeGenProperties

  /** `get_full_name`: the class, a dot, the function. */
  function FullName(className: string, name: string): (r: string)
    ensures |r| == |className| + 1 + |name|
    ensures r[..|className|] == className && r[|className|] == '.' && r[|className| + 1..] == name
  {
    className + "." + name
  }

  /** A dot-free class name can be read back off a full name, and so can the
      function name: different members of such classes get different names. */
  lemma FullNameInjective(c1: string, n1: string, c2: string, n2: string)
    requires '.' !in c1 && '.' !in c2
    requires FullName(c1, n1) == FullName(c2, n2)
    ensures c1 == c2 && n1 == n2
  {
    var f := FullName(c1, n1);
    assert forall i :: 0 <= i < |c1| ==> f[i] == c1[i] && c1[i] in c1;
    assert forall i :: 0 <= i < |c2| ==> f[i] == c2[i] && c2[i] in c2;
    assert f[|c1|] == '.' && f[|c2|] == '.';
    assert c1 == f[..|c1|] == c2;
    assert n1 == f[|c1| + 1..] == n2;
  }

  // One step of the code generator's dispatch each: which function a token
  // selects.

  lemma StatementIsCall(g: CG.Gen, classes: map<string, nat>, t: T.Token)
    requires t.Call?
    ensures CG.Statement(g, classes, t) == CG.CallCode(g, classes, t)
  {
  }

  lemma StatementIsDeclaration(g: CG.Gen, classes: map<string, nat>, t: T.Token)
    requires t.Variable?
    ensures CG.Statement(g, classes, t) == CG.Declaration(g, classes, t)
  {
  }

  lemma StatementIsAssignment(g: CG.Gen, classes: map<string, nat>, t: T.Token)
    requires t.Assign?
    ensures CG.Statement(g, classes, t) == CG.Assignment(g, classes, t)
  {
  }

  lemma StatementIsLoop(g: CG.Gen, classes: map<string, nat>, t: T.Token)
    requires t.WhileLoop?
    ensures CG.Statement(g, classes, t) == CG.LoopCode(g, classes, t)
  {
  }

  lemma StatementIsFor(g: CG.Gen, classes: map<string, nat>, t: T.Token)
    requires t.ForI?
    ensures CG.Statement(g, classes, t) == CG.ForCode(g, classes, t)
  {
  }

  lemma StatementIsChain(g: CG.Gen, classes: map<string, nat>, t: T.Token)
    requires t.Chain?
    ensures CG.Statement(g, classes, t) == CG.ChainCode(g, classes, t)
  {
  }

  lemma ExpressionIsCall(g: CG.Gen, classes: map<string, nat>, t: T.Token)
    requires t.Call?
    ensures CG.Expression(g, classes, t) == CG.CallCode(g, classes, t)
  {
  }

  lemma ExpressionIsChain(g: CG.Gen, classes: map<string, nat>, t: T.Token)
    requires t.Chain?
    ensures CG.Expression(g, classes, t) == CG.ChainCode(g, classes, t)
  {
  }

  lemma ExpressionIsNewObject(g: CG.Gen, classes: map<string, nat>, t: T.Token)
    requires t.Object?
    ensures CG.Expression(g, classes, t) == CG.NewObject(g, classes, t)
  {
  }

  lemma ExpressionIsIndexRead(g: CG.Gen, classes: map<string, nat>, t: T.Token)
    requires t.ArrayIndex?
    ensures CG.Expression(g, classes, t) == CG.IndexRead(g, classes, t)
  {
  }

  lemma ExpressionIsOperation(g: CG.Gen, classes: map<string, nat>, t: T.Token)
    requires CG.IsOperation(t)
    ensures CG.Expression(g, classes, t) == CG.Operation(g, classes, t)
  {
  }

  lemma StatementSkipped(g: CG.Gen, classes: map<string, nat>, t: T.Token)
    requires t.ForEach? || t.Comment?
    ensures CG.Statement(g, classes, t) == Ok(g)
  {
  }

  lemma StatementUnsupported(g: CG.Gen, classes: map<string, nat>, t: T.Token)
    requires !(t.Assert? || t.Print? || t.Return? || t.Call? || t.Variable? || t.Assign? || t.Chain?)
    requires !(t.IfElse? || t.WhileLoop? || t.ForI? || t.ForEach? || t.Comment?)
    ensures CG.Statement(g, classes, t) == Err(CG.UnsupportedStatement)
  {
  }

  lemma ExpressionIsAnonymous(g: CG.Gen, classes: map<string, nat>, t: T.Token)
    requires t.AnonFunction?
    ensures CG.Expression(g, classes, t) == Ok(CG.Emit(g, B.StackPush(B.LFunctionRef("func" + NatToString(|g.code|)))))
  {
  }

  lemma ExpressionIsIdentifier(g: CG.Gen, classes: map<string, nat>, t: T.Token)
    requires t.Identifier?
    ensures CG.Expression(g, classes, t) ==
      if t.id in g.vars then Ok(CG.Emit(g, B.LoadLocalVariable(g.vars[t.id]))) else Err(CG.UndeclaredVariable(t.id))
  {
  }

  lemma ExpressionUnsupported(g: CG.Gen, classes: map<string, nat>, t: T.Token)
    requires !(CG.IsLiteral(t) || t.AnonFunction? || t.Identifier? || t.Array? || t.Dictionary?)
    requires !(t.Object? || t.ArrayIndex? || t.Call? || t.Chain? || CG.IsOperation(t))
    ensures CG.Expression(g, classes, t) == Err(CG.UnsupportedExpression)
  {
  }

  lemma LinkIsMember(g: CG.Gen, classes: map<string, nat>, start: T.Token, t: T.Token)
    requires t.Identifier?
    ensures CG.Link(g, classes, start, t) == Ok(CG.Emit(g, B.LoadObjectMember(t.id)))
  {
  }

  lemma LinkIsBad(g: CG.Gen, classes: map<string, nat>, start: T.Token, t: T.Token)
    requires !t.Identifier? && !t.Call?
    ensures CG.Link(g, classes, start, t) == Err(CG.BadChainLink)
  {
  }

  /** A call link from its pieces. */
  lemma LinkCallSteps(g: CG.Gen, classes: map<string, nat>, start: T.Token, t: T.Token)
    requires t.Call?
    ensures var g1 := CG.Emit(g, B.LoadObjectMember(T.ToString(t.callee)));
      var name := T.ToString(start);
      CG.Link(g, classes, start, t) ==
        if name !in g1.vars then Err(CG.UndeclaredVariable(name))
        else match CG.Expressions(CG.Emit(g1, B.LoadLocalVariable(g1.vars[name])), classes, t.callArgs)
          case Err(e) => Err(e)
          case Ok(g2) => Ok(CG.Emit(g2, B.Call(|t.callArgs| + 1)))
  {
  }

  /** An `if` stops where its condition fails to compile, ... */
  lemma IfElseConditionFails(g: CG.Gen, classes: map<string, nat>, t: T.Token)
    requires t.IfElse? && CG.Expression(g, classes, t.condition).Err?
    ensures CG.IfElseCode(g, classes, t) == Err(CG.Expression(g, classes, t.condition).error)
  {
  }

  /** ... where its then branch does, ... */
  lemma IfElseThenFails(g: CG.Gen, classes: map<string, nat>, t: T.Token, g1: CG.Gen)
    requires t.IfElse? && CG.Expression(g, classes, t.condition) == Ok(g1)
    requires CG.Statements(CG.Emit(g1, B.Halt(CG.NO_JUMP_TO_ELSE)), classes, t.thenBody).Err?
    ensures CG.IfElseCode(g, classes, t) == Err(CG.Statements(CG.Emit(g1, B.Halt(CG.NO_JUMP_TO_ELSE)), classes, t.thenBody).error)
  {
  }

  /** ... or where its else branch does. */
  lemma IfElseElseFails(g: CG.Gen, classes: map<string, nat>, t: T.Token, g1: CG.Gen, g2: CG.Gen)
    requires t.IfElse? && CG.Expression(g, classes, t.condition) == Ok(g1)
    requires CG.Statements(CG.Emit(g1, B.Halt(CG.NO_JUMP_TO_ELSE)), classes, t.thenBody) == Ok(g2)
    requires CG.ElseCode(CGP.ElseStart(g1, g2), classes, t.elseBranch).Err?
    ensures CG.IfElseCode(g, classes, t) == Err(CG.ElseCode(CGP.ElseStart(g1, g2), classes, t.elseBranch).error)
  {
  }

  lemma AssignmentRefused(g: CG.Gen, classes: map<string, nat>, t: T.Token)
    requires t.Variable? || t.Assign?
    requires var left := if t.Variable? then t.target else t.left; !left.Identifier? && !left.ArrayIndex?
    ensures CG.Assignment(g, classes, t) == Err(CG.NotAssignable)
  {
  }

  /** A loop stops where its test fails to compile, ... */
  lemma LoopTestFails(g: CG.Gen, classes: map<string, nat>, t: T.Token)
    requires t.WhileLoop? || t.ForI?
    requires CG.Expression(g, classes, if t.WhileLoop? then t.whileCondition else t.test).Err?
    ensures CG.LoopCode(g, classes, t) == Err(CG.Expression(g, classes, if t.WhileLoop? then t.whileCondition else t.test).error)
  {
  }

  /** ... where its body does, ... */
  lemma LoopBodyFails(g: CG.Gen, classes: map<string, nat>, t: T.Token, g1: CG.Gen)
    requires t.WhileLoop? || t.ForI?
    requires CG.Expression(g, classes, if t.WhileLoop? then t.whileCondition else t.test) == Ok(g1)
    requires CG.Statements(CG.Emit(g1, B.Halt(CG.NO_JUMP_NOT_TRUE)), classes, if t.WhileLoop? then t.whileBody else t.forBody).Err?
    ensures CG.LoopCode(g, classes, t) ==
      Err(CG.Statements(CG.Emit(g1, B.Halt(CG.NO_JUMP_NOT_TRUE)), classes, if t.WhileLoop? then t.whileBody else t.forBody).error)
  {
  }

  /** ... or where the step of a `for` loop does. */
  lemma LoopStepFails(g: CG.Gen, classes: map<string, nat>, t: T.Token, g1: CG.Gen, g2: CG.Gen)
    requires t.ForI?
    requires CG.Expression(g, classes, t.test) == Ok(g1)
    requires CG.Statements(CG.Emit(g1, B.Halt(CG.NO_JUMP_NOT_TRUE)), classes, t.forBody) == Ok(g2)
    requires CG.Statement(g2, classes, t.step).Err?
    ensures CG.LoopCode(g, classes, t) == Err(CG.Statement(g2, classes, t.step).error)
  {
  }

  /** A loop from its pieces. */
  lemma LoopCompose(g: CG.Gen, classes: map<string, nat>, t: T.Token, g1: CG.Gen, g2: CG.Gen, g3: CG.Gen)
    requires t.WhileLoop? || t.ForI?
    requires CG.Expression(g, classes, if t.WhileLoop? then t.whileCondition else t.test) == Ok(g1)
    requires CG.Statements(CG.Emit(g1, B.Halt(CG.NO_JUMP_NOT_TRUE)), classes, if t.WhileLoop? then t.whileBody else t.forBody) == Ok(g2)
    requires if t.WhileLoop? then g3 == g2 else CG.Statement(g2, classes, t.step) == Ok(g3)
    ensures var g4 := CG.Emit(g3, B.JumpBackward(|g3.code| - |g.code|));
      CG.LoopCode(g, classes, t) == Ok(CG.Patch(g4, |g1.code|, B.JumpIfFalse(WrapI32(|g4.code| - |g1.code|))))
  {
  }

  class Function {
    const name: string
    const className: string
    const statements: seq<T.Token>
    var parameters: seq<T.Token>
    var instructions: seq<B.Instruction>
    /** The slot of each variable. */
    var variables: map<string, nat>
    /** The index of each class among the program's globals. */
    var globalLookup: map<string, nat>

    /** `Function::new`: nothing emitted and no variables yet. */
    constructor (className: string, funcName: string, parameters: seq<T.Token>, statements: seq<T.Token>)
      ensures this.name == funcName && this.className == className
      ensures this.parameters == parameters && this.statements == statements
      ensures instructions == [] && variables == map[] && globalLookup == map[]
    {
      this.name := funcName;
      this.className := className;
      this.parameters := parameters;
      this.statements := statements;
      instructions := [];
      variables := map[];
      globalLookup := map[];
    }

    function GetFullName(): (r: string)
      ensures r == FullName(className, name)
    {
      FullName(className, name)
    }

    /** The code generator's state held by this object. */
    function State(): CG.Gen
      reads this
    {
      CG.Gen(instructions, variables)
    }

    /** What a compile step that reported `err` produced. */
    function Outcome(err: Option<CG.CompileError>): Result<CG.Gen, CG.CompileError>
      reads this
    {
      if err.None? then Ok(State()) else Err(err.value)
    }

    /** `compile`: store the class lookup, give `this` and the parameters
        their slots, compile the body, and end it with `Return(false)` unless
        its last statement is a `return`. The object is used once, as the
        source's `compile(mut self, ..)` consumes it. */
    method Compile(lookup: map<string, nat>) returns (r: Result<seq<B.Instruction>, CG.CompileError>)
      requires instructions == [] && variables == map[]
      modifies this
      ensures r == CG.Compile(old(parameters), statements, lookup)
    {
      globalLookup := lookup;
      if statements == [] {
        return Ok([B.Return(false)]);
      }
      parameters := [T.Identifier(CG.SELF_NAME)] + parameters;
      StoreParameters();
      var err := CompileStatements(statements);
      if err.Some? {
        return Err(err.value);
      }
      if !statements[|statements| - 1].Return? {
        instructions := instructions + [B.Return(false)];
      }
      return Ok(instructions);
    }

    /** The loop of `compile` that stores the parameters as variables: a name
        not seen yet gets the next slot. */
    method StoreParameters()
      modifies this
      ensures instructions == old(instructions) && globalLookup == old(globalLookup) && parameters == old(parameters)
      ensures variables == CG.DeclareParameters(old(variables), parameters)
    {
      for i := 0 to |parameters|
        invariant instructions == old(instructions) && globalLookup == old(globalLookup) && parameters == old(parameters)
        invariant CG.DeclareParameters(variables, parameters[i..]) == CG.DeclareParameters(old(variables), parameters)
      {
        var pname := T.ToString(parameters[i]);
        var vlen := |variables|;
        if pname !in variables {
          variables := variables[pname := vlen];
        }
        assert parameters[i..][1..] == parameters[i + 1..];
      }
      assert parameters[|parameters|..] == [];
    }

    /** `add_variable`: the next free slot for a new name. */
    method AddVariable(n: string) returns (r: Result<nat, CG.CompileError>)
      modifies this
      ensures globalLookup == old(globalLookup)
      ensures CG.AddVariable(old(State()), n) == if r.Ok? then Ok((State(), r.value)) else Err(r.error)
    {
      if n in variables {
        return Err(CG.DuplicateVariable(n));
      }
      var vlen := |variables|;
      variables := variables[n := vlen];
      return Ok(vlen);
    }

    /** `create_temp_variable`: a new variable named after the variable count. */
    method CreateTempVariable() returns (r: Result<nat, CG.CompileError>)
      modifies this
      ensures globalLookup == old(globalLookup)
      ensures CG.CreateTemp(old(State())) == if r.Ok? then Ok((State(), r.value)) else Err(r.error)
    {
      r := AddVariable(CG.TempName(|variables|));
    }

    /** `get_variable_slot`. */
    method VariableSlot(n: string) returns (r: Result<nat, CG.CompileError>)
      ensures r.Ok? <==> n in variables
      ensures r.Ok? ==> r.value == variables[n]
      ensures r.Err? ==> r.error == CG.UndeclaredVariable(n)
    {
      if n in variables {
        return Ok(variables[n]);
      }
      return Err(CG.UndeclaredVariable(n));
    }

    /** `compile_statements`. */
    method CompileStatements(ts: seq<T.Token>) returns (err: Option<CG.CompileError>)
      modifies this
      ensures globalLookup == old(globalLookup)
      ensures Outcome(err) == CG.Statements(old(State()), globalLookup, ts)
      decreases ts
    {
      for i := 0 to |ts|
        invariant globalLookup == old(globalLookup)
        invariant CG.Statements(old(State()), globalLookup, ts) == CG.Statements(State(), globalLookup, ts[i..])
      {
        assert ts[i..][0] == ts[i] && ts[i..][1..] == ts[i + 1..];
        err := CompileStatement(ts[i]);
        if err.Some? {
          return;
        }
      }
      assert ts[|ts|..] == [];
      err := None;
    }

    /** `compile_statement`. */
    method CompileStatement(t: T.Token) returns (err: Option<CG.CompileError>)
      modifies this
      ensures globalLookup == old(globalLookup)
      ensures Outcome(err) == CG.Statement(old(State()), globalLookup, t)
      decreases t, 4
    {
      if t.Assert? {
        err := CompileFollowed(t, B.Assert);
      } else if t.Print? {
        err := CompileFollowed(t, B.Print);
      } else if t.Return? {
        err := CompileFollowed(t, B.Return(true));
      } else if t.Call? || t.Variable? || t.Assign? || t.Chain? {
        err := CompileCodeStatement(t);
      } else if t.IfElse? || t.WhileLoop? || t.ForI? {
        err := CompileControl(t);
      } else if t.ForEach? || t.Comment? {
        StatementSkipped(State(), globalLookup, t);
        err := None;
      } else {
        StatementUnsupported(State(), globalLookup, t);
        err := Some(CG.UnsupportedStatement);
      }
    }

    /** The statements that are an expression or an assignment. */
    method CompileCodeStatement(t: T.Token) returns (err: Option<CG.CompileError>)
      requires t.Call? || t.Variable? || t.Assign? || t.Chain?
      modifies this
      ensures globalLookup == old(globalLookup)
      ensures Outcome(err) == CG.Statement(old(State()), globalLookup, t)
      decreases t, 3
    {
      if t.Call? {
        StatementIsCall(State(), globalLookup, t);
        err := CompileCall(t);
      } else if t.Variable? {
        StatementIsDeclaration(State(), globalLookup, t);
        err := CompileVariable(t);
      } else if t.Assign? {
        StatementIsAssignment(State(), globalLookup, t);
        err := CompileAssignment(t);
      } else {
        StatementIsChain(State(), globalLookup, t);
        err := CompileChain(t);
      }
    }

    /** The statements that jump. */
    method CompileControl(t: T.Token) returns (err: Option<CG.CompileError>)
      requires t.IfElse? || t.WhileLoop? || t.ForI?
      modifies this
      ensures globalLookup == old(globalLookup)
      ensures Outcome(err) == CG.Statement(old(State()), globalLookup, t)
      decreases t, 3
    {
      if t.IfElse? {
        CGP.IfElseStatement(State(), globalLookup, t);
        err := CompileIfElse(t);
      } else if t.WhileLoop? {
        StatementIsLoop(State(), globalLookup, t);
        err := CompileLoop(t);
      } else {
        StatementIsFor(State(), globalLookup, t);
        err := CompileForLoop(t);
      }
    }

    /** `compile_assert`, `compile_print` and `compile_return`: the expression,
        then `ins`. */
    method CompileFollowed(t: T.Token, ins: B.Instruction) returns (err: Option<CG.CompileError>)
      requires (t.Assert? && ins == B.Assert) || (t.Print? && ins == B.Print) || (t.Return? && ins == B.Return(true))
      modifies this
      ensures globalLookup == old(globalLookup)
      ensures Outcome(err) == CG.Statement(old(State()), globalLookup, t)
      decreases t, 1
    {
      var e := if t.Assert? then t.asserted else if t.Print? then t.printed else t.returned;
      err := CompileExpression(e);
      if err.Some? {
        return;
      }
      instructions := instructions + [ins];
    }

    /** `compile_variable`: declare the name, then assign to it. */
    method CompileVariable(t: T.Token) returns (err: Option<CG.CompileError>)
      requires t.Variable?
      modifies this
      ensures globalLookup == old(globalLookup)
      ensures Outcome(err) == CG.Declaration(old(State()), globalLookup, t)
      decreases t, 2
    {
      if !t.target.Identifier? {
        return Some(CG.NotAnIdentifier);
      }
      var slot := AddVariable(T.ToString(t.target));
      if slot.Err? {
        return Some(slot.error);
      }
      err := CompileAssignment(t);
    }

    /** `compile_assignment`. */
    method CompileAssignment(t: T.Token) returns (err: Option<CG.CompileError>)
      requires t.Variable? || t.Assign?
      modifies this
      ensures globalLookup == old(globalLookup)
      ensures Outcome(err) == CG.Assignment(old(State()), globalLookup, t)
      decreases t, 1
    {
      var left := if t.Variable? then t.target else t.left;
      if left.Identifier? {
        err := CompileStore(t);
      } else if left.ArrayIndex? {
        err := CompileIndexStore(t);
      } else {
        AssignmentRefused(State(), globalLookup, t);
        err := Some(CG.NotAssignable);
      }
    }

    /** An assignment to a variable: the value, then `MoveToLocalVariable`. */
    method CompileStore(t: T.Token) returns (err: Option<CG.CompileError>)
      requires (t.Variable? && t.target.Identifier?) || (t.Assign? && t.left.Identifier?)
      modifies this
      ensures globalLookup == old(globalLookup)
      ensures Outcome(err) == CG.Assignment(old(State()), globalLookup, t)
      decreases t, 0
    {
      var left := if t.Variable? then t.target else t.left;
      var right := if t.Variable? then t.value else t.right;
      var slot := VariableSlot(left.id);
      if slot.Err? {
        return Some(slot.error);
      }
      err := CompileExpression(right);
      if err.Some? {
        return;
      }
      instructions := instructions + [B.MoveToLocalVariable(slot.value)];
    }

    /** An assignment to an index: the value, the indexed read, then
        `SetKeyValue` on the indexed variable. */
    method CompileIndexStore(t: T.Token) returns (err: Option<CG.CompileError>)
      requires (t.Variable? && t.target.ArrayIndex?) || (t.Assign? && t.left.ArrayIndex?)
      modifies this
      ensures globalLookup == old(globalLookup)
      ensures Outcome(err) == CG.Assignment(old(State()), globalLookup, t)
      decreases t, 0
    {
      var left := if t.Variable? then t.target else t.left;
      var right := if t.Variable? then t.value else t.right;
      var slot := VariableSlot(T.ToString(left.indexedName));
      if slot.Err? {
        return Some(slot.error);
      }
      err := CompileExpression(right);
      if err.Some? {
        return;
      }
      err := CompileExpression(left);
      if err.Some? {
        return;
      }
      instructions := instructions + [B.SetKeyValue(slot.value)];
    }

    /** `compile_forloop`: the initial statement, then the loop. */
    method CompileForLoop(t: T.Token) returns (err: Option<CG.CompileError>)
      requires t.ForI?
      modifies this
      ensures globalLookup == old(globalLookup)
      ensures Outcome(err) == CG.ForCode(old(State()), globalLookup, t)
      decreases t, 1
    {
      err := CompileStatement(t.init);
      if err.Some? {
        return;
      }
      err := CompileLoop(t);
    }

    /** What `compile_whileloop` and `compile_forloop` share: the test, a
        placeholder, the body (and a `for` loop's step), the jump back, and
        the placeholder patched into the jump out of the loop. */
    method CompileLoop(t: T.Token) returns (err: Option<CG.CompileError>)
      requires t.WhileLoop? || t.ForI?
      modifies this
      ensures globalLookup == old(globalLookup)
      ensures Outcome(err) == CG.LoopCode(old(State()), globalLookup, t)
      decreases t, 0
    {
      ghost var g := State();
      var startOfLoop := |instructions|;
      err := CompileExpression(if t.WhileLoop? then t.whileCondition else t.test);
      if err.Some? {
        LoopTestFails(g, globalLookup, t);
        return;
      }
      ghost var g1 := State();
      var jumpNotTrue := |instructions|;
      instructions := instructions + [B.Halt(CG.NO_JUMP_NOT_TRUE)];
      err := CompileStatements(if t.WhileLoop? then t.whileBody else t.forBody);
      if err.Some? {
        LoopBodyFails(g, globalLookup, t, g1);
        return;
      }
      ghost var g2 := State();
      if t.ForI? {
        err := CompileStatement(t.step);
        if err.Some? {
          LoopStepFails(g, globalLookup, t, g1, g2);
          return;
        }
      }
      ghost var g3 := State();
      instructions := instructions + [B.JumpBackward(|instructions| - startOfLoop)];
      var jumpToPos := |instructions| - jumpNotTrue;
      instructions := instructions[jumpNotTrue := B.JumpIfFalse(WrapI32(jumpToPos))];
      LoopCompose(g, globalLookup, t, g1, g2, g3);
    }

    /** `compile_ifelse`: the condition, then the branches. */
    method CompileIfElse(t: T.Token) returns (err: Option<CG.CompileError>)
      requires t.IfElse?
      modifies this
      ensures globalLookup == old(globalLookup)
      ensures Outcome(err) == CG.IfElseCode(old(State()), globalLookup, t)
      decreases t, 2
    {
      ghost var g := State();
      err := CompileExpression(t.condition);
      if err.Some? {
        IfElseConditionFails(g, globalLookup, t);
        return;
      }
      err := CompileThen(t, g);
    }

    /** The placeholder for the jump to the else branch, the then branch, the
        placeholder for the jump to the end, and the first one patched. */
    method CompileThen(t: T.Token, ghost g: CG.Gen) returns (err: Option<CG.CompileError>)
      requires t.IfElse? && CG.Expression(g, globalLookup, t.condition) == Ok(State())
      modifies this
      ensures globalLookup == old(globalLookup)
      ensures Outcome(err) == CG.IfElseCode(g, globalLookup, t)
      decreases t, 1
    {
      ghost var g1 := State();
      var jumpToElse := |instructions|;
      instructions := instructions + [B.Halt(CG.NO_JUMP_TO_ELSE)];
      err := CompileStatements(t.thenBody);
      if err.Some? {
        IfElseThenFails(g, globalLookup, t, g1);
        return;
      }
      ghost var g2 := State();
      var jumpToEnd := |instructions|;
      instructions := instructions + [B.Halt(CG.NO_JUMP_TO_END)];
      var jumpToPos := |instructions| - jumpToElse;
      instructions := instructions[jumpToElse := B.JumpIfFalse(WrapI32(jumpToPos))];
      assert State() == CGP.ElseStart(g1, g2);
      err := CompileElse(t, g, g1, g2, jumpToEnd);
    }

    /** The else branch, if any, and the jump to the end patched. */
    method CompileElse(t: T.Token, ghost g: CG.Gen, ghost g1: CG.Gen, ghost g2: CG.Gen, jumpToEnd: nat) returns (err: Option<CG.CompileError>)
      requires t.IfElse? && CG.Expression(g, globalLookup, t.condition) == Ok(g1)
      requires CG.Statements(CG.Emit(g1, B.Halt(CG.NO_JUMP_TO_ELSE)), globalLookup, t.thenBody) == Ok(g2)
      requires jumpToEnd == |g2.code| && State() == CGP.ElseStart(g1, g2)
      modifies this
      ensures globalLookup == old(globalLookup)
      ensures Outcome(err) == CG.IfElseCode(g, globalLookup, t)
      decreases t, 0
    {
      if t.elseBranch.Else? {
        err := CompileStatements(t.elseBranch.statements);
        if err.Some? {
          IfElseElseFails(g, globalLookup, t, g1, g2);
          return;
        }
      } else {
        err := None;
      }
      ghost var g5 := State();
      instructions := instructions[jumpToEnd := B.JumpForward(|instructions| - jumpToEnd)];
      CGP.IfElseCompose(g, globalLookup, t, g1, g2, g5);
    }

    /** `compile_chain`: the start, then each link. */
    method CompileChain(t: T.Token) returns (err: Option<CG.CompileError>)
      requires t.Chain?
      modifies this
      ensures globalLookup == old(globalLookup)
      ensures Outcome(err) == CG.ChainCode(old(State()), globalLookup, t)
      decreases t, 1
    {
      err := CompileExpression(t.start);
      if err.Some? {
        return;
      }
      for i := 0 to |t.links|
        invariant globalLookup == old(globalLookup)
        invariant CG.ChainCode(old(State()), globalLookup, t) == CG.Links(State(), globalLookup, t.start, t.links[i..])
      {
        assert t.links[i..][0] == t.links[i] && t.links[i..][1..] == t.links[i + 1..];
        assert t.links[i] in t.links;
        err := CompileLink(t.start, t.links[i]);
        if err.Some? {
          return;
        }
      }
      assert t.links[|t.links|..] == [];
      err := None;
    }

    /** One link of a chain: a member name, or a call of a member with the
        chain's start as the receiver. */
    method CompileLink(start: T.Token, item: T.Token) returns (err: Option<CG.CompileError>)
      modifies this
      ensures globalLookup == old(globalLookup)
      ensures Outcome(err) == CG.Link(old(State()), globalLookup, start, item)
      decreases item, 1
    {
      if item.Identifier? {
        LinkIsMember(State(), globalLookup, start, item);
        instructions := instructions + [B.LoadObjectMember(item.id)];
        err := None;
      } else if item.Call? {
        err := CompileLinkCall(start, item);
      } else {
        LinkIsBad(State(), globalLookup, start, item);
        err := Some(CG.BadChainLink);
      }
    }

    /** A call link: the member, the chain's start, the arguments, `Call`. */
    method CompileLinkCall(start: T.Token, item: T.Token) returns (err: Option<CG.CompileError>)
      requires item.Call?
      modifies this
      ensures globalLookup == old(globalLookup)
      ensures Outcome(err) == CG.Link(old(State()), globalLookup, start, item)
      decreases item, 0
    {
      ghost var g := State();
      instructions := instructions + [B.LoadObjectMember(T.ToString(item.callee))];
      ghost var g1 := State();
      var slot := VariableSlot(T.ToString(start));
      if slot.Err? {
        LinkCallSteps(g, globalLookup, start, item);
        return Some(slot.error);
      }
      instructions := instructions + [B.LoadLocalVariable(slot.value)];
      err := CompileArguments(item.callArgs);
      LinkCallSteps(g, globalLookup, start, item);
      if err.Some? {
        return;
      }
      instructions := instructions + [B.Call(|item.callArgs| + 1)];
    }

    /** The `for arg in args` loops of `compile_call`, `compile_new_object`
        and `compile_chain`: each argument's expression in turn. */
    method CompileArguments(ts: seq<T.Token>) returns (err: Option<CG.CompileError>)
      modifies this
      ensures globalLookup == old(globalLookup)
      ensures Outcome(err) == CG.Expressions(old(State()), globalLookup, ts)
      decreases ts
    {
      for i := 0 to |ts|
        invariant globalLookup == old(globalLookup)
        invariant CG.Expressions(old(State()), globalLookup, ts) == CG.Expressions(State(), globalLookup, ts[i..])
      {
        assert ts[i..][0] == ts[i] && ts[i..][1..] == ts[i + 1..];
        err := CompileExpression(ts[i]);
        if err.Some? {
          return;
        }
      }
      assert ts[|ts|..] == [];
      err := None;
    }

    /** `compile_call`: the callee (from its variable, or as a member of
        `this` with `this` as an extra argument), the arguments, `Call`. */
    method CompileCall(t: T.Token) returns (err: Option<CG.CompileError>)
      requires t.Call?
      modifies this
      ensures globalLookup == old(globalLookup)
      ensures Outcome(err) == CG.CallCode(old(State()), globalLookup, t)
      decreases t, 1
    {
      var argLen := |t.callArgs|;
      var callee := T.ToString(t.callee);
      if callee in variables {
        instructions := instructions + [B.LoadLocalVariable(variables[callee])];
      } else {
        instructions := instructions + [B.LoadLocalVariable(0)];
        instructions := instructions + [B.LoadObjectMember(callee)];
        instructions := instructions + [B.LoadLocalVariable(0)];
        argLen := argLen + 1;
      }
      err := CompileArguments(t.callArgs);
      if err.Some? {
        return;
      }
      instructions := instructions + [B.Call(argLen)];
    }

    /** `compile_new_object`. */
    method CompileNewObject(t: T.Token) returns (err: Option<CG.CompileError>)
      requires t.Object?
      modifies this
      ensures globalLookup == old(globalLookup)
      ensures Outcome(err) == CG.NewObject(old(State()), globalLookup, t)
      decreases t, 1
    {
      var cname := T.ToString(t.className);
      if cname !in globalLookup {
        return Some(CG.UnknownClass(cname));
      }
      instructions := instructions + [B.LoadGlobal(globalLookup[cname])];
      instructions := instructions + [B.CreateObject];
      var objVar := CreateTempVariable();
      if objVar.Err? {
        return Some(objVar.error);
      }
      instructions := instructions + [B.CopyToLocalVariable(objVar.value)];
      instructions := instructions + [B.LoadObjectMember(CG.CONSTRUCTOR_NAME)];
      instructions := instructions + [B.LoadLocalVariable(objVar.value)];
      err := CompileArguments(t.args);
      if err.Some? {
        return;
      }
      instructions := instructions + [B.Call(|t.args| + 1)];
      instructions := instructions + [B.LoadLocalVariable(objVar.value)];
    }

    /** `compile_expression`. */
    method CompileExpression(t: T.Token) returns (err: Option<CG.CompileError>)
      modifies this
      ensures globalLookup == old(globalLookup)
      ensures Outcome(err) == CG.Expression(old(State()), globalLookup, t)
      decreases t, 3
    {
      if CG.IsLiteral(t) || t.AnonFunction? || t.Identifier? {
        err := CompileLeaf(t);
      } else if t.Array? {
        err := CompileArray(t);
      } else if t.Dictionary? {
        err := CompileDictionary(t);
      } else if t.Object? || t.ArrayIndex? || t.Call? || t.Chain? {
        err := CompileCompound(t);
      } else if CG.IsOperation(t) {
        ExpressionIsOperation(State(), globalLookup, t);
        err := CompileOperation(t);
      } else {
        ExpressionUnsupported(State(), globalLookup, t);
        err := Some(CG.UnsupportedExpression);
      }
    }

    /** The expressions that push one value: a literal, the reference to an
        anonymous function (named after the position of its push), or a
        variable. */
    method CompileLeaf(t: T.Token) returns (err: Option<CG.CompileError>)
      requires CG.IsLiteral(t) || t.AnonFunction? || t.Identifier?
      modifies this
      ensures globalLookup == old(globalLookup)
      ensures Outcome(err) == CG.Expression(old(State()), globalLookup, t)
      decreases t, 2
    {
      if t.AnonFunction? {
        ExpressionIsAnonymous(State(), globalLookup, t);
        var funcName := "func" + NatToString(|instructions|);
        instructions := instructions + [B.StackPush(B.LFunctionRef(funcName))];
        err := None;
      } else if t.Identifier? {
        ExpressionIsIdentifier(State(), globalLookup, t);
        var idx := VariableSlot(t.id);
        if idx.Err? {
          return Some(idx.error);
        }
        instructions := instructions + [B.LoadLocalVariable(idx.value)];
        err := None;
      } else {
        CGP.LiteralShape(State(), globalLookup, t);
        instructions := instructions + [B.StackPush(CG.LiteralOf(t))];
        err := None;
      }
    }

    /** The expressions compiled by a function of their own. */
    method CompileCompound(t: T.Token) returns (err: Option<CG.CompileError>)
      requires t.Object? || t.ArrayIndex? || t.Call? || t.Chain?
      modifies this
      ensures globalLookup == old(globalLookup)
      ensures Outcome(err) == CG.Expression(old(State()), globalLookup, t)
      decreases t, 2
    {
      if t.Object? {
        ExpressionIsNewObject(State(), globalLookup, t);
        err := CompileNewObject(t);
      } else if t.ArrayIndex? {
        ExpressionIsIndexRead(State(), globalLookup, t);
        err := CompileIndexRead(t);
      } else if t.Call? {
        ExpressionIsCall(State(), globalLookup, t);
        err := CompileCall(t);
      } else {
        ExpressionIsChain(State(), globalLookup, t);
        err := CompileChain(t);
      }
    }

    /** An array literal: an empty array, then each element and `ArrayAdd`. */
    method CompileArray(t: T.Token) returns (err: Option<CG.CompileError>)
      requires t.Array?
      modifies this
      ensures globalLookup == old(globalLookup)
      ensures Outcome(err) == CG.Expression(old(State()), globalLookup, t)
      decreases t, 1
    {
      instructions := instructions + [B.StackPush(B.LEmptyArray)];
      for i := 0 to |t.elements|
        invariant globalLookup == old(globalLookup)
        invariant CG.Expression(old(State()), globalLookup, t) == CG.Elements(State(), globalLookup, t.elements[i..])
      {
        ghost var es := t.elements[i..];
        assert es[0] == t.elements[i] && es[1..] == t.elements[i + 1..];
        assert t.elements[i] in t.elements;
        err := CompileExpression(t.elements[i]);
        if err.Some? {
          return;
        }
        instructions := instructions + [B.ArrayAdd];
      }
      assert t.elements[|t.elements|..] == [];
      err := None;
    }

    /** A dictionary literal: an empty dictionary, then for each pair its key,
        its value and `DictionaryAdd`; other tokens are skipped. */
    method CompileDictionary(t: T.Token) returns (err: Option<CG.CompileError>)
      requires t.Dictionary?
      modifies this
      ensures globalLookup == old(globalLookup)
      ensures Outcome(err) == CG.Expression(old(State()), globalLookup, t)
      decreases t, 1
    {
      instructions := instructions + [B.StackPush(B.LEmptyDictionary)];
      for i := 0 to |t.pairs|
        invariant globalLookup == old(globalLookup)
        invariant CG.Expression(old(State()), globalLookup, t) == CG.Pairs(State(), globalLookup, t.pairs[i..])
      {
        ghost var ps := t.pairs[i..];
        assert ps[0] == t.pairs[i] && ps[1..] == t.pairs[i + 1..];
        assert t.pairs[i] in t.pairs;
        match t.pairs[i] {
          case KeyValuePair(k, value) =>
            instructions := instructions + [B.StackPush(B.LString(k))];
            err := CompileExpression(value);
            if err.Some? {
              return;
            }
            instructions := instructions + [B.DictionaryAdd];
          case _ =>
        }
      }
      assert t.pairs[|t.pairs|..] == [];
      err := None;
    }

    /** An indexed read: the variable, then `GetKeyValue` with the integer index. */
    method CompileIndexRead(t: T.Token) returns (err: Option<CG.CompileError>)
      requires t.ArrayIndex?
      modifies this
      ensures globalLookup == old(globalLookup)
      ensures Outcome(err) == CG.IndexRead(old(State()), globalLookup, t)
      decreases t, 1
    {
      var idx := VariableSlot(T.ToString(t.indexedName));
      if idx.Err? {
        return Some(idx.error);
      }
      instructions := instructions + [B.LoadLocalVariable(idx.value)];
      if !t.index.Integer? {
        return Some(CG.NonIntegerIndex);
      }
      instructions := instructions + [B.GetKeyValue(UsizeOf(t.index.i))];
      err := None;
    }

    /** A binary operator: both operands, then the operator's instruction. */
    method CompileOperation(t: T.Token) returns (err: Option<CG.CompileError>)
      requires CG.IsOperation(t)
      modifies this
      ensures globalLookup == old(globalLookup)
      ensures Outcome(err) == CG.Operation(old(State()), globalLookup, t)
      decreases t, 1
    {
      err := CompileExpression(t.lhs);
      if err.Some? {
        return;
      }
      err := CompileExpression(t.rhs);
      if err.Some? {
        return;
      }
      instructions := instructions + [CG.OperatorOf(t)];
    }
  }
}
