/** What the code generator guarantees about the code it emits: every
    placeholder is overwritten, and every jump lands inside the construct that
    emitted it, so a function's jumps stay inside the function. Expressions
    emit no jumps at all. */
module CodeGenProperties {
  import opened Base
  import opened Tokens
  import B = Bytecode
  import opened CodeGen

  /** The instruction at `i` is not a placeholder, and if it jumps it lands in
      [lo, hi]. A `JumpIfFalse` offset is an `i32`: it is exact once the range
      is shorter than 2^31. */
  predicate Lands(i: int, ins: B.Instruction, lo: int, hi: int) {
    if ins.Halt? then false
    else if ins.JumpForward? then lo <= i + ins.forward <= hi
    else if ins.JumpBackward? then lo <= i - ins.backward <= hi
    else if ins.JumpIfFalse? then (hi - lo <= I32_MAX ==> lo <= i + ins.offset <= hi)
    else true
  }

  /** Every instruction of code[from..to] lands in [lo, hi]. */
  predicate JumpsIn(code: seq<B.Instruction>, from: int, to: int, lo: int, hi: int) {
    0 <= from <= to <= |code| && forall i :: from <= i < to ==> Lands(i, code[i], lo, hi)
  }

  predicate IsJump(ins: B.Instruction) {
    ins.JumpForward? || ins.JumpBackward? || ins.JumpIfFalse?
  }

  /** Neither a jump nor a placeholder. */
  predicate IsPlain(ins: B.Instruction) { !IsJump(ins) && !ins.Halt? }

  /** The code in [from, to) neither jumps nor holds a placeholder. */
  predicate NoJumps(code: seq<B.Instruction>, from: int, to: int) {
    0 <= from <= to <= |code| && forall i :: from <= i < to ==> IsPlain(code[i])
  }

  /** The code in [from, to) only jumps within itself or to just past it. */
  predicate Closed(code: seq<B.Instruction>, from: int, to: int) {
    JumpsIn(code, from, to, from, to)
  }

  // ---------------------------------------------------------------------------
  // Regions

  lemma NoJumpsLand(code: seq<B.Instruction>, from: int, to: int, lo: int, hi: int)
    requires NoJumps(code, from, to)
    ensures JumpsIn(code, from, to, lo, hi)
  {
  }

  lemma JumpsJoin(code: seq<B.Instruction>, a: int, b: int, e: int, lo: int, hi: int)
    requires JumpsIn(code, a, b, lo, hi) && JumpsIn(code, b, e, lo, hi)
    ensures JumpsIn(code, a, e, lo, hi)
  {
  }

  lemma JumpsWiden(code: seq<B.Instruction>, from: int, to: int, lo: int, hi: int, lo': int, hi': int)
    requires JumpsIn(code, from, to, lo, hi) && lo' <= lo && hi <= hi'
    ensures JumpsIn(code, from, to, lo', hi')
  {
    forall i | from <= i < to
      ensures Lands(i, code[i], lo', hi')
    {
      assert Lands(i, code[i], lo, hi);
    }
  }

  /** A region keeps its jumps in any code that agrees with it on the region. */
  lemma JumpsAgree(code: seq<B.Instruction>, code': seq<B.Instruction>, from: int, to: int, lo: int, hi: int)
    requires JumpsIn(code, from, to, lo, hi) && to <= |code'|
    requires forall i :: from <= i < to ==> code'[i] == code[i]
    ensures JumpsIn(code', from, to, lo, hi)
  {
    forall i | from <= i < to
      ensures Lands(i, code'[i], lo, hi)
    {
      assert code'[i] == code[i];
    }
  }

  // ---------------------------------------------------------------------------
  // Expressions emit no jumps

  /** From `g` to `h`, code was only appended, and it holds no jump and no placeholder. */
  predicate Straight(g: Gen, h: Gen) {
    Extends(g, h) && NoJumps(h.code, |g.code|, |h.code|)
  }

  lemma EmitStraight(g: Gen, h: Gen, ins: B.Instruction)
    requires Straight(g, h) && IsPlain(ins)
    ensures Straight(g, Emit(h, ins))
  {
  }

  lemma StraightChain(g: Gen, h: Gen, k: Gen)
    requires Straight(g, h) && Straight(h, k)
    ensures Straight(g, k)
  {
  }

  lemma {:induction false} ExpressionStraight(g: Gen, classes: map<string, nat>, t: Token)
    ensures var r := Expression(g, classes, t); r.Ok? ==> Straight(g, r.value)
    decreases t, 3
  {
    if t.Array? || t.Dictionary? {
      CollectionStraight(g, classes, t);
    } else if t.Object? || t.Call? || t.Chain? {
      CompoundStraight(g, classes, t);
    } else if IsOperation(t) {
      OperationStraight(g, classes, t);
    } else {
      LeafStraight(g, classes, t);
    }
  }

  /** A literal, a name, an anonymous function or an indexed read: one or two instructions. */
  lemma LeafStraight(g: Gen, classes: map<string, nat>, t: Token)
    requires !(t.Array? || t.Dictionary? || t.Object? || t.Call? || t.Chain? || IsOperation(t))
    ensures var r := Expression(g, classes, t); r.Ok? ==> Straight(g, r.value)
  {
  }

  lemma {:induction false} CollectionStraight(g: Gen, classes: map<string, nat>, t: Token)
    requires t.Array? || t.Dictionary?
    ensures var r := Expression(g, classes, t); r.Ok? ==> Straight(g, r.value)
    decreases t, 2
  {
    if t.Array? {
      var g0 := Emit(g, B.StackPush(B.LEmptyArray));
      ElementsStraight(g0, classes, t.elements);
      if Elements(g0, classes, t.elements).Ok? {
        StraightChain(g, g0, Elements(g0, classes, t.elements).value);
      }
    } else {
      var g0 := Emit(g, B.StackPush(B.LEmptyDictionary));
      PairsStraight(g0, classes, t.pairs);
      if Pairs(g0, classes, t.pairs).Ok? {
        StraightChain(g, g0, Pairs(g0, classes, t.pairs).value);
      }
    }
  }

  lemma {:induction false} CompoundStraight(g: Gen, classes: map<string, nat>, t: Token)
    requires t.Object? || t.Call? || t.Chain?
    ensures var r := Expression(g, classes, t); r.Ok? ==> Straight(g, r.value)
    decreases t, 2
  {
    if t.Object? {
      NewObjectStraight(g, classes, t);
    } else if t.Call? {
      CallStraight(g, classes, t);
    } else {
      ChainStraight(g, classes, t);
    }
  }

  lemma {:induction false} OperationStraight(g: Gen, classes: map<string, nat>, t: Token)
    requires IsOperation(t)
    ensures var r := Operation(g, classes, t); r.Ok? ==> Straight(g, r.value)
    decreases t, 1
  {
    ExpressionStraight(g, classes, t.lhs);
    match Expression(g, classes, t.lhs)
    case Err(_) =>
    case Ok(g1) =>
      ExpressionStraight(g1, classes, t.rhs);
      match Expression(g1, classes, t.rhs)
      case Err(_) =>
      case Ok(g2) =>
        StraightChain(g, g1, g2);
        EmitStraight(g, g2, OperatorOf(t));
  }

  lemma {:induction false} ExpressionsStraight(g: Gen, classes: map<string, nat>, ts: seq<Token>)
    ensures var r := Expressions(g, classes, ts); r.Ok? ==> Straight(g, r.value)
    decreases ts
  {
    if ts != [] {
      ExpressionStraight(g, classes, ts[0]);
      match Expression(g, classes, ts[0])
      case Err(_) =>
      case Ok(g1) =>
        ExpressionsStraight(g1, classes, ts[1..]);
        if Expressions(g1, classes, ts[1..]).Ok? {
          StraightChain(g, g1, Expressions(g1, classes, ts[1..]).value);
        }
    }
  }

  lemma {:induction false} ElementsStraight(g: Gen, classes: map<string, nat>, ts: seq<Token>)
    ensures var r := Elements(g, classes, ts); r.Ok? ==> Straight(g, r.value)
    decreases ts
  {
    if ts != [] {
      ExpressionStraight(g, classes, ts[0]);
      match Expression(g, classes, ts[0])
      case Err(_) =>
      case Ok(g1) =>
        var g2 := Emit(g1, B.ArrayAdd);
        EmitStraight(g, g1, B.ArrayAdd);
        ElementsStraight(g2, classes, ts[1..]);
        if Elements(g2, classes, ts[1..]).Ok? {
          StraightChain(g, g2, Elements(g2, classes, ts[1..]).value);
        }
    }
  }

  lemma {:induction false} PairsStraight(g: Gen, classes: map<string, nat>, ts: seq<Token>)
    ensures var r := Pairs(g, classes, ts); r.Ok? ==> Straight(g, r.value)
    decreases ts
  {
    if ts == [] {
    } else if ts[0].KeyValuePair? {
      var g0 := Emit(g, B.StackPush(B.LString(ts[0].key)));
      ExpressionStraight(g0, classes, ts[0].pairValue);
      match Expression(g0, classes, ts[0].pairValue)
      case Err(_) =>
      case Ok(g1) =>
        var g2 := Emit(g1, B.DictionaryAdd);
        StraightChain(g, g0, g1);
        EmitStraight(g, g1, B.DictionaryAdd);
        PairsStraight(g2, classes, ts[1..]);
        if Pairs(g2, classes, ts[1..]).Ok? {
          StraightChain(g, g2, Pairs(g2, classes, ts[1..]).value);
        }
    } else {
      PairsStraight(g, classes, ts[1..]);
    }
  }

  lemma {:induction false} NewObjectStraight(g: Gen, classes: map<string, nat>, t: Token)
    requires t.Object?
    ensures var r := NewObject(g, classes, t); r.Ok? ==> Straight(g, r.value)
    decreases t, 1
  {
    var name := ToString(t.className);
    if name in classes {
      var g0 := Emit(g, B.LoadGlobal(classes[name]));
      var g1 := Emit(g0, B.CreateObject);
      EmitStraight(g, g, B.LoadGlobal(classes[name]));
      EmitStraight(g, g0, B.CreateObject);
      match CreateTemp(g1)
      case Err(_) =>
      case Ok((g2, obj)) =>
        assert Straight(g1, g2);
        StraightChain(g, g1, g2);
        var g3 := NewObjectPrologue(g, g2, obj);
        ExpressionsStraight(g3, classes, t.args);
        match Expressions(g3, classes, t.args)
        case Err(_) =>
        case Ok(g4) =>
          StraightChain(g, g3, g4);
          EmitStraight(g, g4, B.Call(|t.args| + 1));
          EmitStraight(g, Emit(g4, B.Call(|t.args| + 1)), B.LoadLocalVariable(obj));
    }
  }

  /** The three instructions that fetch the constructor of the new object `obj`. */
  lemma NewObjectPrologue(g: Gen, g2: Gen, obj: nat) returns (g3: Gen)
    requires Straight(g, g2)
    ensures g3 == Emit(Emit(Emit(g2, B.CopyToLocalVariable(obj)), B.LoadObjectMember(CONSTRUCTOR_NAME)), B.LoadLocalVariable(obj))
    ensures Straight(g, g3)
  {
    var a := Emit(g2, B.CopyToLocalVariable(obj));
    var b := Emit(a, B.LoadObjectMember(CONSTRUCTOR_NAME));
    EmitStraight(g, g2, B.CopyToLocalVariable(obj));
    EmitStraight(g, a, B.LoadObjectMember(CONSTRUCTOR_NAME));
    EmitStraight(g, b, B.LoadLocalVariable(obj));
    g3 := Emit(b, B.LoadLocalVariable(obj));
  }

  lemma {:induction false} CallStraight(g: Gen, classes: map<string, nat>, t: Token)
    requires t.Call?
    ensures var r := CallCode(g, classes, t); r.Ok? ==> Straight(g, r.value)
    decreases t, 1
  {
    var name := ToString(t.callee);
    var g1 :=
      if name in g.vars then Emit(g, B.LoadLocalVariable(g.vars[name]))
      else Emit(Emit(Emit(g, B.LoadLocalVariable(0)), B.LoadObjectMember(name)), B.LoadLocalVariable(0));
    assert Straight(g, g1);
    ExpressionsStraight(g1, classes, t.callArgs);
    match Expressions(g1, classes, t.callArgs)
    case Err(_) =>
    case Ok(g2) =>
      StraightChain(g, g1, g2);
      EmitStraight(g, g2, B.Call(if name in g.vars then |t.callArgs| else |t.callArgs| + 1));
  }

  lemma {:induction false} ChainStraight(g: Gen, classes: map<string, nat>, t: Token)
    requires t.Chain?
    ensures var r := ChainCode(g, classes, t); r.Ok? ==> Straight(g, r.value)
    decreases t, 1
  {
    ExpressionStraight(g, classes, t.start);
    match Expression(g, classes, t.start)
    case Err(_) =>
    case Ok(g1) =>
      LinksStraight(g1, classes, t.start, t.links);
      if Links(g1, classes, t.start, t.links).Ok? {
        StraightChain(g, g1, Links(g1, classes, t.start, t.links).value);
      }
  }

  lemma {:induction false} LinksStraight(g: Gen, classes: map<string, nat>, start: Token, ts: seq<Token>)
    ensures var r := Links(g, classes, start, ts); r.Ok? ==> Straight(g, r.value)
    decreases ts
  {
    if ts != [] {
      LinkStraight(g, classes, start, ts[0]);
      match Link(g, classes, start, ts[0])
      case Err(_) =>
      case Ok(g1) =>
        LinksStraight(g1, classes, start, ts[1..]);
        if Links(g1, classes, start, ts[1..]).Ok? {
          StraightChain(g, g1, Links(g1, classes, start, ts[1..]).value);
        }
    }
  }

  lemma {:induction false} LinkStraight(g: Gen, classes: map<string, nat>, start: Token, t: Token)
    ensures var r := Link(g, classes, start, t); r.Ok? ==> Straight(g, r.value)
    decreases t, 0
  {
    if t.Call? {
      var g1 := Emit(g, B.LoadObjectMember(ToString(t.callee)));
      match Slot(g1, ToString(start))
      case Err(_) =>
      case Ok(slot) =>
        var g2 := Emit(g1, B.LoadLocalVariable(slot));
        assert Straight(g, g2);
        ExpressionsStraight(g2, classes, t.callArgs);
        match Expressions(g2, classes, t.callArgs)
        case Err(_) =>
        case Ok(g3) =>
          StraightChain(g, g2, g3);
          EmitStraight(g, g3, B.Call(|t.callArgs| + 1));
    }
  }

  // ---------------------------------------------------------------------------
  // Statements keep their jumps inside

  /** From `g` to `h`, code was only appended, no placeholder is left in it, and
      its jumps land inside it or just past its end. */
  predicate Block(g: Gen, h: Gen) {
    Extends(g, h) && Closed(h.code, |g.code|, |h.code|)
  }

  lemma StraightBlock(g: Gen, h: Gen)
    requires Straight(g, h)
    ensures Block(g, h)
  {
    NoJumpsLand(h.code, |g.code|, |h.code|, |g.code|, |h.code|);
  }

  lemma BlockChain(g: Gen, h: Gen, k: Gen)
    requires Block(g, h) && Block(h, k)
    ensures Block(g, k)
  {
    JumpsAgree(h.code, k.code, |g.code|, |h.code|, |g.code|, |h.code|);
    JumpsWiden(k.code, |g.code|, |h.code|, |g.code|, |h.code|, |g.code|, |k.code|);
    JumpsWiden(k.code, |h.code|, |k.code|, |h.code|, |k.code|, |g.code|, |k.code|);
    JumpsJoin(k.code, |g.code|, |h.code|, |k.code|, |g.code|, |k.code|);
  }

  lemma {:induction false} StatementBlock(g: Gen, classes: map<string, nat>, t: Token)
    ensures var r := Statement(g, classes, t); r.Ok? ==> Block(g, r.value)
    decreases t, 3
  {
    if t.Assert? || t.Print? || t.Return? {
      SimpleStatementBlock(g, classes, t);
    } else if t.Call? || t.Chain? || t.Variable? || t.Assign? {
      CodeStatementBlock(g, classes, t);
    } else if t.WhileLoop? || t.ForI? {
      LoopStatementBlock(g, classes, t);
    } else if t.IfElse? {
      IfElseBlock(g, classes, t);
    }
  }

  /** `assert`, `print` and `return`: an expression and one instruction. */
  lemma SimpleStatementBlock(g: Gen, classes: map<string, nat>, t: Token)
    requires t.Assert? || t.Print? || t.Return?
    ensures var r := Statement(g, classes, t); r.Ok? ==> Block(g, r.value)
  {
    var e := if t.Assert? then t.asserted else if t.Print? then t.printed else t.returned;
    var ins := if t.Assert? then B.Assert else if t.Print? then B.Print else B.Return(true);
    ExpressionStraight(g, classes, e);
    match Expression(g, classes, e)
    case Err(_) =>
    case Ok(g1) =>
      EmitStraight(g, g1, ins);
      StraightBlock(g, Emit(g1, ins));
  }

  /** Calls, chains, declarations and assignments emit straight-line code. */
  lemma CodeStatementBlock(g: Gen, classes: map<string, nat>, t: Token)
    requires t.Call? || t.Chain? || t.Variable? || t.Assign?
    ensures var r := Statement(g, classes, t); r.Ok? ==> Block(g, r.value)
  {
    if t.Call? {
      CallStraight(g, classes, t);
      if CallCode(g, classes, t).Ok? { StraightBlock(g, CallCode(g, classes, t).value); }
    } else if t.Chain? {
      ChainStraight(g, classes, t);
      if ChainCode(g, classes, t).Ok? { StraightBlock(g, ChainCode(g, classes, t).value); }
    } else if t.Variable? {
      DeclarationStraight(g, classes, t);
      if Declaration(g, classes, t).Ok? { StraightBlock(g, Declaration(g, classes, t).value); }
    } else {
      AssignmentStraight(g, classes, t);
      if Assignment(g, classes, t).Ok? { StraightBlock(g, Assignment(g, classes, t).value); }
    }
  }

  lemma DeclarationStraight(g: Gen, classes: map<string, nat>, t: Token)
    requires t.Variable?
    ensures var r := Declaration(g, classes, t); r.Ok? ==> Straight(g, r.value)
  {
    if t.target.Identifier? {
      match AddVariable(g, t.target.id)
      case Err(_) =>
      case Ok((g1, _)) =>
        AssignmentStraight(g1, classes, t);
        if Assignment(g1, classes, t).Ok? {
          StraightChain(g, g1, Assignment(g1, classes, t).value);
        }
    }
  }

  lemma AssignmentStraight(g: Gen, classes: map<string, nat>, t: Token)
    requires t.Variable? || t.Assign?
    ensures var r := Assignment(g, classes, t); r.Ok? ==> Straight(g, r.value)
  {
    var left := if t.Variable? then t.target else t.left;
    var right := if t.Variable? then t.value else t.right;
    ExpressionStraight(g, classes, right);
    match Expression(g, classes, right)
    case Err(_) =>
    case Ok(g1) =>
      if left.Identifier? {
        if left.id in g.vars {
          EmitStraight(g, g1, B.MoveToLocalVariable(g.vars[left.id]));
        }
      } else if left.ArrayIndex? {
        ExpressionStraight(g1, classes, left);
        match Expression(g1, classes, left)
        case Err(_) =>
        case Ok(g2) =>
          StraightChain(g, g1, g2);
          if ToString(left.indexedName) in g.vars {
            EmitStraight(g, g2, B.SetKeyValue(g.vars[ToString(left.indexedName)]));
          }
      }
  }

  lemma {:induction false} StatementsBlock(g: Gen, classes: map<string, nat>, ts: seq<Token>)
    ensures var r := Statements(g, classes, ts); r.Ok? ==> Block(g, r.value)
    decreases ts
  {
    if ts != [] {
      StatementBlock(g, classes, ts[0]);
      match Statement(g, classes, ts[0])
      case Err(_) =>
      case Ok(g1) =>
        StatementsBlock(g1, classes, ts[1..]);
        if Statements(g1, classes, ts[1..]).Ok? {
          BlockChain(g, g1, Statements(g1, classes, ts[1..]).value);
        }
    }
  }

  lemma {:induction false} LoopStatementBlock(g: Gen, classes: map<string, nat>, t: Token)
    requires t.WhileLoop? || t.ForI?
    ensures var r := Statement(g, classes, t); r.Ok? ==> Block(g, r.value)
    decreases t, 2
  {
    if t.WhileLoop? {
      LoopBlock(g, classes, t);
    } else {
      ForBlock(g, classes, t);
    }
  }

  lemma {:induction false} IfElseBlock(g: Gen, classes: map<string, nat>, t: Token)
    requires t.IfElse?
    ensures var r := Statement(g, classes, t); r.Ok? ==> Block(g, r.value)
    decreases t, 2
  {
    if IfElseCode(g, classes, t).Ok? {
      var g1, g2, g5 := IfElseUnfold(g, classes, t);
      ExpressionStraight(g, classes, t.condition);
      StatementsBlock(Emit(g1, B.Halt(NO_JUMP_TO_ELSE)), classes, t.thenBody);
      ElseBlock(ElseStart(g1, g2), classes, t.elseBranch);
      IfElseClosed(g, g1, g2, g5);
    }
  }

  /** The state in which the else branch is compiled: the then branch closed
      by the placeholder for the jump to the end, and the jump to the else
      branch patched in. */
  function ElseStart(g1: Gen, g2: Gen): Gen
    requires |g1.code| < |g2.code| + 1
  {
    var g3 := Emit(g2, B.Halt(NO_JUMP_TO_END));
    Patch(g3, |g1.code|, B.JumpIfFalse(WrapI32(|g3.code| - |g1.code|)))
  }

  /** The pieces a successful `if` is made of. */
  lemma IfElseUnfold(g: Gen, classes: map<string, nat>, t: Token) returns (g1: Gen, g2: Gen, g5: Gen)
    requires t.IfElse? && IfElseCode(g, classes, t).Ok?
    ensures Expression(g, classes, t.condition) == Ok(g1)
    ensures Statements(Emit(g1, B.Halt(NO_JUMP_TO_ELSE)), classes, t.thenBody) == Ok(g2)
    ensures |g1.code| < |g2.code| + 1 && ElseCode(ElseStart(g1, g2), classes, t.elseBranch) == Ok(g5)
    ensures |g2.code| < |g5.code|
    ensures IfElseCode(g, classes, t) == Ok(Patch(g5, |g2.code|, B.JumpForward(|g5.code| - |g2.code|)))
  {
    g1 := Expression(g, classes, t.condition).value;
    g2 := Statements(Emit(g1, B.Halt(NO_JUMP_TO_ELSE)), classes, t.thenBody).value;
    g5 := ElseCode(ElseStart(g1, g2), classes, t.elseBranch).value;
  }

  lemma IfElseClosed(g: Gen, g1: Gen, g2: Gen, g5: Gen)
    requires Straight(g, g1) && Block(Emit(g1, B.Halt(NO_JUMP_TO_ELSE)), g2)
    requires Block(ElseStart(g1, g2), g5)
    ensures Block(g, Patch(g5, |g2.code|, B.JumpForward(|g5.code| - |g2.code|)))
  {
    var start, toElse, toEnd, end := |g.code|, |g1.code|, |g2.code|, |g5.code|;
    var g4 := ElseStart(g1, g2);
    var code := Patch(g5, toEnd, B.JumpForward(end - toEnd)).code;
    NoJumpsLand(g1.code, start, toElse, start, end);
    JumpsAgree(g1.code, code, start, toElse, start, end);
    JumpsWiden(g2.code, toElse + 1, toEnd, toElse + 1, toEnd, start, end);
    JumpsAgree(g2.code, code, toElse + 1, toEnd, start, end);
    JumpsWiden(g5.code, toEnd + 1, end, toEnd + 1, end, start, end);
    JumpsAgree(g5.code, code, toEnd + 1, end, start, end);
    assert code[toElse] == g4.code[toElse];
    SingleLands(code, toElse, start, end);
    SingleLands(code, toEnd, start, end);
    JumpsJoin(code, start, toElse, toElse + 1, start, end);
    JumpsJoin(code, start, toElse + 1, toEnd, start, end);
    JumpsJoin(code, start, toEnd, toEnd + 1, start, end);
    JumpsJoin(code, start, toEnd + 1, end, start, end);
  }

  lemma {:induction false} ElseBlock(g: Gen, classes: map<string, nat>, e: ElseBranch)
    ensures var r := ElseCode(g, classes, e); r.Ok? ==> Block(g, r.value)
    decreases e
  {
    match e
    case NoElse =>
    case Else(ts) => StatementsBlock(g, classes, ts);
  }

  lemma {:induction false} LoopBlock(g: Gen, classes: map<string, nat>, t: Token)
    requires t.WhileLoop? || t.ForI?
    ensures var r := LoopCode(g, classes, t); r.Ok? ==> Block(g, r.value)
    decreases t, 0
  {
    if LoopCode(g, classes, t).Ok? {
      var g1, g2, g3 := LoopUnfold(g, classes, t);
      var h := Emit(g1, B.Halt(NO_JUMP_NOT_TRUE));
      ExpressionStraight(g, classes, if t.WhileLoop? then t.whileCondition else t.test);
      StatementsBlock(h, classes, if t.WhileLoop? then t.whileBody else t.forBody);
      if t.ForI? {
        StatementBlock(g2, classes, t.step);
        BlockChain(h, g2, g3);
      }
      LoopClosed(g, g1, g3);
    }
  }

  /** The pieces a successful loop is made of. */
  lemma LoopUnfold(g: Gen, classes: map<string, nat>, t: Token) returns (g1: Gen, g2: Gen, g3: Gen)
    requires (t.WhileLoop? || t.ForI?) && LoopCode(g, classes, t).Ok?
    ensures Expression(g, classes, if t.WhileLoop? then t.whileCondition else t.test) == Ok(g1)
    ensures Statements(Emit(g1, B.Halt(NO_JUMP_NOT_TRUE)), classes, if t.WhileLoop? then t.whileBody else t.forBody) == Ok(g2)
    ensures if t.WhileLoop? then g3 == g2 else Statement(g2, classes, t.step) == Ok(g3)
    ensures var g4 := Emit(g3, B.JumpBackward(|g3.code| - |g.code|));
      LoopCode(g, classes, t) == Ok(Patch(g4, |g1.code|, B.JumpIfFalse(WrapI32(|g4.code| - |g1.code|))))
  {
    g1 := Expression(g, classes, if t.WhileLoop? then t.whileCondition else t.test).value;
    g2 := Statements(Emit(g1, B.Halt(NO_JUMP_NOT_TRUE)), classes, if t.WhileLoop? then t.whileBody else t.forBody).value;
    g3 := if t.WhileLoop? then g2 else Statement(g2, classes, t.step).value;
  }

  /** The shape both loops share: straight code for the test from `g` to
      `g1`, the placeholder, a block from there to `g2`, and the jump back. */
  lemma LoopClosed(g: Gen, g1: Gen, g2: Gen)
    requires Straight(g, g1) && Block(Emit(g1, B.Halt(NO_JUMP_NOT_TRUE)), g2)
    ensures var start := |g.code|; var jump := |g1.code|;
      var g3 := Emit(g2, B.JumpBackward(|g2.code| - start));
      Block(g, Patch(g3, jump, B.JumpIfFalse(WrapI32(|g3.code| - jump))))
  {
    var start := |g.code|;
    var jump := |g1.code|;
    var g3 := Emit(g2, B.JumpBackward(|g2.code| - start));
    var r := Patch(g3, jump, B.JumpIfFalse(WrapI32(|g3.code| - jump)));
    LoopJumps(g1.code, g2.code, start, r.code);
    assert Extends(g, r) by {
      assert Extends(g1, g2);
    }
  }

  lemma LoopJumps(c1: seq<B.Instruction>, c2: seq<B.Instruction>, start: nat, code: seq<B.Instruction>)
    requires NoJumps(c1, start, |c1|) && |c1| < |c2|
    requires forall i :: 0 <= i < |c1| ==> c2[i] == c1[i]
    requires Closed(c2, |c1| + 1, |c2|)
    requires code == (c2 + [B.JumpBackward(|c2| - start)])[|c1| := B.JumpIfFalse(WrapI32(|c2| + 1 - |c1|))]
    ensures Closed(code, start, |code|)
  {
    var jump, end := |c1|, |code|;
    NoJumpsLand(c1, start, jump, start, end);
    JumpsAgree(c1, code, start, jump, start, end);
    JumpsWiden(c2, jump + 1, |c2|, jump + 1, |c2|, start, end);
    JumpsAgree(c2, code, jump + 1, |c2|, start, end);
    SingleLands(code, jump, start, end);
    SingleLands(code, |c2|, start, end);
    JumpsJoin(code, start, jump, jump + 1, start, end);
    JumpsJoin(code, start, jump + 1, |c2|, start, end);
    JumpsJoin(code, start, |c2|, end, start, end);
  }

  lemma SingleLands(code: seq<B.Instruction>, i: int, lo: int, hi: int)
    requires 0 <= i < |code| && Lands(i, code[i], lo, hi)
    ensures JumpsIn(code, i, i + 1, lo, hi)
  {
  }

  lemma {:induction false} ForBlock(g: Gen, classes: map<string, nat>, t: Token)
    requires t.ForI?
    ensures var r := ForCode(g, classes, t); r.Ok? ==> Block(g, r.value)
    decreases t, 1
  {
    StatementBlock(g, classes, t.init);
    match Statement(g, classes, t.init)
    case Err(_) =>
    case Ok(g0) =>
      LoopBlock(g0, classes, t);
      if LoopCode(g0, classes, t).Ok? {
        BlockChain(g, g0, LoopCode(g0, classes, t).value);
      }
  }

  // ---------------------------------------------------------------------------
  // A whole function

  /** The code of a function can be run: it ends with a `Return`, holds no
      placeholder, and every jump lands on one of its own instructions. */
  predicate WellFormed(code: seq<B.Instruction>) {
    |code| > 0 && code[|code| - 1].Return? && JumpsIn(code, 0, |code|, 0, |code| - 1)
  }

  lemma ReturnStraight(g: Gen, classes: map<string, nat>, t: Token)
    requires t.Return?
    ensures var r := Statement(g, classes, t);
      r.Ok? ==> Straight(g, r.value) && |r.value.code| > |g.code| && r.value.code[|r.value.code| - 1] == B.Return(true)
  {
    ExpressionStraight(g, classes, t.returned);
    match Expression(g, classes, t.returned)
    case Err(_) =>
    case Ok(g1) => EmitStraight(g, g1, B.Return(true));
  }

  /** Compiling statements is compiling the first, then the rest. */
  lemma StatementsCons(g: Gen, classes: map<string, nat>, ts: seq<Token>, g1: Gen)
    requires ts != [] && Statement(g, classes, ts[0]) == Ok(g1)
    ensures Statements(g, classes, ts) == Statements(g1, classes, ts[1..])
  {
  }

  /** Statements ending in a `return` end in `Return(true)`, and none of
      their jumps lands past it. */
  lemma {:induction false} ReturningBlock(g: Gen, classes: map<string, nat>, ts: seq<Token>)
    requires |ts| > 0 && ts[|ts| - 1].Return?
    ensures var r := Statements(g, classes, ts);
      r.Ok? ==> Ends(g, r.value)
    decreases ts
  {
    match Statement(g, classes, ts[0])
    case Err(_) =>
    case Ok(g1) =>
      StatementsCons(g, classes, ts, g1);
      if |ts| == 1 {
        ReturnStraight(g, classes, ts[0]);
        StraightEnds(g, g1);
      } else {
        StatementBlock(g, classes, ts[0]);
        assert ts[1..][|ts[1..]| - 1] == ts[|ts| - 1];
        ReturningBlock(g1, classes, ts[1..]);
        if Statements(g1, classes, ts[1..]).Ok? {
          EndsAfterBlock(g, g1, Statements(g1, classes, ts[1..]).value);
        }
      }
  }

  /** From `g` to `h`, code was appended that ends in `Return(true)` and whose
      jumps all land on it. */
  predicate Ends(g: Gen, h: Gen) {
    Extends(g, h) && |h.code| > |g.code| && h.code[|h.code| - 1] == B.Return(true) &&
    JumpsIn(h.code, |g.code|, |h.code|, |g.code|, |h.code| - 1)
  }

  lemma StraightEnds(g: Gen, h: Gen)
    requires Straight(g, h) && |h.code| > |g.code| && h.code[|h.code| - 1] == B.Return(true)
    ensures Ends(g, h)
  {
    NoJumpsLand(h.code, |g.code|, |h.code|, |g.code|, |h.code| - 1);
  }

  lemma EndsAfterBlock(g: Gen, h: Gen, k: Gen)
    requires Block(g, h) && Ends(h, k)
    ensures Ends(g, k)
  {
    JumpsAgree(h.code, k.code, |g.code|, |h.code|, |g.code|, |h.code|);
    JumpsWiden(k.code, |g.code|, |h.code|, |g.code|, |h.code|, |g.code|, |k.code| - 1);
    JumpsWiden(k.code, |h.code|, |k.code|, |h.code|, |k.code| - 1, |g.code|, |k.code| - 1);
    JumpsJoin(k.code, |g.code|, |h.code|, |k.code|, |g.code|, |k.code| - 1);
  }

  /** The corrected `compile` always produces code that can be run. */
  lemma CompileWellFormed(params: seq<Token>, body: seq<Token>, classes: map<string, nat>)
    ensures var r := Compile(params, body, classes); r.Ok? ==> WellFormed(r.value)
  {
    if body != [] {
      var r := Statements(Gen([], Prologue(params)), classes, body);
      if r.Ok? {
        CompileOf(params, body, classes, r.value);
        if body[|body| - 1].Return? {
          ReturningWellFormed(params, body, classes, r.value);
        } else {
          AppendedWellFormed(params, body, classes, r.value);
        }
      }
    }
  }

  lemma ReturningWellFormed(params: seq<Token>, body: seq<Token>, classes: map<string, nat>, g: Gen)
    requires body != [] && body[|body| - 1].Return?
    requires Statements(Gen([], Prologue(params)), classes, body) == Ok(g)
    ensures WellFormed(g.code)
  {
    ReturningBlock(Gen([], Prologue(params)), classes, body);
  }

  lemma AppendedWellFormed(params: seq<Token>, body: seq<Token>, classes: map<string, nat>, g: Gen)
    requires Statements(Gen([], Prologue(params)), classes, body) == Ok(g)
    ensures WellFormed(g.code + [B.Return(false)])
  {
    StatementsBlock(Gen([], Prologue(params)), classes, body);
    AppendReturn(g.code);
  }

  lemma AppendReturn(code: seq<B.Instruction>)
    requires Closed(code, 0, |code|)
    ensures WellFormed(code + [B.Return(false)])
  {
    JumpsAgree(code, code + [B.Return(false)], 0, |code|, 0, |code|);
    SingleLands(code + [B.Return(false)], |code|, 0, |code|);
    JumpsJoin(code + [B.Return(false)], 0, |code|, |code| + 1, 0, |code|);
  }

  /** Once the statements have compiled to `g`: where the last statement is a
      `return`, or the last instruction is not one, the code as written and
      the corrected code are the same. */
  lemma AsWrittenAgrees(params: seq<Token>, body: seq<Token>, classes: map<string, nat>, g: Gen)
    requires body != [] && Statements(Gen([], Prologue(params)), classes, body) == Ok(g)
    requires body[|body| - 1].Return? || |g.code| == 0 || !g.code[|g.code| - 1].Return?
    ensures CompileAsWritten(params, body, classes) == Compile(params, body, classes)
  {
    if body[|body| - 1].Return? {
      AgreeReturning(params, body, classes, g);
    } else {
      AgreeAppending(params, body, classes, g);
    }
  }

  lemma AgreeReturning(params: seq<Token>, body: seq<Token>, classes: map<string, nat>, g: Gen)
    requires body != [] && Statements(Gen([], Prologue(params)), classes, body) == Ok(g)
    requires body[|body| - 1].Return?
    ensures CompileAsWritten(params, body, classes) == Ok(g.code) == Compile(params, body, classes)
  {
    CompileOf(params, body, classes, g);
    ReturningLast(Gen([], Prologue(params)), classes, body);
    AsWrittenKeeps(params, body, classes, g);
  }

  lemma AgreeAppending(params: seq<Token>, body: seq<Token>, classes: map<string, nat>, g: Gen)
    requires body != [] && Statements(Gen([], Prologue(params)), classes, body) == Ok(g)
    requires !body[|body| - 1].Return? && (|g.code| == 0 || !g.code[|g.code| - 1].Return?)
    ensures CompileAsWritten(params, body, classes) == Ok(g.code + [B.Return(false)]) == Compile(params, body, classes)
  {
    CompileOf(params, body, classes, g);
    AsWrittenAppends(params, body, classes, g);
  }

  /** When the statements' code does not end in a `Return` instruction, the
      code as written gets `Return(false)` appended. */
  lemma AsWrittenAppends(params: seq<Token>, body: seq<Token>, classes: map<string, nat>, g: Gen)
    requires body != [] && Statements(Gen([], Prologue(params)), classes, body) == Ok(g)
    requires |g.code| == 0 || !g.code[|g.code| - 1].Return?
    ensures CompileAsWritten(params, body, classes) == Ok(g.code + [B.Return(false)])
  {
    assert CompileAsWritten(params, body, classes) == Ok(WithReturn(g.code));
  }

  /** The corrected code, once the statements have compiled to `g`. */
  lemma CompileOf(params: seq<Token>, body: seq<Token>, classes: map<string, nat>, g: Gen)
    requires body != [] && Statements(Gen([], Prologue(params)), classes, body) == Ok(g)
    ensures Compile(params, body, classes) ==
      if body[|body| - 1].Return? then Ok(g.code) else Ok(g.code + [B.Return(false)])
  {
  }

  /** Both versions report the statements' error. */
  lemma ErrorsAgree(params: seq<Token>, body: seq<Token>, classes: map<string, nat>)
    requires body != [] && Statements(Gen([], Prologue(params)), classes, body).Err?
    ensures CompileAsWritten(params, body, classes) == Err(Statements(Gen([], Prologue(params)), classes, body).error)
    ensures Compile(params, body, classes) == Err(Statements(Gen([], Prologue(params)), classes, body).error)
  {
  }

  /** Statements ending in a `return` leave a `Return` as the last instruction. */
  lemma ReturningLast(g: Gen, classes: map<string, nat>, ts: seq<Token>)
    requires |ts| > 0 && ts[|ts| - 1].Return?
    ensures var r := Statements(g, classes, ts);
      r.Ok? ==> |r.value.code| > 0 && r.value.code[|r.value.code| - 1].Return?
  {
    ReturningBlock(g, classes, ts);
  }

  /** The body of the example below: `if true { print 1 } else { return 2 }`. */
  const RETURNING_ELSE: Token := IfElse(Bool(true), [Print(Integer(1))], Else([Return(Integer(2))]))

  /** An `if` whose else branch ends in a `return`, compiled as written: the
      last instruction is a `Return`, so nothing is appended, and the jump
      over the else branch lands one past the end of the function. */
  lemma AsWrittenRunsOffTheEnd(classes: map<string, nat>)
    ensures var r := CompileAsWritten([], [RETURNING_ELSE], classes);
      r.Ok? && |r.value| == 7 && r.value[4] == B.JumpForward(3) && !WellFormed(r.value)
  {
    var r := IfElseExample(classes);
    SingleStatement(Gen([], Prologue([])), classes, RETURNING_ELSE, r);
    AsWrittenKeeps([], [RETURNING_ELSE], classes, r);
    assert !Lands(4, r.code[4], 0, |r.code| - 1);
  }

  /** The code of the `if` above. */
  lemma IfElseExample(classes: map<string, nat>) returns (r: Gen)
    ensures Statement(Gen([], Prologue([])), classes, RETURNING_ELSE) == Ok(r)
    ensures r.code == [B.StackPush(B.LBool(true)), B.JumpIfFalse(4), B.StackPush(B.LInteger(1)), B.Print,
                       B.JumpForward(3), B.StackPush(B.LInteger(2)), B.Return(true)]
  {
    var g := Gen([], Prologue([]));
    var g1, g2, g5 := IfElsePieces(g, classes);
    IfElseSteps(g, classes, RETURNING_ELSE, g1, g2, g5);
    r := Patch(g5, |g2.code|, B.JumpForward(|g5.code| - |g2.code|));
    IfElseExampleCode(g, g1, g2, g5);
  }

  lemma IfElsePieces(g: Gen, classes: map<string, nat>) returns (g1: Gen, g2: Gen, g5: Gen)
    ensures g1 == Emit(g, B.StackPush(B.LBool(true)))
    ensures g2 == Emit(Emit(Emit(g1, B.Halt(NO_JUMP_TO_ELSE)), B.StackPush(B.LInteger(1))), B.Print)
    ensures g5 == Emit(Emit(ElseStart(g1, g2), B.StackPush(B.LInteger(2))), B.Return(true))
    ensures Expression(g, classes, Bool(true)) == Ok(g1)
    ensures Statements(Emit(g1, B.Halt(NO_JUMP_TO_ELSE)), classes, [Print(Integer(1))]) == Ok(g2)
    ensures ElseCode(ElseStart(g1, g2), classes, Else([Return(Integer(2))])) == Ok(g5)
  {
    g1 := Emit(g, B.StackPush(B.LBool(true)));
    LiteralShape(g, classes, Bool(true));
    var h := Emit(g1, B.Halt(NO_JUMP_TO_ELSE));
    g2 := Emit(Emit(h, B.StackPush(B.LInteger(1))), B.Print);
    PrintLiteral(h, classes, Integer(1));
    g5 := Emit(Emit(ElseStart(g1, g2), B.StackPush(B.LInteger(2))), B.Return(true));
    ReturnLiteral(ElseStart(g1, g2), classes, Integer(2));
  }

  lemma IfElseExampleCode(g: Gen, g1: Gen, g2: Gen, g5: Gen)
    requires g.code == []
    requires g1 == Emit(g, B.StackPush(B.LBool(true)))
    requires g2 == Emit(Emit(Emit(g1, B.Halt(NO_JUMP_TO_ELSE)), B.StackPush(B.LInteger(1))), B.Print)
    requires g5 == Emit(Emit(ElseStart(g1, g2), B.StackPush(B.LInteger(2))), B.Return(true))
    ensures Patch(g5, |g2.code|, B.JumpForward(|g5.code| - |g2.code|)).code ==
      [B.StackPush(B.LBool(true)), B.JumpIfFalse(4), B.StackPush(B.LInteger(1)), B.Print,
       B.JumpForward(3), B.StackPush(B.LInteger(2)), B.Return(true)]
  {
    assert ElseStart(g1, g2).code ==
      [B.StackPush(B.LBool(true)), B.JumpIfFalse(4), B.StackPush(B.LInteger(1)), B.Print, B.Halt(NO_JUMP_TO_END)];
  }

  lemma SingleStatement(g: Gen, classes: map<string, nat>, t: Token, g1: Gen)
    requires Statement(g, classes, t) == Ok(g1)
    ensures Statements(g, classes, [t]) == Ok(g1)
  {
    StatementsCons(g, classes, [t], g1);
  }

  /** When the statements end in a `Return` instruction, the code as written is that code. */
  lemma AsWrittenKeeps(params: seq<Token>, body: seq<Token>, classes: map<string, nat>, g: Gen)
    requires body != []
    requires Statements(Gen([], Prologue(params)), classes, body) == Ok(g)
    requires |g.code| > 0 && g.code[|g.code| - 1].Return?
    ensures CompileAsWritten(params, body, classes) == Ok(g.code)
  {
  }

  /** `print` of a literal: the push, then `Print`. */
  lemma PrintLiteral(g: Gen, classes: map<string, nat>, t: Token)
    requires IsLiteral(t)
    ensures Statements(g, classes, [Print(t)]) == Ok(Emit(Emit(g, B.StackPush(LiteralOf(t))), B.Print))
  {
    LiteralShape(g, classes, t);
    StatementsCons(g, classes, [Print(t)], Emit(Emit(g, B.StackPush(LiteralOf(t))), B.Print));
  }

  /** An else part that returns a literal: the push, then `Return(true)`. */
  lemma ReturnLiteral(g: Gen, classes: map<string, nat>, t: Token)
    requires IsLiteral(t)
    ensures ElseCode(g, classes, Else([Return(t)])) == Ok(Emit(Emit(g, B.StackPush(LiteralOf(t))), B.Return(true)))
  {
    LiteralShape(g, classes, t);
    StatementsCons(g, classes, [Return(t)], Emit(Emit(g, B.StackPush(LiteralOf(t))), B.Return(true)));
  }

  /** `compile_ifelse` from its pieces. */
  lemma IfElseSteps(g: Gen, classes: map<string, nat>, t: Token, g1: Gen, g2: Gen, g5: Gen)
    requires t.IfElse?
    requires Expression(g, classes, t.condition) == Ok(g1)
    requires Statements(Emit(g1, B.Halt(NO_JUMP_TO_ELSE)), classes, t.thenBody) == Ok(g2)
    requires ElseCode(ElseStart(g1, g2), classes, t.elseBranch) == Ok(g5)
    ensures Statement(g, classes, t) == Ok(Patch(g5, |g2.code|, B.JumpForward(|g5.code| - |g2.code|)))
  {
    IfElseCompose(g, classes, t, g1, g2, g5);
    IfElseStatement(g, classes, t);
  }

  lemma IfElseStatement(g: Gen, classes: map<string, nat>, t: Token)
    requires t.IfElse?
    ensures Statement(g, classes, t) == IfElseCode(g, classes, t)
  {
  }

  lemma IfElseCompose(g: Gen, classes: map<string, nat>, t: Token, g1: Gen, g2: Gen, g5: Gen)
    requires t.IfElse?
    requires Expression(g, classes, t.condition) == Ok(g1)
    requires Statements(Emit(g1, B.Halt(NO_JUMP_TO_ELSE)), classes, t.thenBody) == Ok(g2)
    requires ElseCode(ElseStart(g1, g2), classes, t.elseBranch) == Ok(g5)
    ensures IfElseCode(g, classes, t) == Ok(Patch(g5, |g2.code|, B.JumpForward(|g5.code| - |g2.code|)))
  {
  }

  // ---------------------------------------------------------------------------
  // The shapes of the code

  /** A literal emits exactly one `StackPush` of its value. */
  lemma LiteralShape(g: Gen, classes: map<string, nat>, t: Token)
    requires IsLiteral(t)
    ensures Expression(g, classes, t) == Ok(Gen(g.code + [B.StackPush(LiteralOf(t))], g.vars))
  {
  }

  /** A binary operation emits its left operand, then its right operand, then
      the operator (`compile_expression` hands every operator token to
      `Operation`). */
  lemma OperationShape(g: Gen, classes: map<string, nat>, t: Token) returns (g1: Gen, g2: Gen)
    requires IsOperation(t) && Operation(g, classes, t).Ok?
    ensures Expression(g, classes, t.lhs) == Ok(g1)
    ensures Expression(g1, classes, t.rhs) == Ok(g2)
    ensures Operation(g, classes, t).value == Gen(g2.code + [OperatorOf(t)], g2.vars)
    ensures |g.code| < |g1.code| < |g2.code|
  {
    g1 := Expression(g, classes, t.lhs).value;
    g2 := Expression(g1, classes, t.rhs).value;
  }

  /** `compile_call` on a name held in a variable: load that variable, the
      arguments, `Call` with their number. */
  lemma LocalCallShape(g: Gen, classes: map<string, nat>, t: Token) returns (g1: Gen)
    requires t.Call? && ToString(t.callee) in g.vars && CallCode(g, classes, t).Ok?
    ensures Expressions(Emit(g, B.LoadLocalVariable(g.vars[ToString(t.callee)])), classes, t.callArgs) == Ok(g1)
    ensures CallCode(g, classes, t).value == Gen(g1.code + [B.Call(|t.callArgs|)], g1.vars)
    ensures g1.code[|g.code|] == B.LoadLocalVariable(g.vars[ToString(t.callee)])
  {
    g1 := Expressions(Emit(g, B.LoadLocalVariable(g.vars[ToString(t.callee)])), classes, t.callArgs).value;
  }

  /** `compile_call` on any other name: a method of `this`, called with `this`
      as an extra first argument. */
  lemma MethodCallShape(g: Gen, classes: map<string, nat>, t: Token) returns (g1: Gen)
    requires t.Call? && ToString(t.callee) !in g.vars && CallCode(g, classes, t).Ok?
    ensures var name := ToString(t.callee);
      Expressions(Gen(g.code + [B.LoadLocalVariable(0), B.LoadObjectMember(name), B.LoadLocalVariable(0)], g.vars), classes, t.callArgs) == Ok(g1)
    ensures CallCode(g, classes, t).value == Gen(g1.code + [B.Call(|t.callArgs| + 1)], g1.vars)
    ensures g1.code[|g.code|..|g.code| + 3] == [B.LoadLocalVariable(0), B.LoadObjectMember(ToString(t.callee)), B.LoadLocalVariable(0)]
  {
    var name := ToString(t.callee);
    var h := Emit(Emit(Emit(g, B.LoadLocalVariable(0)), B.LoadObjectMember(name)), B.LoadLocalVariable(0));
    assert h == Gen(g.code + [B.LoadLocalVariable(0), B.LoadObjectMember(name), B.LoadLocalVariable(0)], g.vars);
    g1 := Expressions(h, classes, t.callArgs).value;
  }

  /** The layout of a loop that starts at `start`: the test fills [start,
      jump), the `JumpIfFalse` at `jump` lands just past the `JumpBackward`
      that ends the loop, and that lands on the first instruction of the test. */
  predicate LoopLayout(code: seq<B.Instruction>, start: nat, jump: nat) {
    start < jump < |code| - 1 &&
    code[jump] == B.JumpIfFalse(WrapI32(|code| - jump)) &&
    code[|code| - 1] == B.JumpBackward(|code| - 1 - start) &&
    NoJumps(code, start, jump) && Closed(code, jump + 1, |code| - 1)
  }

  /** Every loop has that layout. */
  lemma LoopShape(g: Gen, classes: map<string, nat>, t: Token) returns (jump: nat)
    requires (t.WhileLoop? || t.ForI?) && LoopCode(g, classes, t).Ok?
    ensures LoopLayout(LoopCode(g, classes, t).value.code, |g.code|, jump)
  {
    var g1, g2, g3 := LoopUnfold(g, classes, t);
    jump := |g1.code|;
    LoopPieces(g, classes, t, g1, g2, g3);
    LoopParts(g, g1, g3);
  }

  /** The test of a loop is straight code, and the body with the step is a block. */
  lemma LoopPieces(g: Gen, classes: map<string, nat>, t: Token, g1: Gen, g2: Gen, g3: Gen)
    requires t.WhileLoop? || t.ForI?
    requires Expression(g, classes, if t.WhileLoop? then t.whileCondition else t.test) == Ok(g1)
    requires Statements(Emit(g1, B.Halt(NO_JUMP_NOT_TRUE)), classes, if t.WhileLoop? then t.whileBody else t.forBody) == Ok(g2)
    requires if t.WhileLoop? then g3 == g2 else Statement(g2, classes, t.step) == Ok(g3)
    ensures Straight(g, g1) && Block(Emit(g1, B.Halt(NO_JUMP_NOT_TRUE)), g3)
  {
    var h := Emit(g1, B.Halt(NO_JUMP_NOT_TRUE));
    ExpressionStraight(g, classes, if t.WhileLoop? then t.whileCondition else t.test);
    StatementsBlock(h, classes, if t.WhileLoop? then t.whileBody else t.forBody);
    if t.ForI? {
      StatementBlock(g2, classes, t.step);
      BlockChain(h, g2, g3);
    }
  }

  lemma LoopParts(g: Gen, g1: Gen, g3: Gen)
    requires Straight(g, g1) && Block(Emit(g1, B.Halt(NO_JUMP_NOT_TRUE)), g3)
    requires |g.code| < |g1.code|
    ensures var g4 := Emit(g3, B.JumpBackward(|g3.code| - |g.code|));
      LoopLayout(Patch(g4, |g1.code|, B.JumpIfFalse(WrapI32(|g4.code| - |g1.code|))).code, |g.code|, |g1.code|)
  {
    var g4 := Emit(g3, B.JumpBackward(|g3.code| - |g.code|));
    var code := Patch(g4, |g1.code|, B.JumpIfFalse(WrapI32(|g4.code| - |g1.code|))).code;
    JumpsAgree(g3.code, code, |g1.code| + 1, |g3.code|, |g1.code| + 1, |g3.code|);
  }

  /** The layout of an `if` that starts at `start`: the condition fills
      [start, toElse), the `JumpIfFalse` at `toElse` lands on the first
      instruction of the else branch, right after the `JumpForward` at
      `toEnd`, and that lands one past the last instruction of the else
      branch. */
  predicate IfElseLayout(code: seq<B.Instruction>, start: nat, toElse: nat, toEnd: nat) {
    start < toElse < toEnd < |code| &&
    code[toElse] == B.JumpIfFalse(WrapI32(toEnd + 1 - toElse)) &&
    code[toEnd] == B.JumpForward(|code| - toEnd) &&
    NoJumps(code, start, toElse) && Closed(code, toElse + 1, toEnd) && Closed(code, toEnd + 1, |code|)
  }

  /** Every `if` has that layout. */
  lemma IfElseShape(g: Gen, classes: map<string, nat>, t: Token) returns (toElse: nat, toEnd: nat)
    requires t.IfElse? && IfElseCode(g, classes, t).Ok?
    ensures IfElseLayout(IfElseCode(g, classes, t).value.code, |g.code|, toElse, toEnd)
  {
    var g1, g2, g5 := IfElseUnfold(g, classes, t);
    toElse, toEnd := |g1.code|, |g2.code|;
    ExpressionStraight(g, classes, t.condition);
    StatementsBlock(Emit(g1, B.Halt(NO_JUMP_TO_ELSE)), classes, t.thenBody);
    ElseBlock(ElseStart(g1, g2), classes, t.elseBranch);
    IfElseParts(g, g1, g2, g5);
  }

  lemma IfElseParts(g: Gen, g1: Gen, g2: Gen, g5: Gen)
    requires Straight(g, g1) && Block(Emit(g1, B.Halt(NO_JUMP_TO_ELSE)), g2)
    requires |g.code| < |g1.code| < |g2.code| + 1
    requires Block(ElseStart(g1, g2), g5) && |g2.code| < |g5.code|
    ensures IfElseLayout(Patch(g5, |g2.code|, B.JumpForward(|g5.code| - |g2.code|)).code, |g.code|, |g1.code|, |g2.code|)
  {
    var toElse, toEnd := |g1.code|, |g2.code|;
    var code := Patch(g5, toEnd, B.JumpForward(|g5.code| - toEnd)).code;
    assert code[toElse] == ElseStart(g1, g2).code[toElse];
    JumpsAgree(g1.code, code, |g.code|, toElse, |g.code|, toElse);
    JumpsAgree(g2.code, code, toElse + 1, toEnd, toElse + 1, toEnd);
    JumpsAgree(g5.code, code, toEnd + 1, |code|, toEnd + 1, |code|);
  }

  // ---------------------------------------------------------------------------
  // The slots at the start of a function

  predicate DistinctNames(params: seq<Token>) {
    forall i, j :: 0 <= i < j < |params| ==> ToString(params[i]) != ToString(params[j])
  }

  /** `this` gets slot 0, the slots are dense, and parameters with distinct
      names (none of them `this`) get slots 1, 2, ... in order. */
  lemma PrologueSlots(params: seq<Token>)
    ensures SELF_NAME in Prologue(params) && Prologue(params)[SELF_NAME] == 0
    ensures Dense(Prologue(params))
    ensures DistinctNames(params) && (forall p :: p in params ==> ToString(p) != SELF_NAME) ==>
      forall i :: 0 <= i < |params| ==> Prologue(params)[ToString(params[i])] == i + 1
  {
    PrologueStart(params);
    if DistinctNames(params) && (forall p :: p in params ==> ToString(p) != SELF_NAME) {
      FreshNames(params);
      DeclareDistinct(map[SELF_NAME := 0], params);
    }
  }

  /** Declaring two lists of parameters one after the other is declaring
      their concatenation. */
  lemma {:induction false} DeclareSplit(vars: map<string, nat>, p: seq<Token>, q: seq<Token>)
    ensures DeclareParameters(vars, p + q) == DeclareParameters(DeclareParameters(vars, p), q)
    decreases |p|
  {
    if p == [] {
      assert p + q == q;
    } else {
      var name := ToString(p[0]);
      var vars' := if name in vars then vars else vars[name := |vars|];
      assert (p + q)[0] == p[0] && (p + q)[1..] == p[1..] + q;
      DeclareSplit(vars', p[1..], q);
    }
  }

  /** A name's slot is the one it got at its first occurrence: the number of
      slots taken before it. A later parameter with the same name keeps that
      slot. */
  lemma RepeatedNameKeepsFirstSlot(vars: map<string, nat>, params: seq<Token>, i: nat, j: nat)
    requires i <= j < |params|
    requires ToString(params[i]) == ToString(params[j]) && ToString(params[i]) !in vars
    requires forall k :: 0 <= k < i ==> ToString(params[k]) != ToString(params[i])
    ensures ToString(params[j]) in DeclareParameters(vars, params)
    ensures DeclareParameters(vars, params)[ToString(params[j])] == |DeclareParameters(vars, params[..i])|
  {
    var n := ToString(params[i]);
    assert params == params[..i] + params[i..];
    DeclareSplit(vars, params[..i], params[i..]);
    NotDeclared(vars, params[..i], n);
    FirstDeclared(DeclareParameters(vars, params[..i]), params[i..], n);
  }

  /** A name none of the parameters has stays undeclared. */
  lemma {:induction false} NotDeclared(vars: map<string, nat>, params: seq<Token>, n: string)
    requires n !in vars
    requires forall k :: 0 <= k < |params| ==> ToString(params[k]) != n
    ensures n !in DeclareParameters(vars, params)
    decreases |params|
  {
    if params != [] {
      var name := ToString(params[0]);
      var vars' := if name in vars then vars else vars[name := |vars|];
      forall k | 0 <= k < |params| - 1 ensures ToString(params[1..][k]) != n {
        assert params[1..][k] == params[k + 1];
      }
      NotDeclared(vars', params[1..], n);
    }
  }

  /** A new name at the front takes the next slot and keeps it. */
  lemma FirstDeclared(w: map<string, nat>, params: seq<Token>, n: string)
    requires params != [] && ToString(params[0]) == n && n !in w
    ensures n in DeclareParameters(w, params) && DeclareParameters(w, params)[n] == |w|
  {
    assert DeclareParameters(w, params) == DeclareParameters(w[n := |w|], params[1..]);
  }

  /** After `this`, the parameters are declared on top of its slot. */
  lemma PrologueStart(params: seq<Token>)
    ensures Prologue(params) == DeclareParameters(map[SELF_NAME := 0], params)
  {
    var all := [Identifier(SELF_NAME)] + params;
    assert all[1..] == params;
  }

  lemma FreshNames(params: seq<Token>)
    requires forall p :: p in params ==> ToString(p) != SELF_NAME
    ensures forall i :: 0 <= i < |params| ==> ToString(params[i]) !in map[SELF_NAME := 0]
  {
    forall i | 0 <= i < |params| ensures ToString(params[i]) != SELF_NAME {
      assert params[i] in params;
    }
  }

  /** Parameters with distinct new names get the next slots in order. */
  lemma {:induction false} DeclareDistinct(vars: map<string, nat>, params: seq<Token>)
    requires DistinctNames(params)
    requires forall i :: 0 <= i < |params| ==> ToString(params[i]) !in vars
    ensures forall i :: 0 <= i < |params| ==> DeclareParameters(vars, params)[ToString(params[i])] == |vars| + i
    decreases |params|
  {
    if params != [] {
      var name := ToString(params[0]);
      var vars' := vars[name := |vars|];
      assert |vars'| == |vars| + 1;
      var rest := params[1..];
      assert DistinctNames(rest) by {
        forall i, j | 0 <= i < j < |rest| ensures ToString(rest[i]) != ToString(rest[j]) {
          assert rest[i] == params[i + 1] && rest[j] == params[j + 1];
        }
      }
      forall i | 0 <= i < |rest| ensures ToString(rest[i]) !in vars' {
        assert rest[i] == params[i + 1];
      }
      DeclareDistinct(vars', rest);
      assert DeclareParameters(vars, params) == DeclareParameters(vars', rest);
      forall i | 0 <= i < |params|
        ensures DeclareParameters(vars, params)[ToString(params[i])] == |vars| + i
      {
        if i > 0 {
          assert params[i] == rest[i - 1];
        }
      }
    }
  }
}
