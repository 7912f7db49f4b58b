/** The syntax tree the parser hands to the code generator (src/compiler/token.rs).

    A `Box<Token>` is a plain `Token`, a `Vec<Token>` a `seq<Token>`, an `f32`
    the real it denotes. Two shapes follow the code generator rather than the
    declaration, because src/compiler/function.rs uses them so: a `Variable` or
    `Assign` names its target with a token (an `Identifier`, or an
    `ArrayIndex`), and `ArrayIndex(name, index)` is the indexed target or read
    of src/compiler/function.rs:183 and :443. The optional `else` block is its
    own small datatype, `ElseBranch`, standing for `Option<Vec<Token>>`. */
module Tokens {
  import opened Base

  datatype Token =
    | Comment(comment: string)
    | Assert(asserted: Token)
    | Import(file: string)
    | Print(printed: Token)

    | Function(fname: string, params: seq<Token>, body: seq<Token>)
    | AnonFunction(anonParams: seq<Token>, anonBody: seq<Token>)
    | Class(cname: string, items: seq<Token>)
    | Chain(start: Token, links: seq<Token>)
    | Identifier(id: string)

    | Null
    | Integer(i: i32)
    | Float(f: real)
    | Bool(truth: bool)
    | String(s: string)
    | Variable(target: Token, value: Token)
    | Assign(left: Token, right: Token)
    | Array(elements: seq<Token>)
    | Object(className: Token, args: seq<Token>)

    | Dictionary(pairs: seq<Token>)
    | KeyValuePair(key: string, pairValue: Token)

    | Index(indexed: Token, keys: seq<Token>)
    | IndexAssign(indexTarget: Token, assignKeys: seq<Token>, assignValue: Token)
    | ArrayIndex(indexedName: Token, index: Token)

    | Eq(lhs: Token, rhs: Token)
    | Ne(lhs: Token, rhs: Token)
    | Lt(lhs: Token, rhs: Token)
    | Le(lhs: Token, rhs: Token)
    | Gt(lhs: Token, rhs: Token)
    | Ge(lhs: Token, rhs: Token)
    | Add(lhs: Token, rhs: Token)
    | Sub(lhs: Token, rhs: Token)
    | Mul(lhs: Token, rhs: Token)
    | Div(lhs: Token, rhs: Token)
    | Pow(lhs: Token, rhs: Token)

    | IfElse(condition: Token, thenBody: seq<Token>, elseBranch: ElseBranch)
    | WhileLoop(whileCondition: Token, whileBody: seq<Token>)
    | ForEach(item: Token, collection: Token, forEachBody: seq<Token>)
    | ForI(init: Token, test: Token, step: Token, forBody: seq<Token>)

    | Call(callee: Token, callArgs: seq<Token>)
    | Return(returned: Token)

  /** `Option<Vec<Token>>`: the statements of an `else`, if there is one. */
  datatype ElseBranch = NoElse | Else(statements: seq<Token>)

  /** `to_string`: the name of a function or an identifier; every other token
      has the empty name. */
  function ToString(t: Token): (s: string)
    ensures t.Function? ==> s == t.fname
    ensures t.Identifier? ==> s == t.id
    ensures !t.Function? && !t.Identifier? ==> s == ""
  {
    match t
    case Function(name, _, _) => name
    case Identifier(name) => name
    case _ => ""
  }

  /** The name of a function does not depend on its parameters or its body. */
  lemma FunctionNameIgnoresSignature(name: string, p1: seq<Token>, b1: seq<Token>, p2: seq<Token>, b2: seq<Token>)
    ensures ToString(Function(name, p1, b1)) == ToString(Function(name, p2, b2)) == name
  {
  }

  /** Only a function or an identifier can have a non-empty name. */
  lemma NamedTokens(t: Token)
    ensures ToString(t) != "" ==> (t.Function? && t.fname == ToString(t)) || (t.Identifier? && t.id == ToString(t))
  {
  }
}
