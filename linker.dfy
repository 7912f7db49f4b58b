/** `Compiler::compile` of src/compiler/compiler.rs from its parsed script
    on, as functions: the top-level classes are declared in order (each
    becomes a class value among the globals, with a method map and, when it
    has none, a default constructor), then every function is compiled and
    appended to the program's code, its full name recorded with the offset it
    starts at.

    Each loop of the source is a left fold here (`AddItems`, `Declare`,
    `Link`, walking the list from the front as the `for` loops do); the lemmas
    relate each fold to a direct description of its result. */
module Linker {
  import opened Base
  import opened Tokens
  import V = Values
  import B = Bytecode
  import CG = CodeGen
  import CGP = CodeGenProperties
  import F = Functions

  /** A function waiting to be compiled: what `Function::new` was given. */
  datatype Pending = Pending(className: string, name: string, params: seq<Token>, body: seq<Token>)

  function FullNameOf(p: Pending): string {
    F.FullName(p.className, p.name)
  }

  // ---------------------------------------------------------------------------
  // The members of one class

  /** What the loop over a class's items has gathered so far: the class's
      method map (`object` in the source), its field declarations (`class_fields`), and
      every function declared until now, of this class and of the earlier ones. */
  datatype Members = Members(entries: map<string, V.Value>, fields: seq<Token>, functions: seq<Pending>)

  /** One item: a function is entered under its name as a reference to its
      full name and queued; a field declaration is entered as `Null` and kept
      for the default constructor; anything else is ignored. */
  function AddItem(className: string, m: Members, item: Token): Members {
    match item
    case Function(fname, params, body) =>
      Members(m.entries[fname := V.FunctionRef(F.FullName(className, fname))], m.fields,
              m.functions + [Pending(className, fname, params, body)])
    case Variable(target, _) =>
      Members(m.entries[ToString(target) := V.Null], m.fields + [item], m.functions)
    case _ => m
  }

  function AddItems(className: string, m: Members, items: seq<Token>): Members
    decreases |items|
  {
    if items == [] then m else AddItems(className, AddItem(className, m, items[0]), items[1..])
  }

  /** The default constructor, added when the class has no member of that
      name: its body is the field declarations, in order. */
  function WithConstructor(className: string, m: Members): (r: Members)
    ensures CG.CONSTRUCTOR_NAME in r.entries
    ensures CG.CONSTRUCTOR_NAME in m.entries ==> r == m
    ensures CG.CONSTRUCTOR_NAME !in m.entries ==>
      r.entries == m.entries[CG.CONSTRUCTOR_NAME := V.FunctionRef(F.FullName(className, CG.CONSTRUCTOR_NAME))] &&
      r.fields == m.fields &&
      r.functions == m.functions + [Pending(className, CG.CONSTRUCTOR_NAME, [], m.fields)]
  {
    if CG.CONSTRUCTOR_NAME in m.entries then m
    else
      var fname := F.FullName(className, CG.CONSTRUCTOR_NAME);
      Members(m.entries[CG.CONSTRUCTOR_NAME := V.FunctionRef(fname)], m.fields,
              m.functions + [Pending(className, CG.CONSTRUCTOR_NAME, [], m.fields)])
  }

  /** A whole class, with `functions` declared before it. */
  function ClassMembers(className: string, items: seq<Token>, functions: seq<Pending>): Members {
    WithConstructor(className, AddItems(className, Members(map[], [], functions), items))
  }

  // The same, described item by item.

  predicate IsMember(item: Token) {
    item.Function? || item.Variable?
  }

  function MemberName(item: Token): string
    requires IsMember(item)
  {
    if item.Function? then item.fname else ToString(item.target)
  }

  function MemberValue(className: string, item: Token): V.Value
    requires IsMember(item)
  {
    if item.Function? then V.FunctionRef(F.FullName(className, item.fname)) else V.Null
  }

  /** The method map of the items: each member's entry, a later one with the
      same name replacing an earlier one. */
  function MembersOf(className: string, items: seq<Token>): map<string, V.Value>
    decreases |items|
  {
    if items == [] then map[]
    else if IsMember(items[0]) then map[MemberName(items[0]) := MemberValue(className, items[0])] + MembersOf(className, items[1..])
    else MembersOf(className, items[1..])
  }

  /** The field declarations among the items. */
  function Fields(items: seq<Token>): seq<Token>
    decreases |items|
  {
    if items == [] then [] else (if items[0].Variable? then [items[0]] else []) + Fields(items[1..])
  }

  /** The functions among the items. */
  function FunctionsOf(className: string, items: seq<Token>): seq<Pending>
    decreases |items|
  {
    if items == [] then []
    else
      var item := items[0];
      (if item.Function? then [Pending(className, item.fname, item.params, item.body)] else []) + FunctionsOf(className, items[1..])
  }

  lemma {:induction false} AddItemsIsMembersOf(className: string, m: Members, items: seq<Token>)
    ensures AddItems(className, m, items) ==
      Members(m.entries + MembersOf(className, items), m.fields + Fields(items), m.functions + FunctionsOf(className, items))
    decreases |items|
  {
    if items == [] {
      assert m.entries + map[] == m.entries;
    } else {
      AddItemsIsMembersOf(className, AddItem(className, m, items[0]), items[1..]);
      AddItemStep(className, m, items);
    }
  }

  /** The first item's contribution, then the rest's. */
  lemma AddItemStep(className: string, m: Members, items: seq<Token>)
    requires items != []
    ensures var m1 := AddItem(className, m, items[0]);
      m1.entries + MembersOf(className, items[1..]) == m.entries + MembersOf(className, items) &&
      m1.fields + Fields(items[1..]) == m.fields + Fields(items) &&
      m1.functions + FunctionsOf(className, items[1..]) == m.functions + FunctionsOf(className, items)
  {
    var item := items[0];
    var m1 := AddItem(className, m, item);
    if IsMember(item) {
      var one := map[MemberName(item) := MemberValue(className, item)];
      assert m1.entries == m.entries + one;
      UnionAssociative(m.entries, one, MembersOf(className, items[1..]));
    }
    var fieldOne := if item.Variable? then [item] else [];
    assert m1.fields == m.fields + fieldOne;
    AppendAssociative(m.fields, fieldOne, Fields(items[1..]));
    var functionOne := if item.Function? then [Pending(className, item.fname, item.params, item.body)] else [];
    assert m1.functions == m.functions + functionOne;
    AppendAssociative(m.functions, functionOne, FunctionsOf(className, items[1..]));
  }

  /** A name is in the method map exactly when some member has it. */
  lemma {:induction false} MembersOfKeys(className: string, items: seq<Token>, n: string)
    ensures n in MembersOf(className, items) <==> exists i :: 0 <= i < |items| && IsMember(items[i]) && MemberName(items[i]) == n
    decreases |items|
  {
    if items != [] {
      MembersOfKeys(className, items[1..], n);
      if exists i :: 0 <= i < |items| && IsMember(items[i]) && MemberName(items[i]) == n {
        var i :| 0 <= i < |items| && IsMember(items[i]) && MemberName(items[i]) == n;
        if i > 0 {
          assert items[1..][i - 1] == items[i];
        }
      }
      if exists i :: 0 <= i < |items| - 1 && IsMember(items[1..][i]) && MemberName(items[1..][i]) == n {
        var i :| 0 <= i < |items| - 1 && IsMember(items[1..][i]) && MemberName(items[1..][i]) == n;
        assert items[i + 1] == items[1..][i];
      }
    }
  }

  /** The last member of a name decides its entry. */
  lemma {:induction false} MemberEntry(className: string, items: seq<Token>, i: nat)
    requires i < |items| && IsMember(items[i])
    requires forall j :: i < j < |items| && IsMember(items[j]) ==> MemberName(items[j]) != MemberName(items[i])
    ensures MemberName(items[i]) in MembersOf(className, items)
    ensures MembersOf(className, items)[MemberName(items[i])] == MemberValue(className, items[i])
    decreases |items|
  {
    var n := MemberName(items[i]);
    var rest := items[1..];
    if i == 0 {
      forall j | 0 <= j < |rest| && IsMember(rest[j]) ensures MemberName(rest[j]) != n {
        assert rest[j] == items[j + 1];
      }
      MembersOfKeys(className, rest, n);
    } else {
      assert rest[i - 1] == items[i];
      forall j | i - 1 < j < |rest| && IsMember(rest[j]) ensures MemberName(rest[j]) != n {
        assert rest[j] == items[j + 1];
      }
      MemberEntry(className, rest, i - 1);
    }
  }

  /** A class with no member named `constructor` gets the default one as its
      last function, with the field declarations as its body; a class with
      one keeps exactly its own functions. Either way the map has an entry
      for every member and for `constructor`, and no other. */
  lemma ClassMembersShape(className: string, items: seq<Token>, functions: seq<Pending>)
    ensures var m := ClassMembers(className, items, functions);
      m.entries.Keys == MembersOf(className, items).Keys + {CG.CONSTRUCTOR_NAME} &&
      (forall n :: n in MembersOf(className, items) ==> m.entries[n] == MembersOf(className, items)[n])
    ensures var m := ClassMembers(className, items, functions);
      CG.CONSTRUCTOR_NAME in MembersOf(className, items) ==>
        m.functions == functions + FunctionsOf(className, items)
    ensures var m := ClassMembers(className, items, functions);
      CG.CONSTRUCTOR_NAME !in MembersOf(className, items) ==>
        m.functions == functions + FunctionsOf(className, items) + [Pending(className, CG.CONSTRUCTOR_NAME, [], Fields(items))] &&
        m.entries[CG.CONSTRUCTOR_NAME] == V.FunctionRef(F.FullName(className, CG.CONSTRUCTOR_NAME))
  {
    AddItemsIsMembersOf(className, Members(map[], [], functions), items);
    assert map[] + MembersOf(className, items) == MembersOf(className, items);
    assert [] + Fields(items) == Fields(items);
  }

  /** In the class's map, a function is a reference to its full name and a
      field is `Null`, the last member of a name winning. */
  lemma ClassEntry(className: string, items: seq<Token>, functions: seq<Pending>, i: nat)
    requires i < |items| && IsMember(items[i])
    requires forall j :: i < j < |items| && IsMember(items[j]) ==> MemberName(items[j]) != MemberName(items[i])
    ensures var entries := ClassMembers(className, items, functions).entries;
      MemberName(items[i]) in entries &&
      entries[MemberName(items[i])] == if items[i].Function? then V.FunctionRef(F.FullName(className, items[i].fname)) else V.Null
  {
    MemberEntry(className, items, i);
    ClassMembersShape(className, items, functions);
  }

  // ---------------------------------------------------------------------------
  // The globals

  /** What the loop over the script's top-level tokens has built so far: the
      queued functions, the program's globals, `global_lookup` (the index of
      each class among the globals) and the compiler's `globals` (each class's
      value by name). */
  datatype Declared = Declared(functions: seq<Pending>, globals: seq<V.Value>, lookup: map<string, nat>, named: map<string, V.Value>)

  /** One class: its value is appended to the globals (`insert_global`) and
      entered under its name in both maps. */
  function DeclareClass(d: Declared, className: string, items: seq<Token>): Declared {
    var m := ClassMembers(className, items, d.functions);
    var v := V.Class(m.entries);
    Declared(m.functions, d.globals + [v], d.lookup[className := |d.globals|], d.named[className := v])
  }

  /** Every top-level class in order; every other token is passed over. */
  function Declare(d: Declared, script: seq<Token>): Declared
    decreases |script|
  {
    if script == [] then d
    else if script[0].Class? then Declare(DeclareClass(d, script[0].cname, script[0].items), script[1..])
    else Declare(d, script[1..])
  }

  /** The tables agree: the index of a class in the lookup is in range and
      holds the value the compiler keeps under that name, the two maps have
      the same names, and every global is a class with a `constructor`. */
  predicate Consistent(d: Declared) {
    (forall c :: c in d.lookup ==> d.lookup[c] < |d.globals| && c in d.named && d.globals[d.lookup[c]] == d.named[c]) &&
    (forall c :: c in d.named ==> c in d.lookup) &&
    (forall i :: 0 <= i < |d.globals| ==> d.globals[i].Class? && CG.CONSTRUCTOR_NAME in d.globals[i].members)
  }

  lemma DeclareClassConsistent(d: Declared, className: string, items: seq<Token>)
    requires Consistent(d)
    ensures Consistent(DeclareClass(d, className, items))
    ensures |DeclareClass(d, className, items).globals| == |d.globals| + 1
  {
    var d' := DeclareClass(d, className, items);
    forall c | c in d'.lookup
      ensures d'.lookup[c] < |d'.globals| && c in d'.named && d'.globals[d'.lookup[c]] == d'.named[c]
    {
      if c != className {
        assert d'.globals[d.lookup[c]] == d.globals[d.lookup[c]];
      }
    }
  }

  lemma {:induction false} DeclareConsistent(d: Declared, script: seq<Token>)
    requires Consistent(d)
    ensures Consistent(Declare(d, script))
    decreases |script|
  {
    if script != [] {
      if script[0].Class? {
        DeclareClassConsistent(d, script[0].cname, script[0].items);
        DeclareConsistent(DeclareClass(d, script[0].cname, script[0].items), script[1..]);
      } else {
        DeclareConsistent(d, script[1..]);
      }
    }
  }

  /** The top-level classes of a script. */
  function Classes(script: seq<Token>): (r: seq<Token>)
    ensures forall i :: 0 <= i < |r| ==> r[i].Class?
    decreases |script|
  {
    if script == [] then [] else (if script[0].Class? then [script[0]] else []) + Classes(script[1..])
  }

  /** Only the classes matter. */
  lemma {:induction false} DeclareClassesOnly(d: Declared, script: seq<Token>)
    ensures Declare(d, script) == Declare(d, Classes(script))
    decreases |script|
  {
    if script != [] {
      var rest := Classes(script[1..]);
      if script[0].Class? {
        assert Classes(script) == [script[0]] + rest;
        assert ([script[0]] + rest)[1..] == rest;
        DeclareClassesOnly(DeclareClass(d, script[0].cname, script[0].items), script[1..]);
      } else {
        assert Classes(script) == rest;
        DeclareClassesOnly(d, script[1..]);
      }
    }
  }

  // ---------------------------------------------------------------------------
  // Linking

  /** The code generator applied to one function; the whole compilation
      uses `CG.Compile` with the final lookup (see `Generator`). */
  type Generate = Pending -> Result<seq<B.Instruction>, CG.CompileError>

  /** Each function in turn: its code is generated, its full name is mapped
      to the length of the code so far, and its code is appended. A function
      that fails to compile ends the compilation. */
  function Link(gen: Generate, code: seq<B.Instruction>, symbols: map<string, nat>, fs: seq<Pending>)
    : Result<(seq<B.Instruction>, map<string, nat>), CG.CompileError>
    decreases |fs|
  {
    if fs == [] then Ok((code, symbols))
    else
      var ins :- gen(fs[0]);
      Link(gen, code + ins, symbols[FullNameOf(fs[0]) := |code|], fs[1..])
  }

  /** The code of each function on its own, or the first error. */
  function Outputs(gen: Generate, fs: seq<Pending>): (r: Result<seq<seq<B.Instruction>>, CG.CompileError>)
    ensures r.Ok? ==> |r.value| == |fs|
    decreases |fs|
  {
    if fs == [] then Ok([])
    else
      var ins :- gen(fs[0]);
      var rest :- Outputs(gen, fs[1..]);
      Ok([ins] + rest)
  }

  function Flatten(outs: seq<seq<B.Instruction>>): seq<B.Instruction>
    decreases |outs|
  {
    if outs == [] then [] else outs[0] + Flatten(outs[1..])
  }

  /** Where each function starts: the first at `base`, each next one after the previous one's code. */
  function SymbolsOf(fs: seq<Pending>, outs: seq<seq<B.Instruction>>, base: nat): map<string, nat>
    requires |outs| == |fs|
    decreases |fs|
  {
    if fs == [] then map[]
    else map[FullNameOf(fs[0]) := base] + SymbolsOf(fs[1..], outs[1..], base + |outs[0]|)
  }

  /** Linking fails exactly when some function fails, with the first error;
      otherwise the code is every function's code back to back and each
      full name is mapped to where its function starts. */
  lemma {:induction false} LinkIsConcatenation(gen: Generate, code: seq<B.Instruction>, symbols: map<string, nat>, fs: seq<Pending>)
    ensures Link(gen, code, symbols, fs) ==
      match Outputs(gen, fs)
      case Err(e) => Err(e)
      case Ok(outs) => Ok((code + Flatten(outs), symbols + SymbolsOf(fs, outs, |code|)))
    decreases |fs|
  {
    if fs == [] {
      assert code + [] == code;
      assert symbols + map[] == symbols;
    } else {
      match gen(fs[0])
      case Err(_) =>
      case Ok(ins) =>
        LinkIsConcatenation(gen, code + ins, symbols[FullNameOf(fs[0]) := |code|], fs[1..]);
        match Outputs(gen, fs[1..])
        case Err(_) =>
        case Ok(rest) =>
          LinkStep(code, ins, symbols, fs, rest);
    }
  }

  /** One function's code and symbol, taken before the rest. */
  lemma LinkStep(code: seq<B.Instruction>, ins: seq<B.Instruction>, symbols: map<string, nat>, fs: seq<Pending>, rest: seq<seq<B.Instruction>>)
    requires |fs| == |rest| + 1
    ensures (code + ins) + Flatten(rest) == code + Flatten([ins] + rest)
    ensures symbols[FullNameOf(fs[0]) := |code|] + SymbolsOf(fs[1..], rest, |code + ins|) == symbols + SymbolsOf(fs, [ins] + rest, |code|)
  {
    var outs := [ins] + rest;
    assert outs[0] == ins && outs[1..] == rest;
    assert Flatten(outs) == ins + Flatten(rest);
    AppendAssociative(code, ins, Flatten(rest));
    var one := map[FullNameOf(fs[0]) := |code|];
    var later := SymbolsOf(fs[1..], rest, |code + ins|);
    assert SymbolsOf(fs, outs, |code|) == one + later;
    UnionAssociative(symbols, one, later);
  }

  lemma AppendAssociative<T>(a: seq<T>, b: seq<T>, c: seq<T>)
    ensures (a + b) + c == a + (b + c)
  {
  }

  lemma UnionAssociative<K, W>(a: map<K, W>, b: map<K, W>, c: map<K, W>)
    ensures (a + b) + c == a + (b + c)
  {
  }

  /** Each output is its function's code on its own. */
  lemma {:induction false} OutputsGenerate(gen: Generate, fs: seq<Pending>, k: nat)
    requires Outputs(gen, fs).Ok? && k < |fs|
    ensures gen(fs[k]) == Ok(Outputs(gen, fs).value[k])
    decreases k
  {
    if k > 0 {
      OutputsGenerate(gen, fs[1..], k - 1);
      assert fs[1..][k - 1] == fs[k];
    }
  }

  lemma {:induction false} FlattenSplit(outs: seq<seq<B.Instruction>>, k: nat)
    requires k < |outs|
    ensures Flatten(outs) == Flatten(outs[..k]) + outs[k] + Flatten(outs[k + 1..])
    decreases k
  {
    if k == 0 {
      assert outs[..0] == [];
    } else {
      FlattenSplit(outs[1..], k - 1);
      assert outs[1..][..k - 1] == outs[1..k];
      assert outs[1..][k - 1] == outs[k];
      assert outs[1..][k..] == outs[k + 1..];
      assert Flatten(outs[..k]) == outs[0] + Flatten(outs[1..k]) by {
        assert outs[..k][0] == outs[0] && outs[..k][1..] == outs[1..k];
      }
    }
  }

  /** A function whose full name no later function shares starts where the
      code of the functions before it ends. */
  lemma {:induction false} SymbolEntry(fs: seq<Pending>, outs: seq<seq<B.Instruction>>, base: nat, k: nat)
    requires |outs| == |fs| && k < |fs|
    requires forall j :: k < j < |fs| ==> FullNameOf(fs[j]) != FullNameOf(fs[k])
    ensures FullNameOf(fs[k]) in SymbolsOf(fs, outs, base)
    ensures SymbolsOf(fs, outs, base)[FullNameOf(fs[k])] == base + |Flatten(outs[..k])|
    decreases k
  {
    if k == 0 {
      assert outs[..0] == [];
      forall j | 0 <= j < |fs| - 1 ensures FullNameOf(fs[1..][j]) != FullNameOf(fs[0]) {
        assert fs[1..][j] == fs[j + 1];
      }
      SymbolAbsent(fs[1..], outs[1..], base + |outs[0]|, FullNameOf(fs[0]));
    } else {
      forall j | k - 1 < j < |fs| - 1 ensures FullNameOf(fs[1..][j]) != FullNameOf(fs[1..][k - 1]) {
        assert fs[1..][j] == fs[j + 1];
      }
      SymbolEntry(fs[1..], outs[1..], base + |outs[0]|, k - 1);
      assert fs[1..][k - 1] == fs[k];
      assert outs[..k][0] == outs[0] && outs[..k][1..] == outs[1..][..k - 1];
    }
  }

  /** Only full names of the functions are entered. */
  lemma {:induction false} SymbolAbsent(fs: seq<Pending>, outs: seq<seq<B.Instruction>>, base: nat, n: string)
    requires |outs| == |fs|
    requires forall j :: 0 <= j < |fs| ==> FullNameOf(fs[j]) != n
    ensures n !in SymbolsOf(fs, outs, base)
    decreases |fs|
  {
    if fs != [] {
      forall j | 0 <= j < |fs| - 1 ensures FullNameOf(fs[1..][j]) != n {
        assert fs[1..][j] == fs[j + 1];
      }
      SymbolAbsent(fs[1..], outs[1..], base + |outs[0]|, n);
    }
  }

  // ---------------------------------------------------------------------------
  // The whole compilation

  /** The state before the first class: `Compiler::new` and `Program::new`
      start out empty. */
  const NOTHING_DECLARED: Declared := Declared([], [], map[], map[])

  /** The code generator with its end-of-function rule corrected (see
      `CG.Compile`), run with the lookup of every class; the whole
      compilation below uses this one. */
  function Generator(lookup: map<string, nat>): Generate {
    (p: Pending) => CG.Compile(p.params, p.body, lookup)
  }

  /** The code generator as src/compiler/function.rs writes it. */
  function GeneratorAsWritten(lookup: map<string, nat>): Generate {
    (p: Pending) => CG.CompileAsWritten(p.params, p.body, lookup)
  }

  /** A parsed script to a program, or the first error of the code generator. */
  function CompileScript(script: seq<Token>): Result<B.Program, CG.CompileError> {
    var d := Declare(NOTHING_DECLARED, script);
    var (code, symbols) :- Link(Generator(d.lookup), [], map[], d.functions);
    Ok(B.Program(code, symbols, d.globals))
  }

  /** The import statements (and every other top-level token that is not a
      class) leave the program as it is. */
  lemma ImportsIgnored(script: seq<Token>, file: string, k: nat)
    requires k <= |script|
    ensures CompileScript(script[..k] + [Import(file)] + script[k..]) == CompileScript(script)
  {
    var s := script[..k] + [Import(file)] + script[k..];
    ClassesInsert(script, Import(file), k);
    DeclareClassesOnly(NOTHING_DECLARED, s);
    DeclareClassesOnly(NOTHING_DECLARED, script);
  }

  lemma {:induction false} ClassesInsert(script: seq<Token>, t: Token, k: nat)
    requires k <= |script| && !t.Class?
    ensures Classes(script[..k] + [t] + script[k..]) == Classes(script)
    decreases k
  {
    var s := script[..k] + [t] + script[k..];
    if k == 0 {
      assert s == [t] + script;
      assert s[1..] == script;
    } else {
      ClassesInsert(script[1..], t, k - 1);
      assert s[0] == script[0];
      assert s[1..] == script[1..][..k - 1] + [t] + script[1..][k - 1..];
    }
  }

  /** The program of a script: the globals are consistent with the lookup
      the code was compiled against; each queued function's code sits in the
      program from the offset after the code of the functions before it,
      can be run (it ends in a `Return`, and every jump lands inside it), and
      is what its full name maps to unless a later function has the same
      full name. */
  lemma ProgramLayout(script: seq<Token>, k: nat)
    requires CompileScript(script).Ok?
    requires k < |Declare(NOTHING_DECLARED, script).functions|
    ensures var d := Declare(NOTHING_DECLARED, script);
      var p := CompileScript(script).value;
      var outs := Outputs(Generator(d.lookup), d.functions);
      Consistent(d) && p.globals == d.globals && outs.Ok? &&
      var start := |Flatten(outs.value[..k])|;
      start + |outs.value[k]| <= |p.instructions| &&
      p.instructions[start..start + |outs.value[k]|] == outs.value[k] &&
      CGP.WellFormed(outs.value[k]) &&
      ((forall j :: k < j < |d.functions| ==> FullNameOf(d.functions[j]) != FullNameOf(d.functions[k])) ==>
        FullNameOf(d.functions[k]) in p.symbols && p.symbols[FullNameOf(d.functions[k])] == start)
  {
    var d := Declare(NOTHING_DECLARED, script);
    DeclareConsistent(NOTHING_DECLARED, script);
    var gen := Generator(d.lookup);
    LinkIsConcatenation(gen, [], map[], d.functions);
    var outs := Outputs(gen, d.functions).value;
    FlattenSplit(outs, k);
    assert [] + Flatten(outs) == Flatten(outs);
    OutputsGenerate(gen, d.functions, k);
    CGP.CompileWellFormed(d.functions[k].params, d.functions[k].body, d.lookup);
    if forall j :: k < j < |d.functions| ==> FullNameOf(d.functions[j]) != FullNameOf(d.functions[k]) {
      SymbolEntry(d.functions, outs, 0, k);
    }
  }

  /** The as-written generator gives `f() { if true { print 1 } else { return 2 } }`
      seven instructions with `JumpForward(3)` at 4, so by
      `JumpPastEndEntersNextFunction` its then branch, once linked, jumps into
      the next function's code. */
  lemma AsWrittenExampleCode(lookup: map<string, nat>, p: Pending)
    requires p.params == [] && p.body == [CGP.RETURNING_ELSE]
    ensures var r := GeneratorAsWritten(lookup)(p);
      r.Ok? && |r.value| == 7 && r.value[4] == B.JumpForward(3)
  {
    CGP.AsWrittenRunsOffTheEnd(lookup);
  }

  /** A function whose code is 7 long with `JumpForward(3)` at 4, linked before
      a function with code: that jump lands on the next function's first
      instruction. */
  lemma JumpPastEndEntersNextFunction(gen: Generate, fs: seq<Pending>, k: nat)
    requires k + 1 < |fs| && Outputs(gen, fs).Ok?
    requires gen(fs[k]).Ok? && |gen(fs[k]).value| == 7 && gen(fs[k]).value[4] == B.JumpForward(3)
    requires gen(fs[k + 1]).Ok? ==> |gen(fs[k + 1]).value| > 0
    ensures var outs := Outputs(gen, fs).value;
      var start := |Flatten(outs[..k])|;
      var r := Link(gen, [], map[], fs);
      r.Ok? && start + 7 < |r.value.0| &&
      r.value.0[start + 4] == B.JumpForward(3) &&
      start + 4 + 3 == |Flatten(outs[..k + 1])| && |outs[k + 1]| > 0 &&
      r.value.0[start + 7] == outs[k + 1][0]
  {
    LinkIsConcatenation(gen, [], map[], fs);
    var outs := Outputs(gen, fs).value;
    assert [] + Flatten(outs) == Flatten(outs);
    OutputsGenerate(gen, fs, k);
    OutputsGenerate(gen, fs, k + 1);
    FlattenSplit(outs, k);
    FlattenSplit(outs, k + 1);
    FlattenSplit(outs[..k + 1], k);
    assert outs[..k + 1][..k] == outs[..k];
    assert outs[..k + 1][k + 1..] == [];
  }

  /** The code as written is never empty. */
  lemma AsWrittenNonEmpty(lookup: map<string, nat>, p: Pending)
    ensures var r := GeneratorAsWritten(lookup)(p); r.Ok? ==> |r.value| > 0
  {
  }
}
