/** `Compiler` of src/compiler/compiler.rs: the object that declares a
    script's classes and links its functions into one program. Its methods
    are proved to compute what the functions of `Linker` describe. */
module Compilers {
  import opened Base
  import opened Tokens
  import V = Values
  import B = Bytecode
  import CG = CodeGen
  import F = Functions
  import L = Linker

  /** A function object that has not been compiled yet, standing for `p`. */
  predicate Ready(f: F.Function, p: L.Pending)
    reads f
  {
    L.Pending(f.className, f.name, f.parameters, f.statements) == p && f.instructions == [] && f.variables == map[]
  }

  /** The queued objects stand for the queued functions, one each. */
  predicate Created(fs: seq<F.Function>, ps: seq<L.Pending>)
    reads fs
  {
    |fs| == |ps| && forall k :: 0 <= k < |fs| ==> Ready(fs[k], ps[k])
  }

  /** No object is queued twice. */
  predicate Distinct(fs: seq<F.Function>) {
    forall j, k :: 0 <= j < k < |fs| ==> fs[j] != fs[k]
  }

  class Compiler {
    /** Each class's value by name. */
    var globals: map<string, V.Value>
    /** Each class's index among the program's globals. */
    var globalLookup: map<string, nat>

    /** `Compiler::new`. */
    constructor ()
      ensures globals == map[] && globalLookup == map[]
    {
      globals := map[];
      globalLookup := map[];
    }

    /** `compile`, from the parsed script on: declare every class, then
        compile the queued functions in order and append their code. The
        program and the compiler's maps end up as `Linker` describes them. */
    method Compile(script: seq<Token>) returns (r: Result<B.Program, CG.CompileError>)
      requires globals == map[] && globalLookup == map[]
      modifies this
      ensures r == L.CompileScript(script)
      ensures globals == L.Declare(L.NOTHING_DECLARED, script).named
      ensures globalLookup == L.Declare(L.NOTHING_DECLARED, script).lookup
    {
      var p := B.Program([], map[], []);
      var functions: seq<F.Function> := [];
      ghost var pending: seq<L.Pending> := [];
      for i := 0 to |script|
        invariant L.Declare(L.NOTHING_DECLARED, script) == L.Declare(L.Declared(pending, p.globals, globalLookup, globals), script[i..])
        invariant Created(functions, pending) && Distinct(functions)
        invariant forall k :: 0 <= k < |functions| ==> fresh(functions[k])
        invariant p.instructions == [] && p.symbols == map[]
      {
        assert script[i..][0] == script[i] && script[i..][1..] == script[i + 1..];
        if script[i].Class? {
          functions, pending, p := DeclareClass(script[i].cname, script[i].items, functions, pending, p);
        }
      }
      assert script[|script|..] == [];
      r := LinkFunctions(functions, pending, p);
    }

    /** The loop over the queued functions: each is compiled with the class
        lookup, its full name mapped to the length of the code so far, and its
        code appended; the first failure ends the compilation. */
    method LinkFunctions(functions: seq<F.Function>, ghost pending: seq<L.Pending>, p: B.Program)
      returns (r: Result<B.Program, CG.CompileError>)
      requires Created(functions, pending) && Distinct(functions)
      modifies set k | 0 <= k < |functions| :: functions[k]
      ensures r == (var (code, symbols) :- L.Link(L.Generator(globalLookup), p.instructions, p.symbols, pending);
                    Ok(B.Program(code, symbols, p.globals)))
    {
      ghost var gen := L.Generator(globalLookup);
      var q := p;
      for k := 0 to |functions|
        invariant L.Link(gen, p.instructions, p.symbols, pending) == L.Link(gen, q.instructions, q.symbols, pending[k..])
        invariant forall j :: k <= j < |functions| ==> Ready(functions[j], pending[j])
        invariant q.globals == p.globals
      {
        assert pending[k..][0] == pending[k] && pending[k..][1..] == pending[k + 1..];
        var f := functions[k];
        var fname := f.GetFullName();
        var ins := f.Compile(globalLookup);
        if ins.Err? {
          return Err(ins.error);
        }
        q := q.(symbols := q.symbols[fname := |q.instructions|], instructions := q.instructions + ins.value);
      }
      assert pending[|functions|..] == [];
      r := Ok(q);
    }

    /** One class: gather its members, add the default constructor when it
        has none, append the class value to the globals and enter it in both
        maps. */
    method DeclareClass(className: string, items: seq<Token>, fs: seq<F.Function>, ghost ps: seq<L.Pending>, p: B.Program)
      returns (fs': seq<F.Function>, ghost ps': seq<L.Pending>, p': B.Program)
      requires Created(fs, ps) && Distinct(fs)
      modifies this
      ensures L.DeclareClass(L.Declared(ps, p.globals, old(globalLookup), old(globals)), className, items) ==
              L.Declared(ps', p'.globals, globalLookup, globals)
      ensures Created(fs', ps') && Distinct(fs')
      ensures forall k :: 0 <= k < |fs'| ==> fs'[k] in fs || fresh(fs'[k])
      ensures p'.instructions == p.instructions && p'.symbols == p.symbols
    {
      var entries, fields;
      entries, fields, fs', ps' := CollectMembers(className, items, fs, ps);
      if CG.CONSTRUCTOR_NAME !in entries {
        var defaultConstructor := new F.Function(className, CG.CONSTRUCTOR_NAME, [], fields);
        var fname := defaultConstructor.GetFullName();
        fs' := fs' + [defaultConstructor];
        ps' := ps' + [L.Pending(className, CG.CONSTRUCTOR_NAME, [], fields)];
        entries := entries[CG.CONSTRUCTOR_NAME := V.FunctionRef(fname)];
      }
      var v := V.Class(entries);
      // `Program::insert_global`: append, and answer the new value's index
      var index := |p.globals|;
      p' := p.(globals := p.globals + [v]);
      globalLookup := globalLookup[className := index];
      globals := globals[className := v];
    }

    /** The loop over a class's items: a function becomes a new function
        object, queued, and a reference to its full name in the class's map;
        a field declaration is kept and entered as `Null`. */
    method CollectMembers(className: string, items: seq<Token>, fs: seq<F.Function>, ghost ps: seq<L.Pending>)
      returns (entries: map<string, V.Value>, fields: seq<Token>, fs': seq<F.Function>, ghost ps': seq<L.Pending>)
      requires Created(fs, ps) && Distinct(fs)
      ensures L.AddItems(className, L.Members(map[], [], ps), items) == L.Members(entries, fields, ps')
      ensures Created(fs', ps') && Distinct(fs')
      ensures forall k :: 0 <= k < |fs'| ==> fs'[k] in fs || fresh(fs'[k])
    {
      entries, fields, fs', ps' := map[], [], fs, ps;
      for i := 0 to |items|
        invariant L.AddItems(className, L.Members(map[], [], ps), items) == L.AddItems(className, L.Members(entries, fields, ps'), items[i..])
        invariant Created(fs', ps') && Distinct(fs')
        invariant forall k :: 0 <= k < |fs'| ==> fs'[k] in fs || fresh(fs'[k])
      {
        assert items[i..][0] == items[i] && items[i..][1..] == items[i + 1..];
        match items[i]
        case Function(fname, params, body) =>
          var func := new F.Function(className, fname, params, body);
          entries := entries[fname := V.FunctionRef(func.GetFullName())];
          fs' := fs' + [func];
          ps' := ps' + [L.Pending(className, fname, params, body)];
        case Variable(target, _) =>
          fields := fields + [items[i]];
          entries := entries[ToString(target) := V.Null];
        case _ =>
      }
      assert items[|items|..] == [];
    }
  }
}
