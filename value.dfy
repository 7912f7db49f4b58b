/** The tinyscript value algebra (src/vm/value.rs).

    Arrays, dictionaries and objects are shared, mutable containers in the
    source (`Rc<RefCell<..>>`); here they are handles into an arena `Heap`, so
    two values holding the same handle are aliases and see each other's
    updates. A `Class` is a plain map copied by value. Floats are kept as the
    real numbers they denote; their arithmetic (f32 rounding) is not part of
    this model and reports `FloatNotModelled`. */
module Values {
  import opened Base

  type Handle = nat

  datatype Value =
    | Null
    | Integer(i: i32)
    | Float(f: real)
    | Bool(b: bool)
    | String(s: string)
    | Array(h: Handle)
    | Dictionary(h: Handle)
    | Class(members: map<string, Value>)
    | Object(h: Handle)
    | FunctionRef(name: string)

  /** What a handle refers to: an array's elements, or a dictionary's or object's entries. */
  datatype Cell = ArrayCell(elements: seq<Value>) | MapCell(entries: map<string, Value>)

  type Heap = seq<Cell>

  /** Why an operation on values cannot produce a value. In the source each of
      these is a panic (`unreachable!`, integer overflow, division by zero, or a
      `RefCell` borrow conflict). */
  datatype ValueError =
    | TypeMismatch
    | Overflow
    | DivideByZero
    | AlreadyBorrowed
    | DanglingHandle
    | FloatNotModelled

  datatype Ordering = Less | Same | Greater

  predicate IsArrayIn(heap: Heap, h: Handle) { h < |heap| && heap[h].ArrayCell? }

  predicate IsMapIn(heap: Heap, h: Handle) { h < |heap| && heap[h].MapCell? }

  predicate IsNumber(v: Value) { v.Integer? || v.Float? }

  // ---------------------------------------------------------------------------
  // Text

  function BoolText(b: bool): (s: string)
    ensures s == "true" || s == "false"
    ensures (s == "true") == b
  {
    if b then "true" else "false"
  }

  /** `Display`: the text `Print`, string concatenation and `to_string` produce.
      `None` where the source prints a float (f32 formatting) or the debug text
      of a dictionary, class or object. */
  function Display(v: Value): (r: Option<string>)
    ensures v.Null? ==> r == Some("null")
    ensures v.Array? ==> r == Some("Array")
    ensures v.String? ==> r == Some(v.s)
    ensures v.FunctionRef? ==> r == Some(v.name)
    ensures v.Bool? ==> r == Some(BoolText(v.b))
    ensures v.Integer? ==> r == Some(IntToString(v.i)) && ParseI32(r.value) == Some(v.i)
    ensures r.None? <==> (v.Float? || v.Dictionary? || v.Class? || v.Object?)
  {
    match v
    case Null => Some("null")
    case Integer(n) => ParseDisplayedI32(n); Some(IntToString(n))
    case Bool(b) => Some(BoolText(b))
    case String(s) => Some(s)
    case Array(_) => Some("Array")
    case FunctionRef(name) => Some(name)
    case _ => None
  }

  /** `Value::parse`: an `i32` if the text is one, else an `f32` (the float
      reader is a parameter), else `true`/`false`, else the text itself. */
  function Parse(param: string, floatParse: string -> Option<real>): (r: Value)
    ensures ParseI32(param).Some? ==> r == Integer(ParseI32(param).value)
    ensures ParseI32(param).None? && floatParse(param).Some? ==> r == Float(floatParse(param).value)
    ensures ParseI32(param).None? && floatParse(param).None? ==>
      r == (if param == "true" then Bool(true) else if param == "false" then Bool(false) else String(param))
    ensures r.Bool? ==> param == BoolText(r.b)
    ensures r.String? ==> r.s == param
    ensures r.Integer? || r.Float? || r.Bool? || r.String?
  {
    match ParseI32(param)
    case Some(n) => Integer(n)
    case None =>
      match floatParse(param)
      case Some(x) => Float(x)
      case None =>
        if param == "true" then Bool(true)
        else if param == "false" then Bool(false)
        else String(param)
  }

  // ---------------------------------------------------------------------------
  // Arithmetic

  /** The operand pairs that the match of `+` lists; every other pair reaches its
      `unreachable!` arm. */
  predicate AddListed(a: Value, b: Value)
  {
    || (a.Integer? && (b.Integer? || b.Float? || b.String?))
    || (a.Float? && (b.Integer? || b.Float?))
    || (a.String? && (b.String? || b.Bool? || b.Integer? || b.Float?))
    || (a.Array? && b.Array?)
    || (a.Bool? && b.Bool?)
  }

  /** `a + b`. Only `Array + Array` changes the heap: the right array's elements
      are appended to the left array's cell and the left handle is returned. */
  function Add(heap: Heap, a: Value, b: Value): (r: Result<(Value, Heap), ValueError>)
    ensures r.Ok? && !(a.Array? && b.Array?) ==> r.value.1 == heap
    ensures a.Integer? && b.Integer? ==>
      r == if IsI32(a.i + b.i) then Ok((Integer(a.i + b.i), heap)) else Err(Overflow)
    ensures a.Bool? && b.Bool? ==> r == Ok((Bool(a.b && b.b), heap))
    ensures r.Ok? && r.value.0.Array? ==> a.Array? && r.value.0 == a
    ensures r.Ok? && a.Array? && b.Array? ==>
      a.h != b.h && IsArrayIn(heap, a.h) && IsArrayIn(heap, b.h) &&
      r.value.1 == heap[a.h := ArrayCell(heap[a.h].elements + heap[b.h].elements)]
    ensures r == Err(TypeMismatch) <==> !AddListed(a, b)
  {
    if (a.Float? && IsNumber(b)) || (b.Float? && (a.Integer? || a.String?)) then Err(FloatNotModelled)
    else if a.Integer? && b.Integer? then
      if IsI32(a.i + b.i) then Ok((Integer(a.i + b.i), heap)) else Err(Overflow)
    else if a.Integer? && b.String? then Ok((String(IntToString(a.i) + b.s), heap))
    else if a.String? && b.String? then Ok((String(a.s + b.s), heap))
    else if a.String? && b.Bool? then Ok((String(a.s + BoolText(b.b)), heap))
    else if a.String? && b.Integer? then Ok((String(a.s + IntToString(b.i)), heap))
    else if a.Array? && b.Array? then
      // `v1.borrow_mut()` is live while `v2.borrow()` runs: the same cell cannot be both
      if a.h == b.h then Err(AlreadyBorrowed)
      else if !IsArrayIn(heap, a.h) || !IsArrayIn(heap, b.h) then Err(DanglingHandle)
      else Ok((a, heap[a.h := ArrayCell(heap[a.h].elements + heap[b.h].elements)]))
    else if a.Bool? && b.Bool? then Ok((Bool(a.b && b.b), heap))
    else Err(TypeMismatch)
  }

  /** The error for an arithmetic operator applied to two values other than a pair of integers. */
  function NumericMismatch(a: Value, b: Value): (e: ValueError)
    requires !(a.Integer? && b.Integer?)
    ensures e == FloatNotModelled <==> IsNumber(a) && IsNumber(b)
  {
    if IsNumber(a) && IsNumber(b) then FloatNotModelled else TypeMismatch
  }

  /** `a - b`, defined for numbers only. */
  function Sub(a: Value, b: Value): (r: Result<Value, ValueError>)
    ensures r.Ok? ==> a.Integer? && b.Integer? && r.value.Integer? && r.value.i == a.i - b.i
    ensures a.Integer? && b.Integer? ==> (r.Ok? <==> IsI32(a.i - b.i))
    ensures !(IsNumber(a) && IsNumber(b)) ==> r == Err(TypeMismatch)
  {
    if a.Integer? && b.Integer? then
      if IsI32(a.i - b.i) then Ok(Integer(a.i - b.i)) else Err(Overflow)
    else Err(NumericMismatch(a, b))
  }

  /** `a * b`, defined for numbers only. */
  function Mul(a: Value, b: Value): (r: Result<Value, ValueError>)
    ensures r.Ok? ==> a.Integer? && b.Integer? && r.value.Integer? && r.value.i == a.i * b.i
    ensures a.Integer? && b.Integer? ==> (r.Ok? <==> IsI32(a.i * b.i))
    ensures !(IsNumber(a) && IsNumber(b)) ==> r == Err(TypeMismatch)
  {
    if a.Integer? && b.Integer? then
      if IsI32(a.i * b.i) then Ok(Integer(a.i * b.i)) else Err(Overflow)
    else Err(NumericMismatch(a, b))
  }

  function Abs(x: int): nat { if x < 0 then -x else x }

  /** Rust's `/` on integers: the quotient rounded toward zero, so its magnitude
      is the quotient of the magnitudes and its sign the product of the signs. */
  function TruncDiv(x: int, y: int): (q: int)
    requires y != 0
    ensures Abs(q) == Abs(x) / Abs(y)
    ensures q == 0 || ((q > 0) <==> ((x > 0) == (y > 0)))
  {
    var m: int := Abs(x) / Abs(y);
    assert 0 <= m && (x != 0 || m == 0) by { QuotientOfMagnitudes(Abs(x), Abs(y)); }
    if (x < 0) == (y < 0) then m else -m
  }

  /** `a / b`, defined for numbers only; a zero divisor and `MIN / -1` panic in the source. */
  function Div(a: Value, b: Value): (r: Result<Value, ValueError>)
    ensures r.Ok? ==> a.Integer? && b.Integer? && b.i != 0 && r.value.Integer? && r.value.i == TruncDiv(a.i, b.i)
    ensures a.Integer? && b.Integer? && b.i == 0 ==> r == Err(DivideByZero)
    ensures a.Integer? && b.Integer? && b.i != 0 ==> (r.Ok? <==> !(a.i == I32_MIN && b.i == -1))
    ensures !(IsNumber(a) && IsNumber(b)) ==> r == Err(TypeMismatch)
  {
    if a.Integer? && b.Integer? then
      if b.i == 0 then Err(DivideByZero)
      else if !IsI32(TruncDiv(a.i, b.i)) then Err(Overflow)
      else Ok(Integer(TruncDiv(a.i, b.i)))
    else Err(NumericMismatch(a, b))
  }

  /** `!v`: swaps a boolean; every other value becomes `false`. */
  function Not(v: Value): (r: Value)
    ensures r.Bool?
    ensures r.b <==> v == Bool(false)
  {
    match v
    case Bool(true) => Bool(false)
    case Bool(false) => Bool(true)
    case _ => Bool(false)
  }

  /** `partial_cmp`: integers with integers and floats with floats; anything else panics. */
  function Compare(a: Value, b: Value): (r: Result<Ordering, ValueError>)
    ensures r.Ok? <==> (a.Integer? && b.Integer?) || (a.Float? && b.Float?)
    ensures r.Ok? && a.Integer? ==> (r.value == Less <==> a.i < b.i) && (r.value == Same <==> a.i == b.i)
    ensures r.Ok? && a.Float? ==> (r.value == Less <==> a.f < b.f) && (r.value == Same <==> a.f == b.f)
  {
    match (a, b)
    case (Integer(x), Integer(y)) => Ok(if x < y then Less else if x == y then Same else Greater)
    case (Float(x), Float(y)) => Ok(if x < y then Less else if x == y then Same else Greater)
    case _ => Err(TypeMismatch)
  }

  // ---------------------------------------------------------------------------
  // Equality

  /** Derived `PartialEq`: the same variant with equal contents; containers are
      compared by what their handles refer to, element by element in order for
      arrays and key by key for maps. The source recurses on the native stack,
      which a cyclic structure overflows; here each step into a container uses
      one unit of `depth`, and `None` means no answer within it (or a handle
      that refers to nothing of the right kind). */
  function Equal(heap: Heap, a: Value, b: Value, depth: nat): (r: Option<bool>)
    ensures !SameVariant(a, b) ==> r == Some(false)
    ensures IsScalar(a) ==> r == Some(a == b)
    decreases depth, 0, 0
  {
    if a.Array? && b.Array? then
      if depth == 0 || !IsArrayIn(heap, a.h) || !IsArrayIn(heap, b.h) then None
      else EqualSeq(heap, heap[a.h].elements, heap[b.h].elements, depth - 1)
    else if (a.Dictionary? && b.Dictionary?) || (a.Object? && b.Object?) then
      if depth == 0 || !IsMapIn(heap, a.h) || !IsMapIn(heap, b.h) then None
      else EqualMap(heap, heap[a.h].entries, heap[b.h].entries, depth - 1)
    else if a.Class? && b.Class? then
      if depth == 0 then None else EqualMap(heap, a.members, b.members, depth - 1)
    else Some(a == b)
  }

  predicate IsScalar(v: Value) { v.Null? || v.Integer? || v.Float? || v.Bool? || v.String? || v.FunctionRef? }

  predicate SameVariant(a: Value, b: Value) {
    a.Null? == b.Null? && a.Integer? == b.Integer? && a.Float? == b.Float? &&
    a.Bool? == b.Bool? && a.String? == b.String? && a.Array? == b.Array? &&
    a.Dictionary? == b.Dictionary? && a.Class? == b.Class? && a.Object? == b.Object? &&
    a.FunctionRef? == b.FunctionRef?
  }

  /** `Vec` equality: equal lengths, then the elements pairwise, stopping at the first difference. */
  function EqualSeq(heap: Heap, xs: seq<Value>, ys: seq<Value>, depth: nat): (r: Option<bool>)
    ensures |xs| != |ys| ==> r == Some(false)
    decreases depth, 1, |xs|
  {
    if |xs| != |ys| then Some(false)
    else if xs == [] then Some(true)
    else
      match Equal(heap, xs[0], ys[0], depth)
      case Some(true) => EqualSeq(heap, xs[1..], ys[1..], depth)
      case other => other
  }

  /** `HashMap` equality: the same keys, and equal values under every key. The
      source visits keys in hash order; here a key whose values differ decides
      `false` whatever the other keys do. */
  function EqualMap(heap: Heap, m1: map<string, Value>, m2: map<string, Value>, depth: nat): (r: Option<bool>)
    ensures m1.Keys != m2.Keys ==> r == Some(false)
    decreases depth, 1, 0
  {
    if m1.Keys != m2.Keys then Some(false)
    else if exists k | k in m1 :: Equal(heap, m1[k], m2[k], depth) == Some(false) then Some(false)
    else if exists k | k in m1 :: Equal(heap, m1[k], m2[k], depth).None? then None
    else Some(true)
  }

  /** Containers compare by what their handles refer to: arrays element by
      element, dictionaries and objects entry by entry, classes member by member. */
  lemma EqualComparesContents(heap: Heap, a: Value, b: Value, depth: nat)
    requires depth > 0
    ensures a.Array? && b.Array? && IsArrayIn(heap, a.h) && IsArrayIn(heap, b.h) ==>
      Equal(heap, a, b, depth) == EqualSeq(heap, heap[a.h].elements, heap[b.h].elements, depth - 1)
    ensures ((a.Dictionary? && b.Dictionary?) || (a.Object? && b.Object?)) && IsMapIn(heap, a.h) && IsMapIn(heap, b.h) ==>
      Equal(heap, a, b, depth) == EqualMap(heap, heap[a.h].entries, heap[b.h].entries, depth - 1)
    ensures a.Class? && b.Class? ==> Equal(heap, a, b, depth) == EqualMap(heap, a.members, b.members, depth - 1)
  {
  }

  /** Two maps are equal exactly when they have the same keys and equal values
      under every key; one key whose values differ makes them unequal. */
  lemma EqualMapByKeys(heap: Heap, m1: map<string, Value>, m2: map<string, Value>, depth: nat)
    ensures EqualMap(heap, m1, m2, depth) == Some(true) <==>
      m1.Keys == m2.Keys && forall k | k in m1 :: Equal(heap, m1[k], m2[k], depth) == Some(true)
    ensures m1.Keys == m2.Keys && (exists k | k in m1 :: Equal(heap, m1[k], m2[k], depth) == Some(false)) ==>
      EqualMap(heap, m1, m2, depth) == Some(false)
  {
    if EqualMap(heap, m1, m2, depth) == Some(true) {
      assert m1.Keys == m2.Keys;
      assert !exists k | k in m1 :: Equal(heap, m1[k], m2[k], depth) == Some(false);
      assert !exists k | k in m1 :: Equal(heap, m1[k], m2[k], depth).None?;
      forall k | k in m1 ensures Equal(heap, m1[k], m2[k], depth) == Some(true) {
        var e := Equal(heap, m1[k], m2[k], depth);
        assert e != Some(false) && e.Some?;
        assert e.value;
      }
    }
  }

  /** Two arrays are equal exactly when they have the same length and are
      equal element by element. */
  lemma {:induction false} EqualSeqAllTrue(heap: Heap, xs: seq<Value>, ys: seq<Value>, depth: nat)
    ensures EqualSeq(heap, xs, ys, depth) == Some(true) <==>
      |xs| == |ys| && forall i :: 0 <= i < |xs| ==> Equal(heap, xs[i], ys[i], depth) == Some(true)
    decreases |xs|
  {
    if |xs| == |ys| && xs != [] {
      EqualSeqAllTrue(heap, xs[1..], ys[1..], depth);
      if (forall i :: 0 <= i < |xs| ==> Equal(heap, xs[i], ys[i], depth) == Some(true)) {
        forall i | 0 <= i < |xs| - 1 ensures Equal(heap, xs[1..][i], ys[1..][i], depth) == Some(true) {
          assert xs[1..][i] == xs[i + 1] && ys[1..][i] == ys[i + 1];
        }
      }
      if EqualSeq(heap, xs, ys, depth) == Some(true) {
        forall i | 0 <= i < |xs| ensures Equal(heap, xs[i], ys[i], depth) == Some(true) {
          if i > 0 { assert xs[1..][i - 1] == xs[i] && ys[1..][i - 1] == ys[i]; }
        }
      }
    }
  }

  /** The first pair of elements that differs, after pairs that are equal,
      makes two arrays of the same length unequal. */
  lemma {:induction false} EqualSeqFirstFalse(heap: Heap, xs: seq<Value>, ys: seq<Value>, depth: nat, k: nat)
    requires |xs| == |ys| && k < |xs|
    requires forall i :: 0 <= i < k ==> Equal(heap, xs[i], ys[i], depth) == Some(true)
    requires Equal(heap, xs[k], ys[k], depth) == Some(false)
    ensures EqualSeq(heap, xs, ys, depth) == Some(false)
    decreases k
  {
    if k > 0 {
      forall i | 0 <= i < k - 1 ensures Equal(heap, xs[1..][i], ys[1..][i], depth) == Some(true) {
        assert xs[1..][i] == xs[i + 1] && ys[1..][i] == ys[i + 1];
      }
      assert Equal(heap, xs[0], ys[0], depth) == Some(true);
      EqualSeqFirstFalse(heap, xs[1..], ys[1..], depth, k - 1);
    }
  }

  /** Containers compare by what they hold, not by identity: two distinct
      arrays that both hold `[1]` are equal. */
  lemma EqualByContents()
    ensures var heap := [ArrayCell([Integer(1)]), ArrayCell([Integer(1)])];
      Array(0) != Array(1) && Equal(heap, Array(0), Array(1), 1) == Some(true)
  {
    var heap := [ArrayCell([Integer(1)]), ArrayCell([Integer(1)])];
    EqualSeqAllTrue(heap, [Integer(1)], [Integer(1)], 0);
  }

  // ---------------------------------------------------------------------------
  // Properties

  /** The unit tests' equality facts: an integer never equals a float, even of the same magnitude. */
  lemma IntegerIsNotFloat(heap: Heap, n: i32, depth: nat)
    ensures Equal(heap, Integer(n), Float(n as real), depth) == Some(false)
  {
  }

  /** Equality never says `false` of a value compared with itself. */
  lemma {:induction false} EqualReflexive(heap: Heap, a: Value, depth: nat)
    ensures Equal(heap, a, a, depth) != Some(false)
    decreases depth, 0, 0
  {
    match a
    case Array(h) =>
      if depth > 0 && IsArrayIn(heap, h) { EqualSeqReflexive(heap, heap[h].elements, depth - 1); }
    case Dictionary(h) =>
      if depth > 0 && IsMapIn(heap, h) { EqualMapReflexive(heap, heap[h].entries, depth - 1); }
    case Object(h) =>
      if depth > 0 && IsMapIn(heap, h) { EqualMapReflexive(heap, heap[h].entries, depth - 1); }
    case Class(m) =>
      if depth > 0 { EqualMapReflexive(heap, m, depth - 1); }
    case _ =>
  }

  lemma {:induction false} EqualSeqReflexive(heap: Heap, xs: seq<Value>, depth: nat)
    ensures EqualSeq(heap, xs, xs, depth) != Some(false)
    decreases depth, 1, |xs|
  {
    if xs != [] {
      EqualReflexive(heap, xs[0], depth);
      EqualSeqReflexive(heap, xs[1..], depth);
    }
  }

  lemma {:induction false} EqualMapReflexive(heap: Heap, m: map<string, Value>, depth: nat)
    ensures EqualMap(heap, m, m, depth) != Some(false)
    decreases depth, 1, 0
  {
    forall k | k in m ensures Equal(heap, m[k], m[k], depth) != Some(false) {
      EqualReflexive(heap, m[k], depth);
    }
  }

  /** Equality is symmetric: both orders give the same answer. */
  lemma {:induction false} EqualSymmetric(heap: Heap, a: Value, b: Value, depth: nat)
    ensures Equal(heap, a, b, depth) == Equal(heap, b, a, depth)
    decreases depth, 0, 0
  {
    if a.Array? && b.Array? {
      if depth > 0 && IsArrayIn(heap, a.h) && IsArrayIn(heap, b.h) {
        EqualSeqSymmetric(heap, heap[a.h].elements, heap[b.h].elements, depth - 1);
      }
    } else if (a.Dictionary? && b.Dictionary?) || (a.Object? && b.Object?) {
      if depth > 0 && IsMapIn(heap, a.h) && IsMapIn(heap, b.h) {
        EqualMapSymmetric(heap, heap[a.h].entries, heap[b.h].entries, depth - 1);
      }
    } else if a.Class? && b.Class? {
      if depth > 0 {
        EqualMapSymmetric(heap, a.members, b.members, depth - 1);
      }
    }
  }

  lemma {:induction false} EqualSeqSymmetric(heap: Heap, xs: seq<Value>, ys: seq<Value>, depth: nat)
    ensures EqualSeq(heap, xs, ys, depth) == EqualSeq(heap, ys, xs, depth)
    decreases depth, 1, |xs|
  {
    if |xs| == |ys| && xs != [] {
      EqualSymmetric(heap, xs[0], ys[0], depth);
      EqualSeqSymmetric(heap, xs[1..], ys[1..], depth);
    }
  }

  lemma {:induction false} EqualMapSymmetric(heap: Heap, m1: map<string, Value>, m2: map<string, Value>, depth: nat)
    ensures EqualMap(heap, m1, m2, depth) == EqualMap(heap, m2, m1, depth)
    decreases depth, 1, 0
  {
    if m1.Keys == m2.Keys {
      forall k | k in m1 ensures Equal(heap, m1[k], m2[k], depth) == Equal(heap, m2[k], m1[k], depth) {
        EqualSymmetric(heap, m1[k], m2[k], depth);
      }
    }
  }

  /** `Bool + Bool` is logical AND: `true` only for `true + true`. */
  lemma BoolAddIsAnd(heap: Heap, x: bool, y: bool)
    ensures Add(heap, Bool(x), Bool(y)) == Ok((Bool(x && y), heap))
    ensures Add(heap, Bool(x), Bool(y)) == Add(heap, Bool(y), Bool(x))
    ensures Add(heap, Bool(x), Bool(y)).value.0 == Bool(true) <==> x && y
  {
  }

  /** `String + v` appends the text `Display` gives `v`, for strings, integers and
      booleans; `Integer + String` puts the integer's text in front. */
  lemma StringAddAppendsDisplay(heap: Heap, s: string, v: Value)
    requires v.String? || v.Integer? || v.Bool?
    ensures Add(heap, String(s), v) == Ok((String(s + Display(v).value), heap))
    ensures v.Integer? ==> Add(heap, v, String(s)) == Ok((String(Display(v).value + s), heap))
  {
  }

  /** `!` is an involution on booleans, and maps every other value to `false`. */
  lemma NotTable(v: Value)
    ensures v.Bool? ==> Not(Not(v)) == v
    ensures !v.Bool? ==> Not(v) == Bool(false) && Not(Not(v)) == Bool(true)
  {
  }

  /** Subtraction undoes addition on integers whenever neither overflows. */
  lemma SubUndoesAdd(heap: Heap, x: i32, y: i32)
    requires IsI32(x + y)
    ensures Add(heap, Integer(x), Integer(y)).Ok?
    ensures Sub(Add(heap, Integer(x), Integer(y)).value.0, Integer(y)) == Ok(Integer(x))
  {
  }

  /** Division undoes multiplication by a non-zero integer whenever the product fits. */
  lemma DivUndoesMul(x: i32, y: i32)
    requires y != 0 && IsI32(x * y)
    ensures Mul(Integer(x), Integer(y)).Ok?
    ensures Div(Mul(Integer(x), Integer(y)).value, Integer(y)) == Ok(Integer(x))
  {
    var p := x * y;
    MulSign(x, y);
    CancelFactor(Abs(x), Abs(y));
    var q := TruncDiv(p, y);
    assert Abs(q) == Abs(x);
    assert q == x;
  }

  lemma MulSign(x: int, y: int)
    ensures Abs(x * y) == Abs(x) * Abs(y)
    ensures x * y > 0 <==> (x > 0 && y > 0) || (x < 0 && y < 0)
  {
    if x < 0 && y < 0 { assert x * y == (-x) * (-y); }
    else if x < 0 { assert x * y == -((-x) * y); }
    else if y < 0 { assert x * y == -(x * (-y)); }
  }

  lemma QuotientOfMagnitudes(a: nat, b: nat)
    requires b > 0
    ensures a / b >= 0 && (a == 0 ==> a / b == 0)
  {
  }

  lemma CancelFactor(a: nat, b: nat)
    requires b > 0
    ensures (a * b) / b == a
  {
    var d, r := (a * b) / b, (a * b) % b;
    assert a * b == d * b + r && 0 <= r < b;
    if d < a {
      MulMonotone(d + 1, a, b);
      assert false;
    } else if d > a {
      MulMonotone(a + 1, d, b);
      assert false;
    }
  }

  lemma MulMonotone(c: int, e: int, b: nat)
    requires c <= e
    ensures c * b + (e - c) * b == e * b && (e - c) * b >= 0
  {
  }

  /** `Array + Array` grows the left array in place: every value holding the left
      handle sees the appended elements, the right array and every other cell are
      unchanged. */
  lemma ArrayAddIsSeenByAliases(heap: Heap, h1: Handle, h2: Handle)
    requires IsArrayIn(heap, h1) && IsArrayIn(heap, h2) && h1 != h2
    ensures Add(heap, Array(h1), Array(h2)).Ok?
    ensures var (v, heap') := Add(heap, Array(h1), Array(h2)).value;
      v == Array(h1) && |heap'| == |heap| && IsArrayIn(heap', h1) &&
      heap'[h1].elements == heap[h1].elements + heap[h2].elements &&
      forall g :: 0 <= g < |heap| && g != h1 ==> heap'[g] == heap[g]
  {
  }

  /** Adding an array to itself panics: the source holds a mutable borrow of the
      cell while it reads the same cell. */
  lemma ArraySelfAddPanics(heap: Heap, h: Handle)
    ensures Add(heap, Array(h), Array(h)) == Err(AlreadyBorrowed)
  {
  }

  /** `parse` prefers an integer: text that reads as an `i32` is never a float,
      boolean or string, whatever the float reader says. */
  lemma ParsePrefersInteger(n: i32, floatParse: string -> Option<real>)
    ensures Parse(IntToString(n), floatParse) == Integer(n)
  {
    ParseDisplayedI32(n);
  }
}
