/** Small shared vocabulary: optional values, results, the Rust integer widths the
    source relies on, and decimal text for integers (Rust's `Display` and
    `str::parse::<i32>`). */
module Base {

  datatype Option<+T> = None | Some(value: T)

  /** A value or the reason there is none; `:-` passes the reason on. */
  datatype Result<+T, +E> = Ok(value: T) | Err(error: E) {
    predicate IsFailure() { Err? }

    function PropagateFailure<U>(): Result<U, E>
      requires Err?
    {
      Err(error)
    }

    function Extract(): T
      requires Ok?
    {
      value
    }
  }

  const I32_MIN: int := -0x8000_0000
  const I32_MAX: int := 0x7fff_ffff
  /** Number of values of `usize` on a 64-bit target. */
  const USIZE_MODULUS: int := 0x1_0000_0000_0000_0000

  predicate IsI32(n: int) { I32_MIN <= n <= I32_MAX }

  type i32 = n: int | I32_MIN <= n <= I32_MAX

  /** Rust's `n as i32` on a wider unsigned value: keep the low 32 bits, read as signed. */
  function WrapI32(n: nat): (r: i32)
    ensures (r - n) % 0x1_0000_0000 == 0
    ensures n <= I32_MAX ==> r == n
  {
    var low := n % 0x1_0000_0000;
    if low <= I32_MAX then low else low - 0x1_0000_0000
  }

  /** Rust's `i as usize` on an `i32`: negative values wrap around to the top of the range. */
  function UsizeOf(i: i32): (r: nat)
    ensures r < USIZE_MODULUS
    ensures i >= 0 ==> r == i
    ensures i < 0 ==> r == USIZE_MODULUS + i
  {
    i % USIZE_MODULUS
  }

  // ---------------------------------------------------------------------------
  // Decimal text

  predicate IsDigit(c: char) { '0' <= c <= '9' }

  function DigitChar(d: nat): (c: char)
    requires d < 10
    ensures IsDigit(c) && c as int - '0' as int == d
  {
    (('0' as int) + d) as char
  }

  /** The decimal digits of `n`, most significant first, without leading zeros. */
  function NatToString(n: nat): (s: string)
    ensures |s| > 0
    ensures forall i :: 0 <= i < |s| ==> IsDigit(s[i])
    decreases n
  {
    if n < 10 then [DigitChar(n)] else NatToString(n / 10) + [DigitChar(n % 10)]
  }

  /** Rust's `Display` for a signed integer: a minus sign for negative values. */
  function IntToString(n: int): (s: string)
    ensures |s| > 0
    ensures n >= 0 ==> s == NatToString(n)
    ensures n < 0 ==> s == "-" + NatToString(-n)
  {
    if n < 0 then "-" + NatToString(-n) else NatToString(n)
  }

  predicate AllDigits(s: string) { forall i :: 0 <= i < |s| ==> IsDigit(s[i]) }

  function DigitOf(c: char): nat
    requires IsDigit(c)
  {
    c as int - '0' as int
  }

  /** The value of a string of decimal digits, read most significant first. */
  function DigitsValue(s: string): nat
    requires AllDigits(s)
  {
    if s == [] then 0 else 10 * DigitsValue(s[..|s| - 1]) + DigitOf(s[|s| - 1])
  }

  /** Rust's `str::parse::<i32>`: an optional `+` or `-`, then at least one digit,
      and the value must fit in 32 bits. */
  function ParseI32(s: string): (r: Option<i32>)
    ensures s == [] || s == "+" || s == "-" ==> r.None?
    ensures |s| > 0 && !IsDigit(s[0]) && s[0] != '+' && s[0] != '-' ==> r.None?
    ensures (exists i :: 0 < i < |s| && !IsDigit(s[i])) ==> r.None?
    ensures |s| > 0 && AllDigits(s) ==>
      r == if IsI32(DigitsValue(s)) then Some(DigitsValue(s)) else None
    ensures |s| > 1 && s[0] == '+' && AllDigits(s[1..]) ==>
      r == if IsI32(DigitsValue(s[1..])) then Some(DigitsValue(s[1..])) else None
    ensures |s| > 1 && s[0] == '-' && AllDigits(s[1..]) ==>
      r == if IsI32(-(DigitsValue(s[1..]) as int)) then Some(-(DigitsValue(s[1..]) as int)) else None
  {
    if |s| == 0 then None
    else
      var negative := s[0] == '-';
      var digits := if s[0] == '+' || s[0] == '-' then s[1..] else s;
      if |digits| == 0 || !AllDigits(digits) then None
      else
        var magnitude: int := DigitsValue(digits);
        var n: int := if negative then -magnitude else magnitude;
        if IsI32(n) then Some(n) else None
  }

  lemma {:induction false} DigitsOfNat(n: nat)
    ensures AllDigits(NatToString(n)) && DigitsValue(NatToString(n)) == n
    decreases n
  {
    if n >= 10 {
      DigitsOfNat(n / 10);
      var s := NatToString(n);
      assert s[..|s| - 1] == NatToString(n / 10);
    }
  }

  /** Reading back the text `Display` prints for an `i32` gives the same number. */
  lemma ParseDisplayedI32(n: i32)
    ensures ParseI32(IntToString(n)) == Some(n)
  {
    var s := IntToString(n);
    if n < 0 {
      DigitsOfNat(-(n as int));
      assert s[1..] == NatToString(-(n as int));
    } else {
      DigitsOfNat(n);
      assert NatToString(n)[0] != '-' && NatToString(n)[0] != '+';
    }
  }
}
