/**
 Where Python's integers meet floats and decimal text: true division (Python Language Reference,
 section 6.7), and the length limitation of integer string conversion (Python Library Reference,
 built-in types).
 */
module Numbers {
  import opened Wrappers
  import opened Text

  const DIVISION_BY_ZERO := OtherError("ZeroDivisionError", "division by zero")

  const QUOTIENT_OVERFLOW := OtherError("OverflowError", "integer division result too large for a float")

  const CONVERSION_OVERFLOW := OtherError("OverflowError", "int too large to convert to float")

  /** The text, which names the limit and the number of digits, is shortened. */
  const TOO_MANY_DIGITS := ValueError("Exceeds the limit for integer string conversion")

  /**
   What the conversions depend on: the digit limit of int() and str(), where 0 stands for none, and the
   least magnitude that rounds to no float.
   */
  datatype Python = Python(digits: nat, range: nat)

  function Pow2(n: nat): nat { if n == 0 then 1 else 2 * Pow2(n - 1) }

  /** Binary64 floats: the range ends half way between the largest float, 2^1024 - 2^971, and 2^1024. */
  ghost predicate IsCPython(py: Python) {
    && (py.digits == 0 || 640 <= py.digits)
    && py.range == Pow2(1024) - Pow2(970)
  }

  lemma {:induction false} Pow2Grows(a: nat, b: nat)
    requires a < b
    ensures 1 <= Pow2(a) && 2 * Pow2(a) <= Pow2(b)
    decreases b
  {
    if a + 1 < b {
      Pow2Grows(a, b - 1);
    } else if a > 0 {
      Pow2Grows(a - 1, a);
    }
  }

  lemma {:induction false} RangeIsLarge(py: Python)
    requires IsCPython(py)
    ensures 1 < py.range
  {
    Pow2Grows(0, 970);
    Pow2Grows(970, 1024);
  }

  // ----- floats

  function Magnitude(n: int): nat { if n < 0 then -n else n }

  /** The quotient of two integers, if there is one, is no float; in particular if `b` is 0. */
  predicate Huge(py: Python, a: int, b: int) { Magnitude(a) >= py.range * Magnitude(b) }

  /** a / b on integers. */
  function Divide(py: Python, a: int, b: int): Result<real> {
    if b == 0 then Raises(DIVISION_BY_ZERO)
    else if Huge(py, a, b) then Raises(QUOTIENT_OVERFLOW)
    else Ok(a as real / b as real)
  }

  /** float(n) */
  function ToFloat(py: Python, n: int): Result<real> {
    if Huge(py, n, 1) then Raises(CONVERSION_OVERFLOW) else Ok(n as real)
  }

  // ----- digits

  /** The number of digits in a text. */
  function DigitCount(s: string): nat {
    if s == "" then 0 else DigitCount(s[..|s| - 1]) + if IsDigit(s[|s| - 1]) then 1 else 0
  }

  predicate Within(py: Python, digits: nat) { py.digits == 0 || digits <= py.digits }

  /** int(s), None where Python raises ValueError. */
  function ReadInt(py: Python, s: string): Option<int> { if Within(py, DigitCount(s)) then PyInt(s) else None }

  /** str(n) does not raise. */
  predicate Printable(py: Python, n: int) { Within(py, |NatStr(Magnitude(n))|) }

  lemma {:induction false} CountOfSum(a: string, b: string)
    ensures DigitCount(a + b) == DigitCount(a) + DigitCount(b)
  {
    if b == "" {
      assert a + b == a;
    } else {
      assert (a + b)[..|a + b| - 1] == a + b[..|b| - 1];
      CountOfSum(a, b[..|b| - 1]);
    }
  }

  lemma {:induction false} CountOfDigits(s: string)
    requires forall i | 0 <= i < |s| :: IsDigit(s[i])
    ensures DigitCount(s) == |s|
  {
    if s != "" {
      CountOfDigits(s[..|s| - 1]);
    }
  }

  lemma {:induction false} CountOfLStrip(s: string)
    ensures DigitCount(LStrip(s)) == DigitCount(s)
  {
    if s != "" && IsSpace(s[0]) {
      CountOfLStrip(s[1..]);
      assert s == [s[0]] + s[1..] && DigitCount([s[0]]) == 0;
      CountOfSum([s[0]], s[1..]);
    }
  }

  lemma {:induction false} CountOfRStrip(s: string)
    ensures DigitCount(RStrip(s)) == DigitCount(s)
  {
    if s != "" && IsSpace(s[|s| - 1]) {
      CountOfRStrip(s[..|s| - 1]);
    }
  }

  lemma {:induction false} CountOfRead(s: string, n: nat)
    requires PyNat(s) == Some(n)
    ensures |NatStr(n)| <= DigitCount(s)
    decreases |s|
  {
    if |s| > 1 {
      var front := if s[|s| - 2] == '_' then s[..|s| - 2] else s[..|s| - 1];
      CountOfRead(front, PyNat(front).value);
      CountOfFront(s);
      LengthOfNext(PyNat(front).value, DigitValue(s[|s| - 1]));
    }
  }

  lemma {:induction false} CountOfFront(s: string)
    requires |s| > 1 && IsDigit(s[|s| - 1])
    ensures DigitCount(s) == 1 + DigitCount(if s[|s| - 2] == '_' then s[..|s| - 2] else s[..|s| - 1])
  {
    assert s[..|s| - 1][..|s| - 2] == s[..|s| - 2];
  }

  lemma {:induction false} LengthOfNext(n: nat, digit: nat)
    requires digit < 10
    ensures |NatStr(10 * n + digit)| <= |NatStr(n)| + 1
  {
    assert (10 * n + digit) / 10 == n;
  }

  /** A number that int() has read can be printed: the limits of both conversions are one. */
  lemma {:induction false} ReadIsPrintable(py: Python, s: string, n: int)
    requires ReadInt(py, s) == Some(n)
    ensures Printable(py, n)
  {
    var t := Strip(s);
    CountOfLStrip(s);
    CountOfRStrip(LStrip(s));
    if t != "" && (t[0] == '-' || t[0] == '+') {
      assert t == [t[0]] + t[1..];
      CountOfSum([t[0]], t[1..]);
      CountOfRead(t[1..], PyNat(t[1..]).value);
    } else {
      CountOfRead(t, n);
    }
  }

  /** A printed number is read back exactly when it could be printed. */
  lemma {:induction false} PrintedReads(py: Python, n: int)
    ensures ReadInt(py, IntStr(n)) == if Printable(py, n) then Some(n) else None
  {
    var digits := NatStr(Magnitude(n));
    PyIntOfIntStr(n);
    CountOfDigits(digits);
    CountOfSum("-", digits);
    assert DigitCount("-") == 0;
  }

  function Pow10(n: nat): nat { if n == 0 then 1 else 10 * Pow10(n - 1) }

  lemma {:induction false} DigitsOfNat(n: nat, k: nat)
    ensures n < Pow10(k) && 0 < k ==> |NatStr(n)| <= k
    ensures Pow10(k) <= n ==> k < |NatStr(n)|
    decreases k
  {
    if k > 0 {
      DigitsOfNat(n / 10, k - 1);
    }
  }

  lemma {:induction false} EightBelowTen(k: nat)
    ensures Pow2(3 * k) <= Pow10(k)
  {
    if k > 0 {
      EightBelowTen(k - 1);
      assert Pow2(3 * k) == 2 * Pow2(3 * k - 1) == 4 * Pow2(3 * k - 2) == 8 * Pow2(3 * k - 3);
    }
  }

  /** No digit limit that CPython allows keeps integers within the range of its floats. */
  lemma {:induction false} RangeIsPrintable(py: Python)
    requires IsCPython(py)
    ensures Printable(py, py.range)
  {
    EightBelowTen(342);
    DigitsOfNat(py.range, 342);
  }

  // ----- the conversions, spelled out

  /** Division and conversion raise exactly from the range on, on either side of 0, and otherwise are exact. */
  lemma {:induction false} DivisionIs(py: Python, a: int, b: int)
    ensures b == 0 ==> Divide(py, a, b) == Raises(OtherError("ZeroDivisionError", "division by zero"))
    ensures b > 0 && -(py.range * b) < a < py.range * b ==> Divide(py, a, b) == Ok(a as real / b as real)
    ensures b < 0 && py.range * b < a < -(py.range * b) ==> Divide(py, a, b) == Ok(a as real / b as real)
    ensures b != 0 && (a >= py.range * Magnitude(b) || -a >= py.range * Magnitude(b)) ==>
              Divide(py, a, b)
              == Raises(OtherError("OverflowError", "integer division result too large for a float"))
    ensures a < py.range && -a < py.range ==> ToFloat(py, a) == Ok(a as real)
    ensures a >= py.range || -a >= py.range ==>
              ToFloat(py, a) == Raises(OtherError("OverflowError", "int too large to convert to float"))
    ensures Magnitude(a) == a || (a < 0 && Magnitude(a) == -a)
  {}

  /** A limit of 0 is none; otherwise it counts digits, the sign and underscores not included. */
  lemma {:induction false} LimitIs(py: Python, n: nat)
    ensures py.digits == 0 ==> ReadInt(py, NatStr(n)) == Some(n)
    ensures 0 < py.digits ==>
              ReadInt(py, NatStr(n)) == (if |NatStr(n)| <= py.digits then Some(n) else None)
              && (Printable(py, n) <==> |NatStr(n)| <= py.digits)
    ensures TOO_MANY_DIGITS.ValueError?
  {
    PrintedReads(py, n);
    assert IntStr(n) == NatStr(n);
  }
}
