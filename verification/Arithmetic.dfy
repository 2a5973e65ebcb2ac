/** What the operators on integers and floats of constant.rs compute. */
module Arithmetic {
  import opened Values

  /** The 64-bit integer that is congruent to the exact result. */
  predicate Wraps(r: int, exact: int) {
    -0x8000_0000_0000_0000 <= r < 0x8000_0000_0000_0000 && (exact - r) % 0x1_0000_0000_0000_0000 == 0
  }

  lemma WrapWraps(exact: int)
    ensures Wraps(Wrap(exact), exact)
  {
    var m := 0x1_0000_0000_0000_0000;
    var q := (exact + TWO_63) / m;
    assert exact - Wrap(exact) == q * m;
    MultipleDivides(q, m);
  }

  lemma MultipleDivides(q: int, m: int)
    requires m > 0
    ensures (q * m) % m == 0
  {
    ModUnique(0, -q, m);
  }

  lemma OneWrap(r: int, s: int, exact: int)
    requires Wraps(r, exact) && Wraps(s, exact)
    ensures r == s
  {
    var m := 0x1_0000_0000_0000_0000;
    var p, q := (exact - r) / m, (exact - s) / m;
    assert s - r == (p - q) * m;
    MultipleInRange(p - q, m);
  }

  lemma IntegerArithmetic(h: Host, a: int, b: int)
    ensures var r := Binary(h, Add, Integer(a), Integer(b)); r.Some? && r.value.Integer? && Wraps(r.value.i, a + b)
    ensures var r := Binary(h, Sub, Integer(a), Integer(b)); r.Some? && r.value.Integer? && Wraps(r.value.i, a - b)
    ensures var r := Binary(h, Mul, Integer(a), Integer(b)); r.Some? && r.value.Integer? && Wraps(r.value.i, a * b)
    ensures var r := Unary(h, Minus, Integer(a)); r.Some? && r.value.Integer? && Wraps(r.value.i, -a)
  {
    WrapWraps(a + b);
    WrapWraps(a - b);
    WrapWraps(a * b);
    WrapWraps(-a);
  }

  // Division of integers.

  /** The quotient of the manual, rounded towards minus infinity. */
  predicate IsFloor(q: int, a: int, b: int)
    requires b != 0
  {
    if b > 0 then q * b <= a < q * b + b else q * b + b < a <= q * b
  }

  /** The remainder of the manual: it has the sign of the divisor. */
  ghost predicate IsModulo(r: int, a: int, b: int)
    requires b != 0
  {
    (if b > 0 then 0 <= r < b else b < r <= 0) && exists q :: a == q * b + r
  }

  lemma TruncParts(a: int, b: int)
    requires b != 0
    ensures a == TruncDiv(a, b) * b + TruncRem(a, b)
    ensures if a >= 0 then 0 <= TruncRem(a, b) else TruncRem(a, b) <= 0
    ensures if b > 0 then -b < TruncRem(a, b) < b else b < TruncRem(a, b) < -b
  {
    if a >= 0 {
      assert a == (a / b) * b + a % b;
    } else {
      assert -a == ((-a) / b) * b + (-a) % b;
    }
  }

  /** `//` of integers is what section 3.4.1 of the Lua 5.4 Reference Manual says exactly when the division leaves nothing or
      the operands have the same sign. */
  lemma FloorDivision(h: Host, a: int, b: int)
    requires IsI64(a) && IsI64(b)
    ensures b == 0 ==> Binary(h, IDiv, Integer(a), Integer(b)) == None
    ensures b != 0 && !(a == MIN_I64 && b == -1) ==>
              var r := Binary(h, IDiv, Integer(a), Integer(b));
              r.Some? && r.value.Integer? && (IsFloor(r.value.i, a, b) <==> TruncRem(a, b) == 0 || (a >= 0 <==> b > 0))
  {
    if b != 0 && !(a == MIN_I64 && b == -1) {
      TruncParts(a, b);
      QuotientFits(a, b);
      WrapFits(TruncDiv(a, b));
    }
  }

  lemma QuotientFits(a: int, b: int)
    requires IsI64(a) && IsI64(b) && b != 0 && !(a == MIN_I64 && b == -1)
    ensures IsI64(TruncDiv(a, b))
  {
    var n := if a >= 0 then a else -a;
    assert -n <= n / b <= n by {
      Smaller(n, b);
    }
    if a == MIN_I64 && b != 1 {
      SmallerYet(n, b);
    }
  }

  lemma Product(p: int, c: int, k: int)
    requires p >= 0 && c >= k
    ensures p * c >= p * k
  {
    assert p * (c - k) >= 0;
  }

  lemma Smaller(n: int, b: int)
    requires n >= 0 && b != 0
    ensures -n <= n / b <= n
  {
    Quotient(n, b, 1);
  }

  lemma SmallerYet(n: int, b: int)
    requires n > 1 && b != 0 && b != 1 && b != -1
    ensures -n < n / b < n
  {
    Quotient(n, b, 2);
  }

  lemma Quotient(n: int, b: int, k: int)
    requires n >= 0 && k >= 1 && (b >= k || b <= -k)
    ensures k * Abs(n / b) <= n
  {
    if b > 0 {
      QuotientUp(n, b, k);
    } else {
      Opposite(n, -b);
      QuotientUp(n, -b, k);
    }
  }

  lemma QuotientUp(n: int, b: int, k: int)
    requires n >= 0 && b >= k >= 1
    ensures 0 <= n / b && k * (n / b) <= n
  {
    var q := n / b;
    Product(q, b, k);
    assert q * b + n % b == n;
    assert q * k == k * q;
  }

  lemma Opposite(n: int, b: int)
    requires n >= 0 && b > 0
    ensures n / -b == -(n / b)
  {
  }

  function Abs(n: int): int {
    if n >= 0 then n else -n
  }

  /** One step of at most the divisor's size brings a number into its range. */
  lemma InRange(s: int, b: int)
    requires b != 0 && (if b > 0 then 0 <= s < 2 * b else 2 * b < s < 0)
    ensures TruncRem(s, b) == if b > 0 then (if s < b then s else s - b) else (if s > b then s else s - b)
  {
    var n, m := if s >= 0 then s else -s, if b > 0 then b else -b;
    if n < m {
      ModUnique(n, 0, m);
    } else {
      ModUnique(n - m, -1, m);
    }
    assert n % b == n % m by {
      SameModulus(n, b);
    }
  }

  lemma SameModulus(n: nat, b: int)
    requires b != 0
    ensures n % b == n % (if b > 0 then b else -b)
  {
    if b < 0 {
      var r := n % b;
      assert n == (n / b) * b + r && 0 <= r < -b;
      ModUnique(r, n / b, -b);
    }
  }

  /** `%` of integers is what section 3.4.1 says exactly when adding the divisor to the truncated remainder does not
      overflow. */
  lemma Modulo(h: Host, a: int, b: int)
    requires IsI64(a) && IsI64(b)
    ensures b == 0 ==> Binary(h, Mod, Integer(a), Integer(b)) == None
    ensures b != 0 ==>
              var r := Binary(h, Mod, Integer(a), Integer(b));
              r.Some? && r.value.Integer? && (IsModulo(r.value.i, a, b) <==> IsI64(TruncRem(a, b) + b))
  {
    if b != 0 {
      TruncParts(a, b);
      var rem := TruncRem(a, b);
      if IsI64(rem + b) {
        ModuloFits(a, b, TruncDiv(a, b), rem);
      } else {
        ModuloOverflows(a, b, TruncDiv(a, b), rem);
      }
    }
  }

  lemma ModuloFits(a: int, b: int, q: int, rem: int)
    requires b != 0 && a == q * b + rem && IsI64(rem + b) && (if b > 0 then -b < rem < b else b < rem < -b)
    requires IsI64(a) && (a >= 0 ==> rem >= 0) && (a < 0 ==> rem <= 0)
    ensures IsModulo(TruncRem(Wrap(rem + b), b), a, b)
  {
    WrapFits(rem + b);
    InRange(rem + b, b);
    var r := TruncRem(rem + b, b);
    if r == rem {
      assert a == q * b + r;
    } else {
      assert a == (q - 1) * b + r;
    }
  }

  /** Two remainders less than the divisor's size apart are the same. */
  lemma SameRemainder(p: int, q: int, r: int, rem: int, b: int)
    requires b != 0 && p * b + r == q * b + rem && -Abs(b) < r - rem < Abs(b)
    ensures r == rem
  {
    var k := q - p;
    assert k * b == q * b - p * b;
    assert k * Abs(b) == if b > 0 then k * b else -(k * b);
    MultipleInRange(k, Abs(b));
  }

  lemma OverflowSign(b: int, rem: int)
    requires b != 0 && IsI64(b) && !IsI64(rem + b) && (if b > 0 then -b < rem < b else b < rem < -b)
    ensures if b > 0 then Wrap(rem + b) < 0 < rem else rem < 0 < Wrap(rem + b)
  {
    var m := 2 * TWO_63;
    ModUnique(rem + b + TWO_63 - (if b > 0 then m else -m), if b > 0 then -1 else 1, m);
  }

  lemma ModuloOverflows(a: int, b: int, q: int, rem: int)
    requires b != 0 && a == q * b + rem && IsI64(b) && !IsI64(rem + b) && (if b > 0 then -b < rem < b else b < rem < -b)
    ensures !IsModulo(TruncRem(Wrap(rem + b), b), a, b)
  {
    OverflowSign(b, rem);
    var s := Wrap(rem + b);
    TruncParts(s, b);
    hide Wrap, TruncRem, TruncDiv;
    if IsModulo(TruncRem(s, b), a, b) {
      var p :| a == p * b + TruncRem(s, b);
      SameRemainder(p, q, TruncRem(s, b), rem, b);
    }
  }

  /** `(math.maxinteger - 1) % math.maxinteger` is negative. */
  lemma ModuloOfGreatest(h: Host)
    ensures Binary(h, Mod, Integer(MAX_I64 - 1), Integer(MAX_I64)) == Some(Integer(-3))
  {
    ModUnique(MAX_I64 - 1, 0, MAX_I64);
    ModUnique(TWO_63 - 3, -1, 2 * TWO_63);
    ModUnique(3, 0, MAX_I64);
  }

  // Floats.

  /** Two floats, or numbers that become floats, meet their operator in the order they were written in; the floating-point
      operators do so with integers too. */
  lemma FloatArithmetic(h: Host, op: SimpleBinOp, x: Float, y: Float, a: int, b: int)
    requires op in {Add, Sub, Mul, Div, IDiv, Mod, Pow}
    ensures Binary(h, op, Number(x), Number(y)) == Some(Number(h.arith(op, x, y)))
    ensures Binary(h, op, Integer(a), Number(y)) == Some(Number(h.arith(op, h.fromInt(a), y)))
    ensures Binary(h, op, Number(x), Integer(b)) == Some(Number(h.arith(op, x, h.fromInt(b))))
    ensures op in {Div, Pow} ==> Binary(h, op, Integer(a), Integer(b)) == Some(Number(h.arith(op, h.fromInt(a), h.fromInt(b))))
    ensures Unary(h, Minus, Number(x)) == Some(Number(h.negate(x)))
  {
  }

  /** Comparisons of integers, and of an integer with a float. */
  lemma NumberComparisons(h: Host, a: int, b: int, x: Float, y: Float)
    ensures Less(h, Integer(a), Integer(b)) == Some(a < b) && LessOrEqual(h, Integer(a), Integer(b)) == Some(a <= b)
    ensures Less(h, Number(x), Number(y)) == Some(h.floatLess(x, y)) && LessOrEqual(h, Number(x), Number(y)) == Some(h.floatLessEq(x, y))
    ensures Less(h, Integer(a), Number(y)) == Some(h.floatLess(h.fromInt(a), y))
    ensures IsEqual(h, Integer(a), Integer(b)) <==> a == b
    ensures IsEqual(h, Integer(a), Number(y)) == IsEqual(h, Number(y), Integer(a)) == h.floatEq(h.fromInt(a), y)
  {
  }

  /** Only nil and false are false; other values than numbers are equal only to themselves. */
  lemma TruthAndEquality(h: Host, a: Value, b: Value)
    ensures Unary(h, Not, a) == Some(Boolean(a == Nil || a == Boolean(false)))
    ensures !ToBool(a) <==> Unary(h, Not, a) == Some(Boolean(true))
    ensures !(a.Integer? || a.Number?) || !(b.Integer? || b.Number?) ==> (Compare(h, Equal, a, b) == Some(true) <==> a == b)
    ensures Compare(h, NotEqual, a, b) == Some(false) <==> Compare(h, Equal, a, b) == Some(true)
  {
  }

  /** Bitwise operators take floats and strings that stand for integers, and fail for anything else. */
  lemma BitOperators(h: Host, op: SimpleBinOp, a: int, b: int, x: Float, v: Value)
    requires op in {BitAnd, BitOr, BitXor, ShiftLeft, ShiftRight}
    ensures Binary(h, op, Integer(a), Integer(b)) == Some(Integer(h.bits(op, a, b)))
    ensures Binary(h, op, Number(x), Integer(b)) == if h.toInt(x).None? then None else Some(Integer(h.bits(op, h.toInt(x).value, b)))
    ensures v == Nil || v.Boolean? || v.Object? ==>
              Binary(h, op, v, Integer(b)) == None == Binary(h, op, Integer(a), v) && Unary(h, BitNot, v) == None == Unary(h, Minus, v)
  {
  }

  // Numeric loops.

  /** A number as a float. */
  function AsFloat(h: Host, v: Value): Value {
    if v.Integer? then Number(h.fromInt(v.i)) else v
  }

  /** A loop with a float among its numbers is one of floats: it goes up to the limit, or down to it if the step is negative. */
  lemma FloatLoop(h: Host, index: Value, limit: Value, step: Value, x: Float, y: Float, s: Float)
    requires !(index.Integer? && limit.Integer? && step.Integer?)
    requires AsFloat(h, index) == Number(x) && AsFloat(h, limit) == Number(y) && AsFloat(h, step) == Number(s)
    ensures ForNext(h, index, limit, step) == Some(Number(h.arith(Add, x, s)))
    ensures PastEnd(h, index, limit, step) == if h.floatLess(s, h.fromInt(0)) then h.floatLess(x, y) else h.floatLess(y, x)
  {
  }
}
