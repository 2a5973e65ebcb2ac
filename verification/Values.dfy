/** Lua values and the operators on them: `Constant` of piccolo/src/constant.rs, as shared by the
    compiler's constant folder and (through raw_ops.rs) by the virtual machine. */
module Values {

  datatype Option<+T> = None | Some(value: T)

  /** An IEEE double, kept abstract: only its identity (its bit pattern) is known here. */
  datatype Float = Float(bits: nat)

  datatype SimpleBinOp = Add | Sub | Mul | Mod | Pow | Div | IDiv | BitAnd | BitOr | BitXor | ShiftLeft | ShiftRight
  datatype ComparisonOp = NotEqual | Equal | LessThan | LessEqual | GreaterThan | GreaterEqual
  datatype ShortCircuitOp = And | Or
  datatype UnaryOp = Not | Minus | BitNot | Len

  /** `Object` stands for tables, functions, threads and user data without metatables. */
  datatype Value = Nil | Boolean(b: bool) | Integer(i: int) | Number(f: Float) | String(s: string) | Object(id: nat)

  /** The operations this model leaves to its host: floating point arithmetic, reading numbers from
      strings, and the 64-bit integer operations whose bits do not matter here. Every theorem holds
      for every `Host`. */
  datatype Host = Host(
    fromInt: int -> Float,
    toInt: Float -> Option<int>,
    readInt: string -> Option<int>,
    readFloat: string -> Option<Float>,
    arith: (SimpleBinOp, Float, Float) -> Float,
    negate: Float -> Float,
    bits: (SimpleBinOp, int, int) -> int,
    bitNot: int -> int,
    floatEq: (Float, Float) -> bool,
    floatLess: (Float, Float) -> bool,
    floatLessEq: (Float, Float) -> bool,
    isNaN: Float -> bool,
    stringLess: (string, string) -> bool,
    objectLength: nat -> Option<Value>)

  const TWO_63: int := 0x8000_0000_0000_0000
  const MIN_I64: int := -TWO_63
  const MAX_I64: int := TWO_63 - 1

  predicate IsI64(i: int) {
    MIN_I64 <= i <= MAX_I64
  }

  /** Two's complement wrap-around of 64-bit integer arithmetic. */
  function Wrap(i: int): int {
    (i + TWO_63) % (2 * TWO_63) - TWO_63
  }

  lemma WrapFits(i: int)
    ensures IsI64(Wrap(i))
    ensures IsI64(i) ==> Wrap(i) == i
  {
  }

  /** Subtracting and adding back the same step is the identity on 64-bit integers, wrapped or not. */
  lemma WrapSubAdd(i: int, step: int)
    requires IsI64(i)
    ensures Wrap(Wrap(i - step) + step) == i
  {
    var m := 2 * TWO_63;
    var q := (i - step + TWO_63) / m;
    assert Wrap(i - step) + step + TWO_63 == (i + TWO_63) - q * m;
    ModUnique(i + TWO_63, q, m);
  }

  lemma ModUnique(x: int, q: int, m: int)
    requires 0 <= x < m
    ensures (x - q * m) % m == x
  {
    var y := x - q * m;
    var k := y / m + q;
    assert x - y % m == k * m;
    MultipleInRange(k, m);
  }

  lemma MultipleInRange(k: int, m: int)
    requires m > 0
    ensures -m < k * m < m ==> k == 0
  {
    if k >= 1 {
      assert (k - 1) * m >= 0;
    } else if k <= -1 {
      assert (k + 1) * m <= 0;
    }
  }

  // Rust's truncating division and remainder.
  function TruncDiv(a: int, b: int): int
    requires b != 0
  {
    if a >= 0 then a / b else -((-a) / b)
  }

  function TruncRem(a: int, b: int): int
    requires b != 0
  {
    if a >= 0 then a % b else -((-a) % b)
  }

  predicate ToBool(v: Value) {
    v != Nil && v != Boolean(false)
  }

  function ToNumber(h: Host, v: Value): Option<Float> {
    match v
    case Integer(i) => Some(h.fromInt(i))
    case Number(f) => Some(f)
    case String(s) => h.readFloat(s)
    case _ => None
  }

  function ToInteger(h: Host, v: Value): Option<int> {
    match v
    case Integer(i) => Some(i)
    case Number(f) => h.toInt(f)
    case String(s) =>
      if h.readInt(s).Some? then h.readInt(s)
      else if h.readFloat(s).Some? then h.toInt(h.readFloat(s).value)
      else None
    case _ => None
  }

  function FloatOp(h: Host, op: SimpleBinOp, a: Value, b: Value): Option<Value> {
    if ToNumber(h, a).Some? && ToNumber(h, b).Some?
    then Some(Number(h.arith(op, ToNumber(h, a).value, ToNumber(h, b).value)))
    else None
  }

  function IntegerOp(h: Host, op: SimpleBinOp, a: int, b: int): Option<Value> {
    match op
    case Add => Some(Integer(Wrap(a + b)))
    case Sub => Some(Integer(Wrap(a - b)))
    case Mul => Some(Integer(Wrap(a * b)))
    case IDiv => if b == 0 then None else Some(Integer(Wrap(TruncDiv(a, b))))
    case Mod => if b == 0 then None else Some(Integer(TruncRem(Wrap(TruncRem(a, b) + b), b)))
    case _ => Some(Number(h.arith(op, h.fromInt(a), h.fromInt(b))))
  }

  predicate IsBitwise(op: SimpleBinOp) {
    op.BitAnd? || op.BitOr? || op.BitXor? || op.ShiftLeft? || op.ShiftRight?
  }

  /** A simple binary operator; `None` is the operator's run-time error. */
  function Binary(h: Host, op: SimpleBinOp, a: Value, b: Value): Option<Value> {
    if IsBitwise(op) then
      if ToInteger(h, a).Some? && ToInteger(h, b).Some?
      then Some(Integer(h.bits(op, ToInteger(h, a).value, ToInteger(h, b).value)))
      else None
    else if a.Integer? && b.Integer? then IntegerOp(h, op, a.i, b.i)
    else FloatOp(h, op, a, b)
  }

  function Unary(h: Host, op: UnaryOp, v: Value): Option<Value> {
    match op
    case Not => Some(Boolean(!ToBool(v)))
    case Minus =>
      if v.Integer? then Some(Integer(Wrap(-v.i)))
      else if ToNumber(h, v).Some? then Some(Number(h.negate(ToNumber(h, v).value)))
      else None
    case BitNot => if ToInteger(h, v).Some? then Some(Integer(h.bitNot(ToInteger(h, v).value))) else None
    case Len => if v.String? then Some(Integer(|v.s|)) else if v.Object? then h.objectLength(v.id) else None
  }

  predicate IsEqual(h: Host, a: Value, b: Value) {
    match (a, b)
    case (Integer(x), Number(y)) => h.floatEq(h.fromInt(x), y)
    case (Number(x), Integer(y)) => h.floatEq(h.fromInt(y), x)
    case (Number(x), Number(y)) => h.floatEq(x, y)
    case _ => a == b
  }

  function Less(h: Host, a: Value, b: Value): Option<bool> {
    if a.Integer? && b.Integer? then Some(a.i < b.i)
    else if a.String? && b.String? then Some(h.stringLess(a.s, b.s))
    else if ToNumber(h, a).Some? && ToNumber(h, b).Some?
    then Some(h.floatLess(ToNumber(h, a).value, ToNumber(h, b).value))
    else None
  }

  function LessOrEqual(h: Host, a: Value, b: Value): Option<bool> {
    if a.Integer? && b.Integer? then Some(a.i <= b.i)
    else if a.String? && b.String? then Some(!h.stringLess(b.s, a.s))
    else if ToNumber(h, a).Some? && ToNumber(h, b).Some?
    then Some(h.floatLessEq(ToNumber(h, a).value, ToNumber(h, b).value))
    else None
  }

  /** What a comparison means. `a > b` is "not a <= b" and `a >= b` is "not a < b", which is how the
      compiler lowers them; `SwappedComparisons` says when that is the manual's `b < a`, `b <= a`. */
  function Compare(h: Host, op: ComparisonOp, a: Value, b: Value): Option<bool> {
    match op
    case Equal => Some(IsEqual(h, a, b))
    case NotEqual => Some(!IsEqual(h, a, b))
    case LessThan => Less(h, a, b)
    case LessEqual => LessOrEqual(h, a, b)
    case GreaterThan => Negated(LessOrEqual(h, a, b))
    case GreaterEqual => Negated(Less(h, a, b))
  }

  function Negated(o: Option<bool>): Option<bool> {
    if o.Some? then Some(!o.value) else None
  }

  /** The order of floats: nothing holds of a NaN, and the others are totally ordered. */
  ghost predicate FloatsOrdered(h: Host) {
    && (forall i :: !h.isNaN(h.fromInt(i)))
    && forall x, y ::
         if h.isNaN(x) || h.isNaN(y) then !h.floatLess(x, y) && !h.floatLessEq(x, y)
         else h.floatLess(y, x) == !h.floatLessEq(x, y)
  }

  /** Two operands that are compared as floats, one of which is a NaN. */
  predicate ComparesNaN(h: Host, a: Value, b: Value) {
    && !(a.Integer? && b.Integer?) && !(a.String? && b.String?)
    && ToNumber(h, a).Some? && ToNumber(h, b).Some?
    && (h.isNaN(ToNumber(h, a).value) || h.isNaN(ToNumber(h, b).value))
  }

  /** `>` and `>=` mean what section 3.4.4 of the Lua 5.4 Reference Manual says exactly where no NaN is
      compared. */
  lemma SwappedComparisons(h: Host, a: Value, b: Value)
    requires FloatsOrdered(h)
    ensures Compare(h, GreaterThan, a, b) == Less(h, b, a) && Compare(h, GreaterEqual, a, b) == LessOrEqual(h, b, a)
            <==> !ComparesNaN(h, a, b)
  {
    if ToNumber(h, a).Some? && ToNumber(h, b).Some? {
      var x, y := ToNumber(h, a).value, ToNumber(h, b).value;
      assert h.floatLess(y, x) == !h.floatLessEq(x, y) <==> !h.isNaN(x) && !h.isNaN(y);
      assert h.floatLess(x, y) == !h.floatLessEq(y, x) <==> !h.isNaN(x) && !h.isNaN(y);
    }
  }

  /** A NaN is greater than every number, as well as not less. */
  lemma NaNIsGreater(h: Host, nan: Float, x: Float)
    requires FloatsOrdered(h) && h.isNaN(nan)
    ensures Compare(h, GreaterThan, Number(nan), Number(x)) == Some(true) == Compare(h, GreaterEqual, Number(nan), Number(x))
    ensures Less(h, Number(x), Number(nan)) == Some(false) == LessOrEqual(h, Number(x), Number(nan))
  {
  }

  // Constant folding (operators.rs): which operators are folded, and to what.

  function FoldSimple(h: Host, op: SimpleBinOp, a: Value, b: Value): Option<Value> {
    if IsBitwise(op) then None else Binary(h, op, a, b)
  }

  function FoldUnary(h: Host, op: UnaryOp, v: Value): Option<Value> {
    if op.Len? then None else Unary(h, op, v)
  }

  function FoldComparison(h: Host, op: ComparisonOp, a: Value, b: Value): Option<Value> {
    match op
    case Equal => Some(Boolean(IsEqual(h, a, b)))
    case LessThan => if Less(h, a, b).Some? then Some(Boolean(Less(h, a, b).value)) else None
    case LessEqual => if LessOrEqual(h, a, b).Some? then Some(Boolean(LessOrEqual(h, a, b).value)) else None
    case _ => None
  }

  // The numeric `for` loop (vm.rs:284-325).

  predicate PastEnd(h: Host, index: Value, limit: Value, step: Value) {
    if index.Integer? && limit.Integer? && step.Integer? then
      if step.i < 0 then index.i < limit.i else limit.i < index.i
    else if ToNumber(h, index).Some? && ToNumber(h, limit).Some? && ToNumber(h, step).Some? then
      if h.floatLess(ToNumber(h, step).value, h.fromInt(0))
      then h.floatLess(ToNumber(h, index).value, ToNumber(h, limit).value)
      else h.floatLess(ToNumber(h, limit).value, ToNumber(h, index).value)
    else true
  }

  /** The next index; `None` when one of the three is not a number. */
  function ForNext(h: Host, index: Value, limit: Value, step: Value): Option<Value> {
    if index.Integer? && limit.Integer? && step.Integer? then Some(Integer(Wrap(index.i + step.i)))
    else if ToNumber(h, index).Some? && ToNumber(h, limit).Some? && ToNumber(h, step).Some?
    then Some(Number(h.arith(Add, ToNumber(h, index).value, ToNumber(h, step).value)))
    else None
  }
}
