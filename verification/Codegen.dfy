/** What piccolo/src/compiler/compiler.rs emits for expressions, as functions. */
module Codegen {
  import opened Values
  import opened Ast
  import opened AllocatorSpec
  import M = Machine

  /** `ExprDescriptor`: an expression with its names resolved and its constants folded. */
  datatype Desc =
    | Local(r: nat)
    | Global(name: Name)
    | Const(v: Value)
    | UnaryDesc(uop: UnaryOp, operand: Desc)
    | SimpleDesc(left: Desc, sop: SimpleBinOp, right: Desc)
    | ComparisonDesc(left: Desc, cop: ComparisonOp, right: Desc)
    | ShortCircuitDesc(left: Desc, lop: ShortCircuitOp, right: Desc)

  datatype LocalVar = LocalVar(name: Name, reg: nat)

  const ENV: Name := "_ENV"

  function FindLocal(locals: seq<LocalVar>, name: Name): Option<nat> {
    if locals == [] then None
    else if locals[|locals| - 1].name == name then Some(locals[|locals| - 1].reg)
    else FindLocal(locals[..|locals| - 1], name)
  }

  // Descriptors. `None` is an expression outside the modelled part of the language.

  function Describe(h: Host, locals: seq<LocalVar>, e: Expression): Option<Desc>
    decreases e, 1
  {
    var head := DescribeHead(h, locals, e.head);
    if head.None? then None else DescribeTail(h, locals, head.value, e.tail)
  }

  function DescribeHead(h: Host, locals: seq<LocalVar>, head: HeadExpression): Option<Desc>
    decreases head, 1
  {
    match head
    case SimpleHead(simple) => DescribeSimple(h, locals, simple)
    case UnaryHead(op, operand) =>
      var d := Describe(h, locals, operand);
      if d.None? then None else Some(UnaryOf(h, op, d.value))
  }

  function DescribeSimple(h: Host, locals: seq<LocalVar>, s: SimpleExpression): Option<Desc>
    decreases s, 1
  {
    match s
    case FloatLit(f) => Some(Const(Number(f)))
    case IntegerLit(i) => Some(Const(Integer(i)))
    case StringLit(t) => Some(Const(String(t)))
    case NilLit => Some(Const(Nil))
    case TrueLit => Some(Const(Boolean(true)))
    case FalseLit => Some(Const(Boolean(false)))
    case VarArgs => None
    case Suffixed(primary, suffixes) =>
      if suffixes != [] then None
      else match primary
        case Grouped(inner) => Describe(h, locals, inner)
        case Named(name) =>
          if name == ENV then None
          else if FindLocal(locals, name).Some? then Some(Local(FindLocal(locals, name).value))
          else Some(Global(name))
  }

  function DescribeTail(h: Host, locals: seq<LocalVar>, left: Desc, tail: seq<TailPart>): Option<Desc>
    decreases tail, 0
  {
    if tail == [] then Some(left)
    else
      var d := DescribePart(h, locals, left, tail[0]);
      if d.None? then None else DescribeTail(h, locals, d.value, tail[1..])
  }

  function DescribePart(h: Host, locals: seq<LocalVar>, left: Desc, part: TailPart): Option<Desc>
    decreases part, 0
  {
    var right := Describe(h, locals, part.right);
    if right.None? || part.op.Concat? then None else Some(BinaryOf(h, part.op, left, right.value))
  }

  function UnaryOf(h: Host, op: UnaryOp, d: Desc): Desc {
    if d.Const? && FoldUnary(h, op, d.v).Some? then Const(FoldUnary(h, op, d.v).value) else UnaryDesc(op, d)
  }

  function BinaryOf(h: Host, op: BinaryOperator, left: Desc, right: Desc): Desc
    requires !op.Concat?
  {
    match op
    case Simple(op) =>
      if left.Const? && right.Const? && FoldSimple(h, op, left.v, right.v).Some?
      then Const(FoldSimple(h, op, left.v, right.v).value)
      else SimpleDesc(left, op, right)
    case Comparison(op) =>
      if left.Const? && right.Const? && FoldComparison(h, op, left.v, right.v).Some?
      then Const(FoldComparison(h, op, left.v, right.v).value)
      else ComparisonDesc(left, op, right)
    case ShortCircuit(op) => ShortCircuitDesc(left, op, right)
  }

  // Code generation.

  /** The compiler state an expression changes: allocated registers and the constant table. */
  datatype State = State(alloc: Alloc, constants: seq<Value>)

  datatype Destination = ToRegister(r: nat) | AllocateNew | PushNew

  datatype Emitted = Emitted(code: seq<M.Operation>, reg: nat, state: State)
  datatype Operand = Operand(code: seq<M.Operation>, rc: M.RC, temp: Option<nat>, state: State)

  datatype Prepared = Prepared(code: seq<M.Operation>, left: M.RC, right: M.RC, state: State)

  const MAX_I16: int := 32767
  const MAX_CONSTANTS: nat := 65536

  function NoClose(offset: int): M.Operation {
    M.Jump(offset, None)
  }

  function IndexOf(constants: seq<Value>, v: Value): (i: nat)
    ensures i <= |constants| && (i < |constants| ==> constants[i] == v)
  {
    if constants == [] || constants[0] == v then 0 else 1 + IndexOf(constants[1..], v)
  }

  /** The index of a constant, which is appended to the table unless it is already there. */
  function GetConstant(constants: seq<Value>, v: Value): Option<(nat, seq<Value>)> {
    var i := IndexOf(constants, v);
    if i < |constants| then Some((i, constants))
    else if i < MAX_CONSTANTS then Some((i, constants + [v]))
    else None
  }

  ghost function NewDestination(s: State, dest: Destination): Option<(nat, State)> {
    match dest
    case ToRegister(r) => Some((r, s))
    case AllocateNew =>
      var a := Allocate(s.alloc);
      if a.None? then None else Some((a.value.0, s.(alloc := a.value.1)))
    case PushNew =>
      var a := Push(s.alloc, 1);
      if a.None? then None else Some((a.value.0, s.(alloc := a.value.1)))
  }

  ghost function FreeTemp(s: State, temp: Option<nat>): State {
    if temp.Some? then s.(alloc := Free(s.alloc, temp.value)) else s
  }

  /** `expr_any_register`: a local stays where it is, anything else goes to a new temporary. */
  ghost function AnyRegister(d: Desc, s: State): (o: Option<Operand>)
    ensures o.Some? ==> o.value.rc.Register?
    decreases d, 2
  {
    if d.Local? then Some(Operand([], M.Register(d.r), None, s))
    else
      var e := Discharge(d, AllocateNew, s);
      if e.None? then None
      else Some(Operand(e.value.code, M.Register(e.value.reg), Some(e.value.reg), e.value.state))
  }

  /** `expr_any_register_or_constant`: also uses constants whose index fits eight bits in place. */
  ghost function AnyOperand(d: Desc, s: State): Option<Operand>
    decreases d, 3
  {
    if d.Const? then
      var c := GetConstant(s.constants, d.v);
      if c.None? then None
      else if c.value.0 < REGISTERS
      then Some(Operand([], M.Constant(c.value.0), None, s.(constants := c.value.1)))
      else AnyRegister(d, s.(constants := c.value.1))
    else AnyRegister(d, s)
  }

  /** The two operands of a binary operator. Both are evaluated before either is freed. */
  ghost function Operands(d: Desc, s: State): Option<Prepared>
    requires d.SimpleDesc? || d.ComparisonDesc?
    decreases d, 0
  {
    var l := AnyOperand(d.left, s);
    if l.None? then None else
    var r := AnyOperand(d.right, l.value.state);
    if r.None? then None
    else Some(Prepared(l.value.code + r.value.code, l.value.rc, r.value.rc,
                       FreeTemp(FreeTemp(r.value.state, l.value.temp), r.value.temp)))
  }

  function ComparisonOperation(op: ComparisonOp, left: M.RC, right: M.RC, skipIf: bool): M.Operation {
    match op
    case Equal => M.Eq(skipIf, left, right)
    case NotEqual => M.Eq(!skipIf, left, right)
    case LessThan => M.Less(skipIf, left, right)
    case LessEqual => M.LessEq(skipIf, left, right)
    case GreaterThan => M.LessEq(!skipIf, left, right)
    case GreaterEqual => M.Less(!skipIf, left, right)
  }

  /** `expr_discharge`: code that leaves the value of `d` in the register `reg`. */
  ghost function Discharge(d: Desc, dest: Destination, s: State): Option<Emitted>
    decreases d, 1
  {
    match d
    case Local(source) =>
      var n := NewDestination(s, dest);
      if n.None? then None else Some(Emitted([M.Move(n.value.0, source)], n.value.0, n.value.1))
    case Const(v) => DischargeConst(v, dest, s)
    case Global(name) => DischargeGlobal(name, dest, s)
    case UnaryDesc(op, operand) =>
      var o := AnyRegister(operand, s);
      if o.None? then None
      else
        var n := NewDestination(FreeTemp(o.value.state, o.value.temp), dest);
        if n.None? then None
        else Some(Emitted(o.value.code + [M.UnaryOperation(op, n.value.0, o.value.rc.r)], n.value.0, n.value.1))
    case SimpleDesc(_, op, _) =>
      var o := Operands(d, s);
      if o.None? then None else
      var n := NewDestination(o.value.state, dest);
      if n.None? then None
      else Some(Emitted(o.value.code + [M.Arithmetic(op, n.value.0, o.value.left, o.value.right)],
                        n.value.0, n.value.1))
    case ComparisonDesc(_, op, _) =>
      var o := Operands(d, s);
      if o.None? then None else
      var n := NewDestination(o.value.state, dest);
      if n.None? then None
      else Some(Emitted(o.value.code + ComparisonTail(op, o.value.left, o.value.right, n.value.0),
                        n.value.0, n.value.1))
    case ShortCircuitDesc(left, op, right) =>
      var l := AnyRegister(left, s);
      if l.None? then None else
      var n := NewDestination(FreeTemp(l.value.state, l.value.temp), dest);
      if n.None? then None else
      var r := Discharge(right, ToRegister(n.value.0), n.value.1);
      if r.None? || |r.value.code| > MAX_I16 then None
      else
        Some(Emitted(l.value.code + ShortCircuitTest(op, l.value.rc.r, n.value.0, |r.value.code|) + r.value.code,
                     n.value.0, r.value.state))
  }

  ghost function DischargeConst(v: Value, dest: Destination, s: State): Option<Emitted> {
    var n := NewDestination(s, dest);
    if n.None? then None
    else match v
      case Nil => Some(Emitted([M.LoadNil(n.value.0, 1)], n.value.0, n.value.1))
      case Boolean(b) => Some(Emitted([M.LoadBool(n.value.0, b, false)], n.value.0, n.value.1))
      case _ =>
        var c := GetConstant(n.value.1.constants, v);
        if c.None? then None
        else Some(Emitted([M.LoadConstant(n.value.0, c.value.0)], n.value.0, n.value.1.(constants := c.value.1)))
  }

  /** A global is a field of the upvalue `_ENV`. Its key is a string constant, which is loaded into a
      temporary when its index does not fit eight bits. */
  ghost function DischargeGlobal(name: Name, dest: Destination, s: State): Option<Emitted> {
    var k := ConstantKey(name, s);
    if k.None? then None else
    var n := NewDestination(FreeTemp(k.value.state, k.value.temp), dest);
    if n.None? then None
    else Some(Emitted(k.value.code + [M.GetUpTable(n.value.0, 0, k.value.rc)], n.value.0, n.value.1))
  }

  ghost function ConstantKey(name: Name, s: State): Option<Operand> {
    var c := GetConstant(s.constants, String(name));
    if c.None? then None
    else if c.value.0 < REGISTERS
    then Some(Operand([], M.Constant(c.value.0), None, s.(constants := c.value.1)))
    else
      var e := DischargeConst(String(name), AllocateNew, s.(constants := c.value.1));
      if e.None? then None
      else Some(Operand(e.value.code, M.Register(e.value.reg), Some(e.value.reg), e.value.state))
  }

  function ComparisonTail(op: ComparisonOp, left: M.RC, right: M.RC, dest: nat): seq<M.Operation> {
    [ComparisonOperation(op, left, right, false), NoClose(1), M.LoadBool(dest, false, true), M.LoadBool(dest, true, false)]
  }

  function ShortCircuitTest(op: ShortCircuitOp, source: nat, dest: nat, skip: nat): seq<M.Operation> {
    [if source == dest then M.Test(source, op.And?) else M.TestSet(dest, source, op.And?), NoClose(skip)]
  }
}
