/** The compiler accepts every expression for which there is room. */
module ExprAcceptance {
  import opened Values
  import opened Ast
  import opened AllocatorSpec
  import opened SourceCosts
  import opened Codegen
  import opened ExprCorrect
  import M = Machine

  function DescCost(d: Desc): Cost {
    match d
    case Local(_) => Cost(1, 1, 0)
    case Global(_) => Cost(2, 1, 1)
    case Const(_) => Cost(1, 1, 1)
    case UnaryDesc(_, operand) => More(DescCost(operand), 1)
    case SimpleDesc(left, op, right) => OperatorCost(BinaryOperator.Simple(op), DescCost(left), DescCost(right))
    case ComparisonDesc(left, op, right) => OperatorCost(BinaryOperator.Comparison(op), DescCost(left), DescCost(right))
    case ShortCircuitDesc(left, op, right) => OperatorCost(BinaryOperator.ShortCircuit(op), DescCost(left), DescCost(right))
  }

  // Describing.

  lemma UnaryWithin(h: Host, op: UnaryOp, d: Desc, c: Cost)
    requires Within(DescCost(d), c)
    ensures Within(DescCost(UnaryOf(h, op, d)), More(c, 1))
  {
  }

  lemma BinaryWithin(h: Host, op: BinaryOperator, left: Desc, right: Desc, l: Cost, r: Cost)
    requires !op.Concat? && Within(DescCost(left), l) && Within(DescCost(right), r)
    ensures Within(DescCost(BinaryOf(h, op, left, right)), OperatorCost(op, l, r))
  {
    OperatorMonotone(op, DescCost(left), DescCost(right), l, r);
    hide OperatorCost;
    if left.Const? && right.Const? {
      FoldedWithin(op, l, r);
    }
    BinaryOfCost(h, op, left, right);
    hide BinaryOf, DescCost;
  }

  lemma BinaryOfCost(h: Host, op: BinaryOperator, left: Desc, right: Desc)
    requires !op.Concat?
    ensures var c := DescCost(BinaryOf(h, op, left, right));
            c == OperatorCost(op, DescCost(left), DescCost(right)) || (left.Const? && right.Const? && c == Cost(1, 1, 1))
  {
    hide OperatorCost;
  }

  lemma OperatorMonotone(op: BinaryOperator, a: Cost, b: Cost, l: Cost, r: Cost)
    requires Within(a, l) && Within(b, r)
    ensures Within(OperatorCost(op, a, b), OperatorCost(op, l, r))
  {
  }

  lemma FoldedWithin(op: BinaryOperator, l: Cost, r: Cost)
    requires Within(Cost(1, 1, 1), l) && Within(Cost(1, 1, 1), r)
    ensures Within(Cost(1, 1, 1), OperatorCost(op, l, r))
  {
  }

  lemma {:induction false} DescribeWithin(h: Host, locals: seq<LocalVar>, e: Expression)
    requires PlainExpression(e)
    ensures Describe(h, locals, e).Some? && Within(DescCost(Describe(h, locals, e).value), ExpressionCost(e))
    decreases e, 1
  {
    HeadWithin(h, locals, e.head);
    TailWithin(h, locals, DescribeHead(h, locals, e.head).value, HeadCost(e.head), e.tail);
  }

  lemma {:induction false} HeadWithin(h: Host, locals: seq<LocalVar>, head: HeadExpression)
    requires PlainHead(head)
    ensures DescribeHead(h, locals, head).Some? && Within(DescCost(DescribeHead(h, locals, head).value), HeadCost(head))
    decreases head, 1
  {
    match head {
      case SimpleHead(simple) => SimpleWithin(h, locals, simple);
      case UnaryHead(op, operand) =>
        DescribeWithin(h, locals, operand);
        UnaryWithin(h, op, Describe(h, locals, operand).value, ExpressionCost(operand));
    }
  }

  lemma {:induction false} SimpleWithin(h: Host, locals: seq<LocalVar>, s: SimpleExpression)
    requires PlainSimple(s)
    ensures DescribeSimple(h, locals, s).Some? && Within(DescCost(DescribeSimple(h, locals, s).value), SimpleCost(s))
    decreases s, 1
  {
    if s.Suffixed? && s.primary.Grouped? {
      DescribeWithin(h, locals, s.primary.inner);
    }
  }

  lemma {:induction false} TailWithin(h: Host, locals: seq<LocalVar>, left: Desc, c: Cost, tail: seq<TailPart>)
    requires (forall i :: 0 <= i < |tail| ==> PlainPart(tail[i])) && Within(DescCost(left), c)
    ensures DescribeTail(h, locals, left, tail).Some? && Within(DescCost(DescribeTail(h, locals, left, tail).value), TailCost(c, tail))
    decreases tail, 0
  {
    if tail != [] {
      PartWithin(h, locals, left, c, tail[0]);
      TailWithin(h, locals, DescribePart(h, locals, left, tail[0]).value, PartCost(c, tail[0]), tail[1..]);
    }
  }

  lemma {:induction false} PartWithin(h: Host, locals: seq<LocalVar>, left: Desc, c: Cost, part: TailPart)
    requires PlainPart(part) && Within(DescCost(left), c)
    ensures DescribePart(h, locals, left, part).Some? && Within(DescCost(DescribePart(h, locals, left, part).value), PartCost(c, part))
    decreases part, 0
  {
    DescribeWithin(h, locals, part.right);
    BinaryWithin(h, part.op, left, Describe(h, locals, part.right).value, c, ExpressionCost(part.right));
  }

  // Room: registers are numbered up to 254, there are 65536 constants, and code is no longer than a jump reaches.

  ghost predicate Room(s: State, c: Cost) {
    Top(s.alloc.used) + c.registers <= 255 && |s.constants| + c.constants <= 65536 && c.operations <= 32767
  }

  /** What the code with that cost has used up, when it keeps some registers. */
  ghost predicate Spent(s: State, c: Cost, kept: nat, s': State) {
    Top(s'.alloc.used) <= Top(s.alloc.used) + kept && |s'.constants| <= |s.constants| + c.constants
  }

  lemma RoomThen(s: State, first: Cost, kept: nat, second: Cost, s': State)
    requires Room(s, Then(first, kept, second)) && Spent(s, first, kept, s')
    ensures Room(s', second)
  {
  }

  lemma RoomWithin(s: State, a: Cost, b: Cost)
    requires Room(s, b) && Within(a, b)
    ensures Room(s, a)
  {
  }

  // Registers and constants.

  lemma ConstantFits(constants: seq<Value>, v: Value)
    requires |constants| + 1 <= 65536 || v in constants
    ensures GetConstant(constants, v).Some?
    ensures var r := GetConstant(constants, v).value.1; v in r && |r| <= |constants| + (if v in constants then 0 else 1)
  {
    if v in constants {
      LeastIndex(constants, v);
    }
  }

  /** A constant is refused exactly if it is a new one and there are 65536 already; it gets the next index if it is new. */
  lemma ConstantsExactly(constants: seq<Value>, v: Value)
    ensures GetConstant(constants, v).None? <==> v !in constants && |constants| >= 65536
    ensures GetConstant(constants, v).Some? ==>
              var (i, cs) := GetConstant(constants, v).value;
              cs[i..i + 1] == [v] && if v in constants then cs == constants && v !in cs[..i] else i == |constants| && cs == constants + [v]
  {
    LeastIndex(constants, v);
  }

  lemma {:induction false} LeastIndex(constants: seq<Value>, v: Value)
    ensures var i := IndexOf(constants, v); v !in constants[..i] && (i < |constants| <==> v in constants)
  {
    if constants != [] && constants[0] != v {
      LeastIndex(constants[1..], v);
      var i := IndexOf(constants[1..], v);
      assert constants[..1 + i] == [constants[0]] + constants[1..][..i];
    }
  }

  lemma TopMore(used: set<nat>, r: nat)
    requires r <= Top(used) < REGISTERS
    ensures Top(used + {r}) <= Top(used) + 1
  {
    var t, u := Top(used), Top(used + {r});
    assert u > 0 ==> u - 1 in used || u - 1 == r;
  }

  lemma DestinationFits(s: State, dest: Destination)
    requires DestinationOk(s, dest) && Top(s.alloc.used) + 1 <= 255
    ensures NewDestination(s, dest).Some?
    ensures Spent(s, Cost(0, 0, 0), if dest.ToRegister? then 0 else 1, NewDestination(s, dest).value.1)
    ensures NewDestination(s, dest).value.1.constants == s.constants
  {
    var t := Top(s.alloc.used);
    match dest {
      case ToRegister(_) =>
      case AllocateNew =>
        FirstFreeBelowTop(s.alloc.used);
        TopMore(s.alloc.used, FirstFree(s.alloc.used));
      case PushNew =>
        assert Range(t, 1) == {t};
        TopMore(s.alloc.used, t);
    }
  }

  function Stays(dest: Destination): nat {
    if dest.ToRegister? then 0 else 1
  }

  lemma NewDestinationFits(s: State, s1: State, dest: Destination, c: Cost)
    requires DestinationOk(s, dest) && Ok(s1.alloc) && s1.alloc.used == s.alloc.used && Spent(s, c, 0, s1) && Room(s, c) && c.registers > 0
    ensures NewDestination(s1, dest).Some? && Spent(s, c, Stays(dest), NewDestination(s1, dest).value.1)
    ensures NewDestination(s1, dest).value.1.constants == s1.constants
  {
    DestinationFits(s1, dest);
  }

  lemma ConstFits(v: Value, dest: Destination, s: State)
    requires DestinationOk(s, dest) && Room(s, Cost(1, 1, if v in s.constants then 0 else 1))
    ensures DischargeConst(v, dest, s).Some?
    ensures var e := DischargeConst(v, dest, s).value;
            |e.code| == 1 && Spent(s, Cost(1, 1, if v in s.constants then 0 else 1), Stays(dest), e.state)
  {
    DestinationFits(s, dest);
    ConstantFits(s.constants, v);
  }

  lemma KeyFits(name: Name, s: State)
    requires Ok(s.alloc) && Room(s, Cost(1, 1, 1))
    ensures ConstantKey(name, s).Some?
    ensures var k := ConstantKey(name, s).value;
            |k.code| <= 1 && Spent(s, Cost(1, 1, 1), 0, FreeTemp(k.state, k.temp)) && FreeTemp(k.state, k.temp).alloc.used == s.alloc.used
            && Ok(FreeTemp(k.state, k.temp).alloc)
  {
    ConstantFits(s.constants, String(name));
    var (c, constants) := GetConstant(s.constants, String(name)).value;
    if c >= REGISTERS {
      ConstFits(String(name), AllocateNew, s.(constants := constants));
    }
    ConstantKeyOk(name, s);
    FreeTempOk(s, Const(String(name)), ConstantKey(name, s).value);
  }

  lemma GlobalFits(name: Name, dest: Destination, s: State)
    requires DestinationOk(s, dest) && Room(s, Cost(2, 1, 1))
    ensures DischargeGlobal(name, dest, s).Some?
    ensures var e := DischargeGlobal(name, dest, s).value; |e.code| <= 2 && Spent(s, Cost(2, 1, 1), Stays(dest), e.state)
  {
    KeyFits(name, s);
    hide ConstantKey;
    var k := ConstantKey(name, s).value;
    NewDestinationFits(s, FreeTemp(k.state, k.temp), dest, Cost(2, 1, 1));
  }

  /** Wherever an expression is discharged to, there is room for it. */
  ghost predicate Fits(d: Desc, dest: Destination, s: State) {
    Discharge(d, dest, s).Some?
    && var e := Discharge(d, dest, s).value; |e.code| <= DescCost(d).operations && Spent(s, DescCost(d), Stays(dest), e.state)
  }

  ghost predicate OperandFits(d: Desc, s: State, o: Option<Operand>) {
    o.Some? && OperandOk(s, d, o.value) && |o.value.code| <= DescCost(d).operations && Spent(s, DescCost(d), 1, o.value.state)
    && Spent(s, DescCost(d), 0, FreeTemp(o.value.state, o.value.temp))
  }

  lemma OperatorPositive(op: BinaryOperator, left: Cost, right: Cost)
    ensures OperatorCost(op, left, right).registers > 0
  {
  }

  lemma {:induction false} DescCostPositive(d: Desc)
    ensures DescCost(d).registers > 0
    decreases d
  {
    hide OperatorCost;
    match d {
      case UnaryDesc(_, operand) => DescCostPositive(operand);
      case SimpleDesc(left, op, right) => OperatorPositive(BinaryOperator.Simple(op), DescCost(left), DescCost(right));
      case ComparisonDesc(left, op, right) => OperatorPositive(BinaryOperator.Comparison(op), DescCost(left), DescCost(right));
      case ShortCircuitDesc(left, op, right) => OperatorPositive(BinaryOperator.ShortCircuit(op), DescCost(left), DescCost(right));
      case _ =>
    }
  }

  lemma {:induction false} AnyRegisterFits(d: Desc, s: State)
    requires Ok(s.alloc) && ReadsOnly(d, s.alloc.used) && Room(s, DescCost(d))
    ensures OperandFits(d, s, AnyRegister(d, s))
    decreases d, 2
  {
    if !d.Local? {
      DischargeFits(d, AllocateNew, s);
    }
    AnyRegisterOk(d, s);
    FreeTempOk(s, d, AnyRegister(d, s).value);
  }

  lemma {:induction false} AnyOperandFits(d: Desc, s: State)
    requires Ok(s.alloc) && ReadsOnly(d, s.alloc.used) && Room(s, DescCost(d))
    ensures OperandFits(d, s, AnyOperand(d, s))
    decreases d, 3
  {
    hide Discharge;
    if d.Const? {
      ConstantOperandFits(d.v, s);
    } else {
      AnyRegisterFits(d, s);
    }
  }

  lemma ConstantOperandFits(v: Value, s: State)
    requires Ok(s.alloc) && Room(s, Cost(1, 1, 1))
    ensures OperandFits(Const(v), s, AnyOperand(Const(v), s))
  {
    hide OperandOk, Spent;
    ConstantOperandSpends(v, s);
    AnyOperandOk(Const(v), s);
  }

  lemma ConstantOperandSpends(v: Value, s: State)
    requires Ok(s.alloc) && Room(s, Cost(1, 1, 1))
    ensures AnyOperand(Const(v), s).Some?
    ensures var o := AnyOperand(Const(v), s).value;
            |o.code| <= 1 && Spent(s, Cost(1, 1, 1), 1, o.state) && Spent(s, Cost(1, 1, 1), 0, FreeTemp(o.state, o.temp))
  {
    ConstantFits(s.constants, v);
    var (c, constants) := GetConstant(s.constants, v).value;
    var s1 := s.(constants := constants);
    if c >= REGISTERS {
      ConstFits(v, AllocateNew, s1);
      assert AnyRegister(Const(v), s1).Some?;
      AnyRegisterOk(Const(v), s1);
      FreeTempOk(s1, Const(v), AnyRegister(Const(v), s1).value);
    } else {
      assert AnyOperand(Const(v), s) == Some(Operand([], M.Constant(c), None, s1));
    }
  }

  /** Both operands, and the state behind them. */
  ghost predicate PairFits(d: Desc, s: State)
    requires d.SimpleDesc? || d.ComparisonDesc?
  {
    Operands(d, s).Some?
    && var o := Operands(d, s).value;
       |o.code| <= DescCost(d.left).operations + DescCost(d.right).operations && Ok(o.state.alloc) && o.state.alloc.used == s.alloc.used
       && Spent(s, DescCost(d), 0, o.state)
  }

  lemma {:induction false} OperandsFit(d: Desc, s: State)
    requires d.SimpleDesc? || d.ComparisonDesc?
    requires Ok(s.alloc) && ReadsOnly(d, s.alloc.used) && Room(s, DescCost(d))
    ensures PairFits(d, s)
    decreases d, 0
  {
    hide AnyOperand, DescCost, Discharge;
    assert DescCost(d).registers >= DescCost(d.left).registers && DescCost(d).registers >= 1 + DescCost(d.right).registers
           && DescCost(d).constants == DescCost(d.left).constants + DescCost(d.right).constants
           && DescCost(d).operations >= DescCost(d.left).operations + DescCost(d.right).operations by {
      OperandCosts(d);
    }
    AnyOperandFits(d.left, s);
    var l := AnyOperand(d.left, s).value;
    ReadsMore(d.right, s.alloc.used, l.state.alloc.used);
    AnyOperandFits(d.right, l.state);
    OperandsOk(d, s);
  }

  lemma {:induction false} OperandCosts(d: Desc)
    requires d.SimpleDesc? || d.ComparisonDesc?
    ensures DescCost(d).registers >= DescCost(d.left).registers && DescCost(d).registers >= 1 + DescCost(d.right).registers
           && DescCost(d).constants == DescCost(d.left).constants + DescCost(d.right).constants
           && DescCost(d).operations == DescCost(d.left).operations + DescCost(d.right).operations + if d.SimpleDesc? then 1 else 4
  {
    OperatorOfDesc(d);
    hide DescCost, OperatorCost;
    OperatorParts(if d.SimpleDesc? then BinaryOperator.Simple(d.sop) else BinaryOperator.Comparison(d.cop), DescCost(d.left), DescCost(d.right));
  }

  lemma {:induction false} OperatorOfDesc(d: Desc)
    requires d.SimpleDesc? || d.ComparisonDesc?
    ensures DescCost(d) == OperatorCost(if d.SimpleDesc? then BinaryOperator.Simple(d.sop) else BinaryOperator.Comparison(d.cop),
                                        DescCost(d.left), DescCost(d.right))
  {
    hide OperatorCost;
  }

  lemma OperatorParts(op: BinaryOperator, left: Cost, right: Cost)
    ensures var c := OperatorCost(op, left, right);
            c.registers >= left.registers && c.registers >= 1 + right.registers && c.constants == left.constants + right.constants
            && c.operations == left.operations + right.operations + (match op case Simple(_) => 1 case Comparison(_) => 4 case ShortCircuit(_) => 2 case Concat => 1)
  {
  }

  lemma {:induction false} DischargeFits(d: Desc, dest: Destination, s: State)
    requires DestinationOk(s, dest) && ReadsOnly(d, s.alloc.used) && Room(s, DescCost(d))
    ensures Fits(d, dest, s)
    decreases d, 1
  {
    match d {
      case Local(_) => DestinationFits(s, dest);
      case Const(v) => ConstFits(v, dest, s);
      case Global(name) => GlobalFits(name, dest, s);
      case UnaryDesc(_, operand) =>
        AnyRegisterFits(operand, s);
        UnaryFits(d, dest, s);
      case ShortCircuitDesc(_, _, _) => ShortCircuitFits(d, dest, s);
      case _ =>
        OperandsFit(d, s);
        BinaryFits(d, dest, s);
    }
  }

  lemma UnaryFits(d: Desc, dest: Destination, s: State)
    requires d.UnaryDesc? && DestinationOk(s, dest) && Room(s, DescCost(d)) && OperandFits(d.operand, s, AnyRegister(d.operand, s))
    ensures Fits(d, dest, s)
  {
    DescCostPositive(d);
    hide AnyRegister;
    var o := AnyRegister(d.operand, s).value;
    FreeTempOk(s, d.operand, o);
    NewDestinationFits(s, FreeTemp(o.state, o.temp), dest, DescCost(d));
  }

  lemma BinaryFits(d: Desc, dest: Destination, s: State)
    requires d.SimpleDesc? || d.ComparisonDesc?
    requires DestinationOk(s, dest) && Room(s, DescCost(d)) && PairFits(d, s)
    ensures Fits(d, dest, s)
  {
    OperandCosts(d);
    DescCostPositive(d);
    hide Operands, DescCost, NewDestination, Spent, Room;
    NewDestinationFits(s, Operands(d, s).value.state, dest, DescCost(d));
    BinaryEmitted(d, dest, s);
    hide Discharge;
  }

  lemma BinaryEmitted(d: Desc, dest: Destination, s: State)
    requires d.SimpleDesc? || d.ComparisonDesc?
    requires Operands(d, s).Some? && NewDestination(Operands(d, s).value.state, dest).Some?
    ensures Discharge(d, dest, s).Some?
    ensures var e, o := Discharge(d, dest, s).value, Operands(d, s).value;
            e.state == NewDestination(o.state, dest).value.1 && |e.code| == |o.code| + if d.SimpleDesc? then 1 else 4
  {
    hide Operands, NewDestination;
  }

  /** The state in which the right operand goes to the destination. */
  lemma ShortCircuitDestination(d: Desc, dest: Destination, s: State) returns (s2: State, reg: nat)
    requires d.ShortCircuitDesc? && DestinationOk(s, dest) && Room(s, DescCost(d)) && OperandFits(d.left, s, AnyRegister(d.left, s))
    ensures var l := AnyRegister(d.left, s).value; NewDestination(FreeTemp(l.state, l.temp), dest) == Some((reg, s2))
    ensures DestinationOk(s2, ToRegister(reg)) && s.alloc.used <= s2.alloc.used && Spent(s, DescCost(d.left), Stays(dest), s2)
  {
    hide AnyRegister, IsTop;
    var l := AnyRegister(d.left, s).value;
    FreeTempOk(s, d.left, l);
    hide OperandOk;
    var s1 := FreeTemp(l.state, l.temp);
    assert Room(s, DescCost(d.left)) && DescCost(d.left).registers > 0 by {
      DescCostPositive(d.left);
    }
    NewDestinationFits(s, s1, dest, DescCost(d.left));
    NewDestinationPlaced(s1, dest);
    reg, s2 := NewDestination(s1, dest).value.0, NewDestination(s1, dest).value.1;
  }

  lemma ShortCircuitEmitted(d: Desc, dest: Destination, s: State, s2: State, reg: nat)
    requires d.ShortCircuitDesc? && AnyRegister(d.left, s).Some? && Discharge(d.right, ToRegister(reg), s2).Some?
    requires var l := AnyRegister(d.left, s).value; NewDestination(FreeTemp(l.state, l.temp), dest) == Some((reg, s2))
    requires |Discharge(d.right, ToRegister(reg), s2).value.code| <= 32767
    ensures Discharge(d, dest, s).Some?
    ensures var e, r := Discharge(d, dest, s).value, Discharge(d.right, ToRegister(reg), s2).value;
            e.state == r.state && |e.code| == |AnyRegister(d.left, s).value.code| + 2 + |r.code|
  {
    hide AnyRegister, NewDestination;
  }

  /** `and` and `or` are refused for their length only if the jump over the right operand is too long. */
  lemma ShortCircuitExactly(d: Desc, dest: Destination, s: State, s2: State, reg: nat)
    requires d.ShortCircuitDesc? && AnyRegister(d.left, s).Some? && Discharge(d.right, ToRegister(reg), s2).Some?
    requires var l := AnyRegister(d.left, s).value; NewDestination(FreeTemp(l.state, l.temp), dest) == Some((reg, s2))
    ensures Discharge(d, dest, s).Some? <==> |Discharge(d.right, ToRegister(reg), s2).value.code| <= 32767
  {
    hide AnyRegister, NewDestination;
  }

  lemma {:induction false} ShortCircuitFits(d: Desc, dest: Destination, s: State)
    requires d.ShortCircuitDesc? && DestinationOk(s, dest) && ReadsOnly(d, s.alloc.used) && Room(s, DescCost(d))
    ensures Fits(d, dest, s)
    decreases d, 0
  {
    assert Room(s, DescCost(d.left)) && Room(s, Then(DescCost(d.left), 1, DescCost(d.right)));
    AnyRegisterFits(d.left, s);
    hide AnyRegister, NewDestination, FreeTemp, OperandOk, IsTop;
    var s2, reg := ShortCircuitDestination(d, dest, s);
    ReadsMore(d.right, s.alloc.used, s2.alloc.used);
    assert Room(s2, DescCost(d.right));
    DischargeFits(d.right, ToRegister(reg), s2);
    ShortCircuitEmitted(d, dest, s, s2, reg);
    hide Discharge;
  }
}
