/** The code emitted for an expression computes the expression. */
module ExprCorrect {
  import opened Values
  import opened Ast
  import opened AllocatorSpec
  import opened Codegen
  import opened Machine

  // What a descriptor means, given the registers its locals live in. `None` is a run-time error.
  function EvalDesc(h: Host, d: Desc, regs: seq<Value>, g: Globals): Option<Value> {
    match d
    case Local(r) => if r < |regs| then Some(regs[r]) else None
    case Global(name) => Some(GetGlobal(g, name))
    case Const(v) => Some(v)
    case UnaryDesc(op, operand) =>
      var v := EvalDesc(h, operand, regs, g);
      if v.None? then None else Unary(h, op, v.value)
    case SimpleDesc(left, op, right) =>
      var l, r := EvalDesc(h, left, regs, g), EvalDesc(h, right, regs, g);
      if l.None? || r.None? then None else Binary(h, op, l.value, r.value)
    case ComparisonDesc(left, op, right) =>
      var l, r := EvalDesc(h, left, regs, g), EvalDesc(h, right, regs, g);
      if l.None? || r.None? then None else AsBoolean(Compare(h, op, l.value, r.value))
    case ShortCircuitDesc(left, op, right) =>
      var l := EvalDesc(h, left, regs, g);
      if l.None? || ToBool(l.value) != op.And? then l else EvalDesc(h, right, regs, g)
  }

  function AsBoolean(b: Option<bool>): Option<Value> {
    if b.None? then None else Some(Boolean(b.value))
  }

  /** Every local a descriptor reads is in an allocated register. */
  predicate ReadsOnly(d: Desc, used: set<nat>) {
    match d
    case Local(r) => r in used
    case Global(_) => true
    case Const(_) => true
    case UnaryDesc(_, operand) => ReadsOnly(operand, used)
    case SimpleDesc(left, _, right) => ReadsOnly(left, used) && ReadsOnly(right, used)
    case ComparisonDesc(left, _, right) => ReadsOnly(left, used) && ReadsOnly(right, used)
    case ShortCircuitDesc(left, _, right) => ReadsOnly(left, used) && ReadsOnly(right, used)
  }

  lemma ReadsMore(d: Desc, used: set<nat>, more: set<nat>)
    requires ReadsOnly(d, used) && used <= more
    ensures ReadsOnly(d, more)
  {
  }

  ghost predicate Same(used: set<nat>, regs: seq<Value>, regs': seq<Value>) {
    |regs| == |regs'| && forall x :: x in used && x < |regs| ==> regs'[x] == regs[x]
  }

  /** The value of a descriptor depends only on the registers it reads. */
  lemma EvalSame(h: Host, d: Desc, used: set<nat>, regs: seq<Value>, regs': seq<Value>, g: Globals)
    requires ReadsOnly(d, used) && Same(used, regs, regs')
    ensures EvalDesc(h, d, regs', g) == EvalDesc(h, d, regs, g)
  {
  }

  // Register discipline.

  ghost predicate DestinationOk(s: State, dest: Destination) {
    Ok(s.alloc) && (dest.ToRegister? ==> dest.r in s.alloc.used)
  }

  ghost predicate Grown(s: State, s': State) {
    Ok(s'.alloc) && s.alloc.size <= s'.alloc.size && s.constants <= s'.constants
  }

  /** `reg` is where `dest` asked for, and it is the only register allocated from `s` to `s'`. */
  ghost predicate Placed(s: State, dest: Destination, reg: nat, s': State) {
    && Grown(s, s')
    && reg < s'.alloc.size
    && match dest
       case ToRegister(r) => reg == r && s'.alloc.used == s.alloc.used
       case AllocateNew => reg !in s.alloc.used && s'.alloc.used == s.alloc.used + {reg}
       case PushNew => reg !in s.alloc.used && s'.alloc.used == s.alloc.used + {reg} && reg == Top(s.alloc.used)
  }

  /** An operand is a register the expression already had, a constant, or one fresh temporary. */
  ghost predicate OperandOk(s: State, d: Desc, o: Operand) {
    && Grown(s, o.state)
    && (match o.temp
        case None => o.code == [] && o.state.alloc.used == s.alloc.used
        case Some(t) => t !in s.alloc.used && o.state.alloc.used == s.alloc.used + {t} && o.rc == Register(t))
    && match o.rc
       case Register(r) => r in o.state.alloc.used && (o.temp.None? ==> d == Local(r))
       case Constant(c) => c < |o.state.constants| && o.temp.None? && d == Const(o.state.constants[c])
  }

  lemma NewDestinationPlaced(s: State, dest: Destination)
    requires DestinationOk(s, dest) && NewDestination(s, dest).Some?
    ensures var (reg, s') := NewDestination(s, dest).value; Placed(s, dest, reg, s')
  {
    match dest
    case ToRegister(r) =>
    case AllocateNew => AllocateOk(s.alloc);
    case PushNew =>
      PushOk(s.alloc, 1);
      assert Range(Top(s.alloc.used), 1) == {Top(s.alloc.used)};
  }

  lemma FreeTempOk(s: State, d: Desc, o: Operand)
    requires Ok(s.alloc) && OperandOk(s, d, o)
    ensures Grown(s, FreeTemp(o.state, o.temp)) && FreeTemp(o.state, o.temp).alloc.used == s.alloc.used
    ensures Grown(o.state, FreeTemp(o.state, o.temp))
  {
    if o.temp.Some? {
      FewerOk(o.state.alloc, Free(o.state.alloc, o.temp.value).used);
      assert s.alloc.used == Free(o.state.alloc, o.temp.value).used;
    }
  }

  lemma GetConstantOk(constants: seq<Value>, v: Value)
    requires GetConstant(constants, v).Some?
    ensures var (i, constants') := GetConstant(constants, v).value;
            constants <= constants' && i < |constants'| && constants'[i] == v
  {
  }

  lemma DischargeConstPlaced(v: Value, dest: Destination, s: State)
    requires DestinationOk(s, dest) && DischargeConst(v, dest, s).Some?
    ensures var e := DischargeConst(v, dest, s).value; Placed(s, dest, e.reg, e.state)
  {
    NewDestinationPlaced(s, dest);
  }

  lemma ConstantKeyOk(name: Name, s: State)
    requires Ok(s.alloc) && ConstantKey(name, s).Some?
    ensures OperandOk(s, Const(String(name)), ConstantKey(name, s).value)
  {
    GetConstantOk(s.constants, String(name));
    var (c, constants) := GetConstant(s.constants, String(name)).value;
    if c >= REGISTERS {
      DischargeConstPlaced(String(name), AllocateNew, s.(constants := constants));
    }
  }

  lemma {:induction false} AnyRegisterOk(d: Desc, s: State)
    requires Ok(s.alloc) && ReadsOnly(d, s.alloc.used) && AnyRegister(d, s).Some?
    ensures OperandOk(s, d, AnyRegister(d, s).value)
    decreases d, 2
  {
    if !d.Local? {
      DischargePlaced(d, AllocateNew, s);
    }
  }

  lemma {:induction false} AnyOperandOk(d: Desc, s: State)
    requires Ok(s.alloc) && ReadsOnly(d, s.alloc.used) && AnyOperand(d, s).Some?
    ensures OperandOk(s, d, AnyOperand(d, s).value)
    decreases d, 3
  {
    if d.Const? {
      GetConstantOk(s.constants, d.v);
      var s1 := s.(constants := GetConstant(s.constants, d.v).value.1);
      if GetConstant(s.constants, d.v).value.0 >= REGISTERS {
        AnyRegisterOk(d, s1);
      }
    } else {
      AnyRegisterOk(d, s);
    }
  }

  /** Evaluating two operands and freeing their temporaries leaves the allocator as it was. */
  lemma {:induction false} OperandsOk(d: Desc, s: State)
    requires d.SimpleDesc? || d.ComparisonDesc?
    requires Ok(s.alloc) && ReadsOnly(d, s.alloc.used) && Operands(d, s).Some?
    ensures var l := AnyOperand(d.left, s).value;
            var r := AnyOperand(d.right, l.state).value;
            var o := Operands(d, s).value;
            && Grown(s, l.state) && Grown(l.state, r.state) && Grown(r.state, o.state)
            && OperandOk(s, d.left, l) && OperandOk(l.state, d.right, r)
            && o.state.alloc.used == s.alloc.used
    decreases d, 0
  {
    var l := AnyOperand(d.left, s).value;
    AnyOperandOk(d.left, s);
    ReadsMore(d.right, s.alloc.used, l.state.alloc.used);
    var r := AnyOperand(d.right, l.state).value;
    AnyOperandOk(d.right, l.state);
    var freed := FreeTemp(FreeTemp(r.state, l.temp), r.temp);
    assert freed.alloc.used == s.alloc.used;
    FewerOk(r.state.alloc, freed.alloc.used);
  }

  /** The register discipline of `expr_discharge`: discharging to a given register restores the
      allocator, anything else allocates one new register, on the stack top for `PushNew`. */
  lemma {:induction false} DischargePlaced(d: Desc, dest: Destination, s: State)
    requires DestinationOk(s, dest) && ReadsOnly(d, s.alloc.used) && Discharge(d, dest, s).Some?
    ensures var e := Discharge(d, dest, s).value; Placed(s, dest, e.reg, e.state)
    decreases d, 1
  {
    match d
    case Local(_) => NewDestinationPlaced(s, dest);
    case Const(v) => DischargeConstPlaced(v, dest, s);
    case Global(name) =>
      ConstantKeyOk(name, s);
      var k := ConstantKey(name, s).value;
      FreeTempOk(s, Const(String(name)), k);
      NewDestinationPlaced(FreeTemp(k.state, k.temp), dest);
    case UnaryDesc(op, operand) =>
      AnyRegisterOk(operand, s);
      var o := AnyRegister(operand, s).value;
      FreeTempOk(s, operand, o);
      NewDestinationPlaced(FreeTemp(o.state, o.temp), dest);
    case SimpleDesc(_, _, _) =>
      OperandsOk(d, s);
      NewDestinationPlaced(Operands(d, s).value.state, dest);
    case ComparisonDesc(_, _, _) =>
      OperandsOk(d, s);
      NewDestinationPlaced(Operands(d, s).value.state, dest);
    case ShortCircuitDesc(left, op, right) =>
      AnyRegisterOk(left, s);
      var l := AnyRegister(left, s).value;
      FreeTempOk(s, left, l);
      var s1 := FreeTemp(l.state, l.temp);
      NewDestinationPlaced(s1, dest);
      var (reg, s2) := NewDestination(s1, dest).value;
      ReadsMore(right, s.alloc.used, s2.alloc.used);
      DischargePlaced(right, ToRegister(reg), s2);
  }
}
