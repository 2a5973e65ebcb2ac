/** Running the code emitted for an expression: the simulation behind `ExpressionCorrect`. */
module ExprRuns {
  import opened Values
  import opened Ast
  import opened AllocatorSpec
  import opened Codegen
  import opened Machine
  import opened ExprCorrect

  ghost predicate CodeAt(p: Program, pc: nat, code: seq<Operation>) {
    pc + |code| <= |p.code| && forall i :: 0 <= i < |code| ==> p.code[pc + i] == code[i]
  }

  lemma CodeAtSplit(p: Program, pc: nat, a: seq<Operation>, b: seq<Operation>)
    requires CodeAt(p, pc, a + b)
    ensures CodeAt(p, pc, a) && CodeAt(p, pc + |a|, b)
  {
    forall i | 0 <= i < |a| ensures p.code[pc + i] == a[i] { assert (a + b)[i] == a[i]; }
    forall i | 0 <= i < |b| ensures p.code[pc + |a| + i] == b[i] { assert (a + b)[|a| + i] == b[i]; }
  }

  /** The code is at the machine's pc, and registers and constants suffice for it. */
  ghost predicate Fits(p: Program, m: Machine, code: seq<Operation>, after: State) {
    m.Running? && CodeAt(p, m.pc, code) && after.constants <= p.constants && after.alloc.size <= |m.regs|
  }

  /** After `n` steps the value is in `reg`, the pc behind the code, and no register of `used` other
      than `reg` has changed; or the machine has failed, if there is no value. */
  ghost predicate Yields(h: Host, p: Program, m: Machine, n: nat, v: Option<Value>, length: nat, used: set<nat>, reg: nat)
    requires m.Running?
  {
    var m' := Steps(h, p, m, n);
    match v
    case None => m' == Failed(m.globals)
    case Some(x) =>
      && m'.Running? && m'.pc == m.pc + length && m'.globals == m.globals
      && reg < |m'.regs| && m'.regs[reg] == x
      && Same(used - {reg}, m.regs, m'.regs)
  }

  /** The same for an operand, which may also be a constant. */
  ghost predicate Supplies(h: Host, p: Program, m: Machine, n: nat, v: Option<Value>, length: nat, used: set<nat>, rc: RC)
    requires m.Running?
  {
    var m' := Steps(h, p, m, n);
    match v
    case None => m' == Failed(m.globals)
    case Some(x) =>
      && m'.Running? && m'.pc == m.pc + length && m'.globals == m.globals
      && Readable(p, m'.regs, rc) && Read(p, m'.regs, rc) == x
      && Same(used, m.regs, m'.regs)
  }

  /** One last operation that stores `v` in `reg`. */
  lemma ThenStore(h: Host, p: Program, m: Machine, n: nat, v: Option<Value>, used: set<nat>, reg: nat)
    requires m.Running?
    requires var m1 := Steps(h, p, m, n);
             m1.Running? && m1.globals == m.globals && m.pc <= m1.pc && Same(used, m.regs, m1.regs)
             && reg < |m.regs| && m1.pc < |p.code|
             && Execute(h, p, p.code[m1.pc], m1.pc + 1, m1.regs, m1.globals)
                == Store(v, reg, m1.pc + 1, m1.regs, m1.globals)
    ensures Yields(h, p, m, n + 1, v, Steps(h, p, m, n).pc + 1 - m.pc, used, reg)
  {
    hide Steps, Execute;
    StepsCompose(h, p, m, n, 1);
    OneStep(h, p, Steps(h, p, m, n));
  }

  lemma ConstRuns(h: Host, p: Program, v: Value, dest: Destination, s: State, m: Machine)
    requires DestinationOk(s, dest) && DischargeConst(v, dest, s).Some?
    requires var e := DischargeConst(v, dest, s).value; Fits(p, m, e.code, e.state)
    ensures var e := DischargeConst(v, dest, s).value;
            Yields(h, p, m, 1, Some(v), |e.code|, s.alloc.used, e.reg)
  {
    var e := DischargeConst(v, dest, s).value;
    DischargeConstPlaced(v, dest, s);
    assert p.code[m.pc] == e.code[0] by { assert p.code[m.pc + 0] == e.code[0]; }
    if v.Nil? {
      assert NilRange(m.regs, e.reg, 1) == m.regs[e.reg := Nil];
    }
    ThenStore(h, p, m, 0, Some(v), s.alloc.used, e.reg);
  }

  lemma ConstantKeyRuns(h: Host, p: Program, name: Name, s: State, m: Machine) returns (n: nat)
    requires Ok(s.alloc) && ConstantKey(name, s).Some?
    requires var k := ConstantKey(name, s).value; Fits(p, m, k.code, k.state)
    ensures var k := ConstantKey(name, s).value;
            Supplies(h, p, m, n, Some(String(name)), |k.code|, s.alloc.used, k.rc)
  {
    var k := ConstantKey(name, s).value;
    ConstantKeyOk(name, s);
    if k.temp.Some? {
      n := 1;
      var s1 := s.(constants := GetConstant(s.constants, String(name)).value.1);
      ConstRuns(h, p, String(name), AllocateNew, s1, m);
      DischargeConstPlaced(String(name), AllocateNew, s1);
    } else {
      n := 0;
    }
  }

  lemma {:induction false} AnyRegisterRuns(h: Host, p: Program, d: Desc, s: State, m: Machine) returns (n: nat)
    requires Ok(s.alloc) && ReadsOnly(d, s.alloc.used) && AnyRegister(d, s).Some?
    requires var o := AnyRegister(d, s).value; Fits(p, m, o.code, o.state)
    ensures var o := AnyRegister(d, s).value;
            Supplies(h, p, m, n, EvalDesc(h, d, m.regs, m.globals), |o.code|, s.alloc.used, o.rc)
    decreases d, 3
  {
    hide Execute;
    AnyRegisterOk(d, s);
    if d.Local? {
      n := 0;
    } else {
      n := DischargeRuns(h, p, d, AllocateNew, s, m);
      DischargePlaced(d, AllocateNew, s);
      var e := Discharge(d, AllocateNew, s).value;
      assert s.alloc.used - {e.reg} == s.alloc.used;
    }
  }

  lemma {:induction false} AnyOperandRuns(h: Host, p: Program, d: Desc, s: State, m: Machine) returns (n: nat)
    requires Ok(s.alloc) && ReadsOnly(d, s.alloc.used) && AnyOperand(d, s).Some?
    requires var o := AnyOperand(d, s).value; Fits(p, m, o.code, o.state)
    ensures var o := AnyOperand(d, s).value;
            Supplies(h, p, m, n, EvalDesc(h, d, m.regs, m.globals), |o.code|, s.alloc.used, o.rc)
    decreases d, 4
  {
    hide Execute;
    AnyOperandOk(d, s);
    if d.Const? {
      var o := AnyOperand(d, s).value;
      if o.temp.Some? {
        n := AnyRegisterRuns(h, p, d, s.(constants := GetConstant(s.constants, d.v).value.1), m);
      } else {
        n := 0;
      }
    } else {
      n := AnyRegisterRuns(h, p, d, s, m);
    }
  }

  /** Both operands of a binary operator are readable once their code has run: evaluating the right
      one does not disturb the left one. */
  lemma {:induction false} OperandsRun(h: Host, p: Program, d: Desc, s: State, m: Machine) returns (n: nat)
    requires d.SimpleDesc? || d.ComparisonDesc?
    requires Ok(s.alloc) && ReadsOnly(d, s.alloc.used) && Operands(d, s).Some?
    requires var o := Operands(d, s).value; Fits(p, m, o.code, o.state)
    ensures var o := Operands(d, s).value;
            var l, r := EvalDesc(h, d.left, m.regs, m.globals), EvalDesc(h, d.right, m.regs, m.globals);
            var m' := Steps(h, p, m, n);
            if l.None? || r.None? then m' == Failed(m.globals)
            else m'.Running? && m'.pc == m.pc + |o.code| && m'.globals == m.globals
                 && Readable(p, m'.regs, o.left) && Read(p, m'.regs, o.left) == l.value
                 && Readable(p, m'.regs, o.right) && Read(p, m'.regs, o.right) == r.value
                 && Same(s.alloc.used, m.regs, m'.regs)
    decreases d, 0
  {
    hide Steps, AnyOperand;
    OperandsOk(d, s);
    var l := AnyOperand(d.left, s).value;
    var r := AnyOperand(d.right, l.state).value;
    ReadsMore(d.right, s.alloc.used, l.state.alloc.used);
    CodeAtSplit(p, m.pc, l.code, r.code);
    n := AnyOperandRuns(h, p, d.left, s, m);
    if EvalDesc(h, d.left, m.regs, m.globals).Some? {
      var m1 := Steps(h, p, m, n);
      EvalSame(h, d.right, s.alloc.used, m.regs, m1.regs, m.globals);
      var n2 := AnyOperandRuns(h, p, d.right, l.state, m1);
      StepsCompose(h, p, m, n, n2);
      n := n + n2;
    }
  }

  /** The four operations after a comparison's operands: compare, jump, load false, load true. */
  lemma ComparisonRuns(h: Host, p: Program, op: ComparisonOp, left: RC, right: RC, reg: nat, used: set<nat>, m: Machine)
    returns (n: nat)
    requires m.Running? && CodeAt(p, m.pc, ComparisonTail(op, left, right, reg))
    requires Readable(p, m.regs, left) && Readable(p, m.regs, right) && reg < |m.regs|
    ensures Yields(h, p, m, n, AsBoolean(Compare(h, op, Read(p, m.regs, left), Read(p, m.regs, right))), 4, used, reg)
  {
    hide Steps, ComparisonOperation, Compare, Yields;
    var tail := ComparisonTail(op, left, right, reg);
    assert p.code[m.pc + 0] == tail[0] && p.code[m.pc + 1] == tail[1];
    assert p.code[m.pc + 2] == tail[2] && p.code[m.pc + 3] == tail[3];
    ComparisonStep(h, p, op, left, right, m.pc + 1, m.regs, m.globals, false);
    n := TailRuns(h, p, Compare(h, op, Read(p, m.regs, left), Read(p, m.regs, right)), reg, used, m);
  }

  lemma TailRuns(h: Host, p: Program, c: Option<bool>, reg: nat, used: set<nat>, m: Machine) returns (n: nat)
    requires m.Running? && m.pc + 3 < |p.code| && reg < |m.regs|
    requires Execute(h, p, p.code[m.pc], m.pc + 1, m.regs, m.globals) == SkipIf(c, false, m.pc + 1, m.regs, m.globals)
    requires p.code[m.pc + 1] == NoClose(1)
    requires p.code[m.pc + 2] == LoadBool(reg, false, true) && p.code[m.pc + 3] == LoadBool(reg, true, false)
    ensures Yields(h, p, m, n, AsBoolean(c), 4, used, reg)
  {
    hide Steps;
    var m1 := Step(h, p, m);
    assert m1 == SkipIf(c, false, m.pc + 1, m.regs, m.globals);
    if c.None? {
      n := 1;
      OneStep(h, p, m);
    } else if c.value {
      n := 3;
      ThreeSteps(h, p, m);
      assert Step(h, p, m1) == Running(m.pc + 3, m.regs, m.globals);
      assert Step(h, p, Step(h, p, m1)) == Running(m.pc + 4, m.regs[reg := Boolean(true)], m.globals);
    } else {
      n := 2;
      TwoSteps(h, p, m);
      assert Step(h, p, m1) == Running(m.pc + 4, m.regs[reg := Boolean(false)], m.globals);
    }
  }

  /** However a comparison is lowered, its operation skips when the comparison equals `skipIf`. */
  lemma ComparisonStep(h: Host, p: Program, op: ComparisonOp, left: RC, right: RC, pc: nat, regs: seq<Value>, g: Globals, skipIf: bool)
    requires Readable(p, regs, left) && Readable(p, regs, right)
    ensures Execute(h, p, ComparisonOperation(op, left, right, skipIf), pc, regs, g)
            == SkipIf(Compare(h, op, Read(p, regs, left), Read(p, regs, right)), skipIf, pc, regs, g)
  {
    hide IsEqual, Values.Less, LessOrEqual, Read, Readable;
    match op {
      case Equal =>
      case NotEqual =>
      case LessThan =>
      case LessEqual =>
      case GreaterThan =>
      case GreaterEqual =>
    }
  }

  /** The test and jump of `and`/`or`: go on to the right operand, or jump over it with the left
      operand's value in the destination. */
  lemma ShortCircuitTestRuns(h: Host, p: Program, op: ShortCircuitOp, source: nat, reg: nat, skip: nat, m: Machine)
    requires m.Running? && CodeAt(p, m.pc, ShortCircuitTest(op, source, reg, skip))
    requires source < |m.regs| && reg < |m.regs|
    ensures if ToBool(m.regs[source]) == op.And?
            then Steps(h, p, m, 1) == Running(m.pc + 2, m.regs, m.globals)
            else Steps(h, p, m, 2) == Running(m.pc + 2 + skip, m.regs[reg := m.regs[source]], m.globals)
  {
    var test := ShortCircuitTest(op, source, reg, skip);
    assert p.code[m.pc + 0] == test[0] && p.code[m.pc + 1] == test[1];
    TwoSteps(h, p, m);
    assert source == reg ==> m.regs[reg := m.regs[source]] == m.regs;
  }

  /** The three pieces of code of `and`/`or`. */
  ghost predicate ShortCircuitPieces(p: Program, d: Desc, s: State, m: Machine, e: Emitted, l: Operand, s2: State, r: Emitted)
    requires d.ShortCircuitDesc?
  {
    && AnyRegister(d.left, s) == Some(l)
    && OperandOk(s, d.left, l)
    && l.rc.Register?
    && Fits(p, m, l.code, l.state)
    && Discharge(d.right, ToRegister(e.reg), s2) == Some(r)
    && Ok(s2.alloc) && e.reg in s2.alloc.used && s.alloc.used <= s2.alloc.used
    && ReadsOnly(d.right, s2.alloc.used)
    && CodeAt(p, m.pc + |l.code|, ShortCircuitTest(d.lop, l.rc.r, e.reg, |r.code|))
    && CodeAt(p, m.pc + |l.code| + 2, r.code)
    && r.state == e.state && e.reg < e.state.alloc.size
    && |e.code| == |l.code| + 2 + |r.code|
  }

  lemma ShortCircuitFits(p: Program, d: Desc, dest: Destination, s: State, m: Machine) returns (l: Operand, s2: State, r: Emitted)
    requires d.ShortCircuitDesc?
    requires DestinationOk(s, dest) && ReadsOnly(d, s.alloc.used) && Discharge(d, dest, s).Some?
    requires var e := Discharge(d, dest, s).value; Fits(p, m, e.code, e.state)
    ensures ShortCircuitPieces(p, d, s, m, Discharge(d, dest, s).value, l, s2, r)
  {
    hide CodeAt, IsTop;
    l := AnyRegister(d.left, s).value;
    AnyRegisterOk(d.left, s);
    FreeTempOk(s, d.left, l);
    var s1 := FreeTemp(l.state, l.temp);
    NewDestinationPlaced(s1, dest);
    var reg := NewDestination(s1, dest).value.0;
    s2 := NewDestination(s1, dest).value.1;
    ReadsMore(d.right, s.alloc.used, s2.alloc.used);
    DischargePlaced(d.right, ToRegister(reg), s2);
    r := Discharge(d.right, ToRegister(reg), s2).value;
    var test := ShortCircuitTest(d.lop, l.rc.r, reg, |r.code|);
    CodeAtSplit(p, m.pc, l.code + test, r.code);
    CodeAtSplit(p, m.pc, l.code, test);
  }

  lemma {:induction false} ShortCircuitRuns(h: Host, p: Program, d: Desc, dest: Destination, s: State, m: Machine) returns (n: nat)
    requires d.ShortCircuitDesc?
    requires DestinationOk(s, dest) && ReadsOnly(d, s.alloc.used) && Discharge(d, dest, s).Some?
    requires var e := Discharge(d, dest, s).value; Fits(p, m, e.code, e.state)
    ensures var e := Discharge(d, dest, s).value;
            Yields(h, p, m, n, EvalDesc(h, d, m.regs, m.globals), |e.code|, s.alloc.used, e.reg)
    decreases d, 1
  {
    hide Steps, CodeAt, Execute, ShortCircuitTest, Discharge, AnyRegister, IsTop;
    var e := Discharge(d, dest, s).value;
    var l, s2, r := ShortCircuitFits(p, d, dest, s, m);
    n := AnyRegisterRuns(h, p, d.left, s, m);
    var lv := EvalDesc(h, d.left, m.regs, m.globals);
    if lv.Some? {
      var m1 := Steps(h, p, m, n);
      ShortCircuitTestRuns(h, p, d.lop, l.rc.r, e.reg, |r.code|, m1);
      if ToBool(lv.value) == d.lop.And? {
        StepsCompose(h, p, m, n, 1);
        n := RightOperandRuns(h, p, d, e.reg, s, s2, m, n + 1);
      } else {
        StepsCompose(h, p, m, n, 2);
        n := n + 2;
      }
    }
  }

  /** The right operand of `and`/`or`, run after the left operand and its test. */
  lemma {:induction false} RightOperandRuns(h: Host, p: Program, d: Desc, reg: nat, s: State, s2: State, m: Machine, n1: nat)
    returns (n: nat)
    requires d.ShortCircuitDesc? && m.Running?
    requires Ok(s2.alloc) && reg in s2.alloc.used && s.alloc.used <= s2.alloc.used
    requires ReadsOnly(d, s.alloc.used) && ReadsOnly(d.right, s2.alloc.used)
    requires Discharge(d.right, ToRegister(reg), s2).Some?
    requires var m1 := Steps(h, p, m, n1);
             var r := Discharge(d.right, ToRegister(reg), s2).value;
             Fits(p, m1, r.code, r.state) && m.pc <= m1.pc && m1.globals == m.globals && Same(s.alloc.used, m.regs, m1.regs)
    ensures var r := Discharge(d.right, ToRegister(reg), s2).value;
            Yields(h, p, m, n, EvalDesc(h, d.right, m.regs, m.globals),
                   Steps(h, p, m, n1).pc + |r.code| - m.pc, s.alloc.used, reg)
    decreases d, 0
  {
    hide Steps, Execute;
    var m1 := Steps(h, p, m, n1);
    EvalSame(h, d.right, s.alloc.used, m.regs, m1.regs, m.globals);
    var n2 := DischargeRuns(h, p, d.right, ToRegister(reg), s2, m1);
    n := n1 + n2;
    StepsCompose(h, p, m, n1, n2);
  }

  lemma GlobalRuns(h: Host, p: Program, name: Name, dest: Destination, s: State, m: Machine) returns (n: nat)
    requires DestinationOk(s, dest) && DischargeGlobal(name, dest, s).Some?
    requires var e := DischargeGlobal(name, dest, s).value; Fits(p, m, e.code, e.state)
    ensures var e := DischargeGlobal(name, dest, s).value;
            Yields(h, p, m, n, Some(GetGlobal(m.globals, name)), |e.code|, s.alloc.used, e.reg)
  {
    hide Steps, IsTop, Ok;
    var e := DischargeGlobal(name, dest, s).value;
    var k := ConstantKey(name, s).value;
    ConstantKeyOk(name, s);
    FreeTempOk(s, Const(String(name)), k);
    NewDestinationPlaced(FreeTemp(k.state, k.temp), dest);
    CodeAtSplit(p, m.pc, k.code, [GetUpTable(e.reg, 0, k.rc)]);
    n := ConstantKeyRuns(h, p, name, s, m);
    AfterCode(p, m.pc, k.code, GetUpTable(e.reg, 0, k.rc));
    ThenStore(h, p, m, n, Some(GetGlobal(m.globals, name)), s.alloc.used, e.reg);
    n := n + 1;
  }

  lemma UnaryShape(d: Desc, dest: Destination, s: State)
    requires d.UnaryDesc?
    requires DestinationOk(s, dest) && ReadsOnly(d, s.alloc.used) && Discharge(d, dest, s).Some?
    ensures var e := Discharge(d, dest, s).value;
            && AnyRegister(d.operand, s).Some?
            && var o := AnyRegister(d.operand, s).value;
            && OperandOk(s, d.operand, o) && o.rc.Register?
            && e.code == o.code + [UnaryOperation(d.uop, e.reg, o.rc.r)]
            && Grown(o.state, e.state) && e.reg < e.state.alloc.size
  {
    var o := AnyRegister(d.operand, s).value;
    AnyRegisterOk(d.operand, s);
    FreeTempOk(s, d.operand, o);
    NewDestinationPlaced(FreeTemp(o.state, o.temp), dest);
  }

  lemma SimpleShape(d: Desc, dest: Destination, s: State)
    requires d.SimpleDesc?
    requires DestinationOk(s, dest) && ReadsOnly(d, s.alloc.used) && Discharge(d, dest, s).Some?
    ensures var e := Discharge(d, dest, s).value;
            && Operands(d, s).Some?
            && var o := Operands(d, s).value;
            && e.code == o.code + [Arithmetic(d.sop, e.reg, o.left, o.right)]
            && Grown(o.state, e.state) && e.reg < e.state.alloc.size
  {
    OperandsOk(d, s);
    NewDestinationPlaced(Operands(d, s).value.state, dest);
  }

  lemma ComparisonShape(d: Desc, dest: Destination, s: State)
    requires d.ComparisonDesc?
    requires DestinationOk(s, dest) && ReadsOnly(d, s.alloc.used) && Discharge(d, dest, s).Some?
    ensures var e := Discharge(d, dest, s).value;
            && Operands(d, s).Some?
            && var o := Operands(d, s).value;
            && e.code == o.code + ComparisonTail(d.cop, o.left, o.right, e.reg)
            && Grown(o.state, e.state) && e.reg < e.state.alloc.size
  {
    OperandsOk(d, s);
    NewDestinationPlaced(Operands(d, s).value.state, dest);
  }

  lemma {:induction false} UnaryRuns(h: Host, p: Program, d: Desc, dest: Destination, s: State, m: Machine) returns (n: nat)
    requires d.UnaryDesc?
    requires DestinationOk(s, dest) && ReadsOnly(d, s.alloc.used) && Discharge(d, dest, s).Some?
    requires var e := Discharge(d, dest, s).value; Fits(p, m, e.code, e.state)
    ensures var e := Discharge(d, dest, s).value;
            Yields(h, p, m, n, EvalDesc(h, d, m.regs, m.globals), |e.code|, s.alloc.used, e.reg)
    decreases d, 1
  {
    hide Steps, Discharge, AnyRegister, IsTop;
    UnaryShape(d, dest, s);
    var e := Discharge(d, dest, s).value;
    var o := AnyRegister(d.operand, s).value;
    CodeAtSplit(p, m.pc, o.code, [UnaryOperation(d.uop, e.reg, o.rc.r)]);
    n := AnyRegisterRuns(h, p, d.operand, s, m);
    if EvalDesc(h, d.operand, m.regs, m.globals).Some? {
      AfterCode(p, m.pc, o.code, UnaryOperation(d.uop, e.reg, o.rc.r));
      ThenStore(h, p, m, n, EvalDesc(h, d, m.regs, m.globals), s.alloc.used, e.reg);
      n := n + 1;
    }
  }

  lemma ArithmeticStep(h: Host, p: Program, op: SimpleBinOp, dest: nat, left: RC, right: RC, pc: nat, regs: seq<Value>, g: Globals)
    requires Readable(p, regs, left) && Readable(p, regs, right)
    ensures Execute(h, p, Arithmetic(op, dest, left, right), pc, regs, g)
            == Store(Binary(h, op, Read(p, regs, left), Read(p, regs, right)), dest, pc, regs, g)
  {
  }

  lemma {:induction false} SimpleRuns(h: Host, p: Program, d: Desc, dest: Destination, s: State, m: Machine) returns (n: nat)
    requires d.SimpleDesc?
    requires DestinationOk(s, dest) && ReadsOnly(d, s.alloc.used) && Discharge(d, dest, s).Some?
    requires var e := Discharge(d, dest, s).value; Fits(p, m, e.code, e.state)
    ensures var e := Discharge(d, dest, s).value;
            Yields(h, p, m, n, EvalDesc(h, d, m.regs, m.globals), |e.code|, s.alloc.used, e.reg)
    decreases d, 1
  {
    hide Steps, Execute, Binary, Store, Discharge, Operands, IsTop;
    SimpleShape(d, dest, s);
    var e, o := Discharge(d, dest, s).value, Operands(d, s).value;
    CodeAtSplit(p, m.pc, o.code, [Arithmetic(d.sop, e.reg, o.left, o.right)]);
    n := OperandsRun(h, p, d, s, m);
    if EvalDesc(h, d.left, m.regs, m.globals).Some? && EvalDesc(h, d.right, m.regs, m.globals).Some? {
      AfterCode(p, m.pc, o.code, Arithmetic(d.sop, e.reg, o.left, o.right));
      var m1 := Steps(h, p, m, n);
      ArithmeticStep(h, p, d.sop, e.reg, o.left, o.right, m1.pc + 1, m1.regs, m1.globals);
      ThenStore(h, p, m, n, EvalDesc(h, d, m.regs, m.globals), s.alloc.used, e.reg);
      n := n + 1;
    }
  }

  lemma {:induction false} ComparisonDescRuns(h: Host, p: Program, d: Desc, dest: Destination, s: State, m: Machine) returns (n: nat)
    requires d.ComparisonDesc?
    requires DestinationOk(s, dest) && ReadsOnly(d, s.alloc.used) && Discharge(d, dest, s).Some?
    requires var e := Discharge(d, dest, s).value; Fits(p, m, e.code, e.state)
    ensures var e := Discharge(d, dest, s).value;
            Yields(h, p, m, n, EvalDesc(h, d, m.regs, m.globals), |e.code|, s.alloc.used, e.reg)
    decreases d, 1
  {
    hide Steps, Execute, Discharge, Operands, IsTop;
    ComparisonShape(d, dest, s);
    var e, o := Discharge(d, dest, s).value, Operands(d, s).value;
    CodeAtSplit(p, m.pc, o.code, ComparisonTail(d.cop, o.left, o.right, e.reg));
    n := OperandsRun(h, p, d, s, m);
    if EvalDesc(h, d.left, m.regs, m.globals).Some? && EvalDesc(h, d.right, m.regs, m.globals).Some? {
      var n2 := ComparisonRuns(h, p, d.cop, o.left, o.right, e.reg, s.alloc.used, Steps(h, p, m, n));
      StepsCompose(h, p, m, n, n2);
      n := n + n2;
    }
  }

  /** The code emitted by `expr_discharge` leaves the value of the expression in the destination and
      every other allocated register unchanged, and it fails exactly when evaluation fails. The
      destination may be a register the expression reads. */
  lemma {:induction false} DischargeRuns(h: Host, p: Program, d: Desc, dest: Destination, s: State, m: Machine) returns (n: nat)
    requires DestinationOk(s, dest) && ReadsOnly(d, s.alloc.used) && Discharge(d, dest, s).Some?
    requires var e := Discharge(d, dest, s).value; Fits(p, m, e.code, e.state)
    ensures var e := Discharge(d, dest, s).value;
            Yields(h, p, m, n, EvalDesc(h, d, m.regs, m.globals), |e.code|, s.alloc.used, e.reg)
    decreases d, 2
  {
    match d
    case Local(source) =>
      n := 1;
      var e := Discharge(d, dest, s).value;
      DischargePlaced(d, dest, s);
      assert p.code[m.pc + 0] == e.code[0];
      ThenStore(h, p, m, 0, Some(m.regs[source]), s.alloc.used, e.reg);
    case Const(v) =>
      n := 1;
      ConstRuns(h, p, v, dest, s, m);
    case Global(name) => n := GlobalRuns(h, p, name, dest, s, m);
    case UnaryDesc(_, _) => n := UnaryRuns(h, p, d, dest, s, m);
    case SimpleDesc(_, _, _) => n := SimpleRuns(h, p, d, dest, s, m);
    case ComparisonDesc(_, _, _) => n := ComparisonDescRuns(h, p, d, dest, s, m);
    case ShortCircuitDesc(_, _, _) => n := ShortCircuitRuns(h, p, d, dest, s, m);
  }

  lemma AfterCode(p: Program, pc: nat, code: seq<Operation>, op: Operation)
    requires CodeAt(p, pc, code + [op])
    ensures pc + |code| < |p.code| && p.code[pc + |code|] == op
  {
    assert (code + [op])[|code|] == op;
  }
}
