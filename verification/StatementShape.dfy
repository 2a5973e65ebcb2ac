/** Which registers a statement's code leaves allocated. */
module StatementShape {
  import opened Values
  import opened Ast
  import opened AllocatorSpec
  import opened Codegen
  import opened StatementCodegen
  import opened Semantics
  import opened ExprCorrect
  import opened DescribeCorrect

  ghost function RegistersOf(locals: seq<LocalVar>): (r: set<nat>)
    ensures forall i :: 0 <= i < |locals| ==> locals[i].reg in r
  {
    set i | 0 <= i < |locals| :: locals[i].reg
  }

  /** The variables in scope are in allocated registers, in order of declaration. */
  ghost predicate LocalsOk(locals: seq<LocalVar>, s: State) {
    && Ok(s.alloc)
    && LocalsIn(locals, s.alloc.used)
    && Increasing(locals)
  }

  ghost predicate Increasing(locals: seq<LocalVar>) {
    forall i, j :: 0 <= i < j < |locals| ==> locals[i].reg < locals[j].reg
  }

  /** From `locals` and `s` to `locals'` and `s'`, variables are only added, each in a new register,
      and no other register stays allocated. */
  ghost predicate Extends(locals: seq<LocalVar>, s: State, locals': seq<LocalVar>, s': State) {
    && Grown(s, s') && LocalsOk(locals', s') && locals <= locals'
    && s'.alloc.used == s.alloc.used + RegistersOf(locals'[|locals|..])
    && s.alloc.used !! RegistersOf(locals'[|locals|..])
  }

  ghost predicate SameRegisters(s: State, s': State) {
    Grown(s, s') && s'.alloc.used == s.alloc.used
  }

  lemma SameExtends(locals: seq<LocalVar>, s: State, s': State)
    requires LocalsOk(locals, s) && SameRegisters(s, s')
    ensures Extends(locals, s, locals, s')
  {
  }

  lemma ExtendsTwice(l0: seq<LocalVar>, s0: State, l1: seq<LocalVar>, s1: State, l2: seq<LocalVar>, s2: State)
    requires Extends(l0, s0, l1, s1) && Extends(l1, s1, l2, s2)
    ensures Extends(l0, s0, l2, s2)
  {
    assert l2[|l0|..] == l1[|l0|..] + l2[|l1|..];
    RegistersOfConcat(l1[|l0|..], l2[|l1|..]);
  }

  lemma RegistersOfConcat(a: seq<LocalVar>, b: seq<LocalVar>)
    ensures RegistersOf(a + b) == RegistersOf(a) + RegistersOf(b)
  {
    forall i | 0 <= i < |a| ensures a[i].reg in RegistersOf(a + b) { assert (a + b)[i] == a[i]; }
    forall i | 0 <= i < |b| ensures b[i].reg in RegistersOf(a + b) { assert (a + b)[|a| + i] == b[i]; }
  }

  /** Leaving a block gives back exactly the registers of the variables declared in it. */
  lemma ExitedOk(locals: seq<LocalVar>, s: State, locals': seq<LocalVar>, s': State)
    requires LocalsOk(locals, s) && Extends(locals, s, locals', s')
    ensures SameRegisters(s, Exited(s, s'))
    ensures Exited(s, s').alloc.used == s'.alloc.used - RegistersOf(locals'[|locals|..])
  {
    FewerOk(s'.alloc, s.alloc.used);
  }

  lemma PopToOk(s: State, s': State)
    requires Ok(s.alloc) && Grown(s, s') && s.alloc.used <= s'.alloc.used
    requires forall x :: x in s'.alloc.used && x !in s.alloc.used ==> x >= Top(s.alloc.used)
    ensures SameRegisters(s, s'.(alloc := PopTo(s'.alloc, Top(s.alloc.used))))
  {
    assert PopTo(s'.alloc, Top(s.alloc.used)).used == s.alloc.used;
    FewerOk(s'.alloc, s.alloc.used);
  }

  lemma DescribeReads(h: Host, locals: seq<LocalVar>, e: Expression, s: State)
    requires LocalsOk(locals, s) && Describe(h, locals, e).Some?
    ensures ReadsOnly(Describe(h, locals, e).value, s.alloc.used)
  {
    var regs := seq(REGISTERS, _ => Nil);
    var env := seq(|locals|, i requires 0 <= i < |locals| => Binding(locals[i].name, Nil));
    DescribeMeans(h, e, locals, env, s.alloc.used, regs, map[]);
  }

  lemma TestCodeOk(d: Desc, skipIf: bool, s: State)
    requires Ok(s.alloc) && ReadsOnly(d, s.alloc.used) && TestCode(d, skipIf, s).Some?
    ensures SameRegisters(s, TestCode(d, skipIf, s).value.state)
  {
    hide AnyRegister, Operands, IsTop;
    match d
    case Const(_) =>
    case ComparisonDesc(_, _, _) => OperandsOk(d, s);
    case UnaryDesc(Not, operand) =>
      if operand.ComparisonDesc? {
        OperandsOk(operand, s);
      } else {
        RegisterTestOk(operand, !skipIf, s);
      }
    case _ => RegisterTestOk(d, skipIf, s);
  }

  lemma RegisterTestOk(d: Desc, skipIf: bool, s: State)
    requires Ok(s.alloc) && ReadsOnly(d, s.alloc.used) && RegisterTest(d, skipIf, s).Some?
    ensures SameRegisters(s, RegisterTest(d, skipIf, s).value.state)
  {
    AnyRegisterOk(d, s);
    FreeTempOk(s, d, AnyRegister(d, s).value);
  }

  lemma ConditionOk(h: Host, locals: seq<LocalVar>, e: Expression, s: State)
    requires LocalsOk(locals, s) && Condition(h, locals, e, s).Some?
    ensures SameRegisters(s, Condition(h, locals, e, s).value.state)
  {
    DescribeReads(h, locals, e, s);
    TestCodeOk(Describe(h, locals, e).value, true, s);
  }

  /** `count` new registers on the stack top. */
  ghost predicate Pushed(s: State, count: nat, s': State) {
    && Grown(s, s')
    && s'.alloc.used == s.alloc.used + Range(Top(s.alloc.used), count)
    && Top(s.alloc.used) + count <= s'.alloc.size
    && Top(s'.alloc.used) == Top(s.alloc.used) + count
  }

  lemma PushedOne(s: State, reg: nat, s': State)
    requires Ok(s.alloc) && Placed(s, PushNew, reg, s')
    ensures Pushed(s, 1, s')
  {
    assert Range(reg, 1) == {reg};
    TopIs(s'.alloc.used, reg + 1);
  }

  lemma PushedMore(s: State, a: nat, s1: State, b: nat, s2: State)
    requires Pushed(s, a, s1) && Pushed(s1, b, s2)
    ensures Pushed(s, a + b, s2)
  {
    var t := Top(s.alloc.used);
    assert Range(t, a + b) == Range(t, a) + Range(t + a, b);
  }

  lemma PushExpressionOk(h: Host, locals: seq<LocalVar>, e: Expression, s: State)
    requires LocalsOk(locals, s) && PushExpression(h, locals, e, s).Some?
    ensures var r := PushExpression(h, locals, e, s).value;
            Placed(s, PushNew, r.reg, r.state) && Pushed(s, 1, r.state) && LocalsOk(locals, r.state)
  {
    DescribeReads(h, locals, e, s);
    var d := Describe(h, locals, e).value;
    DischargePlaced(d, PushNew, s);
    PushedOne(s, Discharge(d, PushNew, s).value.reg, Discharge(d, PushNew, s).value.state);
  }

  lemma {:induction false} PushAllOk(h: Host, locals: seq<LocalVar>, es: seq<Expression>, s: State)
    requires LocalsOk(locals, s) && PushAll(h, locals, es, s).Some?
    ensures Pushed(s, |es|, PushAll(h, locals, es, s).value.state)
    decreases es
  {
    if es != [] {
      hide PushExpression;
      PushExpressionOk(h, locals, es[0], s);
      var e := PushExpression(h, locals, es[0], s).value;
      PushAllOk(h, locals, es[1..], e.state);
      PushedMore(s, 1, e.state, |es| - 1, PushAll(h, locals, es[1..], e.state).value.state);
    }
  }

  lemma PushNilsOk(count: nat, s: State)
    requires Ok(s.alloc) && PushNils(count, s).Some?
    ensures var e := PushNils(count, s).value;
            count > 0 && Pushed(s, count, e.state) && e.reg == Top(s.alloc.used)
  {
    PushOk(s.alloc, count);
  }

  lemma PushCountOk(d: Desc, count: nat, s: State)
    requires Ok(s.alloc) && ReadsOnly(d, s.alloc.used) && count > 0 && PushCount(d, count, s).Some?
    ensures var e := PushCount(d, count, s).value;
            Pushed(s, count, e.state) && e.reg == Top(s.alloc.used)
  {
    hide Discharge, IsTop;
    if d == Const(Nil) {
      PushNilsOk(count, s);
    } else {
      var e := Discharge(d, PushNew, s).value;
      DischargePlaced(d, PushNew, s);
      PushedOne(s, e.reg, e.state);
      if count > 1 {
        PushNilsOk(count - 1, e.state);
        PushedMore(s, 1, e.state, count - 1, PushNils(count - 1, e.state).value.state);
      }
    }
  }

  lemma {:induction false} RegistersOfDeclared(names: seq<Name>, reg: nat, n: nat)
    requires n <= |names|
    ensures RegistersOf(DeclareLocals(names, reg)[..n]) == Range(reg, n)
  {
    if n > 0 {
      var d := DeclareLocals(names, reg);
      RegistersOfDeclared(names, reg, n - 1);
      assert d[..n] == d[..n - 1] + [d[n - 1]];
      RegistersOfConcat(d[..n - 1], [d[n - 1]]);
      assert RegistersOf([d[n - 1]]) == {reg + n - 1};
    }
  }

  /** Variables declared in freshly pushed registers. */
  lemma DeclareExtends(locals: seq<LocalVar>, s: State, names: seq<Name>, s': State)
    requires LocalsOk(locals, s) && Pushed(s, |names|, s')
    ensures Extends(locals, s, locals + DeclareLocals(names, Top(s.alloc.used)), s')
  {
    var t := Top(s.alloc.used);
    var locals' := locals + DeclareLocals(names, t);
    assert locals'[|locals|..] == DeclareLocals(names, t);
    assert DeclareLocals(names, t)[..|names|] == DeclareLocals(names, t);
    RegistersOfDeclared(names, t, |names|);
    forall i | 0 <= i < |locals'| ensures locals'[i].reg in s'.alloc.used {
      if i >= |locals| {
        assert locals'[i].reg == t + (i - |locals|);
      }
    }
  }

  lemma LocalCodeOk(h: Host, names: seq<Name>, value: Option<Expression>, locals: seq<LocalVar>, s: State)
    requires LocalsOk(locals, s) && LocalCode(h, names, value, locals, s).Some?
    ensures var e := LocalCode(h, names, value, locals, s).value; Extends(locals, s, e.locals, e.state)
  {
    hide PushCount, Describe;
    var d := if value.None? then Const(Nil) else Describe(h, locals, value.value).value;
    if value.Some? {
      DescribeReads(h, locals, value.value, s);
    }
    PushCountOk(d, |names|, s);
    DeclareExtends(locals, s, names, PushCount(d, |names|, s).value.state);
  }

  lemma AssignmentCodeOk(h: Host, target: Name, e: Expression, locals: seq<LocalVar>, s: State)
    requires LocalsOk(locals, s) && AssignmentCode(h, target, e, locals, s).Some?
    ensures SameRegisters(s, AssignmentCode(h, target, e, locals, s).value.state)
  {
    hide PushCount, Describe, ConstantKey, IsTop;
    DescribeReads(h, locals, e, s);
    var d := Describe(h, locals, e).value;
    PushCountOk(d, 1, s);
    var v := PushCount(d, 1, s).value;
    if FindLocal(locals, target).Some? {
      PopToOk(s, v.state);
    } else {
      ConstantKeyOk(target, v.state);
      var k := ConstantKey(target, v.state).value;
      FreeTempOk(v.state, Const(String(target)), k);
      PopToOk(s, FreeTemp(k.state, k.temp));
    }
  }

  lemma ReturnCodeOk(h: Host, es: seq<Expression>, locals: seq<LocalVar>, s: State)
    requires LocalsOk(locals, s) && ReturnCode(h, es, locals, s).Some?
    ensures SameRegisters(s, ReturnCode(h, es, locals, s).value.state)
  {
    PushAllOk(h, locals, es, s);
    PopToOk(s, PushAll(h, locals, es, s).value.state);
  }

  /** The states between the three control values of a `for`. */
  ghost predicate ForControlParts(h: Host, initial: Expression, limit: Expression, locals: seq<LocalVar>, s: State, s3: State)
    requires PushExpression(h, locals, initial, s).Some?
  {
    var i := PushExpression(h, locals, initial, s).value;
    Pushed(s, 1, i.state) && LocalsOk(locals, i.state) && PushExpression(h, locals, limit, i.state).Some?
    && (var l := PushExpression(h, locals, limit, i.state).value;
        Pushed(s, 2, l.state) && LocalsOk(locals, l.state) && Grown(i.state, l.state) && Grown(l.state, s3))
  }

  lemma ForControlOk(h: Host, initial: Expression, limit: Expression, step: Option<Expression>, locals: seq<LocalVar>, s: State)
    requires LocalsOk(locals, s) && ForControl(h, initial, limit, step, locals, s).Some?
    ensures var c := ForControl(h, initial, limit, step, locals, s).value;
            Pushed(s, 3, c.state) && c.reg == Top(s.alloc.used)
            && PushExpression(h, locals, initial, s).Some?
            && ForControlParts(h, initial, limit, locals, s, c.state)
  {
    hide PushExpression, Discharge, IsTop;
    PushExpressionOk(h, locals, initial, s);
    var i := PushExpression(h, locals, initial, s).value;
    PushExpressionOk(h, locals, limit, i.state);
    var l := PushExpression(h, locals, limit, i.state).value;
    PushedMore(s, 1, i.state, 1, l.state);
    if step.None? {
      DischargePlaced(Const(Integer(1)), PushNew, l.state);
      var st := Discharge(Const(Integer(1)), PushNew, l.state).value;
      PushedOne(l.state, st.reg, st.state);
      PushedMore(s, 2, l.state, 1, st.state);
    } else {
      PushExpressionOk(h, locals, step.value, l.state);
      PushedMore(s, 2, l.state, 1, PushExpression(h, locals, step.value, l.state).value.state);
    }
  }

  lemma {:induction false} BlockCodeOk(h: Host, b: Block, locals: seq<LocalVar>, s: State)
    requires LocalsOk(locals, s) && BlockCode(h, b, locals, s).Some?
    ensures SameRegisters(s, BlockCode(h, b, locals, s).value.state)
    decreases b, 1
  {
    OpenBlockCodeOk(h, b, locals, s);
    var o := OpenBlockCode(h, b, locals, s).value;
    ExitedOk(locals, s, o.locals, o.state);
  }

  lemma {:induction false} OpenBlockCodeOk(h: Host, b: Block, locals: seq<LocalVar>, s: State)
    requires LocalsOk(locals, s) && OpenBlockCode(h, b, locals, s).Some?
    ensures var o := OpenBlockCode(h, b, locals, s).value; Extends(locals, s, o.locals, o.state)
    decreases b, 0
  {
    hide StatementsCode, ReturnCode;
    StatementsCodeOk(h, b.statements, locals, s);
    var ss := StatementsCode(h, b.statements, locals, s).value;
    if b.ret.Some? {
      ReturnCodeOk(h, b.ret.value, ss.locals, ss.state);
      SameExtends(ss.locals, ss.state, ReturnCode(h, b.ret.value, ss.locals, ss.state).value.state);
      ExtendsTwice(locals, s, ss.locals, ss.state, ss.locals, ReturnCode(h, b.ret.value, ss.locals, ss.state).value.state);
    }
  }

  lemma {:induction false} StatementsCodeOk(h: Host, ss: seq<Statement>, locals: seq<LocalVar>, s: State)
    requires LocalsOk(locals, s) && StatementsCode(h, ss, locals, s).Some?
    ensures var e := StatementsCode(h, ss, locals, s).value; Extends(locals, s, e.locals, e.state)
    decreases ss, 0
  {
    if ss == [] {
      SameExtends(locals, s, s);
    } else {
      hide StatementCode;
      StatementCodeOk(h, ss[0], locals, s);
      var first := StatementCode(h, ss[0], locals, s).value;
      StatementsCodeOk(h, ss[1..], first.locals, first.state);
      var rest := StatementsCode(h, ss[1..], first.locals, first.state).value;
      ExtendsTwice(locals, s, first.locals, first.state, rest.locals, rest.state);
    }
  }

  /** The registers of a `for` body: the three control registers and the loop variable. */
  lemma ForBodyLocals(locals: seq<LocalVar>, name: Name, s: State, c: State)
    requires LocalsOk(locals, s) && Pushed(s, 3, c) && Push(c.alloc, 1).Some?
    ensures var (r, a) := Push(c.alloc, 1).value;
            r == Top(s.alloc.used) + 3 && Pushed(s, 4, c.(alloc := a)) && Grown(c, c.(alloc := a))
            && LocalsOk(locals + [LocalVar(name, r)], c.(alloc := a))
  {
    PushOk(c.alloc, 1);
    var (r, a) := Push(c.alloc, 1).value;
    assert Pushed(c, 1, c.(alloc := a));
    PushedMore(s, 3, c, 1, c.(alloc := a));
    assert r in a.used by { assert r in Range(r, 1); }
  }

  lemma ForExited(locals: seq<LocalVar>, s: State, s4: State, s': State)
    requires LocalsOk(locals, s) && Pushed(s, 4, s4) && SameRegisters(s4, s')
    ensures SameRegisters(s, Exited(s, s'))
  {
    FewerOk(s'.alloc, s.alloc.used);
  }

  lemma {:induction false} ForStatementOk(h: Host, st: Statement, locals: seq<LocalVar>, s: State)
    requires st.NumericFor? && LocalsOk(locals, s) && StatementCode(h, st, locals, s).Some?
    ensures var e := StatementCode(h, st, locals, s).value; e.locals == locals && SameRegisters(s, e.state)
    decreases st, 1
  {
    hide ForControl, BlockCode, ForCode, IsTop;
    ForControlOk(h, st.initial, st.limit, st.step, locals, s);
    var c := ForControl(h, st.initial, st.limit, st.step, locals, s).value;
    ForBodyLocals(locals, st.name, s, c.state);
    var v := Push(c.state.alloc, 1).value;
    var s4 := c.state.(alloc := v.1);
    var inner := locals + [LocalVar(st.name, v.0)];
    BlockCodeOk(h, st.fbody, inner, s4);
    var b := BlockCode(h, st.fbody, inner, s4).value;
    ForExited(locals, s, s4, b.state);
    ForCodeState(c.code, c.reg, Code(b.items, Exited(s, b.state)));
  }

  lemma ForCodeState(control: seq<M.Operation>, base: nat, body: Code)
    requires ForCode(control, base, body).Some?
    ensures ForCode(control, base, body).value.state == body.state
  {
  }

  lemma {:induction false} RepeatStatementOk(h: Host, st: Statement, locals: seq<LocalVar>, s: State)
    requires st.Repeat? && LocalsOk(locals, s) && StatementCode(h, st, locals, s).Some?
    ensures var e := StatementCode(h, st, locals, s).value; e.locals == locals && SameRegisters(s, e.state)
    decreases st, 1
  {
    hide OpenBlockCode, Condition, IsTop;
    OpenBlockCodeOk(h, st.rbody, locals, s);
    var b := OpenBlockCode(h, st.rbody, locals, s).value;
    ConditionOk(h, b.locals, st.until, b.state);
    var t := Condition(h, b.locals, st.until, b.state).value;
    SameExtends(b.locals, b.state, t.state);
    ExtendsTwice(locals, s, b.locals, b.state, b.locals, t.state);
    ExitedOk(locals, s, b.locals, t.state);
  }

  lemma {:induction false} StatementCodeOk(h: Host, st: Statement, locals: seq<LocalVar>, s: State)
    requires LocalsOk(locals, s) && StatementCode(h, st, locals, s).Some?
    ensures var e := StatementCode(h, st, locals, s).value; Extends(locals, s, e.locals, e.state)
    decreases st, 2
  {
    var e := StatementCode(h, st, locals, s).value;
    hide BlockCode, ChainCode, Condition, LocalCode, AssignmentCode, IsTop;
    match st
    case LocalStatement(names, value) => LocalCodeOk(h, names, value, locals, s);
    case Assignment(target, x) =>
      AssignmentCodeOk(h, target, x, locals, s);
      SameExtends(locals, s, e.state);
    case Do(b) =>
      BlockCodeOk(h, b, locals, s);
      SameExtends(locals, s, e.state);
    case If(chain) =>
      ChainCodeOk(h, chain, locals, s);
      SameExtends(locals, s, e.state);
    case While(condition, body) =>
      ConditionOk(h, locals, condition, s);
      BlockCodeOk(h, body, locals, Condition(h, locals, condition, s).value.state);
      SameExtends(locals, s, e.state);
    case Repeat(_, _) =>
      RepeatStatementOk(h, st, locals, s);
      SameExtends(locals, s, e.state);
    case NumericFor(_, _, _, _, _) =>
      ForStatementOk(h, st, locals, s);
      SameExtends(locals, s, e.state);
    case Break => SameExtends(locals, s, e.state);
  }

  lemma {:induction false} ChainCodeOk(h: Host, chain: IfChain, locals: seq<LocalVar>, s: State)
    requires LocalsOk(locals, s) && ChainCode(h, chain, locals, s).Some?
    ensures SameRegisters(s, ChainCode(h, chain, locals, s).value.state)
    decreases chain, 2
  {
    hide BlockCode, Condition, IsTop;
    match chain
    case EndIf =>
    case Else(block) => BlockCodeOk(h, block, locals, s);
    case Arm(condition, block, rest) =>
      ConditionOk(h, locals, condition, s);
      var t := Condition(h, locals, condition, s).value;
      BlockCodeOk(h, block, locals, t.state);
      var b := BlockCode(h, block, locals, t.state).value;
      ChainCodeOk(h, rest, locals, b.state);
  }
}
