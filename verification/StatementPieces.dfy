/** Running the pieces of a statement's code: conditions, pushed values, assignments. */
module StatementPieces {
  import opened Values
  import opened Ast
  import opened AllocatorSpec
  import opened Codegen
  import opened StatementCodegen
  import opened Machine
  import opened Semantics
  import opened ExprCorrect
  import opened ExprRuns
  import opened DescribeCorrect
  import opened StatementShape

  /** The program has this code at `pc`, with its open jumps patched to the two targets. */
  ghost predicate ItemsAt(p: Program, pc: nat, items: seq<Item>, brk: nat, end: nat) {
    pc + |items| <= |p.code|
    && forall i :: 0 <= i < |items| ==>
         p.code[pc + i] ==
         match items[i]
         case Emit(op) => op
         case Goto(lbl) => NoClose((if lbl.BreakLabel? then brk else end) - (pc + i + 1))
  }

  lemma ItemsSplit(p: Program, pc: nat, a: seq<Item>, b: seq<Item>, brk: nat, end: nat)
    requires ItemsAt(p, pc, a + b, brk, end)
    ensures ItemsAt(p, pc, a, brk, end) && ItemsAt(p, pc + |a|, b, brk, end)
  {
    forall i | 0 <= i < |a| ensures (a + b)[i] == a[i] {}
    forall i | 0 <= i < |b| ensures (a + b)[|a| + i] == b[i] && pc + (|a| + i) == pc + |a| + i {}
  }

  lemma EmittedAt(p: Program, pc: nat, code: seq<Operation>, brk: nat, end: nat)
    requires ItemsAt(p, pc, Emits(code), brk, end)
    ensures CodeAt(p, pc, code)
  {
  }

  /** Patching fixes one of the two targets. */
  lemma PatchedAt(p: Program, pc: nat, items: seq<Item>, lbl: Label, target: nat, brk: nat, end: nat)
    requires ItemsAt(p, pc, Patch(items, lbl, target), brk, end)
    ensures if lbl.BreakLabel? then ItemsAt(p, pc, items, pc + target, end) else ItemsAt(p, pc, items, brk, pc + target)
  {
  }

  /** Registers and constants suffice for code generated up to `after`. */
  ghost predicate Holds(p: Program, m: Machine, after: State) {
    m.Running? && after.constants <= p.constants && after.alloc.size <= |m.regs|
  }

  lemma SameKeepsEnv(locals: seq<LocalVar>, env: Env, used: set<nat>, regs: seq<Value>, regs': seq<Value>)
    requires EnvMatches(locals, env, regs) && LocalsIn(locals, used) && Same(used, regs, regs')
    ensures EnvMatches(locals, env, regs')
  {
  }

  lemma SameTwice(used: set<nat>, more: set<nat>, r0: seq<Value>, r1: seq<Value>, r2: seq<Value>)
    requires Same(used, r0, r1) && Same(more, r1, r2) && used <= more
    ensures Same(used, r0, r2)
  {
  }

  // Conditions.

  /** After `n` steps the machine is behind the code, or one further if the value says so. */
  ghost predicate Tests(h: Host, p: Program, m: Machine, n: nat, v: Option<Value>, skipIf: bool, length: nat, used: set<nat>)
    requires m.Running?
  {
    var m' := Steps(h, p, m, n);
    match v
    case None => m' == Failed(m.globals)
    case Some(x) =>
      var skips := ToBool(x) == skipIf;
      && m'.Running? && m'.pc == m.pc + length + (if skips then 1 else 0) && m'.globals == m.globals
      && Same(used, m.regs, m'.regs)
      && (skips ==> n > 0)
  }

  lemma RegisterTestRuns(h: Host, p: Program, d: Desc, skipIf: bool, s: State, m: Machine) returns (n: nat)
    requires Ok(s.alloc) && ReadsOnly(d, s.alloc.used) && RegisterTest(d, skipIf, s).Some?
    requires var t := RegisterTest(d, skipIf, s).value; Fits(p, m, t.code, t.state)
    ensures Tests(h, p, m, n, EvalDesc(h, d, m.regs, m.globals), skipIf, |RegisterTest(d, skipIf, s).value.code|, s.alloc.used)
  {
    hide Steps, AnyRegister, EvalDesc, IsTop;
    AnyRegisterOk(d, s);
    var o := AnyRegister(d, s).value;
    FreeTempOk(s, d, o);
    CodeAtSplit(p, m.pc, o.code, [Test(o.rc.r, skipIf)]);
    AfterCode(p, m.pc, o.code, Test(o.rc.r, skipIf));
    n := AnyRegisterRuns(h, p, d, s, m);
    if EvalDesc(h, d, m.regs, m.globals).Some? {
      StepsCompose(h, p, m, n, 1);
      OneStep(h, p, Steps(h, p, m, n));
      n := n + 1;
    }
  }

  lemma ComparisonTestRuns(h: Host, p: Program, d: Desc, skipIf: bool, s: State, m: Machine) returns (n: nat)
    requires d.ComparisonDesc? && Ok(s.alloc) && ReadsOnly(d, s.alloc.used) && ComparisonTest(d, skipIf, s).Some?
    requires var t := ComparisonTest(d, skipIf, s).value; Fits(p, m, t.code, t.state)
    ensures Tests(h, p, m, n, EvalDesc(h, d, m.regs, m.globals), skipIf, |ComparisonTest(d, skipIf, s).value.code|, s.alloc.used)
  {
    hide Steps, Operands, ComparisonOperation, Compare, Execute, IsTop;
    OperandsOk(d, s);
    var o := Operands(d, s).value;
    var op := ComparisonOperation(d.cop, o.left, o.right, skipIf);
    CodeAtSplit(p, m.pc, o.code, [op]);
    AfterCode(p, m.pc, o.code, op);
    n := OperandsRun(h, p, d, s, m);
    if EvalDesc(h, d.left, m.regs, m.globals).Some? && EvalDesc(h, d.right, m.regs, m.globals).Some? {
      ComparisonTestEnds(h, p, d.cop, o.left, o.right, skipIf, m, n);
      n := n + 1;
    }
  }

  /** The operation behind the operands. */
  lemma ComparisonTestEnds(h: Host, p: Program, op: ComparisonOp, left: RC, right: RC, skipIf: bool, m: Machine, n: nat)
    requires var m1 := Steps(h, p, m, n);
             m1.Running? && m1.pc < |p.code| && p.code[m1.pc] == ComparisonOperation(op, left, right, skipIf)
             && Readable(p, m1.regs, left) && Readable(p, m1.regs, right)
    ensures var m1 := Steps(h, p, m, n);
            Steps(h, p, m, n + 1)
            == SkipIf(Compare(h, op, Read(p, m1.regs, left), Read(p, m1.regs, right)), skipIf, m1.pc + 1, m1.regs, m1.globals)
  {
    hide Steps, ComparisonOperation, Compare, Execute;
    var m1 := Steps(h, p, m, n);
    ComparisonStep(h, p, op, left, right, m1.pc + 1, m1.regs, m1.globals, skipIf);
    StepsCompose(h, p, m, n, 1);
    OneStep(h, p, m1);
  }

  lemma TestRuns(h: Host, p: Program, d: Desc, skipIf: bool, s: State, m: Machine) returns (n: nat)
    requires Ok(s.alloc) && ReadsOnly(d, s.alloc.used) && TestCode(d, skipIf, s).Some?
    requires var t := TestCode(d, skipIf, s).value; Fits(p, m, t.code, t.state)
    ensures Tests(h, p, m, n, EvalDesc(h, d, m.regs, m.globals), skipIf, |TestCode(d, skipIf, s).value.code|, s.alloc.used)
  {
    hide Steps, RegisterTest, ComparisonTest;
    match d
    case Const(v) =>
      OneStep(h, p, m);
      NoSteps(h, p, m);
      n := if ToBool(v) == skipIf then 1 else 0;
      var t := TestCode(d, skipIf, s).value;
      assert t.code != [] ==> p.code[m.pc + 0] == t.code[0];
    case ComparisonDesc(_, _, _) => n := ComparisonTestRuns(h, p, d, skipIf, s, m);
    case UnaryDesc(op, operand) =>
      if op.Not? && operand.ComparisonDesc? {
        n := ComparisonTestRuns(h, p, operand, !skipIf, s, m);
      } else if op.Not? {
        n := RegisterTestRuns(h, p, operand, !skipIf, s, m);
      } else {
        n := RegisterTestRuns(h, p, d, skipIf, s, m);
      }
    case _ => n := RegisterTestRuns(h, p, d, skipIf, s, m);
  }

  lemma ConditionRuns(h: Host, p: Program, e: Expression, locals: seq<LocalVar>, env: Env, s: State, m: Machine) returns (n: nat)
    requires LocalsOk(locals, s) && Condition(h, locals, e, s).Some?
    requires var t := Condition(h, locals, e, s).value; Fits(p, m, t.code, t.state)
    requires EnvMatches(locals, env, m.regs)
    ensures Tests(h, p, m, n, Eval(h, env, m.globals, e), true, |Condition(h, locals, e, s).value.code|, s.alloc.used)
    ensures Steps(h, p, m, n).Running? ==> EnvMatches(locals, env, Steps(h, p, m, n).regs)
  {
    hide Steps, TestCode, Eval, EvalDesc;
    DescribeMeans(h, e, locals, env, s.alloc.used, m.regs, m.globals);
    n := TestRuns(h, p, Describe(h, locals, e).value, true, s, m);
    if Eval(h, env, m.globals, e).Some? {
      SameKeepsEnv(locals, env, s.alloc.used, m.regs, Steps(h, p, m, n).regs);
    }
  }

  // Values on the register stack.

  lemma PushExpressionRuns(h: Host, p: Program, e: Expression, locals: seq<LocalVar>, env: Env, s: State, m: Machine) returns (n: nat)
    requires LocalsOk(locals, s) && PushExpression(h, locals, e, s).Some?
    requires var r := PushExpression(h, locals, e, s).value; Fits(p, m, r.code, r.state)
    requires EnvMatches(locals, env, m.regs)
    ensures var r := PushExpression(h, locals, e, s).value;
            Yields(h, p, m, n, Eval(h, env, m.globals, e), |r.code|, s.alloc.used, r.reg)
            && r.reg !in s.alloc.used
    ensures Steps(h, p, m, n).Running? ==> EnvMatches(locals, env, Steps(h, p, m, n).regs)
  {
    hide Steps, Discharge, Eval, EvalDesc, IsTop;
    DescribeMeans(h, e, locals, env, s.alloc.used, m.regs, m.globals);
    var d := Describe(h, locals, e).value;
    DischargePlaced(d, PushNew, s);
    n := DischargeRuns(h, p, d, PushNew, s, m);
    var r := Discharge(d, PushNew, s).value;
    assert s.alloc.used - {r.reg} == s.alloc.used;
    if Eval(h, env, m.globals, e).Some? {
      SameKeepsEnv(locals, env, s.alloc.used, m.regs, Steps(h, p, m, n).regs);
    }
  }

  /** All values of a `return` are on the stack top in order. */
  ghost predicate YieldsAll(h: Host, p: Program, m: Machine, n: nat, vs: Option<seq<Value>>, length: nat, used: set<nat>)
    requires m.Running?
  {
    var m' := Steps(h, p, m, n);
    match vs
    case None => m' == Failed(m.globals)
    case Some(xs) =>
      && m'.Running? && m'.pc == m.pc + length && m'.globals == m.globals
      && Top(used) + |xs| <= |m'.regs| && m'.regs[Top(used)..Top(used) + |xs|] == xs
      && Same(used, m.regs, m'.regs)
  }

  lemma {:induction false} PushAllRuns(h: Host, p: Program, es: seq<Expression>, locals: seq<LocalVar>, env: Env, s: State, m: Machine) returns (n: nat)
    requires LocalsOk(locals, s) && PushAll(h, locals, es, s).Some?
    requires var r := PushAll(h, locals, es, s).value; Fits(p, m, r.code, r.state)
    requires EnvMatches(locals, env, m.regs)
    ensures YieldsAll(h, p, m, n, EvalAll(h, env, m.globals, es), |PushAll(h, locals, es, s).value.code|, s.alloc.used)
    decreases es
  {
    if es == [] {
      n := 0;
      FewerOk(s.alloc, s.alloc.used);
    } else {
      n := PushAllStep(h, p, es, locals, env, s, m);
    }
  }

  /** One value on the stack top, and then the others behind it. */
  lemma AllOnTop(used: set<nat>, used1: set<nat>, regs: seq<Value>, regs1: seq<Value>, regs2: seq<Value>, vs: seq<Value>)
    requires Same(used, regs, regs1) && Same(used1, regs1, regs2) && used1 == used + {Top(used)}
    requires Top(used1) == Top(used) + 1 && Top(used) < |regs1|
    requires Top(used1) + |vs| <= |regs2| && regs2[Top(used1)..Top(used1) + |vs|] == vs
    ensures Same(used, regs, regs2) && regs2[Top(used)..Top(used) + 1 + |vs|] == [regs1[Top(used)]] + vs
  {
    hide IsTop;
    var t := Top(used);
    SameTwice(used, used1, regs, regs1, regs2);
    assert t in used1 && regs2[t] == regs1[t];
    assert regs2[t..t + 1 + |vs|] == [regs2[t]] + regs2[t + 1..t + 1 + |vs|];
  }

  lemma {:induction false} PushAllStep(h: Host, p: Program, es: seq<Expression>, locals: seq<LocalVar>, env: Env, s: State, m: Machine) returns (n: nat)
    requires es != [] && LocalsOk(locals, s) && PushAll(h, locals, es, s).Some?
    requires var r := PushAll(h, locals, es, s).value; Fits(p, m, r.code, r.state)
    requires EnvMatches(locals, env, m.regs)
    ensures YieldsAll(h, p, m, n, EvalAll(h, env, m.globals, es), |PushAll(h, locals, es, s).value.code|, s.alloc.used)
    decreases es, 0
  {
    hide Steps, PushExpression, Eval, IsTop, CodeAt, LocalsOk;
    PushExpressionOk(h, locals, es[0], s);
    var e := PushExpression(h, locals, es[0], s).value;
    var rest := PushAll(h, locals, es[1..], e.state).value;
    PushAllOk(h, locals, es[1..], e.state);
    CodeAtSplit(p, m.pc, e.code, rest.code);
    n := PushExpressionRuns(h, p, es[0], locals, env, s, m);
    if Eval(h, env, m.globals, es[0]).Some? {
      var m1 := Steps(h, p, m, n);
      var n2 := PushAllRuns(h, p, es[1..], locals, env, e.state, m1);
      StepsCompose(h, p, m, n, n2);
      var m2 := Steps(h, p, m1, n2);
      n := n + n2;
      if EvalAll(h, env, m.globals, es[1..]).Some? {
        AllOnTop(s.alloc.used, e.state.alloc.used, m.regs, m1.regs, m2.regs, EvalAll(h, env, m.globals, es[1..]).value);
      }
    }
  }

  lemma PushNilsRuns(h: Host, p: Program, count: nat, s: State, m: Machine)
    requires Ok(s.alloc) && PushNils(count, s).Some?
    requires var e := PushNils(count, s).value; Fits(p, m, e.code, e.state)
    ensures var t := Top(s.alloc.used);
            t + count <= |m.regs| && Steps(h, p, m, 1) == Running(m.pc + 1, NilRange(m.regs, t, count), m.globals)
            && Same(s.alloc.used, m.regs, NilRange(m.regs, t, count))
  {
    hide Steps, IsTop;
    PushNilsOk(count, s);
    OneStep(h, p, m);
    var e := PushNils(count, s).value;
    assert p.code[m.pc + 0] == e.code[0];
    BelowTop(s);
  }

  lemma BelowTop(s: State)
    requires Ok(s.alloc)
    ensures forall x :: x in s.alloc.used ==> x < Top(s.alloc.used)
  {
  }

  /** One value and then nils. */
  ghost predicate YieldsPadded(h: Host, p: Program, m: Machine, n: nat, v: Option<Value>, count: nat, length: nat, used: set<nat>)
    requires m.Running?
  {
    var m' := Steps(h, p, m, n);
    match v
    case None => m' == Failed(m.globals)
    case Some(x) =>
      && m'.Running? && m'.pc == m.pc + length && m'.globals == m.globals
      && 0 < count && Top(used) + count <= |m'.regs| && m'.regs[Top(used)] == x
      && (forall i :: Top(used) < i < Top(used) + count ==> m'.regs[i] == Nil)
      && Same(used, m.regs, m'.regs)
  }

  lemma PushCountRuns(h: Host, p: Program, d: Desc, count: nat, s: State, m: Machine) returns (n: nat)
    requires Ok(s.alloc) && ReadsOnly(d, s.alloc.used) && count > 0 && PushCount(d, count, s).Some?
    requires var e := PushCount(d, count, s).value; Fits(p, m, e.code, e.state)
    ensures YieldsPadded(h, p, m, n, EvalDesc(h, d, m.regs, m.globals), count, |PushCount(d, count, s).value.code|, s.alloc.used)
  {
    hide Steps, Discharge, PushNils, IsTop;
    if d == Const(Nil) {
      PushNilsOk(count, s);
      PushNilsRuns(h, p, count, s, m);
      n := 1;
      PushNilsLength(count, s);
    } else {
      var e := Discharge(d, PushNew, s).value;
      DischargePlaced(d, PushNew, s);
      assert s.alloc.used - {e.reg} == s.alloc.used;
      if count == 1 {
        n := DischargeRuns(h, p, d, PushNew, s, m);
      } else {
        n := PushPadding(h, p, d, count, s, m);
      }
    }
  }

  lemma PushNilsLength(count: nat, s: State)
    requires PushNils(count, s).Some?
    ensures |PushNils(count, s).value.code| == 1
  {
  }

  lemma PushPadding(h: Host, p: Program, d: Desc, count: nat, s: State, m: Machine) returns (n: nat)
    requires Ok(s.alloc) && ReadsOnly(d, s.alloc.used) && count > 1 && d != Const(Nil) && PushCount(d, count, s).Some?
    requires var e := PushCount(d, count, s).value; Fits(p, m, e.code, e.state)
    ensures YieldsPadded(h, p, m, n, EvalDesc(h, d, m.regs, m.globals), count, |PushCount(d, count, s).value.code|, s.alloc.used)
  {
    hide Steps, Discharge, PushNils, EvalDesc, IsTop;
    var e := Discharge(d, PushNew, s).value;
    DischargePlaced(d, PushNew, s);
    PushedOne(s, e.reg, e.state);
    var nils := PushNils(count - 1, e.state).value;
    PushNilsOk(count - 1, e.state);
    PushNilsLength(count - 1, e.state);
    CodeAtSplit(p, m.pc, e.code, nils.code);
    n := DischargeRuns(h, p, d, PushNew, s, m);
    assert s.alloc.used - {e.reg} == s.alloc.used;
    if EvalDesc(h, d, m.regs, m.globals).Some? {
      var m1 := Steps(h, p, m, n);
      PushNilsRuns(h, p, count - 1, e.state, m1);
      StepsCompose(h, p, m, n, 1);
      SameTwice(s.alloc.used, e.state.alloc.used, m.regs, m1.regs, NilRange(m1.regs, e.reg + 1, count - 1));
      n := n + 1;
    }
  }

  // Assignments.

  /** Assigning to the register of a variable changes that variable and no other. */
  lemma {:induction false} AssignMeans(locals: seq<LocalVar>, env: Env, regs: seq<Value>, g: Globals, name: Name, v: Value)
    requires Increasing(locals) && EnvMatches(locals, env, regs)
    ensures var (env', g') := Assign(env, g, name, v);
            match FindLocal(locals, name)
            case Some(r) => r < |regs| && EnvMatches(locals, env', regs[r := v]) && g' == g && r in RegistersOf(locals)
            case None => env' == env && g' == SetGlobal(g, name, v)
    decreases |locals|
  {
    if locals != [] {
      var k := |locals| - 1;
      OuterVariables(locals, env, regs);
      if locals[k].name == name {
        AssignInnermost(locals, env, regs, g, name, v);
      } else {
        hide EnvMatches, Increasing, RegistersOf;
        AssignMeans(locals[..k], env[..k], regs, g, name, v);
        if FindLocal(locals, name).Some? {
          FindLocalBelow(locals, k, name);
          AssignExtends(locals, env, regs, g, name, v, FindLocal(locals, name).value);
        } else {
          assert env[..k] + [env[k]] == env;
        }
      }
    }
  }

  lemma OuterVariables(locals: seq<LocalVar>, env: Env, regs: seq<Value>)
    requires Increasing(locals) && EnvMatches(locals, env, regs) && locals != []
    ensures var k := |locals| - 1;
            |env| == |locals| && env[k].name == locals[k].name
            && Increasing(locals[..k]) && EnvMatches(locals[..k], env[..k], regs)
  {
  }

  lemma AssignInnermost(locals: seq<LocalVar>, env: Env, regs: seq<Value>, g: Globals, name: Name, v: Value)
    requires Increasing(locals) && EnvMatches(locals, env, regs) && locals != [] && locals[|locals| - 1].name == name
    ensures var r := locals[|locals| - 1].reg;
            FindLocal(locals, name) == Some(r) && r < |regs| && r in RegistersOf(locals)
            && EnvMatches(locals, Assign(env, g, name, v).0, regs[r := v]) && Assign(env, g, name, v).1 == g
  {
    var k := |locals| - 1;
    assert Assign(env, g, name, v) == (env[k := Binding(name, v)], g);
  }

  /** An assignment to an outer variable does not touch the innermost one. */
  lemma AssignExtends(locals: seq<LocalVar>, env: Env, regs: seq<Value>, g: Globals, name: Name, v: Value, r: nat)
    requires EnvMatches(locals, env, regs) && locals != [] && env[|env| - 1].name != name
    requires r < locals[|locals| - 1].reg
    requires EnvMatches(locals[..|locals| - 1], Assign(env[..|env| - 1], g, name, v).0, regs[r := v])
    ensures EnvMatches(locals, Assign(env, g, name, v).0, regs[r := v])
    ensures Assign(env, g, name, v).1 == Assign(env[..|env| - 1], g, name, v).1
  {
    var k := |locals| - 1;
    var rest := Assign(env[..k], g, name, v).0;
    assert Assign(env, g, name, v).0 == rest + [env[k]];
    forall i | 0 <= i < k
      ensures locals[i].name == rest[i].name && locals[i].reg < |regs| && regs[r := v][locals[i].reg] == rest[i].value
    {
      assert locals[..k][i] == locals[i];
    }
  }

  lemma {:induction false} FindLocalBelow(locals: seq<LocalVar>, k: nat, name: Name)
    requires Increasing(locals) && k < |locals| && FindLocal(locals[..k], name).Some?
    ensures FindLocal(locals[..k], name).value < locals[k].reg
    ensures FindLocal(locals[..k], name).value in RegistersOf(locals)
    decreases k
  {
    if locals[k - 1].name != name {
      assert locals[..k][..k - 1] == locals[..k - 1];
      FindLocalBelow(locals, k - 1, name);
    }
  }
}
