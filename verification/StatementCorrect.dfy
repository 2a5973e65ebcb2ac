/** The code emitted for a program simulates the program. */
module StatementCorrect {
  import opened Values
  import opened Ast
  import opened AllocatorSpec
  import opened Codegen
  import opened StatementCodegen
  import opened Machine
  import opened Semantics
  import opened ExprCorrect
  import opened ExprRuns
  import opened DescribeCorrect
  import opened StatementShape
  import opened StatementPieces

  /** Only registers of variables in scope, and registers that were free, have changed. */
  ghost predicate Frame(used: set<nat>, locals: seq<LocalVar>, regs: seq<Value>, regs': seq<Value>) {
    |regs| == |regs'| && forall x :: x in used && x < |regs| && x !in RegistersOf(locals) ==> regs'[x] == regs[x]
  }

  /** Running `n` steps does to the machine what the outcome says. `locals'` are the variables in scope
      behind the code, `length` operations further on; a `break` arrives at `brk` with `locals`. */
  ghost predicate Simulates(h: Host, p: Program, m: Machine, n: nat, o: Outcome, fuel: nat,
                            locals: seq<LocalVar>, locals': seq<LocalVar>, used: set<nat>, length: nat, brk: nat)
    requires m.Running?
  {
    var m' := Steps(h, p, m, n);
    match o
    case Normal(env, g) =>
      && m'.Running? && m'.pc == m.pc + length && m'.globals == g
      && EnvMatches(locals', env, m'.regs) && Frame(used, locals, m.regs, m'.regs)
    case Broke(env, g) =>
      && m'.Running? && m'.pc == brk && m'.globals == g
      && |locals| <= |env| && EnvMatches(locals, env[..|locals|], m'.regs) && Frame(used, locals, m.regs, m'.regs)
    case Finished(vs, g) => m' == Returned(vs, g)
    case Error(g) => m' == Failed(g)
    case Timeout => m'.Running? && n >= fuel
  }

  ghost predicate Fresh(locals: seq<LocalVar>, locals': seq<LocalVar>, used: set<nat>) {
    locals <= locals' && used !! RegistersOf(locals'[|locals|..])
  }

  lemma FrameTwice(used: set<nat>, locals: seq<LocalVar>, r0: seq<Value>, r1: seq<Value>,
                   more: set<nat>, locals': seq<LocalVar>, r2: seq<Value>)
    requires Frame(used, locals, r0, r1) && Frame(more, locals', r1, r2) && used <= more && Fresh(locals, locals', used)
    ensures Frame(used, locals, r0, r2)
  {
    assert locals' == locals + locals'[|locals|..];
    RegistersOfConcat(locals, locals'[|locals|..]);
  }

  lemma SameFrame(used: set<nat>, locals: seq<LocalVar>, r0: seq<Value>, r1: seq<Value>)
    requires Same(used, r0, r1)
    ensures Frame(used, locals, r0, r1)
  {
  }

  /** First some steps that end normally, then a simulated piece of code. */
  lemma SimulatesThen(h: Host, p: Program, m: Machine, n1: nat, n2: nat, o: Outcome, fuel: nat,
                      locals: seq<LocalVar>, used: set<nat>, length1: nat,
                      locals1: seq<LocalVar>, used1: set<nat>, length2: nat, locals2: seq<LocalVar>, brk: nat)
    requires m.Running? && Steps(h, p, m, n1).Running?
    requires var m1 := Steps(h, p, m, n1);
             m1.pc == m.pc + length1 && Frame(used, locals, m.regs, m1.regs)
             && Simulates(h, p, m1, n2, o, fuel, locals1, locals2, used1, length2, brk)
    requires used <= used1 && Fresh(locals, locals1, used)
    ensures Simulates(h, p, m, n1 + n2, o, fuel, locals, locals2, used, length1 + length2, brk)
  {
    hide Steps, EnvMatches;
    StepsCompose(h, p, m, n1, n2);
    var m1 := Steps(h, p, m, n1);
    var m2 := Steps(h, p, m1, n2);
    if o.Normal? || o.Broke? {
      FrameTwice(used, locals, m.regs, m1.regs, used1, locals1, m2.regs);
    }
    if o.Broke? {
      EnvPrefix(locals1, o.env[..|locals1|], m2.regs, |locals|);
      assert o.env[..|locals1|][..|locals|] == o.env[..|locals|] && locals1[..|locals|] == locals;
    }
  }

  lemma EnvPrefix(locals: seq<LocalVar>, env: Env, regs: seq<Value>, k: nat)
    requires EnvMatches(locals, env, regs) && k <= |locals|
    ensures EnvMatches(locals[..k], env[..k], regs)
  {
  }

  /** At least one step back to where the loop started, then the rest of the loop with less fuel. */
  lemma LoopAgain(h: Host, p: Program, m: Machine, n1: nat, n2: nat, o: Outcome, fuel: nat,
                  locals: seq<LocalVar>, used: set<nat>, length: nat, brk: nat)
    requires m.Running? && Steps(h, p, m, n1).Running? && n1 > 0 && fuel > 0
    requires var m1 := Steps(h, p, m, n1);
             m1.pc == m.pc && Frame(used, locals, m.regs, m1.regs)
             && Simulates(h, p, m1, n2, o, fuel - 1, locals, locals, used, length, brk)
    ensures Simulates(h, p, m, n1 + n2, o, fuel, locals, locals, used, length, brk)
  {
    hide Steps, EnvMatches;
    StepsCompose(h, p, m, n1, n2);
    var m1 := Steps(h, p, m, n1);
    if o.Normal? || o.Broke? {
      assert Fresh(locals, locals, used);
      FrameTwice(used, locals, m.regs, m1.regs, used, locals, Steps(h, p, m1, n2).regs);
    }
  }

  /** A jump from the end of simulated code. */
  lemma ThenJump(h: Host, p: Program, m: Machine, n: nat, target: nat)
    requires m.Running?
    requires var m1 := Steps(h, p, m, n);
             m1.Running? && m1.pc < |p.code| && p.code[m1.pc] == NoClose(target - (m1.pc + 1))
    ensures var m1 := Steps(h, p, m, n); Steps(h, p, m, n + 1) == Running(target, m1.regs, m1.globals)
  {
    hide Steps;
    StepsCompose(h, p, m, n, 1);
    OneStep(h, p, Steps(h, p, m, n));
  }

  // Simple statements.

  lemma LocalRuns(h: Host, p: Program, fuel: nat, st: Statement, locals: seq<LocalVar>, env: Env, s: State, m: Machine, brk: nat, end: nat)
    returns (n: nat)
    requires st.LocalStatement? && LocalsOk(locals, s) && StatementCode(h, st, locals, s).Some?
    requires var e := StatementCode(h, st, locals, s).value; Holds(p, m, e.state) && ItemsAt(p, m.pc, e.items, brk, end)
    requires EnvMatches(locals, env, m.regs)
    ensures var e := StatementCode(h, st, locals, s).value;
            Simulates(h, p, m, n, ExecStatement(h, fuel, st, env, m.globals), fuel, locals, e.locals, s.alloc.used, |e.items|, brk)
  {
    hide Steps, PushCount, Describe, Eval, EvalDesc, IsTop;
    var names := st.names;
    var d := if st.value.None? then Const(Nil) else Describe(h, locals, st.value.value).value;
    if st.value.Some? {
      DescribeMeans(h, st.value.value, locals, env, s.alloc.used, m.regs, m.globals);
    }
    var code := PushCount(d, |names|, s).value;
    PushCountOk(d, |names|, s);
    EmittedAt(p, m.pc, code.code, brk, end);
    n := PushCountRuns(h, p, d, |names|, s, m);
    var v := if st.value.None? then Some(Nil) else Eval(h, env, m.globals, st.value.value);
    assert EvalDesc(h, d, m.regs, m.globals) == v by { EvalConst(h, Nil, m.regs, m.globals); }
    if v.Some? {
      var m1 := Steps(h, p, m, n);
      SameKeepsEnv(locals, env, s.alloc.used, m.regs, m1.regs);
      DeclaredMatches(locals, env, m1.regs, names, Top(s.alloc.used), v.value);
      SameFrame(s.alloc.used, locals, m.regs, m1.regs);
    }
  }

  lemma EvalConst(h: Host, v: Value, regs: seq<Value>, g: Globals)
    ensures EvalDesc(h, Const(v), regs, g) == Some(v)
  {
  }

  lemma DeclaredMatches(locals: seq<LocalVar>, env: Env, regs: seq<Value>, names: seq<Name>, t: nat, v: Value)
    requires EnvMatches(locals, env, regs) && |names| > 0 && t + |names| <= |regs| && regs[t] == v
    requires forall i :: t < i < t + |names| ==> regs[i] == Nil
    ensures EnvMatches(locals + DeclareLocals(names, t), env + Declare(names, v), regs)
  {
    var l, e := locals + DeclareLocals(names, t), env + Declare(names, v);
    forall i | |locals| <= i < |l|
      ensures l[i].name == e[i].name && l[i].reg < |regs| && regs[l[i].reg] == e[i].value
    {
      assert l[i] == LocalVar(names[i - |locals|], t + (i - |locals|));
    }
  }

  lemma AssignmentRuns(h: Host, p: Program, fuel: nat, st: Statement, locals: seq<LocalVar>, env: Env, s: State, m: Machine, brk: nat, end: nat)
    returns (n: nat)
    requires st.Assignment? && LocalsOk(locals, s) && StatementCode(h, st, locals, s).Some?
    requires var e := StatementCode(h, st, locals, s).value; Holds(p, m, e.state) && ItemsAt(p, m.pc, e.items, brk, end)
    requires EnvMatches(locals, env, m.regs)
    ensures var e := StatementCode(h, st, locals, s).value;
            Simulates(h, p, m, n, ExecStatement(h, fuel, st, env, m.globals), fuel, locals, e.locals, s.alloc.used, |e.items|, brk)
  {
    hide Steps, PushCount, Describe, Eval, EvalDesc, ConstantKey, IsTop, Simulates, ItemsAt;
    DescribeMeans(h, st.expr, locals, env, s.alloc.used, m.regs, m.globals);
    var d := Describe(h, locals, st.expr).value;
    PushCountOk(d, 1, s);
    var v := PushCount(d, 1, s).value;
    if FindLocal(locals, st.target).Some? {
      EmittedAt(p, m.pc, v.code + [Move(FindLocal(locals, st.target).value, v.reg)], brk, end);
      n := LocalAssignmentRuns(h, p, fuel, st, locals, env, s, m, brk);
    } else {
      ConstantKeyOk(st.target, v.state);
      var k := ConstantKey(st.target, v.state).value;
      FreeTempOk(v.state, Const(String(st.target)), k);
      EmittedAt(p, m.pc, v.code + k.code + [SetUpTable(0, k.rc, Register(v.reg))], brk, end);
      n := GlobalAssignmentRuns(h, p, fuel, st, locals, env, s, m, brk);
    }
  }

  lemma LocalAssignmentRuns(h: Host, p: Program, fuel: nat, st: Statement, locals: seq<LocalVar>, env: Env, s: State, m: Machine, brk: nat)
    returns (n: nat)
    requires st.Assignment? && LocalsOk(locals, s) && Describe(h, locals, st.expr).Some?
    requires FindLocal(locals, st.target).Some? && PushCount(Describe(h, locals, st.expr).value, 1, s).Some?
    requires var v := PushCount(Describe(h, locals, st.expr).value, 1, s).value;
             Fits(p, m, v.code + [Move(FindLocal(locals, st.target).value, v.reg)], v.state)
    requires EnvMatches(locals, env, m.regs)
    ensures var v := PushCount(Describe(h, locals, st.expr).value, 1, s).value;
            Simulates(h, p, m, n, ExecStatement(h, fuel, st, env, m.globals), fuel, locals, locals, s.alloc.used, |v.code| + 1, brk)
  {
    hide Steps, PushCount, Describe, Eval, EvalDesc, IsTop, Assign, FindLocal;
    var d := Describe(h, locals, st.expr).value;
    DescribeMeans(h, st.expr, locals, env, s.alloc.used, m.regs, m.globals);
    PushCountOk(d, 1, s);
    var v := PushCount(d, 1, s).value;
    var dest := FindLocal(locals, st.target).value;
    CodeAtSplit(p, m.pc, v.code, [Move(dest, v.reg)]);
    AfterCode(p, m.pc, v.code, Move(dest, v.reg));
    n := PushCountRuns(h, p, d, 1, s, m);
    if Eval(h, env, m.globals, st.expr).Some? {
      var x := Eval(h, env, m.globals, st.expr).value;
      var m1 := Steps(h, p, m, n);
      SameKeepsEnv(locals, env, s.alloc.used, m.regs, m1.regs);
      AssignMeans(locals, env, m1.regs, m.globals, st.target, x);
      StepsCompose(h, p, m, n, 1);
      OneStep(h, p, m1);
      n := n + 1;
      assert Steps(h, p, m, n) == Running(m1.pc + 1, m1.regs[dest := x], m1.globals);
    }
  }

  lemma GlobalAssignmentRuns(h: Host, p: Program, fuel: nat, st: Statement, locals: seq<LocalVar>, env: Env, s: State, m: Machine, brk: nat)
    returns (n: nat)
    requires st.Assignment? && LocalsOk(locals, s) && Describe(h, locals, st.expr).Some?
    requires FindLocal(locals, st.target).None? && PushCount(Describe(h, locals, st.expr).value, 1, s).Some?
    requires var v := PushCount(Describe(h, locals, st.expr).value, 1, s).value;
             ConstantKey(st.target, v.state).Some?
             && var k := ConstantKey(st.target, v.state).value;
             Fits(p, m, v.code + k.code + [SetUpTable(0, k.rc, Register(v.reg))], k.state)
    requires EnvMatches(locals, env, m.regs)
    ensures var v := PushCount(Describe(h, locals, st.expr).value, 1, s).value;
            var k := ConstantKey(st.target, v.state).value;
            Simulates(h, p, m, n, ExecStatement(h, fuel, st, env, m.globals), fuel, locals, locals, s.alloc.used, |v.code| + |k.code| + 1, brk)
  {
    hide Steps, PushCount, Describe, Eval, EvalDesc, IsTop, Assign, FindLocal, ConstantKey;
    var d := Describe(h, locals, st.expr).value;
    DescribeMeans(h, st.expr, locals, env, s.alloc.used, m.regs, m.globals);
    PushCountOk(d, 1, s);
    var v := PushCount(d, 1, s).value;
    ConstantKeyOk(st.target, v.state);
    var k := ConstantKey(st.target, v.state).value;
    var op := SetUpTable(0, k.rc, Register(v.reg));
    CodeAtSplit(p, m.pc, v.code + k.code, [op]);
    AfterCode(p, m.pc, v.code + k.code, op);
    CodeAtSplit(p, m.pc, v.code, k.code);
    n := PushCountRuns(h, p, d, 1, s, m);
    if Eval(h, env, m.globals, st.expr).Some? {
      var x := Eval(h, env, m.globals, st.expr).value;
      var m1 := Steps(h, p, m, n);
      var n2 := ConstantKeyRuns(h, p, st.target, v.state, m1);
      StepsCompose(h, p, m, n, n2);
      n := n + n2;
      var m2 := Steps(h, p, m, n);
      StepsCompose(h, p, m, n, 1);
      n := n + 1;
      SetGlobalStep(h, p, m2, k.rc, v.reg, st.target, x);
      SameTwice(s.alloc.used, v.state.alloc.used, m.regs, m1.regs, m2.regs);
      SameKeepsEnv(locals, env, s.alloc.used, m.regs, m2.regs);
      AssignMeans(locals, env, m2.regs, m.globals, st.target, x);
    }
  }

  lemma SetGlobalStep(h: Host, p: Program, m: Machine, key: RC, reg: nat, name: Name, x: Value)
    requires m.Running? && m.pc < |p.code| && p.code[m.pc] == SetUpTable(0, key, Register(reg))
    requires Readable(p, m.regs, key) && Read(p, m.regs, key) == String(name) && reg < |m.regs| && m.regs[reg] == x
    ensures Steps(h, p, m, 1) == Running(m.pc + 1, m.regs, SetGlobal(m.globals, name, x))
  {
    OneStep(h, p, m);
  }

  lemma ReturnRuns(h: Host, p: Program, es: seq<Expression>, locals: seq<LocalVar>, env: Env, s: State, m: Machine, brk: nat, end: nat)
    returns (n: nat)
    requires LocalsOk(locals, s) && ReturnCode(h, es, locals, s).Some?
    requires var e := ReturnCode(h, es, locals, s).value; Holds(p, m, e.state) && ItemsAt(p, m.pc, e.items, brk, end)
    requires EnvMatches(locals, env, m.regs)
    ensures var vs := EvalAll(h, env, m.globals, es);
            Steps(h, p, m, n) == if vs.None? then Failed(m.globals) else Returned(vs.value, m.globals)
  {
    hide Steps, PushAll, EvalAll, IsTop;
    var values := PushAll(h, locals, es, s).value;
    PushAllOk(h, locals, es, s);
    var op := Return(Top(s.alloc.used), |es|);
    EmittedAt(p, m.pc, values.code + [op], brk, end);
    CodeAtSplit(p, m.pc, values.code, [op]);
    AfterCode(p, m.pc, values.code, op);
    n := PushAllRuns(h, p, es, locals, env, s, m);
    if EvalAll(h, env, m.globals, es).Some? {
      EvalAllLength(h, env, m.globals, es);
      StepsCompose(h, p, m, n, 1);
      OneStep(h, p, Steps(h, p, m, n));
      n := n + 1;
    }
  }

  lemma EvalAllLength(h: Host, env: Env, g: Globals, es: seq<Expression>)
    requires EvalAll(h, env, g, es).Some?
    ensures |EvalAll(h, env, g, es).value| == |es|
  {
  }

  // Blocks.

  lemma ReturnSimulates(h: Host, p: Program, fuel: nat, es: seq<Expression>, locals: seq<LocalVar>, env: Env, s: State, m: Machine, brk: nat, end: nat)
    returns (n: nat)
    requires LocalsOk(locals, s) && ReturnCode(h, es, locals, s).Some?
    requires var e := ReturnCode(h, es, locals, s).value; Holds(p, m, e.state) && ItemsAt(p, m.pc, e.items, brk, end)
    requires EnvMatches(locals, env, m.regs)
    ensures var vs := EvalAll(h, env, m.globals, es);
            Simulates(h, p, m, n, if vs.None? then Error(m.globals) else Finished(vs.value, m.globals), fuel,
                      locals, locals, s.alloc.used, |ReturnCode(h, es, locals, s).value.items|, brk)
  {
    hide Steps, ReturnCode, EvalAll;
    n := ReturnRuns(h, p, es, locals, env, s, m, brk, end);
  }

  lemma {:induction false} OpenBlockRuns(h: Host, p: Program, fuel: nat, b: Block, locals: seq<LocalVar>, env: Env, s: State, m: Machine, brk: nat, end: nat)
    returns (n: nat)
    requires LocalsOk(locals, s) && OpenBlockCode(h, b, locals, s).Some?
    requires var e := OpenBlockCode(h, b, locals, s).value; Holds(p, m, e.state) && ItemsAt(p, m.pc, e.items, brk, end)
    requires EnvMatches(locals, env, m.regs)
    ensures var e := OpenBlockCode(h, b, locals, s).value;
            Simulates(h, p, m, n, ExecOpenBlock(h, fuel, b, env, m.globals), fuel, locals, e.locals, s.alloc.used, |e.items|, brk)
    decreases fuel, b, 0
  {
    hide Steps, StatementsCode, ReturnCode, ExecStatements, EvalAll, ItemsAt, IsTop;
    var ss := StatementsCode(h, b.statements, locals, s).value;
    StatementsCodeOk(h, b.statements, locals, s);
    if b.ret.None? {
      n := StatementsRuns(h, p, fuel, b.statements, locals, env, s, m, brk, end);
    } else {
      var r := ReturnCode(h, b.ret.value, ss.locals, ss.state).value;
      ReturnCodeOk(h, b.ret.value, ss.locals, ss.state);
      ItemsSplit(p, m.pc, ss.items, r.items, brk, end);
      n := StatementsRuns(h, p, fuel, b.statements, locals, env, s, m, brk, end);
      var o := ExecStatements(h, fuel, b.statements, env, m.globals);
      if o.Normal? {
        var m1 := Steps(h, p, m, n);
        var n2 := ReturnSimulates(h, p, fuel, b.ret.value, ss.locals, o.env, ss.state, m1, brk, end);
        SimulatesThen(h, p, m, n, n2, ExecOpenBlock(h, fuel, b, env, m.globals), fuel, locals, s.alloc.used, |ss.items|,
                      ss.locals, ss.state.alloc.used, |r.items|, ss.locals, brk);
        n := n + n2;
      }
    }
  }

  lemma {:induction false} StatementsRuns(h: Host, p: Program, fuel: nat, ss: seq<Statement>, locals: seq<LocalVar>, env: Env, s: State, m: Machine, brk: nat, end: nat)
    returns (n: nat)
    requires LocalsOk(locals, s) && StatementsCode(h, ss, locals, s).Some?
    requires var e := StatementsCode(h, ss, locals, s).value; Holds(p, m, e.state) && ItemsAt(p, m.pc, e.items, brk, end)
    requires EnvMatches(locals, env, m.regs)
    ensures var e := StatementsCode(h, ss, locals, s).value;
            Simulates(h, p, m, n, ExecStatements(h, fuel, ss, env, m.globals), fuel, locals, e.locals, s.alloc.used, |e.items|, brk)
    decreases fuel, ss, 0
  {
    hide Steps, StatementCode, ExecStatement, ItemsAt, IsTop, EnvMatches, Frame, Simulates;
    if ss == [] {
      n := 0;
      NothingSimulates(h, p, m, fuel, env, locals, s.alloc.used, brk);
    } else {
      var first := StatementCode(h, ss[0], locals, s).value;
      StatementCodeOk(h, ss[0], locals, s);
      StatementsCodeOk(h, ss[1..], first.locals, first.state);
      n := StatementRuns(h, p, fuel, ss[0], locals, env, s, m, brk, end) by {
        var rest := StatementsCode(h, ss[1..], first.locals, first.state).value;
        ItemsSplit(p, m.pc, first.items, rest.items, brk, end);
      }
      if ExecStatement(h, fuel, ss[0], env, m.globals).Normal? {
        n := RestRuns(h, p, fuel, ss, locals, env, s, m, brk, end, n);
      } else {
        StopsEarly(h, p, m, n, ExecStatement(h, fuel, ss[0], env, m.globals), fuel, locals, first.locals,
                   StatementsCode(h, ss, locals, s).value.locals, s.alloc.used, |first.items|, |StatementsCode(h, ss, locals, s).value.items|, brk);
      }
    }
  }

  lemma NothingSimulates(h: Host, p: Program, m: Machine, fuel: nat, env: Env, locals: seq<LocalVar>, used: set<nat>, brk: nat)
    requires m.Running? && EnvMatches(locals, env, m.regs)
    ensures Simulates(h, p, m, 0, Normal(env, m.globals), fuel, locals, locals, used, 0, brk)
  {
  }

  /** A statement that does not end normally ends the sequence. */
  lemma StopsEarly(h: Host, p: Program, m: Machine, n: nat, o: Outcome, fuel: nat, locals: seq<LocalVar>, locals1: seq<LocalVar>, locals2: seq<LocalVar>,
                   used: set<nat>, length1: nat, length2: nat, brk: nat)
    requires m.Running? && !o.Normal? && Simulates(h, p, m, n, o, fuel, locals, locals1, used, length1, brk)
    ensures Simulates(h, p, m, n, o, fuel, locals, locals2, used, length2, brk)
  {
    hide Steps;
  }

  lemma {:induction false} RestRuns(h: Host, p: Program, fuel: nat, ss: seq<Statement>, locals: seq<LocalVar>, env: Env, s: State, m: Machine, brk: nat, end: nat, n1: nat)
    returns (n: nat)
    requires ss != [] && LocalsOk(locals, s) && StatementsCode(h, ss, locals, s).Some?
    requires var e := StatementsCode(h, ss, locals, s).value; Holds(p, m, e.state) && ItemsAt(p, m.pc, e.items, brk, end)
    requires var first := StatementCode(h, ss[0], locals, s).value; var o := ExecStatement(h, fuel, ss[0], env, m.globals);
             o.Normal? && Simulates(h, p, m, n1, o, fuel, locals, first.locals, s.alloc.used, |first.items|, brk)
    ensures var e := StatementsCode(h, ss, locals, s).value;
            Simulates(h, p, m, n, ExecStatements(h, fuel, ss, env, m.globals), fuel, locals, e.locals, s.alloc.used, |e.items|, brk)
    decreases fuel, ss[1..], 1
  {
    hide Steps, StatementCode, ExecStatement, ItemsAt, IsTop, EnvMatches;
    var first := StatementCode(h, ss[0], locals, s).value;
    StatementCodeOk(h, ss[0], locals, s);
    var rest := StatementsCode(h, ss[1..], first.locals, first.state).value;
    StatementsCodeOk(h, ss[1..], first.locals, first.state);
    ItemsSplit(p, m.pc, first.items, rest.items, brk, end);
    var o := ExecStatement(h, fuel, ss[0], env, m.globals);
    var n2 := StatementsRuns(h, p, fuel, ss[1..], first.locals, o.env, first.state, Steps(h, p, m, n1), brk, end);
    SimulatesThen(h, p, m, n1, n2, ExecStatements(h, fuel, ss[1..], o.env, o.g), fuel, locals, s.alloc.used, |first.items|,
                  first.locals, first.state.alloc.used, |rest.items|, rest.locals, brk);
    n := n1 + n2;
  }

  /** Leaving a block forgets its variables; the others are still where they were. */
  lemma LeaveSimulates(h: Host, p: Program, m: Machine, n: nat, o: Outcome, fuel: nat, locals: seq<LocalVar>, locals': seq<LocalVar>, used: set<nat>, length: nat, brk: nat)
    requires m.Running? && Simulates(h, p, m, n, o, fuel, locals, locals', used, length, brk) && locals <= locals'
    ensures Simulates(h, p, m, n, Leave(o, |locals|), fuel, locals, locals, used, length, brk)
    ensures (o.Normal? || o.Broke?) ==> |Leave(o, |locals|).env| == |locals|
  {
    hide Steps, EnvMatches;
    if o.Normal? {
      var m' := Steps(h, p, m, n);
      assert EnvMatches(locals', o.env, m'.regs);
      SameLength(locals', o.env, m'.regs);
      EnvPrefix(locals', o.env, m'.regs, |locals|);
      assert locals'[..|locals|] == locals;
    } else if o.Broke? {
      assert o.env[..|locals|][..|locals|] == o.env[..|locals|];
    }
  }

  lemma SameLength(locals: seq<LocalVar>, env: Env, regs: seq<Value>)
    requires EnvMatches(locals, env, regs)
    ensures |locals| == |env|
  {
  }

  lemma {:induction false} BlockRuns(h: Host, p: Program, fuel: nat, b: Block, locals: seq<LocalVar>, env: Env, s: State, m: Machine, brk: nat, end: nat)
    returns (n: nat)
    requires LocalsOk(locals, s) && BlockCode(h, b, locals, s).Some?
    requires var e := BlockCode(h, b, locals, s).value; Holds(p, m, e.state) && ItemsAt(p, m.pc, e.items, brk, end)
    requires EnvMatches(locals, env, m.regs)
    ensures var e := BlockCode(h, b, locals, s).value; var o := ExecBlock(h, fuel, b, env, m.globals);
            Simulates(h, p, m, n, o, fuel, locals, locals, s.alloc.used, |e.items|, brk)
            && (o.Normal? || o.Broke? ==> |o.env| == |locals|)
    decreases fuel, b, 1
  {
    hide Steps, OpenBlockCode, ExecOpenBlock, ItemsAt, IsTop, Simulates;
    OpenBlockCodeOk(h, b, locals, s);
    var e := OpenBlockCode(h, b, locals, s).value;
    n := OpenBlockRuns(h, p, fuel, b, locals, env, s, m, brk, end);
    LeaveSimulates(h, p, m, n, ExecOpenBlock(h, fuel, b, env, m.globals), fuel, locals, e.locals, s.alloc.used, |e.items|, brk);
  }

  // Statements.

  lemma {:induction false} StatementRuns(h: Host, p: Program, fuel: nat, st: Statement, locals: seq<LocalVar>, env: Env, s: State, m: Machine, brk: nat, end: nat)
    returns (n: nat)
    requires LocalsOk(locals, s) && StatementCode(h, st, locals, s).Some?
    requires var e := StatementCode(h, st, locals, s).value; Holds(p, m, e.state) && ItemsAt(p, m.pc, e.items, brk, end)
    requires EnvMatches(locals, env, m.regs)
    ensures var e := StatementCode(h, st, locals, s).value;
            Simulates(h, p, m, n, ExecStatement(h, fuel, st, env, m.globals), fuel, locals, e.locals, s.alloc.used, |e.items|, brk)
    decreases fuel, st, 2
  {
    hide Steps, BlockCode, ExecBlock, IsTop;
    match st
    case LocalStatement(_, _) => n := LocalRuns(h, p, fuel, st, locals, env, s, m, brk, end);
    case Assignment(_, _) => n := AssignmentRuns(h, p, fuel, st, locals, env, s, m, brk, end);
    case Do(b) => n := BlockRuns(h, p, fuel, b, locals, env, s, m, brk, end);
    case If(_) => n := IfRuns(h, p, fuel, st, locals, env, s, m, brk, end);
    case While(_, _) => n := WhileRuns(h, p, fuel, st, locals, env, s, m, brk, end);
    case Repeat(_, _) => n := RepeatRuns(h, p, fuel, st, locals, env, s, m, brk, end);
    case NumericFor(_, _, _, _, _) => n := ForRuns(h, p, fuel, st, locals, env, s, m, brk, end);
    case Break => n := BreakRuns(h, p, fuel, locals, env, s, m, brk, end);
  }

  lemma BreakRuns(h: Host, p: Program, fuel: nat, locals: seq<LocalVar>, env: Env, s: State, m: Machine, brk: nat, end: nat)
    returns (n: nat)
    requires m.Running? && ItemsAt(p, m.pc, [Goto(BreakLabel)], brk, end) && EnvMatches(locals, env, m.regs)
    ensures Simulates(h, p, m, n, Broke(env, m.globals), fuel, locals, locals, s.alloc.used, 1, brk)
  {
    n := 1;
    assert [Goto(BreakLabel)][0] == Goto(BreakLabel);
    OneStep(h, p, m);
    assert env[..|locals|] == env;
  }

  lemma LastEmitted(p: Program, pc: nat, op: Operation, brk: nat, end: nat)
    requires ItemsAt(p, pc, [Emit(op)], brk, end)
    ensures pc < |p.code| && p.code[pc] == op
  {
    assert [Emit(op)][0] == Emit(op);
  }

  // `while`.

  lemma WhileLayout(p: Program, pc: nat, test: seq<Operation>, body: Code, brk: nat, end: nat)
    requires WhileCode(test, body).Some? && ItemsAt(p, pc, WhileCode(test, body).value.items, brk, end)
    ensures var t, length := |test|, |test| + |body.items| + 2;
            && |WhileCode(test, body).value.items| == length && WhileCode(test, body).value.state == body.state
            && CodeAt(p, pc, test)
            && pc + length <= |p.code|
            && p.code[pc + t] == NoClose(|body.items| + 1)
            && ItemsAt(p, pc + t + 1, body.items, pc + length, end)
            && p.code[pc + length - 1] == NoClose(-length)
  {
    hide ItemsAt, CodeAt, Emits;
    var head := Emits(test + [NoClose(|body.items| + 1)]);
    var back := [Emit(NoClose(-(|test| + 2 + |body.items|)))];
    PatchedAt(p, pc, head + body.items + back, BreakLabel, |head + body.items + back|, brk, end);
    var brk' := pc + |head + body.items + back|;
    ItemsSplit(p, pc, head + body.items, back, brk', end);
    ItemsSplit(p, pc, head, body.items, brk', end);
    EmittedAt(p, pc, test + [NoClose(|body.items| + 1)], brk', end);
    CodeAtSplit(p, pc, test, [NoClose(|body.items| + 1)]);
    AfterCode(p, pc, test, NoClose(|body.items| + 1));
    LastEmitted(p, pc + |head| + |body.items|, NoClose(-(|test| + 2 + |body.items|)), brk', end);
  }

  lemma {:induction false} WhileRuns(h: Host, p: Program, fuel: nat, st: Statement, locals: seq<LocalVar>, env: Env, s: State, m: Machine, brk: nat, end: nat)
    returns (n: nat)
    requires st.While? && LocalsOk(locals, s) && StatementCode(h, st, locals, s).Some?
    requires var e := StatementCode(h, st, locals, s).value; Holds(p, m, e.state) && ItemsAt(p, m.pc, e.items, brk, end)
    requires EnvMatches(locals, env, m.regs)
    ensures var e := StatementCode(h, st, locals, s).value;
            Simulates(h, p, m, n, ExecStatement(h, fuel, st, env, m.globals), fuel, locals, locals, s.alloc.used, |e.items|, brk)
    decreases fuel, st, 1
  {
    hide Steps, Condition, BlockCode, WhileCode, Eval, ExecBlock, IsTop, EnvMatches, ItemsAt;
    n := 0;
    NoSteps(h, p, m);
    if fuel > 0 {
      ConditionOk(h, locals, st.condition, s);
      var t := Condition(h, locals, st.condition, s).value;
      BlockCodeOk(h, st.body, locals, t.state);
      var b := BlockCode(h, st.body, locals, t.state).value;
      WhileLayout(p, m.pc, t.code, b, brk, end);
      n := ConditionRuns(h, p, st.condition, locals, env, s, m);
      var c := Eval(h, env, m.globals, st.condition);
      if c.Some? {
        var m1 := Steps(h, p, m, n);
        SameFrame(s.alloc.used, locals, m.regs, m1.regs);
        if ToBool(c.value) {
          n := WhileBody(h, p, fuel, st, locals, env, s, m, brk, end, n);
        } else {
          ThenJump(h, p, m, n, m.pc + |t.code| + |b.items| + 2);
          n := n + 1;
        }
      }
    }
  }

  /** One iteration of `while` whose condition holds, and all that follow. */
  lemma {:induction false} WhileBody(h: Host, p: Program, fuel: nat, st: Statement, locals: seq<LocalVar>, env: Env, s: State, m: Machine, brk: nat, end: nat, n1: nat)
    returns (n: nat)
    requires st.While? && LocalsOk(locals, s) && StatementCode(h, st, locals, s).Some? && fuel > 0 && n1 > 0
    requires var e := StatementCode(h, st, locals, s).value; Holds(p, m, e.state) && ItemsAt(p, m.pc, e.items, brk, end)
    requires EnvMatches(locals, env, m.regs)
    requires var c := Eval(h, env, m.globals, st.condition); c.Some? && ToBool(c.value)
    requires var m1 := Steps(h, p, m, n1);
             m1.Running? && m1.pc == m.pc + |Condition(h, locals, st.condition, s).value.code| + 1
             && m1.globals == m.globals && EnvMatches(locals, env, m1.regs) && Frame(s.alloc.used, locals, m.regs, m1.regs)
    ensures var e := StatementCode(h, st, locals, s).value;
            Simulates(h, p, m, n, ExecStatement(h, fuel, st, env, m.globals), fuel, locals, locals, s.alloc.used, |e.items|, brk)
    decreases fuel, st, 0
  {
    hide Steps, Condition, BlockCode, WhileCode, Eval, ExecBlock, IsTop, EnvMatches, ItemsAt;
    ConditionOk(h, locals, st.condition, s);
    var t := Condition(h, locals, st.condition, s).value;
    BlockCodeOk(h, st.body, locals, t.state);
    var b := BlockCode(h, st.body, locals, t.state).value;
    WhileLayout(p, m.pc, t.code, b, brk, end);
    var length := |t.code| + |b.items| + 2;
    var m1 := Steps(h, p, m, n1);
    var n2 := BlockRuns(h, p, fuel, st.body, locals, env, t.state, m1, m.pc + length, end);
    var o := ExecBlock(h, fuel, st.body, env, m.globals);
    SimulatesThen(h, p, m, n1, n2, o, fuel, locals, s.alloc.used, |t.code| + 1,
                  locals, s.alloc.used, |b.items|, locals, m.pc + length);
    n := n1 + n2;
    if o.Normal? {
      ThenJump(h, p, m, n, m.pc);
      var m2 := Steps(h, p, m, n + 1);
      var n3 := WhileRuns(h, p, fuel - 1, st, locals, o.env, s, m2, brk, end);
      LoopAgain(h, p, m, n + 1, n3, ExecStatement(h, fuel, st, env, m.globals), fuel, locals, s.alloc.used, length, brk);
      n := n + 1 + n3;
    } else if o.Broke? {
      assert o.env[..|locals|] == o.env;
    }
  }

  // `repeat`.

  lemma RepeatLayout(p: Program, pc: nat, body: seq<Item>, test: seq<Operation>, s: State, brk: nat, end: nat)
    requires RepeatCode(body, test, s).Some? && ItemsAt(p, pc, RepeatCode(body, test, s).value.items, brk, end)
    ensures var length := |body| + |test| + 1;
            && |RepeatCode(body, test, s).value.items| == length && RepeatCode(body, test, s).value.state == s
            && pc + length <= |p.code|
            && ItemsAt(p, pc, body, pc + length, end)
            && CodeAt(p, pc + |body|, test)
            && p.code[pc + length - 1] == NoClose(-length)
  {
    var jump := NoClose(-(|body| + |test| + 1));
    var items := body + Emits(test + [jump]);
    PatchedAt(p, pc, items, BreakLabel, |items|, brk, end);
    ItemsSplit(p, pc, body, Emits(test + [jump]), pc + |items|, end);
    EmittedAt(p, pc + |body|, test + [jump], pc + |items|, end);
    CodeAtSplit(p, pc + |body|, test, [jump]);
    AfterCode(p, pc + |body|, test, jump);
  }

  lemma {:induction false} RepeatRuns(h: Host, p: Program, fuel: nat, st: Statement, locals: seq<LocalVar>, env: Env, s: State, m: Machine, brk: nat, end: nat)
    returns (n: nat)
    requires st.Repeat? && LocalsOk(locals, s) && StatementCode(h, st, locals, s).Some?
    requires var e := StatementCode(h, st, locals, s).value; Holds(p, m, e.state) && ItemsAt(p, m.pc, e.items, brk, end)
    requires EnvMatches(locals, env, m.regs)
    ensures var e := StatementCode(h, st, locals, s).value;
            Simulates(h, p, m, n, ExecStatement(h, fuel, st, env, m.globals), fuel, locals, locals, s.alloc.used, |e.items|, brk)
    decreases fuel, st, 1
  {
    hide Steps, OpenBlockCode, Condition, RepeatCode, Eval, ExecOpenBlock, IsTop, EnvMatches, ItemsAt;
    n := 0;
    NoSteps(h, p, m);
    if fuel > 0 {
      OpenBlockCodeOk(h, st.rbody, locals, s);
      var b := OpenBlockCode(h, st.rbody, locals, s).value;
      ConditionOk(h, b.locals, st.until, b.state);
      var t := Condition(h, b.locals, st.until, b.state).value;
      RepeatLayout(p, m.pc, b.items, t.code, Exited(s, t.state), brk, end);
      var length := |b.items| + |t.code| + 1;
      n := OpenBlockRuns(h, p, fuel, st.rbody, locals, env, s, m, m.pc + length, end);
      var o := ExecOpenBlock(h, fuel, st.rbody, env, m.globals);
      LeaveSimulates(h, p, m, n, o, fuel, locals, b.locals, s.alloc.used, |b.items|, m.pc + length);
      SameLengths(locals, env, m.regs);
      if o.Normal? {
        n := RepeatUntil(h, p, fuel, st, locals, env, s, m, brk, end, n);
      }
    }
  }

  lemma SameLengths(locals: seq<LocalVar>, env: Env, regs: seq<Value>)
    requires EnvMatches(locals, env, regs)
    ensures |locals| == |env|
  {
  }

  /** The condition of `repeat`, evaluated with the body's variables in scope, and all that follows. */
  lemma {:induction false} RepeatUntil(h: Host, p: Program, fuel: nat, st: Statement, locals: seq<LocalVar>, env: Env, s: State, m: Machine, brk: nat, end: nat, n1: nat)
    returns (n: nat)
    requires st.Repeat? && LocalsOk(locals, s) && StatementCode(h, st, locals, s).Some? && fuel > 0
    requires var e := StatementCode(h, st, locals, s).value; Holds(p, m, e.state) && ItemsAt(p, m.pc, e.items, brk, end)
    requires EnvMatches(locals, env, m.regs)
    requires ExecOpenBlock(h, fuel, st.rbody, env, m.globals).Normal?
    requires var b := OpenBlockCode(h, st.rbody, locals, s).value;
             Simulates(h, p, m, n1, ExecOpenBlock(h, fuel, st.rbody, env, m.globals), fuel, locals, b.locals, s.alloc.used, |b.items|, brk)
    ensures var e := StatementCode(h, st, locals, s).value;
            Simulates(h, p, m, n, ExecStatement(h, fuel, st, env, m.globals), fuel, locals, locals, s.alloc.used, |e.items|, brk)
    decreases fuel, st, 0
  {
    hide Steps, OpenBlockCode, Condition, RepeatCode, Eval, ExecOpenBlock, IsTop, EnvMatches, ItemsAt;
    OpenBlockCodeOk(h, st.rbody, locals, s);
    var b := OpenBlockCode(h, st.rbody, locals, s).value;
    ConditionOk(h, b.locals, st.until, b.state);
    var t := Condition(h, b.locals, st.until, b.state).value;
    RepeatLayout(p, m.pc, b.items, t.code, Exited(s, t.state), brk, end);
    var length := |b.items| + |t.code| + 1;
    var o := ExecOpenBlock(h, fuel, st.rbody, env, m.globals);
    var m1 := Steps(h, p, m, n1);
    SameLengths(locals, env, m.regs);
    SameLengths(b.locals, o.env, m1.regs);
    var n2 := ConditionRuns(h, p, st.until, b.locals, o.env, b.state, m1);
    StepsCompose(h, p, m, n1, n2);
    n := n1 + n2;
    var c := Eval(h, o.env, o.g, st.until);
    if c.Some? {
      var m2 := Steps(h, p, m, n);
      EnvPrefix(b.locals, o.env, m2.regs, |locals|);
      assert b.locals[..|locals|] == locals;
      SameFrame(b.state.alloc.used, b.locals, m1.regs, m2.regs);
      FrameTwice(s.alloc.used, locals, m.regs, m1.regs, b.state.alloc.used, b.locals, m2.regs);
      if !ToBool(c.value) {
        ThenJump(h, p, m, n, m.pc);
        var m3 := Steps(h, p, m, n + 1);
        var n3 := RepeatRuns(h, p, fuel - 1, st, locals, o.env[..|locals|], s, m3, brk, end);
        LoopAgain(h, p, m, n + 1, n3, ExecStatement(h, fuel, st, env, m.globals), fuel, locals, s.alloc.used, length, brk);
        n := n + 1 + n3;
      }
    }
  }

  // `if`.

  lemma ArmLayout(p: Program, pc: nat, test: seq<Operation>, block: seq<Item>, tail: seq<Item>, rest: seq<Item>, brk: nat, end: nat)
    requires ItemsAt(p, pc, Emits(test + [NoClose(|block| + |tail|)]) + block + tail + rest, brk, end)
    ensures var t := |test|;
            && CodeAt(p, pc, test)
            && pc + t < |p.code| && p.code[pc + t] == NoClose(|block| + |tail|)
            && ItemsAt(p, pc + t + 1, block, brk, end)
            && ItemsAt(p, pc + t + 1 + |block|, tail, brk, end)
            && ItemsAt(p, pc + t + 1 + |block| + |tail|, rest, brk, end)
  {
    var head := Emits(test + [NoClose(|block| + |tail|)]);
    ItemsSplit(p, pc, head + block + tail, rest, brk, end);
    ItemsSplit(p, pc, head + block, tail, brk, end);
    ItemsSplit(p, pc, head, block, brk, end);
    EmittedAt(p, pc, test + [NoClose(|block| + |tail|)], brk, end);
    CodeAtSplit(p, pc, test, [NoClose(|block| + |tail|)]);
    AfterCode(p, pc, test, NoClose(|block| + |tail|));
  }

  lemma {:induction false} IfRuns(h: Host, p: Program, fuel: nat, st: Statement, locals: seq<LocalVar>, env: Env, s: State, m: Machine, brk: nat, end: nat)
    returns (n: nat)
    requires st.If? && LocalsOk(locals, s) && StatementCode(h, st, locals, s).Some?
    requires var e := StatementCode(h, st, locals, s).value; Holds(p, m, e.state) && ItemsAt(p, m.pc, e.items, brk, end)
    requires EnvMatches(locals, env, m.regs)
    ensures var e := StatementCode(h, st, locals, s).value;
            Simulates(h, p, m, n, ExecStatement(h, fuel, st, env, m.globals), fuel, locals, locals, s.alloc.used, |e.items|, brk)
    decreases fuel, st, 1
  {
    hide Steps, ChainCode, ExecChain, IsTop, ItemsAt;
    var c := ChainCode(h, st.chain, locals, s).value;
    PatchedAt(p, m.pc, c.items, EndLabel, |c.items|, brk, end);
    n := ChainRuns(h, p, fuel, st.chain, locals, env, s, m, brk, m.pc + |c.items|);
  }

  lemma {:induction false} ChainRuns(h: Host, p: Program, fuel: nat, chain: IfChain, locals: seq<LocalVar>, env: Env, s: State, m: Machine, brk: nat, end: nat)
    returns (n: nat)
    requires LocalsOk(locals, s) && ChainCode(h, chain, locals, s).Some?
    requires var e := ChainCode(h, chain, locals, s).value;
             Holds(p, m, e.state) && ItemsAt(p, m.pc, e.items, brk, end) && end == m.pc + |e.items|
    requires EnvMatches(locals, env, m.regs)
    ensures var e := ChainCode(h, chain, locals, s).value;
            Simulates(h, p, m, n, ExecChain(h, fuel, chain, env, m.globals), fuel, locals, locals, s.alloc.used, |e.items|, brk)
    decreases fuel, chain, 2
  {
    hide Steps, Condition, BlockCode, ExecBlock, IsTop, ItemsAt;
    match chain
    case EndIf =>
      n := 0;
      NoSteps(h, p, m);
    case Else(block) => n := BlockRuns(h, p, fuel, block, locals, env, s, m, brk, end);
    case Arm(_, _, _) => n := ArmRuns(h, p, fuel, chain, locals, env, s, m, brk, end);
  }

  lemma {:induction false} ArmRuns(h: Host, p: Program, fuel: nat, chain: IfChain, locals: seq<LocalVar>, env: Env, s: State, m: Machine, brk: nat, end: nat)
    returns (n: nat)
    requires chain.Arm? && LocalsOk(locals, s) && ChainCode(h, chain, locals, s).Some?
    requires var e := ChainCode(h, chain, locals, s).value;
             Holds(p, m, e.state) && ItemsAt(p, m.pc, e.items, brk, end) && end == m.pc + |e.items|
    requires EnvMatches(locals, env, m.regs)
    ensures var e := ChainCode(h, chain, locals, s).value;
            Simulates(h, p, m, n, ExecChain(h, fuel, chain, env, m.globals), fuel, locals, locals, s.alloc.used, |e.items|, brk)
    decreases fuel, chain, 1
  {
    hide Steps, Condition, BlockCode, Eval, ExecBlock, IsTop, ItemsAt, EnvMatches;
    ConditionOk(h, locals, chain.condition, s);
    var t := Condition(h, locals, chain.condition, s).value;
    BlockCodeOk(h, chain.block, locals, t.state);
    var b := BlockCode(h, chain.block, locals, t.state).value;
    ChainCodeOk(h, chain.rest, locals, b.state);
    var r := ChainCode(h, chain.rest, locals, b.state).value;
    var tail := if chain.rest.EndIf? then [] else [Goto(EndLabel)];
    ArmLayout(p, m.pc, t.code, b.items, tail, r.items, brk, end);
    n := ConditionRuns(h, p, chain.condition, locals, env, s, m);
    var c := Eval(h, env, m.globals, chain.condition);
    if c.Some? {
      var m1 := Steps(h, p, m, n);
      SameFrame(s.alloc.used, locals, m.regs, m1.regs);
      if ToBool(c.value) {
        var n2 := BlockRuns(h, p, fuel, chain.block, locals, env, t.state, m1, brk, end);
        var o := ExecBlock(h, fuel, chain.block, env, m.globals);
        SimulatesThen(h, p, m, n, n2, o, fuel, locals, s.alloc.used, |t.code| + 1, locals, s.alloc.used, |b.items|, locals, brk);
        n := n + n2;
        if o.Normal? && !chain.rest.EndIf? {
          GotoEnd(p, m.pc + |t.code| + 1 + |b.items|, brk, end);
          ThenJump(h, p, m, n, end);
          n := n + 1;
        }
      } else {
        var skip := |t.code| + 1 + |b.items| + |tail|;
        ThenJump(h, p, m, n, m.pc + skip);
        var n2 := ChainRuns(h, p, fuel, chain.rest, locals, env, b.state, Steps(h, p, m, n + 1), brk, end);
        SimulatesThen(h, p, m, n + 1, n2, ExecChain(h, fuel, chain.rest, env, m.globals), fuel, locals, s.alloc.used, skip,
                      locals, s.alloc.used, |r.items|, locals, brk);
        n := n + 1 + n2;
      }
    }
  }

  lemma GotoEnd(p: Program, pc: nat, brk: nat, end: nat)
    requires ItemsAt(p, pc, [Goto(EndLabel)], brk, end)
    ensures pc < |p.code| && p.code[pc] == NoClose(end - (pc + 1))
  {
    assert [Goto(EndLabel)][0] == Goto(EndLabel);
  }

  // Numeric `for`.

  lemma ForLayout(p: Program, pc: nat, control: seq<Operation>, base: nat, body: Code, brk: nat, end: nat)
    requires ForCode(control, base, body).Some? && ItemsAt(p, pc, ForCode(control, base, body).value.items, brk, end)
    ensures var c, k := |control|, |body.items|; var length := c + k + 2;
            && |ForCode(control, base, body).value.items| == length && ForCode(control, base, body).value.state == body.state
            && pc + length <= |p.code|
            && CodeAt(p, pc, control)
            && p.code[pc + c] == NumericForPrep(base, k)
            && ItemsAt(p, pc + c + 1, body.items, pc + length, end)
            && p.code[pc + c + 1 + k] == NumericForLoop(base, -(k + 1))
  {
    hide ItemsAt, CodeAt, Emits;
    var k := |body.items|;
    var head := Emits(control + [NumericForPrep(base, k)]);
    var loop := [Emit(NumericForLoop(base, -(k + 1)))];
    var items := head + body.items + loop;
    PatchedAt(p, pc, items, BreakLabel, |items|, brk, end);
    ItemsSplit(p, pc, head + body.items, loop, pc + |items|, end);
    ItemsSplit(p, pc, head, body.items, pc + |items|, end);
    EmittedAt(p, pc, control + [NumericForPrep(base, k)], pc + |items|, end);
    CodeAtSplit(p, pc, control, [NumericForPrep(base, k)]);
    AfterCode(p, pc, control, NumericForPrep(base, k));
    LastEmitted(p, pc + |head| + k, NumericForLoop(base, -(k + 1)), pc + |items|, end);
  }

  /** The three control values, in order, in the registers from `base` on. */
  ghost predicate YieldsControl(h: Host, p: Program, m: Machine, n: nat, i: Option<Value>, l: Option<Value>, s: Option<Value>, length: nat, used: set<nat>)
    requires m.Running?
  {
    var m', base := Steps(h, p, m, n), Top(used);
    if i.None? || l.None? || s.None? then m' == Failed(m.globals)
    else
      && m'.Running? && m'.pc == m.pc + length && m'.globals == m.globals && base + 2 < |m'.regs|
      && m'.regs[base] == i.value && m'.regs[base + 1] == l.value && m'.regs[base + 2] == s.value
      && Same(used, m.regs, m'.regs)
  }

  ghost function StepValue(h: Host, env: Env, g: Globals, step: Option<Expression>): Option<Value> {
    if step.None? then Some(Integer(1)) else Eval(h, env, g, step.value)
  }

  lemma PushStepRuns(h: Host, p: Program, step: Option<Expression>, locals: seq<LocalVar>, env: Env, s: State, m: Machine)
    returns (n: nat)
    requires LocalsOk(locals, s)
    requires var e := if step.None? then Discharge(Const(Integer(1)), PushNew, s) else PushExpression(h, locals, step.value, s);
             e.Some? && Fits(p, m, e.value.code, e.value.state)
    requires EnvMatches(locals, env, m.regs)
    ensures var e := if step.None? then Discharge(Const(Integer(1)), PushNew, s) else PushExpression(h, locals, step.value, s);
            Yields(h, p, m, n, StepValue(h, env, m.globals, step), |e.value.code|, s.alloc.used, Top(s.alloc.used))
            && Top(s.alloc.used) !in s.alloc.used
  {
    hide Steps, PushExpression, Eval, IsTop;
    if step.None? {
      DischargePlaced(Const(Integer(1)), PushNew, s);
      n := DischargeRuns(h, p, Const(Integer(1)), PushNew, s, m);
      EvalConst(h, Integer(1), m.regs, m.globals);
    } else {
      PushExpressionOk(h, locals, step.value, s);
      n := PushExpressionRuns(h, p, step.value, locals, env, s, m);
    }
  }

  lemma ForControlRuns(h: Host, p: Program, initial: Expression, limit: Expression, step: Option<Expression>, locals: seq<LocalVar>, env: Env, s: State, m: Machine)
    returns (n: nat)
    requires LocalsOk(locals, s) && ForControl(h, initial, limit, step, locals, s).Some?
    requires var c := ForControl(h, initial, limit, step, locals, s).value; Fits(p, m, c.code, c.state)
    requires EnvMatches(locals, env, m.regs)
    ensures YieldsControl(h, p, m, n, Eval(h, env, m.globals, initial), Eval(h, env, m.globals, limit), StepValue(h, env, m.globals, step),
                          |ForControl(h, initial, limit, step, locals, s).value.code|, s.alloc.used)
  {
    hide Steps, PushExpression, Eval, StepValue, IsTop, EnvMatches, Discharge;
    ForControlOk(h, initial, limit, step, locals, s);
    PushExpressionOk(h, locals, initial, s);
    var i := PushExpression(h, locals, initial, s).value;
    PushExpressionOk(h, locals, limit, i.state);
    var l := PushExpression(h, locals, limit, i.state).value;
    var st := if step.None? then Discharge(Const(Integer(1)), PushNew, l.state).value
              else PushExpression(h, locals, step.value, l.state).value;
    CodeAtSplit(p, m.pc, i.code + l.code, st.code);
    CodeAtSplit(p, m.pc, i.code, l.code);
    n := PushExpressionRuns(h, p, initial, locals, env, s, m);
    if Eval(h, env, m.globals, initial).Some? {
      var m1 := Steps(h, p, m, n);
      var n2 := PushExpressionRuns(h, p, limit, locals, env, i.state, m1);
      StepsCompose(h, p, m, n, n2);
      n := n + n2;
      if Eval(h, env, m.globals, limit).Some? {
        var m2 := Steps(h, p, m, n);
        var n3 := PushStepRuns(h, p, step, locals, env, l.state, m2);
        StepsCompose(h, p, m, n, n3);
        n := n + n3;
        if StepValue(h, env, m.globals, step).Some? {
          ControlKept(s, i.state, l.state, m.regs, m1.regs, m2.regs, Steps(h, p, m, n).regs);
        }
      }
    }
  }

  lemma ControlKept(s: State, s1: State, s2: State, r0: seq<Value>, r1: seq<Value>, r2: seq<Value>, r3: seq<Value>)
    requires Ok(s.alloc) && Pushed(s, 1, s1) && Pushed(s, 2, s2) && s2.alloc.size <= |r0|
    requires Same(s.alloc.used, r0, r1) && Same(s1.alloc.used, r1, r2) && Same(s2.alloc.used, r2, r3)
    ensures Same(s.alloc.used, r0, r3)
    ensures var t := Top(s.alloc.used); t + 1 < |r0| && r3[t] == r1[t] && r3[t + 1] == r2[t + 1]
  {
    var t := Top(s.alloc.used);
    assert t in s1.alloc.used by { assert t in Range(t, 1); }
    assert t in s2.alloc.used && t + 1 in s2.alloc.used by { assert t in Range(t, 2) && t + 1 in Range(t, 2); }
    SameTwice(s.alloc.used, s1.alloc.used, r0, r1, r2);
    SameTwice(s.alloc.used, s2.alloc.used, r0, r2, r3);
  }

  /** Everything a `for` loop's code and registers have settled once its control values are pushed. */
  ghost predicate ForReady(h: Host, st: Statement, locals: seq<LocalVar>, s: State, s4: State, inner: seq<LocalVar>, b: Code)
    requires st.NumericFor?
  {
    var base := Top(s.alloc.used);
    && LocalsOk(locals, s) && LocalsOk(inner, s4) && Pushed(s, 4, s4)
    && inner == locals + [LocalVar(st.name, base + 3)]
    && BlockCode(h, st.fbody, inner, s4) == Some(b)
  }

  /** The pieces of a `for` statement's code. */
  ghost predicate ForPieces(h: Host, p: Program, st: Statement, locals: seq<LocalVar>, s: State, m: Machine, e: Scoped, c: Emitted, s4: State, inner: seq<LocalVar>, b: Code, end: nat)
    requires st.NumericFor?
  {
    && ForControl(h, st.initial, st.limit, st.step, locals, s) == Some(c) && c.reg == Top(s.alloc.used)
    && Fits(p, m, c.code, c.state)
    && ForReady(h, st, locals, s, s4, inner, b)
    && |e.items| == |c.code| + |b.items| + 2 && m.pc + |e.items| <= |p.code|
    && Top(s.alloc.used) + 3 < |m.regs| && Holds(p, m, b.state)
    && p.code[m.pc + |c.code|] == NumericForPrep(c.reg, |b.items|)
    && ItemsAt(p, m.pc + |c.code| + 1, b.items, m.pc + |e.items|, end)
    && p.code[m.pc + |c.code| + 1 + |b.items|] == NumericForLoop(c.reg, -(|b.items| + 1))
  }

  /** The parts that a `for` loop is compiled from. */
  lemma ForCompiled(h: Host, st: Statement, locals: seq<LocalVar>, s: State)
    returns (c: Emitted, s4: State, inner: seq<LocalVar>, b: Code)
    requires st.NumericFor? && LocalsOk(locals, s) && StatementCode(h, st, locals, s).Some?
    ensures ForControl(h, st.initial, st.limit, st.step, locals, s) == Some(c) && c.reg == Top(s.alloc.used)
    ensures Grown(c.state, s4) && Grown(s4, b.state) && ForReady(h, st, locals, s, s4, inner, b)
    ensures var whole := ForCode(c.code, c.reg, Code(b.items, Exited(s, b.state)));
            whole.Some? && StatementCode(h, st, locals, s) == Some(Scoped(whole.value.items, locals, whole.value.state))
  {
    hide ForControl, BlockCode, ForCode, IsTop;
    ForControlOk(h, st.initial, st.limit, st.step, locals, s);
    c := ForControl(h, st.initial, st.limit, st.step, locals, s).value;
    ForBodyLocals(locals, st.name, s, c.state);
    var v := Push(c.state.alloc, 1).value;
    s4 := c.state.(alloc := v.1);
    inner := locals + [LocalVar(st.name, v.0)];
    BlockCodeOk(h, st.fbody, inner, s4);
    b := BlockCode(h, st.fbody, inner, s4).value;
  }

  lemma ForFits(h: Host, p: Program, st: Statement, locals: seq<LocalVar>, s: State, m: Machine, brk: nat, end: nat)
    returns (c: Emitted, s4: State, inner: seq<LocalVar>, b: Code)
    requires st.NumericFor? && LocalsOk(locals, s) && StatementCode(h, st, locals, s).Some?
    requires var e := StatementCode(h, st, locals, s).value; Holds(p, m, e.state) && ItemsAt(p, m.pc, e.items, brk, end)
    ensures ForPieces(h, p, st, locals, s, m, StatementCode(h, st, locals, s).value, c, s4, inner, b, end)
  {
    hide StatementCode, ForControl, BlockCode, IsTop, ItemsAt, CodeAt, LocalsOk;
    c, s4, inner, b := ForCompiled(h, st, locals, s);
    ForLayout(p, m.pc, c.code, c.reg, Code(b.items, Exited(s, b.state)), brk, end);
    hide ForCode;
  }

  lemma {:induction false} ForRuns(h: Host, p: Program, fuel: nat, st: Statement, locals: seq<LocalVar>, env: Env, s: State, m: Machine, brk: nat, end: nat)
    returns (n: nat)
    requires st.NumericFor? && LocalsOk(locals, s) && StatementCode(h, st, locals, s).Some?
    requires var e := StatementCode(h, st, locals, s).value; Holds(p, m, e.state) && ItemsAt(p, m.pc, e.items, brk, end)
    requires EnvMatches(locals, env, m.regs)
    ensures var e := StatementCode(h, st, locals, s).value;
            Simulates(h, p, m, n, ExecStatement(h, fuel, st, env, m.globals), fuel, locals, locals, s.alloc.used, |e.items|, brk)
    decreases fuel, st, 1
  {
    hide Steps, StatementCode, ForControl, BlockCode, Eval, ExecFor, Execute, IsTop, EnvMatches, ItemsAt, CodeAt, Frame, Same, LocalsOk;
    var c, s4, inner, b := ForFits(h, p, st, locals, s, m, brk, end);
    n := ForControlRuns(h, p, st.initial, st.limit, st.step, locals, env, s, m);
    var i, l, x := Eval(h, env, m.globals, st.initial), Eval(h, env, m.globals, st.limit), StepValue(h, env, m.globals, st.step);
    if i.Some? && l.Some? && x.Some? {
      var m1 := Steps(h, p, m, n);
      SameSize(s.alloc.used, m.regs, m1.regs);
      PrepStep(h, p, m1, c.reg, |b.items|, i.value, x.value);
      StepsCompose(h, p, m, n, 1);
      n := n + 1;
      var index := Binary(h, Sub, i.value, x.value);
      if index.Some? {
        var m2 := Steps(h, p, m, n);
        ControlFrame(locals, env, s, m.regs, m1.regs, index.value);
        var n2 := ForLoopRuns(h, p, fuel, st, index.value, l.value, x.value, locals, env, s, s4, inner, b, m2, brk, end);
        FreshSelf(locals, s.alloc.used);
        SimulatesThen(h, p, m, n, n2, ExecStatement(h, fuel, st, env, m.globals), fuel, locals, s.alloc.used, |c.code| + 1 + |b.items|,
                      locals, s.alloc.used, 1, locals, brk);
        n := n + n2;
      }
    }
  }

  lemma SameSize(used: set<nat>, r0: seq<Value>, r1: seq<Value>)
    requires Same(used, r0, r1)
    ensures |r0| == |r1|
  {
  }

  lemma FreshSelf(locals: seq<LocalVar>, used: set<nat>)
    ensures Fresh(locals, locals, used)
  {
  }

  /** Decrementing the index before the loop touches no variable. */
  lemma ControlFrame(locals: seq<LocalVar>, env: Env, s: State, r0: seq<Value>, r1: seq<Value>, index: Value)
    requires LocalsOk(locals, s) && EnvMatches(locals, env, r0) && Same(s.alloc.used, r0, r1) && Top(s.alloc.used) < |r1|
    ensures var r2 := r1[Top(s.alloc.used) := index]; EnvMatches(locals, env, r2) && Frame(s.alloc.used, locals, r0, r2)
  {
    BelowTop(s);
  }

  lemma PrepStep(h: Host, p: Program, m: Machine, base: nat, jump: nat, initial: Value, step: Value)
    requires m.Running? && m.pc < |p.code| && p.code[m.pc] == NumericForPrep(base, jump)
    requires base + 2 < |m.regs| && m.regs[base] == initial && m.regs[base + 2] == step
    ensures var index := Binary(h, Sub, initial, step);
            Steps(h, p, m, 1) == if index.None? then Failed(m.globals)
                                 else Running(m.pc + 1 + jump, m.regs[base := index.value], m.globals)
  {
    OneStep(h, p, m);
  }

  lemma LoopStep(h: Host, p: Program, m: Machine, base: nat, back: int)
    requires m.Running? && m.pc < |p.code| && p.code[m.pc] == NumericForLoop(base, -back) && back <= m.pc + 1
    requires base + 3 < |m.regs|
    ensures var index := ForNext(h, m.regs[base], m.regs[base + 1], m.regs[base + 2]);
            Steps(h, p, m, 1) ==
            if index.None? then Failed(m.globals)
            else if PastEnd(h, index.value, m.regs[base + 1], m.regs[base + 2])
            then Running(m.pc + 1, m.regs[base := index.value], m.globals)
            else Running(m.pc + 1 - back, m.regs[base := index.value][base + 3 := index.value], m.globals)
  {
    OneStep(h, p, m);
  }

  /** The machine is at the loop operation, with the last index in the first control register. */
  ghost predicate AtLoop(p: Program, m: Machine, base: nat, b: Code, end: nat) {
    && m.Running? && m.pc < |p.code| && |b.items| <= m.pc
    && p.code[m.pc] == NumericForLoop(base, -(|b.items| + 1))
    && ItemsAt(p, m.pc - |b.items|, b.items, m.pc + 1, end)
    && Holds(p, m, b.state)
  }

  lemma {:induction false} ForLoopRuns(h: Host, p: Program, fuel: nat, st: Statement, index: Value, limit: Value, step: Value,
                    locals: seq<LocalVar>, env: Env, s: State, s4: State, inner: seq<LocalVar>, b: Code, m: Machine, brk: nat, end: nat)
    returns (n: nat)
    requires st.NumericFor? && ForReady(h, st, locals, s, s4, inner, b) && AtLoop(p, m, Top(s.alloc.used), b, end)
    requires EnvMatches(locals, env, m.regs)
    requires var base := Top(s.alloc.used); base + 3 < |m.regs| && m.regs[base] == index && m.regs[base + 1] == limit && m.regs[base + 2] == step
    ensures Simulates(h, p, m, n, ExecFor(h, fuel, st.name, index, limit, step, st.fbody, env, m.globals), fuel,
                      locals, locals, s.alloc.used, 1, brk)
    decreases fuel, st.fbody, 3
  {
    hide Steps, BlockCode, ExecBlock, IsTop, EnvMatches, ItemsAt, Execute, ForNext, PastEnd;
    n := 0;
    NoSteps(h, p, m);
    if fuel > 0 {
      var base := Top(s.alloc.used);
      LoopStep(h, p, m, base, |b.items| + 1);
      n := 1;
      var next := ForNext(h, index, limit, step);
      if next.Some? {
        if PastEnd(h, next.value, limit, step) {
          SameReflexive(s.alloc.used, m.regs);
          ControlFrame(locals, env, s, m.regs, m.regs, next.value);
        } else {
          n := ForIteration(h, p, fuel, st, index, limit, step, locals, env, s, s4, inner, b, m, brk, end);
        }
      }
    }
  }

  lemma SameReflexive(used: set<nat>, regs: seq<Value>)
    ensures Same(used, regs, regs)
  {
  }

  /** The registers when the body starts: the loop variable is the new innermost variable. */
  lemma BodyStarts(h: Host, st: Statement, locals: seq<LocalVar>, env: Env, s: State, s4: State, inner: seq<LocalVar>, b: Code, regs: seq<Value>, v: Value)
    requires st.NumericFor? && ForReady(h, st, locals, s, s4, inner, b) && EnvMatches(locals, env, regs)
    requires Top(s.alloc.used) + 3 < |regs|
    ensures var base := Top(s.alloc.used); var regs' := regs[base := v][base + 3 := v];
            && EnvMatches(inner, env + [Binding(st.name, v)], regs')
            && Frame(s.alloc.used, locals, regs, regs')
            && regs'[base] == v && regs'[base + 1] == regs[base + 1] && regs'[base + 2] == regs[base + 2]
            && Fresh(locals, inner, s.alloc.used) && s.alloc.used <= s4.alloc.used
  {
    hide BlockCode;
    BelowTop(s);
    assert inner[|locals|..] == [LocalVar(st.name, Top(s.alloc.used) + 3)];
  }

  /** The body leaves the control registers alone. */
  lemma BodyKeeps(h: Host, st: Statement, locals: seq<LocalVar>, s: State, s4: State, inner: seq<LocalVar>, b: Code, regs: seq<Value>, regs': seq<Value>)
    requires st.NumericFor? && ForReady(h, st, locals, s, s4, inner, b) && Frame(s4.alloc.used, inner, regs, regs')
    requires Top(s.alloc.used) + 3 < |regs|
    ensures var base := Top(s.alloc.used);
            regs'[base] == regs[base] && regs'[base + 1] == regs[base + 1] && regs'[base + 2] == regs[base + 2]
  {
    hide BlockCode;
    var base := Top(s.alloc.used);
    BelowTop(s);
    assert base in Range(base, 4) && base + 1 in Range(base, 4) && base + 2 in Range(base, 4);
    forall x | x in RegistersOf(inner) ensures x < base || x == base + 3 {
      var i :| 0 <= i < |inner| && inner[i].reg == x;
      assert i < |locals| ==> inner[i] == locals[i];
    }
  }

  lemma {:induction false} ForIteration(h: Host, p: Program, fuel: nat, st: Statement, index: Value, limit: Value, step: Value,
                     locals: seq<LocalVar>, env: Env, s: State, s4: State, inner: seq<LocalVar>, b: Code, m: Machine, brk: nat, end: nat)
    returns (n: nat)
    requires st.NumericFor? && ForReady(h, st, locals, s, s4, inner, b) && AtLoop(p, m, Top(s.alloc.used), b, end)
    requires EnvMatches(locals, env, m.regs) && fuel > 0
    requires var base := Top(s.alloc.used); base + 3 < |m.regs| && m.regs[base] == index && m.regs[base + 1] == limit && m.regs[base + 2] == step
    requires var next := ForNext(h, index, limit, step); next.Some? && !PastEnd(h, next.value, limit, step)
    ensures Simulates(h, p, m, n, ExecFor(h, fuel, st.name, index, limit, step, st.fbody, env, m.globals), fuel,
                      locals, locals, s.alloc.used, 1, brk)
    decreases fuel, st.fbody, 2
  {
    hide Steps, BlockCode, ExecBlock, IsTop, EnvMatches, ItemsAt, Execute, ForNext, PastEnd, Simulates;
    var base := Top(s.alloc.used);
    var v := ForNext(h, index, limit, step).value;
    LoopStep(h, p, m, base, |b.items| + 1);
    BodyStarts(h, st, locals, env, s, s4, inner, b, m.regs, v);
    var m1 := Steps(h, p, m, 1);
    var env1 := env + [Binding(st.name, v)];
    SameLengths(locals, env, m.regs);
    var n2 := BlockRuns(h, p, fuel, st.fbody, inner, env1, s4, m1, m.pc + 1, end);
    var o := ExecBlock(h, fuel, st.fbody, env1, m.globals);
    n := AfterIteration(h, p, fuel, st, index, limit, step, locals, env, s, s4, inner, b, m, brk, end, n2);
  }

  /** What follows an iteration of `for`: the next one, or the end of the loop. */
  lemma {:induction false} AfterIteration(h: Host, p: Program, fuel: nat, st: Statement, index: Value, limit: Value, step: Value,
                     locals: seq<LocalVar>, env: Env, s: State, s4: State, inner: seq<LocalVar>, b: Code, m: Machine, brk: nat, end: nat, n2: nat)
    returns (n: nat)
    requires st.NumericFor? && ForReady(h, st, locals, s, s4, inner, b) && AtLoop(p, m, Top(s.alloc.used), b, end)
    requires EnvMatches(locals, env, m.regs) && fuel > 0
    requires var base := Top(s.alloc.used); base + 3 < |m.regs| && m.regs[base] == index && m.regs[base + 1] == limit && m.regs[base + 2] == step
    requires var next := ForNext(h, index, limit, step); next.Some? && !PastEnd(h, next.value, limit, step)
    requires var v, base := ForNext(h, index, limit, step).value, Top(s.alloc.used);
             var m1 := Steps(h, p, m, 1);
             m1 == Running(m.pc - |b.items|, m.regs[base := v][base + 3 := v], m.globals)
             && Simulates(h, p, m1, n2, ExecBlock(h, fuel, st.fbody, env + [Binding(st.name, v)], m.globals), fuel,
                          inner, inner, s4.alloc.used, |b.items|, m.pc + 1)
    ensures Simulates(h, p, m, n, ExecFor(h, fuel, st.name, index, limit, step, st.fbody, env, m.globals), fuel,
                      locals, locals, s.alloc.used, 1, brk)
    decreases fuel, st.fbody, 1
  {
    hide Steps, BlockCode, ExecBlock, IsTop, EnvMatches, ItemsAt, Execute, ForNext, PastEnd;
    var base := Top(s.alloc.used);
    var v := ForNext(h, index, limit, step).value;
    BodyStarts(h, st, locals, env, s, s4, inner, b, m.regs, v);
    var m1 := Steps(h, p, m, 1);
    SameLengths(locals, env, m.regs);
    StepsCompose(h, p, m, 1, n2);
    n := 1 + n2;
    var block := ExecBlock(h, fuel, st.fbody, env + [Binding(st.name, v)], m.globals);
    if block.Normal? || block.Broke? {
      var m2 := Steps(h, p, m, n);
      FrameTwice(s.alloc.used, locals, m.regs, m1.regs, s4.alloc.used, inner, m2.regs);
      var inEnv := if block.Normal? then block.env else block.env[..|inner|];
      SameLengths(inner, inEnv, m2.regs);
      EnvPrefix(inner, inEnv, m2.regs, |locals|);
      assert inner[..|locals|] == locals && inEnv[..|locals|] == block.env[..|locals|];
      if block.Normal? {
        BodyKeeps(h, st, locals, s, s4, inner, b, m1.regs, m2.regs);
        var n3 := ForLoopRuns(h, p, fuel - 1, st, v, limit, step, locals, block.env[..|locals|], s, s4, inner, b, m2, brk, end);
        LoopAgain(h, p, m, n, n3, ExecFor(h, fuel, st.name, index, limit, step, st.fbody, env, m.globals), fuel, locals, s.alloc.used, 1, brk);
        n := n + n3;
      }
    }
  }
}
