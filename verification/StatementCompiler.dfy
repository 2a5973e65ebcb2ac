/** The compiler's methods for statements, which emit operations, declare variables and patch jumps in place.
    Proved against the functions in `StatementCodegen`. A result of `false` is a compile error. */
module StatementCompilers {
  import opened Values
  import opened Ast
  import opened Codegen
  import opened StatementCodegen
  import opened StatementShape
  import opened ExprCorrect
  import opened Patching
  import A = AllocatorSpec
  import M = Machine
  import X = ExpressionCompilers

  class StatementCompiler {
    const host: Host
    const e: X.ExpressionCompiler
    var locals: seq<LocalVar>
    var pending: seq<PendingJump>

    ghost predicate Valid()
      reads this, e, e.allocator, e.allocator.registers
    {
      e.Valid() && LocalsOk(locals, e.State()) && forall i :: 0 <= i < |pending| ==> pending[i].instruction < |e.operations|
    }

    constructor (h: Host)
      ensures Valid() && fresh(e) && fresh(e.allocator) && fresh(e.allocator.registers)
      ensures host == h && locals == [] && pending == [] && e.operations == []
      ensures e.State() == Codegen.State(A.Alloc({}, 0), [])
    {
      host := h;
      e := new X.ExpressionCompiler();
      locals, pending := [], [];
      new;
      e.ValidIsOk();
    }

    /** The code and the state are those of the specification. */
    ghost predicate Emitted(ok: bool, before: seq<M.Operation>, spec: Option<Ops>)
      reads e, e.allocator
    {
      match spec
      case Some(o) => ok && e.operations == before + o.code && e.State() == o.state
      case None => !ok
    }

    // Conditions.

    method RegisterTest(d: Desc, skipIf: bool) returns (ok: bool)
      requires e.Valid() && ReadsOnly(d, e.allocator.used)
      modifies e, e.allocator, e.allocator.registers
      ensures e.Valid() && Emitted(ok, old(e.operations), StatementCodegen.RegisterTest(d, skipIf, old(e.State())))
    {
      hide AnyRegister, A.IsTop, A.IsFirstFree;
      e.ValidIsOk();
      ghost var s := e.State();
      var source, temp := e.ExprAnyRegister(d);
      if source.None? {
        return false;
      }
      AnyRegisterOk(d, s);
      e.FreeTemporary(temp);
      e.Emit([M.Test(source.value.r, skipIf)]);
      return true;
    }

    method ComparisonTest(d: Desc, skipIf: bool) returns (ok: bool)
      requires e.Valid() && d.ComparisonDesc? && ReadsOnly(d, e.allocator.used)
      modifies e, e.allocator, e.allocator.registers
      ensures e.Valid() && Emitted(ok, old(e.operations), StatementCodegen.ComparisonTest(d, skipIf, old(e.State())))
    {
      hide Operands;
      var o := e.ExprOperands(d);
      if o.None? {
        return false;
      }
      e.Emit([ComparisonOperation(d.cop, o.value.0, o.value.1, skipIf)]);
      return true;
    }

    /** `expr_test`: constants are tested by the compiler, comparisons by their own operation. */
    method ExprTest(d: Desc, skipIf: bool) returns (ok: bool)
      requires e.Valid() && ReadsOnly(d, e.allocator.used)
      modifies e, e.allocator, e.allocator.registers
      ensures e.Valid() && Emitted(ok, old(e.operations), TestCode(d, skipIf, old(e.State())))
    {
      hide StatementCodegen.RegisterTest, StatementCodegen.ComparisonTest;
      match d {
        case Const(v) =>
          e.Emit(if ToBool(v) == skipIf then [NoClose(1)] else []);
          return true;
        case ComparisonDesc(_, _, _) => ok := ComparisonTest(d, skipIf);
        case UnaryDesc(Not, operand) =>
          if operand.ComparisonDesc? {
            ok := ComparisonTest(operand, !skipIf);
          } else {
            ok := RegisterTest(operand, !skipIf);
          }
        case _ => ok := RegisterTest(d, skipIf);
      }
    }

    method Condition(x: Expression) returns (ok: bool)
      requires e.Valid() && LocalsOk(locals, e.State())
      modifies e, e.allocator, e.allocator.registers
      ensures e.Valid() && Emitted(ok, old(e.operations), StatementCodegen.Condition(host, locals, x, old(e.State())))
      ensures ok ==> LocalsOk(locals, e.State()) && SameRegisters(old(e.State()), e.State())
    {
      hide TestCode, Describe, A.IsTop, A.IsFirstFree;
      var d := Describe(host, locals, x);
      if d.None? {
        return false;
      }
      DescribeReads(host, locals, x, e.State());
      ghost var s := e.State();
      ok := ExprTest(d.value, true);
      if ok {
        ConditionOk(host, locals, x, s);
      }
    }

    // Values pushed on the register stack.

    ghost predicate GaveRegister(r: Option<nat>, before: seq<M.Operation>, spec: Option<Codegen.Emitted>)
      reads e, e.allocator
    {
      match spec
      case Some(x) => r == Some(x.reg) && e.operations == before + x.code && e.State() == x.state
      case None => r == None
    }

    method PushExpression(x: Expression) returns (r: Option<nat>)
      requires e.Valid() && LocalsOk(locals, e.State())
      modifies e, e.allocator, e.allocator.registers
      ensures e.Valid() && GaveRegister(r, old(e.operations), StatementCodegen.PushExpression(host, locals, x, old(e.State())))
      ensures r.Some? ==> LocalsOk(locals, e.State())
    {
      hide Discharge, Describe, A.IsTop, A.IsFirstFree;
      var d := Describe(host, locals, x);
      if d.None? {
        return None;
      }
      ghost var s := e.State();
      DescribeReads(host, locals, x, s);
      r := e.ExprDischarge(d.value, PushNew);
      if r.Some? {
        PushExpressionOk(host, locals, x, s);
      }
    }

    method PushAll(xs: seq<Expression>) returns (ok: bool)
      requires e.Valid() && LocalsOk(locals, e.State())
      modifies e, e.allocator, e.allocator.registers
      ensures e.Valid() && Emitted(ok, old(e.operations), StatementCodegen.PushAll(host, locals, xs, old(e.State())))
    {
      hide StatementCodegen.PushExpression, LocalsOk;
      var i := 0;
      while i < |xs|
        invariant 0 <= i <= |xs| && e.Valid() && LocalsOk(locals, e.State())
        invariant old(e.operations) <= e.operations
        invariant StatementCodegen.PushAll(host, locals, xs, old(e.State()))
                  == Behind(e.operations[|old(e.operations)|..], StatementCodegen.PushAll(host, locals, xs[i..], e.State()))
      {
        ghost var before, s := e.operations, e.State();
        var r := PushExpression(xs[i]);
        if r.None? {
          return false;
        }
        assert xs[i..][1..] == xs[i + 1..];
        BehindMore(before[|old(e.operations)|..], StatementCodegen.PushExpression(host, locals, xs[i], s).value.code,
                   StatementCodegen.PushAll(host, locals, xs[i + 1..], e.State()));
        assert e.operations[|old(e.operations)|..]
            == before[|old(e.operations)|..] + StatementCodegen.PushExpression(host, locals, xs[i], s).value.code;
        i := i + 1;
      }
      return true;
    }

    method PushNils(count: nat) returns (r: Option<nat>)
      requires e.Valid()
      modifies e, e.allocator, e.allocator.registers
      ensures e.Valid() && GaveRegister(r, old(e.operations), StatementCodegen.PushNils(count, old(e.State())))
    {
      r := e.Push(count);
      if r.Some? {
        e.Emit([M.LoadNil(r.value, count)]);
      }
    }

    /** `expr_push_count`: a value, and nils behind it. */
    method ExprPushCount(d: Desc, count: nat) returns (r: Option<nat>)
      requires e.Valid() && ReadsOnly(d, e.allocator.used)
      modifies e, e.allocator, e.allocator.registers
      ensures e.Valid() && GaveRegister(r, old(e.operations), PushCount(d, count, old(e.State())))
    {
      hide Discharge, StatementCodegen.PushNils;
      if d == Const(Nil) {
        r := PushNils(count);
        return;
      }
      e.ValidIsOk();
      r := e.ExprDischarge(d, PushNew);
      if r.None? || count <= 1 {
        return;
      }
      var more := PushNils(count - 1);
      if more.None? {
        return None;
      }
    }

    // Statements.

    /** Code, pending jumps, variables and registers are those of the specification. */
    ghost predicate Compiled(ok: bool, before: seq<M.Operation>, waiting: seq<PendingJump>, spec: Option<Scoped>)
      reads this, e, e.allocator
    {
      match spec
      case Some(c) => ok && Adds(before, waiting, c.items, e.operations, pending) && locals == c.locals && e.State() == c.state
      case None => !ok
    }

    ghost predicate Grew(ok: bool, before: seq<M.Operation>, waiting: seq<PendingJump>, spec: Option<Code>)
      reads this, e, e.allocator
    {
      match spec
      case Some(c) => ok && Adds(before, waiting, c.items, e.operations, pending) && e.State() == c.state
      case None => !ok
    }

    method DeclareAll(names: seq<Name>, register: nat)
      modifies this`locals
      ensures locals == old(locals) + DeclareLocals(names, register)
    {
      var i := 0;
      while i < |names|
        invariant 0 <= i <= |names| && locals == old(locals) + DeclareLocals(names, register)[..i]
      {
        locals := locals + [LocalVar(names[i], register + i)];
        i := i + 1;
      }
      assert DeclareLocals(names, register)[..i] == DeclareLocals(names, register);
    }

    method LocalStatement(names: seq<Name>, value: Option<Expression>) returns (ok: bool)
      requires Valid()
      modifies this, e, e.allocator, e.allocator.registers
      ensures ok ==> Valid()
      ensures Compiled(ok, old(e.operations), old(pending), LocalCode(host, names, value, old(locals), old(e.State())))
    {
      hide PushCount, Describe, A.IsTop, A.IsFirstFree;
      ghost var s := e.State();
      if names == [] || ENV in names {
        return false;
      }
      var d := if value.None? then Some(Const(Nil)) else Describe(host, locals, value.value);
      if d.None? {
        return false;
      }
      if value.Some? {
        DescribeReads(host, locals, value.value, s);
      }
      var r := ExprPushCount(d.value, |names|);
      if r.None? {
        return false;
      }
      LocalCodeOk(host, names, value, locals, s);
      ghost var code := PushCount(d.value, |names|, s).value.code;
      AddsEmitted(old(e.operations), old(pending), code);
      DeclareAll(names, r.value);
      return true;
    }

    method Assignment(target: Name, x: Expression) returns (ok: bool)
      requires Valid()
      modifies e, e.allocator, e.allocator.registers
      ensures ok ==> Valid()
      ensures Grew(ok, old(e.operations), pending, AssignmentCode(host, target, x, locals, old(e.State())))
    {
      hide PushCount, Describe, ConstantKey, FindLocal, A.IsTop, A.IsFirstFree;
      ghost var s := e.State();
      if target == ENV {
        return false;
      }
      var top := e.allocator.stackTop;
      var d := Describe(host, locals, x);
      if d.None? {
        return false;
      }
      DescribeReads(host, locals, x, s);
      var value := ExprPushCount(d.value, 1);
      if value.None? {
        return false;
      }
      ghost var v := PushCount(d.value, 1, s).value;
      var local := FindLocal(locals, target);
      ghost var code := v.code;
      if local.Some? {
        e.Emit([M.Move(local.value, value.value)]);
        code := v.code + [M.Move(local.value, value.value)];
      } else {
        var key, temp := e.ConstantKeyOperand(target);
        if key.None? {
          return false;
        }
        PushCountOk(d.value, 1, s);
        ConstantKeyOk(target, v.state);
        e.FreeTemporary(temp);
        e.Emit([M.SetUpTable(0, key.value, M.Register(value.value))]);
        code := v.code + ConstantKey(target, v.state).value.code + [M.SetUpTable(0, key.value, M.Register(value.value))];
      }
      assert e.operations == old(e.operations) + code;
      e.allocator.PopTo(top);
      AssignmentCodeOk(host, target, x, locals, s);
      AddsEmitted(old(e.operations), old(pending), code);
      return true;
    }

    method ReturnStatement(xs: seq<Expression>) returns (ok: bool)
      requires Valid()
      modifies e, e.allocator, e.allocator.registers
      ensures ok ==> Valid()
      ensures Grew(ok, old(e.operations), pending, ReturnCode(host, xs, locals, old(e.State())))
    {
      hide StatementCodegen.PushAll, A.IsTop, A.IsFirstFree;
      ghost var s := e.State();
      var top := e.allocator.stackTop;
      var pushed := PushAll(xs);
      if !pushed || |xs| > 254 || top >= A.REGISTERS {
        return false;
      }
      e.Emit([M.Return(top, |xs|)]);
      ghost var code := StatementCodegen.PushAll(host, locals, xs, s).value.code + [M.Return(top, |xs|)];
      assert e.operations == old(e.operations) + code;
      e.allocator.PopTo(top);
      ReturnCodeOk(host, xs, locals, s);
      AddsEmitted(old(e.operations), old(pending), code);
      return true;
    }

    // Jumps.

    /** `jump_target`: patches the jumps to a label that the code from `start` on has left open. */
    method JumpTarget(start: nat, lbl: Label, ghost before: seq<M.Operation>, ghost waiting: seq<PendingJump>, ghost items: seq<Item>)
      returns (ok: bool)
      requires |before| == start && Adds(before, waiting, items, e.operations, pending)
      requires forall i :: 0 <= i < |waiting| ==> waiting[i].instruction < start
      modifies this`pending, e`operations
      ensures ok == InReach(items, lbl, |items|)
      ensures ok ==> Adds(before, waiting, Patch(items, lbl, |items|), e.operations, pending)
    {
      PendWithin(items, start);
      PatchesItems(before, items, lbl, start + |items|);
      OthersStay(items, lbl, start, start + |items|);
      PatchEndAt(items, lbl, start);
      var k := 0;
      while k < |pending| && pending[k].instruction < start
        invariant 0 <= k <= |waiting|
      {
        k := k + 1;
      }
      assert pending[..k] == waiting && pending[k..] == PendOf(items, start);
      var kept;
      ok, kept := PatchFrom(pending[k..], lbl, |e.operations|);
      pending := pending[..k] + kept;
    }

    method PatchFrom(ps: seq<PendingJump>, lbl: Label, target: nat) returns (ok: bool, kept: seq<PendingJump>)
      modifies e`operations
      ensures match PatchPending(old(e.operations), ps, lbl, target)
              case Some(ops) => ok && e.operations == ops && kept == Others(ps, lbl)
              case None => !ok
    {
      kept := [];
      var i := 0;
      while i < |ps|
        invariant 0 <= i <= |ps| && kept + Others(ps[i..], lbl) == Others(ps, lbl)
        invariant PatchPending(e.operations, ps[i..], lbl, target) == PatchPending(old(e.operations), ps, lbl, target)
      {
        assert ps[i..][1..] == ps[i + 1..];
        if ps[i].target == lbl {
          if ps[i].instruction >= |e.operations| || !Reaches(ps[i].instruction, target) {
            return false, kept;
          }
          e.operations := e.operations[ps[i].instruction := NoClose(target - (ps[i].instruction + 1))];
        } else {
          kept := kept + [ps[i]];
        }
        i := i + 1;
      }
      return true, kept;
    }

    /** Forgets the variables declared in a block, and frees their registers. */
    method CloseScope(count: nat, ghost s: Codegen.State)
      requires e.Valid() && count <= |locals| && LocalsOk(locals[..count], s) && Extends(locals[..count], s, locals, e.State())
      modifies this`locals, e.allocator, e.allocator.registers
      ensures e.Valid() && locals == old(locals)[..count] && e.State() == Exited(s, old(e.State()))
    {
      hide A.IsTop, A.IsFirstFree, RegistersOf;
      ghost var was := locals;
      assert was[..|was|] == was;
      while |locals| > count
        invariant e.Valid() && count <= |locals| <= |was| && locals == was[..|locals|]
        invariant e.allocator.used == s.alloc.used + RegistersOf(locals[count..])
        invariant e.State() == old(e.State()).(alloc := A.Alloc(e.allocator.used, old(e.State()).alloc.size))
      {
        var last := locals[|locals| - 1];
        LastRegister(was, |locals|, count, s.alloc.used);
        e.allocator.Free(last.reg);
        locals := locals[..|locals| - 1];
      }
      assert locals[count..] == [];
      NoRegisters();
    }

    // Blocks and compound statements.

    method Statements(ss: seq<Statement>) returns (ok: bool)
      requires Valid()
      modifies this, e, e.allocator, e.allocator.registers
      ensures ok ==> Valid()
      ensures Compiled(ok, old(e.operations), old(pending), StatementsCode(host, ss, old(locals), old(e.State())))
      decreases ss, 0
    {
      hide StatementCode, Valid, Adds;
      ghost var done: seq<Item> := [];
      AddsNothing(e.operations, pending);
      var i := 0;
      while i < |ss|
        invariant 0 <= i <= |ss| && Valid()
        invariant Adds(old(e.operations), old(pending), done, e.operations, pending)
        invariant StatementsCode(host, ss, old(locals), old(e.State())) == After(done, StatementsCode(host, ss[i..], locals, e.State()))
      {
        ghost var l, s, ops, ps := locals, e.State(), e.operations, pending;
        ok := Statement(ss[i]);
        StatementsStep(host, ss[i..], l, s);
        if !ok {
          return false;
        }
        ghost var items := StatementCode(host, ss[i], l, s).value.items;
        AddsThen(old(e.operations), old(pending), done, ops, ps, items, e.operations, pending);
        AfterMore(done, items, StatementsCode(host, ss[i..][1..], locals, e.State()));
        assert ss[i..][1..] == ss[i + 1..];
        done := done + items;
        i := i + 1;
      }
      AfterAll(done, locals, e.State());
      return true;
    }

    method OpenBlock(b: Block) returns (ok: bool)
      requires Valid()
      modifies this, e, e.allocator, e.allocator.registers
      ensures ok ==> Valid()
      ensures Compiled(ok, old(e.operations), old(pending), OpenBlockCode(host, b, old(locals), old(e.State())))
      decreases b, 0
    {
      hide StatementsCode, ReturnCode, Valid, Adds;
      ghost var l, s := locals, e.State();
      ok := Statements(b.statements);
      if ok && b.ret.Some? {
        ghost var first, ops, ps := StatementsCode(host, b.statements, l, s).value, e.operations, pending;
        ok := ReturnStatement(b.ret.value);
        if ok {
          AddsThen(old(e.operations), old(pending), first.items, ops, ps,
                   ReturnCode(host, b.ret.value, first.locals, first.state).value.items, e.operations, pending);
        }
      }
    }

    method Block(b: Block) returns (ok: bool)
      requires Valid()
      modifies this, e, e.allocator, e.allocator.registers
      ensures ok ==> Valid() && locals == old(locals)
      ensures Grew(ok, old(e.operations), old(pending), BlockCode(host, b, old(locals), old(e.State())))
      decreases b, 1
    {
      hide OpenBlockCode, Adds;
      ghost var s := e.State();
      var count := |locals|;
      ok := OpenBlock(b);
      if ok {
        OpenBlockCodeOk(host, b, old(locals), s);
        assert locals[..count] == old(locals);
        BlockCodeOk(host, b, old(locals), s);
        hide Extends, SameRegisters;
        CloseScope(count, s);
        SameLocalsOk(locals, s, e.State());
      }
    }

    method Statement(st: Statement) returns (ok: bool)
      requires Valid()
      modifies this, e, e.allocator, e.allocator.registers
      ensures ok ==> Valid()
      ensures Compiled(ok, old(e.operations), old(pending), StatementCode(host, st, old(locals), old(e.State())))
      decreases st, 2
    {
      hide Adds, Valid, BlockCode, LocalCode, AssignmentCode;
      match st {
        case LocalStatement(names, value) => ok := LocalStatement(names, value);
        case Assignment(target, x) => ok := Assignment(target, x);
        case Do(b) => ok := Block(b);
        case If(chain) => ok := IfStatement(chain);
        case While(condition, body) => ok := WhileStatement(condition, body);
        case Repeat(body, until) => ok := RepeatStatement(body, until);
        case NumericFor(name, initial, limit, step, body) => ok := ForStatement(name, initial, limit, step, body);
        case Break =>
          OpenJump(BreakLabel);
          ok := true;
      }
    }

    /** A jump to a label that is still to come. */
    method OpenJump(lbl: Label)
      requires Valid()
      modifies this`pending, e`operations
      ensures Valid() && Adds(old(e.operations), old(pending), [Goto(lbl)], e.operations, pending)
    {
      AddsGoto(e.operations, pending, lbl);
      pending := pending + [PendingJump(|e.operations|, lbl)];
      e.Emit([NoClose(0)]);
    }

    /** `jump` and later `jump_target` with a label of their own: a placeholder that is filled in. */
    method FillIn(jump: nat, op: M.Operation, ghost before: seq<M.Operation>, ghost waiting: seq<PendingJump>,
                  ghost a: seq<Item>, ghost b: seq<Item>)
      requires Adds(before, waiting, a + [Emit(NoClose(0))] + b, e.operations, pending) && jump == |before| + |a|
      modifies e`operations
      ensures Adds(before, waiting, a + [Emit(op)] + b, e.operations, pending)
    {
      AddsPatched(before, waiting, a, NoClose(0), b, e.operations, pending, op);
      e.operations := e.operations[jump := op];
    }

    method WhileStatement(condition: Expression, body: Block) returns (ok: bool)
      requires Valid()
      modifies this, e, e.allocator, e.allocator.registers
      ensures ok ==> Valid() && locals == old(locals)
      ensures Grew(ok, old(e.operations), old(pending), WhileSpec(host, condition, body, old(locals), old(e.State())))
      decreases body, 2
    {
      hide BlockCode, StatementCodegen.Condition, LocalsOk, Adds, Extends, SameRegisters;
      ghost var s := e.State();
      var start := |e.operations|;
      ok := Condition(condition);
      if !ok {
        return;
      }
      ghost var test := StatementCodegen.Condition(host, locals, condition, s).value;
      var jump := |e.operations|;
      e.Emit([NoClose(0)]);
      ghost var front := test.code + [NoClose(0)];
      assert e.operations == old(e.operations) + front;
      AddsEmitted(old(e.operations), pending, front);
      ghost var ops := e.operations;
      ok := Block(body);
      if !ok {
        return;
      }
      ghost var b := BlockCode(host, body, locals, test.state).value;
      AddsThen(old(e.operations), old(pending), Emits(front), ops, old(pending), b.items, e.operations, pending);
      AddsWithin(old(e.operations), old(pending), Emits(front) + b.items, e.operations, pending);
      var skip, back := |e.operations| - jump, |e.operations| + 1 - start;
      if skip > MAX_I16 || back > MAX_I16 || BreakRefused(body) {
        return false;
      }
      AddsEmitted(e.operations, pending, [NoClose(-back)]);
      ghost var ops1 := e.operations;
      e.Emit([NoClose(-back)]);
      AddsThen(old(e.operations), old(pending), Emits(front) + b.items, ops1, pending, Emits([NoClose(-back)]), e.operations, pending);
      WhileItems(test.code, b.items, back, skip);
      FillIn(jump, NoClose(skip), old(e.operations), old(pending), Emits(test.code), b.items + Emits([NoClose(-back)]));
      ghost var items := Emits(test.code + [NoClose(skip)]) + b.items + [Emit(NoClose(-back))];
      ok := JumpTarget(start, BreakLabel, old(e.operations), old(pending), items);
      if ok {
        AddsWithin(old(e.operations), old(pending), Patch(items, BreakLabel, |items|), e.operations, pending);
      }
    }

    method RepeatStatement(body: Block, until: Expression) returns (ok: bool)
      requires Valid()
      modifies this, e, e.allocator, e.allocator.registers
      ensures ok ==> Valid() && locals == old(locals)
      ensures Grew(ok, old(e.operations), old(pending), RepeatSpec(host, body, until, old(locals), old(e.State())))
      decreases body, 2
    {
      hide OpenBlockCode, StatementCodegen.Condition, LocalsOk, Adds, Extends, SameRegisters, RepeatCode, A.IsTop, A.IsFirstFree;
      ghost var s := e.State();
      var start, count := |e.operations|, |locals|;
      ok := OpenBlock(body);
      if !ok {
        return;
      }
      OpenBlockCodeOk(host, body, old(locals), s);
      ghost var b, ops := OpenBlockCode(host, body, old(locals), s).value, e.operations;
      ok := Condition(until);
      if !ok {
        return;
      }
      ghost var test := StatementCodegen.Condition(host, locals, until, b.state).value;
      RepeatScope(old(locals), s, b.locals, b.state, test.state);
      AddsWithin(old(e.operations), old(pending), b.items, ops, pending);
      var back := |e.operations| + 1 - start;
      if back > MAX_I16 {
        RepeatTooLong(b.items, test.code, Exited(s, test.state));
        return false;
      }
      e.Emit([NoClose(-back)]);
      assert e.operations == ops + (test.code + [NoClose(-back)]);
      AddsEmitted(ops, pending, test.code + [NoClose(-back)]);
      AddsThen(old(e.operations), old(pending), b.items, ops, pending, Emits(test.code + [NoClose(-back)]), e.operations, pending);
      ghost var items := b.items + Emits(test.code + [NoClose(-back)]);
      assert locals[..count] == old(locals);
      CloseScope(count, s);
      SameLocalsOk(locals, s, e.State());
      RepeatSpecIs(b.items, test.code, back, Exited(s, test.state));
      ok := JumpTarget(start, BreakLabel, old(e.operations), old(pending), items);
      if ok {
        AddsWithin(old(e.operations), old(pending), Patch(items, BreakLabel, |items|), e.operations, pending);
      }
    }

    /** The three control values of a numeric `for`, on the stack top. */
    method ForControlValues(initial: Expression, limit: Expression, step: Option<Expression>) returns (base: Option<nat>)
      requires e.Valid() && LocalsOk(locals, e.State())
      modifies e, e.allocator, e.allocator.registers
      ensures e.Valid() && GaveRegister(base, old(e.operations), ForControl(host, initial, limit, step, locals, old(e.State())))
    {
      hide StatementCodegen.PushExpression, Discharge, LocalsOk, A.IsTop, A.IsFirstFree;
      base := PushExpression(initial);
      if base.None? {
        return;
      }
      var second := PushExpression(limit);
      if second.None? {
        return None;
      }
      var third;
      if step.None? {
        e.ValidIsOk();
        third := e.ExprDischarge(Const(Integer(1)), PushNew);
      } else {
        third := PushExpression(step.value);
      }
      if third.None? {
        return None;
      }
    }

    /** The control values, the operation that begins the loop, to be filled in, and the loop variable. */
    method ForFront(name: Name, initial: Expression, limit: Expression, step: Option<Expression>) returns (base: Option<nat>)
      requires Valid()
      modifies this`locals, e, e.allocator, e.allocator.registers
      ensures match ForFrontSpec(host, initial, limit, step, old(locals), old(e.State()))
              case None => base == None
              case Some(f) =>
                && Valid() && base == Some(f.0.reg) && e.operations == old(e.operations) + (f.0.code + [NoClose(0)])
                && locals == old(locals) + [LocalVar(name, f.1)] && e.State() == f.2
                && Pushed(old(e.State()), 4, e.State())
    {
      hide ForControl, LocalsOk, Pushed, ForControlParts, A.IsTop, A.IsFirstFree;
      ghost var s := e.State();
      base := ForControlValues(initial, limit, step);
      if base.None? {
        return;
      }
      ghost var c := ForControl(host, initial, limit, step, locals, s).value;
      ForControlOk(host, initial, limit, step, locals, s);
      e.Emit([NoClose(0)]);
      var variable := e.Push(1);
      if variable.None? {
        return None;
      }
      ForBodyLocals(locals, name, s, c.state);
      locals := locals + [LocalVar(name, variable.value)];
    }

    method ForStatement(name: Name, initial: Expression, limit: Expression, step: Option<Expression>, body: Block) returns (ok: bool)
      requires Valid()
      modifies this, e, e.allocator, e.allocator.registers
      ensures ok ==> Valid() && locals == old(locals)
      ensures Grew(ok, old(e.operations), old(pending), ForSpec(host, name, initial, limit, step, body, old(locals), old(e.State())))
      decreases body, 2
    {
      hide ForControl, BlockCode, LocalsOk, Adds, SameRegisters, Pushed, ForCode, A.IsTop, A.IsFirstFree;
      ghost var s := e.State();
      if name == ENV {
        return false;
      }
      var start, count, top := |e.operations|, |locals|, e.allocator.stackTop;
      var base := ForFront(name, initial, limit, step);
      if base.None? {
        return false;
      }
      var prep := |e.operations| - 1;
      ghost var c := ForControl(host, initial, limit, step, old(locals), s).value;
      ghost var inner, s4, ops := locals, e.State(), e.operations;
      AddsEmitted(old(e.operations), pending, c.code + [NoClose(0)]);
      ok := Block(body);
      if !ok {
        return;
      }
      BlockCodeOk(host, body, inner, s4);
      ghost var b := BlockCode(host, body, inner, s4).value;
      AddsThen(old(e.operations), old(pending), Emits(c.code + [NoClose(0)]), ops, old(pending), b.items, e.operations, pending);
      AddsWithin(old(e.operations), old(pending), Emits(c.code + [NoClose(0)]) + b.items, e.operations, pending);
      ForFreed(old(locals), s, s4, b.state, top);
      ok := LoopBack(prep, base.value, start, c.code, b.items, Exited(s, b.state), old(e.operations), old(pending));
      if ok {
        e.allocator.PopTo(top);
        locals := locals[..count];
      }
    }

    /** The operation that ends a numeric `for` loop; the one that begins it and the `break`s are filled in. */
    method LoopBack(prep: nat, base: nat, start: nat, ghost control: seq<M.Operation>, ghost body: seq<Item>, ghost s: Codegen.State,
                    ghost before: seq<M.Operation>, ghost waiting: seq<PendingJump>) returns (ok: bool)
      requires Adds(before, waiting, Emits(control + [NoClose(0)]) + body, e.operations, pending)
      requires |before| == start && prep == start + |control|
      requires forall i :: 0 <= i < |waiting| ==> waiting[i].instruction < start
      modifies this`pending, e`operations
      ensures ok == ForCode(control, base, Code(body, s)).Some?
      ensures ok ==> ForCode(control, base, Code(body, s)).value.state == s
                     && Adds(before, waiting, ForCode(control, base, Code(body, s)).value.items, e.operations, pending)
                     && forall i :: 0 <= i < |pending| ==> pending[i].instruction < |e.operations|
    {
      hide Adds, ForCode;
      AddsWithin(before, waiting, Emits(control + [NoClose(0)]) + body, e.operations, pending);
      var n := |e.operations| - (prep + 1);
      ForSpecIs(control, base, body, s);
      if n + 1 > MAX_I16 {
        return false;
      }
      ghost var loop := M.NumericForLoop(base, -(n + 1));
      AddsEmitted(e.operations, pending, [M.NumericForLoop(base, -(n + 1))]);
      ghost var ops := e.operations;
      e.Emit([M.NumericForLoop(base, -(n + 1))]);
      AddsThen(before, waiting, Emits(control + [NoClose(0)]) + body, ops, pending, Emits([loop]), e.operations, pending);
      LoopItems(control, NoClose(0), body, loop);
      LoopItems(control, M.NumericForPrep(base, n), body, loop);
      FillIn(prep, M.NumericForPrep(base, n), before, waiting, Emits(control), body + Emits([loop]));
      ghost var items := Emits(control + [M.NumericForPrep(base, n)]) + body + [Emit(loop)];
      ok := JumpTarget(start, BreakLabel, before, waiting, items);
      if ok {
        AddsWithin(before, waiting, Patch(items, BreakLabel, |items|), e.operations, pending);
      }
    }

    /** The arms of an `if`; each but the last jumps behind all of them. */
    method Chain(chain: IfChain) returns (ok: bool)
      requires Valid()
      modifies this, e, e.allocator, e.allocator.registers
      ensures ok ==> Valid() && locals == old(locals)
      ensures Grew(ok, old(e.operations), old(pending), ChainCode(host, chain, old(locals), old(e.State())))
      decreases chain, 2
    {
      hide Adds, BlockCode, StatementCodegen.Condition, LocalsOk, SameRegisters;
      match chain {
        case EndIf =>
          AddsNothing(e.operations, pending);
          ok := true;
        case Else(block) => ok := Block(block);
        case Arm(condition, block, rest) =>
          ghost var l, s := locals, e.State();
          ok := Arm(condition, block, !rest.EndIf?);
          if !ok {
            ArmFails(host, condition, block, rest, l, s);
            return;
          }
          ghost var arm, ops, ps := ArmSpec(host, condition, block, !rest.EndIf?, l, s).value, e.operations, pending;
          ok := Chain(rest);
          ArmThen(host, condition, block, rest, l, s);
          if ok {
            AddsThen(old(e.operations), old(pending), arm.items, ops, ps, ChainCode(host, rest, locals, arm.state).value.items,
                     e.operations, pending);
          }
      }
    }

    /** Tests, and jumps over the block if the test fails; the block ends in a jump if something follows. */
    method Arm(condition: Expression, block: Block, more: bool) returns (ok: bool)
      requires Valid()
      modifies this, e, e.allocator, e.allocator.registers
      ensures ok ==> Valid() && locals == old(locals)
      ensures Grew(ok, old(e.operations), old(pending), ArmSpec(host, condition, block, more, old(locals), old(e.State())))
      decreases block, 2
    {
      hide BlockCode, StatementCodegen.Condition, LocalsOk, Adds, SameRegisters;
      ghost var s := e.State();
      ok := Condition(condition);
      if !ok {
        return;
      }
      ghost var test := StatementCodegen.Condition(host, locals, condition, s).value;
      var jump := |e.operations|;
      e.Emit([NoClose(0)]);
      ghost var front := test.code + [NoClose(0)];
      assert e.operations == old(e.operations) + front;
      AddsEmitted(old(e.operations), pending, front);
      ghost var ops := e.operations;
      ok := Block(block);
      if !ok {
        return;
      }
      ghost var b := BlockCode(host, block, locals, test.state).value;
      AddsThen(old(e.operations), old(pending), Emits(front), ops, old(pending), b.items, e.operations, pending);
      ghost var tail: seq<Item> := [];
      assert Emits(front) + b.items == Emits(front) + b.items + tail;
      if more {
        ghost var ops1, ps1 := e.operations, pending;
        OpenJump(EndLabel);
        tail := [Goto(EndLabel)];
        AddsThen(old(e.operations), old(pending), Emits(front) + b.items, ops1, ps1, tail, e.operations, pending);
      }
      AddsWithin(old(e.operations), old(pending), Emits(front) + b.items + tail, e.operations, pending);
      var skip := |e.operations| - (jump + 1);
      if skip > MAX_I16 {
        return false;
      }
      ArmItems(test.code, NoClose(0), b.items, tail);
      ArmItems(test.code, NoClose(skip), b.items, tail);
      FillIn(jump, NoClose(skip), old(e.operations), old(pending), Emits(test.code), b.items + tail);
      AddsWithin(old(e.operations), old(pending), Emits(test.code) + [Emit(NoClose(skip))] + (b.items + tail), e.operations, pending);
    }

    method IfStatement(chain: IfChain) returns (ok: bool)
      requires Valid()
      modifies this, e, e.allocator, e.allocator.registers
      ensures ok ==> Valid() && locals == old(locals)
      ensures Grew(ok, old(e.operations), old(pending), IfSpec(host, chain, old(locals), old(e.State())))
      decreases chain, 3
    {
      hide ChainCode, Adds, LocalsOk;
      var start := |e.operations|;
      ghost var s := e.State();
      ok := Chain(chain);
      if ok {
        ghost var items := ChainCode(host, chain, locals, s).value.items;
        ok := JumpTarget(start, EndLabel, old(e.operations), old(pending), items);
        if ok {
          AddsWithin(old(e.operations), old(pending), Patch(items, EndLabel, |items|), e.operations, pending);
        }
      }
    }

    /** A whole chunk, with no jump left over, and the number of registers that it needs. */
    method Chunk(b: Block) returns (r: Option<(M.Program, nat)>)
      requires Valid() && locals == [] && pending == [] && e.operations == [] && e.State() == Codegen.State(A.Alloc({}, 0), [])
      modifies this, e, e.allocator, e.allocator.registers
      ensures r == ChunkCode(host, b)
    {
      hide BlockCode, Adds;
      ghost var s := e.State();
      var ok := Block(b);
      if !ok {
        return None;
      }
      ghost var c := BlockCode(host, b, [], s).value;
      ChunkPending(c.items, e.operations, pending);
      if pending != [] {
        return None;
      }
      e.Emit([M.Return(0, 0)]);
      r := Some((M.Program(e.operations, e.constants), e.allocator.stackSize));
    }
  }

  lemma NoRegisters()
    ensures RegistersOf([]) == {}
  {
  }

  /** The last variable's register is in use by it alone. */
  lemma LastRegister(locals: seq<LocalVar>, n: nat, count: nat, used: set<nat>)
    requires count < n <= |locals| && Increasing(locals) && used !! RegistersOf(locals[count..])
    ensures var last := locals[n - 1].reg;
            last in RegistersOf(locals[..n][count..])
            && used + RegistersOf(locals[..n][count..]) - {last} == used + RegistersOf(locals[..n - 1][count..])
  {
    var a, b := locals[..n - 1][count..], locals[..n][count..];
    assert b == a + [locals[n - 1]];
    RegistersOfConcat(a, [locals[n - 1]]);
    assert RegistersOf([locals[n - 1]]) == {locals[n - 1].reg};
    assert locals[n - 1].reg !in RegistersOf(a);
    assert locals[count..][n - 1 - count] == locals[n - 1];
    assert locals[n - 1].reg in RegistersOf(locals[count..]);
  }

  lemma StatementsStep(h: Host, ss: seq<Statement>, locals: seq<LocalVar>, s: Codegen.State)
    requires ss != []
    ensures StatementsCode(h, ss, locals, s)
            == var first := StatementCode(h, ss[0], locals, s);
               if first.None? then None
               else After(first.value.items, StatementsCode(h, ss[1..], first.value.locals, first.value.state))
  {
  }

  /** The items of a loop, grouped around the jump that is filled in. */
  lemma WhileItems(test: seq<M.Operation>, body: seq<Item>, back: int, skip: int)
    ensures Emits(test + [NoClose(0)]) + body + Emits([NoClose(-back)])
            == Emits(test) + [Emit(NoClose(0))] + (body + Emits([NoClose(-back)]))
    ensures Emits(test + [NoClose(skip)]) + body + [Emit(NoClose(-back))]
            == Emits(test) + [Emit(NoClose(skip))] + (body + Emits([NoClose(-back)]))
  {
  }

  ghost function WhileSpec(h: Host, condition: Expression, body: Block, locals: seq<LocalVar>, s: Codegen.State): Option<Code> {
    var t := Condition(h, locals, condition, s);
    if t.None? then None else
    var b := BlockCode(h, body, locals, t.value.state);
    if b.None? || BreakRefused(body) then None else WhileCode(t.value.code, b.value)
  }

  lemma LoopItems(control: seq<M.Operation>, first: M.Operation, body: seq<Item>, last: M.Operation)
    ensures Emits(control + [first]) + body + Emits([last]) == Emits(control) + [Emit(first)] + (body + Emits([last]))
    ensures Emits(control + [first]) + body + [Emit(last)] == Emits(control) + [Emit(first)] + (body + Emits([last]))
  {
  }

  lemma ArmItems(test: seq<M.Operation>, jump: M.Operation, body: seq<Item>, tail: seq<Item>)
    ensures Emits(test + [jump]) + body + tail == Emits(test) + [Emit(jump)] + (body + tail)
  {
  }

  ghost function RepeatSpec(h: Host, body: Block, until: Expression, locals: seq<LocalVar>, s: Codegen.State): Option<Code> {
    var b := OpenBlockCode(h, body, locals, s);
    if b.None? then None else
    var t := Condition(h, b.value.locals, until, b.value.state);
    if t.None? then None else RepeatCode(b.value.items, t.value.code, Exited(s, t.value.state))
  }

  lemma RepeatTooLong(body: seq<Item>, test: seq<M.Operation>, s: Codegen.State)
    requires |body| + |test| + 1 > MAX_I16
    ensures RepeatCode(body, test, s) == None
  {
  }

  lemma RepeatSpecIs(body: seq<Item>, test: seq<M.Operation>, back: int, s: Codegen.State)
    requires back == |body| + |test| + 1 <= MAX_I16
    ensures RepeatCode(body, test, s) == PatchEnd(body + Emits(test + [NoClose(-back)]), BreakLabel, s)
  {
  }

  /** Where a `repeat` loop's variables end. */
  lemma RepeatScope(locals: seq<LocalVar>, s: Codegen.State, inner: seq<LocalVar>, s1: Codegen.State, s2: Codegen.State)
    requires LocalsOk(locals, s) && Extends(locals, s, inner, s1) && LocalsOk(inner, s1) && SameRegisters(s1, s2)
    ensures Extends(locals, s, inner, s2) && SameRegisters(s, Exited(s, s2)) && locals <= inner
  {
    SameExtends(inner, s1, s2);
    ExtendsTwice(locals, s, inner, s1, inner, s2);
    ExitedOk(locals, s, inner, s2);
  }

  ghost function ForFrontSpec(h: Host, initial: Expression, limit: Expression, step: Option<Expression>,
                              locals: seq<LocalVar>, s: Codegen.State): Option<(Codegen.Emitted, nat, Codegen.State)> {
    var c := ForControl(h, initial, limit, step, locals, s);
    if c.None? then None else
    var v := A.Push(c.value.state.alloc, 1);
    if v.None? then None else Some((c.value, v.value.0, c.value.state.(alloc := v.value.1)))
  }

  ghost function ForSpec(h: Host, name: Name, initial: Expression, limit: Expression, step: Option<Expression>, body: Block,
                         locals: seq<LocalVar>, s: Codegen.State): Option<Code> {
    var f := ForFrontSpec(h, initial, limit, step, locals, s);
    if name == ENV || f.None? then None else
    var b := BlockCode(h, body, locals + [LocalVar(name, f.value.1)], f.value.2);
    if b.None? then None else ForCode(f.value.0.code, f.value.0.reg, Code(b.value.items, Exited(s, b.value.state)))
  }

  lemma ForSpecIs(control: seq<M.Operation>, base: nat, body: seq<Item>, s: Codegen.State)
    ensures ForCode(control, base, Code(body, s))
            == if |body| + 1 > MAX_I16 then None
               else PatchEnd(Emits(control + [M.NumericForPrep(base, |body|)]) + body + [Emit(M.NumericForLoop(base, -(|body| + 1)))],
                             BreakLabel, s)
  {
  }

  /** Behind a `for` the registers from its first one on are free again. */
  lemma ForFreed(locals: seq<LocalVar>, s: Codegen.State, s4: Codegen.State, s': Codegen.State, top: nat)
    requires LocalsOk(locals, s) && Pushed(s, 4, s4) && SameRegisters(s4, s') && top == A.Top(s.alloc.used)
    ensures s'.(alloc := A.PopTo(s'.alloc, top)) == Exited(s, s') && LocalsOk(locals, Exited(s, s'))
  {
    ForExited(locals, s, s4, s');
    assert A.PopTo(s'.alloc, top).used == s.alloc.used;
  }

  ghost function ArmSpec(h: Host, condition: Expression, block: Block, more: bool, locals: seq<LocalVar>, s: Codegen.State): Option<Code> {
    var t := Condition(h, locals, condition, s);
    if t.None? then None else
    var b := BlockCode(h, block, locals, t.value.state);
    if b.None? then None else
    var tail := if more then [Goto(EndLabel)] else [];
    var skip := |b.value.items| + |tail|;
    if skip > MAX_I16 then None
    else Some(Code(Emits(t.value.code + [NoClose(skip)]) + b.value.items + tail, b.value.state))
  }

  lemma ArmFails(h: Host, condition: Expression, block: Block, rest: IfChain, locals: seq<LocalVar>, s: Codegen.State)
    requires ArmSpec(h, condition, block, !rest.EndIf?, locals, s) == None
    ensures ChainCode(h, IfChain.Arm(condition, block, rest), locals, s) == None
  {
    hide BlockCode, Condition;
  }

  lemma ArmThen(h: Host, condition: Expression, block: Block, rest: IfChain, locals: seq<LocalVar>, s: Codegen.State)
    requires ArmSpec(h, condition, block, !rest.EndIf?, locals, s).Some?
    ensures var arm := ArmSpec(h, condition, block, !rest.EndIf?, locals, s).value;
            ChainCode(h, IfChain.Arm(condition, block, rest), locals, s)
            == match ChainCode(h, rest, locals, arm.state)
               case None => None
               case Some(r) => Some(Code(arm.items + r.items, r.state))
  {
    hide BlockCode, Condition;
  }

  ghost function IfSpec(h: Host, chain: IfChain, locals: seq<LocalVar>, s: Codegen.State): Option<Code> {
    var c := ChainCode(h, chain, locals, s);
    if c.None? then None else PatchEnd(c.value.items, EndLabel, c.value.state)
  }

  /** No jump is pending exactly when all items are operations. */
  lemma ChunkPending(items: seq<Item>, ops: seq<M.Operation>, ps: seq<PendingJump>)
    requires Adds([], [], items, ops, ps)
    ensures ps == [] <==> !exists i :: 0 <= i < |items| && items[i].Goto?
    ensures ps == [] ==> ops == Operations(items)
  {
    NoPending(items, 0);
    if ps == [] {
      assert ops == Operations(items);
    }
  }

  lemma {:induction false} NoPending(items: seq<Item>, base: nat)
    ensures PendOf(items, base) == [] <==> forall i :: 0 <= i < |items| ==> items[i].Emit?
  {
    if items != [] {
      NoPending(items[1..], base + 1);
      assert items == [items[0]] + items[1..];
    }
  }

  lemma SameLocalsOk(locals: seq<LocalVar>, s: Codegen.State, s': Codegen.State)
    requires LocalsOk(locals, s) && SameRegisters(s, s')
    ensures LocalsOk(locals, s')
  {
  }

  /** Items behind other items. */
  ghost function After(done: seq<Item>, more: Option<Scoped>): (r: Option<Scoped>)
    ensures done == [] ==> r == more
  {
    if more.None? then None
    else
      assert [] + more.value.items == more.value.items;
      Some(more.value.(items := done + more.value.items))
  }

  lemma AfterMore(done: seq<Item>, next: seq<Item>, more: Option<Scoped>)
    ensures After(done, After(next, more)) == After(done + next, more)
  {
    if more.Some? {
      assert done + (next + more.value.items) == done + next + more.value.items;
    }
  }

  lemma AfterAll(done: seq<Item>, locals: seq<LocalVar>, s: Codegen.State)
    ensures After(done, Some(Scoped([], locals, s))) == Some(Scoped(done, locals, s))
  {
    assert done + [] == done;
  }

  /** Code behind other code. */
  ghost function Behind(code: seq<M.Operation>, more: Option<Ops>): (r: Option<Ops>)
    ensures code == [] ==> r == more
  {
    if more.None? then None
    else
      assert [] + more.value.code == more.value.code;
      Some(Ops(code + more.value.code, more.value.state))
  }

  lemma BehindMore(code: seq<M.Operation>, next: seq<M.Operation>, more: Option<Ops>)
    ensures Behind(code, Behind(next, more)) == Behind(code + next, more)
  {
    if more.Some? {
      assert code + (next + more.value.code) == code + next + more.value.code;
    }
  }
}
