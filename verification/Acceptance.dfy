/** Which programs the compiler accepts: those for which there is room, without a `break` outside of loops. */
module Acceptance {
  import opened Values
  import opened Ast
  import opened AllocatorSpec
  import opened SourceCosts
  import opened Codegen
  import opened StatementCodegen
  import opened ExprCorrect
  import opened StatementShape
  import opened ExprAcceptance
  import M = Machine

  // Jumps.

  /** A jump out of the code is there only for a `break`. */
  predicate Leaves(items: seq<Item>, breaks: bool) {
    (Goto(BreakLabel) in items <==> breaks) && Goto(EndLabel) !in items
  }

  lemma EmitsLeave(ops: seq<M.Operation>)
    ensures Leaves(Emits(ops), false)
  {
  }

  /** Jumps reach everything in code that is not longer than 32767 operations. */
  lemma EndReached(items: seq<Item>, lbl: Label, s: State)
    requires |items| <= 32767
    ensures PatchEnd(items, lbl, s).Some? && |PatchEnd(items, lbl, s).value.items| == |items| && PatchEnd(items, lbl, s).value.state == s
    ensures var r := PatchEnd(items, lbl, s).value.items;
            forall l :: Goto(l) in r <==> Goto(l) in items && l != lbl
  {
    var r := PatchEnd(items, lbl, s).value.items;
    forall l | Goto(l) in items && l != lbl ensures Goto(l) in r {
      var i :| 0 <= i < |items| && items[i] == Goto(l);
      assert r[i] == Goto(l);
    }
  }

  /** An open jump is refused only if it is more than 32767 operations away from its end. */
  lemma EndExactly(items: seq<Item>, lbl: Label, s: State)
    ensures PatchEnd(items, lbl, s).Some? <==> forall i :: 0 <= i < |items| && items[i] == Goto(lbl) ==> |items| - (i + 1) <= 32767
  {
    if forall i :: 0 <= i < |items| && items[i] == Goto(lbl) ==> |items| - (i + 1) <= 32767 {
      assert InReach(items, lbl, |items|);
    }
  }

  /** Loops are refused only if the jump back, or the one past the body of a `for`, is longer than that. */
  lemma LoopsExactly(test: seq<M.Operation>, body: Code, s: State, base: nat)
    ensures WhileCode(test, body).Some? <==> |test| + 2 + |body.items| <= 32767
    ensures RepeatCode(body.items, test, s).Some? <==> |body.items| + |test| + 1 <= 32767
    ensures ForCode(test, base, body).Some? <==> |body.items| + 1 <= 32767
  {
    var n := |body.items|;
    if n + 1 <= 32767 {
      var back := [Emit(M.NumericForLoop(base, -(n + 1)))];
      BodyReaches(test + [M.NumericForPrep(base, n)], body.items, back, body.state);
    }
    if |test| + 2 + n <= 32767 {
      BodyReaches(test + [NoClose(n + 1)], body.items, [Emit(NoClose(-(|test| + 2 + n)))], body.state);
    }
    if n + |test| + 1 <= 32767 {
      EndExactly(body.items + Emits(test + [NoClose(-(n + |test| + 1))]), BreakLabel, s);
    }
  }

  /** An arm of an `if` is refused only if the jump past its block is longer than that. */
  lemma ArmExactly(h: Host, chain: IfChain, locals: seq<LocalVar>, s: State)
    requires chain.Arm? && Condition(h, locals, chain.condition, s).Some?
    requires BlockCode(h, chain.block, locals, Condition(h, locals, chain.condition, s).value.state).Some?
    requires var b := BlockCode(h, chain.block, locals, Condition(h, locals, chain.condition, s).value.state).value;
             ChainCode(h, chain.rest, locals, b.state).Some?
    ensures var b := BlockCode(h, chain.block, locals, Condition(h, locals, chain.condition, s).value.state).value;
            ChainCode(h, chain, locals, s).Some? <==> |b.items| + (if chain.rest.EndIf? then 0 else 1) <= 32767
  {
    hide Condition, BlockCode;
  }

  lemma BodyReaches(front: seq<M.Operation>, body: seq<Item>, back: seq<Item>, s: State)
    requires |body| < 32767 && |back| == 1 && back[0].Emit?
    ensures PatchEnd(Emits(front) + body + back, BreakLabel, s).Some?
  {
    EndExactly(Emits(front) + body + back, BreakLabel, s);
  }

  // Conditions and values.

  lemma SpentWithin(s: State, a: Cost, kept: nat, s': State, b: Cost)
    requires Spent(s, a, kept, s') && Within(a, b)
    ensures Spent(s, b, kept, s')
  {
  }

  lemma RegisterTestFits(d: Desc, skipIf: bool, s: State)
    requires Ok(s.alloc) && ReadsOnly(d, s.alloc.used) && Room(s, DescCost(d))
    ensures RegisterTest(d, skipIf, s).Some?
    ensures var o := RegisterTest(d, skipIf, s).value; |o.code| <= DescCost(d).operations + 1 && Spent(s, DescCost(d), 0, o.state)
  {
    hide AnyRegister, DescCost;
    AnyRegisterFits(d, s);
  }

  lemma ComparisonTestFits(d: Desc, skipIf: bool, s: State)
    requires d.ComparisonDesc? && Ok(s.alloc) && ReadsOnly(d, s.alloc.used) && Room(s, DescCost(d))
    ensures ComparisonTest(d, skipIf, s).Some?
    ensures var o := ComparisonTest(d, skipIf, s).value; |o.code| <= DescCost(d).operations && Spent(s, DescCost(d), 0, o.state)
  {
    hide Operands, Spent, Room, Ok, ReadsOnly, ComparisonTest;
    OperandsFit(d, s);
    OperandCosts(d);
    hide DescCost;
    ComparisonTestEmitted(d, skipIf, s);
  }

  lemma ComparisonTestEmitted(d: Desc, skipIf: bool, s: State)
    requires d.ComparisonDesc? && Operands(d, s).Some?
    ensures ComparisonTest(d, skipIf, s).Some?
    ensures var c, o := ComparisonTest(d, skipIf, s).value, Operands(d, s).value; c.state == o.state && |c.code| == |o.code| + 1
  {
    hide Operands;
  }

  lemma TestFits(d: Desc, skipIf: bool, s: State)
    requires Ok(s.alloc) && ReadsOnly(d, s.alloc.used) && Room(s, DescCost(d))
    ensures TestCode(d, skipIf, s).Some?
    ensures var o := TestCode(d, skipIf, s).value; |o.code| <= DescCost(d).operations + 1 && Spent(s, DescCost(d), 0, o.state)
  {
    hide RegisterTest, ComparisonTest;
    match d {
      case Const(_) =>
      case ComparisonDesc(_, _, _) => ComparisonTestFits(d, skipIf, s);
      case UnaryDesc(Not, operand) =>
        assert DescCost(d) == More(DescCost(operand), 1);
        if operand.ComparisonDesc? {
          ComparisonTestFits(operand, !skipIf, s);
        } else {
          RegisterTestFits(operand, !skipIf, s);
        }
      case _ => RegisterTestFits(d, skipIf, s);
    }
  }

  lemma ConditionFits(h: Host, locals: seq<LocalVar>, e: Expression, s: State)
    requires PlainExpression(e) && LocalsOk(locals, s) && Room(s, ExpressionCost(e))
    ensures Condition(h, locals, e, s).Some? && SameRegisters(s, Condition(h, locals, e, s).value.state)
    ensures var o := Condition(h, locals, e, s).value; |o.code| <= ExpressionCost(e).operations + 1 && Spent(s, ExpressionCost(e), 0, o.state)
  {
    DescribeWithin(h, locals, e);
    hide Describe, TestCode, LocalsOk, DescCost, ExpressionCost;
    var d := Describe(h, locals, e).value;
    LocalsAllocated(locals, s);
    DescribeReads(h, locals, e, s);
    RoomWithin(s, DescCost(d), ExpressionCost(e));
    TestFits(d, true, s);
    SpentWithin(s, DescCost(d), 0, TestCode(d, true, s).value.state, ExpressionCost(e));
    ConditionOk(h, locals, e, s);
  }

  lemma LocalsAllocated(locals: seq<LocalVar>, s: State)
    requires LocalsOk(locals, s)
    ensures Ok(s.alloc)
  {
  }

  lemma PushExpressionFits(h: Host, locals: seq<LocalVar>, e: Expression, s: State)
    requires PlainExpression(e) && LocalsOk(locals, s) && Room(s, ExpressionCost(e))
    ensures PushExpression(h, locals, e, s).Some?
    ensures var o := PushExpression(h, locals, e, s).value;
            LocalsOk(locals, o.state) && |o.code| <= ExpressionCost(e).operations && Spent(s, ExpressionCost(e), 1, o.state)
  {
    DescribeWithin(h, locals, e);
    hide Describe, Discharge, LocalsOk, DescCost, ExpressionCost;
    var d := Describe(h, locals, e).value;
    LocalsAllocated(locals, s);
    DescribeReads(h, locals, e, s);
    RoomWithin(s, DescCost(d), ExpressionCost(e));
    DischargeFits(d, PushNew, s);
    SpentWithin(s, DescCost(d), 1, Discharge(d, PushNew, s).value.state, ExpressionCost(e));
    PushExpressionOk(h, locals, e, s);
  }

  lemma {:induction false} PushAllFits(h: Host, locals: seq<LocalVar>, es: seq<Expression>, s: State)
    requires PlainList(es) && LocalsOk(locals, s) && Room(s, ListCost(es))
    ensures PushAll(h, locals, es, s).Some?
    ensures var o := PushAll(h, locals, es, s).value; |o.code| + 1 <= ListCost(es).operations && Spent(s, ListCost(es), |es|, o.state)
    decreases es
  {
    if es != [] {
      hide PushExpression, LocalsOk, ExpressionCost, PlainExpression;
      assert PlainExpression(es[0]) && PlainList(es[1..]);
      assert ListCost(es) == Then(ExpressionCost(es[0]), 1, ListCost(es[1..]));
      PushExpressionFits(h, locals, es[0], s);
      var e := PushExpression(h, locals, es[0], s).value;
      RoomThen(s, ExpressionCost(es[0]), 1, ListCost(es[1..]), e.state);
      PushAllFits(h, locals, es[1..], e.state);
    }
  }

  lemma PushNilsFits(count: nat, s: State)
    requires Ok(s.alloc) && count > 0 && Top(s.alloc.used) + count <= 255
    ensures PushNils(count, s).Some?
    ensures var o := PushNils(count, s).value; |o.code| == 1 && Spent(s, Cost(1, count, 0), count, o.state)
  {
    assert Push(s.alloc, count).Some?;
    PushOk(s.alloc, count);
  }

  lemma PushCountFits(d: Desc, count: nat, s: State)
    requires Ok(s.alloc) && ReadsOnly(d, s.alloc.used) && Room(s, Then(DescCost(d), 0, Cost(1, count, 0))) && count > 0
    ensures PushCount(d, count, s).Some?
    ensures var o := PushCount(d, count, s).value;
            |o.code| <= DescCost(d).operations + (if count > 1 then 1 else 0) && Spent(s, DescCost(d), count, o.state)
  {
    hide Discharge, PushNils;
    if d == Const(Nil) {
      PushNilsFits(count, s);
    } else {
      DischargeFits(d, PushNew, s);
      var e := Discharge(d, PushNew, s).value;
      DischargePlaced(d, PushNew, s);
      if count > 1 {
        PushNilsFits(count - 1, e.state);
      }
    }
  }

  // Statements.

  /** The code is there, keeps to its cost, and has a jump out exactly if it should. */
  ghost predicate Compiles(s: State, c: Cost, kept: nat, breaks: bool, r: Option<Scoped>) {
    r.Some? && |r.value.items| <= c.operations && Spent(s, c, kept, r.value.state) && Leaves(r.value.items, breaks)
  }

  /** The same for code that leaves no register allocated. */
  ghost predicate CompilesClosed(s: State, c: Cost, breaks: bool, r: Option<Code>) {
    r.Some? && |r.value.items| <= c.operations && Spent(s, c, 0, r.value.state) && Leaves(r.value.items, breaks)
  }

  lemma LocalFits(h: Host, names: seq<Name>, value: Option<Expression>, locals: seq<LocalVar>, s: State)
    requires PlainStatement(LocalStatement(names, value)) && LocalsOk(locals, s) && Room(s, StatementCost(LocalStatement(names, value)))
    ensures Compiles(s, StatementCost(LocalStatement(names, value)), |names|, false, LocalCode(h, names, value, locals, s))
  {
    hide LocalsOk, ExpressionCost, Describe, DescCost, PushNils;
    LocalsAllocated(locals, s);
    if value.None? {
      PushNilsFits(|names|, s);
      EmitsLeave(PushNils(|names|, s).value.code);
    } else {
      DescribeWithin(h, locals, value.value);
      DescribeReads(h, locals, value.value, s);
      var d := Describe(h, locals, value.value).value;
      hide PushCount;
      PushCountFits(d, |names|, s);
      EmitsLeave(PushCount(d, |names|, s).value.code);
    }
  }

  lemma AssignmentFits(h: Host, target: Name, e: Expression, locals: seq<LocalVar>, s: State)
    requires PlainStatement(Assignment(target, e)) && LocalsOk(locals, s) && Room(s, StatementCost(Assignment(target, e)))
    ensures CompilesClosed(s, StatementCost(Assignment(target, e)), false, AssignmentCode(h, target, e, locals, s))
  {
    AssignmentSpends(h, target, e, locals, s);
    hide AssignmentCode;
    AssignmentCodeOk(h, target, e, locals, s);
  }

  lemma AssignmentRoom(s: State, c: Cost, e: Cost)
    requires Room(s, Then(e, 1, Cost(2, 1, 1))) && Within(c, e)
    ensures Room(s, Then(c, 0, Cost(1, 1, 0)))
  {
  }

  lemma AssignmentRoomBehind(s: State, c: Cost, e: Cost, s': State)
    requires Room(s, Then(e, 1, Cost(2, 1, 1))) && Within(c, e) && Spent(s, c, 1, s')
    ensures Room(s', Cost(1, 1, 1)) && |s'.constants| <= |s.constants| + e.constants
  {
  }

  lemma AssignmentValue(h: Host, target: Name, e: Expression, locals: seq<LocalVar>, s: State) returns (d: Desc, v: Emitted)
    requires PlainStatement(Assignment(target, e)) && LocalsOk(locals, s) && Room(s, StatementCost(Assignment(target, e)))
    ensures Describe(h, locals, e) == Some(d) && PushCount(d, 1, s) == Some(v) && |v.code| <= ExpressionCost(e).operations
    ensures Ok(v.state.alloc) && Room(v.state, Cost(1, 1, 1)) && |v.state.constants| <= |s.constants| + ExpressionCost(e).constants
  {
    DescribeWithin(h, locals, e);
    hide LocalsOk, ExpressionCost, Describe, DescCost, PushCount, Room, Spent, IsTop;
    LocalsAllocated(locals, s);
    DescribeReads(h, locals, e, s);
    d := Describe(h, locals, e).value;
    AssignmentRoom(s, DescCost(d), ExpressionCost(e));
    PushCountFits(d, 1, s);
    PushCountOk(d, 1, s);
    v := PushCount(d, 1, s).value;
    AssignmentRoomBehind(s, DescCost(d), ExpressionCost(e), v.state);
  }

  lemma AssignmentSpends(h: Host, target: Name, e: Expression, locals: seq<LocalVar>, s: State)
    requires PlainStatement(Assignment(target, e)) && LocalsOk(locals, s) && Room(s, StatementCost(Assignment(target, e)))
    ensures AssignmentCode(h, target, e, locals, s).Some?
    ensures var c := AssignmentCode(h, target, e, locals, s).value;
            |c.items| <= StatementCost(Assignment(target, e)).operations && Leaves(c.items, false)
            && |c.state.constants| <= |s.constants| + ExpressionCost(e).constants + 1
  {
    var d, v := AssignmentValue(h, target, e, locals, s);
    assert StatementCost(Assignment(target, e)).operations == ExpressionCost(e).operations + 2;
    hide LocalsOk, Room, ExpressionCost, StatementCost, Describe, PushCount, ConstantKey, Leaves, IsTop;
    if FindLocal(locals, target).Some? {
      EmitsLeave(v.code + [M.Move(FindLocal(locals, target).value, v.reg)]);
    } else {
      KeyFits(target, v.state);
      var k := ConstantKey(target, v.state).value;
      EmitsLeave(v.code + k.code + [M.SetUpTable(0, k.rc, M.Register(v.reg))]);
    }
  }

  lemma {:induction false} ReturnFits(h: Host, es: seq<Expression>, locals: seq<LocalVar>, s: State)
    requires PlainList(es) && |es| <= 254 && LocalsOk(locals, s) && Room(s, ListCost(es))
    ensures CompilesClosed(s, ListCost(es), false, ReturnCode(h, es, locals, s))
  {
    PushAllFits(h, locals, es, s);
    hide PushAll, ListCost, IsTop;
    var values := PushAll(h, locals, es, s).value;
    EmitsLeave(values.code + [M.Return(Top(s.alloc.used), |es|)]);
    ReturnCodeOk(h, es, locals, s);
  }

  /** Initial value, limit and step of a loop. */
  function ControlCost(initial: Expression, limit: Expression, step: Option<Expression>): Cost {
    Then(ExpressionCost(initial), 1, Then(ExpressionCost(limit), 1, if step.None? then Cost(1, 1, 1) else ExpressionCost(step.value)))
  }

  lemma StepFits(h: Host, step: Option<Expression>, locals: seq<LocalVar>, s: State)
    requires (step.Some? ==> PlainExpression(step.value)) && LocalsOk(locals, s)
    requires Room(s, if step.None? then Cost(1, 1, 1) else ExpressionCost(step.value))
    ensures var c := if step.None? then Cost(1, 1, 1) else ExpressionCost(step.value);
            var o := if step.None? then Discharge(Const(Integer(1)), PushNew, s) else PushExpression(h, locals, step.value, s);
            o.Some? && |o.value.code| <= c.operations && Spent(s, c, 1, o.value.state)
  {
    hide LocalsOk, ExpressionCost, PushExpression;
    LocalsAllocated(locals, s);
    if step.None? {
      ConstFits(Integer(1), PushNew, s);
    } else {
      PushExpressionFits(h, locals, step.value, s);
    }
  }

  lemma ForControlFits(h: Host, initial: Expression, limit: Expression, step: Option<Expression>, locals: seq<LocalVar>, s: State)
    requires PlainExpression(initial) && PlainExpression(limit) && (step.Some? ==> PlainExpression(step.value)) && LocalsOk(locals, s)
    requires Room(s, ControlCost(initial, limit, step))
    ensures ForControl(h, initial, limit, step, locals, s).Some?
    ensures var o, c := ForControl(h, initial, limit, step, locals, s).value, ControlCost(initial, limit, step);
            |o.code| <= c.operations && Spent(s, c, 3, o.state)
  {
    hide LocalsOk, ExpressionCost, PushExpression, Discharge;
    PushExpressionFits(h, locals, initial, s);
    var i := PushExpression(h, locals, initial, s).value;
    PushExpressionFits(h, locals, limit, i.state);
    var l := PushExpression(h, locals, limit, i.state).value;
    StepFits(h, step, locals, l.state);
  }

  lemma LeavesBoth(a: seq<Item>, b: seq<Item>, x: bool, y: bool)
    requires Leaves(a, x) && Leaves(b, y)
    ensures Leaves(a + b, x || y)
  {
  }

  lemma SameLocals(locals: seq<LocalVar>, s: State, s': State)
    requires LocalsOk(locals, s) && SameRegisters(s, s')
    ensures LocalsOk(locals, s')
  {
  }

  // Breaks.

  lemma {:induction false} BreaksAgree(st: Statement)
    ensures Breaks(st) <==> LeavesLoop(st)
    decreases st, 1
  {
    match st {
      case Do(b) => BlockBreaksAgree(b);
      case If(chain) => ChainBreaksAgree(chain);
      case _ =>
    }
  }

  lemma {:induction false} BlockBreaksAgree(b: Block)
    ensures BlockBreaks(b) <==> BlockLeavesLoop(b)
    decreases b, 0
  {
    forall i | 0 <= i < |b.statements| ensures Breaks(b.statements[i]) <==> LeavesLoop(b.statements[i]) {
      BreaksAgree(b.statements[i]);
    }
  }

  lemma {:induction false} ChainBreaksAgree(chain: IfChain)
    ensures ChainBreaks(chain) <==> ChainLeavesLoop(chain)
    decreases chain, 0
  {
    match chain {
      case Arm(_, b, rest) =>
        BlockBreaksAgree(b);
        ChainBreaksAgree(rest);
      case Else(b) => BlockBreaksAgree(b);
      case EndIf =>
    }
  }

  lemma RefusedAgree(b: Block)
    ensures BreakRefused(b) <==> BreaksBelowVariables(b)
  {
    hide Breaks, LeavesLoop;
    forall i | 0 <= i < |b.statements| ensures Breaks(b.statements[i]) <==> LeavesLoop(b.statements[i]) {
      BreaksAgree(b.statements[i]);
    }
  }

  // Lists of statements, and blocks.

  /** Code in front of something with the cost `last`, for which room is left. */
  ghost predicate CompilesBefore(s: State, c: Cost, last: Cost, breaks: bool, r: Option<Scoped>) {
    r.Some? && |r.value.items| + last.operations <= c.operations && Room(r.value.state, last)
    && |r.value.state.constants| + last.constants <= |s.constants| + c.constants && Leaves(r.value.items, breaks)
  }

  predicate AnyLeavesLoop(ss: seq<Statement>) {
    exists i :: 0 <= i < |ss| && LeavesLoop(ss[i])
  }

  lemma AnyLeavesFirst(ss: seq<Statement>)
    requires ss != []
    ensures AnyLeavesLoop(ss) <==> LeavesLoop(ss[0]) || AnyLeavesLoop(ss[1..])
  {
    hide LeavesLoop;
    if AnyLeavesLoop(ss) && !LeavesLoop(ss[0]) {
      var i :| 0 <= i < |ss| && LeavesLoop(ss[i]);
      assert LeavesLoop(ss[1..][i - 1]);
    }
  }

  lemma RoomFirst(s: State, first: Cost, kept: nat, second: Cost)
    requires Room(s, Then(first, kept, second))
    ensures Room(s, first)
  {
  }

  /** One statement, and those behind it. */
  lemma FirstBefore(s: State, first: Option<Scoped>, c: Cost, kept: nat, x: bool, rest: Option<Scoped>, d: Cost, last: Cost, y: bool)
    requires Room(s, Then(c, kept, d)) && Compiles(s, c, kept, x, first) && CompilesBefore(first.value.state, d, last, y, rest)
    ensures CompilesBefore(s, Then(c, kept, d), last, x || y, Some(Scoped(first.value.items + rest.value.items, rest.value.locals, rest.value.state)))
  {
    hide Leaves, Room;
    LeavesBoth(first.value.items, rest.value.items, x, y);
  }

  lemma {:induction false} StatementsFit(h: Host, ss: seq<Statement>, locals: seq<LocalVar>, s: State, last: Cost)
    requires (forall i :: 0 <= i < |ss| ==> PlainStatement(ss[i])) && LocalsOk(locals, s) && Room(s, StatementsCost(ss, last))
    ensures CompilesBefore(s, StatementsCost(ss, last), last, AnyLeavesLoop(ss), StatementsCode(h, ss, locals, s))
    decreases ss, 0
  {
    if ss != [] {
      hide StatementCode, StatementCost, LocalsOk, Kept, LeavesLoop, PlainStatement, IsTop, Room, Spent, Leaves, AnyLeavesLoop;
      var c, kept, d := StatementCost(ss[0]), Kept(ss[0]), StatementsCost(ss[1..], last);
      RoomFirst(s, c, kept, d);
      StatementFits(h, ss[0], locals, s);
      StatementCodeOk(h, ss[0], locals, s);
      var first := StatementCode(h, ss[0], locals, s);
      RoomThen(s, c, kept, d, first.value.state);
      StatementsFit(h, ss[1..], first.value.locals, first.value.state, last);
      FirstBefore(s, first, c, kept, LeavesLoop(ss[0]), StatementsCode(h, ss[1..], first.value.locals, first.value.state), d, last, AnyLeavesLoop(ss[1..]));
      AnyLeavesFirst(ss);
    }
  }

  lemma {:induction false} OpenBlockFits(h: Host, b: Block, locals: seq<LocalVar>, s: State, last: Cost)
    requires PlainBlock(b) && LocalsOk(locals, s) && Room(s, StatementsCost(b.statements, Then(ReturnCost(b.ret), 0, last)))
    ensures CompilesBefore(s, StatementsCost(b.statements, Then(ReturnCost(b.ret), 0, last)), last, BlockLeavesLoop(b), OpenBlockCode(h, b, locals, s))
    decreases b, 0
  {
    hide StatementsCode, ReturnCode, StatementsCost, ListCost, LocalsOk, LeavesLoop, PlainStatement, PlainExpression, IsTop, Leaves;
    StatementsFit(h, b.statements, locals, s, Then(ReturnCost(b.ret), 0, last));
    var ss := StatementsCode(h, b.statements, locals, s).value;
    if b.ret.Some? {
      StatementsCodeOk(h, b.statements, locals, s);
      RoomFirst(ss.state, ReturnCost(b.ret), 0, last);
      ReturnFits(h, b.ret.value, ss.locals, ss.state);
      var r := ReturnCode(h, b.ret.value, ss.locals, ss.state).value;
      LeavesBoth(ss.items, r.items, BlockLeavesLoop(b), false);
    }
  }

  lemma LastNothing(ss: seq<Statement>, c: Cost)
    ensures StatementsCost(ss, Then(c, 0, Cost(0, 0, 0))) == StatementsCost(ss, c)
  {
    assert Then(c, 0, Cost(0, 0, 0)) == c;
  }

  lemma {:induction false} BlockFits(h: Host, b: Block, locals: seq<LocalVar>, s: State)
    requires PlainBlock(b) && LocalsOk(locals, s) && Room(s, BlockCost(b))
    ensures CompilesClosed(s, BlockCost(b), BlockLeavesLoop(b), BlockCode(h, b, locals, s))
    decreases b, 1
  {
    hide OpenBlockCode, StatementsCost, ReturnCost, LocalsOk, PlainBlock, BlockLeavesLoop, IsTop, Leaves;
    LastNothing(b.statements, ReturnCost(b.ret));
    OpenBlockFits(h, b, locals, s, Cost(0, 0, 0));
  }

  // Loops and branches.

  lemma WhileFits(test: seq<M.Operation>, body: Code, breaks: bool, c: Cost)
    requires |test| + |body.items| + 2 <= c.operations <= 32767 && Leaves(body.items, breaks)
    ensures WhileCode(test, body).Some?
    ensures var r := WhileCode(test, body).value; |r.items| <= c.operations && r.state == body.state && Leaves(r.items, false)
  {
    var front := Emits(test + [NoClose(|body.items| + 1)]);
    var back := [Emit(NoClose(-(|test| + 2 + |body.items|)))];
    EmitsLeave(test + [NoClose(|body.items| + 1)]);
    hide Leaves;
    LeavesBoth(front, body.items, false, breaks);
    assert Leaves(back, false) by { JumpLeaves(back[0].op); }
    LeavesBoth(front + body.items, back, breaks, false);
    BreaksPatched(front + body.items + back, breaks, body.state);
  }

  lemma JumpLeaves(op: M.Operation)
    ensures Leaves([Emit(op)], false)
  {
  }

  /** Behind a loop no `break` is left. */
  lemma BreaksPatched(items: seq<Item>, breaks: bool, s: State)
    requires |items| <= 32767 && Leaves(items, breaks)
    ensures PatchEnd(items, BreakLabel, s).Some?
    ensures var r := PatchEnd(items, BreakLabel, s).value; |r.items| == |items| && r.state == s && Leaves(r.items, false)
  {
    hide PatchEnd;
    EndReached(items, BreakLabel, s);
  }

  lemma RepeatFits(body: seq<Item>, test: seq<M.Operation>, s: State, breaks: bool, c: Cost)
    requires |test| + |body| + 1 <= c.operations <= 32767 && Leaves(body, breaks)
    ensures RepeatCode(body, test, s).Some?
    ensures var r := RepeatCode(body, test, s).value; |r.items| <= c.operations && r.state == s && Leaves(r.items, false)
  {
    var ops := test + [NoClose(-(|body| + |test| + 1))];
    EmitsLeave(ops);
    hide Leaves;
    LeavesBoth(body, Emits(ops), breaks, false);
    BreaksPatched(body + Emits(ops), breaks, s);
  }

  lemma ForFits(control: seq<M.Operation>, base: nat, body: Code, breaks: bool, c: Cost)
    requires |control| + |body.items| + 2 <= c.operations <= 32767 && Leaves(body.items, breaks)
    ensures ForCode(control, base, body).Some?
    ensures var r := ForCode(control, base, body).value; |r.items| <= c.operations && r.state == body.state && Leaves(r.items, false)
  {
    var n := |body.items|;
    var front, back := Emits(control + [M.NumericForPrep(base, n)]), [Emit(M.NumericForLoop(base, -(n + 1)))];
    EmitsLeave(control + [M.NumericForPrep(base, n)]);
    hide Leaves;
    LeavesBoth(front, body.items, false, breaks);
    assert Leaves(back, false) by { JumpLeaves(back[0].op); }
    LeavesBoth(front + body.items, back, breaks, false);
    BreaksPatched(front + body.items + back, breaks, body.state);
  }

  /** A condition, and the room behind it. */
  lemma ConditionThen(h: Host, locals: seq<LocalVar>, e: Expression, s: State, after: Cost)
    requires PlainExpression(e) && LocalsOk(locals, s) && Room(s, Then(More(ExpressionCost(e), 2), 0, after))
    ensures Condition(h, locals, e, s).Some?
    ensures var t := Condition(h, locals, e, s).value;
            LocalsOk(locals, t.state) && Room(t.state, after) && |t.code| <= ExpressionCost(e).operations + 1
            && Spent(s, More(ExpressionCost(e), 2), 0, t.state)
  {
    hide Condition, LocalsOk, ExpressionCost, PlainExpression;
    ConditionFits(h, locals, e, s);
    SameLocals(locals, s, Condition(h, locals, e, s).value.state);
  }

  lemma {:induction false} WhileStatementFits(h: Host, st: Statement, locals: seq<LocalVar>, s: State)
    requires st.While? && PlainStatement(st) && LocalsOk(locals, s) && Room(s, StatementCost(st))
    ensures Compiles(s, StatementCost(st), 0, false, StatementCode(h, st, locals, s))
    decreases st, 1
  {
    hide Condition, BlockCode, WhileCode, BlockCost, LocalsOk, ExpressionCost, PlainExpression, PlainBlock, BlockLeavesLoop, BreakRefused,
         BreaksBelowVariables, Leaves, IsTop;
    RefusedAgree(st.body);
    ConditionThen(h, locals, st.condition, s, More(BlockCost(st.body), 1));
    var t := Condition(h, locals, st.condition, s).value;
    BlockFits(h, st.body, locals, t.state);
    WhileFits(t.code, BlockCode(h, st.body, locals, t.state).value, BlockLeavesLoop(st.body), StatementCost(st));
  }

  lemma {:induction false} RepeatStatementFits(h: Host, st: Statement, locals: seq<LocalVar>, s: State)
    requires st.Repeat? && PlainStatement(st) && LocalsOk(locals, s) && Room(s, StatementCost(st))
    ensures Compiles(s, StatementCost(st), 0, false, StatementCode(h, st, locals, s))
    decreases st, 1
  {
    hide Condition, OpenBlockCode, RepeatCode, StatementsCost, ReturnCost, LocalsOk, ExpressionCost, PlainExpression, PlainBlock,
         BlockLeavesLoop, Leaves, IsTop;
    var last := More(ExpressionCost(st.until), 2);
    OpenBlockFits(h, st.rbody, locals, s, last);
    OpenBlockCodeOk(h, st.rbody, locals, s);
    var b := OpenBlockCode(h, st.rbody, locals, s).value;
    ConditionThen(h, b.locals, st.until, b.state, Cost(0, 0, 0));
    var t := Condition(h, b.locals, st.until, b.state).value;
    RepeatFits(b.items, t.code, Exited(s, t.state), BlockLeavesLoop(st.rbody), StatementCost(st));
  }

  /** The control values and the variable of a loop. */
  function ForCost(initial: Expression, limit: Expression, step: Option<Expression>, body: Cost): Cost {
    Then(ControlCost(initial, limit, step), 3, Then(Cost(1, 1, 0), 1, body))
  }

  lemma ForCosts(st: Statement)
    requires st.NumericFor?
    ensures StatementCost(st) == ForCost(st.initial, st.limit, st.step, More(BlockCost(st.fbody), 1))
  {
    hide ExpressionCost, BlockCost;
  }

  lemma ForVariableFits(s: State, body: Cost)
    requires Ok(s.alloc) && Room(s, Then(Cost(1, 1, 0), 1, body))
    ensures Push(s.alloc, 1).Some? && Room(s.(alloc := Push(s.alloc, 1).value.1), body)
  {
    PushOk(s.alloc, 1);
  }

  /** The control values of a loop and its variable. */
  lemma ForHeadFits(h: Host, st: Statement, locals: seq<LocalVar>, s: State, body: Cost) returns (c: Emitted, v: (nat, Alloc))
    requires st.NumericFor? && PlainStatement(st) && LocalsOk(locals, s) && Room(s, ForCost(st.initial, st.limit, st.step, body))
    ensures ForControl(h, st.initial, st.limit, st.step, locals, s) == Some(c) && Push(c.state.alloc, 1) == Some(v)
    ensures var s4 := c.state.(alloc := v.1);
            Room(s4, body) && LocalsOk(locals + [LocalVar(st.name, v.0)], s4) && Pushed(s, 4, s4)
            && |s4.constants| <= |s.constants| + ControlCost(st.initial, st.limit, st.step).constants
    ensures |c.code| <= ControlCost(st.initial, st.limit, st.step).operations
  {
    hide ForControl, ControlCost, LocalsOk, PlainExpression, PlainBlock, IsTop;
    var control := ControlCost(st.initial, st.limit, st.step);
    RoomFirst(s, control, 3, Then(Cost(1, 1, 0), 1, body));
    ForControlFits(h, st.initial, st.limit, st.step, locals, s);
    ForControlOk(h, st.initial, st.limit, st.step, locals, s);
    c := ForControl(h, st.initial, st.limit, st.step, locals, s).value;
    RoomThen(s, control, 3, Then(Cost(1, 1, 0), 1, body), c.state);
    ForVariableFits(c.state, body);
    ForBodyLocals(locals, st.name, s, c.state);
    v := Push(c.state.alloc, 1).value;
  }

  lemma {:induction false} ForStatementFits(h: Host, st: Statement, locals: seq<LocalVar>, s: State)
    requires st.NumericFor? && PlainStatement(st) && LocalsOk(locals, s) && Room(s, StatementCost(st))
    ensures Compiles(s, StatementCost(st), 0, false, StatementCode(h, st, locals, s))
    decreases st, 1
  {
    var body := More(BlockCost(st.fbody), 1);
    ForCosts(st);
    var c, v := ForHeadFits(h, st, locals, s, body);
    var s4, inner := c.state.(alloc := v.1), locals + [LocalVar(st.name, v.0)];
    hide ForControl, BlockCode, BlockCost, ControlCost, LocalsOk, ExpressionCost, PlainExpression, PlainBlock, BlockLeavesLoop, Leaves,
         Pushed, Push, ForCode, IsTop;
    BlockFits(h, st.fbody, inner, s4);
    var b := BlockCode(h, st.fbody, inner, s4).value;
    ForFits(c.code, c.reg, Code(b.items, Exited(s, b.state)), BlockLeavesLoop(st.fbody), StatementCost(st));
  }

  /** Jumps to the end of the chain may be left. */
  ghost predicate ChainCompiles(s: State, c: Cost, breaks: bool, r: Option<Code>) {
    r.Some? && |r.value.items| <= c.operations && Spent(s, c, 0, r.value.state) && (Goto(BreakLabel) in r.value.items <==> breaks)
  }

  lemma ArmItems(test: seq<M.Operation>, block: seq<Item>, end: seq<Item>, rest: seq<Item>, x: bool, y: bool)
    requires Leaves(block, x) && (Goto(BreakLabel) in rest <==> y) && (end == [] || end == [Goto(EndLabel)])
    ensures Goto(BreakLabel) in Emits(test) + block + end + rest <==> x || y
  {
    EmitsLeave(test);
    hide Emits;
    assert Goto(BreakLabel) !in end;
  }

  lemma {:induction false} ArmFits(h: Host, chain: IfChain, locals: seq<LocalVar>, s: State)
    requires chain.Arm? && PlainChain(chain) && LocalsOk(locals, s) && Room(s, ChainCost(chain))
    ensures ChainCompiles(s, ChainCost(chain), ChainLeavesLoop(chain), ChainCode(h, chain, locals, s))
    decreases chain, 1
  {
    hide Condition, BlockCode, BlockCost, LocalsOk, ExpressionCost, PlainExpression, PlainBlock, BlockLeavesLoop, Leaves, IsTop, Emits;
    var block, rest := More(BlockCost(chain.block), 1), ChainCost(chain.rest);
    ConditionThen(h, locals, chain.condition, s, Then(block, 0, rest));
    var t := Condition(h, locals, chain.condition, s).value;
    BlockFits(h, chain.block, locals, t.state);
    BlockCodeOk(h, chain.block, locals, t.state);
    var b := BlockCode(h, chain.block, locals, t.state).value;
    SameLocals(locals, t.state, b.state);
    RoomThen(t.state, block, 0, rest, b.state);
    ChainFits(h, chain.rest, locals, b.state);
    var r := ChainCode(h, chain.rest, locals, b.state).value;
    var end := if chain.rest.EndIf? then [] else [Goto(EndLabel)];
    ArmItems(t.code + [NoClose(|b.items| + |end|)], b.items, end, r.items, BlockLeavesLoop(chain.block), ChainLeavesLoop(chain.rest));
  }

  lemma {:induction false} ChainFits(h: Host, chain: IfChain, locals: seq<LocalVar>, s: State)
    requires PlainChain(chain) && LocalsOk(locals, s) && Room(s, ChainCost(chain))
    ensures ChainCompiles(s, ChainCost(chain), ChainLeavesLoop(chain), ChainCode(h, chain, locals, s))
    decreases chain, 2
  {
    hide BlockCode, BlockCost, LocalsOk, PlainBlock, BlockLeavesLoop, Room;
    match chain {
      case EndIf =>
      case Else(block) => BlockFits(h, block, locals, s);
      case Arm(_, _, _) => ArmFits(h, chain, locals, s);
    }
  }

  lemma {:induction false} IfStatementFits(h: Host, st: Statement, locals: seq<LocalVar>, s: State)
    requires st.If? && PlainStatement(st) && LocalsOk(locals, s) && Room(s, StatementCost(st))
    ensures Compiles(s, StatementCost(st), 0, LeavesLoop(st), StatementCode(h, st, locals, s))
    decreases st, 1
  {
    hide ChainCode, ChainCost, LocalsOk, PlainChain, ChainLeavesLoop;
    ChainFits(h, st.chain, locals, s);
    var c := ChainCode(h, st.chain, locals, s).value;
    EndReached(c.items, EndLabel, c.state);
  }

  lemma {:induction false} StatementFits(h: Host, st: Statement, locals: seq<LocalVar>, s: State)
    requires PlainStatement(st) && LocalsOk(locals, s) && Room(s, StatementCost(st))
    ensures Compiles(s, StatementCost(st), Kept(st), LeavesLoop(st), StatementCode(h, st, locals, s))
    decreases st, 2
  {
    match st {
      case LocalStatement(names, value) =>
        hide LocalCode;
        LocalFits(h, names, value, locals, s);
      case Assignment(target, e) =>
        hide AssignmentCode;
        AssignmentFits(h, target, e, locals, s);
      case Do(b) =>
        hide BlockCode, BlockCost, Leaves;
        BlockFits(h, b, locals, s);
      case If(_) => IfStatementFits(h, st, locals, s);
      case While(_, _) => WhileStatementFits(h, st, locals, s);
      case Repeat(_, _) => RepeatStatementFits(h, st, locals, s);
      case NumericFor(_, _, _, _, _) => ForStatementFits(h, st, locals, s);
      case Break =>
    }
  }

  // Whole programs.

  lemma JumpsLeave(items: seq<Item>, breaks: bool)
    requires Leaves(items, breaks)
    ensures (exists i :: 0 <= i < |items| && items[i].Goto?) <==> breaks
  {
    if breaks {
      var i :| 0 <= i < |items| && items[i] == Goto(BreakLabel);
      assert items[i].Goto?;
    }
    forall i | 0 <= i < |items| && items[i].Goto? ensures breaks {
      var l := items[i].target;
      assert items[i] == Goto(l) && Goto(l) in items;
      assert l == BreakLabel || l == EndLabel;
    }
  }

  /** A program that needs no more than 32767 operations, 255 registers and 65536 constants is compiled, unless a `break` is
      not in a loop. */
  lemma ChunkAccepted(h: Host, b: Block)
    requires PlainBlock(b) && Within(BlockCost(b), Cost(32767, 255, 65536))
    ensures ChunkCode(h, b).Some? <==> !BlockLeavesLoop(b)
  {
    var s := State(Alloc({}, 0), []);
    TopIs({}, 0);
    hide BlockCode, BlockCost, PlainBlock, BlockLeavesLoop, IsTop;
    BlockFits(h, b, [], s);
    JumpsLeave(BlockCode(h, b, [], s).value.items, BlockLeavesLoop(b));
  }
}
