/** What compiler.rs emits for statements. Forward jumps out of a statement are left open. */
module StatementCodegen {
  import opened Values
  import opened Ast
  import opened AllocatorSpec
  import opened Codegen
  import M = Machine

  /** Where an open jump goes: behind the innermost loop, or behind the enclosing `if`. */
  datatype Label = BreakLabel | EndLabel

  /** An operation, or a jump still to be patched. */
  datatype Item = Emit(op: M.Operation) | Goto(target: Label)

  datatype Code = Code(items: seq<Item>, state: State)
  datatype Scoped = Scoped(items: seq<Item>, locals: seq<LocalVar>, state: State)

  function Emits(ops: seq<M.Operation>): (r: seq<Item>)
    ensures |r| == |ops| && forall i :: 0 <= i < |ops| ==> r[i] == Emit(ops[i])
  {
    seq(|ops|, i requires 0 <= i < |ops| => Emit(ops[i]))
  }

  /** Every jump to `lbl` in the code can reach `target`, given in 16-bit offsets. */
  ghost predicate InReach(items: seq<Item>, lbl: Label, target: nat) {
    forall i :: 0 <= i < |items| && items[i] == Goto(lbl) ==> -MAX_I16 <= target - (i + 1) <= MAX_I16
  }

  function Patch(items: seq<Item>, lbl: Label, target: nat): (r: seq<Item>)
    ensures |r| == |items|
    ensures forall i :: 0 <= i < |items| ==>
              r[i] == if items[i] == Goto(lbl) then Emit(NoClose(target - (i + 1))) else items[i]
  {
    seq(|items|, i requires 0 <= i < |items| => if items[i] == Goto(lbl) then Emit(NoClose(target - (i + 1))) else items[i])
  }

  ghost function PatchEnd(items: seq<Item>, lbl: Label, s: State): Option<Code> {
    if InReach(items, lbl, |items|) then Some(Code(Patch(items, lbl, |items|), s)) else None
  }

  // Conditions.

  datatype Ops = Ops(code: seq<M.Operation>, state: State)

  /** `expr_test`: code that skips the operation behind it when the condition equals `skipIf`. */
  ghost function TestCode(d: Desc, skipIf: bool, s: State): Option<Ops> {
    match d
    case Const(v) => Some(Ops(if ToBool(v) == skipIf then [NoClose(1)] else [], s))
    case ComparisonDesc(_, _, _) => ComparisonTest(d, skipIf, s)
    case UnaryDesc(Not, operand) =>
      if operand.ComparisonDesc? then ComparisonTest(operand, !skipIf, s) else RegisterTest(operand, !skipIf, s)
    case _ => RegisterTest(d, skipIf, s)
  }

  ghost function ComparisonTest(d: Desc, skipIf: bool, s: State): Option<Ops>
    requires d.ComparisonDesc?
  {
    var o := Operands(d, s);
    if o.None? then None
    else Some(Ops(o.value.code + [ComparisonOperation(d.cop, o.value.left, o.value.right, skipIf)], o.value.state))
  }

  ghost function RegisterTest(d: Desc, skipIf: bool, s: State): Option<Ops> {
    var o := AnyRegister(d, s);
    if o.None? then None
    else Some(Ops(o.value.code + [M.Test(o.value.rc.r, skipIf)], FreeTemp(o.value.state, o.value.temp)))
  }

  ghost function Condition(h: Host, locals: seq<LocalVar>, e: Expression, s: State): Option<Ops> {
    var d := Describe(h, locals, e);
    if d.None? then None else TestCode(d.value, true, s)
  }

  // Values pushed on the register stack.

  ghost function PushExpression(h: Host, locals: seq<LocalVar>, e: Expression, s: State): Option<Emitted> {
    var d := Describe(h, locals, e);
    if d.None? then None else Discharge(d.value, PushNew, s)
  }

  ghost function PushAll(h: Host, locals: seq<LocalVar>, es: seq<Expression>, s: State): Option<Ops> {
    if es == [] then Some(Ops([], s)) else
    var e := PushExpression(h, locals, es[0], s);
    if e.None? then None else
    var rest := PushAll(h, locals, es[1..], e.value.state);
    if rest.None? then None else Some(Ops(e.value.code + rest.value.code, rest.value.state))
  }

  /** `expr_push_count`: one value followed by nils, in `count` new registers on the stack top. */
  ghost function PushCount(d: Desc, count: nat, s: State): Option<Emitted> {
    if d == Const(Nil) then PushNils(count, s)
    else
      var e := Discharge(d, PushNew, s);
      if e.None? || count <= 1 then e
      else
        var n := PushNils(count - 1, e.value.state);
        if n.None? then None else Some(Emitted(e.value.code + n.value.code, e.value.reg, n.value.state))
  }

  ghost function PushNils(count: nat, s: State): Option<Emitted> {
    var a := Push(s.alloc, count);
    if a.None? then None
    else Some(Emitted([M.LoadNil(a.value.0, count)], a.value.0, s.(alloc := a.value.1)))
  }

  // Statements.

  function DeclareLocals(names: seq<Name>, reg: nat): seq<LocalVar> {
    seq(|names|, i requires 0 <= i < |names| => LocalVar(names[i], reg + i))
  }

  ghost function LocalCode(h: Host, names: seq<Name>, value: Option<Expression>, locals: seq<LocalVar>, s: State): Option<Scoped> {
    if names == [] || ENV in names then None else
    var d := if value.None? then Some(Const(Nil)) else Describe(h, locals, value.value);
    if d.None? then None else
    var e := PushCount(d.value, |names|, s);
    if e.None? then None
    else Some(Scoped(Emits(e.value.code), locals + DeclareLocals(names, e.value.reg), e.value.state))
  }

  /** The value is pushed on the stack top first, then moved to its target. */
  ghost function AssignmentCode(h: Host, target: Name, e: Expression, locals: seq<LocalVar>, s: State): Option<Code> {
    if target == ENV then None else
    var d := Describe(h, locals, e);
    if d.None? then None else
    var v := PushCount(d.value, 1, s);
    if v.None? then None else
    var local := FindLocal(locals, target);
    if local.Some? then
      Some(Code(Emits(v.value.code + [M.Move(local.value, v.value.reg)]),
                v.value.state.(alloc := PopTo(v.value.state.alloc, Top(s.alloc.used)))))
    else
      var k := ConstantKey(target, v.value.state);
      if k.None? then None
      else
        var freed := FreeTemp(k.value.state, k.value.temp);
        Some(Code(Emits(v.value.code + k.value.code + [M.SetUpTable(0, k.value.rc, M.Register(v.value.reg))]),
                  freed.(alloc := PopTo(freed.alloc, Top(s.alloc.used)))))
  }

  ghost function ReturnCode(h: Host, es: seq<Expression>, locals: seq<LocalVar>, s: State): Option<Code> {
    var values := PushAll(h, locals, es, s);
    if values.None? || |es| > 254 || Top(s.alloc.used) >= REGISTERS then None
    else
      Some(Code(Emits(values.value.code + [M.Return(Top(s.alloc.used), |es|)]),
                values.value.state.(alloc := PopTo(values.value.state.alloc, Top(s.alloc.used)))))
  }

  /** The state behind a block: the registers of `before`, all else as the block has left it. */
  function Exited(before: State, after: State): State {
    State(Alloc(before.alloc.used, after.alloc.size), after.constants)
  }

  ghost function BlockCode(h: Host, b: Block, locals: seq<LocalVar>, s: State): Option<Code>
    decreases b, 1
  {
    var o := OpenBlockCode(h, b, locals, s);
    if o.None? then None else Some(Code(o.value.items, Exited(s, o.value.state)))
  }

  ghost function OpenBlockCode(h: Host, b: Block, locals: seq<LocalVar>, s: State): Option<Scoped>
    decreases b, 0
  {
    var ss := StatementsCode(h, b.statements, locals, s);
    if ss.None? || b.ret.None? then ss
    else
      var r := ReturnCode(h, b.ret.value, ss.value.locals, ss.value.state);
      if r.None? then None else Some(Scoped(ss.value.items + r.value.items, ss.value.locals, r.value.state))
  }

  ghost function StatementsCode(h: Host, ss: seq<Statement>, locals: seq<LocalVar>, s: State): Option<Scoped>
    decreases ss, 0
  {
    if ss == [] then Some(Scoped([], locals, s)) else
    var first := StatementCode(h, ss[0], locals, s);
    if first.None? then None else
    var rest := StatementsCode(h, ss[1..], first.value.locals, first.value.state);
    if rest.None? then None
    else Some(Scoped(first.value.items + rest.value.items, rest.value.locals, rest.value.state))
  }

  ghost function Closed(c: Option<Code>, locals: seq<LocalVar>): Option<Scoped> {
    if c.None? then None else Some(Scoped(c.value.items, locals, c.value.state))
  }

  ghost function StatementCode(h: Host, st: Statement, locals: seq<LocalVar>, s: State): Option<Scoped>
    decreases st, 2
  {
    match st
    case LocalStatement(names, value) => LocalCode(h, names, value, locals, s)
    case Assignment(target, e) => Closed(AssignmentCode(h, target, e, locals, s), locals)
    case Do(b) => Closed(BlockCode(h, b, locals, s), locals)
    case If(chain) =>
      var c := ChainCode(h, chain, locals, s);
      if c.None? then None else Closed(PatchEnd(c.value.items, EndLabel, c.value.state), locals)
    case While(condition, body) =>
      var t := Condition(h, locals, condition, s);
      if t.None? then None else
      var b := BlockCode(h, body, locals, t.value.state);
      if b.None? || BreakRefused(body) then None else Closed(WhileCode(t.value.code, b.value), locals)
    case Repeat(body, until) =>
      var b := OpenBlockCode(h, body, locals, s);
      if b.None? then None else
      var t := Condition(h, b.value.locals, until, b.value.state);
      if t.None? then None else Closed(RepeatCode(b.value.items, t.value.code, Exited(s, t.value.state)), locals)
    case NumericFor(name, initial, limit, step, body) =>
      if name == ENV then None else
      var c := ForControl(h, initial, limit, step, locals, s);
      if c.None? then None else
      var v := Push(c.value.state.alloc, 1);
      if v.None? then None else
      var b := BlockCode(h, body, locals + [LocalVar(name, v.value.0)], c.value.state.(alloc := v.value.1));
      if b.None? then None
      else Closed(ForCode(c.value.code, c.value.reg, Code(b.value.items, Exited(s, b.value.state))), locals)
    case Break => Some(Scoped([Goto(BreakLabel)], locals, s))
  }

  /** Some `break` leaves the statement. */
  predicate Breaks(st: Statement)
    decreases st, 1
  {
    match st
    case Break => true
    case Do(b) => BlockBreaks(b)
    case If(chain) => ChainBreaks(chain)
    case _ => false
  }

  predicate BlockBreaks(b: Block)
    decreases b, 0
  {
    exists i :: 0 <= i < |b.statements| && Breaks(b.statements[i])
  }

  predicate ChainBreaks(chain: IfChain)
    decreases chain, 0
  {
    match chain
    case Arm(_, b, rest) => BlockBreaks(b) || ChainBreaks(rest)
    case Else(b) => BlockBreaks(b)
    case EndIf => false
  }

  predicate Declares(st: Statement) {
    st.LocalStatement? && st.names != []
  }

  /** A variable is declared behind a `break`. */
  predicate BreakAbove(ss: seq<Statement>) {
    exists i, j :: 0 <= i < j < |ss| && Breaks(ss[i]) && Declares(ss[j])
  }

  /** The label behind a `while` loop is above the variables of a body that ends in `return`, so that an earlier `break`
      would jump into their scope. */
  predicate BreakRefused(body: Block) {
    body.ret.Some? && BreakAbove(body.statements)
  }

  /** Test, jump out, body, jump back. */
  ghost function WhileCode(test: seq<M.Operation>, body: Code): Option<Code> {
    var back := |test| + 2 + |body.items|;
    if |body.items| + 1 > MAX_I16 || back > MAX_I16 then None
    else PatchEnd(Emits(test + [NoClose(|body.items| + 1)]) + body.items + [Emit(NoClose(-back))], BreakLabel, body.state)
  }

  /** Body, test, jump back unless the condition holds. */
  ghost function RepeatCode(body: seq<Item>, test: seq<M.Operation>, s: State): Option<Code> {
    var back := |body| + |test| + 1;
    if back > MAX_I16 then None
    else PatchEnd(body + Emits(test + [NoClose(-back)]), BreakLabel, s)
  }

  /** The three control values of a numeric `for`, in consecutive registers. */
  ghost function ForControl(h: Host, initial: Expression, limit: Expression, step: Option<Expression>, locals: seq<LocalVar>, s: State): Option<Emitted> {
    var i := PushExpression(h, locals, initial, s);
    if i.None? then None else
    var l := PushExpression(h, locals, limit, i.value.state);
    if l.None? then None else
    var st := if step.None? then Discharge(Const(Integer(1)), PushNew, l.value.state)
              else PushExpression(h, locals, step.value, l.value.state);
    if st.None? then None
    else Some(Emitted(i.value.code + l.value.code + st.value.code, i.value.reg, st.value.state))
  }

  /** Control values, jump to the loop operation, body, loop operation. */
  ghost function ForCode(control: seq<M.Operation>, base: nat, body: Code): Option<Code> {
    var n := |body.items|;
    if n + 1 > MAX_I16 then None
    else PatchEnd(Emits(control + [M.NumericForPrep(base, n)]) + body.items + [Emit(M.NumericForLoop(base, -(n + 1)))],
                  BreakLabel, body.state)
  }

  /** The arms of an `if`: each tests, jumps to the next arm if that fails, and otherwise runs its
      block and jumps to the end, unless nothing follows. */
  ghost function ChainCode(h: Host, chain: IfChain, locals: seq<LocalVar>, s: State): Option<Code>
    decreases chain, 2
  {
    match chain
    case EndIf => Some(Code([], s))
    case Else(block) => BlockCode(h, block, locals, s)
    case Arm(condition, block, rest) =>
      var t := Condition(h, locals, condition, s);
      if t.None? then None else
      var b := BlockCode(h, block, locals, t.value.state);
      if b.None? then None else
      var r := ChainCode(h, rest, locals, b.value.state);
      if r.None? then None
      else
        var end := if rest.EndIf? then [] else [Goto(EndLabel)];
        var skip := |b.value.items| + |end|;
        if skip > MAX_I16 then None
        else Some(Code(Emits(t.value.code + [NoClose(skip)]) + b.value.items + end + r.value.items, r.value.state))
  }

  /** A whole chunk: its block followed by the final `return`. `None` also when a `break` is not in
      any loop. The second component is the stack size. */
  ghost function ChunkCode(h: Host, b: Block): Option<(M.Program, nat)> {
    var c := BlockCode(h, b, [], State(Alloc({}, 0), []));
    if c.None? || exists i :: 0 <= i < |c.value.items| && c.value.items[i].Goto? then None
    else
      Some((M.Program(Operations(c.value.items) + [M.Return(0, 0)], c.value.state.constants), c.value.state.alloc.size))
  }

  ghost function Operations(items: seq<Item>): (r: seq<M.Operation>)
    requires forall i :: 0 <= i < |items| ==> items[i].Emit?
    ensures |r| == |items| && forall i :: 0 <= i < |items| ==> r[i] == items[i].op
  {
    seq(|items|, i requires 0 <= i < |items| => items[i].op)
  }
}
