/** How many operations, registers and constants a piece of source text needs at most. Nothing here depends on the compiler. */
module SourceCosts {
  import opened Values
  import opened Ast

  datatype Cost = Cost(operations: nat, registers: nat, constants: nat)

  function Greater(a: nat, b: nat): nat {
    if a < b then b else a
  }

  /** One after the other, when the first keeps some registers. */
  function Then(first: Cost, kept: nat, second: Cost): Cost {
    Cost(first.operations + second.operations, Greater(first.registers, kept + second.registers), first.constants + second.constants)
  }

  function More(c: Cost, operations: nat): Cost {
    c.(operations := c.operations + operations)
  }

  predicate Within(a: Cost, b: Cost) {
    a.operations <= b.operations && a.registers <= b.registers && a.constants <= b.constants
  }

  // Expressions. Their value takes one register.

  function ExpressionCost(e: Expression): Cost
    decreases e, 1
  {
    TailCost(HeadCost(e.head), e.tail)
  }

  function HeadCost(head: HeadExpression): Cost
    decreases head, 1
  {
    match head
    case SimpleHead(simple) => SimpleCost(simple)
    case UnaryHead(_, operand) => More(ExpressionCost(operand), 1)
  }

  function SimpleCost(s: SimpleExpression): Cost
    decreases s, 1
  {
    match s
    case Suffixed(Named(_), _) => Cost(2, 1, 1)
    case Suffixed(Grouped(inner), _) => ExpressionCost(inner)
    case _ => Cost(1, 1, 1)
  }

  function TailCost(left: Cost, tail: seq<TailPart>): Cost
    decreases tail, 0
  {
    if tail == [] then left else TailCost(PartCost(left, tail[0]), tail[1..])
  }

  /** The right operand is evaluated while the left one is kept. */
  function PartCost(left: Cost, part: TailPart): Cost
    decreases part, 0
  {
    OperatorCost(part.op, left, ExpressionCost(part.right))
  }

  function OperatorCost(op: BinaryOperator, left: Cost, right: Cost): Cost {
    More(Then(left, 1, right), match op case Simple(_) => 1 case Comparison(_) => 4 case ShortCircuit(_) => 2 case Concat => 1)
  }

  // Statements.

  /** A variable, or values to return: one register each. */
  function ListCost(es: seq<Expression>): Cost {
    if es == [] then Cost(1, 0, 0) else Then(ExpressionCost(es[0]), 1, ListCost(es[1..]))
  }

  /** Registers that stay behind a statement. */
  function Kept(st: Statement): nat {
    if st.LocalStatement? then |st.names| else 0
  }

  function StatementCost(st: Statement): Cost
    decreases st, 2
  {
    match st
    case LocalStatement(names, value) =>
      Then(if value.None? then Cost(0, 0, 0) else ExpressionCost(value.value), 0, Cost(1, |names|, 0))
    case Assignment(_, e) => Then(ExpressionCost(e), 1, Cost(2, 1, 1))
    case Do(b) => BlockCost(b)
    case If(chain) => ChainCost(chain)
    case While(condition, body) => Then(More(ExpressionCost(condition), 2), 0, More(BlockCost(body), 1))
    case Repeat(body, until) => StatementsCost(body.statements, Then(ReturnCost(body.ret), 0, More(ExpressionCost(until), 2)))
    case NumericFor(_, initial, limit, step, body) =>
      Then(ExpressionCost(initial), 1, Then(ExpressionCost(limit), 1,
        Then(if step.None? then Cost(1, 1, 1) else ExpressionCost(step.value), 1, Then(Cost(1, 1, 0), 1, More(BlockCost(body), 1)))))
    case Break => Cost(1, 0, 0)
  }

  function ReturnCost(ret: Option<seq<Expression>>): Cost {
    if ret.None? then Cost(0, 0, 0) else ListCost(ret.value)
  }

  function BlockCost(b: Block): Cost
    decreases b, 0
  {
    StatementsCost(b.statements, ReturnCost(b.ret))
  }

  /** Statements, and what follows them in their scope. */
  function StatementsCost(ss: seq<Statement>, last: Cost): Cost
    decreases ss, 0
  {
    if ss == [] then last else Then(StatementCost(ss[0]), Kept(ss[0]), StatementsCost(ss[1..], last))
  }

  function ChainCost(chain: IfChain): Cost
    decreases chain, 2
  {
    match chain
    case EndIf => Cost(0, 0, 0)
    case Else(block) => BlockCost(block)
    case Arm(condition, block, rest) => Then(More(ExpressionCost(condition), 2), 0, Then(More(BlockCost(block), 1), 0, ChainCost(rest)))
  }

  // The part of the language that the compiler model covers.

  const ENVIRONMENT: Name := "_ENV"

  predicate PlainExpression(e: Expression)
    decreases e, 1
  {
    PlainHead(e.head) && forall i :: 0 <= i < |e.tail| ==> PlainPart(e.tail[i])
  }

  predicate PlainHead(head: HeadExpression)
    decreases head, 1
  {
    match head
    case SimpleHead(simple) => PlainSimple(simple)
    case UnaryHead(_, operand) => PlainExpression(operand)
  }

  predicate PlainSimple(s: SimpleExpression)
    decreases s, 1
  {
    match s
    case VarArgs => false
    case Suffixed(Named(name), suffixes) => suffixes == [] && name != ENVIRONMENT
    case Suffixed(Grouped(inner), suffixes) => suffixes == [] && PlainExpression(inner)
    case _ => true
  }

  predicate PlainPart(part: TailPart)
    decreases part, 0
  {
    !part.op.Concat? && PlainExpression(part.right)
  }

  predicate PlainList(es: seq<Expression>) {
    forall i :: 0 <= i < |es| ==> PlainExpression(es[i])
  }

  predicate PlainStatement(st: Statement)
    decreases st, 2
  {
    match st
    case LocalStatement(names, value) => names != [] && ENVIRONMENT !in names && (value.Some? ==> PlainExpression(value.value))
    case Assignment(target, e) => target != ENVIRONMENT && PlainExpression(e)
    case Do(b) => PlainBlock(b)
    case If(chain) => PlainChain(chain)
    case While(condition, body) => PlainExpression(condition) && PlainBlock(body) && !BreaksBelowVariables(body)
    case Repeat(body, until) => PlainBlock(body) && PlainExpression(until)
    case NumericFor(name, initial, limit, step, body) =>
      name != ENVIRONMENT && PlainExpression(initial) && PlainExpression(limit) && (step.Some? ==> PlainExpression(step.value)) && PlainBlock(body)
    case Break => true
  }

  /** No more than 254 values can be returned. */
  predicate PlainBlock(b: Block)
    decreases b, 0
  {
    (forall i :: 0 <= i < |b.statements| ==> PlainStatement(b.statements[i]))
    && (b.ret.Some? ==> PlainList(b.ret.value) && |b.ret.value| <= 254)
  }

  predicate PlainChain(chain: IfChain)
    decreases chain, 2
  {
    match chain
    case EndIf => true
    case Else(block) => PlainBlock(block)
    case Arm(condition, block, rest) => PlainExpression(condition) && PlainBlock(block) && PlainChain(rest)
  }

  /** A `break` that is not in a loop of the statement. */
  predicate LeavesLoop(st: Statement)
    decreases st, 1
  {
    match st
    case Break => true
    case Do(b) => BlockLeavesLoop(b)
    case If(chain) => ChainLeavesLoop(chain)
    case _ => false
  }

  predicate BlockLeavesLoop(b: Block)
    decreases b, 0
  {
    exists i :: 0 <= i < |b.statements| && LeavesLoop(b.statements[i])
  }

  predicate ChainLeavesLoop(chain: IfChain)
    decreases chain, 0
  {
    match chain
    case Arm(_, b, rest) => BlockLeavesLoop(b) || ChainLeavesLoop(rest)
    case Else(b) => BlockLeavesLoop(b)
    case EndIf => false
  }

  /** The body ends in `return`, and a variable of its own is declared behind a `break`. */
  predicate BreaksBelowVariables(b: Block) {
    b.ret.Some? && exists i, j :: 0 <= i < j < |b.statements| && LeavesLoop(b.statements[i]) && b.statements[j].LocalStatement? && b.statements[j].names != []
  }
}
