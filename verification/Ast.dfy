/** Syntax trees, as built by piccolo/src/compiler/parser.rs and consumed by compiler.rs. */
module Ast {
  import opened Values

  type Name = string

  datatype BinaryOperator =
    | Simple(simple: SimpleBinOp)
    | Comparison(comparison: ComparisonOp)
    | ShortCircuit(logical: ShortCircuitOp)
    | Concat

  /** A head followed by operator/operand pairs, applied to the head from left to right. */
  datatype Expression = Expression(head: HeadExpression, tail: seq<TailPart>)
  datatype TailPart = TailPart(op: BinaryOperator, right: Expression)
  datatype HeadExpression = SimpleHead(simple: SimpleExpression) | UnaryHead(op: UnaryOp, operand: Expression)

  datatype SimpleExpression =
    | FloatLit(f: Float)
    | IntegerLit(i: int)
    | StringLit(s: string)
    | NilLit
    | TrueLit
    | FalseLit
    | VarArgs
    | Suffixed(primary: PrimaryExpression, suffixes: seq<SuffixPart>)

  datatype PrimaryExpression = Named(name: Name) | Grouped(inner: Expression)

  datatype SuffixPart =
    | NamedField(field: Name)
    | IndexedField(index: Expression)
    | Call(args: CallArgs)
    | MethodCall(name: Name, margs: CallArgs)

  /** `f(a, b)` or `f"s"`; the source keeps the second form as a call with one string argument. */
  datatype CallArgs = ParenArgs(exprs: seq<Expression>) | StringArg(s: string)

  /** The statements the compiler model covers. */
  datatype Statement =
    | LocalStatement(names: seq<Name>, value: Option<Expression>)
    | Assignment(target: Name, expr: Expression)
    | Do(block: Block)
    | If(chain: IfChain)
    | While(condition: Expression, body: Block)
    | Repeat(rbody: Block, until: Expression)
    | NumericFor(name: Name, initial: Expression, limit: Expression, step: Option<Expression>, fbody: Block)
    | Break

  /** The `if` and `elseif` arms in order, and what follows the last of them. */
  datatype IfChain = Arm(condition: Expression, block: Block, rest: IfChain) | Else(block: Block) | EndIf

  datatype Block = Block(statements: seq<Statement>, ret: Option<seq<Expression>>)
}
