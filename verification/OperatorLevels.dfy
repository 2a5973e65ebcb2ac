/** How binary and unary operators group, by the levels that section 3.4.8 of the Lua 5.4 Reference Manual lists, from the
    lowest on: the results of the parser for every pair of operators. */
module OperatorLevels {
  import opened Values
  import opened Ast
  import opened Grammar
  import opened PrintParse
  import opened PriorityTables

  const UNARY_LEVEL: nat := 11

  function Level(tb: Table, op: BinaryOperator): nat {
    match op
    case ShortCircuit(Or) => 1
    case ShortCircuit(And) => 2
    case Comparison(c) => if c.NotEqual? && tb.CodeTable? then 9 else 3
    case Simple(BitOr) => 4
    case Simple(BitXor) => 5
    case Simple(BitAnd) => 6
    case Simple(ShiftLeft) => 7
    case Simple(ShiftRight) => 7
    case Concat => 8
    case Simple(Add) => 9
    case Simple(Sub) => 9
    case Simple(Mul) => 10
    case Simple(Div) => 10
    case Simple(IDiv) => 10
    case Simple(Mod) => 10
    case Simple(Pow) => 12
  }

  predicate RightAssociative(op: BinaryOperator) {
    op.Concat? || op == Simple(Pow)
  }

  /** Behind the first operator and its right operand, the second one belongs to that operand. */
  predicate Deeper(tb: Table, first: BinaryOperator, second: BinaryOperator) {
    Level(tb, second) > Level(tb, first) || (Level(tb, second) == Level(tb, first) && RightAssociative(first))
  }

  function Spelling(op: BinaryOperator): Token {
    match op
    case ShortCircuit(Or) => TOr
    case ShortCircuit(And) => TAnd
    case Comparison(LessThan) => TLessThan
    case Comparison(GreaterThan) => TGreaterThan
    case Comparison(LessEqual) => TLessEqual
    case Comparison(GreaterEqual) => TGreaterEqual
    case Comparison(NotEqual) => TNotEqual
    case Comparison(Equal) => TEqual
    case Simple(BitOr) => TBitOr
    case Simple(BitXor) => TBitNotXor
    case Simple(BitAnd) => TBitAnd
    case Simple(ShiftLeft) => TShiftLeft
    case Simple(ShiftRight) => TShiftRight
    case Concat => TConcat
    case Simple(Add) => TAdd
    case Simple(Sub) => TMinus
    case Simple(Mul) => TMul
    case Simple(Div) => TDiv
    case Simple(IDiv) => TIDiv
    case Simple(Mod) => TMod
    case Simple(Pow) => TPow
  }

  function UnarySpelling(op: UnaryOp): Token {
    match op
    case Not => TNot
    case Len => TLen
    case Minus => TMinus
    case BitNot => TBitNotXor
  }

  lemma SpellingsAre(op: BinaryOperator, u: UnaryOp)
    ensures BinaryToken(op) == Spelling(op) && UnaryToken(u) == UnarySpelling(u)
  {
  }

  /** All that the parser asks of priorities. */
  lemma BindsByLevel(tb: Table, first: BinaryOperator, second: BinaryOperator)
    ensures Binds(tb, first, second) <==> Deeper(tb, first, second)
    ensures Priority(tb, second).0 > UNARY_PRIORITY <==> Level(tb, second) > UNARY_LEVEL
    ensures Priority(tb, second).0 > MIN_PRIORITY && Priority(tb, first).1 >= MIN_PRIORITY
  {
  }

  /** `(a first b) second c`, with the grouping left to the tree. */
  lemma LeftGroups(tb: Table, head: HeadExpression, first: BinaryOperator, x: Expression, second: BinaryOperator, c: int, limit: nat)
    requires ObeysHead(tb, head) && Priority(tb, first).0 > limit && Priority(tb, second).0 > limit && !Binds(tb, first, second)
    requires StopsAt(tb, HeadBefore(head), first) && Obeys(tb, x, Priority(tb, first).1) && StopsIn(tb, x, second)
    ensures var e := Expression(head, [TailPart(first, x), TailPart(second, Leaf(c))]);
            Obeys(tb, e, limit) && Print(e) == PrintHead(head) + ([BinaryToken(first)] + Print(x) + [BinaryToken(second), TInteger(c)])
            && Depth(e) == 1 + Max(DepthHead(head), Depth(x))
  {
    hide Priority;
    var p, q := TailPart(first, x), TailPart(second, Leaf(c));
    var tail := [p, q];
    LeafShape(tb, c, Priority(tb, second).1);
    assert tail[1..] == [q] && [q][1..] == [];
    assert ObeysPart(tb, p) && ObeysPart(tb, q);
    assert ObeysTail(tb, PartBefore(tb, q), [], limit);
    assert StopsAt(tb, PartBefore(tb, p), second);
    assert ObeysTail(tb, PartBefore(tb, p), [q], limit);
    assert ObeysTail(tb, HeadBefore(head), tail, limit);
    assert PrintTail([q]) == PrintPart(q) + PrintTail([]) == [BinaryToken(second), TInteger(c)];
    assert PrintTail(tail) == PrintPart(p) + PrintTail([q]);
    assert DepthTail([q]) == 1 && DepthTail(tail) == Max(DepthPart(p), DepthTail([q]));
  }

  /** `head op x`. */
  lemma OneGroups(tb: Table, head: HeadExpression, op: BinaryOperator, x: Expression, limit: nat)
    requires ObeysHead(tb, head) && Priority(tb, op).0 > limit && StopsAt(tb, HeadBefore(head), op) && Obeys(tb, x, Priority(tb, op).1)
    ensures var e := Expression(head, [TailPart(op, x)]);
            Obeys(tb, e, limit) && Print(e) == PrintHead(head) + ([BinaryToken(op)] + Print(x)) && Depth(e) == 1 + Max(DepthHead(head), Depth(x))
  {
    hide Priority;
    var p := TailPart(op, x);
    assert ObeysPart(tb, p) && [p][1..] == [] && ObeysTail(tb, PartBefore(tb, p), [], limit);
    assert ObeysTail(tb, HeadBefore(head), [p], limit);
    assert PrintTail([p]) == PrintPart(p) + PrintTail([]) == [BinaryToken(op)] + Print(x);
    assert DepthPart(p) == Depth(x) && DepthTail([p]) == Max(DepthPart(p), DepthTail([]));
  }

  /** `op x`. */
  lemma UnaryGroups(tb: Table, op: UnaryOp, x: Expression, limit: nat)
    requires Obeys(tb, x, UNARY_PRIORITY)
    ensures var e := Expression(UnaryHead(op, x), []);
            ObeysHead(tb, e.head) && Obeys(tb, e, limit) && PrintHead(e.head) == Print(e) == [UnaryToken(op)] + Print(x)
            && DepthHead(e.head) == Depth(x) && Depth(e) == 1 + Depth(x)
  {
    var e := Expression(UnaryHead(op, x), []);
    assert ObeysTail(tb, HeadBefore(e.head), [], limit) && PrintTail([]) == [] && DepthTail([]) == 0;
  }

  lemma LeafHead(tb: Table, a: int, op: BinaryOperator)
    ensures var head := SimpleHead(IntegerLit(a));
            ObeysHead(tb, head) && StopsAt(tb, HeadBefore(head), op) && PrintHead(head) == [TInteger(a)] && DepthHead(head) == 0
            && StopsIn(tb, Leaf(a), op)
  {
    LeafShape(tb, a, 0);
    assert PrintHead(SimpleHead(IntegerLit(a))) == [TInteger(a)];
  }

  lemma ReadsAs(tb: Table, e: Expression, ts: seq<Token>, room: nat)
    requires Obeys(tb, e, MIN_PRIORITY) && Print(e) == ts && Depth(e) <= room
    ensures ParseSub(tb, ts, MIN_PRIORITY, room) == Parsed(e, [])
  {
    hide Obeys, Print, Depth, ParseSub;
    RoundTrip(tb, e, MIN_PRIORITY, room, []);
    assert ts + [] == ts;
  }

  /** `a first b second c` */
  lemma TwoOperators(tb: Table, a: int, first: BinaryOperator, b: int, second: BinaryOperator, c: int, room: nat)
    requires room >= 3
    ensures ParseSub(tb, [TInteger(a), Spelling(first), TInteger(b), Spelling(second), TInteger(c)], MIN_PRIORITY, room)
            == Parsed(if Deeper(tb, first, second) then Then(a, [TailPart(first, Then(b, [TailPart(second, Leaf(c))]))])
                      else Then(a, [TailPart(first, Leaf(b)), TailPart(second, Leaf(c))]), [])
  {
    SpellingsAre(first, Not);
    SpellingsAre(second, Not);
    BindsByLevel(tb, first, second);
    BindsByLevel(tb, first, first);
    LeafHead(tb, a, first);
    var ts := [TInteger(a), Spelling(first), TInteger(b), Spelling(second), TInteger(c)];
    hide Obeys, Print, Depth, ParseSub, Priority, Level, Spelling, BinaryToken;
    if Deeper(tb, first, second) {
      LeafShape(tb, c, Priority(tb, second).1);
      OneOperator(tb, b, second, Leaf(c), Priority(tb, first).1);
      OneOperator(tb, a, first, Then(b, [TailPart(second, Leaf(c))]), MIN_PRIORITY);
      ReadsAs(tb, Then(a, [TailPart(first, Then(b, [TailPart(second, Leaf(c))]))]), ts, room);
    } else {
      LeafShape(tb, b, Priority(tb, first).1);
      LeafHead(tb, b, second);
      LeftGroups(tb, SimpleHead(IntegerLit(a)), first, Leaf(b), second, c, MIN_PRIORITY);
      ReadsAs(tb, Then(a, [TailPart(first, Leaf(b)), TailPart(second, Leaf(c))]), ts, room);
    }
  }

  /** `op a second b`: the operators above the unary ones take part in the operand. */
  lemma UnaryFirst(tb: Table, op: UnaryOp, a: int, second: BinaryOperator, b: int, room: nat)
    requires room >= 3
    ensures ParseSub(tb, [UnarySpelling(op), TInteger(a), Spelling(second), TInteger(b)], MIN_PRIORITY, room)
            == Parsed(if Level(tb, second) > UNARY_LEVEL then Expression(UnaryHead(op, Then(a, [TailPart(second, Leaf(b))])), [])
                      else Expression(UnaryHead(op, Leaf(a)), [TailPart(second, Leaf(b))]), [])
  {
    SpellingsAre(second, op);
    BindsByLevel(tb, second, second);
    LeafHead(tb, a, second);
    LeafShape(tb, a, UNARY_PRIORITY);
    LeafShape(tb, b, Priority(tb, second).1);
    var ts := [UnarySpelling(op), TInteger(a), Spelling(second), TInteger(b)];
    hide Obeys, Print, Depth, ParseSub, Priority, Level, Spelling, BinaryToken, UnarySpelling, UnaryToken, ObeysHead, PrintHead, DepthHead;
    if Level(tb, second) > UNARY_LEVEL {
      OneOperator(tb, a, second, Leaf(b), UNARY_PRIORITY);
      UnaryGroups(tb, op, Then(a, [TailPart(second, Leaf(b))]), MIN_PRIORITY);
      ReadsAs(tb, Expression(UnaryHead(op, Then(a, [TailPart(second, Leaf(b))])), []), ts, room);
    } else {
      UnaryGroups(tb, op, Leaf(a), MIN_PRIORITY);
      OneGroups(tb, UnaryHead(op, Leaf(a)), second, Leaf(b), MIN_PRIORITY);
      ReadsAs(tb, Expression(UnaryHead(op, Leaf(a)), [TailPart(second, Leaf(b))]), ts, room);
    }
  }

  /** What `a first op b second c` groups into: the second operator takes part in the operand of the unary one, in that of
      the first one, or in neither. */
  function UnaryTree(tb: Table, a: int, first: BinaryOperator, op: UnaryOp, b: int, second: BinaryOperator, c: int): Expression {
    var more := [TailPart(second, Leaf(c))];
    if Level(tb, second) > UNARY_LEVEL then Then(a, [TailPart(first, Expression(UnaryHead(op, Then(b, more)), []))])
    else if Deeper(tb, first, second) then Then(a, [TailPart(first, Expression(UnaryHead(op, Leaf(b)), more))])
    else Then(a, [TailPart(first, Expression(UnaryHead(op, Leaf(b)), []))] + more)
  }

  lemma UnarySecond(tb: Table, a: int, first: BinaryOperator, op: UnaryOp, b: int, second: BinaryOperator, c: int, room: nat)
    requires room >= 4
    ensures ParseSub(tb, [TInteger(a), Spelling(first), UnarySpelling(op), TInteger(b), Spelling(second), TInteger(c)], MIN_PRIORITY, room)
            == Parsed(UnaryTree(tb, a, first, op, b, second, c), [])
  {
    SpellingsAre(first, op);
    SpellingsAre(second, op);
    BindsByLevel(tb, first, second);
    BindsByLevel(tb, first, first);
    LeafHead(tb, a, first);
    LeafHead(tb, b, second);
    LeafShape(tb, b, UNARY_PRIORITY);
    LeafShape(tb, c, Priority(tb, second).1);
    var ts := [TInteger(a), Spelling(first), UnarySpelling(op), TInteger(b), Spelling(second), TInteger(c)];
    hide Obeys, Print, Depth, ParseSub, Priority, Level, Spelling, BinaryToken, UnarySpelling, UnaryToken, ObeysHead, PrintHead, DepthHead;
    var tree := UnaryTree(tb, a, first, op, b, second, c);
    if Level(tb, second) > UNARY_LEVEL {
      OneOperator(tb, b, second, Leaf(c), UNARY_PRIORITY);
      UnaryGroups(tb, op, Then(b, [TailPart(second, Leaf(c))]), Priority(tb, first).1);
      OneOperator(tb, a, first, Expression(UnaryHead(op, Then(b, [TailPart(second, Leaf(c))])), []), MIN_PRIORITY);
    } else if Deeper(tb, first, second) {
      UnaryGroups(tb, op, Leaf(b), MIN_PRIORITY);
      OneGroups(tb, UnaryHead(op, Leaf(b)), second, Leaf(c), Priority(tb, first).1);
      OneOperator(tb, a, first, Expression(UnaryHead(op, Leaf(b)), [TailPart(second, Leaf(c))]), MIN_PRIORITY);
    } else {
      UnaryGroups(tb, op, Leaf(b), Priority(tb, first).1);
      LeftGroups(tb, SimpleHead(IntegerLit(a)), first, Expression(UnaryHead(op, Leaf(b)), []), second, c, MIN_PRIORITY);
      assert [TailPart(first, Expression(UnaryHead(op, Leaf(b)), []))] + [TailPart(second, Leaf(c))]
             == [TailPart(first, Expression(UnaryHead(op, Leaf(b)), [])), TailPart(second, Leaf(c))];
    }
    ReadsAs(tb, tree, ts, room);
  }
}
