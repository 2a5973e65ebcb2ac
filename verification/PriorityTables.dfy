/** The priority table of the source beside that of section 3.4.8 of the Lua 5.4 Reference Manual: which
    expressions the two read differently. */
module PriorityTables {
  import opened Values
  import opened Ast
  import opened Grammar
  import opened ParsePrint
  import opened PrintParse

  /** Operators between the comparisons and `+` in the manual's table. */
  predicate Middle(op: BinaryOperator) {
    || op.Concat?
    || op in {Simple(BitAnd), Simple(BitOr), Simple(BitXor), Simple(ShiftLeft), Simple(ShiftRight)}
  }

  predicate IsNotEqual(op: BinaryOperator) {
    op == Comparison(NotEqual)
  }

  /** One of the two is `~=`, and the other one lies between the two priorities that the tables give it. */
  predicate Disputed(a: BinaryOperator, b: BinaryOperator) {
    || (IsNotEqual(a) && (Middle(b) || b == Simple(Add) || b == Simple(Sub)))
    || (IsNotEqual(b) && (Middle(a) || (a.Comparison? && !IsNotEqual(a))))
  }

  /** The operator `b`, somewhere behind `a`, takes part in the right operand of `a`. */
  predicate Binds(tb: Table, a: BinaryOperator, b: BinaryOperator) {
    Priority(tb, b).0 > Priority(tb, a).1
  }

  lemma DisputedIs(a: BinaryOperator, b: BinaryOperator)
    ensures Disputed(a, b) <==> (Binds(CodeTable, a, b) <==> !Binds(ManualTable, a, b))
  {
  }

  // Neighbours: an operator, and those whose right operand ends right before it or that it stands in.

  /** The operators whose right operands end where the expression ends. */
  function Edge(e: Expression): set<BinaryOperator>
    decreases e, 1
  {
    if e.tail != [] then EdgePart(e.tail[|e.tail| - 1]) else EdgeHead(e.head)
  }

  function EdgePart(p: TailPart): set<BinaryOperator> {
    {p.op} + Edge(p.right)
  }

  function EdgeHead(h: HeadExpression): set<BinaryOperator> {
    if h.UnaryHead? then Edge(h.operand) else {}
  }

  predicate NoneDisputed(edge: set<BinaryOperator>, op: BinaryOperator) {
    forall a :: a in edge ==> !Disputed(a, op)
  }

  /** No disputed operators are neighbours. */
  predicate Undisputed(e: Expression)
    decreases e, 1
  {
    UndisputedHead(e.head) && UndisputedTail(EdgeHead(e.head), e.tail)
  }

  predicate UndisputedHead(h: HeadExpression) {
    match h
    case SimpleHead(s) => UndisputedSimple(s)
    case UnaryHead(_, operand) => Undisputed(operand)
  }

  predicate UndisputedTail(edge: set<BinaryOperator>, tail: seq<TailPart>)
    decreases tail
  {
    tail != [] ==>
      NoneDisputed(edge, tail[0].op) && UndisputedPart(tail[0]) && UndisputedTail(EdgePart(tail[0]), tail[1..])
  }

  predicate UndisputedPart(p: TailPart) {
    (forall i :: 0 <= i < |p.right.tail| ==> !Disputed(p.op, p.right.tail[i].op)) && Undisputed(p.right)
  }

  predicate UndisputedSimple(s: SimpleExpression) {
    s.Suffixed? ==> UndisputedPrimary(s.primary) && UndisputedSuffixes(s.suffixes)
  }

  predicate UndisputedPrimary(p: PrimaryExpression) {
    p.Grouped? ==> Undisputed(p.inner)
  }

  predicate UndisputedSuffixes(ss: seq<SuffixPart>) {
    ss != [] ==> UndisputedSuffix(ss[0]) && UndisputedSuffixes(ss[1..])
  }

  predicate UndisputedSuffix(s: SuffixPart) {
    match s
    case NamedField(_) => true
    case IndexedField(index) => Undisputed(index)
    case Call(args) => UndisputedArgs(args)
    case MethodCall(_, args) => UndisputedArgs(args)
  }

  predicate UndisputedArgs(args: CallArgs) {
    args.ParenArgs? ==> UndisputedList(args.exprs)
  }

  predicate UndisputedList(es: seq<Expression>) {
    es != [] ==> Undisputed(es[0]) && UndisputedList(es[1..])
  }

  // Trees.

  lemma {:induction false} StopsAlike(e: Expression, op: BinaryOperator)
    requires StopsIn(CodeTable, e, op)
    ensures StopsIn(ManualTable, e, op) <==> NoneDisputed(Edge(e), op)
    decreases e, 1
  {
    if e.tail != [] {
      StopsPartAlike(e.tail[|e.tail| - 1], op);
    } else if e.head.UnaryHead? {
      StopsAlike(e.head.operand, op);
    }
  }

  lemma {:induction false} StopsPartAlike(p: TailPart, op: BinaryOperator)
    requires StopsInPart(CodeTable, p, op)
    ensures StopsInPart(ManualTable, p, op) <==> NoneDisputed(EdgePart(p), op)
    decreases p
  {
    hide Priority, Disputed;
    StopsAlike(p.right, op);
    DisputedIs(p.op, op);
  }

  /** What the two tables say of the same operand, which ends in the operators of `edge`. */
  ghost predicate SameEdge(code: Before, manual: Before, edge: set<BinaryOperator>) {
    forall op :: StopsAt(CodeTable, code, op) ==> (StopsAt(ManualTable, manual, op) <==> NoneDisputed(edge, op))
  }

  lemma HeadEdge(h: HeadExpression)
    ensures SameEdge(HeadBefore(h), HeadBefore(h), EdgeHead(h))
  {
    forall op | StopsAt(CodeTable, HeadBefore(h), op)
      ensures StopsAt(ManualTable, HeadBefore(h), op) <==> NoneDisputed(EdgeHead(h), op)
    {
      if h.UnaryHead? {
        StopsAlike(h.operand, op);
      }
    }
  }

  lemma PartEdge(p: TailPart)
    ensures SameEdge(PartBefore(CodeTable, p), PartBefore(ManualTable, p), EdgePart(p))
  {
    forall op | StopsAt(CodeTable, PartBefore(CodeTable, p), op)
      ensures StopsAt(ManualTable, PartBefore(ManualTable, p), op) <==> NoneDisputed(EdgePart(p), op)
    {
      StopsPartAlike(p, op);
    }
  }

  ghost predicate Above(tail: seq<TailPart>, limit: nat) {
    forall i :: 0 <= i < |tail| ==> Priority(ManualTable, tail[i].op).0 > limit
  }

  lemma {:induction false} ObeysAlike(e: Expression, code: nat, manual: nat)
    requires Obeys(CodeTable, e, code)
    ensures Obeys(ManualTable, e, manual) <==> Undisputed(e) && Above(e.tail, manual)
    decreases e, 9
  {
    hide ObeysHead, ObeysTail, UndisputedHead, UndisputedTail, SameEdge, Above;
    HeadEdge(e.head);
    ObeysHeadAlike(e.head);
    ObeysTailAlike(HeadBefore(e.head), HeadBefore(e.head), EdgeHead(e.head), e.tail, code, manual);
  }

  lemma {:induction false} ObeysHeadAlike(h: HeadExpression)
    requires ObeysHead(CodeTable, h)
    ensures ObeysHead(ManualTable, h) <==> UndisputedHead(h)
    decreases h, 8
  {
    hide Obeys, ObeysSimple, Undisputed, UndisputedSimple;
    match h {
      case SimpleHead(s) => ObeysSimpleAlike(s);
      case UnaryHead(_, operand) =>
        ObeysAlike(operand, UNARY_PRIORITY, UNARY_PRIORITY);
        AboveUnary(operand);
    }
  }

  /** Only `^` binds tighter than the unary operators. */
  lemma AboveUnary(e: Expression)
    requires Obeys(CodeTable, e, UNARY_PRIORITY)
    ensures Above(e.tail, UNARY_PRIORITY)
  {
    AboveLimit(HeadBefore(e.head), e.tail, UNARY_PRIORITY);
  }

  lemma {:induction false} AboveLimit(b: Before, tail: seq<TailPart>, limit: nat)
    requires ObeysTail(CodeTable, b, tail, limit)
    ensures forall i :: 0 <= i < |tail| ==> Priority(CodeTable, tail[i].op).0 > limit
    decreases tail
  {
    if tail != [] {
      AboveLimit(PartBefore(CodeTable, tail[0]), tail[1..], limit);
      forall i | 0 <= i < |tail| ensures Priority(CodeTable, tail[i].op).0 > limit {
        if i > 0 {
          assert tail[1..][i - 1] == tail[i];
        }
      }
    }
  }

  lemma {:induction false} ObeysTailAlike(code: Before, manual: Before, edge: set<BinaryOperator>, tail: seq<TailPart>, c: nat, m: nat)
    requires ObeysTail(CodeTable, code, tail, c) && SameEdge(code, manual, edge)
    ensures ObeysTail(ManualTable, manual, tail, m) <==> UndisputedTail(edge, tail) && Above(tail, m)
    decreases tail, 9
  {
    if tail != [] {
      var p := tail[0];
      assert tail == [p] + tail[1..];
      AboveMore(p, tail[1..], m);
      assert StopsAt(CodeTable, code, p.op);
      PartEdge(p);
      hide StopsAt, ObeysPart, UndisputedPart, SameEdge, Above, Priority;
      ObeysPartAlike(p);
      ObeysTailAlike(PartBefore(CodeTable, p), PartBefore(ManualTable, p), EdgePart(p), tail[1..], c, m);
    }
  }

  lemma AboveMore(p: TailPart, tail: seq<TailPart>, limit: nat)
    ensures Above([p] + tail, limit) <==> Priority(ManualTable, p.op).0 > limit && Above(tail, limit)
  {
    if Above([p] + tail, limit) {
      assert ([p] + tail)[0] == p;
      forall i | 0 <= i < |tail| ensures Priority(ManualTable, tail[i].op).0 > limit {
        assert ([p] + tail)[i + 1] == tail[i];
      }
    }
  }

  lemma {:induction false} ObeysPartAlike(p: TailPart)
    requires ObeysPart(CodeTable, p)
    ensures ObeysPart(ManualTable, p) <==> UndisputedPart(p)
    decreases p, 8
  {
    ObeysAlike(p.right, Priority(CodeTable, p.op).1, Priority(ManualTable, p.op).1);
    AboveLimit(HeadBefore(p.right.head), p.right.tail, Priority(CodeTable, p.op).1);
    hide Obeys, Undisputed, Priority, Disputed;
    forall i | 0 <= i < |p.right.tail|
      ensures Priority(ManualTable, p.right.tail[i].op).0 > Priority(ManualTable, p.op).1 <==> !Disputed(p.op, p.right.tail[i].op)
    {
      DisputedIs(p.op, p.right.tail[i].op);
    }
  }

  lemma {:induction false} ObeysSimpleAlike(s: SimpleExpression)
    requires ObeysSimple(CodeTable, s)
    ensures ObeysSimple(ManualTable, s) <==> UndisputedSimple(s)
    decreases s, 8
  {
    hide Obeys, Undisputed, ObeysSuffixes, UndisputedSuffixes;
    if s.Suffixed? {
      if s.primary.Grouped? {
        InnerAlike(s.primary.inner);
      }
      ObeysSuffixesAlike(s.suffixes);
    }
  }

  /** Everything binds tighter than the least limit. */
  lemma {:induction false} InnerAlike(e: Expression)
    requires Obeys(CodeTable, e, MIN_PRIORITY)
    ensures Obeys(ManualTable, e, MIN_PRIORITY) <==> Undisputed(e)
    decreases e, 10
  {
    ObeysAlike(e, MIN_PRIORITY, MIN_PRIORITY);
  }

  lemma {:induction false} ObeysSuffixesAlike(ss: seq<SuffixPart>)
    requires ObeysSuffixes(CodeTable, ss)
    ensures ObeysSuffixes(ManualTable, ss) <==> UndisputedSuffixes(ss)
    decreases ss
  {
    if ss != [] {
      hide ObeysSuffix, UndisputedSuffix;
      ObeysSuffixAlike(ss[0]);
      ObeysSuffixesAlike(ss[1..]);
    }
  }

  lemma {:induction false} ObeysSuffixAlike(s: SuffixPart)
    requires ObeysSuffix(CodeTable, s)
    ensures ObeysSuffix(ManualTable, s) <==> UndisputedSuffix(s)
    decreases s
  {
    hide Obeys, Undisputed, ObeysArgs, UndisputedArgs;
    match s {
      case NamedField(_) =>
      case IndexedField(index) => InnerAlike(index);
      case Call(args) => ObeysArgsAlike(args);
      case MethodCall(_, args) => ObeysArgsAlike(args);
    }
  }

  lemma {:induction false} ObeysArgsAlike(args: CallArgs)
    requires ObeysArgs(CodeTable, args)
    ensures ObeysArgs(ManualTable, args) <==> UndisputedArgs(args)
    decreases args
  {
    if args.ParenArgs? {
      ObeysListAlike(args.exprs);
    }
  }

  lemma {:induction false} ObeysListAlike(es: seq<Expression>)
    requires ObeysList(CodeTable, es)
    ensures ObeysList(ManualTable, es) <==> UndisputedList(es)
    decreases es
  {
    if es != [] {
      hide Obeys, Undisputed;
      InnerAlike(es[0]);
      ObeysListAlike(es[1..]);
    }
  }

  // Tokens.

  /** Tokens that the source reads as an expression mean the same expression to the manual exactly when it
      has no disputed operators as neighbours. */
  lemma ReadAlike(ts: seq<Token>, room: nat, e: Expression, rest: seq<Token>)
    requires ParseSub(CodeTable, ts, MIN_PRIORITY, room) == Parsed(e, rest)
    ensures ParseSub(ManualTable, ts, MIN_PRIORITY, room) == Parsed(e, rest) <==> Undisputed(e)
  {
    SubPrints(CodeTable, ts, MIN_PRIORITY, room);
    InnerAlike(e);
    hide ParseSub, Obeys, Undisputed, Print, Depth, StopsIn, OpenEnded;
    NothingFollows(e, rest);
    RoundTrip(ManualTable, e, MIN_PRIORITY, room, rest);
  }

  /** No operator follows a whole expression. */
  lemma NothingFollows(e: Expression, rest: seq<Token>)
    requires Follows(CodeTable, AfterSub(e, MIN_PRIORITY), rest)
    ensures Follows(ManualTable, AfterSub(e, MIN_PRIORITY), rest)
  {
    hide StopsIn, OpenEnded;
  }

  // Without `~=` the tables are the same.

  ghost predicate Plain(ts: seq<Token>) {
    forall i :: 0 <= i < |ts| ==> ts[i] != TNotEqual
  }

  lemma PlainRest(front: seq<Token>, rest: seq<Token>, ts: seq<Token>)
    requires front + rest == ts && Plain(ts)
    ensures Plain(rest)
  {
    forall i | 0 <= i < |rest| ensures rest[i] != TNotEqual {
      assert ts[|front| + i] == rest[i];
    }
  }

  /** Token sequences without `~=` are read alike, errors included. */
  lemma {:induction false} PlainSubAlike(ts: seq<Token>, limit: nat, room: nat)
    requires Plain(ts)
    ensures ParseSub(CodeTable, ts, limit, room) == ParseSub(ManualTable, ts, limit, room)
    decreases room, |ts|, 9
  {
    if room > 0 {
      hide ParseHead, ParseTail, PrintHead, ObeysHead, Follows, DepthHead;
      PlainHeadAlike(ts, room - 1);
      if ParseHead(CodeTable, ts, room - 1).Parsed? {
        var Parsed(head, rest) := ParseHead(CodeTable, ts, room - 1);
        HeadPrints(CodeTable, ts, room - 1);
        PlainRest(PrintHead(head), rest, ts);
        PlainTailAlike(rest, limit, room - 1);
      }
    }
  }

  lemma {:induction false} PlainHeadAlike(ts: seq<Token>, room: nat)
    requires Plain(ts)
    ensures ParseHead(CodeTable, ts, room) == ParseHead(ManualTable, ts, room)
    decreases room, |ts|, 8
  {
    hide ParseSub, ParseSimple;
    if ts != [] && UnaryOf(ts[0]).Some? {
      PlainRest([ts[0]], ts[1..], ts);
      PlainSubAlike(ts[1..], UNARY_PRIORITY, room);
    } else if ts != [] {
      PlainSimpleAlike(ts, room);
    }
  }

  lemma PlainPriority(t: Token)
    requires t != TNotEqual && BinaryOf(t).Some?
    ensures Priority(CodeTable, BinaryOf(t).value) == Priority(ManualTable, BinaryOf(t).value)
  {
  }

  lemma {:induction false} PlainTailAlike(ts: seq<Token>, limit: nat, room: nat)
    requires Plain(ts)
    ensures ParseTail(CodeTable, ts, limit, room) == ParseTail(ManualTable, ts, limit, room)
    decreases room, |ts|, 10
  {
    if ts != [] && BinaryOf(ts[0]).Some? {
      var right := Priority(CodeTable, BinaryOf(ts[0]).value).1;
      PlainPriority(ts[0]);
      PlainRest([ts[0]], ts[1..], ts);
      PlainSubAlike(ts[1..], right, room);
      hide ParseSub, Print, Obeys, Follows, Depth;
      if ParseSub(CodeTable, ts[1..], right, room).Parsed? {
        var Parsed(e, rest) := ParseSub(CodeTable, ts[1..], right, room);
        SubPrints(CodeTable, ts[1..], right, room);
        PlainRest(Print(e), rest, ts[1..]);
        PlainTailAlike(rest, limit, room);
      }
    }
  }

  lemma {:induction false} PlainSimpleAlike(ts: seq<Token>, room: nat)
    requires Plain(ts) && ts != [] && UnaryOf(ts[0]).None?
    ensures ParseSimple(CodeTable, ts, room) == ParseSimple(ManualTable, ts, room)
    decreases room, |ts|, 7
  {
    hide ParsePrimary, ParseSuffixes, PrintPrimary, ObeysPrimary, DepthPrimary;
    PlainPrimaryAlike(ts, room);
    if ParsePrimary(CodeTable, ts, room).Parsed? {
      var Parsed(p, rest) := ParsePrimary(CodeTable, ts, room);
      PrimaryPrints(CodeTable, ts, room);
      PlainRest(PrintPrimary(p), rest, ts);
      PlainSuffixesAlike(rest, room);
    }
  }

  lemma {:induction false} PlainClosedAlike(ts: seq<Token>, close: Token, room: nat)
    requires Plain(ts)
    ensures ParseClosed(CodeTable, ts, close, room) == ParseClosed(ManualTable, ts, close, room)
    decreases room, |ts|, 10
  {
    hide ParseSub;
    PlainSubAlike(ts, MIN_PRIORITY, room);
  }

  lemma {:induction false} PlainPrimaryAlike(ts: seq<Token>, room: nat)
    requires Plain(ts)
    ensures ParsePrimary(CodeTable, ts, room) == ParsePrimary(ManualTable, ts, room)
    decreases room, |ts|, 6
  {
    hide ParseClosed;
    if ts != [] && ts[0] == TLeftParen {
      PlainRest([ts[0]], ts[1..], ts);
      PlainClosedAlike(ts[1..], TRightParen, room);
    }
  }

  lemma {:induction false} PlainSuffixesAlike(ts: seq<Token>, room: nat)
    requires Plain(ts)
    ensures ParseSuffixes(CodeTable, ts, room) == ParseSuffixes(ManualTable, ts, room)
    decreases room, |ts|, 11
  {
    if ts != [] && SuffixStart(ts[0]) {
      hide ParseSuffix, PrintSuffix, ObeysSuffix, DepthSuffix;
      PlainSuffixAlike(ts, room);
      if ParseSuffix(CodeTable, ts, room).Parsed? {
        var Parsed(s, rest) := ParseSuffix(CodeTable, ts, room);
        SuffixPrints(CodeTable, ts, room);
        PlainRest(PrintSuffix(s), rest, ts);
        PlainSuffixesAlike(rest, room);
      }
    }
  }

  lemma {:induction false} PlainSuffixAlike(ts: seq<Token>, room: nat)
    requires Plain(ts) && ts != [] && SuffixStart(ts[0])
    ensures ParseSuffix(CodeTable, ts, room) == ParseSuffix(ManualTable, ts, room)
    decreases room, |ts|, 10
  {
    hide ParseClosed, ParseArgs;
    PlainRest([ts[0]], ts[1..], ts);
    if ts[0] == TLeftBracket {
      PlainClosedAlike(ts[1..], TRightBracket, room);
    } else if ts[0] == TColon {
      if |ts| > 1 {
        PlainRest([ts[1]], ts[1..][1..], ts[1..]);
        PlainArgsAlike(ts[1..][1..], room);
      }
    } else if ts[0] != TDot {
      PlainArgsAlike(ts, room);
    }
  }

  lemma {:induction false} PlainArgsAlike(ts: seq<Token>, room: nat)
    requires Plain(ts)
    ensures ParseArgs(CodeTable, ts, room) == ParseArgs(ManualTable, ts, room)
    decreases room, |ts|, 9
  {
    hide ParseList;
    if ts != [] && ts[0] == TLeftParen {
      PlainRest([ts[0]], ts[1..], ts);
      PlainListAlike(ts[1..], room);
    }
  }

  lemma {:induction false} PlainListAlike(ts: seq<Token>, room: nat)
    requires Plain(ts)
    ensures ParseList(CodeTable, ts, room) == ParseList(ManualTable, ts, room)
    decreases room, |ts|, 10
  {
    hide ParseSub, Print, Obeys, Follows, Depth;
    PlainSubAlike(ts, MIN_PRIORITY, room);
    if ParseSub(CodeTable, ts, MIN_PRIORITY, room).Parsed? {
      var Parsed(e, rest) := ParseSub(CodeTable, ts, MIN_PRIORITY, room);
      SubPrints(CodeTable, ts, MIN_PRIORITY, room);
      PlainRest(Print(e), rest, ts);
      if rest != [] {
        PlainRest([rest[0]], rest[1..], rest);
        PlainListAlike(rest[1..], room);
      }
    }
  }

  // `a ~= b + c`.

  function Leaf(i: int): Expression {
    Expression(SimpleHead(IntegerLit(i)), [])
  }

  function Then(i: int, tail: seq<TailPart>): Expression {
    Expression(SimpleHead(IntegerLit(i)), tail)
  }

  lemma LeafShape(tb: Table, i: int, limit: nat)
    ensures Obeys(tb, Leaf(i), limit) && Print(Leaf(i)) == [TInteger(i)] && Depth(Leaf(i)) == 1
  {
    assert ObeysSimple(tb, IntegerLit(i)) && ObeysHead(tb, Leaf(i).head);
    assert ObeysTail(tb, HeadBefore(Leaf(i).head), Leaf(i).tail, limit);
    assert PrintTail([]) == [] && PrintHead(Leaf(i).head) == [TInteger(i)];
    assert DepthHead(Leaf(i).head) == 0 && DepthTail([]) == 0;
  }

  lemma OneOperator(tb: Table, a: int, op: BinaryOperator, right: Expression, limit: nat)
    requires Priority(tb, op).0 > limit && Obeys(tb, right, Priority(tb, op).1)
    ensures var e := Then(a, [TailPart(op, right)]);
            Obeys(tb, e, limit) && Print(e) == [TInteger(a), BinaryToken(op)] + Print(right) && Depth(e) == 1 + Depth(right)
  {
    hide Priority;
    var p := TailPart(op, right);
    var e := Then(a, [p]);
    LeafShape(tb, a, limit);
    assert ObeysPart(tb, p) && [p][1..] == [] && ObeysTail(tb, PartBefore(tb, p), [], limit);
    assert ObeysTail(tb, HeadBefore(e.head), [p], limit);
    assert PrintTail([p]) == PrintPart(p) + PrintTail([]) == [BinaryToken(op)] + Print(right);
    assert DepthPart(p) == Depth(right) > 0 && DepthTail([p]) == Max(DepthPart(p), DepthTail([]));
  }

  /** The source reads `a ~= b + c` as `(a ~= b) + c`, the manual as `a ~= (b + c)`. */
  lemma NotEqualBindsLikeAdd(a: int, b: int, c: int, room: nat)
    requires room >= 3
    ensures var ts := [TInteger(a), TNotEqual, TInteger(b), TAdd, TInteger(c)];
            var sum := TailPart(Simple(Add), Leaf(c));
            ParseSub(CodeTable, ts, MIN_PRIORITY, room) == Parsed(Then(a, [TailPart(Comparison(NotEqual), Leaf(b)), sum]), [])
            && ParseSub(ManualTable, ts, MIN_PRIORITY, room)
               == Parsed(Then(a, [TailPart(Comparison(NotEqual), Then(b, [sum]))]), [])
  {
    var ts := [TInteger(a), TNotEqual, TInteger(b), TAdd, TInteger(c)];
    var sum := TailPart(Simple(Add), Leaf(c));
    LeafShape(CodeTable, c, 10);
    LeftShape(a, b, sum);
    var left := Then(a, [TailPart(Comparison(NotEqual), Leaf(b)), sum]);
    RoundTrip(CodeTable, left, MIN_PRIORITY, room, []);
    LeafShape(ManualTable, c, 10);
    OneOperator(ManualTable, b, Simple(Add), Leaf(c), 3);
    var right := Then(a, [TailPart(Comparison(NotEqual), Then(b, [sum]))]);
    OneOperator(ManualTable, a, Comparison(NotEqual), Then(b, [sum]), MIN_PRIORITY);
    RoundTrip(ManualTable, right, MIN_PRIORITY, room, []);
    hide Print, ParseSub;
    assert Print(right) + [] == ts && Print(left) + [] == ts;
  }

  lemma LeftShape(a: int, b: int, sum: TailPart)
    requires sum.op == Simple(Add) && Obeys(CodeTable, sum.right, 10) && sum.right.tail == [] && Depth(sum.right) == 1
    ensures var e := Then(a, [TailPart(Comparison(NotEqual), Leaf(b)), sum]);
            Obeys(CodeTable, e, MIN_PRIORITY) && Depth(e) == 2
            && Print(e) == [TInteger(a), TNotEqual, TInteger(b), TAdd] + Print(sum.right)
  {
    var p := TailPart(Comparison(NotEqual), Leaf(b));
    var tail := [p, sum];
    LeafShape(CodeTable, a, MIN_PRIORITY);
    LeafShape(CodeTable, b, 10);
    assert tail[1..] == [sum] && [sum][1..] == [];
    assert ObeysPart(CodeTable, p) && ObeysPart(CodeTable, sum);
    assert ObeysTail(CodeTable, PartBefore(CodeTable, sum), [], MIN_PRIORITY);
    assert ObeysTail(CodeTable, PartBefore(CodeTable, p), [sum], MIN_PRIORITY);
    assert ObeysTail(CodeTable, AfterSimple(IntegerLit(a)), tail, MIN_PRIORITY);
    assert PrintTail([sum]) == PrintPart(sum) + PrintTail([]) == [TAdd] + Print(sum.right);
    assert PrintTail(tail) == PrintPart(p) + PrintTail([sum]);
    assert DepthTail([sum]) == 1 && DepthTail(tail) == Max(DepthPart(p), DepthTail([sum])) == 1;
  }
}
