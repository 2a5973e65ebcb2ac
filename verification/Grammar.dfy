/** Expressions as token sequences: the priority table and the recursive descent of
    piccolo/src/compiler/parser.rs, and a printer. Table constructors and function bodies are left out. */
module Grammar {
  import opened Values
  import opened Ast

  datatype Token =
    | TFloat(f: Float) | TInteger(i: int) | TString(s: string) | TName(name: Name)
    | TNil | TTrue | TFalse | TDots
    | TLeftParen | TRightParen | TLeftBracket | TRightBracket | TDot | TColon | TComma
    | TMinus | TAdd | TMul | TMod | TPow | TDiv | TIDiv | TBitAnd | TBitOr | TBitNotXor | TShiftLeft | TShiftRight
    | TConcat | TNotEqual | TEqual | TLessThan | TLessEqual | TGreaterThan | TGreaterEqual | TAnd | TOr | TNot | TLen
    | TLeftBrace | TFunction
    | TOther(id: nat)

  /** `Unsupported` stands for whatever the source does with a table constructor or a function. */
  datatype ParseError = Unexpected | EndOfStream | RecursionLimit | Unsupported

  datatype Parse<+T> = Parsed(value: T, rest: seq<Token>) | Failed(error: ParseError)

  const MIN_PRIORITY: nat := 0
  const UNARY_PRIORITY: nat := 12

  /** The priorities of the source, and those of section 3.4.8 of the Lua 5.4 Reference Manual. */
  datatype Table = CodeTable | ManualTable

  /** Left and right priority. The tables differ in `~=` alone. */
  function Priority(tb: Table, op: BinaryOperator): (nat, nat) {
    match op
    case Simple(Add) => (10, 10)
    case Simple(Sub) => (10, 10)
    case Simple(Mul) => (11, 11)
    case Simple(Mod) => (11, 11)
    case Simple(Pow) => (14, 13)
    case Simple(Div) => (11, 11)
    case Simple(IDiv) => (11, 11)
    case Simple(BitAnd) => (6, 6)
    case Simple(BitOr) => (4, 4)
    case Simple(BitXor) => (5, 5)
    case Simple(ShiftLeft) => (7, 7)
    case Simple(ShiftRight) => (7, 7)
    case Concat => (9, 8)
    case Comparison(NotEqual) => if tb.CodeTable? then (10, 10) else (3, 3)
    case Comparison(_) => (3, 3)
    case ShortCircuit(And) => (2, 2)
    case ShortCircuit(Or) => (1, 1)
  }

  function UnaryOf(t: Token): Option<UnaryOp> {
    match t
    case TNot => Some(Not)
    case TMinus => Some(Minus)
    case TBitNotXor => Some(BitNot)
    case TLen => Some(Len)
    case _ => None
  }

  function UnaryToken(op: UnaryOp): (t: Token)
    ensures UnaryOf(t) == Some(op)
  {
    match op
    case Not => TNot
    case Minus => TMinus
    case BitNot => TBitNotXor
    case Len => TLen
  }

  function BinaryOf(t: Token): Option<BinaryOperator> {
    match t
    case TMinus => Some(Simple(Sub))
    case TAdd => Some(Simple(Add))
    case TMul => Some(Simple(Mul))
    case TMod => Some(Simple(Mod))
    case TPow => Some(Simple(Pow))
    case TDiv => Some(Simple(Div))
    case TIDiv => Some(Simple(IDiv))
    case TBitAnd => Some(Simple(BitAnd))
    case TBitOr => Some(Simple(BitOr))
    case TBitNotXor => Some(Simple(BitXor))
    case TShiftLeft => Some(Simple(ShiftLeft))
    case TShiftRight => Some(Simple(ShiftRight))
    case TConcat => Some(Concat)
    case TNotEqual => Some(Comparison(NotEqual))
    case TEqual => Some(Comparison(Equal))
    case TLessThan => Some(Comparison(LessThan))
    case TLessEqual => Some(Comparison(LessEqual))
    case TGreaterThan => Some(Comparison(GreaterThan))
    case TGreaterEqual => Some(Comparison(GreaterEqual))
    case TAnd => Some(ShortCircuit(And))
    case TOr => Some(ShortCircuit(Or))
    case _ => None
  }

  function BinaryToken(op: BinaryOperator): (t: Token)
    ensures BinaryOf(t) == Some(op)
  {
    match op
    case Simple(Add) => TAdd
    case Simple(Sub) => TMinus
    case Simple(Mul) => TMul
    case Simple(Mod) => TMod
    case Simple(Pow) => TPow
    case Simple(Div) => TDiv
    case Simple(IDiv) => TIDiv
    case Simple(BitAnd) => TBitAnd
    case Simple(BitOr) => TBitOr
    case Simple(BitXor) => TBitNotXor
    case Simple(ShiftLeft) => TShiftLeft
    case Simple(ShiftRight) => TShiftRight
    case Concat => TConcat
    case Comparison(NotEqual) => TNotEqual
    case Comparison(Equal) => TEqual
    case Comparison(LessThan) => TLessThan
    case Comparison(LessEqual) => TLessEqual
    case Comparison(GreaterThan) => TGreaterThan
    case Comparison(GreaterEqual) => TGreaterEqual
    case ShortCircuit(And) => TAnd
    case ShortCircuit(Or) => TOr
  }

  lemma BinaryTokenOf(t: Token)
    requires BinaryOf(t).Some?
    ensures BinaryToken(BinaryOf(t).value) == t
  {
  }

  lemma UnaryTokenOf(t: Token)
    requires UnaryOf(t).Some?
    ensures UnaryToken(UnaryOf(t).value) == t
  {
  }

  predicate SuffixStart(t: Token) {
    t == TDot || t == TLeftBracket || t == TColon || t == TLeftParen || t == TLeftBrace || t.TString?
  }

  // The parser. `room` is the number of recursion guards that may still be taken.

  /** `parse_sub_expression`. */
  function ParseSub(tb: Table, ts: seq<Token>, limit: nat, room: nat): (r: Parse<Expression>)
    ensures r.Parsed? ==> |r.rest| < |ts|
    decreases room, |ts|, 9
  {
    if room == 0 then Failed(RecursionLimit)
    else match ParseHead(tb, ts, room - 1)
      case Failed(e) => Failed(e)
      case Parsed(head, rest) =>
        match ParseTail(tb, rest, limit, room - 1)
        case Failed(e) => Failed(e)
        case Parsed(tail, rest') => Parsed(Expression(head, tail), rest')
  }

  function ParseHead(tb: Table, ts: seq<Token>, room: nat): (r: Parse<HeadExpression>)
    ensures r.Parsed? ==> |r.rest| < |ts|
    decreases room, |ts|, 8
  {
    if ts == [] then Failed(EndOfStream)
    else if UnaryOf(ts[0]).Some? then
      match ParseSub(tb, ts[1..], UNARY_PRIORITY, room)
      case Failed(e) => Failed(e)
      case Parsed(operand, rest) => Parsed(UnaryHead(UnaryOf(ts[0]).value, operand), rest)
    else
      match ParseSimple(tb, ts, room)
      case Failed(e) => Failed(e)
      case Parsed(s, rest) => Parsed(SimpleHead(s), rest)
  }

  /** The loop over binary operators. */
  function ParseTail(tb: Table, ts: seq<Token>, limit: nat, room: nat): (r: Parse<seq<TailPart>>)
    ensures r.Parsed? ==> |r.rest| <= |ts|
    decreases room, |ts|, 10
  {
    if ts == [] || BinaryOf(ts[0]).None? then Parsed([], ts)
    else
      var op := BinaryOf(ts[0]).value;
      if Priority(tb, op).0 <= limit then Parsed([], ts)
      else match ParseSub(tb, ts[1..], Priority(tb, op).1, room)
        case Failed(e) => Failed(e)
        case Parsed(right, rest) =>
          match ParseTail(tb, rest, limit, room)
          case Failed(e) => Failed(e)
          case Parsed(tail, rest') => Parsed([TailPart(op, right)] + tail, rest')
  }

  /** The expression of a token that is one by itself. */
  function Literal(t: Token): (e: Option<SimpleExpression>)
    ensures e.Some? ==> !e.value.Suffixed?
  {
    match t
    case TFloat(f) => Some(FloatLit(f))
    case TInteger(i) => Some(IntegerLit(i))
    case TString(s) => Some(StringLit(s))
    case TNil => Some(NilLit)
    case TTrue => Some(TrueLit)
    case TFalse => Some(FalseLit)
    case TDots => Some(VarArgs)
    case _ => None
  }

  function ParseSimple(tb: Table, ts: seq<Token>, room: nat): (r: Parse<SimpleExpression>)
    requires ts != []
    ensures r.Parsed? ==> |r.rest| < |ts|
    decreases room, |ts|, 7
  {
    var literal := Literal(ts[0]);
    if literal.Some? then Parsed(literal.value, ts[1..])
    else if ts[0] == TLeftBrace || ts[0] == TFunction then Failed(Unsupported)
    else match ParsePrimary(tb, ts, room)
      case Failed(e) => Failed(e)
      case Parsed(primary, rest) =>
        match ParseSuffixes(tb, rest, room)
        case Failed(e) => Failed(e)
        case Parsed(suffixes, rest') => Parsed(Suffixed(primary, suffixes), rest')
  }

  /** A token that must come next. */
  function Expect(ts: seq<Token>, t: Token): (r: Parse<()>)
    ensures r.Parsed? ==> ts != [] && ts[0] == t && r.rest == ts[1..]
  {
    if ts == [] then Failed(EndOfStream) else if ts[0] == t then Parsed((), ts[1..]) else Failed(Unexpected)
  }

  function ExpectName(ts: seq<Token>): (r: Parse<Name>)
    ensures r.Parsed? ==> ts != [] && ts[0] == TName(r.value) && r.rest == ts[1..]
  {
    if ts == [] then Failed(EndOfStream) else if ts[0].TName? then Parsed(ts[0].name, ts[1..]) else Failed(Unexpected)
  }

  /** `parse_expression` followed by a closing token. */
  function ParseClosed(tb: Table, ts: seq<Token>, close: Token, room: nat): (r: Parse<Expression>)
    ensures r.Parsed? ==> |r.rest| < |ts|
    decreases room, |ts|, 10
  {
    match ParseSub(tb, ts, MIN_PRIORITY, room)
    case Failed(e) => Failed(e)
    case Parsed(inner, rest) =>
      match Expect(rest, close)
      case Failed(e) => Failed(e)
      case Parsed(_, rest') => Parsed(inner, rest')
  }

  function ParsePrimary(tb: Table, ts: seq<Token>, room: nat): (r: Parse<PrimaryExpression>)
    ensures r.Parsed? ==> |r.rest| < |ts|
    decreases room, |ts|, 6
  {
    if ts == [] then Failed(EndOfStream)
    else match ts[0]
      case TLeftParen =>
        (match ParseClosed(tb, ts[1..], TRightParen, room)
         case Failed(e) => Failed(e)
         case Parsed(inner, rest) => Parsed(Grouped(inner), rest))
      case TName(n) => Parsed(Named(n), ts[1..])
      case _ => Failed(Unexpected)
  }

  function ParseSuffixes(tb: Table, ts: seq<Token>, room: nat): (r: Parse<seq<SuffixPart>>)
    ensures r.Parsed? ==> |r.rest| <= |ts|
    decreases room, |ts|, 11
  {
    if ts == [] || !SuffixStart(ts[0]) then Parsed([], ts)
    else match ParseSuffix(tb, ts, room)
      case Failed(e) => Failed(e)
      case Parsed(part, rest) =>
        match ParseSuffixes(tb, rest, room)
        case Failed(e) => Failed(e)
        case Parsed(parts, rest') => Parsed([part] + parts, rest')
  }

  function ParseSuffix(tb: Table, ts: seq<Token>, room: nat): (r: Parse<SuffixPart>)
    requires ts != [] && SuffixStart(ts[0])
    ensures r.Parsed? ==> |r.rest| < |ts|
    decreases room, |ts|, 10
  {
    match ts[0]
    case TDot =>
      (match ExpectName(ts[1..])
       case Failed(e) => Failed(e)
       case Parsed(n, rest) => Parsed(NamedField(n), rest))
    case TLeftBracket =>
      (match ParseClosed(tb, ts[1..], TRightBracket, room)
       case Failed(e) => Failed(e)
       case Parsed(index, rest) => Parsed(IndexedField(index), rest))
    case TColon =>
      (match ExpectName(ts[1..])
       case Failed(e) => Failed(e)
       case Parsed(n, rest) =>
         match ParseArgs(tb, rest, room)
         case Failed(e) => Failed(e)
         case Parsed(args, rest') => Parsed(MethodCall(n, args), rest'))
    case _ =>
      (match ParseArgs(tb, ts, room)
       case Failed(e) => Failed(e)
       case Parsed(args, rest) => Parsed(Call(args), rest))
  }

  function ParseArgs(tb: Table, ts: seq<Token>, room: nat): (r: Parse<CallArgs>)
    ensures r.Parsed? ==> |r.rest| < |ts|
    decreases room, |ts|, 9
  {
    if ts == [] then Failed(EndOfStream)
    else match ts[0]
      case TLeftParen =>
        if |ts| == 1 then Failed(EndOfStream)
        else if ts[1] == TRightParen then Parsed(ParenArgs([]), ts[2..])
        else
          (match ParseList(tb, ts[1..], room)
           case Failed(e) => Failed(e)
           case Parsed(es, rest) =>
             match Expect(rest, TRightParen)
             case Failed(e) => Failed(e)
             case Parsed(_, rest') => Parsed(ParenArgs(es), rest'))
      case TString(s) => Parsed(StringArg(s), ts[1..])
      case TLeftBrace => Failed(Unsupported)
      case _ => Failed(Unexpected)
  }

  /** `parse_expression_list`. */
  function ParseList(tb: Table, ts: seq<Token>, room: nat): (r: Parse<seq<Expression>>)
    ensures r.Parsed? ==> |r.rest| < |ts| && r.value != []
    decreases room, |ts|, 10
  {
    match ParseSub(tb, ts, MIN_PRIORITY, room)
    case Failed(e) => Failed(e)
    case Parsed(first, rest) =>
      if rest != [] && rest[0] == TComma then
        (match ParseList(tb, rest[1..], room)
         case Failed(e) => Failed(e)
         case Parsed(more, rest') => Parsed([first] + more, rest'))
      else Parsed([first], rest)
  }

  // The printer.

  function LiteralToken(e: SimpleExpression): (t: Token)
    requires !e.Suffixed?
    ensures Literal(t) == Some(e) && UnaryOf(t).None?
  {
    match e
    case FloatLit(f) => TFloat(f)
    case IntegerLit(i) => TInteger(i)
    case StringLit(s) => TString(s)
    case NilLit => TNil
    case TrueLit => TTrue
    case FalseLit => TFalse
    case VarArgs => TDots
  }

  lemma LiteralTokenOf(t: Token)
    requires Literal(t).Some?
    ensures LiteralToken(Literal(t).value) == t
  {
  }

  function Print(e: Expression): seq<Token>
    decreases e, 1
  {
    PrintHead(e.head) + PrintTail(e.tail)
  }

  function PrintHead(h: HeadExpression): seq<Token> {
    match h
    case SimpleHead(s) => PrintSimple(s)
    case UnaryHead(op, operand) => [UnaryToken(op)] + Print(operand)
  }

  function PrintPart(p: TailPart): seq<Token> {
    [BinaryToken(p.op)] + Print(p.right)
  }

  function PrintTail(tail: seq<TailPart>): seq<Token> {
    if tail == [] then [] else PrintPart(tail[0]) + PrintTail(tail[1..])
  }

  function PrintSimple(s: SimpleExpression): seq<Token> {
    if s.Suffixed? then PrintPrimary(s.primary) + PrintSuffixes(s.suffixes) else [LiteralToken(s)]
  }

  function PrintPrimary(p: PrimaryExpression): seq<Token> {
    match p
    case Named(n) => [TName(n)]
    case Grouped(inner) => [TLeftParen] + Print(inner) + [TRightParen]
  }

  function PrintSuffixes(ss: seq<SuffixPart>): seq<Token> {
    if ss == [] then [] else PrintSuffix(ss[0]) + PrintSuffixes(ss[1..])
  }

  function PrintSuffix(s: SuffixPart): seq<Token> {
    match s
    case NamedField(n) => [TDot, TName(n)]
    case IndexedField(index) => [TLeftBracket] + Print(index) + [TRightBracket]
    case Call(args) => PrintArgs(args)
    case MethodCall(n, args) => [TColon, TName(n)] + PrintArgs(args)
  }

  function PrintArgs(args: CallArgs): seq<Token> {
    match args
    case ParenArgs(es) => [TLeftParen] + PrintList(es) + [TRightParen]
    case StringArg(s) => [TString(s)]
  }

  function PrintList(es: seq<Expression>): seq<Token> {
    if es == [] then []
    else if |es| == 1 then Print(es[0])
    else Print(es[0]) + [TComma] + PrintList(es[1..])
  }

  // Trees that the priority table allows.

  /** What has been parsed last: a simple expression, or a sub-expression under some priority limit. */
  datatype Before = AfterSimple(s: SimpleExpression) | AfterSub(e: Expression, limit: nat)

  function HeadBefore(h: HeadExpression): Before {
    match h
    case SimpleHead(s) => AfterSimple(s)
    case UnaryHead(_, operand) => AfterSub(operand, UNARY_PRIORITY)
  }

  function PartBefore(tb: Table, p: TailPart): Before {
    AfterSub(p.right, Priority(tb, p.op).1)
  }

  /** A sub-expression leaves an operator to the one around it: it, and all those it ends in, stop there. */
  predicate StopsAt(tb: Table, b: Before, op: BinaryOperator) {
    match b
    case AfterSimple(_) => true
    case AfterSub(e, limit) => Priority(tb, op).0 <= limit && StopsIn(tb, e, op)
  }

  predicate StopsIn(tb: Table, e: Expression, op: BinaryOperator)
    decreases e, 1
  {
    if e.tail != [] then StopsInPart(tb, e.tail[|e.tail| - 1], op)
    else e.head.UnaryHead? ==> Priority(tb, op).0 <= UNARY_PRIORITY && StopsIn(tb, e.head.operand, op)
  }

  predicate StopsInPart(tb: Table, p: TailPart, op: BinaryOperator)
    decreases p
  {
    Priority(tb, op).0 <= Priority(tb, p.op).1 && StopsIn(tb, p.right, op)
  }

  /** It ends in a name or a call that further suffixes could belong to. */
  predicate OpenEnded(e: Expression)
    decreases e, 1
  {
    if e.tail != [] then OpenPart(e.tail[|e.tail| - 1])
    else match e.head
      case SimpleHead(s) => s.Suffixed?
      case UnaryHead(_, operand) => OpenEnded(operand)
  }

  predicate OpenPart(p: TailPart) {
    OpenEnded(p.right)
  }

  predicate Open(b: Before) {
    match b
    case AfterSimple(s) => s.Suffixed?
    case AfterSub(e, _) => OpenEnded(e)
  }

  /** Tokens that may come next without becoming part of what has been parsed. */
  predicate Follows(tb: Table, b: Before, rest: seq<Token>) {
    rest != [] ==>
      (BinaryOf(rest[0]).Some? ==> StopsAt(tb, b, BinaryOf(rest[0]).value)) && (SuffixStart(rest[0]) ==> !Open(b))
  }

  predicate Obeys(tb: Table, e: Expression, limit: nat)
    decreases e, 1
  {
    ObeysHead(tb, e.head) && ObeysTail(tb, HeadBefore(e.head), e.tail, limit)
  }

  predicate ObeysHead(tb: Table, h: HeadExpression)
    decreases h
  {
    match h
    case SimpleHead(s) => ObeysSimple(tb, s)
    case UnaryHead(_, operand) => Obeys(tb, operand, UNARY_PRIORITY)
  }

  predicate ObeysPart(tb: Table, p: TailPart)
    decreases p
  {
    Obeys(tb, p.right, Priority(tb, p.op).1)
  }

  /** Every operator binds tighter than the limit, and what comes before it leaves it alone. */
  predicate ObeysTail(tb: Table, b: Before, tail: seq<TailPart>, limit: nat)
    decreases tail
  {
    tail != [] ==>
      Priority(tb, tail[0].op).0 > limit && StopsAt(tb, b, tail[0].op) && ObeysPart(tb, tail[0])
      && ObeysTail(tb, PartBefore(tb, tail[0]), tail[1..], limit)
  }

  predicate ObeysSimple(tb: Table, s: SimpleExpression)
    decreases s
  {
    s.Suffixed? ==> ObeysPrimary(tb, s.primary) && ObeysSuffixes(tb, s.suffixes)
  }

  predicate ObeysPrimary(tb: Table, p: PrimaryExpression)
    decreases p
  {
    p.Grouped? ==> Obeys(tb, p.inner, MIN_PRIORITY)
  }

  predicate ObeysSuffixes(tb: Table, ss: seq<SuffixPart>)
    decreases ss
  {
    ss != [] ==> ObeysSuffix(tb, ss[0]) && ObeysSuffixes(tb, ss[1..])
  }

  predicate ObeysSuffix(tb: Table, s: SuffixPart)
    decreases s
  {
    match s
    case NamedField(_) => true
    case IndexedField(index) => Obeys(tb, index, MIN_PRIORITY)
    case Call(args) => ObeysArgs(tb, args)
    case MethodCall(_, args) => ObeysArgs(tb, args)
  }

  predicate ObeysArgs(tb: Table, args: CallArgs)
    decreases args
  {
    args.ParenArgs? ==> ObeysList(tb, args.exprs)
  }

  predicate ObeysList(tb: Table, es: seq<Expression>)
    decreases es
  {
    es != [] ==> Obeys(tb, es[0], MIN_PRIORITY) && ObeysList(tb, es[1..])
  }

  // Nesting.

  function Max(a: nat, b: nat): nat {
    if a < b then b else a
  }

  /** The recursion guards that parsing the expression takes. */
  function Depth(e: Expression): nat
    decreases e, 1
  {
    1 + Max(DepthHead(e.head), DepthTail(e.tail))
  }

  function DepthHead(h: HeadExpression): nat {
    match h
    case SimpleHead(s) => DepthSimple(s)
    case UnaryHead(_, operand) => Depth(operand)
  }

  function DepthPart(p: TailPart): nat {
    Depth(p.right)
  }

  function DepthTail(tail: seq<TailPart>): nat {
    if tail == [] then 0 else Max(DepthPart(tail[0]), DepthTail(tail[1..]))
  }

  function DepthSimple(s: SimpleExpression): nat {
    if s.Suffixed? then Max(DepthPrimary(s.primary), DepthSuffixes(s.suffixes)) else 0
  }

  function DepthPrimary(p: PrimaryExpression): nat {
    if p.Grouped? then Depth(p.inner) else 0
  }

  function DepthSuffixes(ss: seq<SuffixPart>): nat {
    if ss == [] then 0 else Max(DepthSuffix(ss[0]), DepthSuffixes(ss[1..]))
  }

  function DepthSuffix(s: SuffixPart): nat {
    match s
    case NamedField(_) => 0
    case IndexedField(index) => Depth(index)
    case Call(args) => DepthArgs(args)
    case MethodCall(_, args) => DepthArgs(args)
  }

  function DepthArgs(args: CallArgs): nat {
    if args.ParenArgs? then DepthList(args.exprs) else 0
  }

  function DepthList(es: seq<Expression>): nat {
    if es == [] then 0 else Max(Depth(es[0]), DepthList(es[1..]))
  }
}
