/** A tree that obeys the priority table parses back to itself from its printed tokens, up to the nesting
    limit. */
module PrintParse {
  import opened Values
  import opened Ast
  import opened Grammar
  import opened ParsePrint

  lemma {:induction false} SubParses(tb: Table, e: Expression, limit: nat, room: nat, rest: seq<Token>)
    requires Obeys(tb, e, limit) && Depth(e) <= room && Follows(tb, AfterSub(e, limit), rest)
    ensures ParseSub(tb, Print(e) + rest, limit, room) == Parsed(e, rest)
    decreases e, 9
  {
    FollowsWhole(tb, e, limit, rest);
    var after := PrintTail(e.tail) + rest;
    assert Print(e) + rest == PrintHead(e.head) + after;
    assert Follows(tb, HeadBefore(e.head), after) by {
      TailFollows(tb, HeadBefore(e.head), e.tail, limit, rest);
    }
    hide ParseHead, ParseTail, ObeysHead, ObeysTail, PrintHead, PrintTail, DepthHead, DepthTail, Follows;
    HeadParses(tb, e.head, room - 1, after);
    TailParses(tb, HeadBefore(e.head), e.tail, limit, room - 1, rest);
  }

  /** What comes before an allowed tail stops there. */
  lemma TailFollows(tb: Table, b: Before, tail: seq<TailPart>, limit: nat, rest: seq<Token>)
    requires ObeysTail(tb, b, tail, limit) && Follows(tb, AfterTail(tb, b, tail), rest)
    ensures Follows(tb, b, PrintTail(tail) + rest)
  {
    if tail != [] {
      hide StopsAt, Open, Print;
      var t := BinaryToken(tail[0].op);
      assert (PrintTail(tail) + rest)[0] == t;
      OperatorIsNoSuffix(tail[0].op);
    } else {
      assert PrintTail(tail) + rest == rest;
    }
  }

  lemma OperatorIsNoSuffix(op: BinaryOperator)
    ensures !SuffixStart(BinaryToken(op))
  {
  }

  lemma {:induction false} HeadParses(tb: Table, h: HeadExpression, room: nat, rest: seq<Token>)
    requires ObeysHead(tb, h) && DepthHead(h) <= room && Follows(tb, HeadBefore(h), rest)
    ensures ParseHead(tb, PrintHead(h) + rest, room) == Parsed(h, rest)
    decreases h, 8
  {
    hide ParseSub, ParseSimple, Print, PrintSimple, Obeys, ObeysSimple, Depth, DepthSimple, Follows;
    match h {
      case UnaryHead(op, operand) =>
        SubParses(tb, operand, UNARY_PRIORITY, room, rest);
        var ts := PrintHead(h) + rest;
        assert ts[0] == UnaryToken(op) && ts[1..] == Print(operand) + rest;
      case SimpleHead(s) => SimpleParses(tb, s, room, rest);
    }
  }

  lemma {:induction false} TailParses(tb: Table, b: Before, tail: seq<TailPart>, limit: nat, room: nat, rest: seq<Token>)
    requires ObeysTail(tb, b, tail, limit) && DepthTail(tail) <= room
    requires Follows(tb, AfterTail(tb, b, tail), rest) && LimitReached(tb, rest, limit)
    ensures ParseTail(tb, PrintTail(tail) + rest, limit, room) == Parsed(tail, rest)
    decreases tail, 9
  {
    if tail == [] {
      assert PrintTail(tail) + rest == rest;
    } else {
      var p, more := tail[0], tail[1..];
      var after, ts := PrintTail(more) + rest, PrintTail(tail) + rest;
      assert tail == [p] + more;
      AfterTailMore(tb, b, p, more);
      TailFollows(tb, PartBefore(tb, p), more, limit, rest);
      TailTokens(tail, rest);
      hide ParseSub, Print, Obeys, Depth, StopsAt, Follows, LimitReached, AfterTail, PrintTail;
      PartParses(tb, p, room, after);
      TailParses(tb, PartBefore(tb, p), more, limit, room, rest);
    }
  }

  lemma TailTokens(tail: seq<TailPart>, rest: seq<Token>)
    requires tail != []
    ensures var ts := PrintTail(tail) + rest;
            ts != [] && ts[0] == BinaryToken(tail[0].op) && ts[1..] == Print(tail[0].right) + (PrintTail(tail[1..]) + rest)
  {
    var right, more := Print(tail[0].right), PrintTail(tail[1..]);
    assert PrintTail(tail) == [BinaryToken(tail[0].op)] + right + more;
    hide Print, PrintTail;
    Regroup(BinaryToken(tail[0].op), right, more, rest);
  }

  lemma Regroup(t: Token, a: seq<Token>, b: seq<Token>, c: seq<Token>)
    ensures ([t] + a + b + c)[0] == t && ([t] + a + b + c)[1..] == a + (b + c)
  {
    assert [t] + a + b + c == [t] + (a + (b + c));
  }

  lemma {:induction false} PartParses(tb: Table, p: TailPart, room: nat, rest: seq<Token>)
    requires ObeysPart(tb, p) && DepthPart(p) <= room && Follows(tb, PartBefore(tb, p), rest)
    ensures ParseSub(tb, Print(p.right) + rest, Priority(tb, p.op).1, room) == Parsed(p.right, rest)
    decreases p, 8
  {
    SubParses(tb, p.right, Priority(tb, p.op).1, room, rest);
  }

  lemma {:induction false} SimpleParses(tb: Table, s: SimpleExpression, room: nat, rest: seq<Token>)
    requires ObeysSimple(tb, s) && DepthSimple(s) <= room && Follows(tb, AfterSimple(s), rest)
    ensures var ts := PrintSimple(s) + rest;
            ts != [] && UnaryOf(ts[0]).None? && ParseSimple(tb, ts, room) == Parsed(s, rest)
    decreases s, 8
  {
    if s.Suffixed? {
      hide PrintPrimary, PrintSuffixes, ObeysPrimary, ObeysSuffixes, ParsePrimary, ParseSuffixes, DepthPrimary, DepthSuffixes;
      var after := PrintSuffixes(s.suffixes) + rest;
      assert PrintSimple(s) + rest == PrintPrimary(s.primary) + after;
      PrimaryParses(tb, s.primary, room, after);
      SuffixesParse(tb, s.suffixes, room, rest);
    } else {
      var ts := PrintSimple(s) + rest;
      assert ts[0] == LiteralToken(s) && ts[1..] == rest;
    }
  }

  lemma {:induction false} ClosedParses(tb: Table, e: Expression, close: Token, room: nat, rest: seq<Token>)
    requires Obeys(tb, e, MIN_PRIORITY) && Depth(e) <= room && BinaryOf(close).None? && !SuffixStart(close)
    ensures ParseClosed(tb, Print(e) + [close] + rest, close, room) == Parsed(e, rest)
    decreases e, 10
  {
    hide ParseSub, Print, Obeys, Depth;
    var after := [close] + rest;
    assert Print(e) + [close] + rest == Print(e) + after && after[1..] == rest;
    SubParses(tb, e, MIN_PRIORITY, room, after);
  }

  lemma {:induction false} PrimaryParses(tb: Table, p: PrimaryExpression, room: nat, rest: seq<Token>)
    requires ObeysPrimary(tb, p) && DepthPrimary(p) <= room
    ensures var ts := PrintPrimary(p) + rest;
            ts != [] && UnaryOf(ts[0]).None? && Literal(ts[0]).None? && ts[0] != TLeftBrace && ts[0] != TFunction
            && ParsePrimary(tb, ts, room) == Parsed(p, rest)
    decreases p, 8
  {
    hide ParseClosed, Print, Obeys, Depth;
    var ts := PrintPrimary(p) + rest;
    match p {
      case Named(n) => assert ts[0] == TName(n) && ts[1..] == rest;
      case Grouped(inner) =>
        ClosedParses(tb, inner, TRightParen, room, rest);
        assert ts[0] == TLeftParen && ts[1..] == Print(inner) + [TRightParen] + rest;
    }
  }

  lemma {:induction false} SuffixesParse(tb: Table, ss: seq<SuffixPart>, room: nat, rest: seq<Token>)
    requires ObeysSuffixes(tb, ss) && DepthSuffixes(ss) <= room && (rest != [] ==> !SuffixStart(rest[0]))
    ensures ParseSuffixes(tb, PrintSuffixes(ss) + rest, room) == Parsed(ss, rest)
    decreases ss, 8
  {
    hide ParseSuffix, PrintSuffix, ObeysSuffix, DepthSuffix;
    if ss == [] {
      assert PrintSuffixes(ss) + rest == rest;
    } else {
      var after := PrintSuffixes(ss[1..]) + rest;
      assert PrintSuffixes(ss) + rest == PrintSuffix(ss[0]) + after;
      SuffixParses(tb, ss[0], room, after);
      SuffixesParse(tb, ss[1..], room, rest);
      assert ss == [ss[0]] + ss[1..];
    }
  }

  lemma {:induction false} SuffixParses(tb: Table, s: SuffixPart, room: nat, rest: seq<Token>)
    requires ObeysSuffix(tb, s) && DepthSuffix(s) <= room
    ensures var ts := PrintSuffix(s) + rest;
            ts != [] && SuffixStart(ts[0]) && ParseSuffix(tb, ts, room) == Parsed(s, rest)
    decreases s, 8
  {
    hide ParseClosed, ParseArgs, Print, Obeys, Depth, PrintArgs, ObeysArgs, DepthArgs;
    var ts := PrintSuffix(s) + rest;
    match s {
      case NamedField(n) => assert ts[0] == TDot && ts[1..] == [TName(n)] + rest && ts[1..][1..] == rest;
      case IndexedField(index) =>
        ClosedParses(tb, index, TRightBracket, room, rest);
        assert ts[0] == TLeftBracket && ts[1..] == Print(index) + [TRightBracket] + rest;
      case Call(args) => ArgsParse(tb, args, room, rest);
      case MethodCall(n, args) =>
        ArgsParse(tb, args, room, rest);
        assert ts[0] == TColon && ts[1..] == [TName(n)] + (PrintArgs(args) + rest) && ts[1..][1..] == PrintArgs(args) + rest;
    }
  }

  lemma {:induction false} ArgsParse(tb: Table, args: CallArgs, room: nat, rest: seq<Token>)
    requires ObeysArgs(tb, args) && DepthArgs(args) <= room
    ensures var ts := PrintArgs(args) + rest;
            ts != [] && (ts[0] == TLeftParen || ts[0].TString?) && ParseArgs(tb, ts, room) == Parsed(args, rest)
    decreases args, 8
  {
    var ts := PrintArgs(args) + rest;
    match args {
      case StringArg(s) => assert ts[0] == TString(s) && ts[1..] == rest;
      case ParenArgs(es) =>
        var after := [TRightParen] + rest;
        assert ts[0] == TLeftParen && ts[1..] == PrintList(es) + after && after[1..] == rest;
        if es == [] {
          assert ts[1..] == after && ts[1] == ts[1..][0] && ts[2..] == after[1..];
        } else {
          hide ParseList, PrintList, ObeysList, DepthList;
          ListParses(tb, es, room, after);
        }
    }
  }

  /** An expression does not begin with a closing parenthesis. */
  lemma StartsWell(e: Expression)
    ensures Print(e) != [] && Print(e)[0] != TRightParen
  {
    hide PrintTail;
    HeadStartsWell(e.head);
    assert Print(e) == PrintHead(e.head) + PrintTail(e.tail);
  }

  lemma HeadStartsWell(h: HeadExpression)
    ensures PrintHead(h) != [] && PrintHead(h)[0] != TRightParen
  {
    hide Print;
    match h {
      case UnaryHead(op, operand) =>
      case SimpleHead(s) =>
        if s.Suffixed? {
          hide PrintSuffixes;
          assert PrintPrimary(s.primary) != [] && PrintPrimary(s.primary)[0] != TRightParen;
        }
    }
  }

  lemma {:induction false} ListParses(tb: Table, es: seq<Expression>, room: nat, rest: seq<Token>)
    requires ObeysList(tb, es) && DepthList(es) <= room && es != [] && rest != [] && rest[0] == TRightParen
    ensures var ts := PrintList(es) + rest;
            ts != [] && ts[0] != TRightParen && ParseList(tb, ts, room) == Parsed(es, rest)
    decreases es, 8
  {
    hide ParseSub, Print, Obeys, Depth;
    StartsWell(es[0]);
    if |es| == 1 {
      assert es == [es[0]] && PrintList(es) == Print(es[0]);
      SubParses(tb, es[0], MIN_PRIORITY, room, rest);
    } else {
      var more := PrintList(es[1..]) + rest;
      assert PrintList(es) + rest == Print(es[0]) + ([TComma] + more);
      hide PrintList;
      SubParses(tb, es[0], MIN_PRIORITY, room, [TComma] + more);
      ListParses(tb, es[1..], room, rest);
      assert es == [es[0]] + es[1..] && ([TComma] + more)[1..] == more;
    }
  }

  // The round trips.

  /** A tree parses back to itself exactly when it obeys the priority table, is not nested too deeply, and
      is followed by tokens that cannot belong to it. */
  lemma RoundTrip(tb: Table, e: Expression, limit: nat, room: nat, rest: seq<Token>)
    ensures ParseSub(tb, Print(e) + rest, limit, room) == Parsed(e, rest)
            <==> Obeys(tb, e, limit) && Depth(e) <= room && Follows(tb, AfterSub(e, limit), rest)
  {
    if Obeys(tb, e, limit) && Depth(e) <= room && Follows(tb, AfterSub(e, limit), rest) {
      SubParses(tb, e, limit, room, rest);
    }
    if ParseSub(tb, Print(e) + rest, limit, room) == Parsed(e, rest) {
      SubPrints(tb, Print(e) + rest, limit, room);
    }
  }

  /** The grammar is unambiguous: two allowed trees with the same tokens are the same. */
  lemma PrintedOnce(tb: Table, e: Expression, e': Expression)
    requires Obeys(tb, e, MIN_PRIORITY) && Obeys(tb, e', MIN_PRIORITY) && Print(e) == Print(e')
    ensures e == e'
  {
    var room := Max(Depth(e), Depth(e'));
    SubParses(tb, e, MIN_PRIORITY, room, []);
    SubParses(tb, e', MIN_PRIORITY, room, []);
  }

  /** A tree that is nested more deeply than there are guards does not parse at all. */
  lemma TooDeepFails(tb: Table, e: Expression, limit: nat, room: nat, rest: seq<Token>)
    requires Obeys(tb, e, limit) && Follows(tb, AfterSub(e, limit), rest) && Depth(e) > room
    ensures ParseSub(tb, Print(e) + rest, limit, room).Failed?
  {
    var ts := Print(e) + rest;
    if ParseSub(tb, ts, limit, room).Parsed? {
      var Parsed(e', rest') := ParseSub(tb, ts, limit, room);
      SubPrints(tb, ts, limit, room);
      SubParses(tb, e', limit, Depth(e), rest');
      SubParses(tb, e, limit, Depth(e), rest);
    }
  }
}
