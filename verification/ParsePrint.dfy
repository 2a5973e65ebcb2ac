/** What is parsed prints back to the tokens that were consumed, and obeys the priority table. */
module ParsePrint {
  import opened Values
  import opened Ast
  import opened Grammar

  function AfterTail(tb: Table, b: Before, tail: seq<TailPart>): Before {
    if tail == [] then b else PartBefore(tb, tail[|tail| - 1])
  }

  predicate LimitReached(tb: Table, rest: seq<Token>, limit: nat) {
    rest != [] && BinaryOf(rest[0]).Some? ==> Priority(tb, BinaryOf(rest[0]).value).0 <= limit
  }

  lemma AfterTailMore(tb: Table, b: Before, p: TailPart, tail: seq<TailPart>)
    ensures AfterTail(tb, b, [p] + tail) == AfterTail(tb, PartBefore(tb, p), tail)
  {
    if tail != [] {
      assert ([p] + tail)[|tail|] == tail[|tail| - 1];
    }
  }

  lemma StopsWhole(tb: Table, e: Expression, op: BinaryOperator)
    ensures StopsIn(tb, e, op) <==> StopsAt(tb, AfterTail(tb, HeadBefore(e.head), e.tail), op)
    ensures OpenEnded(e) <==> Open(AfterTail(tb, HeadBefore(e.head), e.tail))
  {
    if e.tail != [] {
      var p := e.tail[|e.tail| - 1];
      assert StopsIn(tb, e, op) == StopsInPart(tb, p, op) && OpenEnded(e) == OpenPart(p);
    }
  }

  /** An expression is followed by what may follow its last part, at its own limit. */
  lemma FollowsWhole(tb: Table, e: Expression, limit: nat, rest: seq<Token>)
    ensures Follows(tb, AfterSub(e, limit), rest) <==> Follows(tb, AfterTail(tb, HeadBefore(e.head), e.tail), rest) && LimitReached(tb, rest, limit)
  {
    forall op ensures (StopsIn(tb, e, op) <==> StopsAt(tb, AfterTail(tb, HeadBefore(e.head), e.tail), op))
                      && (OpenEnded(e) <==> Open(AfterTail(tb, HeadBefore(e.head), e.tail))) {
      StopsWhole(tb, e, op);
    }
    if rest != [] && BinaryOf(rest[0]).None? {
      StopsWhole(tb, e, Concat);
    }
    hide StopsIn, OpenEnded;
  }

  lemma {:induction false} SubPrints(tb: Table, ts: seq<Token>, limit: nat, room: nat)
    requires ParseSub(tb, ts, limit, room).Parsed?
    ensures var Parsed(e, rest) := ParseSub(tb, ts, limit, room);
            Print(e) + rest == ts && Obeys(tb, e, limit) && Depth(e) <= room && Follows(tb, AfterSub(e, limit), rest)
    decreases room, |ts|, 9
  {
    hide ParseHead, ParseTail, ObeysHead, ObeysTail, PrintHead, PrintTail, DepthHead, DepthTail, Follows, Print, Obeys, Depth;
    var Parsed(head, rest) := ParseHead(tb, ts, room - 1);
    var Parsed(tail, rest') := ParseTail(tb, rest, limit, room - 1);
    HeadPrints(tb, ts, room - 1);
    TailPrints(tb, HeadBefore(head), rest, limit, room - 1);
    SubStep(tb, Expression(head, tail), ts, rest, rest', limit, room);
  }

  lemma SubStep(tb: Table, e: Expression, ts: seq<Token>, rest: seq<Token>, rest': seq<Token>, limit: nat, room: nat)
    requires room > 0 && PrintHead(e.head) + rest == ts && PrintTail(e.tail) + rest' == rest
    requires ObeysHead(tb, e.head) && ObeysTail(tb, HeadBefore(e.head), e.tail, limit)
    requires DepthHead(e.head) <= room - 1 && DepthTail(e.tail) <= room - 1
    requires Follows(tb, AfterTail(tb, HeadBefore(e.head), e.tail), rest') && LimitReached(tb, rest', limit)
    ensures Print(e) + rest' == ts && Obeys(tb, e, limit) && Depth(e) <= room && Follows(tb, AfterSub(e, limit), rest')
  {
    FollowsWhole(tb, e, limit, rest');
    hide ObeysHead, ObeysTail, PrintHead, PrintTail, DepthHead, DepthTail, Follows;
    assert Print(e) == PrintHead(e.head) + PrintTail(e.tail);
  }

  lemma {:induction false} HeadPrints(tb: Table, ts: seq<Token>, room: nat)
    requires ParseHead(tb, ts, room).Parsed?
    ensures var Parsed(h, rest) := ParseHead(tb, ts, room);
            PrintHead(h) + rest == ts && ObeysHead(tb, h) && DepthHead(h) <= room && Follows(tb, HeadBefore(h), rest)
    decreases room, |ts|, 8
  {
    hide ParseSub, ParseSimple, Print, PrintSimple, Obeys, ObeysSimple, Depth, DepthSimple, Follows;
    if UnaryOf(ts[0]).Some? {
      UnaryTokenOf(ts[0]);
      SubPrints(tb, ts[1..], UNARY_PRIORITY, room);
    } else {
      SimplePrints(tb, ts, room);
    }
  }

  lemma {:induction false} TailPrints(tb: Table, b: Before, ts: seq<Token>, limit: nat, room: nat)
    requires ParseTail(tb, ts, limit, room).Parsed? && Follows(tb, b, ts)
    ensures var Parsed(tail, rest) := ParseTail(tb, ts, limit, room);
            PrintTail(tail) + rest == ts && ObeysTail(tb, b, tail, limit) && DepthTail(tail) <= room
            && Follows(tb, AfterTail(tb, b, tail), rest) && LimitReached(tb, rest, limit)
    decreases room, |ts|, 10
  {
    hide ParseSub, Print, Obeys, Depth, StopsAt, Open;
    if ts != [] && BinaryOf(ts[0]).Some? && Priority(tb, BinaryOf(ts[0]).value).0 > limit {
      var op := BinaryOf(ts[0]).value;
      var Parsed(right, rest) := ParseSub(tb, ts[1..], Priority(tb, op).1, room);
      var Parsed(tail, rest') := ParseTail(tb, rest, limit, room);
      BinaryTokenOf(ts[0]);
      SubPrints(tb, ts[1..], Priority(tb, op).1, room);
      TailPrints(tb, AfterSub(right, Priority(tb, op).1), rest, limit, room);
      TailStep(tb, b, TailPart(op, right), tail, ts, rest, rest', limit, room);
    }
  }

  lemma TailStep(tb: Table, b: Before, p: TailPart, tail: seq<TailPart>, ts: seq<Token>, rest: seq<Token>, rest': seq<Token>, limit: nat, room: nat)
    requires ts != [] && ts[0] == BinaryToken(p.op) && Print(p.right) + rest == ts[1..] && PrintTail(tail) + rest' == rest
    requires Priority(tb, p.op).0 > limit && StopsAt(tb, b, p.op) && Obeys(tb, p.right, Priority(tb, p.op).1) && ObeysTail(tb, PartBefore(tb, p), tail, limit)
    requires Depth(p.right) <= room && DepthTail(tail) <= room
    ensures var all := [p] + tail;
            PrintTail(all) + rest' == ts && ObeysTail(tb, b, all, limit) && DepthTail(all) <= room
            && AfterTail(tb, b, all) == AfterTail(tb, PartBefore(tb, p), tail)
  {
    hide Print, Obeys, Depth, StopsAt;
    AfterTailMore(tb, b, p, tail);
    var all := [p] + tail;
    assert all[0] == p && all[1..] == tail;
    assert PrintTail(all) == PrintPart(p) + PrintTail(tail);
    assert ts == [ts[0]] + ts[1..];
  }

  lemma {:induction false} SimplePrints(tb: Table, ts: seq<Token>, room: nat)
    requires ts != [] && ParseSimple(tb, ts, room).Parsed? && UnaryOf(ts[0]).None?
    ensures var Parsed(s, rest) := ParseSimple(tb, ts, room);
            PrintSimple(s) + rest == ts && ObeysSimple(tb, s) && DepthSimple(s) <= room && Follows(tb, AfterSimple(s), rest)
    decreases room, |ts|, 7
  {
    if Literal(ts[0]).Some? {
      LiteralTokenOf(ts[0]);
    } else {
      hide ParsePrimary, ParseSuffixes, PrintSimple, ObeysSimple, DepthSimple;
      var Parsed(primary, rest) := ParsePrimary(tb, ts, room);
      var Parsed(suffixes, rest') := ParseSuffixes(tb, rest, room);
      PrimaryPrints(tb, ts, room);
      SuffixesPrint(tb, rest, room);
      SuffixedStep(tb, primary, suffixes, ts, rest, rest', room);
    }
  }

  lemma SuffixedStep(tb: Table, p: PrimaryExpression, ss: seq<SuffixPart>, ts: seq<Token>, rest: seq<Token>, rest': seq<Token>, room: nat)
    requires PrintPrimary(p) + rest == ts && PrintSuffixes(ss) + rest' == rest
    requires ObeysPrimary(tb, p) && ObeysSuffixes(tb, ss) && DepthPrimary(p) <= room && DepthSuffixes(ss) <= room
    requires rest' != [] ==> !SuffixStart(rest'[0])
    ensures var s := Suffixed(p, ss);
            PrintSimple(s) + rest' == ts && ObeysSimple(tb, s) && DepthSimple(s) <= room && Follows(tb, AfterSimple(s), rest')
  {
    hide PrintPrimary, PrintSuffixes, ObeysPrimary, ObeysSuffixes, DepthPrimary, DepthSuffixes;
    assert PrintSimple(Suffixed(p, ss)) == PrintPrimary(p) + PrintSuffixes(ss);
  }

  lemma {:induction false} ClosedPrints(tb: Table, ts: seq<Token>, close: Token, room: nat)
    requires ParseClosed(tb, ts, close, room).Parsed?
    ensures var Parsed(e, rest) := ParseClosed(tb, ts, close, room);
            Print(e) + [close] + rest == ts && Obeys(tb, e, MIN_PRIORITY) && Depth(e) <= room
    decreases room, |ts|, 10
  {
    hide ParseSub, Print, Obeys, Depth, Follows;
    SubPrints(tb, ts, MIN_PRIORITY, room);
    var Parsed(e, rest) := ParseSub(tb, ts, MIN_PRIORITY, room);
    Closes(Print(e), close, rest, ts);
  }

  lemma Closes(front: seq<Token>, close: Token, rest: seq<Token>, ts: seq<Token>)
    requires front + rest == ts && rest != [] && rest[0] == close
    ensures front + [close] + rest[1..] == ts
  {
    assert rest == [close] + rest[1..];
  }

  lemma {:induction false} PrimaryPrints(tb: Table, ts: seq<Token>, room: nat)
    requires ParsePrimary(tb, ts, room).Parsed?
    ensures var Parsed(p, rest) := ParsePrimary(tb, ts, room);
            PrintPrimary(p) + rest == ts && ObeysPrimary(tb, p) && DepthPrimary(p) <= room
    decreases room, |ts|, 6
  {
    hide ParseClosed, Print, Obeys, Depth;
    assert ts == [ts[0]] + ts[1..];
    if ts[0] == TLeftParen {
      ClosedPrints(tb, ts[1..], TRightParen, room);
    }
  }

  lemma {:induction false} SuffixesPrint(tb: Table, ts: seq<Token>, room: nat)
    requires ParseSuffixes(tb, ts, room).Parsed?
    ensures var Parsed(ss, rest) := ParseSuffixes(tb, ts, room);
            PrintSuffixes(ss) + rest == ts && ObeysSuffixes(tb, ss) && DepthSuffixes(ss) <= room
            && (rest != [] ==> !SuffixStart(rest[0]))
    decreases room, |ts|, 11
  {
    hide ParseSuffix, PrintSuffix, ObeysSuffix, DepthSuffix;
    if ts != [] && SuffixStart(ts[0]) {
      var Parsed(part, rest) := ParseSuffix(tb, ts, room);
      var Parsed(parts, rest') := ParseSuffixes(tb, rest, room);
      SuffixPrints(tb, ts, room);
      SuffixesPrint(tb, rest, room);
      SuffixStep(tb, part, parts, ts, rest, rest', room);
    }
  }

  lemma SuffixStep(tb: Table, part: SuffixPart, parts: seq<SuffixPart>, ts: seq<Token>, rest: seq<Token>, rest': seq<Token>, room: nat)
    requires PrintSuffix(part) + rest == ts && PrintSuffixes(parts) + rest' == rest
    requires ObeysSuffix(tb, part) && ObeysSuffixes(tb, parts) && DepthSuffix(part) <= room && DepthSuffixes(parts) <= room
    ensures var all := [part] + parts;
            PrintSuffixes(all) + rest' == ts && ObeysSuffixes(tb, all) && DepthSuffixes(all) <= room
  {
    hide PrintSuffix, ObeysSuffix, DepthSuffix;
    var all := [part] + parts;
    assert all[0] == part && all[1..] == parts;
    assert PrintSuffixes(all) == PrintSuffix(part) + PrintSuffixes(parts);
  }

  lemma {:induction false} SuffixPrints(tb: Table, ts: seq<Token>, room: nat)
    requires ts != [] && SuffixStart(ts[0]) && ParseSuffix(tb, ts, room).Parsed?
    ensures var Parsed(s, rest) := ParseSuffix(tb, ts, room);
            PrintSuffix(s) + rest == ts && ObeysSuffix(tb, s) && DepthSuffix(s) <= room
    decreases room, |ts|, 10
  {
    hide ParseClosed, ParseArgs, Print, Obeys, Depth, PrintArgs, ObeysArgs, DepthArgs;
    assert ts == [ts[0]] + ts[1..];
    if ts[0] == TDot {
      assert ts[1..] == [ts[1]] + ts[2..];
    } else if ts[0] == TLeftBracket {
      ClosedPrints(tb, ts[1..], TRightBracket, room);
      var Parsed(index, rest) := ParseClosed(tb, ts[1..], TRightBracket, room);
      assert [TLeftBracket] + Print(index) + [TRightBracket] + rest == [TLeftBracket] + (Print(index) + [TRightBracket] + rest);
    } else if ts[0] == TColon {
      ArgsPrint(tb, ts[2..], room);
      NamedCall(ts, PrintArgs(ParseArgs(tb, ts[2..], room).value), ParseArgs(tb, ts[2..], room).rest);
    } else {
      ArgsPrint(tb, ts, room);
    }
  }

  lemma NamedCall(ts: seq<Token>, args: seq<Token>, rest: seq<Token>)
    requires |ts| >= 2 && args + rest == ts[2..]
    ensures [ts[0], ts[1]] + args + rest == ts && ts[1..][1..] == ts[2..]
  {
    assert ts == [ts[0], ts[1]] + ts[2..];
  }

  lemma {:induction false} ArgsPrint(tb: Table, ts: seq<Token>, room: nat)
    requires ParseArgs(tb, ts, room).Parsed?
    ensures var Parsed(args, rest) := ParseArgs(tb, ts, room);
            PrintArgs(args) + rest == ts && ObeysArgs(tb, args) && DepthArgs(args) <= room
    decreases room, |ts|, 9
  {
    hide ParseList;
    if ts[0] == TLeftParen {
      if ts[1] == TRightParen {
        assert ts == [ts[0], ts[1]] + ts[2..];
      } else {
        hide PrintList, ObeysList, DepthList;
        ListPrints(tb, ts[1..], room);
        var Parsed(es, rest) := ParseList(tb, ts[1..], room);
        Encloses(PrintList(es), TRightParen, rest, ts);
      }
    } else {
      assert ts == [ts[0]] + ts[1..];
    }
  }

  lemma Encloses(middle: seq<Token>, close: Token, rest: seq<Token>, ts: seq<Token>)
    requires ts != [] && middle + rest == ts[1..] && rest != [] && rest[0] == close
    ensures [ts[0]] + middle + [close] + rest[1..] == ts
  {
    Closes(middle, close, rest, ts[1..]);
    assert ts == [ts[0]] + ts[1..];
  }

  lemma {:induction false} ListPrints(tb: Table, ts: seq<Token>, room: nat)
    requires ParseList(tb, ts, room).Parsed?
    ensures var Parsed(es, rest) := ParseList(tb, ts, room);
            PrintList(es) + rest == ts && ObeysList(tb, es) && DepthList(es) <= room && (rest != [] ==> rest[0] != TComma)
    decreases room, |ts|, 10
  {
    hide ParseSub, Print, Obeys, Depth;
    SubPrints(tb, ts, MIN_PRIORITY, room);
    var Parsed(first, rest) := ParseSub(tb, ts, MIN_PRIORITY, room);
    if rest != [] && rest[0] == TComma {
      var Parsed(more, rest') := ParseList(tb, rest[1..], room);
      ListPrints(tb, rest[1..], room);
      ListStep(tb, first, more, ts, rest, rest', room);
    } else {
      var es := [first];
      assert es[1..] == [];
    }
  }

  lemma ListStep(tb: Table, first: Expression, more: seq<Expression>, ts: seq<Token>, rest: seq<Token>, rest': seq<Token>, room: nat)
    requires Print(first) + rest == ts && rest != [] && rest[0] == TComma && PrintList(more) + rest' == rest[1..] && more != []
    requires Obeys(tb, first, MIN_PRIORITY) && ObeysList(tb, more) && Depth(first) <= room && DepthList(more) <= room
    ensures var all := [first] + more;
            PrintList(all) + rest' == ts && ObeysList(tb, all) && DepthList(all) <= room
  {
    hide Print, Obeys, Depth;
    var all := [first] + more;
    assert all[0] == first && all[1..] == more;
    assert PrintList(all) == Print(first) + [TComma] + PrintList(more);
    assert rest == [TComma] + rest[1..];
  }
}
