/** The expression parser as the object that it is in parser.rs: it fills a buffer of tokens as it looks
    ahead and takes them off the front. Proved against the functions in `Grammar`. */
module Parsers {
  import opened Values
  import opened Ast
  import G = Grammar

  class Parser {
    /** What the lexer has not read yet. */
    var lexer: seq<G.Token>
    var readBuffer: seq<G.Token>

    ghost function Tokens(): seq<G.Token>
      reads this
    {
      readBuffer + lexer
    }

    constructor (source: seq<G.Token>)
      ensures Tokens() == source
    {
      lexer, readBuffer := source, [];
    }

    /** Fills the buffer to more than `n` tokens, if there are as many. */
    method ReadAhead(n: nat)
      modifies this
      ensures Tokens() == old(Tokens())
      ensures |readBuffer| > n || lexer == []
    {
      while |readBuffer| <= n
        invariant Tokens() == old(Tokens())
        decreases |lexer|
      {
        if lexer == [] {
          break;
        }
        readBuffer, lexer := readBuffer + [lexer[0]], lexer[1..];
      }
    }

    method LookAhead(n: nat) returns (t: Option<G.Token>)
      modifies this
      ensures Tokens() == old(Tokens()) && t == if n < |Tokens()| then Some(Tokens()[n]) else None
    {
      ReadAhead(n + 1);
      t := if n < |readBuffer| then Some(readBuffer[n]) else None;
    }

    method TakeNext() returns (t: Option<G.Token>)
      modifies this
      ensures if old(Tokens()) == [] then t == None && Tokens() == []
              else t == Some(old(Tokens())[0]) && Tokens() == old(Tokens())[1..]
    {
      ReadAhead(1);
      if readBuffer == [] {
        return None;
      }
      t := Some(readBuffer[0]);
      readBuffer := readBuffer[1..];
      assert Tokens() == old(Tokens())[1..];
    }

    method ExpectNext(token: G.Token) returns (error: Option<G.ParseError>)
      modifies this
      ensures match G.Expect(old(Tokens()), token)
              case Parsed(_, rest) => error == None && Tokens() == rest
              case Failed(e) => error == Some(e)
    {
      var t := TakeNext();
      error := if t.None? then Some(G.EndOfStream) else if t.value == token then None else Some(G.Unexpected);
    }

    method ExpectName() returns (name: Option<Name>, error: G.ParseError)
      modifies this
      ensures match G.ExpectName(old(Tokens()))
              case Parsed(n, rest) => name == Some(n) && Tokens() == rest
              case Failed(e) => name == None && error == e
    {
      var t := TakeNext();
      name, error := None, if t.None? then G.EndOfStream else G.Unexpected;
      if t.Some? && t.value.TName? {
        name := Some(t.value.name);
      }
    }

    /** The result of a method: what the function parses, and the tokens behind it are those that are left. */
    ghost predicate Agrees<T>(r: Option<T>, error: G.ParseError, spec: G.Parse<T>)
      reads this
    {
      match spec
      case Parsed(v, rest) => r == Some(v) && Tokens() == rest
      case Failed(e) => r == None && error == e
    }

    method ParseSubExpression(limit: nat, room: nat) returns (r: Option<Expression>, error: G.ParseError)
      modifies this
      ensures Agrees(r, error, G.ParseSub(G.CodeTable, old(Tokens()), limit, room))
      decreases room, |Tokens()|, 9
    {
      if room == 0 {
        return None, G.RecursionLimit;
      }
      var head;
      head, error := ParseHead(room - 1);
      if head.None? {
        return None, error;
      }
      var tail;
      tail, error := ParseTail(limit, room - 1);
      if tail.None? {
        return None, error;
      }
      r := Some(Expression(head.value, tail.value));
    }

    method ParseHead(room: nat) returns (r: Option<HeadExpression>, error: G.ParseError)
      modifies this
      ensures Agrees(r, error, G.ParseHead(G.CodeTable, old(Tokens()), room))
      decreases room, |Tokens()|, 8
    {
      error := G.Unexpected;
      var next := LookAhead(0);
      if next.None? {
        return None, G.EndOfStream;
      }
      var op := G.UnaryOf(next.value);
      if op.Some? {
        var _ := TakeNext();
        var operand;
        operand, error := ParseSubExpression(G.UNARY_PRIORITY, room);
        r := if operand.Some? then Some(UnaryHead(op.value, operand.value)) else None;
      } else {
        var s;
        s, error := ParseSimpleExpression(room);
        r := if s.Some? then Some(SimpleHead(s.value)) else None;
      }
    }

    /** The loop over binary operators. */
    method ParseTail(limit: nat, room: nat) returns (r: Option<seq<TailPart>>, error: G.ParseError)
      modifies this
      ensures Agrees(r, error, G.ParseTail(G.CodeTable, old(Tokens()), limit, room))
      decreases room, |Tokens()|, 10
    {
      var tail := [];
      ghost var whole := G.ParseTail(G.CodeTable, Tokens(), limit, room);
      error := G.Unexpected;
      while true
        invariant |Tokens()| <= |old(Tokens())|
        invariant whole == Prefixed(tail, G.ParseTail(G.CodeTable, Tokens(), limit, room))
        decreases |Tokens()|
      {
        var next := LookAhead(0);
        var op := if next.Some? then G.BinaryOf(next.value) else None;
        if op.None? || G.Priority(G.CodeTable, op.value).0 <= limit {
          return Some(tail), error;
        }
        var _ := TakeNext();
        var right;
        right, error := ParseSubExpression(G.Priority(G.CodeTable, op.value).1, room);
        if right.None? {
          return None, error;
        }
        PrefixedMore(tail, TailPart(op.value, right.value), G.ParseTail(G.CodeTable, Tokens(), limit, room));
        tail := tail + [TailPart(op.value, right.value)];
      }
    }

    method ParseSimpleExpression(room: nat) returns (r: Option<SimpleExpression>, error: G.ParseError)
      requires Tokens() != []
      modifies this
      ensures Agrees(r, error, G.ParseSimple(G.CodeTable, old(Tokens()), room))
      decreases room, |Tokens()|, 7
    {
      error := G.Unexpected;
      var next := LookAhead(0);
      var literal := G.Literal(next.value);
      if literal.Some? {
        var _ := TakeNext();
        return literal, error;
      }
      if next.value == G.TLeftBrace || next.value == G.TFunction {
        return None, G.Unsupported;
      }
      var primary;
      primary, error := ParsePrimaryExpression(room);
      if primary.None? {
        return None, error;
      }
      var suffixes;
      suffixes, error := ParseSuffixes(room);
      r := if suffixes.Some? then Some(Suffixed(primary.value, suffixes.value)) else None;
    }

    method ParseClosed(close: G.Token, room: nat) returns (r: Option<Expression>, error: G.ParseError)
      modifies this
      ensures Agrees(r, error, G.ParseClosed(G.CodeTable, old(Tokens()), close, room))
      decreases room, |Tokens()|, 10
    {
      r, error := ParseSubExpression(G.MIN_PRIORITY, room);
      if r.Some? {
        var closed := ExpectNext(close);
        if closed.Some? {
          return None, closed.value;
        }
      }
    }

    method ParsePrimaryExpression(room: nat) returns (r: Option<PrimaryExpression>, error: G.ParseError)
      modifies this
      ensures Agrees(r, error, G.ParsePrimary(G.CodeTable, old(Tokens()), room))
      decreases room, |Tokens()|, 6
    {
      error := G.Unexpected;
      var next := TakeNext();
      match next {
        case None => return None, G.EndOfStream;
        case Some(TLeftParen) =>
          var inner;
          inner, error := ParseClosed(G.TRightParen, room);
          r := if inner.Some? then Some(Grouped(inner.value)) else None;
        case Some(TName(n)) => r := Some(Named(n));
        case _ => r := None;
      }
    }

    method ParseSuffixes(room: nat) returns (r: Option<seq<SuffixPart>>, error: G.ParseError)
      modifies this
      ensures Agrees(r, error, G.ParseSuffixes(G.CodeTable, old(Tokens()), room))
      decreases room, |Tokens()|, 11
    {
      var parts := [];
      ghost var whole := G.ParseSuffixes(G.CodeTable, Tokens(), room);
      error := G.Unexpected;
      while true
        invariant |Tokens()| <= |old(Tokens())|
        invariant whole == Prefixed(parts, G.ParseSuffixes(G.CodeTable, Tokens(), room))
        decreases |Tokens()|
      {
        var next := LookAhead(0);
        if next.None? || !G.SuffixStart(next.value) {
          return Some(parts), error;
        }
        var part;
        part, error := ParseSuffixPart(room);
        if part.None? {
          return None, error;
        }
        PrefixedMore(parts, part.value, G.ParseSuffixes(G.CodeTable, Tokens(), room));
        parts := parts + [part.value];
      }
    }

    method ParseSuffixPart(room: nat) returns (r: Option<SuffixPart>, error: G.ParseError)
      requires Tokens() != [] && G.SuffixStart(Tokens()[0])
      modifies this
      ensures Agrees(r, error, G.ParseSuffix(G.CodeTable, old(Tokens()), room))
      decreases room, |Tokens()|, 10
    {
      error := G.Unexpected;
      var next := LookAhead(0);
      if next.value == G.TDot {
        var _ := TakeNext();
        var name;
        name, error := ExpectName();
        r := if name.Some? then Some(NamedField(name.value)) else None;
      } else if next.value == G.TLeftBracket {
        var _ := TakeNext();
        var index;
        index, error := ParseClosed(G.TRightBracket, room);
        r := if index.Some? then Some(IndexedField(index.value)) else None;
      } else if next.value == G.TColon {
        var _ := TakeNext();
        var name;
        name, error := ExpectName();
        if name.None? {
          return None, error;
        }
        var args;
        args, error := ParseArgs(room);
        r := if args.Some? then Some(MethodCall(name.value, args.value)) else None;
      } else {
        var args;
        args, error := ParseArgs(room);
        r := if args.Some? then Some(Call(args.value)) else None;
      }
    }

    method ParseArgs(room: nat) returns (r: Option<CallArgs>, error: G.ParseError)
      modifies this
      ensures Agrees(r, error, G.ParseArgs(G.CodeTable, old(Tokens()), room))
      decreases room, |Tokens()|, 9
    {
      error := G.Unexpected;
      var next := LookAhead(0);
      if next.None? {
        return None, G.EndOfStream;
      }
      if next.value == G.TLeftParen {
        var _ := TakeNext();
        var first := LookAhead(0);
        if first.None? {
          return None, G.EndOfStream;
        }
        if first.value == G.TRightParen {
          var _ := TakeNext();
          return Some(ParenArgs([])), error;
        }
        var es;
        es, error := ParseExpressionList(room);
        if es.None? {
          return None, error;
        }
        var closed := ExpectNext(G.TRightParen);
        if closed.Some? {
          return None, closed.value;
        }
        r := Some(ParenArgs(es.value));
      } else if next.value.TString? {
        var _ := TakeNext();
        r := Some(StringArg(next.value.s));
      } else {
        return None, if next.value == G.TLeftBrace then G.Unsupported else G.Unexpected;
      }
    }

    method ParseExpressionList(room: nat) returns (r: Option<seq<Expression>>, error: G.ParseError)
      modifies this
      ensures Agrees(r, error, G.ParseList(G.CodeTable, old(Tokens()), room))
      decreases room, |Tokens()|, 10
    {
      ghost var whole := G.ParseList(G.CodeTable, Tokens(), room);
      var first;
      first, error := ParseSubExpression(G.MIN_PRIORITY, room);
      if first.None? {
        return None, error;
      }
      ListUnfolds(old(Tokens()), room);
      var es := [first.value];
      while true
        invariant |Tokens()| < |old(Tokens())|
        invariant es != []
        invariant whole == Prefixed(es, ListRest(Tokens(), room))
        decreases |Tokens()|
      {
        var next := LookAhead(0);
        if next != Some(G.TComma) {
          return Some(es), error;
        }
        ghost var ts := Tokens()[1..];
        var _ := TakeNext();
        var e;
        e, error := ParseSubExpression(G.MIN_PRIORITY, room);
        if e.None? {
          return None, error;
        }
        ListUnfolds(ts, room);
        PrefixedMore(es, e.value, ListRest(Tokens(), room));
        es := es + [e.value];
      }
    }
  }

  /** A list whose first elements have been parsed already. */
  ghost function Prefixed<T>(done: seq<T>, more: G.Parse<seq<T>>): (r: G.Parse<seq<T>>)
    ensures done == [] ==> r == more
    ensures more.Parsed? && more.value == [] ==> r == G.Parsed(done, more.rest)
  {
    assert more.Parsed? ==> [] + more.value == more.value && done + [] == done;
    match more
    case Parsed(v, rest) => G.Parsed(done + v, rest)
    case Failed(e) => G.Failed(e)
  }

  lemma PrefixedMore<T>(done: seq<T>, x: T, more: G.Parse<seq<T>>)
    ensures Prefixed(done, Prefixed([x], more)) == Prefixed(done + [x], more)
  {
    if more.Parsed? {
      assert done + ([x] + more.value) == done + [x] + more.value;
    }
  }

  lemma ListUnfolds(ts: seq<G.Token>, room: nat)
    requires G.ParseSub(G.CodeTable, ts, G.MIN_PRIORITY, room).Parsed?
    ensures var first := G.ParseSub(G.CodeTable, ts, G.MIN_PRIORITY, room);
            G.ParseList(G.CodeTable, ts, room) == Prefixed([first.value], ListRest(first.rest, room))
  {
    var first := G.ParseSub(G.CodeTable, ts, G.MIN_PRIORITY, room);
    assert [first.value] + [] == [first.value];
  }

  /** What follows an expression of a list. */
  ghost function ListRest(ts: seq<G.Token>, room: nat): G.Parse<seq<Expression>> {
    if ts != [] && ts[0] == G.TComma then G.ParseList(G.CodeTable, ts[1..], room) else G.Parsed([], ts)
  }
}
