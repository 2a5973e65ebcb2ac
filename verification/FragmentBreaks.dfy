/** The loops that `StatementCodegen` refuses are those for which the bookkeeping of jumps does. */
module FragmentBreaks {
  import opened Values
  import Ast
  import S = StatementCodegen
  import opened Jumps
  import opened JumpSyntax
  import opened JumpWaits
  import opened JumpBreaks
  import opened JumpLists

  /** A statement as far as blocks and jumps go. */
  function Shape(st: Ast.Statement): Statement
    decreases st, 1
  {
    match st
    case LocalStatement(names, _) => Declares([], |names|)
    case Assignment(_, _) => Simple([])
    case Do(b) => Do(BodyShape(b))
    case If(chain) => If(ChainShape(chain))
    case While(_, b) => While([], BodyShape(b))
    case Repeat(b, _) => Repeat(Shapes(b.statements), [])
    case NumericFor(_, _, _, _, b) => For(false, [], 1, BodyShape(b))
    case Break => BreakLoop
  }

  function Shapes(ss: seq<Ast.Statement>): (r: seq<Statement>)
    ensures |r| == |ss| && forall i :: 0 <= i < |ss| ==> r[i] == Shape(ss[i]) && !r[i].LabelHere?
    decreases ss, 2
  {
    seq(|ss|, i requires 0 <= i < |ss| => Shape(ss[i]))
  }

  function BodyShape(b: Ast.Block): Body
    decreases b, 3
  {
    Body(Shapes(b.statements), if b.ret.Some? then Some([]) else None)
  }

  function ChainShape(chain: Ast.IfChain): Arms
    decreases chain, 4
  {
    match chain
    case Arm(_, b, rest) => Arm([], BodyShape(b), ChainShape(rest))
    case Else(b) => Else(BodyShape(b))
    case EndIf => EndIf
  }

  lemma {:induction false} BreaksShape(st: Ast.Statement, visible: set<Label>)
    requires Break !in visible
    ensures Break in Waits(Shape(st), visible, true) <==> S.Breaks(st)
    decreases st, 1
  {
    match st {
      case Do(b) => BlockShape(b, visible);
      case If(chain) => ArmsShape(chain, visible);
      case _ =>
    }
  }

  lemma {:induction false} BlockShape(b: Ast.Block, visible: set<Label>)
    requires Break !in visible
    ensures Break in BodyWaits(BodyShape(b), visible, true) <==> S.BlockBreaks(b)
    decreases b, 0
  {
    var ss := Shapes(b.statements);
    assert ss[..|ss|] == ss && Trailing(ss) == |ss| && Placed(ss[|ss|..]) == {};
    ListShape(b.statements, visible);
  }

  lemma {:induction false} ListShape(ss: seq<Ast.Statement>, visible: set<Label>)
    requires Break !in visible
    ensures Break in ListWaits(Shapes(ss), visible, {}, true) <==> exists i :: 0 <= i < |ss| && S.Breaks(ss[i])
    decreases ss, 0
  {
    if ss != [] {
      var rest, st := ss[..|ss| - 1], ss[|ss| - 1];
      assert Shapes(ss)[..|ss| - 1] == Shapes(rest) && Placed(Shapes(rest)) == {};
      assert visible + {} == visible;
      ListShape(rest, visible);
      BreaksShape(st, visible);
      assert forall i :: 0 <= i < |rest| ==> rest[i] == ss[i];
    }
  }

  lemma {:induction false} ArmsShape(chain: Ast.IfChain, visible: set<Label>)
    requires Break !in visible
    ensures Break in ArmWaits(ChainShape(chain), visible, true) <==> S.ChainBreaks(chain)
    decreases chain, 0
  {
    match chain {
      case Arm(_, b, rest) =>
        BlockShape(b, visible);
        ArmsShape(rest, visible);
      case Else(b) => BlockShape(b, visible);
      case EndIf =>
    }
  }

  lemma {:induction false} DeclaresShape(ss: seq<Ast.Statement>)
    ensures Declared(Shapes(ss)) > 0 <==> exists i :: 0 <= i < |ss| && S.Declares(ss[i])
    decreases |ss|
  {
    if ss != [] {
      var rest := ss[..|ss| - 1];
      assert Shapes(ss)[..|ss| - 1] == Shapes(rest);
      DeclaresShape(rest);
      assert forall i :: 0 <= i < |rest| ==> rest[i] == ss[i];
    }
  }

  ghost predicate AboveAt(ss: seq<Ast.Statement>, i: nat)
    requires i < |ss|
  {
    S.Breaks(ss[i]) && exists j :: i < j < |ss| && S.Declares(ss[j])
  }

  /** A statement that breaks declares nothing, so the variable is behind it. */
  lemma OneShape(ss: seq<Ast.Statement>, i: nat)
    requires i < |ss|
    ensures Break in Waits(Shapes(ss)[i], {} + Placed(Shapes(ss)[..i]), true) && Declared(Shapes(ss)[i..]) > 0 <==> AboveAt(ss, i)
  {
    assert {} + Placed(Shapes(ss)[..i]) == {};
    BreaksShape(ss[i], {});
    assert Shapes(ss)[i..] == Shapes(ss[i..]);
    DeclaresShape(ss[i..]);
    TailHas(ss, i);
    hide Waits, Placed, Declared;
    assert S.Breaks(ss[i]) ==> !S.Declares(ss[i]);
  }

  lemma AboveShape(ss: seq<Ast.Statement>)
    ensures LeavesAbove(Shapes(ss), {}) <==> S.BreakAbove(ss)
  {
    hide Waits, Placed, Declared, Shapes, S.Breaks, S.Declares;
    forall i: nat | i < |ss|
      ensures Break in Waits(Shapes(ss)[i], {} + Placed(Shapes(ss)[..i]), true) && Declared(Shapes(ss)[i..]) > 0 <==> AboveAt(ss, i)
    {
      OneShape(ss, i);
    }
    if LeavesAbove(Shapes(ss), {}) {
      var i :| 0 <= i < |Shapes(ss)| && Break in Waits(Shapes(ss)[i], {} + Placed(Shapes(ss)[..i]), true) && Declared(Shapes(ss)[i..]) > 0;
      assert AboveAt(ss, i);
    }
    if S.BreakAbove(ss) {
      var i, j :| 0 <= i < j < |ss| && S.Breaks(ss[i]) && S.Declares(ss[j]);
      assert AboveAt(ss, i);
    }
  }

  lemma TailHas(ss: seq<Ast.Statement>, i: nat)
    requires i <= |ss|
    ensures (exists j :: 0 <= j < |ss[i..]| && S.Declares(ss[i..][j])) <==> exists j :: i <= j < |ss| && S.Declares(ss[j])
  {
    if j :| i <= j < |ss| && S.Declares(ss[j]) {
      assert ss[i..][j - i] == ss[j];
    }
  }
}
