/** Which labels the jumps out of a statement wait for, read off the program; and that the events of the statement
    lead to these. */
module JumpWaits {
  import opened Values
  import opened Jumps
  import opened JumpHistory
  import opened JumpSyntax
  import opened JumpNames

  /** The labels among the statements themselves. */
  function Placed(ss: seq<Statement>): set<Label> {
    set i | 0 <= i < |ss| && ss[i].LabelHere? :: Named(ss[i].name)
  }

  /** `visible` are the labels in front of the statement; `adds` is switched off for what was there before. */
  function Waits(st: Statement, visible: set<Label>, adds: bool): set<Label>
    decreases st, 1
  {
    match st
    case Do(body) => BodyWaits(body, visible, adds)
    case While(_, body) => BodyWaits(body, visible, adds) - {Break}
    case Repeat(statements, _) => ListWaits(statements, visible, {}, adds) - {Break}
    case For(_, _, _, body) => BodyWaits(body, visible, adds) - {Break}
    case If(arms) => ArmWaits(arms, visible, adds)
    case GotoLabel(name) => if adds && Named(name) !in visible then {Named(name)} else {}
    case BreakLoop => if adds && Break !in visible then {Break} else {}
    case _ => {}
  }

  function ListWaits(ss: seq<Statement>, visible: set<Label>, waiting: set<Label>, adds: bool): set<Label>
    decreases ss, 0
  {
    if ss == [] then waiting
    else
      var rest, st := ss[..|ss| - 1], ss[|ss| - 1];
      var before := ListWaits(rest, visible, waiting, adds);
      if st.LabelHere? then before - {Named(st.name)} else before + Waits(st, visible + Placed(rest), adds)
  }

  function BodyWaits(b: Body, visible: set<Label>, adds: bool): set<Label>
    decreases b, 1
  {
    match b.values
    case Some(_) => ListWaits(b.statements, visible, {}, adds)
    case None =>
      var n := Trailing(b.statements);
      assert n == |b.statements| ==> b.statements[..n] == b.statements;
      ListWaits(b.statements[..n], visible, {}, adds) - Placed(b.statements[n..])
  }

  function ArmWaits(arms: Arms, visible: set<Label>, adds: bool): set<Label>
    decreases arms, 1
  {
    match arms
    case Arm(_, body, rest) => BodyWaits(body, visible, adds) + ArmWaits(rest, visible, adds)
    case Else(body) => BodyWaits(body, visible, adds)
    case EndIf => {}
  }

  // Events that do not matter.

  predicate Silent(e: Event) {
    e.EmitOther? || e.MoveTop? || e.Capture? || (e.GoTo? && e.lab.Unique?) || (e.Place? && e.lab.Unique?)
  }

  predicate AllSilent(es: seq<Event>) {
    forall i :: 0 <= i < |es| ==> Silent(es[i])
  }

  lemma {:induction false} SilentFollowed(n: Names, es: seq<Event>, adds: bool)
    requires Open(n) && AllSilent(es)
    ensures FollowAll(n, es, adds) == n
    decreases |es|
  {
    if es != [] {
      assert Silent(es[0]) && Follow(n, es[0], adds) == n;
      SilentFollowed(n, es[1..], adds);
    }
  }

  lemma {:induction false} WorkSilent(ws: seq<Work>, level: nat, block: nat, k: nat)
    ensures AllSilent(WorkEvents(ws, level, block, k))
    decreases ws, 1
  {
    if ws != [] {
      WorkSilent(ws[..|ws| - 1], level, block, k);
      PartSilent(ws[|ws| - 1], level, block, k + WorkLabels(ws[..|ws| - 1]));
    }
  }

  lemma {:induction false} PartSilent(w: Work, level: nat, block: nat, k: nat)
    ensures AllSilent(PartEvents(w, level, block, k))
    decreases w, 0
  {
    if w.ShortCircuit? {
      WorkSilent(w.right, level, block, k + 1);
    }
  }

  // Blocks.

  ghost predicate Visible(n: Names, visible: set<Label>) {
    forall lab :: lab in visible <==> Sees(n, lab)
  }

  function Pushed(n: Names): Names {
    Names(n.labels + [{}], n.waits + [{}])
  }

  /** In the same block, with other jumps waiting. */
  predicate Ended(n: Names, n': Names, waiting: set<Label>) {
    && |n'.labels| == |n.labels| == |n.waits| > 0
    && n'.labels[..|n.labels| - 1] == n.labels[..|n.labels| - 1] && n'.waits == n.waits[|n.waits| - 1 := waiting]
  }

  /** More jumps wait in the current block. */
  function MoreWaiting(n: Names, more: set<Label>): Names
    requires Open(n)
  {
    n.(waits := n.waits[|n.waits| - 1 := n.waits[|n.waits| - 1] + more])
  }

  /** Behind statements of the current block. */
  function Listed(n: Names, ss: seq<Statement>, visible: set<Label>, adds: bool): Names
    requires Open(n)
  {
    var k := |n.labels| - 1;
    Names(n.labels[k := n.labels[k] + Placed(ss)], n.waits[k := ListWaits(ss, visible, n.waits[k], adds)])
  }

  lemma PushVisible(n: Names, visible: set<Label>)
    requires Open(n) && Visible(n, visible)
    ensures Open(Pushed(n)) && Visible(Pushed(n), visible)
  {
    forall lab ensures Sees(Pushed(n), lab) <==> Sees(n, lab) {
      if b :| 0 <= b < |n.labels| && lab in n.labels[b] {
        assert lab in Pushed(n).labels[b];
      }
    }
  }

  lemma ListVisible(n: Names, ss: seq<Statement>, visible: set<Label>, adds: bool)
    requires Open(n) && Visible(n, visible)
    ensures Open(Listed(n, ss, visible, adds)) && Visible(Listed(n, ss, visible, adds), visible + Placed(ss))
  {
    var n', k := Listed(n, ss, visible, adds), |n.labels| - 1;
    forall lab ensures Sees(n', lab) <==> Sees(n, lab) || lab in Placed(ss) {
      if b :| 0 <= b < |n.labels| && lab in n.labels[b] {
        assert lab in n'.labels[b];
      }
      if lab in Placed(ss) {
        assert lab in n'.labels[k];
      }
    }
  }

  /** A block ends inside another one. */
  lemma PopEnded(n: Names, n': Names, waiting: set<Label>, top: nat, adds: bool)
    requires Open(n) && Ended(Pushed(n), n', waiting)
    ensures Open(n') && Follow(n', Exit(top), adds) == MoreWaiting(n, waiting)
  {
    var k := |n.labels|;
    assert Pushed(n).labels[..k] == n.labels && n'.waits[..k] == n.waits;
  }

  lemma PlacedAppend(a: seq<Statement>, b: seq<Statement>)
    ensures Placed(a + b) == Placed(a) + Placed(b)
  {
    forall lab ensures lab in Placed(a + b) <==> lab in Placed(a) || lab in Placed(b) {
      if i :| 0 <= i < |a| && a[i].LabelHere? && Named(a[i].name) == lab {
        assert (a + b)[i] == a[i];
      }
      if i :| 0 <= i < |b| && b[i].LabelHere? && Named(b[i].name) == lab {
        assert (a + b)[|a| + i] == b[i];
      }
    }
  }

  lemma FollowThree(n: Names, a: seq<Event>, b: seq<Event>, c: seq<Event>, adds: bool)
    requires Open(n)
    ensures FollowAll(n, a + b + c, adds) == FollowAll(FollowAll(FollowAll(n, a, adds), b, adds), c, adds)
  {
    hide FollowAll;
    FollowAppend(n, a + b, c, adds);
    FollowAppend(n, a, b, adds);
  }

  // Statements.

  lemma ListedNone(n: Names, visible: set<Label>, adds: bool)
    requires Open(n)
    ensures Listed(n, [], visible, adds) == n
  {
    var k := |n.labels| - 1;
    assert Placed([]) == {} && n.labels[k] + {} == n.labels[k];
    assert n.labels[k := n.labels[k] + {}] == n.labels && n.waits[k := n.waits[k]] == n.waits;
  }

  lemma ListedMore(n: Names, ss: seq<Statement>, visible: set<Label>, adds: bool)
    requires Open(n) && ss != []
    ensures var rest, st := ss[..|ss| - 1], ss[|ss| - 1];
            Listed(n, ss, visible, adds)
            == if st.LabelHere? then Follow(Listed(n, rest, visible, adds), Place(Named(st.name)), adds)
               else MoreWaiting(Listed(n, rest, visible, adds), Waits(st, visible + Placed(rest), adds))
  {
    OneMorePlaced(ss);
    hide Placed, Waits;
    var k := |n.labels| - 1;
    var more := if ss[|ss| - 1].LabelHere? then {Named(ss[|ss| - 1].name)} else {};
    var a, b := n.labels[k] + Placed(ss[..|ss| - 1]), n.labels[k] + Placed(ss);
    assert a + more == b && n.labels[k := a][k := b] == n.labels[k := b];
    var c, d := ListWaits(ss[..|ss| - 1], visible, n.waits[k], adds), ListWaits(ss, visible, n.waits[k], adds);
    assert n.waits[k := c][k := d] == n.waits[k := d];
    if !ss[|ss| - 1].LabelHere? {
      assert a + {} == a;
    }
  }

  lemma {:induction false} ListFollowed(n: Names, ss: seq<Statement>, visible: set<Label>, level: nat, block: nat, k: nat, adds: bool)
    requires Open(n) && Visible(n, visible)
    ensures FollowAll(n, Events(ss, level, block, k), adds) == Listed(n, ss, visible, adds)
    decreases ss, 3
  {
    if ss == [] {
      ListedNone(n, visible, adds);
    } else {
      hide FollowAll, Follow, Visible, EventsOf, Waits, Placed, Listed, Declared, Labels;
      ListFollowed(n, ss[..|ss| - 1], visible, level, block, k, adds);
      ListVisible(n, ss[..|ss| - 1], visible, adds);
      ListedMore(n, ss, visible, adds);
      FollowSnoc(n, ss, level, block, k, adds);
      LastFollowed(Listed(n, ss[..|ss| - 1], visible, adds), ss[|ss| - 1], visible + Placed(ss[..|ss| - 1]),
                   level + Declared(ss[..|ss| - 1]), block, k + Labels(ss[..|ss| - 1]), adds);
    }
  }

  lemma FollowSnoc(n: Names, ss: seq<Statement>, level: nat, block: nat, k: nat, adds: bool)
    requires Open(n) && ss != []
    ensures var rest, st := ss[..|ss| - 1], ss[|ss| - 1];
            FollowAll(n, Events(ss, level, block, k), adds)
            == FollowAll(FollowAll(n, Events(rest, level, block, k), adds), EventsOf(st, level + Declared(rest), block, k + Labels(rest)), adds)
  {
    hide FollowAll, EventsOf, Declared, Labels;
    FollowAppend(n, Events(ss[..|ss| - 1], level, block, k),
                 EventsOf(ss[|ss| - 1], level + Declared(ss[..|ss| - 1]), block, k + Labels(ss[..|ss| - 1])), adds);
  }

  lemma {:induction false} LastFollowed(n: Names, st: Statement, visible: set<Label>, level: nat, block: nat, k: nat, adds: bool)
    requires Open(n) && Visible(n, visible)
    ensures FollowAll(n, EventsOf(st, level, block, k), adds)
            == if st.LabelHere? then Follow(n, Place(Named(st.name)), adds) else MoreWaiting(n, Waits(st, visible, adds))
    decreases st, 3
  {
    hide FollowAll, Follow, Visible, EventsOf, Waits;
    if st.LabelHere? {
      LabelFollowed(n, st, level, block, k, adds);
    } else {
      StatementFollowed(n, st, visible, level, block, k, adds);
    }
  }

  lemma OneMorePlaced(ss: seq<Statement>)
    requires ss != []
    ensures var st := ss[|ss| - 1];
            Placed(ss) == Placed(ss[..|ss| - 1]) + if st.LabelHere? then {Named(st.name)} else {}
  {
    var rest, st := ss[..|ss| - 1], ss[|ss| - 1];
    assert ss == rest + [st];
    PlacedAppend(rest, [st]);
    assert Placed([st]) == if st.LabelHere? then {Named(st.name)} else {} by {
      if st.LabelHere? {
        assert [st][0].LabelHere?;
      }
    }
  }

  lemma LabelFollowed(n: Names, st: Statement, level: nat, block: nat, k: nat, adds: bool)
    requires Open(n) && st.LabelHere?
    ensures FollowAll(n, EventsOf(st, level, block, k), adds) == Follow(n, Place(Named(st.name)), adds)
  {
    FollowOne(n, Place(Named(st.name)), adds);
  }

  lemma {:induction false} StatementFollowed(n: Names, st: Statement, visible: set<Label>, level: nat, block: nat, k: nat, adds: bool)
    requires Open(n) && Visible(n, visible) && !st.LabelHere?
    ensures FollowAll(n, EventsOf(st, level, block, k), adds) == MoreWaiting(n, Waits(st, visible, adds))
    decreases st, 2
  {
    hide FollowAll, Visible;
    match st {
      case Simple(work) => QuietFollowed(n, st, visible, level, block, k, adds);
      case Declares(work, count) => QuietFollowed(n, st, visible, level, block, k, adds);
      case Do(body) =>
        PushVisible(n, visible);
        BodyFollowed(Pushed(n), body, visible, level, block + 1, k, adds);
        DoFollowed(n, body, visible, level, block, k, adds);
      case While(condition, body) =>
        PushVisible(n, visible);
        BodyFollowed(Pushed(n), body, visible, level, block + 1, k + 2 + WorkLabels(condition), adds);
        WhileFollowed(n, condition, body, visible, level, block, k, adds);
      case Repeat(statements, until) =>
        PushVisible(n, visible);
        PushVisible(Pushed(n), visible);
        ListFollowed(Pushed(Pushed(n)), statements, visible, level, block + 2, k + 1, adds);
        RepeatFollowed(n, statements, until, visible, level, block, k, adds);
      case For(generic, control, names, body) =>
        PushVisible(n, visible);
        PushVisible(Pushed(n), visible);
        BodyFollowed(Pushed(Pushed(n)), body, visible, level + 3 + names, block + 2, k + 1 + WorkLabels(control), adds);
        ForFollowed(n, generic, control, names, body, visible, level, block, k, adds);
      case If(arms) => ArmsFollowed(n, arms, visible, level, block, k, k + 1, k + 2, adds);
      case GotoLabel(name) => JumpFollowed(n, st, Named(name), visible, level, block, k, adds);
      case BreakLoop => JumpFollowed(n, st, Break, visible, level, block, k, adds);
    }
  }

  lemma WaitingNone(n: Names)
    requires Open(n)
    ensures MoreWaiting(n, {}) == n
  {
    var k := |n.waits| - 1;
    assert n.waits[k] + {} == n.waits[k];
    assert n.waits[k := n.waits[k] + {}] == n.waits;
  }

  lemma QuietFollowed(n: Names, st: Statement, visible: set<Label>, level: nat, block: nat, k: nat, adds: bool)
    requires Open(n) && (st.Simple? || st.Declares?)
    ensures FollowAll(n, EventsOf(st, level, block, k), adds) == MoreWaiting(n, Waits(st, visible, adds))
  {
    WorkSilent(st.work, level, block, k);
    hide WorkEvents, FollowAll;
    SilentFollowed(n, EventsOf(st, level, block, k), adds);
    WaitingNone(n);
  }

  lemma JumpFollowed(n: Names, st: Statement, lab: Label, visible: set<Label>, level: nat, block: nat, k: nat, adds: bool)
    requires Open(n) && Visible(n, visible)
    requires (st.GotoLabel? && lab == Named(st.name)) || (st.BreakLoop? && lab == Break)
    ensures FollowAll(n, EventsOf(st, level, block, k), adds) == MoreWaiting(n, Waits(st, visible, adds))
  {
    FollowOne(n, GoTo(lab), adds);
    WaitingNone(n);
    assert lab in visible <==> Sees(n, lab);
  }

  // Bodies.

  lemma {:induction false} BodyFollowed(n: Names, b: Body, visible: set<Label>, level: nat, block: nat, k: nat, adds: bool)
    requires Open(n) && Visible(n, visible) && n.waits[|n.waits| - 1] == {}
    ensures Ended(n, FollowAll(n, BodyEvents(b, level, block, k), adds), BodyWaits(b, visible, adds))
    decreases b, 4
  {
    hide FollowAll, Visible;
    match b.values {
      case Some(values) =>
        ListFollowed(n, b.statements, visible, level, block, k, adds);
        LoopFollowed(n, b.statements, values, visible, level, block, k, adds);
      case None =>
        var m := Trailing(b.statements);
        assert m == |b.statements| ==> b.statements[..m] == b.statements;
        PushVisible(n, visible);
        ListFollowed(Pushed(n), b.statements[..m], visible, level, block + 1, k, adds);
        BlockFollowed(n, b.statements, m, visible, level, block, k, adds);
    }
  }

  lemma LoopFollowed(n: Names, ss: seq<Statement>, values: seq<Work>, visible: set<Label>, level: nat, block: nat, k: nat, adds: bool)
    requires Open(n) && FollowAll(n, Events(ss, level, block, k), adds) == Listed(n, ss, visible, adds)
    ensures FollowAll(n, LoopEvents(ss, values, level, block, k), adds) == Listed(n, ss, visible, adds)
    ensures n.waits[|n.waits| - 1] == {} ==>
              Ended(n, FollowAll(n, LoopEvents(ss, values, level, block, k), adds), ListWaits(ss, visible, {}, adds))
  {
    LoopIsList(n, ss, values, level, block, k, adds);
    hide FollowAll, Events, LoopEvents, Placed, ListWaits;
    if n.waits[|n.waits| - 1] == {} {
      ListedEnded(n, ss, visible, adds);
    }
  }

  lemma ListedEnded(n: Names, ss: seq<Statement>, visible: set<Label>, adds: bool)
    requires Open(n)
    ensures Ended(n, Listed(n, ss, visible, adds), ListWaits(ss, visible, n.waits[|n.waits| - 1], adds))
  {
    hide ListWaits, Placed;
  }

  lemma LoopIsList(n: Names, ss: seq<Statement>, values: seq<Work>, level: nat, block: nat, k: nat, adds: bool)
    requires Open(n)
    ensures FollowAll(n, LoopEvents(ss, values, level, block, k), adds) == FollowAll(n, Events(ss, level, block, k), adds)
  {
    ValuesSilent(values, level + Declared(ss), block, k + Labels(ss));
    hide FollowAll, Events, WorkEvents, Declared, Labels, AllSilent;
    var tail := WorkEvents(values, level + Declared(ss), block, k + Labels(ss)) + [MoveTop(level + Declared(ss))];
    FollowAppend(n, Events(ss, level, block, k), tail, adds);
    assert Events(ss, level, block, k) + tail == LoopEvents(ss, values, level, block, k);
    SilentFollowed(FollowAll(n, Events(ss, level, block, k), adds), tail, adds);
  }

  lemma ValuesSilent(values: seq<Work>, end: nat, block: nat, k: nat)
    ensures AllSilent(WorkEvents(values, end, block, k) + [MoveTop(end)])
  {
    WorkSilent(values, end, block, k);
  }

  lemma BlockFollowed(n: Names, ss: seq<Statement>, m: nat, visible: set<Label>, level: nat, block: nat, k: nat, adds: bool)
    requires Open(n) && n.waits[|n.waits| - 1] == {} && m <= |ss| && forall i :: m <= i < |ss| ==> ss[i].LabelHere?
    requires FollowAll(Pushed(n), Events(ss[..m], level, block + 1, k), adds) == Listed(Pushed(n), ss[..m], visible, adds)
    ensures Ended(n, FollowAll(n, [Enter] + Events(ss[..m], level, block + 1, k) + [Exit(level)] + LabelEvents(ss[m..]), adds),
                  ListWaits(ss[..m], visible, {}, adds) - Placed(ss[m..]))
  {
    hide FollowAll, Events, ListWaits, Placed, LabelEvents;
    FollowAppend(n, [Enter] + Events(ss[..m], level, block + 1, k) + [Exit(level)], LabelEvents(ss[m..]), adds);
    FollowThree(n, [Enter], Events(ss[..m], level, block + 1, k), [Exit(level)], adds);
    FollowOne(n, Enter, adds);
    assert Follow(n, Enter, adds) == Pushed(n);
    var n2, waiting := Listed(Pushed(n), ss[..m], visible, adds), ListWaits(ss[..m], visible, {}, adds);
    FollowOne(n2, Exit(level), adds);
    PopEnded(n, n2, waiting, level, adds);
    LabelsFollowed(MoreWaiting(n, waiting), ss[m..], adds);
    var k1 := |n.waits| - 1;
    assert {} + waiting == waiting && n.waits[k1 := waiting][k1 := waiting - Placed(ss[m..])] == n.waits[k1 := waiting - Placed(ss[m..])];
  }

  lemma {:induction false} LabelsFollowed(n: Names, ss: seq<Statement>, adds: bool)
    requires Open(n) && forall i :: 0 <= i < |ss| ==> ss[i].LabelHere?
    ensures var n' := FollowAll(n, LabelEvents(ss), adds);
            Ended(n, n', n.waits[|n.waits| - 1] - Placed(ss))
    decreases |ss|
  {
    var k := |n.waits| - 1;
    if ss == [] {
      assert Placed([]) == {} && n.waits[k] - {} == n.waits[k];
      assert n.waits[k := n.waits[k] - {}] == n.waits;
    } else {
      var lab, rest := Named(ss[0].name), ss[1..];
      assert LabelEvents(ss) == [Place(lab)] + LabelEvents(rest);
      FollowAppend(n, [Place(lab)], LabelEvents(rest), adds);
      FollowOne(n, Place(lab), adds);
      PlacedFirst(ss);
      hide FollowAll, Placed, LabelEvents;
      var n1 := Follow(n, Place(lab), adds);
      LabelsFollowed(n1, rest, adds);
      assert n.waits[k] - {lab} - Placed(rest) == n.waits[k] - Placed(ss);
      assert n.waits[k := n.waits[k] - {lab}][k := n.waits[k] - Placed(ss)] == n.waits[k := n.waits[k] - Placed(ss)];
    }
  }

  lemma PlacedFirst(ss: seq<Statement>)
    requires ss != [] && ss[0].LabelHere?
    ensures Placed(ss) == {Named(ss[0].name)} + Placed(ss[1..])
  {
    assert ss == [ss[0]] + ss[1..];
    PlacedAppend([ss[0]], ss[1..]);
    assert Placed([ss[0]]) == {Named(ss[0].name)} by {
      assert [ss[0]][0].LabelHere?;
    }
  }

  // Statements with bodies.

  lemma DoFollowed(n: Names, body: Body, visible: set<Label>, level: nat, block: nat, k: nat, adds: bool)
    requires Open(n) && Open(Pushed(n))
    requires Ended(Pushed(n), FollowAll(Pushed(n), BodyEvents(body, level, block + 1, k), adds), BodyWaits(body, visible, adds))
    ensures FollowAll(n, EventsOf(Do(body), level, block, k), adds) == MoreWaiting(n, Waits(Do(body), visible, adds))
  {
    hide FollowAll, BodyEvents, BodyWaits;
    FollowThree(n, [Enter], BodyEvents(body, level, block + 1, k), [Exit(level)], adds);
    FollowOne(n, Enter, adds);
    var n2 := FollowAll(Pushed(n), BodyEvents(body, level, block + 1, k), adds);
    PopEnded(n, n2, BodyWaits(body, visible, adds), level, adds);
    FollowOne(n2, Exit(level), adds);
  }

  /** The end of a loop's block, whose `break`s have been met. */
  lemma BreakEnded(n: Names, n': Names, waiting: set<Label>, adds: bool)
    requires Ended(n, n', waiting)
    ensures Open(n') && Ended(n, Follow(n', Place(Break), adds), waiting - {Break})
  {
    var k := |n.waits| - 1;
    assert n.waits[k := waiting][k := waiting - {Break}] == n.waits[k := waiting - {Break}];
  }

  lemma WhileFollowed(n: Names, condition: seq<Work>, body: Body, visible: set<Label>, level: nat, block: nat, k: nat, adds: bool)
    requires Open(n) && Open(Pushed(n))
    requires var k' := k + 2 + WorkLabels(condition);
             Ended(Pushed(n), FollowAll(Pushed(n), BodyEvents(body, level, block + 1, k'), adds), BodyWaits(body, visible, adds))
    ensures FollowAll(n, EventsOf(While(condition, body), level, block, k), adds) == MoreWaiting(n, Waits(While(condition, body), visible, adds))
  {
    var k' := k + 2 + WorkLabels(condition);
    var tail := [GoTo(Unique(k)), Place(Break), Exit(level), Place(Unique(k + 1))];
    TestFollowed(n, condition, level, block, k, k + 1, adds);
    hide FollowAll, BodyEvents, BodyWaits, TestHead, WorkLabels;
    FollowThree(n, TestHead(condition, level, block, k, k + 1), BodyEvents(body, level, block + 1, k'), tail, adds);
    WhileEnded(n, FollowAll(Pushed(n), BodyEvents(body, level, block + 1, k'), adds), BodyWaits(body, visible, adds), level, k, adds);
  }

  lemma TestFollowed(n: Names, condition: seq<Work>, level: nat, block: nat, placed: nat, skip: nat, adds: bool)
    requires Open(n)
    ensures FollowAll(n, TestHead(condition, level, block, placed, skip), adds) == Pushed(n)
  {
    var front := [Place(Unique(placed))] + WorkEvents(condition, level, block, skip + 1) + [MoveTop(level), GoTo(Unique(skip))];
    WorkSilent(condition, level, block, skip + 1);
    assert AllSilent(front);
    assert TestHead(condition, level, block, placed, skip) == front + [Enter];
    hide FollowAll, WorkEvents, TestHead;
    FollowAppend(n, front, [Enter], adds);
    SilentFollowed(n, front, adds);
    FollowOne(n, Enter, adds);
  }

  lemma WhileEnded(n: Names, n2: Names, waiting: set<Label>, level: nat, k: nat, adds: bool)
    requires Open(n) && Ended(Pushed(n), n2, waiting)
    ensures Open(n2)
            && FollowAll(n2, [GoTo(Unique(k)), Place(Break), Exit(level), Place(Unique(k + 1))], adds) == MoreWaiting(n, waiting - {Break})
  {
    var e1, e2, e3, e4 := GoTo(Unique(k)), Place(Break), Exit(level), Place(Unique(k + 1));
    assert [e1, e2, e3, e4] == [e1] + [e2] + ([e3] + [e4]);
    BreakEnded(Pushed(n), n2, waiting, adds);
    PopEnded(n, Follow(n2, e2, adds), waiting - {Break}, level, adds);
    hide FollowAll;
    FollowThree(n2, [e1], [e2], [e3] + [e4], adds);
    FollowOne(n2, e1, adds);
    FollowOne(n2, e2, adds);
    var n3 := Follow(n2, e2, adds);
    FollowAppend(n3, [e3], [e4], adds);
    FollowOne(n3, e3, adds);
    FollowOne(Follow(n3, e3, adds), e4, adds);
  }

  lemma RepeatFollowed(n: Names, ss: seq<Statement>, until: seq<Work>, visible: set<Label>, level: nat, block: nat, k: nat, adds: bool)
    requires Open(n)
    requires var n1 := Pushed(Pushed(n)); FollowAll(n1, Events(ss, level, block + 2, k + 1), adds) == Listed(n1, ss, visible, adds)
    ensures FollowAll(n, EventsOf(Repeat(ss, until), level, block, k), adds) == MoreWaiting(n, Waits(Repeat(ss, until), visible, adds))
  {
    LoopFollowed(Pushed(Pushed(n)), ss, until, visible, level, block + 2, k + 1, adds);
    hide FollowAll, LoopEvents, ListWaits, Listed;
    FollowThree(n, [Enter, Enter, Place(Unique(k))], LoopEvents(ss, until, level, block + 2, k + 1),
                [GoTo(Unique(k)), Exit(level), Place(Break), Exit(level)], adds);
    RepeatHeadFollowed(n, k, adds);
    RepeatEnded(n, FollowAll(Pushed(Pushed(n)), LoopEvents(ss, until, level, block + 2, k + 1), adds), ListWaits(ss, visible, {}, adds),
                level, k, adds);
  }

  lemma RepeatHeadFollowed(n: Names, k: nat, adds: bool)
    requires Open(n)
    ensures FollowAll(n, [Enter, Enter, Place(Unique(k))], adds) == Pushed(Pushed(n))
  {
    assert [Enter, Enter, Place(Unique(k))] == [Enter, Enter] + [Place(Unique(k))];
    hide FollowAll;
    TwiceFollowed(n, [Place(Unique(k))], adds);
    FollowOne(Pushed(Pushed(n)), Place(Unique(k)), adds);
  }

  lemma RepeatEnded(n: Names, n2: Names, waiting: set<Label>, level: nat, k: nat, adds: bool)
    requires Open(n) && Ended(Pushed(Pushed(n)), n2, waiting)
    ensures Open(n2) && FollowAll(n2, [GoTo(Unique(k)), Exit(level), Place(Break), Exit(level)], adds) == MoreWaiting(n, waiting - {Break})
  {
    assert [GoTo(Unique(k)), Exit(level), Place(Break), Exit(level)] == [GoTo(Unique(k))] + [Exit(level)] + [] + [Place(Break), Exit(level)] + [];
    hide FollowAll;
    InnerEnded(n, n2, waiting, [GoTo(Unique(k))], level, level, [], [], adds);
  }

  lemma TwiceFollowed(n: Names, es: seq<Event>, adds: bool)
    requires Open(n)
    ensures FollowAll(n, [Enter, Enter] + es, adds) == FollowAll(Pushed(Pushed(n)), es, adds)
  {
    assert [Enter, Enter] + es == [Enter] + [Enter] + es;
    hide FollowAll;
    FollowThree(n, [Enter], [Enter], es, adds);
    FollowOne(n, Enter, adds);
    FollowOne(Pushed(n), Enter, adds);
  }

  /** Out of two blocks, with the `break`s met in the outer one. */
  lemma InnerEnded(n: Names, n2: Names, waiting: set<Label>, a: seq<Event>, top: nat, top': nat, b: seq<Event>, c: seq<Event>, adds: bool)
    requires Open(n) && Ended(Pushed(Pushed(n)), n2, waiting) && AllSilent(a) && AllSilent(b) && AllSilent(c)
    ensures Open(n2)
            && FollowAll(n2, a + [Exit(top)] + b + [Place(Break), Exit(top')] + c, adds) == MoreWaiting(n, waiting - {Break})
  {
    PopEnded(Pushed(n), n2, waiting, top, adds);
    var n3 := MoreWaiting(Pushed(n), waiting);
    assert Ended(Pushed(n), n3, waiting) by {
      assert {} + waiting == waiting;
    }
    BreakEnded(Pushed(n), n3, waiting, adds);
    PopEnded(n, Follow(n3, Place(Break), adds), waiting - {Break}, top', adds);
    hide FollowAll, Follow;
    var n4 := Follow(Follow(n3, Place(Break), adds), Exit(top'), adds);
    FollowAppend(n2, a + [Exit(top)] + b + [Place(Break), Exit(top')], c, adds);
    FollowAppend(n2, a + [Exit(top)] + b, [Place(Break), Exit(top')], adds);
    FollowThree(n2, a, [Exit(top)], b, adds);
    SilentFollowed(n2, a, adds);
    FollowOne(n2, Exit(top), adds);
    SilentFollowed(n3, b, adds);
    assert [Place(Break), Exit(top')] == [Place(Break)] + [Exit(top')];
    FollowAppend(n3, [Place(Break)], [Exit(top')], adds);
    FollowOne(n3, Place(Break), adds);
    FollowOne(Follow(n3, Place(Break), adds), Exit(top'), adds);
    SilentFollowed(n4, c, adds);
  }

  lemma ForFollowed(n: Names, generic: bool, control: seq<Work>, names: nat, body: Body, visible: set<Label>, level: nat, block: nat, k: nat, adds: bool)
    requires Open(n)
    requires var n1, k' := Pushed(Pushed(n)), k + 1 + WorkLabels(control);
             Ended(n1, FollowAll(n1, BodyEvents(body, level + 3 + names, block + 2, k'), adds), BodyWaits(body, visible, adds))
    ensures FollowAll(n, EventsOf(For(generic, control, names, body), level, block, k), adds)
            == MoreWaiting(n, Waits(For(generic, control, names, body), visible, adds))
  {
    hide FollowAll, BodyEvents, BodyWaits, ForHead, ForTail, WorkLabels;
    ForSplit(n, generic, control, names, body, level, block, k, adds);
    ForEnded(n, FollowAll(Pushed(Pushed(n)), BodyEvents(body, level + 3 + names, block + 2, k + 1 + WorkLabels(control)), adds),
             BodyWaits(body, visible, adds), generic, level, k, adds);
  }

  lemma ForSplit(n: Names, generic: bool, control: seq<Work>, names: nat, body: Body, level: nat, block: nat, k: nat, adds: bool)
    requires Open(n)
    ensures FollowAll(n, EventsOf(For(generic, control, names, body), level, block, k), adds)
            == FollowAll(FollowAll(Pushed(Pushed(n)), BodyEvents(body, level + 3 + names, block + 2, k + 1 + WorkLabels(control)), adds),
                         ForTail(generic, level, k), adds)
  {
    hide FollowAll, BodyEvents, ForHead, ForTail, WorkLabels;
    ForHeadFollowed(n, generic, control, names, level, block, k, adds);
    FollowThree(n, ForHead(generic, control, names, level, block, k), BodyEvents(body, level + 3 + names, block + 2, k + 1 + WorkLabels(control)),
                ForTail(generic, level, k), adds);
  }

  lemma ForEnded(n: Names, n2: Names, waiting: set<Label>, generic: bool, level: nat, k: nat, adds: bool)
    requires Open(n) && Ended(Pushed(Pushed(n)), n2, waiting)
    ensures Open(n2) && FollowAll(n2, ForTail(generic, level, k), adds) == MoreWaiting(n, waiting - {Break})
  {
    var mark := if generic then [Place(Unique(k))] else [];
    assert ForTail(generic, level, k)
           == [] + [Exit(level + 3)] + (mark + [EmitOther(0)]) + [Place(Break), Exit(level + 3)] + [MoveTop(level)];
    hide FollowAll, ForTail;
    InnerEnded(n, n2, waiting, [], level + 3, level + 3, mark + [EmitOther(0)], [MoveTop(level)], adds);
  }

  lemma ForHeadFollowed(n: Names, generic: bool, control: seq<Work>, names: nat, level: nat, block: nat, k: nat, adds: bool)
    requires Open(n)
    ensures FollowAll(n, ForHead(generic, control, names, level, block, k), adds) == Pushed(Pushed(n))
  {
    var front := WorkEvents(control, level, block, k + 1) + [MoveTop(level + 3), EmitOther(0)];
    var back := [MoveTop(level + 3 + names)] + if generic then [GoTo(Unique(k))] else [];
    WorkSilent(control, level, block, k + 1);
    assert AllSilent(front) && AllSilent(back);
    assert ForHead(generic, control, names, level, block, k) == front + ([Enter, Enter] + back);
    hide FollowAll, WorkEvents, ForHead;
    FollowAppend(n, front, [Enter, Enter] + back, adds);
    SilentFollowed(n, front, adds);
    TwiceFollowed(n, back, adds);
    SilentFollowed(Pushed(Pushed(n)), back, adds);
  }

  lemma {:induction false} ArmsFollowed(n: Names, arms: Arms, visible: set<Label>, level: nat, block: nat, end: nat, next: nat, k: nat, adds: bool)
    requires Open(n) && Visible(n, visible)
    ensures FollowAll(n, ArmEvents(arms, level, block, end, next, k), adds) == MoreWaiting(n, ArmWaits(arms, visible, adds))
    decreases arms, 6
  {
    hide FollowAll, Visible;
    PushVisible(n, visible);
    match arms {
      case Arm(condition, body, rest) =>
        var k' := k + 1 + WorkLabels(condition);
        BodyFollowed(Pushed(n), body, visible, level, block + 1, k', adds);
        OneArmFollowed(n, condition, body, rest.EndIf?, visible, level, block, end, next, k, adds);
        var n1 := MoreWaiting(n, BodyWaits(body, visible, adds));
        WaitingVisible(n, BodyWaits(body, visible, adds), visible);
        ArmsFollowed(n1, rest, visible, level, block, end, k, k' + BodyLabels(body), adds);
        WaitingTwice(n, BodyWaits(body, visible, adds), ArmWaits(rest, visible, adds));
        FollowAppend(n, OneArm(condition, body, rest.EndIf?, level, block, end, next, k),
                     ArmEvents(rest, level, block, end, k, k' + BodyLabels(body)), adds);
      case Else(body) =>
        BodyFollowed(Pushed(n), body, visible, level, block + 1, k, adds);
        ElseFollowed(n, body, visible, level, block, end, next, k, adds);
      case EndIf =>
        SilentFollowed(n, ArmEvents(arms, level, block, end, next, k), adds);
        WaitingNone(n);
    }
  }

  lemma WaitingVisible(n: Names, more: set<Label>, visible: set<Label>)
    requires Open(n) && Visible(n, visible)
    ensures Open(MoreWaiting(n, more)) && Visible(MoreWaiting(n, more), visible)
  {
    forall lab ensures Sees(MoreWaiting(n, more), lab) <==> Sees(n, lab) {
    }
  }

  lemma WaitingTwice(n: Names, a: set<Label>, b: set<Label>)
    requires Open(n)
    ensures MoreWaiting(MoreWaiting(n, a), b) == MoreWaiting(n, a + b)
  {
    var k := |n.waits| - 1;
    assert n.waits[k] + a + b == n.waits[k] + (a + b);
    assert n.waits[k := n.waits[k] + a][k := n.waits[k] + a + b] == n.waits[k := n.waits[k] + (a + b)];
  }

  lemma OneArmFollowed(n: Names, condition: seq<Work>, body: Body, last: bool, visible: set<Label>, level: nat, block: nat, end: nat, next: nat,
                       k: nat, adds: bool)
    requires Open(n) && Open(Pushed(n))
    requires var k' := k + 1 + WorkLabels(condition);
             Ended(Pushed(n), FollowAll(Pushed(n), BodyEvents(body, level, block + 1, k'), adds), BodyWaits(body, visible, adds))
    ensures FollowAll(n, OneArm(condition, body, last, level, block, end, next, k), adds) == MoreWaiting(n, BodyWaits(body, visible, adds))
  {
    var k', jump := k + 1 + WorkLabels(condition), if last then [] else [GoTo(Unique(end))];
    assert AllSilent(jump);
    TestFollowed(n, condition, level, block, next, k, adds);
    hide FollowAll, BodyEvents, BodyWaits, TestHead, WorkLabels;
    FollowThree(n, TestHead(condition, level, block, next, k), BodyEvents(body, level, block + 1, k'), jump + [Exit(level)], adds);
    var n2 := FollowAll(Pushed(n), BodyEvents(body, level, block + 1, k'), adds);
    PopEnded(n, n2, BodyWaits(body, visible, adds), level, adds);
    FollowAppend(n2, jump, [Exit(level)], adds);
    SilentFollowed(n2, jump, adds);
    FollowOne(n2, Exit(level), adds);
  }

  lemma ElseFollowed(n: Names, body: Body, visible: set<Label>, level: nat, block: nat, end: nat, next: nat, k: nat, adds: bool)
    requires Open(n) && Open(Pushed(n))
    requires Ended(Pushed(n), FollowAll(Pushed(n), BodyEvents(body, level, block + 1, k), adds), BodyWaits(body, visible, adds))
    ensures FollowAll(n, ArmEvents(Else(body), level, block, end, next, k), adds) == MoreWaiting(n, BodyWaits(body, visible, adds))
  {
    hide FollowAll, BodyEvents, BodyWaits;
    assert [Place(Unique(next)), Enter] == [Place(Unique(next))] + [Enter];
    assert [Exit(level), Place(Unique(end))] == [Exit(level)] + [Place(Unique(end))];
    FollowThree(n, [Place(Unique(next)), Enter], BodyEvents(body, level, block + 1, k), [Exit(level), Place(Unique(end))], adds);
    FollowAppend(n, [Place(Unique(next))], [Enter], adds);
    FollowOne(n, Place(Unique(next)), adds);
    FollowOne(n, Enter, adds);
    var n2 := FollowAll(Pushed(n), BodyEvents(body, level, block + 1, k), adds);
    PopEnded(n, n2, BodyWaits(body, visible, adds), level, adds);
    FollowAppend(n2, [Exit(level)], [Place(Unique(end))], adds);
    FollowOne(n2, Exit(level), adds);
    FollowOne(MoreWaiting(n, BodyWaits(body, visible, adds)), Place(Unique(end)), adds);
  }
}
