/** The jumps that wait behind a list of statements are those that the program shows: for each statement, and for each
    label. */
module JumpCrossings {
  import opened Values
  import opened Jumps
  import opened JumpHistory
  import opened JumpSteps
  import opened JumpSyntax
  import opened JumpRuns
  import opened JumpParts
  import opened JumpFailures
  import opened JumpLists
  import opened JumpNames
  import opened JumpWaits
  import opened JumpPanics

  // Visible labels.

  ghost function Visibles(s: State): set<Label> {
    set t | t in s.targets && !t.lab.Unique? :: t.lab
  }

  lemma ShownVisible(n: Names, s: State, from: nat, end: nat, adds: bool)
    requires Reached(s) && Shows(n, s, from, end, adds)
    ensures Open(n) && Visible(n, Visibles(s))
  {
    ReachedBlocks(s);
    hide Reached;
    forall lab ensures lab in Visibles(s) <==> Sees(n, lab) {
      if lab in Visibles(s) {
        var t :| t in s.targets && !t.lab.Unique? && t.lab == lab;
        assert LabelIn(s, t.blockIndex, lab);
      }
      if b :| 0 <= b < |n.labels| && lab in n.labels[b] {
        assert LabelIn(s, b, lab);
      }
    }
  }

  lemma VisibleOnce(n: Names, a: set<Label>, b: set<Label>)
    requires Visible(n, a) && Visible(n, b)
    ensures a == b
  {
    forall lab ensures lab in a <==> lab in b {
      assert lab in a <==> Sees(n, lab);
    }
  }

  /** After events, the visible labels are those of the names that the events lead to. */
  lemma VisiblesAfter(s: State, es: seq<Event>, s': State, visible: set<Label>)
    requires Reached(s) && Perform(s, es) == Next(s') && s.blocks != []
    requires var n := NamesOf(s, 0, 0, true); Open(n) && Visible(FollowAll(n, es, true), visible)
    ensures Visibles(s') == visible
  {
    var n := NamesOf(s, 0, 0, true);
    hide NamesOf, Reached, Perform, FollowAll, Visible, Visibles, Shows;
    NamesShown(s, 0, 0, true);
    ShowsAll(n, s, es, 0, 0, true);
    StillAll(s, es);
    ShownVisible(FollowAll(n, es, true), s', 0, 0, true);
    VisibleOnce(FollowAll(n, es, true), Visibles(s'), visible);
  }

  lemma {:induction false} StillAll(s: State, es: seq<Event>)
    requires Reached(s) && Perform(s, es).Next?
    ensures Reached(Perform(s, es).state)
    decreases |es|
  {
    hide Reached, Apply;
    if es != [] {
      StillReached(s, es[0]);
      StillAll(Apply(s, es[0]).state, es[1..]);
    }
  }

  lemma StartVisible(s: State)
    requires Reached(s)
    ensures s.blocks != [] && Open(NamesOf(s, 0, 0, true)) && Visible(NamesOf(s, 0, 0, true), Visibles(s))
  {
    ReachedBlocks(s);
    hide Reached, NamesOf, Shows, Visibles, Visible;
    NamesShown(s, 0, 0, true);
    ShownVisible(NamesOf(s, 0, 0, true), s, 0, 0, true);
  }

  lemma ListVisibles(s: State, ss: seq<Statement>, s': State, level: nat, block: nat, k: nat)
    requires Reached(s) && Perform(s, Events(ss, level, block, k)) == Next(s')
    ensures Visibles(s') == Visibles(s) + Placed(ss)
  {
    var n := NamesOf(s, 0, 0, true);
    hide NamesOf, Reached, Perform, FollowAll, Visible, Visibles, Events, Placed, Listed;
    StartVisible(s);
    ListFollowed(n, ss, Visibles(s), level, block, k, true);
    ListVisible(n, ss, Visibles(s), true);
    VisiblesAfter(s, Events(ss, level, block, k), s', Visibles(s) + Placed(ss));
  }

  // Lists in two parts.

  lemma {:induction false} LabelsSplit(ss: seq<Statement>, m: nat)
    requires m <= |ss|
    ensures Labels(ss) == Labels(ss[..m]) + Labels(ss[m..])
    decreases |ss|
  {
    if m == |ss| {
      assert ss[..m] == ss && ss[m..] == [];
    } else {
      LabelsSplit(ss[..|ss| - 1], m);
      assert ss[..|ss| - 1][..m] == ss[..m] && ss[m..][..|ss| - m - 1] == ss[..|ss| - 1][m..];
    }
  }

  lemma {:induction false} EventsSplit(ss: seq<Statement>, m: nat, level: nat, block: nat, k: nat)
    requires m <= |ss|
    ensures Events(ss, level, block, k)
            == Events(ss[..m], level, block, k) + Events(ss[m..], level + Declared(ss[..m]), block, k + Labels(ss[..m]))
    decreases |ss|
  {
    hide Events, Declared, Labels;
    if m == |ss| {
      NoEvents(level + Declared(ss), block, k + Labels(ss));
      assert ss[..m] == ss && ss[m..] == [];
    } else {
      EventsSplit(ss[..|ss| - 1], m, level, block, k);
      SplitMore(ss, m, level, block, k);
    }
  }

  lemma NoEvents(level: nat, block: nat, k: nat)
    ensures Events([], level, block, k) == []
  {
  }

  lemma SplitMore(ss: seq<Statement>, m: nat, level: nat, block: nat, k: nat)
    requires m < |ss|
    requires var rest := ss[..|ss| - 1];
             Events(rest, level, block, k)
             == Events(rest[..m], level, block, k) + Events(rest[m..], level + Declared(rest[..m]), block, k + Labels(rest[..m]))
    ensures Events(ss, level, block, k)
            == Events(ss[..m], level, block, k) + Events(ss[m..], level + Declared(ss[..m]), block, k + Labels(ss[..m]))
  {
    hide Events, EventsOf, Declared, Labels;
    SplitSnoc(ss, m);
    LastEvents(ss, level, block, k);
    LastEvents(ss[m..], level + Declared(ss[..m]), block, k + Labels(ss[..m]));
  }

  lemma LastEvents(ss: seq<Statement>, level: nat, block: nat, k: nat)
    requires ss != []
    ensures Events(ss, level, block, k)
            == Events(ss[..|ss| - 1], level, block, k)
               + EventsOf(ss[|ss| - 1], level + Declared(ss[..|ss| - 1]), block, k + Labels(ss[..|ss| - 1]))
  {
    hide EventsOf, Declared, Labels;
  }

  lemma SplitSnoc(ss: seq<Statement>, m: nat)
    requires m < |ss|
    ensures ss[..|ss| - 1][..m] == ss[..m] && ss[m..][..|ss[m..]| - 1] == ss[..|ss| - 1][m..]
    ensures Declared(ss[..|ss| - 1]) == Declared(ss[..m]) + Declared(ss[..|ss| - 1][m..])
    ensures Labels(ss[..|ss| - 1]) == Labels(ss[..m]) + Labels(ss[..|ss| - 1][m..])
  {
    DeclaredSplit(ss[..|ss| - 1], m);
    LabelsSplit(ss[..|ss| - 1], m);
    assert ss[..|ss| - 1][..m] == ss[..m];
  }

  lemma {:induction false} NothingFollowed(st: Statement, visible: set<Label>)
    ensures Waits(st, visible, false) == {}
    decreases st, 1
  {
    match st {
      case Do(body) => NoneInBody(body, visible);
      case While(_, body) => NoneInBody(body, visible);
      case Repeat(statements, _) => StillWait(statements, visible, {});
      case For(_, _, _, body) => NoneInBody(body, visible);
      case If(arms) => NoneInArms(arms, visible);
      case _ =>
    }
  }

  lemma {:induction false} StillWait(ss: seq<Statement>, visible: set<Label>, waiting: set<Label>)
    ensures ListWaits(ss, visible, waiting, false) == waiting - Placed(ss)
    decreases ss, 0
  {
    if ss != [] {
      StillWait(ss[..|ss| - 1], visible, waiting);
      NothingFollowed(ss[|ss| - 1], visible + Placed(ss[..|ss| - 1]));
      OneMorePlaced(ss);
    }
  }

  lemma {:induction false} NoneInBody(b: Body, visible: set<Label>)
    ensures BodyWaits(b, visible, false) == {}
    decreases b, 1
  {
    var n := if b.values.Some? then |b.statements| else Trailing(b.statements);
    assert n == |b.statements| ==> b.statements[..n] == b.statements;
    StillWait(b.statements[..n], visible, {});
  }

  lemma {:induction false} NoneInArms(arms: Arms, visible: set<Label>)
    ensures ArmWaits(arms, visible, false) == {}
    decreases arms, 1
  {
    match arms {
      case Arm(_, body, rest) =>
        NoneInBody(body, visible);
        NoneInArms(rest, visible);
      case Else(body) => NoneInBody(body, visible);
      case EndIf =>
    }
  }

  // Jumps out of one statement.

  /** The list's statements up to one of them. */
  lemma Reaches(s: State, ss: seq<Statement>, i: nat, level: nat, block: nat, k: nat)
    requires Ready(s, level, block, k) && Vacant(s) && Perform(s, Events(ss, level, block, k)).Next? && i <= |ss|
    ensures var o := After(s, ss, i, level, block, k);
            o.Next? && Ready(o.state, level + Declared(ss[..i]), block, k + Labels(ss[..i])) && Reached(o.state)
  {
    hide Perform, Events, Ready, Vacant, ListSettled, Reached, Declared, Labels;
    PrefixRuns(s, ss, i, level, block, k);
    ListRuns(s, ss[..i], level, block, k);
    Settles(s, ss[..i], level, block, k);
  }

  lemma PrefixRuns(s: State, ss: seq<Statement>, i: nat, level: nat, block: nat, k: nat)
    requires i <= |ss| && Perform(s, Events(ss, level, block, k)).Next?
    ensures var o := After(s, ss, i, level, block, k);
            o.Next?
            && Perform(s, Events(ss, level, block, k))
               == Perform(o.state, Events(ss[i..], level + Declared(ss[..i]), block, k + Labels(ss[..i])))
  {
    hide Perform, Events, Declared, Labels;
    EventsSplit(ss, i, level, block, k);
    PerformAppend(s, Events(ss[..i], level, block, k), Events(ss[i..], level + Declared(ss[..i]), block, k + Labels(ss[..i])));
  }

  lemma Settles(s: State, ss: seq<Statement>, level: nat, block: nat, k: nat)
    requires Ready(s, level, block, k)
    requires ListSettled(s, ss, level, block, k) && Perform(s, Events(ss, level, block, k)).Next?
    ensures var s' := Perform(s, Events(ss, level, block, k)).state;
            Ready(s', level + Declared(ss), block, k + Labels(ss)) && Reached(s')
  {
    hide Perform, Events, Declared, Labels, Ran, Traced, Reached, BadList;
    DoneReady(s, Perform(s, Events(ss, level, block, k)).state, ss, level, block, k);
  }

  /** In front of a statement, no jump of the statement waits. */
  lemma NoneYet(s: State, level: nat, block: nat, k: nat)
    requires Ready(s, level, block, k)
    ensures var n := NamesOf(s, |s.ops|, 0, true);
            Open(n) && Shows(n, s, |s.ops|, 0, true) && n.waits[|n.waits| - 1] == {}
  {
    SteadyRange(s, level, k);
    hide Steady;
    NamesShown(s, |s.ops|, 0, true);
  }

  /** Behind it, those that the program shows. */
  lemma StatementWaits(s: State, st: Statement, s': State, lab: Label, level: nat, block: nat, k: nat)
    requires Ready(s, level, block, k) && !st.LabelHere? && Perform(s, EventsOf(st, level, block, k)) == Next(s') && |s'.blocks| == |s.blocks|
    requires !lab.Unique? && Reached(s)
    ensures var n := FollowAll(NamesOf(s, |s.ops|, 0, true), EventsOf(st, level, block, k), true);
            Open(n) && Shows(n, s', |s.ops|, 0, true) && (lab in n.waits[|n.waits| - 1] <==> lab in Waits(st, Visibles(s), true))
  {
    var n := NamesOf(s, |s.ops|, 0, true);
    NoneYet(s, level, block, k);
    hide Ready, Reached, NamesOf, Shows, Perform, EventsOf, FollowAll, Visible, Visibles, Waits;
    ShownVisible(n, s, |s.ops|, 0, true);
    ShowsAll(n, s, EventsOf(st, level, block, k), |s.ops|, 0, true);
    StatementFollowed(n, st, Visibles(s), level, block, k, true);
  }

  /** Only jumps that are there are followed from now on. */
  lemma Rewindow(n: Names, s: State, from: nat)
    requires Shows(n, s, from, 0, true) && Ranged(s)
    ensures Shows(n, s, from, |s.ops|, false)
  {
    forall b: nat, lab ensures WaitsIn(s, b, lab, from, |s.ops|, false) <==> WaitsIn(s, b, lab, from, 0, true) {
      WindowsAlike(s, b, lab, from);
    }
  }

  lemma WindowsAlike(s: State, b: nat, lab: Label, from: nat)
    requires Ranged(s)
    ensures WaitsIn(s, b, lab, from, |s.ops|, false) <==> WaitsIn(s, b, lab, from, 0, true)
  {
    if p :| p in s.pending && p.lab == lab && p.blockIndex == b && Within(p, from, 0, true) {
      assert Within(p, from, |s.ops|, false);
    }
    if p :| p in s.pending && p.lab == lab && p.blockIndex == b && Within(p, from, |s.ops|, false) {
      assert Within(p, from, 0, true);
    }
  }

  /** The statements behind it, which place labels. */
  lemma RestWaits(n: Names, s: State, ss: seq<Statement>, s': State, from: nat, end: nat, lab: Label, level: nat, block: nat, k: nat)
    requires Reached(s) && Shows(n, s, from, end, false) && end <= |s.ops| && Perform(s, Events(ss, level, block, k)) == Next(s')
    requires block + 1 == |s.blocks| && !lab.Unique?
    ensures Open(n) && |s'.blocks| == |s.blocks|
    ensures WaitsIn(s', block, lab, from, end, false) <==> lab in n.waits[|n.waits| - 1] && lab !in Placed(ss)
  {
    ShownVisible(n, s, from, end, false);
    hide Reached, Perform, Events, FollowAll, Visible, Visibles, ListWaits, Placed;
    ShowsAll(n, s, Events(ss, level, block, k), from, end, false) by {
      hide Shows;
    }
    ListFollowed(n, ss, Visibles(s), level, block, k, false);
    StillWait(ss, Visibles(s), n.waits[|n.waits| - 1]);
  }

  ghost predicate WaitsFrom(s: State, ss: seq<Statement>, s': State, i: nat, lab: Label, level: nat, block: nat, k: nat) {
    exists p :: p in s'.pending && p.lab == lab && p.blockIndex == block && From(s, ss, i, p, level, block, k)
  }

  /** A jump out of a statement of the list waits for a label behind the list exactly if the program shows it. */
  lemma WaitsExactly(s: State, ss: seq<Statement>, s': State, i: nat, lab: Label, level: nat, block: nat, k: nat)
    requires Ready(s, level, block, k) && Vacant(s) && Perform(s, Events(ss, level, block, k)) == Next(s')
    requires i < |ss| && !ss[i].LabelHere? && !lab.Unique?
    ensures WaitsFrom(s, ss, s', i, lab, level, block, k)
            <==> lab in Waits(ss[i], Visibles(s) + Placed(ss[..i]), true) && lab !in Placed(ss[i + 1..])
  {
    hide Ready, Vacant, Perform, Events, EventsOf, Declared, Labels, Reached, Waits, Placed, Visibles, Shows, WaitsIn;
    Reaches(s, ss, i, level, block, k);
    Reaches(s, ss, i + 1, level, block, k);
    PrefixRuns(s, ss, i + 1, level, block, k);
    NextPrefix(s, ss, i, level, block, k);
    var a, b := After(s, ss, i, level, block, k).state, After(s, ss, i + 1, level, block, k).state;
    PrefixVisibles(s, ss, i, level, block, k);
    var la, ka := level + Declared(ss[..i]), k + Labels(ss[..i]);
    var lb, kb := level + Declared(ss[..i + 1]), k + Labels(ss[..i + 1]);
    ReadyBlocks(a, la, block, ka);
    ReadyBlocks(b, lb, block, kb);
    StatementWaits(a, ss[i], b, lab, la, block, ka);
    var n := FollowAll(NamesOf(a, |a.ops|, 0, true), EventsOf(ss[i], la, block, ka), true);
    Rewindow(n, b, |a.ops|);
    RestWaits(n, b, ss[i + 1..], s', |a.ops|, |b.ops|, lab, lb, block, kb);
    FromWindow(s, ss, s', i, lab, level, block, k);
  }

  lemma ReadyBlocks(s: State, level: nat, block: nat, k: nat)
    requires Ready(s, level, block, k)
    ensures |s.blocks| == block + 1 && Ranged(s)
  {
    SteadyRange(s, level, k);
  }

  lemma NextPrefix(s: State, ss: seq<Statement>, i: nat, level: nat, block: nat, k: nat)
    requires i < |ss| && After(s, ss, i, level, block, k).Next? && After(s, ss, i + 1, level, block, k).Next?
    ensures Perform(After(s, ss, i, level, block, k).state, EventsOf(ss[i], level + Declared(ss[..i]), block, k + Labels(ss[..i])))
            == After(s, ss, i + 1, level, block, k)
  {
    hide Perform, Events, EventsOf, Declared, Labels;
    EventsSnoc(s, ss[..i + 1], level, block, k);
    assert ss[..i + 1][..|ss[..i + 1]| - 1] == ss[..i];
  }

  lemma PrefixVisibles(s: State, ss: seq<Statement>, i: nat, level: nat, block: nat, k: nat)
    requires i <= |ss| && After(s, ss, i, level, block, k).Next? && Ready(s, level, block, k)
    ensures Visibles(After(s, ss, i, level, block, k).state) == Visibles(s) + Placed(ss[..i])
  {
    assert Reached(s) by {
      OldBlocks(s, level, k);
    }
    hide Perform, Events, Steady, Reached, Visibles, Placed;
    ListVisibles(s, ss[..i], After(s, ss, i, level, block, k).state, level, block, k);
  }

  lemma FromWindow(s: State, ss: seq<Statement>, s': State, i: nat, lab: Label, level: nat, block: nat, k: nat)
    requires i < |ss| && After(s, ss, i, level, block, k).Next? && After(s, ss, i + 1, level, block, k).Next?
    ensures WaitsFrom(s, ss, s', i, lab, level, block, k)
            <==> WaitsIn(s', block, lab, |After(s, ss, i, level, block, k).state.ops|, |After(s, ss, i + 1, level, block, k).state.ops|, false)
  {
    hide After;
    var c, d := |After(s, ss, i, level, block, k).state.ops|, |After(s, ss, i + 1, level, block, k).state.ops|;
    forall p ensures From(s, ss, i, p, level, block, k) <==> Within(p, c, d, false) {
    }
  }
}
