/** For which functions compiling fails an assertion, read off the program. */
module JumpRules {
  import opened Values
  import opened Jumps
  import opened JumpHistory
  import opened JumpSteps
  import opened JumpSyntax
  import opened JumpParts
  import opened JumpFailures
  import opened JumpLists
  import opened JumpStatements
  import opened JumpNames
  import opened JumpWaits
  import opened JumpPanics
  import opened JumpCrossings
  import JumpTheorems

  /** A `goto` out of a `for` waits for the label, with fewer than three variables declared between the two. `visible` are
      the labels in front of the statements. */
  predicate CrossesLoop(before: seq<Statement>, lab: Label, visible: set<Label>) {
    exists i :: 0 <= i < |before| && before[i].For? && lab in Waits(before[i], visible + Placed(before[..i]), true)
                && lab !in Placed(before[i + 1..]) && Declared(before[i..]) < 3
  }

  predicate Crosses(ss: seq<Statement>, visible: set<Label>)
    decreases ss, 3
  {
    exists j :: 0 <= j < |ss| && CrossesAt(ss[..j], ss[j], visible)
  }

  predicate CrossesAt(before: seq<Statement>, st: Statement, visible: set<Label>)
    decreases st, 2
  {
    if st.LabelHere? then CrossesLoop(before, Named(st.name), visible) else CrossesInside(st, visible + Placed(before))
  }

  predicate CrossesInside(st: Statement, visible: set<Label>)
    decreases st, 1
  {
    match st
    case Do(body) => CrossesBody(body, visible)
    case While(_, body) => CrossesBody(body, visible)
    case Repeat(statements, _) => Crosses(statements, visible)
    case For(_, _, _, body) => CrossesBody(body, visible)
    case If(arms) => CrossesArms(arms, visible)
    case _ => false
  }

  /** Labels at the end of a block without `return` do not count. */
  predicate CrossesBody(b: Body, visible: set<Label>)
    decreases b, 4
  {
    var n := if b.values.Some? then |b.statements| else Trailing(b.statements);
    assert n == |b.statements| ==> b.statements[..n] == b.statements;
    Crosses(b.statements[..n], visible)
  }

  predicate CrossesArms(arms: Arms, visible: set<Label>)
    decreases arms, 5
  {
    match arms
    case Arm(_, body, rest) => CrossesBody(body, visible) || CrossesArms(rest, visible)
    case Else(body) => CrossesBody(body, visible)
    case EndIf => false
  }

  /** Without another error, an assertion fails exactly in the case told. */
  predicate Exactly(o: Outcome, crosses: bool) {
    !o.Fails? ==> (o.Panics? <==> crosses)
  }

  // Labels.

  lemma WaitsAt(s: State, lab: Label, p: Pending) returns (n: nat)
    requires s.blocks != [] && p in s.pending && Resolves(p, |s.blocks| - 1, lab)
    ensures n < |WaitingFor(s, lab)| && WaitingFor(s, lab)[n] == p
  {
    ResolvingHas(s.pending, |s.blocks| - 1, lab);
    n :| n < |WaitingFor(s, lab)| && WaitingFor(s, lab)[n] == p;
  }

  /** A label that fails an assertion is crossed. */
  lemma StopCrosses(s: State, before: seq<Statement>, s': State, lab: Label, level: nat, block: nat, k: nat)
    requires Ready(s, level, block, k) && Vacant(s) && Perform(s, Events(before, level, block, k)) == Next(s') && !lab.Unique?
    requires |s'.blocks| == block + 1 && StopsAtLoop(s, before, s', lab, level, block, k)
    ensures CrossesLoop(before, lab, Visibles(s))
  {
    hide Ready, Vacant, Perform, Events, From, HasLabel, Patchable, WaitingFor, Declared, Waits, Placed;
    var n: nat, i: nat :| Stops(WaitingFor(s', lab), |s'.ops|, s'.top, n) && From(s, before, i, WaitingFor(s', lab)[n], level, block, k)
                          && i < |before| && before[i].For? && Declared(before[i..]) < 3;
    WaitingIn(s', lab, n);
    assert WaitsFrom(s, before, s', i, lab, level, block, k);
    WaitsExactly(s, before, s', i, lab, level, block, k);
  }

  /** A label that is crossed is not accepted. */
  lemma CrossedFails(s: State, before: seq<Statement>, s': State, name: string, level: nat, block: nat, k: nat)
    requires Ready(s, level, block, k) && Vacant(s) && Perform(s, Events(before, level, block, k)) == Next(s')
    requires CrossesLoop(before, Named(name), Visibles(s))
    ensures !JumpTarget(s', Named(name)).Next?
  {
    var lab := Named(name);
    hide Ready, Vacant, Perform, Events, From, HasLabel, WaitingFor, Declared, Waits, Placed, JumpTarget;
    var i :| 0 <= i < |before| && before[i].For? && lab in Waits(before[i], Visibles(s) + Placed(before[..i]), true)
             && lab !in Placed(before[i + 1..]) && Declared(before[i..]) < 3;
    LabelVerdict(s, before, s', name, level, block, k);
    WaitsExactly(s, before, s', i, lab, level, block, k);
    var p :| p in s'.pending && p.lab == lab && p.blockIndex == block && From(s, before, i, p, level, block, k);
    ReadyBlocks(s, level, block, k);
    var n := WaitsAt(s', lab, p);
    if AllLand(s, before, s', lab, level, block, k) {
      LandsOnce(s, before, s', lab, n, i, level, block, k);
    }
  }

  /** A jump that is accepted has left its statement with as many variables declared since as registers are left. */
  lemma LandsOnce(s: State, before: seq<Statement>, s': State, lab: Label, n: nat, i: nat, level: nat, block: nat, k: nat)
    requires Ready(s, level, block, k) && Vacant(s) && Perform(s, Events(before, level, block, k)) == Next(s') && !lab.Unique?
    requires |s'.blocks| == block + 1 && n < |WaitingFor(s', lab)| && Lands(s, before, s', WaitingFor(s', lab)[n], level, block, k)
    requires i < |before| && From(s, before, i, WaitingFor(s', lab)[n], level, block, k)
    ensures Declared(before[i..]) == Out(before[i])
  {
    hide Perform, Events, From, WaitingFor, Declared, Steady, Vacant, Traced, BadList;
    ListRuns(s, before, level, block, k);
    DoneReady(s, s', before, level, block, k);
    WaitingLeft(s, before, s', lab, n, level, block, k);
  }

  lemma PlaceExactly(s: State, before: seq<Statement>, s': State, name: string, level: nat, block: nat, k: nat)
    requires Ready(s, level, block, k) && Vacant(s) && Perform(s, Events(before, level, block, k)) == Next(s')
    ensures Exactly(JumpTarget(s', Named(name)), CrossesLoop(before, Named(name), Visibles(s)))
  {
    hide Ready, Vacant, Perform, Events, StopsAtLoop, HasLabel, JumpTarget, CrossesLoop, AllLand;
    LabelVerdict(s, before, s', name, level, block, k);
    ReadyBlocks(s, level, block, k);
    if JumpTarget(s', Named(name)).Panics? {
      StopCrosses(s, before, s', Named(name), level, block, k);
    } else if CrossesLoop(before, Named(name), Visibles(s)) {
      CrossedFails(s, before, s', name, level, block, k);
    }
  }

  lemma LabelExactly(s: State, before: seq<Statement>, s': State, st: Statement, level: nat, block: nat, k: nat)
    requires Ready(s, level, block, k) && Vacant(s) && Perform(s, Events(before, level, block, k)) == Next(s') && st.LabelHere?
    ensures Exactly(Perform(s', EventsOf(st, level + Declared(before), block, k + Labels(before))), CrossesLoop(before, Named(st.name), Visibles(s)))
  {
    hide Ready, Vacant, Perform, Events, EventsOf, JumpTarget, CrossesLoop, Visibles, Declared, Labels;
    LabelPlaces(s', st, level + Declared(before), block, k + Labels(before));
    PlaceExactly(s, before, s', st.name, level, block, k);
  }

  lemma LabelPlaces(s: State, st: Statement, level: nat, block: nat, k: nat)
    requires st.LabelHere?
    ensures Perform(s, EventsOf(st, level, block, k)) == JumpTarget(s, Named(st.name))
  {
    assert EventsOf(st, level, block, k) == [Place(Named(st.name))];
    PerformOne(s, Place(Named(st.name)));
    hide Perform, JumpTarget, EventsOf;
  }

  // Lists.

  lemma CrossesSnoc(ss: seq<Statement>, visible: set<Label>)
    requires ss != []
    ensures Crosses(ss, visible) <==> Crosses(ss[..|ss| - 1], visible) || CrossesAt(ss[..|ss| - 1], ss[|ss| - 1], visible)
  {
    hide CrossesAt;
    var rest := ss[..|ss| - 1];
    assert forall j :: 0 <= j < |rest| ==> rest[..j] == ss[..j] && rest[j] == ss[j];
    if j :| 0 <= j < |rest| && CrossesAt(rest[..j], rest[j], visible) {
      assert CrossesAt(ss[..j], ss[j], visible);
    }
  }

  lemma {:induction false} ListExactly(s: State, ss: seq<Statement>, level: nat, block: nat, k: nat)
    requires Ready(s, level, block, k) && Vacant(s)
    ensures Exactly(Perform(s, Events(ss, level, block, k)), Crosses(ss, Visibles(s)))
    decreases ss, 3
  {
    hide Ready, Vacant, Perform, Events, Exactly, Crosses, CrossesAt, EventsOf, Visibles, Declared, Labels;
    if ss == [] {
      NothingExactly(s, level, block, k);
    } else {
      ListExactly(s, ss[..|ss| - 1], level, block, k);
      if Perform(s, Events(ss[..|ss| - 1], level, block, k)).Next? {
        LastExactly(s, ss[..|ss| - 1], Perform(s, Events(ss[..|ss| - 1], level, block, k)).state, ss[|ss| - 1], level, block, k);
      }
      SnocExactly(s, ss, level, block, k, Visibles(s));
    }
  }

  lemma NothingExactly(s: State, level: nat, block: nat, k: nat)
    ensures Exactly(Perform(s, Events([], level, block, k)), Crosses([], Visibles(s)))
  {
    PerformNone(s);
  }

  lemma SnocExactly(s: State, ss: seq<Statement>, level: nat, block: nat, k: nat, visible: set<Label>)
    requires ss != []
    requires var rest, st := ss[..|ss| - 1], ss[|ss| - 1];
             var o := Perform(s, Events(rest, level, block, k));
             && Exactly(o, Crosses(rest, visible))
             && (o.Next? ==> Exactly(Perform(o.state, EventsOf(st, level + Declared(rest), block, k + Labels(rest))), CrossesAt(rest, st, visible)))
    ensures Exactly(Perform(s, Events(ss, level, block, k)), Crosses(ss, visible))
  {
    hide Perform, Events, EventsOf, Crosses, CrossesAt, Declared, Labels;
    CrossesSnoc(ss, visible);
    EventsSnoc(s, ss, level, block, k);
  }

  lemma {:induction false} LastExactly(s: State, before: seq<Statement>, s': State, st: Statement, level: nat, block: nat, k: nat)
    requires Ready(s, level, block, k) && Vacant(s) && Perform(s, Events(before, level, block, k)) == Next(s')
    ensures Exactly(Perform(s', EventsOf(st, level + Declared(before), block, k + Labels(before))), CrossesAt(before, st, Visibles(s)))
    decreases st, 3
  {
    hide Ready, Vacant, Perform, Events, EventsOf, CrossesLoop, CrossesInside, Visibles, Placed, Declared, Labels;
    if st.LabelHere? {
      LabelExactly(s, before, s', st, level, block, k);
    } else {
      BehindList(s, before, s', level, block, k);
      StatementExactly(s', st, level + Declared(before), block, k + Labels(before));
    }
  }

  lemma BehindList(s: State, before: seq<Statement>, s': State, level: nat, block: nat, k: nat)
    requires Ready(s, level, block, k) && Vacant(s) && Perform(s, Events(before, level, block, k)) == Next(s')
    ensures Ready(s', level + Declared(before), block, k + Labels(before)) && Visibles(s') == Visibles(s) + Placed(before)
  {
    hide Perform, Events, Vacant, Visibles, Placed, Declared, Labels, ListSettled, Reached;
    ListRuns(s, before, level, block, k);
    Settles(s, before, level, block, k);
    OldBlocks(s, level, k);
    ListVisibles(s, before, s', level, block, k);
  }

  // Statements.

  lemma {:induction false} StatementExactly(s: State, st: Statement, level: nat, block: nat, k: nat)
    requires Ready(s, level, block, k) && !st.LabelHere?
    ensures Exactly(Perform(s, EventsOf(st, level, block, k)), CrossesInside(st, Visibles(s)))
    decreases st, 2
  {
    StatementRuns(s, st, level, block, k);
    hide Ready, Perform, Visibles, CrossesBody, Crosses, CrossesArms;
    match st {
      case Do(body) => DoExactly(s, body, level, block, k);
      case While(condition, body) => WhileExactly(s, condition, body, level, block, k);
      case Repeat(statements, until) => RepeatExactly(s, statements, until, level, block, k);
      case For(generic, control, names, body) => ForExactly(s, generic, control, names, body, level, block, k);
      case If(arms) =>
        IfOpens(s, level, block, k);
        ArmsExactly(s, s, arms, level, block, k, k, k + 1, k + 2);
      case _ =>
    }
  }

  /** A statement with a body fails exactly where the body does. */
  lemma AroundExactly(s: State, st: Statement, head: seq<Event>, b: Body, tail: seq<Event>, level: nat, block: nat, k: nat,
                      level': nat, block': nat, k': nat, crosses: bool)
    requires Shaped(s, st, head, b, tail, level, block, k, level', block', k') && Settled(s, st, level, block, k)
    requires var o := Perform(s, head);
             !o.Panics? && (o.Next? ==>
               && BodySettled(o.state, b, level', block', k')
               && Exactly(Perform(o.state, BodyEvents(b, level', block', k')), crosses))
    ensures Exactly(Perform(s, EventsOf(st, level, block, k)), crosses)
  {
    hide Perform, BodyEvents, EventsOf, BadInside, BadBody, BodyDone, Grew;
  }

  /** Entering blocks leaves the visible labels as they are. */
  lemma HeadVisibles(s: State, head: seq<Event>, s': State, n: Names)
    requires Reached(s) && Perform(s, head) == Next(s') && s.blocks != []
    requires Open(NamesOf(s, 0, 0, true)) && n == FollowAll(NamesOf(s, 0, 0, true), head, true) && Visible(n, Visibles(s))
    ensures Visibles(s') == Visibles(s)
  {
    hide NamesOf, Perform, FollowAll, Visible, Visibles, Reached;
    VisiblesAfter(s, head, s', Visibles(s));
  }

  lemma ReadyVisible(s: State, level: nat, block: nat, k: nat)
    requires Ready(s, level, block, k)
    ensures Reached(s) && s.blocks != [] && Open(NamesOf(s, 0, 0, true)) && Visible(NamesOf(s, 0, 0, true), Visibles(s))
  {
    OldBlocks(s, level, k);
    hide Reached, NamesOf, Visibles, Visible;
    StartVisible(s);
  }

  lemma {:induction false} DoExactly(s: State, body: Body, level: nat, block: nat, k: nat)
    requires Ready(s, level, block, k) && Settled(s, Do(body), level, block, k)
    ensures Exactly(Perform(s, EventsOf(Do(body), level, block, k)), CrossesBody(body, Visibles(s)))
    decreases body, 5
  {
    DoOpens(s, level, block, k);
    assert Visibles(EnterBlock(s)) == Visibles(s);
    hide Ready, Vacant, Settled, BodySettled, Shaped, Perform, EventsOf, BodyEvents, Visibles, CrossesBody, EnterBlock, Exactly;
    BodyRuns(EnterBlock(s), body, level, block + 1, k);
    BodyExactly(EnterBlock(s), body, level, block + 1, k);
    DoSplit(s, body, level, block, k);
    AroundExactly(s, Do(body), [Enter], body, [Exit(level)], level, block, k, level, block + 1, k, CrossesBody(body, Visibles(s)));
  }

  lemma TestVisibles(s: State, condition: seq<Work>, s': State, level: nat, block: nat, k: nat, placed: nat, skip: nat)
    requires Ready(s, level, block, k) && Perform(s, TestHead(condition, level, block, placed, skip)) == Next(s')
    ensures Visibles(s') == Visibles(s)
  {
    hide Ready, Reached, Perform, TestHead, NamesOf, Visible, Visibles, FollowAll;
    ReadyVisible(s, level, block, k);
    TestFollowed(NamesOf(s, 0, 0, true), condition, level, block, placed, skip, true);
    PushVisible(NamesOf(s, 0, 0, true), Visibles(s));
    HeadVisibles(s, TestHead(condition, level, block, placed, skip), s', Pushed(NamesOf(s, 0, 0, true)));
  }

  lemma {:induction false} WhileExactly(s: State, condition: seq<Work>, body: Body, level: nat, block: nat, k: nat)
    requires Ready(s, level, block, k) && Settled(s, While(condition, body), level, block, k)
    ensures Exactly(Perform(s, EventsOf(While(condition, body), level, block, k)), CrossesBody(body, Visibles(s)))
    decreases body, 5
  {
    hide Ready, Vacant, Settled, BodySettled, Shaped, Perform, EventsOf, BodyEvents, TestHead, Tested, WorkLabels, Visibles, CrossesBody, Exactly;
    WhileOpens(s, condition, level, block, k);
    var o := Perform(s, TestHead(condition, level, block, k, k + 1));
    if o.Next? {
      TestedReady(s, o.state, level, block, k, k + 2 + WorkLabels(condition));
      TestVisibles(s, condition, o.state, level, block, k, k, k + 1);
      BodyRuns(o.state, body, level, block + 1, k + 2 + WorkLabels(condition));
      BodyExactly(o.state, body, level, block + 1, k + 2 + WorkLabels(condition));
    }
    WhileSplit(s, condition, body, level, block, k);
    AroundExactly(s, While(condition, body), TestHead(condition, level, block, k, k + 1), body,
                  [GoTo(Unique(k)), Place(Break), Exit(level), Place(Unique(k + 1))],
                  level, block, k, level, block + 1, k + 2 + WorkLabels(condition), CrossesBody(body, Visibles(s)));
  }

  lemma ForVisibles(s: State, generic: bool, control: seq<Work>, names: nat, s': State, level: nat, block: nat, k: nat)
    requires Ready(s, level, block, k) && Perform(s, ForHead(generic, control, names, level, block, k)) == Next(s')
    ensures Visibles(s') == Visibles(s)
  {
    hide Ready, Reached, Perform, ForHead, NamesOf, Visible, Visibles, FollowAll;
    ReadyVisible(s, level, block, k);
    ForHeadFollowed(NamesOf(s, 0, 0, true), generic, control, names, level, block, k, true);
    PushVisible(NamesOf(s, 0, 0, true), Visibles(s));
    PushVisible(Pushed(NamesOf(s, 0, 0, true)), Visibles(s));
    HeadVisibles(s, ForHead(generic, control, names, level, block, k), s', Pushed(Pushed(NamesOf(s, 0, 0, true))));
  }

  lemma {:induction false} ForExactly(s: State, generic: bool, control: seq<Work>, names: nat, body: Body, level: nat, block: nat, k: nat)
    requires Ready(s, level, block, k) && Settled(s, For(generic, control, names, body), level, block, k)
    ensures Exactly(Perform(s, EventsOf(For(generic, control, names, body), level, block, k)), CrossesBody(body, Visibles(s)))
    decreases body, 5
  {
    hide Ready, Vacant, Settled, BodySettled, Shaped, Perform, EventsOf, BodyEvents, ForHead, ForTail, ForStarted, WorkLabels, Visibles, CrossesBody,
         Exactly;
    ForOpens(s, generic, control, names, level, block, k);
    var o := Perform(s, ForHead(generic, control, names, level, block, k));
    if o.Next? {
      ForVisibles(s, generic, control, names, o.state, level, block, k);
      BodyRuns(o.state, body, level + 3 + names, block + 2, k + 1 + WorkLabels(control));
      BodyExactly(o.state, body, level + 3 + names, block + 2, k + 1 + WorkLabels(control));
    }
    ForBodySplit(s, generic, control, names, body, level, block, k);
    AroundExactly(s, For(generic, control, names, body), ForHead(generic, control, names, level, block, k), body, ForTail(generic, level, k),
                  level, block, k, level + 3 + names, block + 2, k + 1 + WorkLabels(control), CrossesBody(body, Visibles(s)));
  }

  lemma RepeatVisibles(s: State, s': State, level: nat, block: nat, k: nat)
    requires Ready(s, level, block, k) && Perform(s, [Enter, Enter, Place(Unique(k))]) == Next(s')
    ensures Visibles(s') == Visibles(s)
  {
    hide Ready, Reached, Perform, NamesOf, Visible, Visibles, FollowAll;
    ReadyVisible(s, level, block, k);
    RepeatHeadFollowed(NamesOf(s, 0, 0, true), k, true);
    PushVisible(NamesOf(s, 0, 0, true), Visibles(s));
    PushVisible(Pushed(NamesOf(s, 0, 0, true)), Visibles(s));
    HeadVisibles(s, [Enter, Enter, Place(Unique(k))], s', Pushed(Pushed(NamesOf(s, 0, 0, true))));
  }

  lemma {:induction false} RepeatExactly(s: State, ss: seq<Statement>, until: seq<Work>, level: nat, block: nat, k: nat)
    requires Ready(s, level, block, k) && Settled(s, Repeat(ss, until), level, block, k)
    ensures Exactly(Perform(s, EventsOf(Repeat(ss, until), level, block, k)), Crosses(ss, Visibles(s)))
    decreases ss, 5
  {
    hide Ready, Vacant, Settled, LoopSettled, LoopShaped, Perform, EventsOf, LoopEvents, Repeating, Visibles, Crosses, Exactly;
    RepeatOpens(s, level, block, k);
    var o := Perform(s, [Enter, Enter, Place(Unique(k))]);
    if o.Next? {
      RepeatReady(s, o.state, level, block, k);
      RepeatVisibles(s, o.state, level, block, k);
      LoopRuns(o.state, ss, until, level, block + 2, k + 1);
      LoopExactly(o.state, ss, until, level, block + 2, k + 1);
    }
    RepeatSplit(s, ss, until, level, block, k);
    AroundLoopExactly(s, ss, until, level, block, k, Crosses(ss, Visibles(s)));
  }

  lemma AroundLoopExactly(s: State, ss: seq<Statement>, until: seq<Work>, level: nat, block: nat, k: nat, crosses: bool)
    requires LoopShaped(s, ss, until, level, block, k) && Settled(s, Repeat(ss, until), level, block, k)
    requires var o := Perform(s, [Enter, Enter, Place(Unique(k))]);
             !o.Panics? && (o.Next? ==>
               && LoopSettled(o.state, ss, until, level, block + 2, k + 1)
               && Exactly(Perform(o.state, LoopEvents(ss, until, level, block + 2, k + 1)), crosses))
    ensures Exactly(Perform(s, EventsOf(Repeat(ss, until), level, block, k)), crosses)
  {
    hide Perform, LoopEvents, EventsOf, BadInside, BadList, BodyDone, Grew, Labels, WorkLabels;
  }

  // Bodies.

  lemma {:induction false} LoopExactly(s: State, ss: seq<Statement>, until: seq<Work>, level: nat, block: nat, k: nat)
    requires Ready(s, level, block, k) && Vacant(s)
    ensures Exactly(Perform(s, LoopEvents(ss, until, level, block, k)), Crosses(ss, Visibles(s)))
    decreases ss, 4
  {
    hide Ready, Vacant, Perform, Events, LoopEvents, ListSettled, LoopSettled, Crosses, Visibles, WorkEvents, Declared, Labels;
    ListExactly(s, ss, level, block, k);
    ListRuns(s, ss, level, block, k);
    LoopRuns(s, ss, until, level, block, k);
    LoopSplit(s, ss, until, level, block, k);
    SettledAlike(s, ss, until, level, block, k);
  }

  lemma SettledAlike(s: State, ss: seq<Statement>, until: seq<Work>, level: nat, block: nat, k: nat)
    requires ListSettled(s, ss, level, block, k) && LoopSettled(s, ss, until, level, block, k)
    ensures Perform(s, Events(ss, level, block, k)).Panics? <==> Perform(s, LoopEvents(ss, until, level, block, k)).Panics?
  {
    hide Perform, Events, LoopEvents, BadList, ListDone, BodyDone, Labels, WorkLabels;
  }

  lemma {:induction false} BodyExactly(s: State, b: Body, level: nat, block: nat, k: nat)
    requires Ready(s, level, block, k) && Vacant(s)
    ensures Exactly(Perform(s, BodyEvents(b, level, block, k)), CrossesBody(b, Visibles(s)))
    decreases b, 4
  {
    hide Ready, Vacant, Perform, Visibles, Crosses, Exactly;
    var n := if b.values.Some? then |b.statements| else Trailing(b.statements);
    assert n == |b.statements| ==> b.statements[..n] == b.statements;
    if b.values.Some? {
      LoopExactly(s, b.statements, b.values.value, level, block, k);
    } else {
      BlockReady(s, level, block, k);
      ListExactly(EnterBlock(s), b.statements[..n], level, block + 1, k);
      BlockExactly(s, b, level, block, k);
    }
  }

  lemma BlockReady(s: State, level: nat, block: nat, k: nat)
    requires Ready(s, level, block, k)
    ensures Ready(EnterBlock(s), level, block + 1, k) && Vacant(EnterBlock(s)) && Visibles(EnterBlock(s)) == Visibles(s)
  {
    DoOpens(s, level, block, k);
    hide Ready, Vacant;
  }

  lemma BlockExactly(s: State, b: Body, level: nat, block: nat, k: nat)
    requires Ready(s, level, block, k) && Vacant(s) && b.values.None?
    requires var ss := b.statements[..Trailing(b.statements)];
             Exactly(Perform(EnterBlock(s), Events(ss, level, block + 1, k)), Crosses(ss, Visibles(s)))
    ensures Exactly(Perform(s, BodyEvents(b, level, block, k)), CrossesBody(b, Visibles(s)))
  {
    var n := Trailing(b.statements);
    BlockReady(s, level, block, k);
    hide Ready, Vacant, Perform, Events, LabelEvents, Visibles, Crosses, EnterBlock, BadList, ListDone;
    BlockSplit(s, b.statements, n, level, block, k);
    ListRuns(EnterBlock(s), b.statements[..n], level, block + 1, k);
    BlockRuns(s, b.statements, n, level, block, k);
  }

  // Arms.

  lemma {:induction false} ArmsExactly(s0: State, s: State, arms: Arms, level: nat, block: nat, k0: nat, end: nat, next: nat, k: nat)
    requires ArmReady(s0, s, level, block, k0, end, next, k)
    ensures Exactly(Perform(s, ArmEvents(arms, level, block, end, next, k)), CrossesArms(arms, Visibles(s)))
    decreases arms, 6
  {
    hide ArmReady, Perform, Visibles, CrossesBody, Exactly;
    match arms {
      case Arm(condition, body, rest) =>
        OneArmExactly(s0, s, condition, body, rest, level, block, k0, end, next, k);
        var o := Perform(s, OneArm(condition, body, rest.EndIf?, level, block, end, next, k));
        if o.Next? {
          ArmVisibles(s0, s, condition, body, rest.EndIf?, o.state, level, block, k0, end, next, k);
          ArmsExactly(s0, o.state, rest, level, block, k0, end, k, k + 1 + WorkLabels(condition) + BodyLabels(body));
        }
        RestExactly(s, condition, body, rest, level, block, end, next, k, CrossesBody(body, Visibles(s)), CrossesArms(rest, Visibles(s)));
      case Else(body) => ElseExactly(s0, s, body, level, block, k0, end, next, k);
      case EndIf => EndIfExactly(s0, s, level, block, k0, end, next, k);
    }
  }

  lemma EndIfExactly(s0: State, s: State, level: nat, block: nat, k0: nat, end: nat, next: nat, k: nat)
    requires ArmReady(s0, s, level, block, k0, end, next, k)
    ensures Exactly(Perform(s, ArmEvents(EndIf, level, block, end, next, k)), false)
  {
    EndIfRuns(s0, s, level, block, k0, end, next, k);
    hide Perform, ArmReady, ArmsDone;
  }

  lemma ArmFrom(s0: State, s: State, level: nat, block: nat, k0: nat, end: nat, next: nat, k: nat)
    requires ArmReady(s0, s, level, block, k0, end, next, k)
    ensures Ready(s, level, block, k)
  {
  }

  lemma {:induction false} OneArmExactly(s0: State, s: State, condition: seq<Work>, body: Body, rest: Arms, level: nat, block: nat, k0: nat,
                                         end: nat, next: nat, k: nat)
    requires ArmReady(s0, s, level, block, k0, end, next, k)
    ensures var o := Perform(s, OneArm(condition, body, rest.EndIf?, level, block, end, next, k));
            Exactly(o, CrossesBody(body, Visibles(s)))
            && (o.Next? ==> ArmReady(s0, o.state, level, block, k0, end, k, k + 1 + WorkLabels(condition) + BodyLabels(body)))
    decreases body, 5
  {
    hide ArmReady, ArmOpen, Ready, Vacant, BodySettled, Perform, TestHead, OneArm, BodyEvents, WorkLabels, BodyLabels, Visibles, CrossesBody, Exactly,
         BadBody;
    ArmOpens(s0, s, condition, level, block, k0, end, next, k);
    ArmFrom(s0, s, level, block, k0, end, next, k);
    var o := Perform(s, TestHead(condition, level, block, next, k));
    if o.Next? {
      ArmOpenReady(s0, o.state, level, block, k0, end, k + 1 + WorkLabels(condition));
      TestVisibles(s, condition, o.state, level, block, k, next, k);
      BodyRuns(o.state, body, level, block + 1, k + 1 + WorkLabels(condition));
      BodyExactly(o.state, body, level, block + 1, k + 1 + WorkLabels(condition));
    }
    OneArmRuns(s0, s, condition, body, rest, level, block, k0, end, next, k);
    ArmSplit(s, condition, body, rest.EndIf?, level, block, end, next, k);
    ArmAlike(s0, s, condition, body, rest.EndIf?, level, block, k0, end, next, k, CrossesBody(body, Visibles(s)));
  }

  lemma ArmAlike(s0: State, s: State, condition: seq<Work>, body: Body, last: bool, level: nat, block: nat, k0: nat, end: nat, next: nat, k: nat,
                 crosses: bool)
    requires var o, k' := Perform(s, TestHead(condition, level, block, next, k)), k + 1 + WorkLabels(condition);
             var one := Perform(s, OneArm(condition, body, last, level, block, end, next, k));
             && ArmGoes(s0, one, BadAfter(s, TestHead(condition, level, block, next, k), body, level, block + 1, k'),
                        level, block, k0, end, k, k' + BodyLabels(body))
             && one == AndThen(AndThen(o, BodyEvents(body, level, block + 1, k')), (if last then [] else [GoTo(Unique(end))]) + [Exit(level)])
             && !o.Panics?
             && (o.Next? ==> BodySettled(o.state, body, level, block + 1, k')
                             && Exactly(Perform(o.state, BodyEvents(body, level, block + 1, k')), crosses))
    ensures var one := Perform(s, OneArm(condition, body, last, level, block, end, next, k));
            Exactly(one, crosses)
            && (one.Next? ==> ArmReady(s0, one.state, level, block, k0, end, k, k + 1 + WorkLabels(condition) + BodyLabels(body)))
  {
    hide Perform, BodyEvents, TestHead, OneArm, ArmReady, BadBody, BodyDone, WorkLabels, BodyLabels;
  }

  lemma ArmVisibles(s0: State, s: State, condition: seq<Work>, body: Body, last: bool, s': State, level: nat, block: nat, k0: nat, end: nat,
                    next: nat, k: nat)
    requires ArmReady(s0, s, level, block, k0, end, next, k) && Perform(s, OneArm(condition, body, last, level, block, end, next, k)) == Next(s')
    ensures Visibles(s') == Visibles(s)
  {
    hide ArmReady, Ready, Reached, Perform, OneArm, NamesOf, Visible, Visibles, FollowAll, BodyEvents, BodyWaits;
    ArmFrom(s0, s, level, block, k0, end, next, k);
    ReadyVisible(s, level, block, k);
    var n := NamesOf(s, 0, 0, true);
    PushVisible(n, Visibles(s));
    BodyFollowed(Pushed(n), body, Visibles(s), level, block + 1, k + 1 + WorkLabels(condition), true);
    OneArmFollowed(n, condition, body, last, Visibles(s), level, block, end, next, k, true);
    WaitingVisible(n, BodyWaits(body, Visibles(s), true), Visibles(s));
    HeadVisibles(s, OneArm(condition, body, last, level, block, end, next, k), s', MoreWaiting(n, BodyWaits(body, Visibles(s), true)));
  }

  lemma RestExactly(s: State, condition: seq<Work>, body: Body, rest: Arms, level: nat, block: nat, end: nat, next: nat, k: nat, one: bool, more: bool)
    requires var o := Perform(s, OneArm(condition, body, rest.EndIf?, level, block, end, next, k));
             Exactly(o, one)
             && (o.Next? ==> Exactly(Perform(o.state, ArmEvents(rest, level, block, end, k, k + 1 + WorkLabels(condition) + BodyLabels(body))), more))
    ensures Exactly(Perform(s, ArmEvents(Arm(condition, body, rest), level, block, end, next, k)), one || more)
  {
    hide Perform, ArmEvents, OneArm, WorkLabels, BodyLabels;
    ArmsSplit(s, condition, body, rest, level, block, end, next, k);
  }

  lemma {:induction false} ElseExactly(s0: State, s: State, body: Body, level: nat, block: nat, k0: nat, end: nat, next: nat, k: nat)
    requires ArmReady(s0, s, level, block, k0, end, next, k)
    ensures Exactly(Perform(s, ArmEvents(Else(body), level, block, end, next, k)), CrossesBody(body, Visibles(s)))
    decreases body, 5
  {
    hide ArmReady, ElseOpen, Ready, Vacant, BodySettled, ArmsSettled, Perform, ArmEvents, BodyEvents, Visibles, CrossesBody, Exactly, BadAfter;
    ElseOpens(s0, s, level, block, k0, end, next, k);
    var o := Perform(s, [Place(Unique(next)), Enter]);
    if o.Next? {
      ElseOpenReady(s0, o.state, level, block, k0, k);
      ElseVisibles(s0, s, o.state, level, block, k0, end, next, k);
      BodyRuns(o.state, body, level, block + 1, k);
      BodyExactly(o.state, body, level, block + 1, k);
    }
    ElseRuns(s0, s, body, level, block, k0, end, next, k);
    ElseSplit(s, body, level, block, end, next, k);
    ElseAlike(s0, s, body, level, block, k0, end, next, k, CrossesBody(body, Visibles(s)));
  }

  lemma ElseVisibles(s0: State, s: State, s': State, level: nat, block: nat, k0: nat, end: nat, next: nat, k: nat)
    requires ArmReady(s0, s, level, block, k0, end, next, k) && Perform(s, [Place(Unique(next)), Enter]) == Next(s')
    ensures Visibles(s') == Visibles(s)
  {
    hide ArmReady, Ready, Reached, Perform, NamesOf, Visible, Visibles, FollowAll;
    ArmFrom(s0, s, level, block, k0, end, next, k);
    ReadyVisible(s, level, block, k);
    var n := NamesOf(s, 0, 0, true);
    PushVisible(n, Visibles(s));
    assert [Place(Unique(next)), Enter] == [Place(Unique(next))] + [Enter];
    FollowAppend(n, [Place(Unique(next))], [Enter], true);
    FollowOne(n, Place(Unique(next)), true);
    FollowOne(n, Enter, true);
    HeadVisibles(s, [Place(Unique(next)), Enter], s', Pushed(n));
  }

  lemma ElseAlike(s0: State, s: State, body: Body, level: nat, block: nat, k0: nat, end: nat, next: nat, k: nat, crosses: bool)
    requires var o := Perform(s, [Place(Unique(next)), Enter]);
             var all := Perform(s, ArmEvents(Else(body), level, block, end, next, k));
             && ArmsSettled(s0, s, Else(body), level, block, k0, end, next, k)
             && (BadArms(s, Else(body), level, block, end, next, k) <==> BadAfter(s, [Place(Unique(next)), Enter], body, level, block + 1, k))
             && all == AndThen(AndThen(o, BodyEvents(body, level, block + 1, k)), [Exit(level), Place(Unique(end))])
             && !o.Panics?
             && (o.Next? ==> BodySettled(o.state, body, level, block + 1, k)
                             && Exactly(Perform(o.state, BodyEvents(body, level, block + 1, k)), crosses))
    ensures Exactly(Perform(s, ArmEvents(Else(body), level, block, end, next, k)), crosses)
  {
    hide Perform, BodyEvents, ArmEvents, BadArms, BadBody, BodyDone, ArmsDone, BodyLabels;
  }

  // Functions.

  /** A function that is compiled without another error fails an assertion if and only if in some list of its
      statements a `goto` out of a `for` waits for a label of the list, with fewer than three variables declared between
      the two. */
  lemma FunctionExactly(params: nat, body: Body, ret: nat)
    requires !Compile(params, body, ret).Fails?
    ensures Compile(params, body, ret).Panics? <==> CrossesBody(body, {})
  {
    hide Perform, BodyEvents, CrossesBody, Steady, Vacant;
    StartReady(params);
    NoLabelsYet(params);
    BodyRuns(JumpTheorems.Start(params), body, params, 0, 0);
    BodyExactly(JumpTheorems.Start(params), body, params, 0, 0);
  }

  lemma NoLabelsYet(params: nat)
    ensures Visibles(JumpTheorems.Start(params)) == {}
  {
  }

  /** Without such a `goto` no function does, whatever its errors. */
  lemma SafeFunctions(params: nat, body: Body, ret: nat)
    requires !CrossesBody(body, {})
    ensures !Compile(params, body, ret).Panics?
  {
    hide CrossesBody, Compile;
    if Compile(params, body, ret).Panics? {
      FunctionExactly(params, body, ret);
    }
  }
}
