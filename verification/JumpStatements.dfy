/** Statements with bodies, and the bodies. */
module JumpStatements {
  import opened Values
  import opened Jumps
  import opened JumpHistory
  import opened JumpSteps
  import opened JumpSyntax
  import opened JumpRuns
  import opened JumpParts
  import opened JumpFailures
  import opened JumpLists

  // Bodies.

  lemma PerformThree(s: State, a: seq<Event>, b: seq<Event>, c: seq<Event>)
    ensures Perform(s, a + b + c) == AndThen(AndThen(Perform(s, a), b), c)
  {
    hide Perform;
    PerformAppend(s, a + b, c);
    PerformAppend(s, a, b);
  }

  /** Work, and then the register stack for the next statement. */
  lemma WorkMove(s: State, ws: seq<Work>, level: nat, extra: nat, block: nat, k: nat)
    requires Steady(s, level, k) && block + 1 == |s.blocks|
    ensures var o := Perform(s, WorkEvents(ws, level, block, k) + [MoveTop(level + extra)]);
            !o.Panics? && (o.Next? ==> Quiet(s, o.state, k) && Steady(o.state, level, k + WorkLabels(ws)) && o.state.top == level + extra)
  {
    hide Steady, Quiet, Perform, WorkLabels, Apply;
    PerformAppend(s, WorkEvents(ws, level, block, k), [MoveTop(level + extra)]);
    WorkRuns(s, ws, level, block, k);
    var o := Perform(s, WorkEvents(ws, level, block, k));
    if o.Next? {
      PerformOne(o.state, MoveTop(level + extra));
      PlainQuiet(o.state, MoveTop(level + extra), level, k + WorkLabels(ws));
      QuietMore(s, o.state, Apply(o.state, MoveTop(level + extra)).state, k, k + WorkLabels(ws));
    }
  }

  lemma LoopFinishes(s: State, ss: seq<Statement>, until: seq<Work>, level: nat, block: nat, k: nat)
    requires Ready(s, level, block, k) && ListSettled(s, ss, level, block, k)
    ensures LoopSettled(s, ss, until, level, block, k)
  {
    hide Perform, LoopEvents, Events, ListDone, BadList, Steady, WorkEvents;
    LoopSplit(s, ss, until, level, block, k);
    var o := Perform(s, Events(ss, level, block, k));
    if o.Next? {
      LoopDone(s, o.state, ss, until, level, block, k);
    }
  }

  lemma LoopDone(s: State, s1: State, ss: seq<Statement>, until: seq<Work>, level: nat, block: nat, k: nat)
    requires ListDone(s, s1, ss, level, block, k) && block + 1 == |s.blocks|
    ensures var o := Perform(s1, WorkEvents(until, level + Declared(ss), block, k + Labels(ss)) + [MoveTop(level + Declared(ss) + 0)]);
            !o.Panics? && (o.Next? ==> BodyDone(s, o.state, level, k, k + Labels(ss) + WorkLabels(until)))
  {
    hide Perform, ListDone, Ready, WorkEvents, BodyDone;
    DoneReady(s, s1, ss, level, block, k);
    LoopEnd(s, s1, until, level, level + Declared(ss), block, k, k + Labels(ss));
  }

  lemma LoopSplit(s: State, ss: seq<Statement>, until: seq<Work>, level: nat, block: nat, k: nat)
    ensures var end := level + Declared(ss);
            Perform(s, LoopEvents(ss, until, level, block, k))
            == AndThen(Perform(s, Events(ss, level, block, k)), WorkEvents(until, end, block, k + Labels(ss)) + [MoveTop(end + 0)])
  {
    var end := level + Declared(ss);
    hide Perform, Events, WorkEvents;
    PerformAppend(s, Events(ss, level, block, k), WorkEvents(until, end, block, k + Labels(ss)) + [MoveTop(end)]);
    assert Events(ss, level, block, k) + (WorkEvents(until, end, block, k + Labels(ss)) + [MoveTop(end)])
           == LoopEvents(ss, until, level, block, k);
  }

  lemma LoopEnd(s: State, s1: State, until: seq<Work>, level: nat, end: nat, block: nat, k: nat, k': nat)
    requires Ran(s, s1, k) && Ready(s1, end, block, k') && level <= end && k <= k'
    ensures var o := Perform(s1, WorkEvents(until, end, block, k') + [MoveTop(end + 0)]);
            !o.Panics? && (o.Next? ==> BodyDone(s, o.state, level, k, k' + WorkLabels(until)))
  {
    hide Perform, Steady, WorkEvents, Ran, Quiet, WorkLabels;
    WorkMove(s1, until, end, 0, block, k');
    var o := Perform(s1, WorkEvents(until, end, block, k') + [MoveTop(end + 0)]);
    if o.Next? {
      RanQuiet(s, s1, o.state, k, k');
      Higher(o.state, end, end, k' + WorkLabels(until), k' + WorkLabels(until)) by {
        SteadyBlocks(o.state, end, k' + WorkLabels(until));
      }
    }
  }

  /** A jump to a label of the program, in the current block, is not above the registers in use. */
  ghost predicate LowNamed(s: State) {
    forall p :: p in s.pending && p.blockIndex + 1 == |s.blocks| && !p.lab.Unique? ==> p.stackTop <= s.top
  }

  /** The labels at the end of a block: all registers of the block are gone. */
  lemma {:induction false} LabelsRun(s: State, ss: seq<Statement>, level: nat, k: nat)
    requires Steady(s, level, k) && s.top == level && LowNamed(s) && forall i :: 0 <= i < |ss| ==> ss[i].LabelHere?
    ensures var o := Perform(s, LabelEvents(ss));
            !o.Panics? && (o.Next? ==> Quiet(s, o.state, k) && Steady(o.state, level, k) && o.state.top == level)
    decreases |ss|
  {
    hide Steady, Quiet, Perform, Apply, PlacedAt;
    if ss == [] {
      PerformNone(s);
      QuietSelf(s, k);
    } else {
      var lab := Named(ss[0].name);
      assert LabelEvents(ss) == [Place(lab)] + LabelEvents(ss[1..]);
      PerformMore(s, Place(lab), LabelEvents(ss[1..]));
      SteadyBlocks(s, level, k);
      PlaceSafe(s, lab, level, k);
      if Apply(s, Place(lab)).Next? {
        var s1 := Apply(s, Place(lab)).state;
        PlacedQuiet(s, s1, lab, k);
        LabelsRun(s1, ss[1..], level, k);
        var o := Perform(s1, LabelEvents(ss[1..]));
        if o.Next? {
          QuietMore(s, s1, o.state, k, k);
        }
      }
    }
  }

  lemma PlacedQuiet(s: State, s1: State, lab: Label, k: nat)
    requires s.blocks != [] && PlacedAt(s, s1, lab) && LowNamed(s) && !lab.Unique?
    ensures Quiet(s, s1, k) && LowNamed(s1) && s1.top == s.top
  {
  }

  lemma {:induction false} LabelsPrefix(ss: seq<Statement>, n: nat)
    requires n <= |ss|
    ensures Labels(ss[..n]) <= Labels(ss)
    decreases |ss|
  {
    if n < |ss| {
      LabelsPrefix(ss[..|ss| - 1], n);
      assert ss[..|ss| - 1][..n] == ss[..n];
    } else {
      assert ss[..n] == ss;
    }
  }

  lemma BlockOpens(s: State, level: nat, block: nat, k: nat)
    requires Ready(s, level, block, k)
    ensures var s1 := EnterBlock(s);
            Inside(s, s1, level, true, k) && Ready(s1, level, block + 1, k) && Vacant(s1) && Opened(s, s1, 1, level)
  {
    SteadyBlocks(s, level, k);
    InsideSelf(s, level, true, level, k);
    EnterInside(s, s, level, true, k, level, k);
    hide Inside, Steady;
  }

  ghost predicate BlockSettled(s: State, ss: seq<Statement>, n: nat, level: nat, block: nat, k: nat)
    requires n <= |ss| && forall i :: n <= i < |ss| ==> ss[i].LabelHere?
  {
    var o := AndThen(AndThen(Perform(EnterBlock(s), Events(ss[..n], level, block + 1, k)), [Exit(level)]), LabelEvents(ss[n..]));
    && (o.Panics? <==> BadList(EnterBlock(s), ss[..n], level, block + 1, k))
    && (o.Next? ==> BodyDone(s, o.state, level, k, k + Labels(ss)))
  }

  lemma BlockSplit(s: State, ss: seq<Statement>, n: nat, level: nat, block: nat, k: nat)
    requires n <= |ss| && forall i :: n <= i < |ss| ==> ss[i].LabelHere?
    ensures Perform(s, [Enter] + Events(ss[..n], level, block + 1, k) + [Exit(level)] + LabelEvents(ss[n..]))
            == AndThen(AndThen(Perform(EnterBlock(s), Events(ss[..n], level, block + 1, k)), [Exit(level)]), LabelEvents(ss[n..]))
  {
    hide Perform, Events, LabelEvents;
    PerformThree(s, [Enter] + Events(ss[..n], level, block + 1, k), [Exit(level)], LabelEvents(ss[n..]));
    PerformMore(s, Enter, Events(ss[..n], level, block + 1, k));
    assert Apply(s, Enter) == Next(EnterBlock(s));
  }

  lemma BlockRuns(s: State, ss: seq<Statement>, n: nat, level: nat, block: nat, k: nat)
    requires Ready(s, level, block, k) && Vacant(s) && n <= |ss| && forall i :: n <= i < |ss| ==> ss[i].LabelHere?
    requires ListSettled(EnterBlock(s), ss[..n], level, block + 1, k)
    ensures BlockSettled(s, ss, n, level, block, k)
  {
    hide Perform, Events, Steady, Vacant, BadList, ListDone, LabelEvents;
    var o := Perform(EnterBlock(s), Events(ss[..n], level, block + 1, k));
    if o.Next? {
      BlockOpens(s, level, block, k);
      DoneReady(EnterBlock(s), o.state, ss[..n], level, block + 1, k);
      LabelsPrefix(ss, n);
      BlockEnds(s, EnterBlock(s), o.state, ss[n..], level, k, k + Labels(ss[..n]), k + Labels(ss));
    }
  }

  lemma BlockEnds(s: State, s1: State, s2: State, ss: seq<Statement>, level: nat, k: nat, k': nat, k'': nat)
    requires Inside(s, s1, level, true, k) && Opened(s, s1, 1, level) && Ran(s1, s2, k) && Steady(s2, s2.top, k') && k <= k' <= k''
    requires Vacant(s) && forall i :: 0 <= i < |ss| ==> ss[i].LabelHere?
    ensures var o := AndThen(Perform(s2, [Exit(level)]), LabelEvents(ss));
            !o.Panics? && (o.Next? ==> BodyDone(s, o.state, level, k, k''))
  {
    assert |s1.blocks| == |s.blocks| + 1;
    hide Perform, Steady, Vacant, Ran, Inside, LabelEvents, Opened, Closed, Apply, LeftAt, BodyDone;
    InsideRan(s, s1, s2, level, true, k, k);
    BodyCloses(s, s1, s2, 1, level, k);
    LeaveLoop(s, s2, level, true, k, k');
    PerformOne(s2, Exit(level));
    var o := Apply(s2, Exit(level));
    if o.Next? {
      BlockLabels(s, o.state, ss, level, k, k', k'');
    }
  }

  lemma BlockLabels(s: State, s3: State, ss: seq<Statement>, level: nat, k: nat, k': nat, k'': nat)
    requires Inside(s, s3, level, true, k) && Steady(s3, level, k') && |s3.blocks| == |s.blocks| && s3.top == level && k <= k' <= k''
    requires Vacant(s) && forall i :: 0 <= i < |ss| ==> ss[i].LabelHere?
    ensures var o := Perform(s3, LabelEvents(ss));
            !o.Panics? && (o.Next? ==> BodyDone(s, o.state, level, k, k''))
  {
    NamedAreLow(s, s3, level, k);
    hide Perform, Steady, Vacant, Inside, LabelEvents, LowNamed, Quiet, Ran;
    LabelsRun(s3, ss, level, k');
    var o := Perform(s3, LabelEvents(ss));
    if o.Next? {
      InsideQuiet(s, s3, o.state, level, true, k, k');
      QuietBlocks(s3, o.state, k');
      Higher(o.state, level, level, k', k'');
      InsideIsRan(s, o.state, level, k, k'');
    }
  }

  lemma NamedAreLow(s: State, s': State, level: nat, k: nat)
    requires Inside(s, s', level, true, k) && Vacant(s) && |s'.blocks| == |s.blocks| && s'.top == level
    ensures LowNamed(s')
  {
    forall p | p in s'.pending && p.blockIndex + 1 == |s'.blocks| && !p.lab.Unique? ensures p.stackTop <= s'.top {
      assert p in s.pending || Arose(s, s', p, level, true);
    }
  }

  lemma InsideIsRan(s: State, s': State, level: nat, k: nat, k': nat)
    requires Inside(s, s', level, true, k) && Steady(s', level, k') && |s'.blocks| == |s.blocks| && s'.top == level
    ensures Ran(s, s', k)
  {
    OldBlocks(s', level, k');
    hide Steady;
    forall p | p in s'.pending ensures p in s.pending || Leaves(s, s', p) {
      assert p in s.pending || Arose(s, s', p, level, true);
    }
  }

  // Statements.

  lemma SimpleRuns(s: State, st: Statement, level: nat, block: nat, k: nat)
    requires Ready(s, level, block, k) && (st.Simple? || st.Declares?)
    ensures Settled(s, st, level, block, k)
  {
    hide Perform, Steady, WorkEvents, Quiet, WorkLabels, Inside;
    var extra := DeclaredBy(st);
    assert EventsOf(st, level, block, k) == WorkEvents(st.work, level, block, k) + [MoveTop(level + extra)];
    WorkMove(s, st.work, level, extra, block, k);
    var o := Perform(s, WorkEvents(st.work, level, block, k) + [MoveTop(level + extra)]);
    if o.Next? {
      WorkGrows(s, o.state, st, level, extra, k);
    }
  }

  lemma WorkGrows(s: State, s': State, st: Statement, level: nat, extra: nat, k: nat)
    requires (st.Simple? || st.Declares?) && extra == DeclaredBy(st) && Steady(s, level, k) && Quiet(s, s', k)
    requires Steady(s', level, k + WorkLabels(st.work)) && s'.top == level + extra
    ensures Grew(s, s', st, level, k)
  {
    InsideSelf(s, level, true, level, k);
    QuietBlocks(s, s', k);
    hide Steady, Quiet, Inside, WorkLabels;
    InsideQuiet(s, s, s', level, true, k, k);
    Higher(s', level, level + extra, k + WorkLabels(st.work), k + WorkLabels(st.work));
  }

  lemma GotoRuns(s: State, st: Statement, lab: Label, level: nat, block: nat, k: nat)
    requires Ready(s, level, block, k) && ((st.GotoLabel? && lab == Named(st.name)) || (st.BreakLoop? && lab == Break))
    ensures Settled(s, st, level, block, k)
  {
    assert EventsOf(st, level, block, k) == [GoTo(lab)];
    InsideSelf(s, level, true, level, k);
    hide Perform, Steady, Apply, Inside;
    PerformOne(s, GoTo(lab));
    GoInside(s, s, lab, level, true, k, level, k);
  }

  /** A body from its begin to its end. */
  lemma BodyWithin(s0: State, s1: State, s2: State, at: nat, breaks: bool, k0: nat, level: nat, depth: nat, bottom: nat, k: nat, k': nat)
    requires Inside(s0, s1, at, breaks, k0) && Opened(s0, s1, depth, bottom) && BodyDone(s1, s2, level, k, k') && k0 <= k
    ensures Inside(s0, s2, at, breaks, k0) && Closed(s0, s2, depth, bottom) && Steady(s2, s2.top, k') && Prolongs(s1.targets, s2.targets, k)
    ensures level <= s2.top && (Based(s0, s1) ==> Based(s0, s2))
  {
    hide Inside, Steady;
    InsideRan(s0, s1, s2, at, breaks, k0, k);
    BodyCloses(s0, s1, s2, depth, bottom, k);
  }

  /** What follows the body of a statement. */
  ghost predicate Ends(s: State, st: Statement, s2: State, tail: seq<Event>, level: nat, k: nat) {
    var o := Perform(s2, tail);
    !o.Panics? && (o.Next? ==> Grew(s, o.state, st, level, k))
  }

  /** A statement with a body between two sequences of events. */
  ghost predicate Shaped(s: State, st: Statement, head: seq<Event>, b: Body, tail: seq<Event>, level: nat, block: nat, k: nat,
                         level': nat, block': nat, k': nat)
  {
    && Perform(s, EventsOf(st, level, block, k)) == AndThen(AndThen(Perform(s, head), BodyEvents(b, level', block', k')), tail)
    && (BadInside(s, st, level, block, k) <==> BadAfter(s, head, b, level', block', k'))
  }

  ghost predicate Carries(s: State, st: Statement, s1: State, b: Body, tail: seq<Event>, level: nat, k: nat, level': nat, block': nat, k': nat) {
    && BodySettled(s1, b, level', block', k')
    && var o := Perform(s1, BodyEvents(b, level', block', k'));
       o.Next? ==> Ends(s, st, o.state, tail, level, k)
  }

  lemma Around(s: State, st: Statement, head: seq<Event>, b: Body, tail: seq<Event>, level: nat, block: nat, k: nat,
               level': nat, block': nat, k': nat)
    requires Shaped(s, st, head, b, tail, level, block, k, level', block', k')
    requires var o := Perform(s, head);
             !o.Panics? && (o.Next? ==> Carries(s, st, o.state, b, tail, level, k, level', block', k'))
    ensures Settled(s, st, level, block, k)
  {
    hide Perform, BodyEvents, EventsOf, BadInside, BadBody, BodyDone, Grew;
  }

  lemma Shapes(s: State, st: Statement, head: seq<Event>, b: Body, tail: seq<Event>, level: nat, block: nat, k: nat,
               level': nat, block': nat, k': nat)
    requires EventsOf(st, level, block, k) == head + BodyEvents(b, level', block', k') + tail
    requires BadInside(s, st, level, block, k) <==> BadAfter(s, head, b, level', block', k')
    ensures Shaped(s, st, head, b, tail, level, block, k, level', block', k')
  {
    hide Perform, BodyEvents, EventsOf, BadInside, BadAfter;
    PerformThree(s, head, BodyEvents(b, level', block', k'), tail);
  }

  // `do`.

  lemma DoOpens(s: State, level: nat, block: nat, k: nat)
    requires Ready(s, level, block, k)
    ensures Ready(EnterBlock(s), level, block + 1, k) && Vacant(EnterBlock(s))
  {
    BlockOpens(s, level, block, k);
  }

  lemma DoRuns(s: State, body: Body, level: nat, block: nat, k: nat)
    requires Ready(s, level, block, k) && BodySettled(EnterBlock(s), body, level, block + 1, k)
    ensures Settled(s, Do(body), level, block, k)
  {
    DoSplit(s, body, level, block, k);
    DoCarries(s, body, level, block, k);
    hide Perform, Carries, Settled, EnterBlock, Shaped;
    Around(s, Do(body), [Enter], body, [Exit(level)], level, block, k, level, block + 1, k);
  }

  lemma DoCarries(s: State, body: Body, level: nat, block: nat, k: nat)
    requires Ready(s, level, block, k) && BodySettled(EnterBlock(s), body, level, block + 1, k)
    ensures Carries(s, Do(body), EnterBlock(s), body, [Exit(level)], level, k, level, block + 1, k)
  {
    hide Perform, BodyEvents, Steady, BadBody, BodyDone, BodyLabels, EnterBlock, Ends;
    var o := Perform(EnterBlock(s), BodyEvents(body, level, block + 1, k));
    if o.Next? {
      DoEnds(s, body, o.state, level, block, k);
    }
  }

  lemma DoSplit(s: State, body: Body, level: nat, block: nat, k: nat)
    ensures Shaped(s, Do(body), [Enter], body, [Exit(level)], level, block, k, level, block + 1, k)
    ensures Perform(s, [Enter]) == Next(EnterBlock(s))
  {
    assert BadInside(s, Do(body), level, block, k) <==> BadAfter(s, [Enter], body, level, block + 1, k);
    hide Perform, BodyEvents, BadInside, BadAfter;
    PerformThree(s, [Enter], BodyEvents(body, level, block + 1, k), [Exit(level)]);
    PerformOne(s, Enter);
    assert Apply(s, Enter) == Next(EnterBlock(s));
  }

  lemma DoEnds(s: State, body: Body, s2: State, level: nat, block: nat, k: nat)
    requires Ready(s, level, block, k) && BodyDone(EnterBlock(s), s2, level, k, k + BodyLabels(body))
    ensures Ends(s, Do(body), s2, [Exit(level)], level, k)
  {
    BlockOpens(s, level, block, k);
    hide Perform, Steady, Apply, Inside, Opened, Closed, BodyDone, EnterBlock, LeftAt, Based, BodyLabels;
    var k' := k + BodyLabels(body);
    BodyWithin(s, EnterBlock(s), s2, level, true, k, level, 1, level, k, k');
    LeaveLoop(s, s2, level, true, k, k');
    PerformOne(s2, Exit(level));
  }

  // `while`.

  /** The condition holds. */
  ghost predicate Tested(s: State, s1: State, level: nat, block: nat, k: nat, k': nat) {
    && Inside(s, s1, level, true, k) && Ready(s1, level, block + 1, k') && Vacant(s1)
    && Opened(s, s1, 1, level) && Marked(s, s1, level, block, k, k + 1)
  }

  lemma WhileOpens(s: State, condition: seq<Work>, level: nat, block: nat, k: nat)
    requires Ready(s, level, block, k)
    ensures var o := Perform(s, TestHead(condition, level, block, k, k + 1));
            !o.Panics? && (o.Next? ==> Tested(s, o.state, level, block, k, k + 2 + WorkLabels(condition)))
  {
    InsideSelf(s, level, true, level, k);
    hide Perform, Steady, Inside, Vacant, Marked, WorkLabels;
    Higher(s, level, level, k, k + 1);
    TestRuns(s, s, condition, level, block, k, k, k + 1);
  }

  lemma TestedReady(s: State, s1: State, level: nat, block: nat, k: nat, k': nat)
    requires Tested(s, s1, level, block, k, k')
    ensures Ready(s1, level, block + 1, k') && Vacant(s1)
  {
  }

  lemma WhileRuns(s: State, condition: seq<Work>, body: Body, level: nat, block: nat, k: nat)
    requires Ready(s, level, block, k)
    requires var o := Perform(s, TestHead(condition, level, block, k, k + 1));
             o.Next? ==> BodySettled(o.state, body, level, block + 1, k + 2 + WorkLabels(condition))
    ensures Settled(s, While(condition, body), level, block, k)
  {
    hide Perform, TestHead, WorkLabels, Carries, Settled, Shaped, Tested, Ready, BodySettled;
    WhileSplit(s, condition, body, level, block, k);
    WhileOpens(s, condition, level, block, k);
    var o := Perform(s, TestHead(condition, level, block, k, k + 1));
    if o.Next? {
      WhileCarries(s, condition, body, o.state, level, block, k);
    }
    Around(s, While(condition, body), TestHead(condition, level, block, k, k + 1), body,
           [GoTo(Unique(k)), Place(Break), Exit(level), Place(Unique(k + 1))],
           level, block, k, level, block + 1, k + 2 + WorkLabels(condition));
  }

  lemma WhileCarries(s: State, condition: seq<Work>, body: Body, s1: State, level: nat, block: nat, k: nat)
    requires Ready(s, level, block, k) && Tested(s, s1, level, block, k, k + 2 + WorkLabels(condition))
    requires BodySettled(s1, body, level, block + 1, k + 2 + WorkLabels(condition))
    ensures Carries(s, While(condition, body), s1, body, [GoTo(Unique(k)), Place(Break), Exit(level), Place(Unique(k + 1))],
                    level, k, level, block + 1, k + 2 + WorkLabels(condition))
  {
    hide Perform, BodyEvents, Steady, BadBody, BodyDone, BodyLabels, WorkLabels, Inside, Opened, Marked, Vacant, Ends, Ready;
    var o := Perform(s1, BodyEvents(body, level, block + 1, k + 2 + WorkLabels(condition)));
    if o.Next? {
      WhileGrows(s, condition, body, s1, o.state, level, block, k);
    }
  }

  lemma WhileSplit(s: State, condition: seq<Work>, body: Body, level: nat, block: nat, k: nat)
    ensures Shaped(s, While(condition, body), TestHead(condition, level, block, k, k + 1), body,
                   [GoTo(Unique(k)), Place(Break), Exit(level), Place(Unique(k + 1))],
                   level, block, k, level, block + 1, k + 2 + WorkLabels(condition))
  {
    hide Perform, BodyEvents, TestHead, BadInside, BadAfter, WorkLabels, Shaped;
    WhileBad(s, condition, body, level, block, k);
    Shapes(s, While(condition, body), TestHead(condition, level, block, k, k + 1), body,
           [GoTo(Unique(k)), Place(Break), Exit(level), Place(Unique(k + 1))],
           level, block, k, level, block + 1, k + 2 + WorkLabels(condition));
  }

  lemma WhileBad(s: State, condition: seq<Work>, body: Body, level: nat, block: nat, k: nat)
    ensures BadInside(s, While(condition, body), level, block, k)
            <==> BadAfter(s, TestHead(condition, level, block, k, k + 1), body, level, block + 1, k + 2 + WorkLabels(condition))
  {
    hide BadAfter, TestHead, WorkLabels;
  }

  lemma WhileGrows(s: State, condition: seq<Work>, body: Body, s1: State, s2: State, level: nat, block: nat, k: nat)
    requires Ready(s, level, block, k) && Inside(s, s1, level, true, k) && Opened(s, s1, 1, level) && Marked(s, s1, level, block, k, k + 1)
    requires var k' := k + 2 + WorkLabels(condition);
             BodyDone(s1, s2, level, k', k' + BodyLabels(body))
    ensures Ends(s, While(condition, body), s2, [GoTo(Unique(k)), Place(Break), Exit(level), Place(Unique(k + 1))], level, k)
  {
    hide Perform, Ready, Inside, Opened, Marked, BodyDone, WorkLabels, BodyLabels, Steady;
    WhileEnds(s, s1, s2, level, block, k, k + 2 + WorkLabels(condition), k + 2 + WorkLabels(condition) + BodyLabels(body));
  }

  lemma WhileEnds(s: State, s1: State, s2: State, level: nat, block: nat, k: nat, k': nat, k'': nat)
    requires Ready(s, level, block, k) && Inside(s, s1, level, true, k) && Opened(s, s1, 1, level) && Marked(s, s1, level, block, k, k + 1)
    requires BodyDone(s1, s2, level, k', k'') && k + 1 < k' <= k''
    ensures var o := Perform(s2, [GoTo(Unique(k)), Place(Break), Exit(level), Place(Unique(k + 1))]);
            !o.Panics? && (o.Next? ==>
              Inside(s, o.state, level, true, k) && |o.state.blocks| == |s.blocks| && Steady(o.state, level, k'') && o.state.top == level)
  {
    hide Perform, Steady, Inside, Opened, Closed, BodyDone, Based, FindTarget, Prolongs;
    BodyWithin(s, s1, s2, level, true, k, level, 1, level, k', k'');
    var t := Target(Unique(k), |s.ops|, level, block);
    ProlongsMore(s.targets + [t], s1.targets, s2.targets, k + 1, k');
    FindPlaced(s.targets, t, s2.targets, k + 1);
    WhileTail(s, s2, level, k, k'');
  }

  // `repeat`.

  /** The statements begin. */
  ghost predicate Repeating(s: State, s1: State, level: nat, block: nat, k: nat) {
    && Inside(s, s1, level, true, k) && Ready(s1, level, block + 2, k + 1) && Vacant(s1)
    && Opened(s, s1, 2, level) && s1.targets == s.targets + [Target(Unique(k), |s.ops|, level, block + 2)]
  }

  lemma RepeatReady(s: State, s1: State, level: nat, block: nat, k: nat)
    requires Repeating(s, s1, level, block, k)
    ensures Ready(s1, level, block + 2, k + 1) && Vacant(s1)
  {
  }

  lemma RepeatOpens(s: State, level: nat, block: nat, k: nat)
    requires Ready(s, level, block, k)
    ensures var o := Perform(s, [Enter, Enter, Place(Unique(k))]);
            !o.Panics? && (o.Next? ==> Repeating(s, o.state, level, block, k))
  {
    hide Perform, Steady, Inside, Vacant;
    RepeatHead(s, level, k);
  }

  lemma RepeatRuns(s: State, ss: seq<Statement>, until: seq<Work>, level: nat, block: nat, k: nat)
    requires Ready(s, level, block, k)
    requires var o := Perform(s, [Enter, Enter, Place(Unique(k))]);
             o.Next? ==> LoopSettled(o.state, ss, until, level, block + 2, k + 1)
    ensures Settled(s, Repeat(ss, until), level, block, k)
  {
    hide Perform, Repeating, Ready, LoopSettled, LoopCarries, LoopShaped, Settled;
    RepeatSplit(s, ss, until, level, block, k);
    RepeatOpens(s, level, block, k);
    var o := Perform(s, [Enter, Enter, Place(Unique(k))]);
    if o.Next? {
      RepeatCarries(s, ss, until, o.state, level, block, k);
    }
    AroundLoop(s, ss, until, level, block, k);
  }

  ghost predicate LoopCarries(s: State, ss: seq<Statement>, until: seq<Work>, s1: State, level: nat, block: nat, k: nat) {
    && LoopSettled(s1, ss, until, level, block + 2, k + 1)
    && var o := Perform(s1, LoopEvents(ss, until, level, block + 2, k + 1));
       o.Next? ==> Ends(s, Repeat(ss, until), o.state, [GoTo(Unique(k)), Exit(level), Place(Break), Exit(level)], level, k)
  }

  lemma RepeatCarries(s: State, ss: seq<Statement>, until: seq<Work>, s1: State, level: nat, block: nat, k: nat)
    requires Ready(s, level, block, k) && Repeating(s, s1, level, block, k) && LoopSettled(s1, ss, until, level, block + 2, k + 1)
    ensures LoopCarries(s, ss, until, s1, level, block, k)
  {
    hide Perform, LoopEvents, BadList, BodyDone, Labels, WorkLabels, Inside, Opened, Vacant, Ends, Ready;
    var o := Perform(s1, LoopEvents(ss, until, level, block + 2, k + 1));
    if o.Next? {
      RepeatGrows(s, ss, until, s1, o.state, level, block, k);
    }
  }

  ghost predicate LoopShaped(s: State, ss: seq<Statement>, until: seq<Work>, level: nat, block: nat, k: nat) {
    var o := Perform(s, [Enter, Enter, Place(Unique(k))]);
    && Perform(s, EventsOf(Repeat(ss, until), level, block, k))
       == AndThen(AndThen(o, LoopEvents(ss, until, level, block + 2, k + 1)), [GoTo(Unique(k)), Exit(level), Place(Break), Exit(level)])
    && (BadInside(s, Repeat(ss, until), level, block, k) <==> o.Next? && BadList(o.state, ss, level, block + 2, k + 1))
  }

  lemma RepeatSplit(s: State, ss: seq<Statement>, until: seq<Work>, level: nat, block: nat, k: nat)
    ensures LoopShaped(s, ss, until, level, block, k)
  {
    hide Perform, LoopEvents, BadInside, BadList;
    RepeatBad(s, ss, until, level, block, k);
    PerformThree(s, [Enter, Enter, Place(Unique(k))], LoopEvents(ss, until, level, block + 2, k + 1),
                 [GoTo(Unique(k)), Exit(level), Place(Break), Exit(level)]);
  }

  lemma RepeatBad(s: State, ss: seq<Statement>, until: seq<Work>, level: nat, block: nat, k: nat)
    ensures var o := Perform(s, [Enter, Enter, Place(Unique(k))]);
            BadInside(s, Repeat(ss, until), level, block, k) <==> o.Next? && BadList(o.state, ss, level, block + 2, k + 1)
  {
    hide Perform, BadList;
  }

  lemma AroundLoop(s: State, ss: seq<Statement>, until: seq<Work>, level: nat, block: nat, k: nat)
    requires LoopShaped(s, ss, until, level, block, k)
    requires var o := Perform(s, [Enter, Enter, Place(Unique(k))]);
             !o.Panics? && (o.Next? ==> LoopCarries(s, ss, until, o.state, level, block, k))
    ensures Settled(s, Repeat(ss, until), level, block, k)
  {
    hide Perform, LoopEvents, EventsOf, BadInside, BadList, BodyDone, Grew, Labels, WorkLabels;
  }

  lemma RepeatGrows(s: State, ss: seq<Statement>, until: seq<Work>, s1: State, s2: State, level: nat, block: nat, k: nat)
    requires Ready(s, level, block, k) && Inside(s, s1, level, true, k) && Opened(s, s1, 2, level)
    requires s1.targets == s.targets + [Target(Unique(k), |s.ops|, level, block + 2)]
    requires BodyDone(s1, s2, level, k + 1, k + 1 + Labels(ss) + WorkLabels(until))
    ensures Ends(s, Repeat(ss, until), s2, [GoTo(Unique(k)), Exit(level), Place(Break), Exit(level)], level, k)
  {
    hide Perform, Ready, Inside, Opened, BodyDone, WorkLabels, Labels, Steady;
    RepeatEnds(s, s1, s2, level, block, k, k + 1 + Labels(ss) + WorkLabels(until));
  }

  lemma RepeatEnds(s: State, s1: State, s2: State, level: nat, block: nat, k: nat, k': nat)
    requires Ready(s, level, block, k) && Inside(s, s1, level, true, k) && Opened(s, s1, 2, level) && k < k'
    requires s1.targets == s.targets + [Target(Unique(k), |s.ops|, level, block + 2)] && BodyDone(s1, s2, level, k + 1, k')
    ensures var o := Perform(s2, [GoTo(Unique(k)), Exit(level), Place(Break), Exit(level)]);
            !o.Panics? && (o.Next? ==>
              Inside(s, o.state, level, true, k) && |o.state.blocks| == |s.blocks| && Steady(o.state, level, k') && o.state.top == level)
  {
    hide Perform, Steady, Inside, Opened, Closed, BodyDone, Based, FindTarget, Prolongs;
    BodyWithin(s, s1, s2, level, true, k, level, 2, level, k + 1, k');
    FindPlaced(s.targets, Target(Unique(k), |s.ops|, level, block + 2), s2.targets, k + 1);
    RepeatTail(s, s2, level, k, k');
  }

  // `for`.

  /** The loop's values are on the register stack, and its blocks are open. */
  ghost predicate ForReady(s: State, b: State, s1: State, level: nat, k: nat, k': nat) {
    && Quiet(s, b, k) && Steady(b, level, k') && b.top == level + 3
    && Inside(b, s1, level + 3, false, k) && Opened(b, s1, 2, level + 3) && Based(b, s1)
  }

  ghost predicate ForStarted(s: State, s1: State, level: nat, k: nat, k': nat) {
    exists b :: ForReady(s, b, s1, level, k, k')
  }

  lemma ForOpens(s: State, generic: bool, control: seq<Work>, names: nat, level: nat, block: nat, k: nat)
    requires Ready(s, level, block, k)
    ensures var o := Perform(s, ForHead(generic, control, names, level, block, k));
            !o.Panics? && (o.Next? ==>
              && Ready(o.state, level + 3 + names, block + 2, k + 1 + WorkLabels(control)) && Vacant(o.state)
              && ForStarted(s, o.state, level, k, k + 1 + WorkLabels(control)))
  {
    hide Perform, Steady, WorkEvents, Quiet, FindTarget, WorkLabels, ForHead, AndThen, ForStarted, Vacant, Ready;
    ForSplit(s, generic, control, names, level, block, k);
    ForBaseBlocks(s, generic, control, names, level, block, k);
  }

  lemma ForBaseBlocks(s: State, generic: bool, control: seq<Work>, names: nat, level: nat, block: nat, k: nat)
    requires Ready(s, level, block, k)
    ensures var o := AndThen(Perform(s, WorkEvents(control, level, block, k + 1) + [MoveTop(level + 3), EmitOther(0)]),
                             [Enter, Enter] + ([MoveTop(level + 3 + names)] + if generic then [GoTo(Unique(k))] else []));
            !o.Panics? && (o.Next? ==>
              && Ready(o.state, level + 3 + names, block + 2, k + 1 + WorkLabels(control)) && Vacant(o.state)
              && ForStarted(s, o.state, level, k, k + 1 + WorkLabels(control)))
  {
    hide Perform, Steady, WorkEvents, Quiet, FindTarget, WorkLabels, ForReady, Vacant;
    ForBase(s, control, level, block, k);
    var o := Perform(s, WorkEvents(control, level, block, k + 1) + [MoveTop(level + 3), EmitOther(0)]);
    if o.Next? {
      ForBlocks(s, o.state, generic, names, level, block, k, k + 1 + WorkLabels(control));
    }
  }

  lemma ForSplit(s: State, generic: bool, control: seq<Work>, names: nat, level: nat, block: nat, k: nat)
    ensures Perform(s, ForHead(generic, control, names, level, block, k))
            == AndThen(Perform(s, WorkEvents(control, level, block, k + 1) + [MoveTop(level + 3), EmitOther(0)]),
                       [Enter, Enter] + ([MoveTop(level + 3 + names)] + if generic then [GoTo(Unique(k))] else []))
  {
    hide Perform, WorkEvents;
    PerformAppend(s, WorkEvents(control, level, block, k + 1) + [MoveTop(level + 3), EmitOther(0)],
                  [Enter, Enter] + ([MoveTop(level + 3 + names)] + if generic then [GoTo(Unique(k))] else []));
  }

  lemma ForBlocks(s: State, b: State, generic: bool, names: nat, level: nat, block: nat, k: nat, k': nat)
    requires Quiet(s, b, k) && Steady(b, level, k') && b.top == level + 3 && FindTarget(b.targets, Unique(k)).None? && k < k'
    requires block + 1 == |s.blocks|
    ensures var o := Perform(b, [Enter, Enter] + ([MoveTop(level + 3 + names)] + if generic then [GoTo(Unique(k))] else []));
            !o.Panics? && (o.Next? ==>
              Ready(o.state, level + 3 + names, block + 2, k') && Vacant(o.state) && ForReady(s, b, o.state, level, k, k'))
  {
    QuietBlocks(s, b, k);
    hide Perform, Steady, Quiet, FindTarget, Inside, Vacant, Based;
    ForEnter(b, generic, names, level, k, k');
  }

  lemma ForRuns(s: State, generic: bool, control: seq<Work>, names: nat, body: Body, level: nat, block: nat, k: nat)
    requires Ready(s, level, block, k)
    requires var o := Perform(s, ForHead(generic, control, names, level, block, k));
             o.Next? ==> BodySettled(o.state, body, level + 3 + names, block + 2, k + 1 + WorkLabels(control))
    ensures Settled(s, For(generic, control, names, body), level, block, k)
  {
    hide Perform, ForHead, ForTail, WorkLabels, Carries, Settled, Shaped, ForStarted, Vacant, Ready, BodySettled;
    ForBodySplit(s, generic, control, names, body, level, block, k);
    ForOpens(s, generic, control, names, level, block, k);
    var o := Perform(s, ForHead(generic, control, names, level, block, k));
    if o.Next? {
      ForCarries(s, generic, control, names, body, o.state, level, block, k);
    }
    Around(s, For(generic, control, names, body), ForHead(generic, control, names, level, block, k), body, ForTail(generic, level, k),
           level, block, k, level + 3 + names, block + 2, k + 1 + WorkLabels(control));
  }

  lemma ForCarries(s: State, generic: bool, control: seq<Work>, names: nat, body: Body, s1: State, level: nat, block: nat, k: nat)
    requires Ready(s, level, block, k) && ForStarted(s, s1, level, k, k + 1 + WorkLabels(control))
    requires BodySettled(s1, body, level + 3 + names, block + 2, k + 1 + WorkLabels(control))
    ensures Carries(s, For(generic, control, names, body), s1, body, ForTail(generic, level, k),
                    level, k, level + 3 + names, block + 2, k + 1 + WorkLabels(control))
  {
    hide Perform, BodyEvents, BadBody, BodyDone, BodyLabels, WorkLabels, ForStarted, Ends, Ready, ForTail;
    var o := Perform(s1, BodyEvents(body, level + 3 + names, block + 2, k + 1 + WorkLabels(control)));
    if o.Next? {
      ForGrows(s, generic, control, names, body, s1, o.state, level, block, k);
    }
  }

  lemma ForBodySplit(s: State, generic: bool, control: seq<Work>, names: nat, body: Body, level: nat, block: nat, k: nat)
    ensures Shaped(s, For(generic, control, names, body), ForHead(generic, control, names, level, block, k), body, ForTail(generic, level, k),
                   level, block, k, level + 3 + names, block + 2, k + 1 + WorkLabels(control))
  {
    hide Perform, BodyEvents, ForHead, ForTail, BadInside, BadAfter, WorkLabels, Shaped;
    ForBad(s, generic, control, names, body, level, block, k);
    Shapes(s, For(generic, control, names, body), ForHead(generic, control, names, level, block, k), body, ForTail(generic, level, k),
           level, block, k, level + 3 + names, block + 2, k + 1 + WorkLabels(control));
  }

  lemma ForBad(s: State, generic: bool, control: seq<Work>, names: nat, body: Body, level: nat, block: nat, k: nat)
    ensures BadInside(s, For(generic, control, names, body), level, block, k)
            <==> BadAfter(s, ForHead(generic, control, names, level, block, k), body, level + 3 + names, block + 2, k + 1 + WorkLabels(control))
  {
    hide BadAfter, ForHead, WorkLabels;
  }

  lemma ForGrows(s: State, generic: bool, control: seq<Work>, names: nat, body: Body, s1: State, s2: State, level: nat, block: nat, k: nat)
    requires Ready(s, level, block, k) && ForStarted(s, s1, level, k, k + 1 + WorkLabels(control))
    requires var k' := k + 1 + WorkLabels(control);
             BodyDone(s1, s2, level + 3 + names, k', k' + BodyLabels(body))
    ensures Ends(s, For(generic, control, names, body), s2, ForTail(generic, level, k), level, k)
  {
    hide Perform, Ready, ForReady, BodyDone, WorkLabels, BodyLabels, Steady, ForTail, Inside;
    var k' := k + 1 + WorkLabels(control);
    var b :| ForReady(s, b, s1, level, k, k');
    ForEnds(s, b, s1, s2, generic, level, names, block, k, k', k' + BodyLabels(body));
  }

  lemma ForEnds(s: State, b: State, s1: State, s2: State, generic: bool, level: nat, names: nat, block: nat, k: nat, k': nat, k'': nat)
    requires Ready(s, level, block, k) && ForReady(s, b, s1, level, k, k') && BodyDone(s1, s2, level + 3 + names, k', k'') && k < k' <= k''
    ensures var o := Perform(s2, ForTail(generic, level, k));
            !o.Panics? && (o.Next? ==>
              Inside(s, o.state, level + 3, false, k) && |o.state.blocks| == |s.blocks| && Steady(o.state, level, k'') && o.state.top == level)
  {
    SteadyBlocks(s, level, k);
    QuietBlocks(s, b, k);
    hide Perform, Steady, Inside, Opened, Closed, BodyDone, Based, Quiet, ForTail, Prolongs;
    BodyWithin(b, s1, s2, level + 3, false, k, level + 3 + names, 2, level + 3, k', k'');
    ForTailRuns(b, s2, generic, level, k, k', k'');
    var o := Perform(s2, ForTail(generic, level, k));
    if o.Next? {
      QuietInside(s, b, o.state, level + 3, false, k, k);
    }
  }

  // `if`.

  /** In front of an arm of the statement that began at `s0`. */
  ghost predicate ArmReady(s0: State, s: State, level: nat, block: nat, k0: nat, end: nat, next: nat, k: nat) {
    && Steady(s0, level, k0) && Inside(s0, s, level, true, k0) && Ready(s, level, block, k) && |s.blocks| == |s0.blocks|
    && k0 <= end < k && k0 <= next < k && end != next && Lacks(s.targets, end)
  }

  ghost predicate ArmsDone(s0: State, s: State, level: nat, k0: nat, k: nat) {
    Inside(s0, s, level, true, k0) && Steady(s, level, k) && |s.blocks| == |s0.blocks| && s.top == level
  }

  ghost predicate ArmsSettled(s0: State, s: State, arms: Arms, level: nat, block: nat, k0: nat, end: nat, next: nat, k: nat) {
    var o := Perform(s, ArmEvents(arms, level, block, end, next, k));
    && (o.Panics? <==> BadArms(s, arms, level, block, end, next, k))
    && (o.Next? ==> ArmsDone(s0, o.state, level, k0, k + ArmLabels(arms)))
  }

  lemma IfOpens(s: State, level: nat, block: nat, k: nat)
    requires Ready(s, level, block, k)
    ensures ArmReady(s, s, level, block, k, k, k + 1, k + 2)
  {
    InsideSelf(s, level, true, level, k);
    Higher(s, level, level, k, k + 2);
    hide Inside, Reached, Stacked;
    forall t | t in s.targets ensures t.lab != Unique(k) {
      assert TargetOk(s, t, level, k);
    }
  }

  lemma IfRuns(s: State, arms: Arms, level: nat, block: nat, k: nat)
    requires ArmsSettled(s, s, arms, level, block, k, k, k + 1, k + 2)
    ensures Settled(s, If(arms), level, block, k)
  {
    hide Perform, ArmEvents, BadArms, Steady, Inside;
  }

  /** The condition of an arm holds. */
  ghost predicate ArmOpen(s0: State, s1: State, level: nat, block: nat, k0: nat, end: nat, k: nat) {
    && Inside(s0, s1, level, true, k0) && Ready(s1, level, block + 1, k) && Vacant(s1) && Opened(s0, s1, 1, level) && Lacks(s1.targets, end)
  }

  lemma ArmOpenReady(s0: State, s1: State, level: nat, block: nat, k0: nat, end: nat, k: nat)
    requires ArmOpen(s0, s1, level, block, k0, end, k)
    ensures Ready(s1, level, block + 1, k) && Vacant(s1)
  {
  }

  lemma ArmOpens(s0: State, s: State, condition: seq<Work>, level: nat, block: nat, k0: nat, end: nat, next: nat, k: nat)
    requires ArmReady(s0, s, level, block, k0, end, next, k)
    ensures var o := Perform(s, TestHead(condition, level, block, next, k));
            !o.Panics? && (o.Next? ==> ArmOpen(s0, o.state, level, block, k0, end, k + 1 + WorkLabels(condition)))
  {
    hide Perform, Steady, Inside, Vacant, WorkLabels, TestHead, Prolongs, Lacks;
    TestRuns(s0, s, condition, level, block, k0, next, k);
    var o := Perform(s, TestHead(condition, level, block, next, k));
    if o.Next? {
      StillLacks(s.targets, Target(Unique(next), |s.ops|, level, block), o.state.targets, end, k);
    }
  }

  lemma StillLacks(ts: seq<Target>, t: Target, ts': seq<Target>, id: nat, k: nat)
    requires Lacks(ts, id) && t.lab != Unique(id) && Prolongs(ts + [t], ts', k) && id < k
    ensures Lacks(ts', id)
  {
    forall i | 0 <= i < |ts'| ensures ts'[i].lab != Unique(id) {
      if i < |ts + [t]| {
        assert ts'[i] == (ts + [t])[i];
      }
    }
  }

  lemma LacksMore(ts: seq<Target>, ts': seq<Target>, id: nat, k: nat)
    requires Lacks(ts, id) && Prolongs(ts, ts', k) && id < k
    ensures Lacks(ts', id)
  {
    forall i | 0 <= i < |ts'| ensures ts'[i].lab != Unique(id) {
      if i < |ts| {
        assert ts'[i] == ts[i];
      }
    }
  }

  /** An arm fails, or the next one can begin. */
  ghost predicate ArmGoes(s0: State, o: Outcome, bad: bool, level: nat, block: nat, k0: nat, end: nat, next: nat, k: nat) {
    (o.Panics? <==> bad) && (o.Next? ==> ArmReady(s0, o.state, level, block, k0, end, next, k))
  }

  lemma OneArmRuns(s0: State, s: State, condition: seq<Work>, body: Body, rest: Arms, level: nat, block: nat, k0: nat, end: nat, next: nat, k: nat)
    requires ArmReady(s0, s, level, block, k0, end, next, k)
    requires var o := Perform(s, TestHead(condition, level, block, next, k));
             o.Next? ==> BodySettled(o.state, body, level, block + 1, k + 1 + WorkLabels(condition))
    ensures ArmGoes(s0, Perform(s, OneArm(condition, body, rest.EndIf?, level, block, end, next, k)),
                    BadAfter(s, TestHead(condition, level, block, next, k), body, level, block + 1, k + 1 + WorkLabels(condition)),
                    level, block, k0, end, k, k + 1 + WorkLabels(condition) + BodyLabels(body))
  {
    hide Perform, BodyEvents, TestHead, OneArm, BadBody, BodyLabels, WorkLabels, ArmReady, ArmOpen, BodySettled;
    ArmSplit(s, condition, body, rest.EndIf?, level, block, end, next, k);
    ArmOpens(s0, s, condition, level, block, k0, end, next, k);
    var o := Perform(s, TestHead(condition, level, block, next, k));
    if o.Next? {
      ArmRest(s0, s, o.state, body, rest.EndIf?, level, block, k0, end, next, k, k + 1 + WorkLabels(condition));
    }
  }

  lemma ArmRest(s0: State, s: State, s1: State, body: Body, last: bool, level: nat, block: nat, k0: nat, end: nat, next: nat, k: nat, k': nat)
    requires ArmReady(s0, s, level, block, k0, end, next, k) && k < k' && BodySettled(s1, body, level, block + 1, k')
    requires ArmOpen(s0, s1, level, block, k0, end, k')
    ensures ArmGoes(s0, AndThen(Perform(s1, BodyEvents(body, level, block + 1, k')), (if last then [] else [GoTo(Unique(end))]) + [Exit(level)]),
                    BadBody(s1, body, level, block + 1, k'), level, block, k0, end, k, k' + BodyLabels(body))
  {
    hide Perform, BodyEvents, Steady, BadBody, BodyDone, BodyLabels, Inside, Opened, Lacks, Vacant;
    var o := Perform(s1, BodyEvents(body, level, block + 1, k'));
    if o.Next? {
      ArmEnds(s0, s1, o.state, last, level, block, k0, end, k, k', k' + BodyLabels(body));
    }
  }

  lemma ArmSplit(s: State, condition: seq<Work>, body: Body, last: bool, level: nat, block: nat, end: nat, next: nat, k: nat)
    ensures Perform(s, OneArm(condition, body, last, level, block, end, next, k))
            == AndThen(AndThen(Perform(s, TestHead(condition, level, block, next, k)),
                               BodyEvents(body, level, block + 1, k + 1 + WorkLabels(condition))),
                       (if last then [] else [GoTo(Unique(end))]) + [Exit(level)])
  {
    hide Perform, BodyEvents, TestHead;
    PerformThree(s, TestHead(condition, level, block, next, k), BodyEvents(body, level, block + 1, k + 1 + WorkLabels(condition)),
                 (if last then [] else [GoTo(Unique(end))]) + [Exit(level)]);
  }

  lemma ArmEnds(s0: State, s1: State, s2: State, last: bool, level: nat, block: nat, k0: nat, end: nat, k: nat, k': nat, k'': nat)
    requires Steady(s0, level, k0) && Inside(s0, s1, level, true, k0) && Opened(s0, s1, 1, level) && Lacks(s1.targets, end)
    requires BodyDone(s1, s2, level, k', k'') && k0 <= end < k < k' <= k'' && |s0.blocks| == block + 1
    ensures var o := Perform(s2, (if last then [] else [GoTo(Unique(end))]) + [Exit(level)]);
            !o.Panics? && (o.Next? ==> ArmReady(s0, o.state, level, block, k0, end, k, k''))
  {
    hide Perform, Steady, Inside, Opened, Closed, BodyDone, Based, Prolongs, Lacks;
    BodyWithin(s0, s1, s2, level, true, k0, level, 1, level, k', k'');
    LacksMore(s1.targets, s2.targets, end, k');
    ArmTail(s0, s2, last, level, k0, end, k'');
  }

  lemma ArmThenRest(s0: State, s: State, condition: seq<Work>, body: Body, rest: Arms, level: nat, block: nat, k0: nat, end: nat, next: nat, k: nat)
    requires var o := Perform(s, OneArm(condition, body, rest.EndIf?, level, block, end, next, k));
             && ArmGoes(s0, o, BadAfter(s, TestHead(condition, level, block, next, k), body, level, block + 1, k + 1 + WorkLabels(condition)),
                        level, block, k0, end, k, k + 1 + WorkLabels(condition) + BodyLabels(body))
             && (o.Next? ==> ArmsSettled(s0, o.state, rest, level, block, k0, end, k, k + 1 + WorkLabels(condition) + BodyLabels(body)))
    ensures ArmsSettled(s0, s, Arm(condition, body, rest), level, block, k0, end, next, k)
  {
    hide Perform, ArmEvents, BadAfter, OneArm, TestHead, ArmsDone, BadArms, ArmReady, BodyLabels, WorkLabels;
    ArmsSplit(s, condition, body, rest, level, block, end, next, k);
    ArmsBad(s, condition, body, rest, level, block, end, next, k);
  }

  lemma ArmsSplit(s: State, condition: seq<Work>, body: Body, rest: Arms, level: nat, block: nat, end: nat, next: nat, k: nat)
    ensures Perform(s, ArmEvents(Arm(condition, body, rest), level, block, end, next, k))
            == AndThen(Perform(s, OneArm(condition, body, rest.EndIf?, level, block, end, next, k)),
                       ArmEvents(rest, level, block, end, k, k + 1 + WorkLabels(condition) + BodyLabels(body)))
  {
    hide Perform, OneArm, WorkLabels, BodyLabels;
    PerformAppend(s, OneArm(condition, body, rest.EndIf?, level, block, end, next, k),
                  ArmEvents(rest, level, block, end, k, k + 1 + WorkLabels(condition) + BodyLabels(body)));
  }

  lemma ArmsBad(s: State, condition: seq<Work>, body: Body, rest: Arms, level: nat, block: nat, end: nat, next: nat, k: nat)
    ensures var o := Perform(s, OneArm(condition, body, rest.EndIf?, level, block, end, next, k));
            BadArms(s, Arm(condition, body, rest), level, block, end, next, k) <==>
              BadAfter(s, TestHead(condition, level, block, next, k), body, level, block + 1, k + 1 + WorkLabels(condition))
              || (o.Next? && BadArms(o.state, rest, level, block, end, k, k + 1 + WorkLabels(condition) + BodyLabels(body)))
  {
    hide Perform, OneArm, WorkLabels, BodyLabels, BadAfter, TestHead;
  }

  ghost predicate ElseOpen(s0: State, s1: State, level: nat, block: nat, k0: nat, k: nat) {
    Inside(s0, s1, level, true, k0) && Ready(s1, level, block + 1, k) && Vacant(s1) && Opened(s0, s1, 1, level)
  }

  lemma ElseOpenReady(s0: State, s1: State, level: nat, block: nat, k0: nat, k: nat)
    requires ElseOpen(s0, s1, level, block, k0, k)
    ensures Ready(s1, level, block + 1, k) && Vacant(s1)
  {
  }

  lemma ElseOpens(s0: State, s: State, level: nat, block: nat, k0: nat, end: nat, next: nat, k: nat)
    requires ArmReady(s0, s, level, block, k0, end, next, k)
    ensures var o := Perform(s, [Place(Unique(next)), Enter]);
            !o.Panics? && (o.Next? ==>
              ElseOpen(s0, o.state, level, block, k0, k))
  {
    assert [Place(Unique(next)), Enter] == [Place(Unique(next))] + [Enter];
    hide Perform, Steady, Inside, Lacks, Apply;
    PerformMore(s, Place(Unique(next)), [Enter]);
    PlaceOwn(s0, s, next, level, true, level, k0, level, k);
    var o := Apply(s, Place(Unique(next)));
    if o.Next? {
      PerformOne(o.state, Enter);
      EnterInside(s0, o.state, level, true, k0, level, k);
      SteadyBlocks(o.state, level, k);
    }
  }

  lemma ElseRuns(s0: State, s: State, body: Body, level: nat, block: nat, k0: nat, end: nat, next: nat, k: nat)
    requires ArmReady(s0, s, level, block, k0, end, next, k)
    requires var o := Perform(s, [Place(Unique(next)), Enter]);
             o.Next? ==> BodySettled(o.state, body, level, block + 1, k)
    ensures ArmsSettled(s0, s, Else(body), level, block, k0, end, next, k)
  {
    hide Perform, BodyEvents, ArmEvents, BadBody, BadArms, BodyLabels, ElseOpen, ArmsDone, ArmReady, BodySettled;
    ElseSplit(s, body, level, block, end, next, k);
    ElseOpens(s0, s, level, block, k0, end, next, k);
    ArmReadyFacts(s0, s, level, block, k0, end, next, k);
    var o := Perform(s, [Place(Unique(next)), Enter]);
    if o.Next? {
      ElseRest(s0, o.state, body, level, block, k0, end, k);
    }
  }

  lemma ArmReadyFacts(s0: State, s: State, level: nat, block: nat, k0: nat, end: nat, next: nat, k: nat)
    requires ArmReady(s0, s, level, block, k0, end, next, k)
    ensures Steady(s0, level, k0) && k0 <= end < k
  {
  }

  lemma ElseRest(s0: State, s1: State, body: Body, level: nat, block: nat, k0: nat, end: nat, k: nat)
    requires Steady(s0, level, k0) && ElseOpen(s0, s1, level, block, k0, k) && k0 <= end < k
    requires BodySettled(s1, body, level, block + 1, k)
    ensures var o := AndThen(Perform(s1, BodyEvents(body, level, block + 1, k)), [Exit(level), Place(Unique(end))]);
            (o.Panics? <==> BadBody(s1, body, level, block + 1, k)) && (o.Next? ==> ArmsDone(s0, o.state, level, k0, k + BodyLabels(body)))
  {
    hide Perform, BodyEvents, Steady, BadBody, BodyDone, BodyLabels, Inside, Opened, ArmsDone;
    var o := Perform(s1, BodyEvents(body, level, block + 1, k));
    if o.Next? {
      ElseEnds(s0, s1, o.state, level, k0, end, k, k + BodyLabels(body));
    }
  }

  lemma ElseSplit(s: State, body: Body, level: nat, block: nat, end: nat, next: nat, k: nat)
    ensures BadArms(s, Else(body), level, block, end, next, k) <==> BadAfter(s, [Place(Unique(next)), Enter], body, level, block + 1, k)
    ensures Perform(s, ArmEvents(Else(body), level, block, end, next, k))
            == AndThen(AndThen(Perform(s, [Place(Unique(next)), Enter]), BodyEvents(body, level, block + 1, k)), [Exit(level), Place(Unique(end))])
  {
    hide Perform, BodyEvents, BadBody;
    PerformThree(s, [Place(Unique(next)), Enter], BodyEvents(body, level, block + 1, k), [Exit(level), Place(Unique(end))]);
  }

  lemma ElseEnds(s0: State, s1: State, s2: State, level: nat, k0: nat, end: nat, k: nat, k': nat)
    requires Steady(s0, level, k0) && Inside(s0, s1, level, true, k0) && Opened(s0, s1, 1, level)
    requires BodyDone(s1, s2, level, k, k') && k0 <= end < k <= k'
    ensures var o := Perform(s2, [Exit(level), Place(Unique(end))]);
            !o.Panics? && (o.Next? ==> ArmsDone(s0, o.state, level, k0, k'))
  {
    assert [Exit(level), Place(Unique(end))] == [Exit(level)] + [Place(Unique(end))];
    hide Perform, Steady, Inside, Opened, Closed, BodyDone, Based, Prolongs, Apply, LeftAt;
    BodyWithin(s0, s1, s2, level, true, k0, level, 1, level, k, k');
    PerformMore(s2, Exit(level), [Place(Unique(end))]);
    LeaveLoop(s0, s2, level, true, k0, k');
    var o := Apply(s2, Exit(level));
    if o.Next? {
      PerformOne(o.state, Place(Unique(end)));
      PlaceOwn(s0, o.state, end, level, true, level, k0, level, k');
    }
  }

  lemma EndIfRuns(s0: State, s: State, level: nat, block: nat, k0: nat, end: nat, next: nat, k: nat)
    requires ArmReady(s0, s, level, block, k0, end, next, k)
    ensures ArmsSettled(s0, s, EndIf, level, block, k0, end, next, k)
  {
    var e1, e2 := Place(Unique(next)), Place(Unique(end));
    assert [e1, e2] == [e1] + [e2];
    hide Perform, Steady, Inside, Lacks, Apply;
    PerformMore(s, e1, [e2]);
    PlaceOwn(s0, s, next, level, true, level, k0, level, k);
    var o := Apply(s, e1);
    if o.Next? {
      PerformOne(o.state, e2);
      PlaceOwn(s0, o.state, end, level, true, level, k0, level, k);
    }
  }
}
