/** The events before and behind the bodies of statements. */
module JumpParts {
  import opened Values
  import opened Jumps
  import opened JumpHistory
  import opened JumpSteps
  import opened JumpSyntax
  import opened JumpRuns

  /** The registers that a statement still holds where jumps out of it continue: the control values of a loop. */
  function Out(st: Statement): nat {
    if st.For? then 3 else 0
  }

  /** What a statement leaves. */
  ghost predicate Grew(s: State, s': State, st: Statement, level: nat, k: nat) {
    && Inside(s, s', level + Out(st), !st.For?, k) && |s'.blocks| == |s.blocks|
    && Steady(s', level + DeclaredBy(st), k + LabelsOf(st)) && s'.top == level + DeclaredBy(st)
  }

  /** No jump to a later label waits in the current block: its statements are all still to come. */
  ghost predicate Vacant(s: State) {
    forall p :: p in s.pending && p.blockIndex + 1 == |s.blocks| ==> p.lab.Unique?
  }

  /** The body of a statement is about to begin, `depth` blocks further in, with its variables above `bottom`. */
  ghost predicate Opened(s0: State, s: State, depth: nat, bottom: nat) {
    && |s.blocks| == |s0.blocks| + depth && depth > 0 && Vacant(s)
    && (forall b :: |s0.blocks| <= b < |s.blocks| ==> s.blocks[b].stackBottom == bottom)
    && (forall p :: p in s.pending ==> p.blockIndex < |s0.blocks| || p.blockIndex + 1 == |s.blocks|)
  }

  /** Behind the body: no `break` waits above the registers in use. */
  ghost predicate Closed(s0: State, s: State, depth: nat, bottom: nat) {
    && |s.blocks| == |s0.blocks| + depth && depth > 0
    && (forall b :: |s0.blocks| <= b < |s.blocks| ==> s.blocks[b].stackBottom == bottom)
    && forall p :: p in s.pending ==>
         p.blockIndex < |s0.blocks| || (p.blockIndex + 1 == |s.blocks| && (p.lab.Break? ==> p.stackTop <= s.top))
  }

  lemma BodyCloses(s0: State, s: State, s': State, depth: nat, bottom: nat, k: nat)
    requires Opened(s0, s, depth, bottom) && Ran(s, s', k)
    ensures Closed(s0, s', depth, bottom)
  {
    forall p | p in s'.pending
      ensures p.blockIndex < |s0.blocks| || (p.blockIndex + 1 == |s'.blocks| && (p.lab.Break? ==> p.stackTop <= s'.top))
    {
      assert p in s.pending || Leaves(s, s', p);
    }
  }

  /** A label of the statement's own, in the block that it began in. */
  lemma OwnLabel(s0: State, s: State, at: nat, breaks: bool, level: nat, k: nat, id: nat)
    requires Steady(s0, level, k) && Inside(s0, s, at, breaks, k) && |s.blocks| == |s0.blocks| && at <= s.top && k <= id
    ensures forall p :: p in s.pending && Resolves(p, |s.blocks| - 1, Unique(id)) ==> p.stackTop <= s.top
  {
    hide Reached, Stacked;
    forall p | p in s.pending && Resolves(p, |s.blocks| - 1, Unique(id)) ensures p.stackTop <= s.top {
      assert p in s0.pending || Arose(s0, s, p, at, breaks);
      assert p in s0.pending ==> PendingOk(s0, p, k);
    }
  }

  lemma PlaceOwn(s0: State, s: State, id: nat, at: nat, breaks: bool, level0: nat, k0: nat, level: nat, k: nat)
    requires Steady(s0, level0, k0) && Inside(s0, s, at, breaks, k0) && |s.blocks| == |s0.blocks| && at <= s.top
    requires Steady(s, level, k) && k0 <= id < k
    ensures !Apply(s, Place(Unique(id))).Panics?
    ensures Apply(s, Place(Unique(id))).Next? ==>
              var s' := Apply(s, Place(Unique(id))).state;
              Inside(s0, s', at, breaks, k0) && Steady(s', level, k) && |s'.blocks| == |s.blocks| && s'.top == s.top
              && s'.targets == s.targets + [Target(Unique(id), |s.ops|, s.top, |s.blocks| - 1)]
  {
    SteadyBlocks(s, level, k);
    OwnLabel(s0, s, at, breaks, level0, k0, id);
    hide Inside, Steady, Apply;
    PlaceInside(s0, s, Unique(id), at, breaks, k0, level, k);
  }

  // Tests.

  /** The label of a test has been placed at `level`. */
  ghost predicate Marked(s: State, s': State, level: nat, block: nat, placed: nat, skip: nat) {
    Prolongs(s.targets + [Target(Unique(placed), |s.ops|, level, block)], s'.targets, skip)
  }

  lemma TestRuns(s0: State, s: State, condition: seq<Work>, level: nat, block: nat, k0: nat, placed: nat, skip: nat)
    requires Steady(s0, level, k0) && Inside(s0, s, level, true, k0) && Steady(s, level, skip) && s.top == level
    requires |s.blocks| == |s0.blocks| == block + 1 && k0 <= placed < skip
    ensures var o := Perform(s, TestHead(condition, level, block, placed, skip));
            !o.Panics? && (o.Next? ==>
              && Inside(s0, o.state, level, true, k0) && Steady(o.state, level, skip + 1 + WorkLabels(condition)) && o.state.top == level
              && Opened(s0, o.state, 1, level) && Marked(s, o.state, level, block, placed, skip))
  {
    TestSplit(s, condition, level, block, placed, skip);
    hide Perform, Apply, Steady, Inside, Opened, Quiet, WorkEvents, TestHead;
    PlaceOwn(s0, s, placed, level, true, level, k0, level, skip);
    var o := Apply(s, Place(Unique(placed)));
    if o.Next? {
      TestWork(s0, o.state, condition, level, block, k0, skip);
    }
  }

  function TestRest(o: Outcome, condition: seq<Work>, level: nat, block: nat, skip: nat): Outcome {
    AndThen(AndThen(o, WorkEvents(condition, level, block, skip + 1)), [MoveTop(level), GoTo(Unique(skip)), Enter])
  }

  lemma TestSplit(s: State, condition: seq<Work>, level: nat, block: nat, placed: nat, skip: nat)
    ensures Perform(s, TestHead(condition, level, block, placed, skip))
            == TestRest(Apply(s, Place(Unique(placed))), condition, level, block, skip)
  {
    hide Perform, Apply, WorkEvents;
    var mark, work := [Place(Unique(placed))], WorkEvents(condition, level, block, skip + 1);
    PerformAppend(s, mark + work, [MoveTop(level), GoTo(Unique(skip)), Enter]);
    PerformAppend(s, mark, work);
    PerformOne(s, mark[0]);
  }

  lemma TestWork(s0: State, s: State, condition: seq<Work>, level: nat, block: nat, k0: nat, skip: nat)
    requires Inside(s0, s, level, true, k0) && Steady(s, level, skip) && |s.blocks| == |s0.blocks| == block + 1 && k0 <= skip
    ensures var o := TestRest(Next(s), condition, level, block, skip);
            !o.Panics? && (o.Next? ==>
              && Inside(s0, o.state, level, true, k0) && Steady(o.state, level, skip + 1 + WorkLabels(condition)) && o.state.top == level
              && Opened(s0, o.state, 1, level) && Prolongs(s.targets, o.state.targets, skip))
  {
    hide Perform, Apply, Steady, Inside, Opened, Quiet, WorkEvents, Prolongs;
    SteadyBlocks(s, level, skip);
    Higher(s, level, level, skip, skip + 1);
    WorkRuns(s, condition, level, block, skip + 1);
    var o := Perform(s, WorkEvents(condition, level, block, skip + 1));
    if o.Next? {
      var k' := skip + 1 + WorkLabels(condition);
      QuietBlocks(s, o.state, skip + 1);
      QuietTargets(s, o.state, skip + 1);
      InsideQuiet(s0, s, o.state, level, true, k0, skip + 1);
      Unplaced(s, level, skip, o.state.targets, skip + 1, skip);
      TestTail(s0, o.state, level, block, k0, skip, k');
      ProlongsWeaker(s.targets, o.state.targets, skip + 1, skip);
    }
  }

  lemma QuietTargets(s: State, s': State, k: nat)
    requires Quiet(s, s', k)
    ensures Prolongs(s.targets, s'.targets, k)
  {
  }

  lemma ProlongsWeaker(ts: seq<Target>, ts': seq<Target>, k: nat, k': nat)
    requires Prolongs(ts, ts', k) && k' <= k
    ensures Prolongs(ts, ts', k')
  {
  }

  lemma TestTail(s0: State, s: State, level: nat, block: nat, k0: nat, skip: nat, k: nat)
    requires Inside(s0, s, level, true, k0) && Steady(s, level, k) && |s.blocks| == |s0.blocks| == block + 1
    requires FindTarget(s.targets, Unique(skip)).None? && k0 <= skip < k
    ensures var o := Perform(s, [MoveTop(level), GoTo(Unique(skip)), Enter]);
            !o.Panics? && (o.Next? ==>
              && Inside(s0, o.state, level, true, k0) && Steady(o.state, level, k) && o.state.top == level
              && Opened(s0, o.state, 1, level) && o.state.targets == s.targets)
  {
    hide FindTarget, Inside, Apply, Steady;
    var e1, e2, e3 := MoveTop(level), GoTo(Unique(skip)), Enter;
    assert [e1, e2, e3] == [e1] + [e2, e3] && [e2, e3] == [e2] + [e3];
    PerformMore(s, e1, [e2, e3]);
    PlainQuiet(s, e1, level, k);
    var s1 := Apply(s, e1).state;
    QuietBlocks(s, s1, k);
    InsideQuiet(s0, s, s1, level, true, k0, k);
    PerformMore(s1, e2, [e3]);
    GoInside(s0, s1, Unique(skip), level, true, k0, level, k);
    if Apply(s1, e2).Next? {
      var s2 := Apply(s1, e2).state;
      PerformOne(s2, e3);
      EnterInside(s0, s2, level, true, k0, level, k);
      SteadyBlocks(s2, level, k);
    }
  }

  // Behind a body.

  /** No jump waits in the current block above the registers in use. */
  ghost predicate Low(s: State) {
    forall p :: p in s.pending && p.blockIndex + 1 == |s.blocks| ==> p.stackTop <= s.top
  }

  ghost predicate NoBreaks(s: State) {
    forall p :: p in s.pending && p.blockIndex + 1 == |s.blocks| ==> !p.lab.Break?
  }

  /** `break` leads behind the body. */
  lemma PlaceBreak(s0: State, s: State, at: nat, breaks: bool, k0: nat, k: nat, depth: nat, bottom: nat)
    requires Inside(s0, s, at, breaks, k0) && Steady(s, s.top, k) && Closed(s0, s, depth, bottom)
    ensures !Apply(s, Place(Break)).Panics?
    ensures Apply(s, Place(Break)).Next? ==>
              var s' := Apply(s, Place(Break)).state;
              Inside(s0, s', at, breaks, k0) && Steady(s', s.top, k) && Closed(s0, s', depth, bottom) && s'.top == s.top
              && s'.blocks == s.blocks && NoBreaks(s')
  {
    hide Inside, Steady, Apply;
    PlaceInside(s0, s, Break, at, breaks, k0, s.top, k);
  }

  /** The end of the statement's only block. */
  lemma LeaveLoop(s0: State, s: State, at: nat, breaks: bool, k0: nat, k: nat)
    requires Inside(s0, s, at, breaks, k0) && Steady(s, s.top, k) && Closed(s0, s, 1, at) && (breaks || NoBreaks(s))
    ensures !Apply(s, Exit(at)).Panics?
    ensures Apply(s, Exit(at)).Next? ==>
              var s' := Apply(s, Exit(at)).state;
              Inside(s0, s', at, breaks, k0) && Steady(s', at, k) && |s'.blocks| == |s0.blocks| && s'.top == at && LeftAt(s, s', at)
  {
    hide Inside, Steady, Apply;
    ExitInside(s0, s, at, at, breaks, k0, s.top, k);
  }

  /** The end of the inner one of two blocks. */
  lemma LeaveInner(s0: State, s: State, at: nat, breaks: bool, k0: nat, k: nat, bottom: nat)
    requires Inside(s0, s, at, breaks, k0) && Steady(s, s.top, k) && Closed(s0, s, 2, bottom)
    ensures !Apply(s, Exit(bottom)).Panics?
    ensures Apply(s, Exit(bottom)).Next? ==>
              var s' := Apply(s, Exit(bottom)).state;
              Inside(s0, s', at, breaks, k0) && Steady(s', bottom, k) && Closed(s0, s', 1, bottom) && Low(s') && s'.top == bottom
              && LeftAt(s, s', bottom)
  {
    ExitInside(s0, s, bottom, at, breaks, k0, s.top, k);
    if Apply(s, Exit(bottom)).Next? {
      SteadyBlocks(Apply(s, Exit(bottom)).state, bottom, k);
      hide Inside, Steady, Apply;
    }
  }

  lemma WhileTail(s0: State, s: State, level: nat, k: nat, k': nat)
    requires Steady(s0, level, k) && Inside(s0, s, level, true, k) && Steady(s, s.top, k') && Closed(s0, s, 1, level) && k + 1 < k'
    requires FindTarget(s.targets, Unique(k)).Some? && FindTarget(s.targets, Unique(k)).value.stackTop <= s.top
    ensures var o := Perform(s, [GoTo(Unique(k)), Place(Break), Exit(level), Place(Unique(k + 1))]);
            !o.Panics? && (o.Next? ==>
              Inside(s0, o.state, level, true, k) && Steady(o.state, level, k') && |o.state.blocks| == |s0.blocks| && o.state.top == level)
  {
    hide Inside, Steady, Apply, FindTarget, LeftAt;
    var e1, e2, e3, e4 := GoTo(Unique(k)), Place(Break), Exit(level), Place(Unique(k + 1));
    assert [e1, e2, e3, e4] == [e1] + [e2, e3, e4] && [e2, e3, e4] == [e2] + [e3, e4] && [e3, e4] == [e3] + [e4];
    hide Perform;
    PerformMore(s, e1, [e2, e3, e4]);
    BackInside(s0, s, Unique(k), level, true, k, s.top, k');
    if Apply(s, e1).Next? {
      var s1 := Apply(s, e1).state;
      PerformMore(s1, e2, [e3, e4]);
      PlaceBreak(s0, s1, level, true, k, k', 1, level);
      if Apply(s1, e2).Next? {
        var s2 := Apply(s1, e2).state;
        PerformMore(s2, e3, [e4]);
        LeaveLoop(s0, s2, level, true, k, k');
        if Apply(s2, e3).Next? {
          PerformOne(Apply(s2, e3).state, e4);
          PlaceOwn(s0, Apply(s2, e3).state, k + 1, level, true, level, k, level, k');
        }
      }
    }
  }

  // `repeat`.

  function Twice(s: State): State {
    EnterBlock(EnterBlock(s))
  }

  lemma PerformTwice(s: State, es: seq<Event>)
    ensures Perform(s, [Enter, Enter] + es) == Perform(Twice(s), es)
  {
    assert [Enter, Enter] + es == [Enter] + ([Enter] + es);
    PerformMore(s, Enter, [Enter] + es);
    PerformMore(EnterBlock(s), Enter, es);
  }

  lemma TwiceOpened(s: State, level: nat, k0: nat, k: nat, at: nat, breaks: bool)
    requires Inside(s, s, at, breaks, k0) && Steady(s, level, k) && s.top == level
    ensures var s' := Twice(s);
            && Inside(s, s', at, breaks, k0) && Steady(s', level, k) && s'.top == level && s'.targets == s.targets && s'.pending == s.pending
            && s'.ops == s.ops && s'.blocks == s.blocks + [Block(level, |s.targets|, false), Block(level, |s.targets|, false)]
            && Opened(s, s', 2, level)
  {
    SteadyBlocks(s, level, k);
    EnterInside(s, s, at, breaks, k0, level, k);
    EnterInside(s, EnterBlock(s), at, breaks, k0, level, k);
    hide Inside, Steady;
  }

  lemma RepeatHead(s: State, level: nat, k: nat)
    requires Steady(s, level, k) && s.top == level
    ensures var o := Perform(s, [Enter, Enter, Place(Unique(k))]);
            !o.Panics? && (o.Next? ==>
              && Inside(s, o.state, level, true, k) && Steady(o.state, level, k + 1) && o.state.top == level && Opened(s, o.state, 2, level)
              && o.state.targets == s.targets + [Target(Unique(k), |s.ops|, level, |s.blocks| + 1)])
  {
    InsideSelf(s, level, true, level, k);
    PerformTwice(s, [Place(Unique(k))]);
    assert [Enter, Enter] + [Place(Unique(k))] == [Enter, Enter, Place(Unique(k))];
    PerformOne(Twice(s), Place(Unique(k)));
    SteadyBlocks(s, level, k);
    hide Inside, Steady, Apply, Perform, Twice;
    Higher(s, level, level, k, k + 1);
    TwiceOpened(s, level, k, k + 1, level, true);
    PlaceInside(s, Twice(s), Unique(k), level, true, k, level, k + 1);
  }

  lemma RepeatTail(s0: State, s: State, level: nat, k: nat, k': nat)
    requires Steady(s0, level, k) && Inside(s0, s, level, true, k) && Steady(s, s.top, k') && Closed(s0, s, 2, level) && k < k'
    requires FindTarget(s.targets, Unique(k)).Some? && FindTarget(s.targets, Unique(k)).value.stackTop <= s.top
    ensures var o := Perform(s, [GoTo(Unique(k)), Exit(level), Place(Break), Exit(level)]);
            !o.Panics? && (o.Next? ==>
              Inside(s0, o.state, level, true, k) && Steady(o.state, level, k') && |o.state.blocks| == |s0.blocks| && o.state.top == level)
  {
    hide Inside, Steady, Apply, FindTarget, LeftAt;
    var e1, e2, e3 := GoTo(Unique(k)), Exit(level), Place(Break);
    assert [e1, e2, e3, e2] == [e1] + [e2, e3, e2] && [e2, e3, e2] == [e2] + [e3, e2] && [e3, e2] == [e3] + [e2];
    hide Perform;
    PerformMore(s, e1, [e2, e3, e2]);
    BackInside(s0, s, Unique(k), level, true, k, s.top, k');
    if Apply(s, e1).Next? {
      var s1 := Apply(s, e1).state;
      PerformMore(s1, e2, [e3, e2]);
      LeaveInner(s0, s1, level, true, k, k', level);
      if Apply(s1, e2).Next? {
        var s2 := Apply(s1, e2).state;
        PerformMore(s2, e3, [e2]);
        PlaceBreak(s0, s2, level, true, k, k', 1, level);
        if Apply(s2, e3).Next? {
          PerformOne(Apply(s2, e3).state, e2);
          LeaveLoop(s0, Apply(s2, e3).state, level, true, k, k');
        }
      }
    }
  }

  // `if`.

  ghost predicate Lacks(ts: seq<Target>, id: nat) {
    forall t :: t in ts ==> t.lab != Unique(id)
  }

  lemma ArmTail(s0: State, s: State, last: bool, level: nat, k0: nat, end: nat, k: nat)
    requires Inside(s0, s, level, true, k0) && Steady(s, s.top, k) && Closed(s0, s, 1, level) && Lacks(s.targets, end) && end < k
    ensures var o := Perform(s, (if last then [] else [GoTo(Unique(end))]) + [Exit(level)]);
            !o.Panics? && (o.Next? ==>
              Inside(s0, o.state, level, true, k0) && Steady(o.state, level, k) && |o.state.blocks| == |s0.blocks| && o.state.top == level
              && Lacks(o.state.targets, end))
  {
    hide Inside, Steady, Apply, Perform;
    var e := Exit(level);
    if last {
      assert [] + [e] == [e];
      PerformOne(s, e);
      LeaveLoop(s0, s, level, true, k0, k);
    } else {
      PerformMore(s, GoTo(Unique(end)), [e]);
      GoInside(s0, s, Unique(end), level, true, k0, s.top, k);
      if Apply(s, GoTo(Unique(end))).Next? {
        var s1 := Apply(s, GoTo(Unique(end))).state;
        PerformOne(s1, e);
        LeaveLoop(s0, s1, level, true, k0, k);
      }
    }
  }

  // `for`.

  lemma ForBase(s: State, control: seq<Work>, level: nat, block: nat, k: nat)
    requires Steady(s, level, k) && block + 1 == |s.blocks|
    ensures var o := Perform(s, WorkEvents(control, level, block, k + 1) + [MoveTop(level + 3), EmitOther(0)]);
            !o.Panics? && (o.Next? ==>
              Quiet(s, o.state, k) && Steady(o.state, level, k + 1 + WorkLabels(control)) && o.state.top == level + 3
              && FindTarget(o.state.targets, Unique(k)).None?)
  {
    hide Perform, Steady, Quiet, FindTarget, AndThen;
    PerformAppend(s, WorkEvents(control, level, block, k + 1), [MoveTop(level + 3), EmitOther(0)]);
    ControlRuns(s, control, level, block, k);
  }

  lemma ControlRuns(s: State, control: seq<Work>, level: nat, block: nat, k: nat)
    requires Steady(s, level, k) && block + 1 == |s.blocks|
    ensures var o := AndThen(Perform(s, WorkEvents(control, level, block, k + 1)), [MoveTop(level + 3), EmitOther(0)]);
            !o.Panics? && (o.Next? ==>
              Quiet(s, o.state, k) && Steady(o.state, level, k + 1 + WorkLabels(control)) && o.state.top == level + 3
              && FindTarget(o.state.targets, Unique(k)).None?)
  {
    hide Perform, WorkEvents, Steady, Quiet, FindTarget, WorkLabels, Prolongs;
    SteadyBlocks(s, level, k);
    Higher(s, level, level, k, k + 1);
    WorkRuns(s, control, level, block, k + 1);
    var o, k' := Perform(s, WorkEvents(control, level, block, k + 1)), k + 1 + WorkLabels(control);
    if o.Next? {
      QuietTargets(s, o.state, k + 1);
      Unplaced(s, level, k, o.state.targets, k + 1, k);
      QuietWeaker(s, o.state, k + 1, k);
      TwoPlain(s, o.state, MoveTop(level + 3), EmitOther(0), level, k, k');
    }
  }

  lemma TwoPlain(s: State, s1: State, e1: Event, e2: Event, level: nat, k: nat, k': nat)
    requires Quiet(s, s1, k) && Steady(s1, level, k') && k <= k' && e1.MoveTop? && level <= e1.top && e2.EmitOther?
    ensures var o := Perform(s1, [e1, e2]);
            o.Next? && Quiet(s, o.state, k) && Steady(o.state, level, k') && o.state.top == e1.top && o.state.targets == s1.targets
  {
    assert [e1, e2] == [e1] + [e2];
    PerformMore(s1, e1, [e2]);
    hide Perform, Apply, Steady, Quiet;
    PlainQuiet(s1, e1, level, k');
    var s2 := Apply(s1, e1).state;
    PerformOne(s2, e2);
    PlainQuiet(s2, e2, level, k');
    QuietMore(s, s1, s2, k, k');
    QuietMore(s, s2, Apply(s2, e2).state, k, k');
  }

  lemma QuietWeaker(s: State, s': State, k: nat, k': nat)
    requires Quiet(s, s', k) && k' <= k
    ensures Quiet(s, s', k')
  {
  }

  /** The outer block begins with the labels that are there. */
  ghost predicate Based(s0: State, s: State) {
    |s0.blocks| < |s.blocks| && s.blocks[|s0.blocks|].bottomTarget == |s0.targets|
  }

  lemma ForEnter(b: State, generic: bool, names: nat, level: nat, k: nat, k': nat)
    requires Steady(b, level, k') && b.top == level + 3 && FindTarget(b.targets, Unique(k)).None? && k < k'
    ensures var o := Perform(b, [Enter, Enter] + ([MoveTop(level + 3 + names)] + if generic then [GoTo(Unique(k))] else []));
            !o.Panics? && (o.Next? ==>
              && Inside(b, o.state, level + 3, false, k) && Steady(o.state, level + 3 + names, k') && o.state.top == level + 3 + names
              && Opened(b, o.state, 2, level + 3) && Based(b, o.state))
  {
    var e, rest := MoveTop(level + 3 + names), if generic then [GoTo(Unique(k))] else [];
    PerformTwice(b, [e] + rest);
    hide Perform, Apply, Inside, Steady, FindTarget, Twice;
    Higher(b, level, level + 3, k', k');
    InsideSelf(b, level + 3, false, level, k');
    InsideWeaker(b, b, level + 3, false, k', k);
    TwiceOpened(b, level + 3, k, k', level + 3, false);
    var s := Twice(b);
    PerformMore(s, e, rest);
    PlainQuiet(s, e, level + 3, k');
    ForNames(b, s, generic, names, level, k, k');
  }

  lemma InsideWeaker(s0: State, s: State, at: nat, breaks: bool, k: nat, k': nat)
    requires Inside(s0, s, at, breaks, k) && k' <= k
    ensures Inside(s0, s, at, breaks, k')
  {
    forall p | p in s.pending ensures p in s0.pending || Arose(s0, s, p, at, breaks) {
    }
  }

  lemma ForNames(b: State, s: State, generic: bool, names: nat, level: nat, k: nat, k': nat)
    requires Inside(b, s, level + 3, false, k) && Steady(s, level + 3, k') && k < k' && FindTarget(s.targets, Unique(k)).None?
    requires Opened(b, s, 2, level + 3) && s.pending == b.pending && Based(b, s) && forall p :: p in s.pending ==> p.blockIndex < |b.blocks|
    ensures var o := AndThen(Apply(s, MoveTop(level + 3 + names)), if generic then [GoTo(Unique(k))] else []);
            !o.Panics? && (o.Next? ==>
              && Inside(b, o.state, level + 3, false, k) && Steady(o.state, level + 3 + names, k') && o.state.top == level + 3 + names
              && Opened(b, o.state, 2, level + 3) && Based(b, o.state))
  {
    hide Perform, Apply, Inside, Steady, FindTarget;
    var e := MoveTop(level + 3 + names);
    PlainQuiet(s, e, level + 3, k');
    var s1 := Apply(s, e).state;
    InsideQuiet(b, s, s1, level + 3, false, k, k');
    Higher(s1, level + 3, level + 3 + names, k', k');
    if generic {
      PerformOne(s1, GoTo(Unique(k)));
      GoInside(b, s1, Unique(k), level + 3, false, k, level + 3 + names, k');
    } else {
      PerformNone(s1);
    }
  }

  lemma ForTailRuns(b: State, s: State, generic: bool, level: nat, k: nat, kb: nat, k': nat)
    requires Steady(b, level, kb) && kb <= k' && b.top == level + 3 && Inside(b, s, level + 3, false, k) && Steady(s, s.top, k') && k < k'
    requires Closed(b, s, 2, level + 3) && Based(b, s)
    ensures var o := Perform(s, ForTail(generic, level, k));
            !o.Panics? && (o.Next? ==>
              Inside(b, o.state, level + 3, false, k) && Steady(o.state, level, k') && |o.state.blocks| == |b.blocks| && o.state.top == level)
  {
    var e, mark := Exit(level + 3), if generic then [Place(Unique(k))] else [];
    var rest := [EmitOther(0), Place(Break), Exit(level + 3), MoveTop(level)];
    PerformMore(s, e, mark + rest);
    hide Perform, Apply, Inside, Steady;
    LeaveInner(b, s, level + 3, false, k, k', level + 3);
    if Apply(s, e).Next? {
      var s1 := Apply(s, e).state;
      PerformAppend(s1, mark, rest);
      if generic {
        PerformOne(s1, Place(Unique(k)));
        PlaceInside(b, s1, Unique(k), level + 3, false, k, level + 3, k');
      } else {
        PerformNone(s1);
      }
      if Perform(s1, mark).Next? {
        ForLeave(b, Perform(s1, mark).state, level, k, kb, k');
      }
    }
  }

  lemma ForLeave(b: State, s: State, level: nat, k: nat, kb: nat, k': nat)
    requires Steady(b, level, kb) && kb <= k' && Inside(b, s, level + 3, false, k) && Steady(s, level + 3, k') && s.top == level + 3 && k < k'
    requires Closed(b, s, 1, level + 3) && Based(b, s)
    ensures var o := Perform(s, [EmitOther(0), Place(Break), Exit(level + 3), MoveTop(level)]);
            !o.Panics? && (o.Next? ==>
              Inside(b, o.state, level + 3, false, k) && Steady(o.state, level, k') && |o.state.blocks| == |b.blocks| && o.state.top == level)
  {
    hide Perform, Apply, Inside, Steady, Closed, Based;
    var e1, e2 := EmitOther(0), Place(Break);
    assert [e1, e2, Exit(level + 3), MoveTop(level)] == [e1] + [e2, Exit(level + 3), MoveTop(level)];
    assert [e2, Exit(level + 3), MoveTop(level)] == [e2] + [Exit(level + 3), MoveTop(level)];
    PerformMore(s, e1, [e2, Exit(level + 3), MoveTop(level)]);
    ForMark(b, s, level, k, k');
    var s1 := Apply(s, e1).state;
    PerformMore(s1, e2, [Exit(level + 3), MoveTop(level)]);
    PlaceBreak(b, s1, level + 3, false, k, k', 1, level + 3);
    if Apply(s1, e2).Next? {
      StillBased(b, s1, Apply(s1, e2).state);
      ForPops(b, Apply(s1, e2).state, level, k, kb, k');
    }
  }

  lemma StillBased(b: State, s: State, s': State)
    requires Based(b, s) && s'.blocks == s.blocks
    ensures Based(b, s')
  {
  }

  lemma ForMark(b: State, s: State, level: nat, k: nat, k': nat)
    requires Inside(b, s, level + 3, false, k) && Steady(s, level + 3, k') && s.top == level + 3 && k < k' && Closed(b, s, 1, level + 3) && Based(b, s)
    ensures Apply(s, EmitOther(0)).Next?
    ensures var s1 := Apply(s, EmitOther(0)).state;
            Inside(b, s1, level + 3, false, k) && Steady(s1, level + 3, k') && s1.top == level + 3 && Closed(b, s1, 1, level + 3) && Based(b, s1)
  {
    hide Inside, Steady;
    PlainQuiet(s, EmitOther(0), level + 3, k');
    InsideQuiet(b, s, Apply(s, EmitOther(0)).state, level + 3, false, k, k');
  }

  lemma ForPops(b: State, s: State, level: nat, k: nat, kb: nat, k': nat)
    requires Steady(b, level, kb) && kb <= k' && Inside(b, s, level + 3, false, k) && Steady(s, level + 3, k') && s.top == level + 3
    requires Closed(b, s, 1, level + 3) && Based(b, s) && NoBreaks(s)
    ensures var o := Perform(s, [Exit(level + 3), MoveTop(level)]);
            !o.Panics? && (o.Next? ==>
              Inside(b, o.state, level + 3, false, k) && Steady(o.state, level, k') && |o.state.blocks| == |b.blocks| && o.state.top == level)
  {
    assert [Exit(level + 3), MoveTop(level)] == [Exit(level + 3)] + [MoveTop(level)];
    InsideTargets(b, s, level + 3, false, k);
    hide Perform, Apply, Inside, Steady, NoBreaks;
    PerformMore(s, Exit(level + 3), [MoveTop(level)]);
    LeaveLoop(b, s, level + 3, false, k, k');
    var o := Apply(s, Exit(level + 3));
    if o.Next? {
      PerformOne(o.state, MoveTop(level));
      PopControl(b, o.state, level, k, kb, k');
    }
  }

  lemma InsideTargets(s0: State, s: State, at: nat, breaks: bool, k: nat)
    requires Inside(s0, s, at, breaks, k)
    ensures Prolongs(s0.targets, s.targets, k)
  {
  }

  /** The control values are popped: jumps out of the loop keep their stack top. */
  lemma PopControl(b: State, s: State, level: nat, k: nat, kb: nat, k': nat)
    requires Steady(b, level, kb) && kb <= k' && Inside(b, s, level + 3, false, k) && Steady(s, level + 3, k') && s.targets == b.targets
    requires |s.blocks| == |b.blocks|
    ensures Apply(s, MoveTop(level)) == Next(s.(top := level))
    ensures Inside(b, s.(top := level), level + 3, false, k) && Steady(s.(top := level), level, k')
  {
    var s' := s.(top := level);
    StillReached(s, MoveTop(level));
    hide Reached;
    forall p | p in s'.pending ensures PendingOk(b, p, k') {
      assert PendingOk(s, p, k');
    }
    forall t | t in s'.targets ensures TargetOk(b, t, level, k') {
      assert TargetOk(b, t, level, kb);
    }
    forall p | p in s'.pending ensures p in b.pending || Arose(b, s', p, level + 3, false) {
      assert p in b.pending || Arose(b, s, p, level + 3, false);
    }
    StillSteady(b, s', level, k');
  }
}
