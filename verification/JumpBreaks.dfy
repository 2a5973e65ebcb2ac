/** `break` in a `while` loop whose body ends in `return`: the label behind the loop is placed above the variables of the
    body. */
module JumpBreaks {
  import opened Values
  import opened Jumps
  import opened JumpHistory
  import opened JumpSteps
  import opened JumpSyntax
  import opened JumpRuns
  import opened JumpParts
  import opened JumpFailures
  import opened JumpLists
  import opened JumpStatements
  import opened JumpNames
  import opened JumpWaits
  import opened JumpPanics
  import opened JumpCrossings
  import opened JumpRules
  import JumpTheorems

  /** A variable is declared behind a `break`. */
  predicate LeavesAbove(ss: seq<Statement>, visible: set<Label>) {
    exists i :: 0 <= i < |ss| && Break in Waits(ss[i], visible + Placed(ss[..i]), true) && Declared(ss[i..]) > 0
  }

  predicate BreaksReach(s: State, block: nat) {
    forall p :: p in s.pending && Resolves(p, block, Break) ==>
      JumpOffset(p.instruction, |s.ops|).Some? && (p.close ==> CloseAt(s.top).Some?)
  }

  /** Behind the values of the `return` and the jump back, the same jumps wait as behind the statements. */
  ghost predicate Behind(s: State, ss: seq<Statement>, s1: State, s2: State, level: nat, block: nat, k: nat) {
    && Ready(s, level, block, k) && Vacant(s) && Perform(s, Events(ss, level, block, k)) == Next(s1)
    && Reached(s2) && s2.top == level + Declared(ss) && |s2.blocks| == block + 1
    && (forall p :: p in s2.pending ==> p in s1.pending) && |s1.ops| <= |s2.ops|
    && forall from: nat, end: nat :: end <= |s1.ops| ==>
         (WaitsIn(s2, block, Break, from, end, false) <==> WaitsIn(s1, block, Break, from, end, false))
  }

  lemma LabelEmitsNothing(s: State, ss: seq<Statement>, i: nat, p: Pending, level: nat, block: nat, k: nat)
    requires From(s, ss, i, p, level, block, k) && i < |ss|
    ensures !ss[i].LabelHere?
  {
    NextPrefix(s, ss, i, level, block, k);
    var a := After(s, ss, i, level, block, k).state;
    if ss[i].LabelHere? {
      PlaceEmits(a, ss[i], level + Declared(ss[..i]), block, k + Labels(ss[..i]));
    }
  }

  lemma PlaceEmits(s: State, st: Statement, level: nat, block: nat, k: nat)
    requires st.LabelHere? && Perform(s, EventsOf(st, level, block, k)).Next?
    ensures |Perform(s, EventsOf(st, level, block, k)).state.ops| == |s.ops|
  {
    var lab := Named(st.name);
    assert EventsOf(st, level, block, k) == [Place(lab)];
    PerformOne(s, Place(lab));
    hide Perform, PatchAll, Resolving, HasLabel;
    PatchLength(s.ops, Resolving(s.pending, |s.blocks| - 1, lab), |s.ops|, s.top);
  }

  /** A `break` that waits has left one of the statements. */
  lemma BreakFrom(s: State, ss: seq<Statement>, s1: State, p: Pending, level: nat, block: nat, k: nat) returns (i: nat)
    requires Ready(s, level, block, k) && Vacant(s) && Perform(s, Events(ss, level, block, k)) == Next(s1)
    requires p in s1.pending && Resolves(p, block, Break)
    ensures i < |ss| && From(s, ss, i, p, level, block, k) && p.stackTop + Declared(ss[i..]) == level + Declared(ss)
    ensures Break in Waits(ss[i], Visibles(s) + Placed(ss[..i]), true)
  {
    i := BreakOrigin(s, ss, s1, p, level, block, k);
    LabelEmitsNothing(s, ss, i, p, level, block, k);
    hide Ready, Vacant, Perform, Events, From, Waits, Placed, Declared;
    assert WaitsFrom(s, ss, s1, i, Break, level, block, k);
    WaitsExactly(s, ss, s1, i, Break, level, block, k);
  }

  lemma BreakOrigin(s: State, ss: seq<Statement>, s1: State, p: Pending, level: nat, block: nat, k: nat) returns (i: nat)
    requires Ready(s, level, block, k) && Vacant(s) && Perform(s, Events(ss, level, block, k)) == Next(s1)
    requires p in s1.pending && Resolves(p, block, Break)
    ensures i < |ss| && From(s, ss, i, p, level, block, k) && p.stackTop + Declared(ss[i..]) == level + Declared(ss)
  {
    ListRuns(s, ss, level, block, k);
    assert p !in s.pending;
    hide Perform, Events, From, Steady, BadList, Ran, PrefixesRun, Declared;
    i :| From(s, ss, i, p, level, block, k);
    DeclaredSplit(ss, i) by {
      FromWithin(s, ss, i, p, level, block, k);
    }
  }

  lemma BreakTops(s: State, ss: seq<Statement>, s1: State, s2: State, p: Pending, level: nat, block: nat, k: nat)
    requires Behind(s, ss, s1, s2, level, block, k) && p in s2.pending && Resolves(p, block, Break)
    ensures p.stackTop <= s2.top && (p.stackTop < s2.top ==> LeavesAbove(ss, Visibles(s)))
  {
    hide Ready, Vacant, Perform, Events, From, Waits, Placed, Declared, Reached, WaitsIn;
    var i := BreakFrom(s, ss, s1, p, level, block, k);
  }

  lemma AboveWaits(s: State, ss: seq<Statement>, s1: State, s2: State, level: nat, block: nat, k: nat) returns (p: Pending)
    requires Behind(s, ss, s1, s2, level, block, k) && LeavesAbove(ss, Visibles(s))
    ensures p in s2.pending && Resolves(p, block, Break) && p.stackTop < s2.top
  {
    hide Ready, Vacant, Perform, Events, From, Waits, Placed, Declared, Reached, WaitsIn;
    var i :| 0 <= i < |ss| && Break in Waits(ss[i], Visibles(s) + Placed(ss[..i]), true) && Declared(ss[i..]) > 0;
    p := WaitsBehind(s, ss, s1, s2, i, level, block, k);
    BreakTop(s, ss, s1, p, i, level, block, k);
  }

  lemma BreakTop(s: State, ss: seq<Statement>, s1: State, p: Pending, i: nat, level: nat, block: nat, k: nat)
    requires Ready(s, level, block, k) && Vacant(s) && Perform(s, Events(ss, level, block, k)) == Next(s1)
    requires i < |ss| && p in s1.pending && Resolves(p, block, Break) && From(s, ss, i, p, level, block, k)
    ensures p.stackTop + Declared(ss[i..]) == level + Declared(ss)
  {
    ListRuns(s, ss, level, block, k);
    hide Perform, Events, From, Steady, BadList, Ran, PrefixesRun, Declared;
    DeclaredSplit(ss, i);
  }

  lemma WaitsBehind(s: State, ss: seq<Statement>, s1: State, s2: State, i: nat, level: nat, block: nat, k: nat) returns (p: Pending)
    requires Behind(s, ss, s1, s2, level, block, k)
    requires i < |ss| && Break in Waits(ss[i], Visibles(s) + Placed(ss[..i]), true)
    ensures p in s2.pending && Resolves(p, block, Break) && From(s, ss, i, p, level, block, k) && p in s1.pending
  {
    hide Ready, Vacant, Perform, Events, Declared, Reached;
    NotPlaced(ss[i + 1..]);
    hide Placed;
    WaitsExactly(s, ss, s1, i, Break, level, block, k) by {
      hide Waits;
      LabelWaitsForNothing(ss[i], Visibles(s) + Placed(ss[..i]));
    }
    Reaches(s, ss, i, level, block, k);
    Reaches(s, ss, i + 1, level, block, k);
    hide Waits;
    var q :| q in s1.pending && q.lab == Break && q.blockIndex == block && From(s, ss, i, q, level, block, k);
    var c, d := |After(s, ss, i, level, block, k).state.ops|, |After(s, ss, i + 1, level, block, k).state.ops|;
    PrefixShorter(s, ss, s1, i + 1, level, block, k);
    assert Within(q, c, d, false) && WaitsIn(s1, block, Break, c, d, false);
    p :| p in s2.pending && p.lab == Break && p.blockIndex == block && Within(p, c, d, false);
  }

  lemma PrefixShorter(s: State, ss: seq<Statement>, s1: State, i: nat, level: nat, block: nat, k: nat)
    requires Ready(s, level, block, k) && Vacant(s) && Perform(s, Events(ss, level, block, k)) == Next(s1) && i <= |ss|
    ensures After(s, ss, i, level, block, k).Next? && |After(s, ss, i, level, block, k).state.ops| <= |s1.ops|
  {
    ListRuns(s, ss, level, block, k);
    hide Perform, Events, Steady, BadList, Ran, EachFrom, EachLeft, After;
  }

  lemma NotPlaced(ss: seq<Statement>)
    ensures Break !in Placed(ss)
  {
  }

  lemma LabelWaitsForNothing(st: Statement, visible: set<Label>)
    requires Break in Waits(st, visible, true)
    ensures !st.LabelHere?
  {
  }

  /** The label behind the loop is accepted exactly if no variable of the body is declared behind a `break`, and all
      `break`s reach it. */
  lemma BehindVerdict(s: State, ss: seq<Statement>, s1: State, s2: State, level: nat, block: nat, k: nat)
    requires Behind(s, ss, s1, s2, level, block, k)
    ensures !JumpTarget(s2, Break).Panics?
    ensures JumpTarget(s2, Break).Next? <==>
              !HasLabel(s2.targets, block, Break) && !LeavesAbove(ss, Visibles(s)) && BreaksReach(s2, block)
  {
    Outcomes(s2, Break);
    hide Ready, Vacant, Perform, Events, Reached, HasLabel, JumpTarget, LeavesAbove, WaitsIn;
    forall p | p in s2.pending && Resolves(p, block, Break)
      ensures p.stackTop <= s2.top && (p.stackTop < s2.top ==> LeavesAbove(ss, Visibles(s)))
    {
      BreakTops(s, ss, s1, s2, p, level, block, k);
    }
    if LeavesAbove(ss, Visibles(s)) {
      var p := AboveWaits(s, ss, s1, s2, level, block, k);
    }
    BreaksPatchable(s2, block);
  }

  lemma BreaksPatchable(s: State, block: nat)
    requires |s.blocks| == block + 1 && forall p :: p in s.pending && Resolves(p, block, Break) ==> p.stackTop <= s.top
    ensures !MeetsTooHigh(s, Break)
    ensures AllPatchable(WaitingFor(s, Break), |s.ops|, s.top)
            <==> BreaksReach(s, block) && forall p :: p in s.pending && Resolves(p, block, Break) ==> p.stackTop == s.top
  {
    ResolvingHas(s.pending, block, Break);
    hide Resolving;
    forall n | 0 <= n < |WaitingFor(s, Break)| ensures WaitingFor(s, Break)[n] in s.pending && Resolves(WaitingFor(s, Break)[n], block, Break) {
      assert WaitingFor(s, Break)[n] in WaitingFor(s, Break);
    }
    if AllPatchable(WaitingFor(s, Break), |s.ops|, s.top) {
      forall p | p in s.pending && Resolves(p, block, Break) ensures Patchable(p, |s.ops|, s.top) {
        assert p in WaitingFor(s, Break);
      }
    }
  }

  /** What the label behind a `while` loop meets whose body ends in `return`: it is not an assertion failure, and when it is
      accepted. */
  lemma BreakVerdict(s: State, ss: seq<Statement>, values: seq<Work>, t: State, s2: State, back: nat, level: nat, block: nat, k: nat)
    requires Ready(s, level, block, k) && Vacant(s) && Perform(s, LoopEvents(ss, values, level, block, k)) == Next(t)
    requires FindTarget(t.targets, Unique(back)).Some? && Apply(t, GoTo(Unique(back))) == Next(s2)
    ensures |s2.blocks| == |s.blocks| && !Apply(s2, Place(Break)).Panics?
    ensures Apply(s2, Place(Break)).Next? <==>
              !HasLabel(s2.targets, block, Break) && !LeavesAbove(ss, Visibles(s)) && BreaksReach(s2, block)
    ensures Break !in Visibles(s) ==> !HasLabel(s2.targets, block, Break)
  {
    hide Ready, Vacant, Perform, Events, LoopEvents, FindTarget, LeavesAbove, BreaksReach, HasLabel, JumpTarget, Declared, WaitsIn, Visibles;
    ReadyBlocks(s, level, block, k);
    var s1 := IsBehind(s, ss, values, t, s2, back, level, block, k);
    BehindVerdict(s, ss, s1, s2, level, block, k);
    NoBreakLabel(s, ss, values, t, s2, back, level, block, k);
  }

  lemma IsBehind(s: State, ss: seq<Statement>, values: seq<Work>, t: State, s2: State, back: nat, level: nat, block: nat, k: nat) returns (s1: State)
    requires Ready(s, level, block, k) && Vacant(s) && Perform(s, LoopEvents(ss, values, level, block, k)) == Next(t)
    requires FindTarget(t.targets, Unique(back)).Some? && Apply(t, GoTo(Unique(back))) == Next(s2)
    ensures Behind(s, ss, s1, s2, level, block, k)
  {
    hide Ready, Vacant, Perform, Events, LoopEvents, WorkEvents, FindTarget, Declared, Labels, WaitsIn, JumpTo;
    LoopSplit(s, ss, values, level, block, k);
    var end, k' := level + Declared(ss), k + Labels(ss);
    s1 := Perform(s, Events(ss, level, block, k)).state;
    BehindList(s, ss, s1, level, block, k);
    ValuesRun(s1, values, t, end, block, k');
    JumpsBack(t, s2, back);
    forall from: nat, e: nat | e <= |s1.ops|
      ensures WaitsIn(s2, block, Break, from, e, false) <==> WaitsIn(s1, block, Break, from, e, false)
    {
      ValuesWaits(s1, values, t, from, e, end, block, k');
      SamePending(t, s2, from, e, block);
    }
  }

  lemma BehindList(s: State, ss: seq<Statement>, s1: State, level: nat, block: nat, k: nat)
    requires Ready(s, level, block, k) && Vacant(s) && Perform(s, Events(ss, level, block, k)) == Next(s1)
    ensures Ready(s1, level + Declared(ss), block, k + Labels(ss))
  {
    hide Perform, Events, Vacant, Declared, Labels, ListSettled, Reached;
    ListRuns(s, ss, level, block, k);
    Settles(s, ss, level, block, k);
  }

  lemma ValuesRun(s1: State, values: seq<Work>, t: State, end: nat, block: nat, k: nat)
    requires Ready(s1, end, block, k) && Perform(s1, WorkEvents(values, end, block, k) + [MoveTop(end + 0)]) == Next(t)
    ensures Reached(t) && |t.blocks| == block + 1 && t.top == end && |s1.ops| <= |t.ops| && forall p :: p in t.pending ==> p in s1.pending
  {
    hide Perform, WorkEvents, Steady, Reached;
    WorkMove(s1, values, end, 0, block, k);
    OldBlocks(t, end, k + WorkLabels(values));
  }

  lemma JumpsBack(t: State, s2: State, back: nat)
    requires Reached(t) && FindTarget(t.targets, Unique(back)).Some? && Apply(t, GoTo(Unique(back))) == Next(s2)
    ensures Reached(s2) && s2.blocks == t.blocks && s2.top == t.top && s2.pending == t.pending && s2.targets == t.targets && |t.ops| <= |s2.ops|
  {
    StillReached(t, GoTo(Unique(back)));
  }

  lemma SamePending(t: State, s2: State, from: nat, end: nat, block: nat)
    requires s2.pending == t.pending
    ensures WaitsIn(s2, block, Break, from, end, false) <==> WaitsIn(t, block, Break, from, end, false)
  {
  }

  lemma ValuesWaits(s1: State, values: seq<Work>, t: State, from: nat, e: nat, end: nat, block: nat, k: nat)
    requires Ready(s1, end, block, k) && Perform(s1, WorkEvents(values, end, block, k) + [MoveTop(end + 0)]) == Next(t)
    requires e <= |s1.ops| && |t.blocks| == block + 1
    ensures WaitsIn(t, block, Break, from, e, false) <==> WaitsIn(s1, block, Break, from, e, false)
  {
    var n, es := NamesOf(s1, from, e, false), WorkEvents(values, end, block, k) + [MoveTop(end + 0)];
    ValuesSilent(values, end, block, k);
    OldBlocks(s1, end, k);
    NamesShown(s1, from, e, false);
    hide NamesOf, Perform, WorkEvents, Steady, Reached, AllSilent, WaitsIn, LabelIn;
    ShowsAll(n, s1, es, from, e, false) by {
      hide Shows;
    }
    SilentFollowed(n, es, false);
  }

  lemma NoBreakLabel(s: State, ss: seq<Statement>, values: seq<Work>, t: State, s2: State, back: nat, level: nat, block: nat, k: nat)
    requires Ready(s, level, block, k) && Vacant(s) && Perform(s, LoopEvents(ss, values, level, block, k)) == Next(t)
    requires FindTarget(t.targets, Unique(back)).Some? && Apply(t, GoTo(Unique(back))) == Next(s2)
    ensures Break !in Visibles(s) ==> !HasLabel(s2.targets, block, Break)
  {
    hide Ready, Perform, LoopEvents, Events, FindTarget, HasLabel, Visibles, Placed, NamesOf, Visible, FollowAll, JumpTo, Reached, Listed, WaitsIn;
    OldReady(s, level, block, k);
    StartVisible(s);
    var n := NamesOf(s, 0, 0, true);
    ListFollowed(n, ss, Visibles(s), level, block, k, true);
    LoopFollowed(n, ss, values, Visibles(s), level, block, k, true);
    ListVisible(n, ss, Visibles(s), true);
    VisiblesAfter(s, LoopEvents(ss, values, level, block, k), t, Visibles(s) + Placed(ss));
    NotPlaced(ss);
    StillAll(s, LoopEvents(ss, values, level, block, k));
    JumpsBack(t, s2, back);
    if HasLabel(s2.targets, block, Break) {
      HasVisible(s2, block);
      assert Visibles(s2) == Visibles(t) by {
        assert s2.targets == t.targets;
        SameTargets(s2, t);
      }
    }
  }

  lemma SameTargets(s: State, s': State)
    requires s.targets == s'.targets
    ensures Visibles(s) == Visibles(s')
  {
  }

  lemma OldReady(s: State, level: nat, block: nat, k: nat)
    requires Ready(s, level, block, k)
    ensures Reached(s)
  {
    OldBlocks(s, level, k);
  }

  lemma HasVisible(s: State, block: nat)
    requires HasLabel(s.targets, block, Break)
    ensures Break in Visibles(s)
  {
    var t := HasTarget(s.targets, block, Break);
    assert t in s.targets && !t.lab.Unique?;
  }

  lemma {:induction false} HasTarget(ts: seq<Target>, block: nat, lab: Label) returns (t: Target)
    requires HasLabel(ts, block, lab)
    ensures t in ts && t.lab == lab
    decreases |ts|
  {
    t := ts[|ts| - 1];
    if t.lab != lab {
      t := HasTarget(ts[..|ts| - 1], block, lab);
    }
  }

  /** So a loop with such a variable is not compiled. */
  lemma LoopRefused(s: State, condition: seq<Work>, ss: seq<Statement>, values: seq<Work>, level: nat, block: nat, k: nat)
    requires Ready(s, level, block, k) && LeavesAbove(ss, Visibles(s))
    ensures !Perform(s, EventsOf(While(condition, Body(ss, Some(values))), level, block, k)).Next?
  {
    var body, k' := Body(ss, Some(values)), k + 2 + WorkLabels(condition);
    hide Ready, Vacant, Perform, LoopEvents, TestHead, WorkLabels, LeavesAbove, Visibles, EventsOf, Tested;
    WhileOpens(s, condition, level, block, k);
    LoopParts(s, condition, ss, values, level, block, k);
    var o := Perform(s, TestHead(condition, level, block, k, k + 1));
    if o.Next? {
      TestedReady(s, o.state, level, block, k, k');
      TestVisibles(s, condition, o.state, level, block, k, k, k + 1);
      var o' := Perform(o.state, LoopEvents(ss, values, level, block + 1, k'));
      if o'.Next? {
        TailRefused(s, o.state, o'.state, ss, values, level, block, k, k');
      }
    }
  }

  lemma LoopParts(s: State, condition: seq<Work>, ss: seq<Statement>, values: seq<Work>, level: nat, block: nat, k: nat)
    ensures Perform(s, EventsOf(While(condition, Body(ss, Some(values))), level, block, k))
            == AndThen(AndThen(Perform(s, TestHead(condition, level, block, k, k + 1)),
                               LoopEvents(ss, values, level, block + 1, k + 2 + WorkLabels(condition))),
                       [GoTo(Unique(k)), Place(Break), Exit(level), Place(Unique(k + 1))])
  {
    hide Perform, LoopEvents, TestHead, WorkLabels;
    PerformThree(s, TestHead(condition, level, block, k, k + 1), LoopEvents(ss, values, level, block + 1, k + 2 + WorkLabels(condition)),
                 [GoTo(Unique(k)), Place(Break), Exit(level), Place(Unique(k + 1))]);
  }

  lemma TailRefused(s: State, s1: State, t: State, ss: seq<Statement>, values: seq<Work>, level: nat, block: nat, k: nat, k': nat)
    requires Tested(s, s1, level, block, k, k') && Perform(s1, LoopEvents(ss, values, level, block + 1, k')) == Next(t)
    requires Visibles(s1) == Visibles(s) && LeavesAbove(ss, Visibles(s)) && k + 1 < k'
    ensures !Perform(t, [GoTo(Unique(k)), Place(Break), Exit(level), Place(Unique(k + 1))]).Next?
  {
    var rest := [Exit(level), Place(Unique(k + 1))];
    assert [GoTo(Unique(k)), Place(Break), Exit(level), Place(Unique(k + 1))] == [GoTo(Unique(k))] + ([Place(Break)] + rest);
    StartsFound(s, s1, t, ss, values, level, block, k, k');
    hide Ready, Vacant, Perform, LoopEvents, LeavesAbove, Visibles, JumpTarget, FindTarget, BreaksReach, HasLabel;
    PerformMore(t, GoTo(Unique(k)), [Place(Break)] + rest);
    TestedReady(s, s1, level, block, k, k');
    hide Tested, Apply;
    var o := Apply(t, GoTo(Unique(k)));
    if o.Next? {
      PerformMore(o.state, Place(Break), rest);
      LabelRefused(s, s1, t, o.state, ss, values, level, block, k, k');
    }
  }

  lemma LabelRefused(s: State, s1: State, t: State, s2: State, ss: seq<Statement>, values: seq<Work>, level: nat, block: nat, k: nat, k': nat)
    requires Ready(s1, level, block + 1, k') && Vacant(s1) && Perform(s1, LoopEvents(ss, values, level, block + 1, k')) == Next(t)
    requires Visibles(s1) == Visibles(s) && LeavesAbove(ss, Visibles(s))
    requires FindTarget(t.targets, Unique(k)).Some? && Apply(t, GoTo(Unique(k))) == Next(s2)
    ensures !Apply(s2, Place(Break)).Next?
  {
    hide Ready, Vacant, Perform, LoopEvents, LeavesAbove, Visibles, JumpTarget, FindTarget, BreaksReach, HasLabel;
    BreakVerdict(s1, ss, values, t, s2, k, level, block + 1, k');
  }

  /** The label in front of the condition is there. */
  lemma StartsFound(s: State, s1: State, t: State, ss: seq<Statement>, values: seq<Work>, level: nat, block: nat, k: nat, k': nat)
    requires Tested(s, s1, level, block, k, k') && Perform(s1, LoopEvents(ss, values, level, block + 1, k')) == Next(t) && k + 1 < k'
    ensures FindTarget(t.targets, Unique(k)).Some?
  {
    hide Perform, LoopEvents, Steady, Vacant, Inside, Opened, Prolongs, FindTarget, Ready;
    TestedReady(s, s1, level, block, k, k');
    LoopProlongs(s1, t, ss, values, level, block + 1, k');
    MarkFound(s, s1, t, Target(Unique(k), |s.ops|, level, block), k, k');
  }

  lemma MarkFound(s: State, s1: State, t: State, mark: Target, k: nat, k': nat)
    requires mark.lab == Unique(k) && Prolongs(s.targets + [mark], s1.targets, k + 1) && Prolongs(s1.targets, t.targets, k') && k + 1 < k'
    ensures FindTarget(t.targets, Unique(k)).Some?
  {
    hide Prolongs, FindTarget;
    ProlongsMore(s.targets + [mark], s1.targets, t.targets, k + 1, k');
    FindPlaced(s.targets, mark, t.targets, k + 1);
  }

  lemma LoopProlongs(s1: State, t: State, ss: seq<Statement>, values: seq<Work>, level: nat, block: nat, k: nat)
    requires Ready(s1, level, block, k) && Vacant(s1) && Perform(s1, LoopEvents(ss, values, level, block, k)) == Next(t)
    ensures Prolongs(s1.targets, t.targets, k)
  {
    LoopRuns(s1, ss, values, level, block, k);
    hide Perform, LoopEvents, Ready, Vacant, Steady, BadList, Prolongs;
  }

  // An input.

  /** `while c do break local ... return end` */
  function EarlyBreak(count: nat): Statement {
    While([], Body([BreakLoop, Declares([], count)], Some([])))
  }

  /** With a variable behind the `break` it is an error. */
  lemma EarlyBreakRefused(count: nat)
    requires count > 0
    ensures Perform(JumpTheorems.Start(0), EventsOf(EarlyBreak(count), 0, 0, 0)).Fails?
  {
    EarlyLeavesAbove(count);
    StartReady(0);
    NoLabelsYet(0);
    EarlyCrossesNothing(count);
    hide Perform, EventsOf, LeavesAbove, Ready, Vacant, Visibles, CrossesInside;
    LoopRefused(JumpTheorems.Start(0), [], [BreakLoop, Declares([], count)], [], 0, 0, 0);
    StatementExactly(JumpTheorems.Start(0), EarlyBreak(count), 0, 0, 0);
  }

  lemma EarlyLeavesAbove(count: nat)
    requires count > 0
    ensures LeavesAbove([BreakLoop, Declares([], count)], {})
  {
    var ss := [BreakLoop, Declares([], count)];
    assert Placed(ss[..0]) == {} && Break in Waits(ss[0], {} + Placed(ss[..0]), true);
    assert ss[0..] == ss && ss[..|ss| - 1] == [BreakLoop] && DeclaredBy(ss[|ss| - 1]) == count;
  }

  lemma EarlyCrossesNothing(count: nat)
    ensures !CrossesInside(EarlyBreak(count), {})
  {
    var ss := [BreakLoop, Declares([], count)];
    assert ss[..|ss|] == ss;
    forall j | 0 <= j < |ss| ensures !CrossesAt(ss[..j], ss[j], {}) {
      assert ss[j].BreakLoop? || ss[j].Declares?;
    }
    assert !Crosses(ss, {});
    assert !CrossesBody(Body(ss, Some([])), {});
  }
}
