/** When compiling a function is an assertion failure, for every function. */
module JumpPanics {
  import opened Values
  import opened Jumps
  import opened JumpHistory
  import opened JumpSteps
  import opened JumpSyntax
  import opened JumpRuns
  import opened JumpParts
  import opened JumpFailures
  import opened JumpLists
  import opened JumpStatements
  import JumpTheorems

  lemma {:induction false} ListRuns(s: State, ss: seq<Statement>, level: nat, block: nat, k: nat)
    requires Ready(s, level, block, k) && Vacant(s)
    ensures ListSettled(s, ss, level, block, k)
    decreases ss, 3
  {
    if ss == [] {
      NothingDone(s, level, block, k);
    } else {
      hide Steady, Traced, Ran, Perform, BadAt, Vacant, EventsOf, ListDone, Events, BadList, LabelSettled, Settled, Labels, Declared;
      ListRuns(s, ss[..|ss| - 1], level, block, k);
      var o := Perform(s, Events(ss[..|ss| - 1], level, block, k));
      if o.Next? {
        LastRuns(s, ss[..|ss| - 1], o.state, ss[|ss| - 1], level, block, k);
      }
      OneMore(s, ss, level, block, k);
    }
  }

  lemma LastRuns(s: State, rest: seq<Statement>, s1: State, st: Statement, level: nat, block: nat, k: nat)
    requires ListDone(s, s1, rest, level, block, k) && Vacant(s) && block + 1 == |s.blocks|
    ensures s1.blocks != [] && LastSettled(s, rest, s1, st, level, block, k)
    decreases st, 3
  {
    DoneReady(s, s1, rest, level, block, k);
    hide Steady, ListDone, Vacant, LabelSettled, Settled, Labels, Declared;
    if st.LabelHere? {
      LabelRuns(s, rest, s1, st, level, block, k);
    } else {
      StatementRuns(s1, st, level + Declared(rest), block, k + Labels(rest));
    }
  }

  lemma {:induction false} LoopRuns(s: State, ss: seq<Statement>, until: seq<Work>, level: nat, block: nat, k: nat)
    requires Ready(s, level, block, k) && Vacant(s)
    ensures LoopSettled(s, ss, until, level, block, k)
    decreases ss, 4
  {
    hide Ready, Vacant, ListSettled, LoopSettled;
    ListRuns(s, ss, level, block, k);
    LoopFinishes(s, ss, until, level, block, k);
  }

  lemma {:induction false} BodyRuns(s: State, b: Body, level: nat, block: nat, k: nat)
    requires Ready(s, level, block, k) && Vacant(s)
    ensures BodySettled(s, b, level, block, k)
    decreases b, 4
  {
    hide Steady, Vacant, Perform;
    if b.values.Some? {
      LoopRuns(s, b.statements, b.values.value, level, block, k);
    } else {
      var n := Trailing(b.statements);
      assert n == |b.statements| ==> b.statements[..n] == b.statements;
      BlockOpens(s, level, block, k);
      ListRuns(EnterBlock(s), b.statements[..n], level, block + 1, k);
      BlockRuns(s, b.statements, n, level, block, k);
      BlockSplit(s, b.statements, n, level, block, k);
      PerformOne(s, Enter);
      assert Apply(s, Enter) == Next(EnterBlock(s));
    }
  }

  lemma {:induction false} StatementRuns(s: State, st: Statement, level: nat, block: nat, k: nat)
    requires Ready(s, level, block, k) && !st.LabelHere?
    ensures Settled(s, st, level, block, k)
    decreases st, 2
  {
    hide Ready, Settled;
    match st {
      case Simple(work) => SimpleRuns(s, st, level, block, k);
      case Declares(work, count) => SimpleRuns(s, st, level, block, k);
      case Do(body) => DoStatement(s, body, level, block, k);
      case While(condition, body) => WhileStatement(s, condition, body, level, block, k);
      case Repeat(statements, until) => RepeatStatement(s, statements, until, level, block, k);
      case For(generic, control, names, body) => ForStatement(s, generic, control, names, body, level, block, k);
      case If(arms) =>
        IfOpens(s, level, block, k);
        ArmsRun(s, s, arms, level, block, k, k, k + 1, k + 2);
        IfRuns(s, arms, level, block, k);
      case GotoLabel(name) => GotoRuns(s, st, Named(name), level, block, k);
      case BreakLoop => GotoRuns(s, st, Break, level, block, k);
    }
  }

  lemma {:induction false} DoStatement(s: State, body: Body, level: nat, block: nat, k: nat)
    requires Ready(s, level, block, k)
    ensures Settled(s, Do(body), level, block, k)
    decreases body, 5
  {
    DoOpens(s, level, block, k);
    hide Ready, Settled, Vacant, BodySettled, EnterBlock;
    BodyRuns(EnterBlock(s), body, level, block + 1, k);
    DoRuns(s, body, level, block, k);
  }

  lemma {:induction false} WhileStatement(s: State, condition: seq<Work>, body: Body, level: nat, block: nat, k: nat)
    requires Ready(s, level, block, k)
    ensures Settled(s, While(condition, body), level, block, k)
    decreases body, 5
  {
    hide Ready, Settled, Vacant, BodySettled, Perform, TestHead, Tested, WorkLabels;
    WhileOpens(s, condition, level, block, k);
    var o := Perform(s, TestHead(condition, level, block, k, k + 1));
    if o.Next? {
      TestedReady(s, o.state, level, block, k, k + 2 + WorkLabels(condition));
      BodyRuns(o.state, body, level, block + 1, k + 2 + WorkLabels(condition));
    }
    WhileRuns(s, condition, body, level, block, k);
  }

  lemma {:induction false} RepeatStatement(s: State, ss: seq<Statement>, until: seq<Work>, level: nat, block: nat, k: nat)
    requires Ready(s, level, block, k)
    ensures Settled(s, Repeat(ss, until), level, block, k)
    decreases ss, 5
  {
    hide Ready, Settled, Vacant, LoopSettled, Perform, Repeating;
    RepeatOpens(s, level, block, k);
    var o := Perform(s, [Enter, Enter, Place(Unique(k))]);
    if o.Next? {
      RepeatReady(s, o.state, level, block, k);
      LoopRuns(o.state, ss, until, level, block + 2, k + 1);
    }
    RepeatRuns(s, ss, until, level, block, k);
  }

  lemma {:induction false} ForStatement(s: State, generic: bool, control: seq<Work>, names: nat, body: Body, level: nat, block: nat, k: nat)
    requires Ready(s, level, block, k)
    ensures Settled(s, For(generic, control, names, body), level, block, k)
    decreases body, 5
  {
    hide Ready, Settled, Vacant, BodySettled, Perform, ForHead, ForStarted, WorkLabels;
    ForOpens(s, generic, control, names, level, block, k);
    var o := Perform(s, ForHead(generic, control, names, level, block, k));
    if o.Next? {
      BodyRuns(o.state, body, level + 3 + names, block + 2, k + 1 + WorkLabels(control));
    }
    ForRuns(s, generic, control, names, body, level, block, k);
  }

  lemma {:induction false} ArmsRun(s0: State, s: State, arms: Arms, level: nat, block: nat, k0: nat, end: nat, next: nat, k: nat)
    requires ArmReady(s0, s, level, block, k0, end, next, k)
    ensures ArmsSettled(s0, s, arms, level, block, k0, end, next, k)
    decreases arms, 6
  {
    hide ArmReady, ArmsSettled, Perform, BodySettled, BodyEvents, TestHead, OneArm;
    match arms {
      case Arm(condition, body, rest) =>
        ArmOpens(s0, s, condition, level, block, k0, end, next, k);
        var o := Perform(s, TestHead(condition, level, block, next, k));
        if o.Next? {
          ArmOpenReady(s0, o.state, level, block, k0, end, k + 1 + WorkLabels(condition));
          BodyRuns(o.state, body, level, block + 1, k + 1 + WorkLabels(condition));
        }
        OneArmRuns(s0, s, condition, body, rest, level, block, k0, end, next, k);
        var o' := Perform(s, OneArm(condition, body, rest.EndIf?, level, block, end, next, k));
        if o'.Next? {
          assert ArmReady(s0, o'.state, level, block, k0, end, k, k + 1 + WorkLabels(condition) + BodyLabels(body));
          ArmsRun(s0, o'.state, rest, level, block, k0, end, k, k + 1 + WorkLabels(condition) + BodyLabels(body));
        }
        ArmThenRest(s0, s, condition, body, rest, level, block, k0, end, next, k);
      case Else(body) =>
        ElseOpens(s0, s, level, block, k0, end, next, k);
        var o := Perform(s, [Place(Unique(next)), Enter]);
        if o.Next? {
          ElseOpenReady(s0, o.state, level, block, k0, k);
          BodyRuns(o.state, body, level, block + 1, k);
        }
        ElseRuns(s0, s, body, level, block, k0, end, next, k);
      case EndIf => EndIfRuns(s0, s, level, block, k0, end, next, k);
    }
  }

  // Functions.

  /** A function from the beginning of its block to its final return. */
  function Compile(params: nat, body: Body, ret: nat): Outcome {
    match Perform(JumpTheorems.Start(params), BodyEvents(body, params, 0, 0))
    case Next(s) => JumpTheorems.Close(s, params, ret)
    case o => o
  }

  lemma StartReady(params: nat)
    ensures Ready(JumpTheorems.Start(params), params, 0, 0) && Vacant(JumpTheorems.Start(params))
  {
    JumpTheorems.StartInv(params);
  }

  /** Compiling a function fails an assertion exactly if some label meets a `goto` that left a `for`, as told by
      `StopsAtLoop`. */
  lemma FunctionPanics(params: nat, body: Body, ret: nat)
    ensures Compile(params, body, ret).Panics? <==> BadBody(JumpTheorems.Start(params), body, params, 0, 0)
  {
    hide Perform, BodyEvents, BadBody, Steady, Vacant;
    StartReady(params);
    BodyRuns(JumpTheorems.Start(params), body, params, 0, 0);
  }

  // Labels.

  /** The jump left a statement with as many registers in use as variables were declared since: none, or the
      three of a loop. And it reaches the label. */
  ghost predicate Lands(s: State, before: seq<Statement>, s': State, p: Pending, level: nat, block: nat, k: nat) {
    && (exists i: nat :: From(s, before, i, p, level, block, k) && i < |before| && Declared(before[i..]) == Out(before[i]))
    && JumpOffset(p.instruction, |s'.ops|).Some? && (p.close ==> CloseAt(s'.top).Some?)
  }

  ghost predicate AllLand(s: State, before: seq<Statement>, s': State, lab: Label, level: nat, block: nat, k: nat)
    requires s'.blocks != []
  {
    forall n :: 0 <= n < |WaitingFor(s', lab)| ==> Lands(s, before, s', WaitingFor(s', lab)[n], level, block, k)
  }

  /** What a label of the program meets behind the statements `before` of its block: when it is an assertion
      failure, and when it is accepted. */
  lemma LabelVerdict(s: State, before: seq<Statement>, s': State, name: string, level: nat, block: nat, k: nat)
    requires Ready(s, level, block, k) && Vacant(s) && Perform(s, Events(before, level, block, k)) == Next(s')
    ensures |s'.blocks| == |s.blocks|
    ensures JumpTarget(s', Named(name)).Panics? <==> StopsAtLoop(s, before, s', Named(name), level, block, k)
    ensures JumpTarget(s', Named(name)).Next? <==>
              !HasLabel(s'.targets, block, Named(name)) && AllLand(s, before, s', Named(name), level, block, k)
  {
    hide Perform, Events, Ran, Vacant, StopsAtLoop, HasLabel, JumpTarget, Traced, AllLand, Labels, Declared, Steady;
    ListRan(s, before, s', level, block, k);
    DoneReady(s, s', before, level, block, k);
    Verdict(s, before, s', Named(name), level, block, k, k + Labels(before));
  }

  lemma ListRan(s: State, ss: seq<Statement>, s': State, level: nat, block: nat, k: nat)
    requires Ready(s, level, block, k) && Vacant(s) && Perform(s, Events(ss, level, block, k)) == Next(s')
    ensures ListDone(s, s', ss, level, block, k)
  {
    hide Perform, Events, Ready, Vacant, ListDone, BadList;
    ListRuns(s, ss, level, block, k);
  }

  lemma Verdict(s: State, before: seq<Statement>, s': State, lab: Label, level: nat, block: nat, k: nat, k': nat)
    requires Traced(s, before, s', level, block, k) && Vacant(s) && |s.blocks| == |s'.blocks| == block + 1 && !lab.Unique?
    requires Steady(s', s'.top, k') && s'.top == level + Declared(before)
    ensures JumpTarget(s', lab).Panics? <==> StopsAtLoop(s, before, s', lab, level, block, k)
    ensures JumpTarget(s', lab).Next? <==> !HasLabel(s'.targets, block, lab) && AllLand(s, before, s', lab, level, block, k)
  {
    hide Steady, Vacant, StopsAtLoop, MeetsTooHigh, HasLabel, JumpTarget, Traced, AllLand, AllPatchable, Declared;
    TooHighLoop(s, before, s', lab, level, block, k);
    OldBlocks(s', s'.top, k');
    Outcomes(s', lab);
    LandAlike(s, before, s', lab, level, block, k);
  }

  lemma Outcomes(s: State, lab: Label)
    requires Reached(s)
    ensures s.blocks != []
    ensures JumpTarget(s, lab).Panics? <==> MeetsTooHigh(s, lab)
    ensures JumpTarget(s, lab).Next? <==> !HasLabel(s.targets, |s.blocks| - 1, lab) && AllPatchable(WaitingFor(s, lab), |s.ops|, s.top)
  {
    var h :| Inv(s, h);
    PlaceOutcome(s, h, lab);
  }

  lemma LandAlike(s: State, before: seq<Statement>, s': State, lab: Label, level: nat, block: nat, k: nat)
    requires Traced(s, before, s', level, block, k) && Vacant(s) && |s.blocks| == |s'.blocks| == block + 1 && !lab.Unique?
    requires s'.top == level + Declared(before)
    ensures AllPatchable(WaitingFor(s', lab), |s'.ops|, s'.top) <==> AllLand(s, before, s', lab, level, block, k)
  {
    hide Traced, Vacant, WaitingFor;
    forall n | 0 <= n < |WaitingFor(s', lab)|
      ensures Patchable(WaitingFor(s', lab)[n], |s'.ops|, s'.top) <==> Lands(s, before, s', WaitingFor(s', lab)[n], level, block, k)
    {
      LandsAlike(s, before, s', lab, n, level, block, k);
    }
  }

  lemma LandsAlike(s: State, before: seq<Statement>, s': State, lab: Label, n: nat, level: nat, block: nat, k: nat)
    requires Traced(s, before, s', level, block, k) && Vacant(s) && |s.blocks| == |s'.blocks| == block + 1 && !lab.Unique?
    requires s'.top == level + Declared(before) && n < |WaitingFor(s', lab)|
    ensures Patchable(WaitingFor(s', lab)[n], |s'.ops|, s'.top) <==> Lands(s, before, s', WaitingFor(s', lab)[n], level, block, k)
  {
    WaitingLeft(s, before, s', lab, n, level, block, k);
    hide Traced, Vacant, WaitingFor, From, Declared, JumpOffset, CloseAt;
    var p := WaitingFor(s', lab)[n];
    var i: nat :| From(s, before, i, p, level, block, k);
    FromWithin(s, before, i, p, level, block, k);
  }
}
