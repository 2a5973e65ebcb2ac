/** One function for each number of variables between a loop that a `goto` leaves and its label: an assertion
    failure, a jump into the scope of the variables, or an error. */
module GotoExamples {
  import opened Values
  import opened Jumps
  import opened JumpHistory
  import opened JumpSteps
  import opened JumpSyntax
  import JumpTheorems

  const DONE := Named("done")

  /** `for i = 1, 3 do goto done end` */
  function Loop(): Statement {
    For(false, [], 1, Body([GotoLabel("done")], None))
  }

  /** The loop, `local` with so many variables, `::done::` and `return`. */
  function LoopThenVariables(count: nat): Body {
    Body([Loop(), Declares([], count), LabelHere("done")], Some([]))
  }

  function LoopEvents(): seq<Event> {
    [MoveTop(3), EmitOther(0), Enter, Enter, MoveTop(4), Enter, GoTo(DONE), Exit(4), Exit(3), EmitOther(0), Place(Break), Exit(3), MoveTop(0)]
  }

  lemma LoopIs()
    ensures EventsOf(Loop(), 0, 0, 0) == LoopEvents()
  {
    var body := Body([GotoLabel("done")], None);
    assert Trailing(body.statements) == 1 && body.statements[..1] == body.statements && body.statements[1..] == [];
    assert Events(body.statements, 4, 3, 1) == [GoTo(DONE)] by {
      assert body.statements[..0] == [];
      assert Events([], 4, 3, 1) == [] && Labels([]) == 0 && Declared([]) == 0;
    }
    assert LabelEvents([]) == [];
    assert BodyEvents(body, 4, 2, 1) == [Enter, GoTo(DONE), Exit(4)];
    assert ForHead(false, [], 1, 0, 0, 0) == [MoveTop(3), EmitOther(0), Enter, Enter, MoveTop(4)];
  }

  lemma EventsAre(count: nat)
    ensures BodyEvents(LoopThenVariables(count), 0, 0, 0) == LoopEvents() + [MoveTop(count), Place(DONE), MoveTop(count)]
  {
    LoopIs();
    hide LoopEvents;
    var ss := LoopThenVariables(count).statements;
    assert ss[..1] == [Loop()] && ss[..2] == [Loop(), Declares([], count)] && ss[..2][..1] == ss[..1] && ss[..1][..0] == [];
    assert Declared(ss[..1]) == 0 && Declared(ss[..2]) == count && Declared(ss) == count;
    assert Labels([]) == 0 && Declared([]) == 0;
    assert Events(ss[..1], 0, 0, 0) == LoopEvents() by {
      assert Events([], 0, 0, 0) == [];
    }
    assert Events(ss[..2], 0, 0, 0) == LoopEvents() + [MoveTop(count)] by {
      assert EventsOf(Declares([], count), 0, 0, Labels(ss[..1])) == [MoveTop(count)];
    }
    assert Events(ss, 0, 0, 0) == LoopEvents() + [MoveTop(count)] + [Place(DONE)];
  }

  // What the loop does.

  /** Behind the loop, the jump still has the stack top of the control values. */
  function Behind(top: nat): State {
    State([OtherOp(0), PLACEHOLDER, OtherOp(0)], [Block(0, 0, false)], [], [Pending(DONE, 1, 0, 3, false)], top)
  }

  lemma Step(s: State, e: Event, s': State, es: seq<Event>)
    requires Apply(s, e) == Next(s')
    ensures Perform(s, [e] + es) == Perform(s', es)
  {
    PerformMore(s, e, es);
  }

  lemma LeaveBlock(s: State, s': State, top: nat)
    requires |s.blocks| > 1 && !s.blocks[|s.blocks| - 1].ownsUpvalues && |s.pending| == 1
    requires var n := |s.blocks| - 1;
             s.pending[0].blockIndex == n && s.pending[0].stackTop >= top && s.blocks[n].bottomTarget == 0
             && s' == State(s.ops, s.blocks[..n], [], [s.pending[0].(blockIndex := n - 1, stackTop := top)], top)
    ensures Apply(s, Exit(top)) == Next(s')
  {
    var n := |s.blocks| - 1;
    assert MapOutward(s.pending, n, top, false) == s'.pending;
    assert s.targets[..0] == [];
  }

  /** A label without a jump to it. */
  lemma PlaceUnused(s: State, s': State, lab: Label)
    requires |s.blocks| > 0 && s.targets == [] && |s.pending| == 1 && s.pending[0].lab != lab && s.pending[0].blockIndex < |s.blocks|
    requires s' == s.(targets := [Target(lab, |s.ops|, s.top, |s.blocks| - 1)])
    ensures Apply(s, Place(lab)) == Next(s')
  {
    assert s.pending == [s.pending[0]] && s.pending[1..] == [] && !Resolves(s.pending[0], |s.blocks| - 1, lab);
    assert Remaining(s.pending[1..], |s.blocks| - 1, lab) == [] && Resolving(s.pending[1..], |s.blocks| - 1, lab) == [];
    assert Resolving(s.pending, |s.blocks| - 1, lab) == [] && Remaining(s.pending, |s.blocks| - 1, lab) == s.pending;
  }

  function InLoop(top: nat): State {
    State([OtherOp(0)], [Block(0, 0, false), Block(3, 0, false), Block(3, 0, false)], [], [], top)
  }

  lemma LoopOpens(es: seq<Event>)
    ensures Perform(JumpTheorems.Start(0), [MoveTop(3)] + ([EmitOther(0)] + ([Enter] + ([Enter] + es)))) == Perform(InLoop(3), es)
  {
    var s1, s2 := State([], [Block(0, 0, false)], [], [], 3), State([OtherOp(0)], [Block(0, 0, false)], [], [], 3);
    var s3 := State([OtherOp(0)], [Block(0, 0, false), Block(3, 0, false)], [], [], 3);
    hide Perform;
    Step(JumpTheorems.Start(0), MoveTop(3), s1, [EmitOther(0)] + ([Enter] + ([Enter] + es)));
    Step(s1, EmitOther(0), s2, [Enter] + ([Enter] + es));
    Step(s2, Enter, s3, [Enter] + es);
    Step(s3, Enter, InLoop(3), es);
  }

  lemma BodyBegins(es: seq<Event>)
    ensures Perform(InLoop(3), [MoveTop(4)] + ([Enter] + ([GoTo(DONE)] + es))) == Perform(AtGoto(), es)
  {
    var s6 := InLoop(4).(blocks := InLoop(4).blocks + [Block(4, 0, false)]);
    hide Perform;
    Step(InLoop(3), MoveTop(4), InLoop(4), [Enter] + ([GoTo(DONE)] + es));
    Step(InLoop(4), Enter, s6, [GoTo(DONE)] + es);
    Step(s6, GoTo(DONE), AtGoto(), es);
  }

  /** Up to the `goto`. */
  lemma LoopBegins(es: seq<Event>)
    ensures Perform(JumpTheorems.Start(0), [MoveTop(3), EmitOther(0), Enter, Enter, MoveTop(4), Enter, GoTo(DONE)] + es)
            == Perform(AtGoto(), es)
  {
    hide Perform;
    LoopOpens([MoveTop(4)] + ([Enter] + ([GoTo(DONE)] + es)));
    BodyBegins(es);
    assert [MoveTop(3), EmitOther(0), Enter, Enter, MoveTop(4), Enter, GoTo(DONE)] + es
           == [MoveTop(3)] + ([EmitOther(0)] + ([Enter] + ([Enter] + ([MoveTop(4)] + ([Enter] + ([GoTo(DONE)] + es))))));
  }

  function AtGoto(): State {
    State([OtherOp(0), PLACEHOLDER], [Block(0, 0, false), Block(3, 0, false), Block(3, 0, false), Block(4, 0, false)], [],
          [Pending(DONE, 1, 3, 4, false)], 4)
  }

  /** Out of the blocks of the loop. */
  lemma LoopEnds(es: seq<Event>)
    ensures Perform(AtGoto(), [Exit(4), Exit(3), EmitOther(0), Place(Break), Exit(3), MoveTop(0)] + es) == Perform(Behind(0), es)
  {
    var root, loop, p := Block(0, 0, false), Block(3, 0, false), Pending(DONE, 1, 2, 4, false);
    var s1 := State([OtherOp(0), PLACEHOLDER], [root, loop, loop], [], [p], 4);
    var s2 := State([OtherOp(0), PLACEHOLDER], [root, loop], [], [p.(blockIndex := 1, stackTop := 3)], 3);
    var s3 := s2.(ops := s2.ops + [OtherOp(0)]);
    var s4 := s3.(targets := [Target(Break, 3, 3, 1)]);
    var e2 := [Place(Break), Exit(3), MoveTop(0)] + es;
    assert [Exit(4), Exit(3), EmitOther(0), Place(Break), Exit(3), MoveTop(0)] + es == [Exit(4)] + ([Exit(3)] + ([EmitOther(0)] + e2));
    assert e2 == [Place(Break)] + ([Exit(3)] + ([MoveTop(0)] + es));
    LeaveBlock(AtGoto(), s1, 4);
    LeaveBlock(s1, s2, 3);
    PlaceUnused(s3, s4, Break);
    LeaveBlock(s4, Behind(3), 3);
    hide Perform, ExitBlock, JumpTarget;
    Step(AtGoto(), Exit(4), s1, [Exit(3)] + ([EmitOther(0)] + e2));
    Step(s1, Exit(3), s2, [EmitOther(0)] + e2);
    Step(s2, EmitOther(0), s3, e2);
    Step(s3, Place(Break), s4, [Exit(3)] + ([MoveTop(0)] + es));
    Step(s4, Exit(3), Behind(3), [MoveTop(0)] + es);
    Step(Behind(3), MoveTop(0), Behind(0), es);
  }

  // What the label does.

  lemma PlaceDone(count: nat)
    ensures Apply(Behind(count), Place(DONE))
            == if count < 3 then Panics(StackOrder) else if count > 3 then Fails(JumpLocal)
               else Next(State([OtherOp(0), JumpOp(1, None), OtherOp(0)], [Block(0, 0, false)], [Target(DONE, 3, 3, 0)], [], 3))
  {
    var s := Behind(count);
    assert s.pending[1..] == [] && Resolves(s.pending[0], 0, DONE);
    assert Resolving(s.pending, 0, DONE) == s.pending && Remaining(s.pending, 0, DONE) == [];
    if count == 3 {
      var ops := [OtherOp(0), JumpOp(1, None), OtherOp(0)];
      assert s.ops[1 := JumpOp(1, None)] == ops;
      assert PatchAll(ops, s.pending[1..], 3, 3) == Ok(ops);
      assert PatchAll(s.ops, s.pending, 3, 3) == Ok(ops);
    }
  }

  /** With fewer than three variables an assertion fails. With three the jump into their scope is accepted, which
      section 3.3.4 of the Lua 5.4 Reference Manual forbids. With more it is the error that the manual asks for. */
  lemma LoopThenLabel(count: nat)
    ensures var o := Perform(JumpTheorems.Start(0), BodyEvents(LoopThenVariables(count), 0, 0, 0));
            o == if count < 3 then Panics(StackOrder) else if count > 3 then Fails(JumpLocal)
                 else Next(State([OtherOp(0), JumpOp(1, None), OtherOp(0)], [Block(0, 0, false)], [Target(DONE, 3, 3, 0)], [], 3))
  {
    var rest := [Place(DONE), MoveTop(count)];
    EventsAre(count);
    assert LoopEvents() + [MoveTop(count), Place(DONE), MoveTop(count)]
           == [MoveTop(3), EmitOther(0), Enter, Enter, MoveTop(4), Enter, GoTo(DONE)]
              + ([Exit(4), Exit(3), EmitOther(0), Place(Break), Exit(3), MoveTop(0)] + ([MoveTop(count)] + rest));
    hide Perform, BodyEvents, JumpTarget;
    LoopBegins([Exit(4), Exit(3), EmitOther(0), Place(Break), Exit(3), MoveTop(0)] + ([MoveTop(count)] + rest));
    LoopEnds([MoveTop(count)] + rest);
    Step(Behind(0), MoveTop(count), Behind(count), rest);
    PlaceDone(count);
    assert rest == [Place(DONE)] + [MoveTop(count)];
    PerformMore(Behind(count), Place(DONE), [MoveTop(count)]);
    if count == 3 {
      var s := Apply(Behind(3), Place(DONE)).state;
      PerformOne(s, MoveTop(3));
    }
  }
}
