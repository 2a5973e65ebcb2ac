/** Lists of statements, one more statement at a time. */
module JumpLists {
  import opened Values
  import opened Jumps
  import opened JumpHistory
  import opened JumpSteps
  import opened JumpSyntax
  import opened JumpRuns
  import opened JumpParts
  import opened JumpFailures

  // Statement lists.

  lemma {:induction false} DeclaredSplit(ss: seq<Statement>, i: nat)
    requires i <= |ss|
    ensures Declared(ss) == Declared(ss[..i]) + Declared(ss[i..])
    decreases |ss|
  {
    if i < |ss| {
      var rest := ss[..|ss| - 1];
      DeclaredSplit(rest, i);
      assert rest[..i] == ss[..i] && ss[i..][..|ss| - i - 1] == rest[i..];
    } else {
      assert ss[..i] == ss;
    }
  }

  lemma InRange(s: State)
    requires Reached(s)
    ensures forall p :: p in s.pending ==> p.instruction < |s.ops|
  {
    var h :| Inv(s, h);
    PendingIncrease(h.records, s.ops, h);
  }

  lemma NothingDone(s: State, level: nat, block: nat, k: nat)
    requires Ready(s, level, block, k)
    ensures ListSettled(s, [], level, block, k)
  {
    PerformNone(s);
    hide Steady;
  }

  lemma DoneReady(s: State, s': State, ss: seq<Statement>, level: nat, block: nat, k: nat)
    requires ListDone(s, s', ss, level, block, k) && block + 1 == |s.blocks|
    ensures Ready(s', level + Declared(ss), block, k + Labels(ss)) && Ran(s, s', k)
  {
    hide Steady, Traced;
  }

  /** What the last statement adds. */
  lemma OneMore(s: State, ss: seq<Statement>, level: nat, block: nat, k: nat)
    requires ss != [] && Steady(s, level, k) && block + 1 == |s.blocks|
    requires var rest, st := ss[..|ss| - 1], ss[|ss| - 1];
             var o := Perform(s, Events(rest, level, block, k));
             && ListSettled(s, rest, level, block, k)
             && (o.Next? ==> o.state.blocks != [] && LastSettled(s, rest, o.state, st, level, block, k))
    ensures ListSettled(s, ss, level, block, k)
  {
    hide Steady, Perform, Events, BadList, ListDone, LastSettled;
    OneMoreBad(s, ss, level, block, k);
    OneMoreDone(s, ss, level, block, k);
  }

  lemma OneMoreBad(s: State, ss: seq<Statement>, level: nat, block: nat, k: nat)
    requires ss != []
    requires var rest, st := ss[..|ss| - 1], ss[|ss| - 1];
             var o := Perform(s, Events(rest, level, block, k));
             && ListSettled(s, rest, level, block, k)
             && (o.Next? ==> o.state.blocks != [] && LastSettled(s, rest, o.state, st, level, block, k))
    ensures Perform(s, Events(ss, level, block, k)).Panics? <==> BadList(s, ss, level, block, k)
  {
    hide Steady, Perform, Events, EventsOf, Grew, ListDone, BadInside, BadAt, BadList, StopsAtLoop, Labels, Declared;
    BadSnoc(s, ss, level, block, k);
    BadAtIs(s, ss[..|ss| - 1], ss[|ss| - 1], level, block, k);
    EventsSnoc(s, ss, level, block, k);
  }

  lemma OneMoreDone(s: State, ss: seq<Statement>, level: nat, block: nat, k: nat)
    requires ss != [] && Steady(s, level, k) && block + 1 == |s.blocks|
    requires var rest, st := ss[..|ss| - 1], ss[|ss| - 1];
             var o := Perform(s, Events(rest, level, block, k));
             && ListSettled(s, rest, level, block, k)
             && (o.Next? ==> o.state.blocks != [] && LastSettled(s, rest, o.state, st, level, block, k))
    ensures var o := Perform(s, Events(ss, level, block, k));
            o.Next? ==> ListDone(s, o.state, ss, level, block, k)
  {
    hide Steady, Perform, Events, EventsOf, Grew, ListDone, BadInside, BadList, StopsAtLoop, Labels, Declared;
    EventsSnoc(s, ss, level, block, k);
    var o := Perform(s, Events(ss, level, block, k));
    if o.Next? {
      GrownList(s, ss, Perform(s, Events(ss[..|ss| - 1], level, block, k)).state, o.state, level, block, k);
    }
  }

  lemma BadAtIs(s: State, before: seq<Statement>, st: Statement, level: nat, block: nat, k: nat)
    ensures var o := Perform(s, Events(before, level, block, k));
            BadAt(s, before, st, level, block, k) <==>
            o.Next? && o.state.blocks != []
            && if st.LabelHere? then StopsAtLoop(s, before, o.state, Named(st.name), level, block, k)
               else BadInside(o.state, st, level + Declared(before), block, k + Labels(before))
  {
    hide Perform, Events, BadInside, StopsAtLoop, Labels, Declared;
  }

  lemma BadSnoc(s: State, ss: seq<Statement>, level: nat, block: nat, k: nat)
    requires ss != []
    ensures var rest, st := ss[..|ss| - 1], ss[|ss| - 1];
            BadList(s, ss, level, block, k) <==> BadList(s, rest, level, block, k) || BadAt(s, rest, st, level, block, k)
  {
    hide BadAt;
    var rest := ss[..|ss| - 1];
    assert forall j :: 0 <= j < |rest| ==> rest[..j] == ss[..j] && rest[j] == ss[j];
    if j :| 0 <= j < |rest| && BadAt(s, rest[..j], rest[j], level, block, k) {
      assert BadAt(s, ss[..j], ss[j], level, block, k);
    }
  }

  lemma EventsSnoc(s: State, ss: seq<Statement>, level: nat, block: nat, k: nat)
    requires ss != []
    ensures var rest, st := ss[..|ss| - 1], ss[|ss| - 1];
            Perform(s, Events(ss, level, block, k))
            == AndThen(Perform(s, Events(rest, level, block, k)), EventsOf(st, level + Declared(rest), block, k + Labels(rest)))
  {
    var rest, st := ss[..|ss| - 1], ss[|ss| - 1];
    hide Perform, EventsOf, Declared, Labels;
    PerformAppend(s, Events(rest, level, block, k), EventsOf(st, level + Declared(rest), block, k + Labels(rest)));
  }

  /** The statements but for the last one lead to `s1`, and that one to `s2`. */
  ghost predicate Steps(s: State, ss: seq<Statement>, s1: State, s2: State, level: nat, block: nat, k: nat) {
    ss != [] && block + 1 == |s.blocks|
    && var rest, st := ss[..|ss| - 1], ss[|ss| - 1];
       && Perform(s, Events(rest, level, block, k)) == Next(s1) && Perform(s, Events(ss, level, block, k)) == Next(s2)
       && ListDone(s, s1, rest, level, block, k) && Grew(s1, s2, st, level + Declared(rest), k + Labels(rest))
  }

  lemma GrownList(s: State, ss: seq<Statement>, s1: State, s2: State, level: nat, block: nat, k: nat)
    requires Steps(s, ss, s1, s2, level, block, k) && Steady(s, level, k)
    ensures ListDone(s, s2, ss, level, block, k)
  {
    hide Steady, Traced, Perform, Events, Inside, Ran;
    TracedMore(s, ss, s1, s2, level, block, k);
    RanMore(s, s1, s2, ss[|ss| - 1], level + Declared(ss[..|ss| - 1]), k, k + Labels(ss[..|ss| - 1]));
  }

  lemma RanMore(s: State, s1: State, s2: State, st: Statement, level: nat, k: nat, k': nat)
    requires Ran(s, s1, k) && Grew(s1, s2, st, level, k') && k <= k' && s1.top == level
    ensures Ran(s, s2, k)
  {
    ProlongsMore(s.targets, s1.targets, s2.targets, k, k');
    OldBlocks(s2, level + DeclaredBy(st), k' + LabelsOf(st));
    hide Steady;
    forall p | p in s2.pending ensures p in s.pending || Leaves(s, s2, p) {
      assert p in s1.pending || Arose(s1, s2, p, level + Out(st), !st.For?);
      assert p in s1.pending ==> p in s.pending || Leaves(s, s1, p);
    }
  }

  lemma OldBlocks(s: State, level: nat, k: nat)
    requires Steady(s, level, k)
    ensures Reached(s) && forall p :: p in s.pending ==> p.blockIndex < |s.blocks|
  {
    SteadyBlocks(s, level, k);
  }

  // Where jumps come from, one statement later.

  lemma TracedMore(s: State, ss: seq<Statement>, s1: State, s2: State, level: nat, block: nat, k: nat)
    requires Steps(s, ss, s1, s2, level, block, k) && Steady(s, level, k)
    ensures Traced(s, ss, s2, level, block, k)
  {
    StepFacts(s, ss, s1, s2, level, block, k);
    hide Steps, Steady, PrefixesRun, EachFrom, EachLeft, Ranged;
    TraceOps(s, ss, s1, s2, level, block, k);
    AllFound(s, ss, s1, s2, level, block, k);
    AllLeft(s, ss, s1, s2, level, block, k);
  }

  lemma AllFound(s: State, ss: seq<Statement>, s1: State, s2: State, level: nat, block: nat, k: nat)
    requires Steps(s, ss, s1, s2, level, block, k)
    ensures EachFrom(s, ss, s2, level, block, k)
  {
    hide Steps, From;
    forall p | p in s2.pending && p !in s.pending ensures exists i: nat :: From(s, ss, i, p, level, block, k) {
      TraceOn(s, ss, s1, s2, p, level, block, k);
    }
  }

  lemma AllLeft(s: State, ss: seq<Statement>, s1: State, s2: State, level: nat, block: nat, k: nat)
    requires Steps(s, ss, s1, s2, level, block, k) && Ranged(s) && Ranged(s1) && Ranged(s2)
    ensures EachLeft(s, ss, s2, level, block, k)
  {
    hide Steps, LeftFrom, Ranged, After;
    forall p, i: nat | p in s2.pending && From(s, ss, i, p, level, block, k)
      ensures i < |ss| && p !in s.pending && LeftFrom(ss, i, p, level, block)
    {
      TraceBack(s, ss, s1, s2, i, p, level, block, k);
    }
  }

  ghost predicate Ranged(s: State) {
    forall p :: p in s.pending ==> p.instruction < |s.ops| && p.blockIndex < |s.blocks|
  }

  lemma SteadyRange(s: State, level: nat, k: nat)
    requires Steady(s, level, k)
    ensures Ranged(s)
  {
    OldBlocks(s, level, k);
    InRange(s);
  }

  lemma StepFacts(s: State, ss: seq<Statement>, s1: State, s2: State, level: nat, block: nat, k: nat)
    requires Steps(s, ss, s1, s2, level, block, k) && Steady(s, level, k)
    ensures Ranged(s) && Ranged(s1) && Ranged(s2)
  {
    hide Steady, Traced, Perform, Events, Inside, Ran, Ranged, LabelsOf, Labels, Declared;
    SteadyRange(s, level, k);
    SteadyRange(s1, level + Declared(ss[..|ss| - 1]), k + Labels(ss[..|ss| - 1]));
    SteadyRange(s2, level + Declared(ss[..|ss| - 1]) + DeclaredBy(ss[|ss| - 1]), k + Labels(ss[..|ss| - 1]) + LabelsOf(ss[|ss| - 1]));
  }

  lemma TraceOps(s: State, ss: seq<Statement>, s1: State, s2: State, level: nat, block: nat, k: nat)
    requires Steps(s, ss, s1, s2, level, block, k)
    ensures PrefixesRun(s, ss, s2, level, block, k)
  {
    hide Perform, Events, Steady, Ran, From, LeftFrom, LabelsOf, Labels, Declared;
    AfterSnoc(s, ss, s2, level, block, k);
    hide After;
  }

  lemma TraceOn(s: State, ss: seq<Statement>, s1: State, s2: State, p: Pending, level: nat, block: nat, k: nat)
    requires Steps(s, ss, s1, s2, level, block, k) && p in s2.pending && p !in s.pending
    ensures exists i: nat :: From(s, ss, i, p, level, block, k)
  {
    hide Perform, Events, Reached, Steady, Prolongs, Labels, LabelsOf;
    AfterSnoc(s, ss, s2, level, block, k);
    var n, rest := |ss| - 1, ss[..|ss| - 1];
    if p in s1.pending {
      hide After;
      var i: nat :| From(s, rest, i, p, level, block, k);
      FromWithin(s, rest, i, p, level, block, k);
      assert From(s, ss, i, p, level, block, k);
    } else {
      assert rest[..|rest|] == rest && Arose(s1, s2, p, level + Declared(rest) + Out(ss[n]), !ss[n].For?);
      assert From(s, ss, n, p, level, block, k);
    }
  }

  lemma AfterSnoc(s: State, ss: seq<Statement>, s': State, level: nat, block: nat, k: nat)
    requires ss != [] && Perform(s, Events(ss, level, block, k)) == Next(s')
    ensures var rest := ss[..|ss| - 1];
            && After(s, ss, |ss|, level, block, k) == Next(s')
            && (forall i :: 0 <= i < |ss| ==> After(s, ss, i, level, block, k) == After(s, rest, i, level, block, k))
            && (forall i: nat, p :: i < |rest| ==> (From(s, ss, i, p, level, block, k) <==> From(s, rest, i, p, level, block, k)))
  {
    hide Perform, Events;
    var rest := ss[..|ss| - 1];
    assert ss[..|ss|] == ss;
    assert forall i :: 0 <= i < |ss| ==> ss[..i] == rest[..i];
  }

  lemma TraceBack(s: State, ss: seq<Statement>, s1: State, s2: State, i: nat, p: Pending, level: nat, block: nat, k: nat)
    requires Steps(s, ss, s1, s2, level, block, k) && Ranged(s) && Ranged(s1) && Ranged(s2)
    requires p in s2.pending && i < |ss| && From(s, ss, i, p, level, block, k)
    ensures p !in s.pending && LeftFrom(ss, i, p, level, block)
  {
    hide Perform, Events, Reached, Steady, Prolongs, Labels, LabelsOf;
    AfterSnoc(s, ss, s2, level, block, k);
    var rest, st := ss[..|ss| - 1], ss[|ss| - 1];
    assert p in s1.pending || Arose(s1, s2, p, level + Declared(rest) + Out(st), !st.For?);
    assert rest[..|rest|] == rest;
    if i < |rest| {
      assert ss[..i] == rest[..i];
      assert From(s, rest, i, p, level, block, k);
    }
  }

  // Labels.

  /** Every jump that waits for a label of the program has left a statement before it. */
  lemma WaitingLeft(s: State, before: seq<Statement>, s': State, lab: Label, n: nat, level: nat, block: nat, k: nat)
    requires Traced(s, before, s', level, block, k) && Vacant(s) && |s.blocks| == |s'.blocks| == block + 1 && !lab.Unique?
    requires s'.top == level + Declared(before) && n < |WaitingFor(s', lab)|
    ensures var p := WaitingFor(s', lab)[n];
            && p in s'.pending && (exists i: nat :: From(s, before, i, p, level, block, k))
            && forall i: nat :: From(s, before, i, p, level, block, k) ==> p.stackTop + Declared(before[i..]) == s'.top + Out(before[i])
  {
    WaitingIn(s', lab, n);
    hide WaitingFor, From, PrefixesRun;
    var p := WaitingFor(s', lab)[n];
    assert p !in s.pending;
    forall i: nat | From(s, before, i, p, level, block, k) ensures p.stackTop + Declared(before[i..]) == s'.top + Out(before[i]) {
      FromWithin(s, before, i, p, level, block, k);
      assert LeftFrom(before, i, p, level, block);
      DeclaredSplit(before, i);
    }
  }

  lemma WaitingIn(s: State, lab: Label, n: nat)
    requires s.blocks != [] && n < |WaitingFor(s, lab)|
    ensures WaitingFor(s, lab)[n] in s.pending && Resolves(WaitingFor(s, lab)[n], |s.blocks| - 1, lab)
  {
    ResolvingHas(s.pending, |s.blocks| - 1, lab);
    assert WaitingFor(s, lab)[n] in WaitingFor(s, lab);
  }

  lemma FromWithin(s: State, ss: seq<Statement>, i: nat, p: Pending, level: nat, block: nat, k: nat)
    requires From(s, ss, i, p, level, block, k)
    ensures i < |ss|
  {
  }

  lemma LabelRuns(s: State, before: seq<Statement>, s': State, st: Statement, level: nat, block: nat, k: nat)
    requires ListDone(s, s', before, level, block, k) && Vacant(s) && block + 1 == |s.blocks| == |s'.blocks| && st.LabelHere?
    ensures LabelSettled(s, before, s', st, level, block, k)
  {
    assert EventsOf(st, level + Declared(before), block, k + Labels(before)) == [Place(Named(st.name))];
    PerformOne(s', Place(Named(st.name)));
    hide Perform, Apply, EventsOf, Traced, Ran, Steady, Inside, StopsAtLoop, Labels, Declared, MeetsTooHigh, Grew, PlacedAt, Vacant;
    TooHighLoop(s, before, s', Named(st.name), level, block, k);
    LabelGrows(s', st, level + Declared(before), k + Labels(before));
  }

  lemma LabelGrows(s: State, st: Statement, level: nat, k: nat)
    requires st.LabelHere? && s.top == level && Steady(s, level, k) && s.blocks != []
    ensures var o := Apply(s, Place(Named(st.name)));
            (o.Panics? <==> MeetsTooHigh(s, Named(st.name))) && (o.Next? ==> Grew(s, o.state, st, level, k))
  {
    hide Apply, Steady, MeetsTooHigh, PlacedAt, Grew;
    PlaceStep(s, Named(st.name), level, k);
    var o := Apply(s, Place(Named(st.name)));
    if o.Next? {
      LabelLeaves(s, o.state, st, level, k);
    }
  }

  lemma LabelLeaves(s: State, s': State, st: Statement, level: nat, k: nat)
    requires st.LabelHere? && s.top == level && Steady(s, level, k) && Steady(s', level, k) && s.blocks != [] && PlacedAt(s, s', Named(st.name))
    ensures Grew(s, s', st, level, k)
  {
    hide Steady, Inside;
    InsideSelf(s, level, true, level, k);
    PlacedInside(s, s, s', Named(st.name), level, true, k);
  }

  lemma TooHighLoop(s: State, before: seq<Statement>, s': State, lab: Label, level: nat, block: nat, k: nat)
    requires Traced(s, before, s', level, block, k) && Vacant(s) && |s.blocks| == |s'.blocks| == block + 1 && !lab.Unique?
    requires s'.top == level + Declared(before)
    ensures MeetsTooHigh(s', lab) <==> StopsAtLoop(s, before, s', lab, level, block, k)
  {
    hide Traced, Vacant, From, Patchable, Resolving, HasLabel, Declared, WaitingFor;
    var ps := WaitingFor(s', lab);
    if MeetsTooHigh(s', lab) {
      var n: nat :| Stops(ps, |s'.ops|, s'.top, n) && ps[n].stackTop > s'.top;
      WaitingLeft(s, before, s', lab, n, level, block, k);
      var i: nat :| From(s, before, i, ps[n], level, block, k);
      FromWithin(s, before, i, ps[n], level, block, k);
    }
    if StopsAtLoop(s, before, s', lab, level, block, k) {
      var n: nat, i: nat :| Stops(ps, |s'.ops|, s'.top, n) && From(s, before, i, ps[n], level, block, k)
                            && i < |before| && before[i].For? && Declared(before[i..]) < 3;
      WaitingLeft(s, before, s', lab, n, level, block, k);
    }
  }
}
