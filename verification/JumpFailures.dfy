/** The functions that the compiler cannot compile without failing an assertion: a label meets a `goto` that left
    a `for` before it in its own block, with fewer than three variables declared between them. */
module JumpFailures {
  import opened Values
  import opened Jumps
  import opened JumpHistory
  import opened JumpSteps
  import opened JumpSyntax
  import opened JumpRuns
  import opened JumpParts

  // Where jumps come from.

  function After(s: State, ss: seq<Statement>, i: nat, level: nat, block: nat, k: nat): Outcome
    requires i <= |ss|
  {
    Perform(s, Events(ss[..i], level, block, k))
  }

  /** The jump is an operation of the statement `ss[i]`. */
  predicate From(s: State, ss: seq<Statement>, i: nat, p: Pending, level: nat, block: nat, k: nat) {
    i < |ss|
    && var a, b := After(s, ss, i, level, block, k), After(s, ss, i + 1, level, block, k);
       a.Next? && b.Next? && |a.state.ops| <= p.instruction < |b.state.ops|
  }

  /** A jump out of the statement `ss[i]` keeps the variables before it and what the statement itself holds. */
  predicate LeftFrom(ss: seq<Statement>, i: nat, p: Pending, level: nat, block: nat)
    requires i < |ss|
  {
    p.blockIndex == block && p.stackTop == level + Declared(ss[..i]) + Out(ss[i]) && (p.lab.Break? ==> !ss[i].For?)
  }

  ghost predicate PrefixesRun(s: State, ss: seq<Statement>, s': State, level: nat, block: nat, k: nat) {
    forall i :: 0 <= i <= |ss| ==>
      After(s, ss, i, level, block, k).Next? && |After(s, ss, i, level, block, k).state.ops| <= |s'.ops|
  }

  ghost predicate EachFrom(s: State, ss: seq<Statement>, s': State, level: nat, block: nat, k: nat) {
    forall p :: p in s'.pending && p !in s.pending ==> exists i: nat :: From(s, ss, i, p, level, block, k)
  }

  ghost predicate EachLeft(s: State, ss: seq<Statement>, s': State, level: nat, block: nat, k: nat) {
    forall p, i: nat :: p in s'.pending && From(s, ss, i, p, level, block, k) ==>
      i < |ss| && p !in s.pending && LeftFrom(ss, i, p, level, block)
  }

  /** Every new jump has left one of the statements. */
  ghost predicate Traced(s: State, ss: seq<Statement>, s': State, level: nat, block: nat, k: nat) {
    PrefixesRun(s, ss, s', level, block, k) && EachFrom(s, ss, s', level, block, k) && EachLeft(s, ss, s', level, block, k)
  }

  // The compiler fails an assertion.

  /** The first jump that cannot be patched at the label left a `for` loop before it, and fewer variables than
      the loop has control values have been declared since. */
  ghost predicate StopsAtLoop(s: State, before: seq<Statement>, s': State, lab: Label, level: nat, block: nat, k: nat)
    requires s'.blocks != []
  {
    !HasLabel(s'.targets, |s'.blocks| - 1, lab)
    && exists n: nat, i: nat ::
         Stops(WaitingFor(s', lab), |s'.ops|, s'.top, n) && From(s, before, i, WaitingFor(s', lab)[n], level, block, k)
         && i < |before| && before[i].For? && Declared(before[i..]) < 3
  }

  ghost predicate BadList(s: State, ss: seq<Statement>, level: nat, block: nat, k: nat)
    decreases ss, 3
  {
    exists j :: 0 <= j < |ss| && BadAt(s, ss[..j], ss[j], level, block, k)
  }

  /** The statements before can be compiled, and this one cannot. */
  ghost predicate BadAt(s: State, before: seq<Statement>, st: Statement, level: nat, block: nat, k: nat)
    decreases st, 2
  {
    var o := Perform(s, Events(before, level, block, k));
    o.Next? && o.state.blocks != []
    && if st.LabelHere? then StopsAtLoop(s, before, o.state, Named(st.name), level, block, k)
       else BadInside(o.state, st, level + Declared(before), block, k + Labels(before))
  }

  ghost predicate BadInside(s: State, st: Statement, level: nat, block: nat, k: nat)
    decreases st, 1
  {
    match st
    case Do(body) => BadAfter(s, [Enter], body, level, block + 1, k)
    case While(condition, body) =>
      BadAfter(s, TestHead(condition, level, block, k, k + 1), body, level, block + 1, k + 2 + WorkLabels(condition))
    case Repeat(statements, _) =>
      var o := Perform(s, [Enter, Enter, Place(Unique(k))]);
      o.Next? && BadList(o.state, statements, level, block + 2, k + 1)
    case For(generic, control, names, body) =>
      BadAfter(s, ForHead(generic, control, names, level, block, k), body, level + 3 + names, block + 2, k + 1 + WorkLabels(control))
    case If(arms) => BadArms(s, arms, level, block, k, k + 1, k + 2)
    case _ => false
  }

  ghost predicate BadAfter(s: State, es: seq<Event>, b: Body, level: nat, block: nat, k: nat)
    decreases b, 5
  {
    var o := Perform(s, es);
    o.Next? && BadBody(o.state, b, level, block, k)
  }

  ghost predicate BadBody(s: State, b: Body, level: nat, block: nat, k: nat)
    decreases b, 4
  {
    match b.values
    case Some(_) => BadList(s, b.statements, level, block, k)
    case None =>
      var n, o := Trailing(b.statements), Perform(s, [Enter]);
      assert n == |b.statements| ==> b.statements[..n] == b.statements;
      o.Next? && BadList(o.state, b.statements[..n], level, block + 1, k)
  }

  ghost predicate BadArms(s: State, arms: Arms, level: nat, block: nat, end: nat, next: nat, k: nat)
    decreases arms, 6
  {
    match arms
    case Arm(condition, body, rest) =>
      BadAfter(s, TestHead(condition, level, block, next, k), body, level, block + 1, k + 1 + WorkLabels(condition))
      || var o := Perform(s, OneArm(condition, body, rest.EndIf?, level, block, end, next, k));
         o.Next? && BadArms(o.state, rest, level, block, end, k, k + 1 + WorkLabels(condition) + BodyLabels(body))
    case Else(body) => BadAfter(s, [Place(Unique(next)), Enter], body, level, block + 1, k)
    case EndIf => false
  }

  // Code that is settled: when it fails, and what it leaves.

  ghost predicate Ready(s: State, level: nat, block: nat, k: nat) {
    Steady(s, level, k) && s.top == level && block + 1 == |s.blocks|
  }

  ghost predicate ListDone(s: State, s': State, ss: seq<Statement>, level: nat, block: nat, k: nat) {
    && Traced(s, ss, s', level, block, k) && Ran(s, s', k)
    && Steady(s', level + Declared(ss), k + Labels(ss)) && s'.top == level + Declared(ss)
  }

  /** The code of the statements fails an assertion in exactly the cases told, and leaves what it should. */
  ghost predicate ListSettled(s: State, ss: seq<Statement>, level: nat, block: nat, k: nat) {
    var o := Perform(s, Events(ss, level, block, k));
    (o.Panics? <==> BadList(s, ss, level, block, k)) && (o.Next? ==> ListDone(s, o.state, ss, level, block, k))
  }

  ghost predicate Settled(s: State, st: Statement, level: nat, block: nat, k: nat) {
    var o := Perform(s, EventsOf(st, level, block, k));
    (o.Panics? <==> BadInside(s, st, level, block, k)) && (o.Next? ==> Grew(s, o.state, st, level, k))
  }

  ghost predicate LabelSettled(s: State, before: seq<Statement>, s': State, st: Statement, level: nat, block: nat, k: nat)
    requires st.LabelHere? && s'.blocks != []
  {
    var o := Perform(s', EventsOf(st, level + Declared(before), block, k + Labels(before)));
    && (o.Panics? <==> StopsAtLoop(s, before, s', Named(st.name), level, block, k))
    && (o.Next? ==> Grew(s', o.state, st, level + Declared(before), k + Labels(before)))
  }

  ghost predicate LastSettled(s: State, rest: seq<Statement>, s1: State, st: Statement, level: nat, block: nat, k: nat)
    requires s1.blocks != []
  {
    if st.LabelHere? then LabelSettled(s, rest, s1, st, level, block, k)
    else Settled(s1, st, level + Declared(rest), block, k + Labels(rest))
  }

  /** Behind a body or the statements and condition of a `repeat`, whose variables may still be in use. */
  ghost predicate BodyDone(s: State, s': State, level: nat, k: nat, k': nat) {
    Ran(s, s', k) && Steady(s', s'.top, k') && level <= s'.top
  }

  ghost predicate BodySettled(s: State, b: Body, level: nat, block: nat, k: nat) {
    var o := Perform(s, BodyEvents(b, level, block, k));
    (o.Panics? <==> BadBody(s, b, level, block, k)) && (o.Next? ==> BodyDone(s, o.state, level, k, k + BodyLabels(b)))
  }

  ghost predicate LoopSettled(s: State, ss: seq<Statement>, until: seq<Work>, level: nat, block: nat, k: nat) {
    var o := Perform(s, LoopEvents(ss, until, level, block, k));
    && (o.Panics? <==> BadList(s, ss, level, block, k))
    && (o.Next? ==> BodyDone(s, o.state, level, k, k + Labels(ss) + WorkLabels(until)))
  }
}
