/** What each statement does to blocks, labels, jumps and the top of the register stack: the events of
    compiler.rs, from syntax. Expressions are there as far as they use registers, labels of their own and
    variables of outer functions. */
module JumpSyntax {
  import opened Values
  import opened Jumps
  import opened JumpHistory

  /** A part of the code of an expression. Registers above those of the variables in scope are temporary;
      `Captures` is a closure that uses a variable of the block so many blocks further out; `ShortCircuit`
      jumps over its right operand. */
  datatype Work = Emits | Temporary(extra: nat) | Captures(outward: nat) | ShortCircuit(extra: nat, right: seq<Work>)

  /** `Simple` stands for assignments, calls, functions and expressions, `Declares` for `local`. A generic `for`
      differs from a numeric one in a jump to its end. */
  datatype Statement =
    | Simple(work: seq<Work>)
    | Declares(work: seq<Work>, count: nat)
    | Do(body: Body)
    | While(condition: seq<Work>, body: Body)
    | Repeat(statements: seq<Statement>, until: seq<Work>)
    | For(generic: bool, control: seq<Work>, names: nat, body: Body)
    | If(arms: Arms)
    | LabelHere(name: string)
    | GotoLabel(name: string)
    | BreakLoop

  /** Statements, and the values of a `return` behind them. */
  datatype Body = Body(statements: seq<Statement>, values: Option<seq<Work>>)

  datatype Arms = Arm(condition: seq<Work>, body: Body, rest: Arms) | Else(body: Body) | EndIf

  // Registers of variables, and labels.

  function Declared(ss: seq<Statement>): nat {
    if ss == [] then 0 else Declared(ss[..|ss| - 1]) + DeclaredBy(ss[|ss| - 1])
  }

  function DeclaredBy(st: Statement): nat {
    if st.Declares? then st.count else 0
  }

  /** How many labels of their own the parts use. */
  function WorkLabels(ws: seq<Work>): nat {
    if ws == [] then 0 else WorkLabels(ws[..|ws| - 1]) + PartLabels(ws[|ws| - 1])
  }

  function PartLabels(w: Work): nat {
    if w.ShortCircuit? then 1 + WorkLabels(w.right) else 0
  }

  function Labels(ss: seq<Statement>): nat {
    if ss == [] then 0 else Labels(ss[..|ss| - 1]) + LabelsOf(ss[|ss| - 1])
  }

  function LabelsOf(st: Statement): nat {
    match st
    case Simple(work) => WorkLabels(work)
    case Declares(work, _) => WorkLabels(work)
    case Do(body) => BodyLabels(body)
    case While(condition, body) => 2 + WorkLabels(condition) + BodyLabels(body)
    case Repeat(statements, until) => 1 + Labels(statements) + WorkLabels(until)
    case For(_, control, _, body) => 1 + WorkLabels(control) + BodyLabels(body)
    case If(arms) => 2 + ArmLabels(arms)
    case _ => 0
  }

  function BodyLabels(b: Body): nat {
    Labels(b.statements) + if b.values.Some? then WorkLabels(b.values.value) else 0
  }

  function ArmLabels(arms: Arms): nat {
    match arms
    case Arm(condition, body, rest) => 1 + WorkLabels(condition) + BodyLabels(body) + ArmLabels(rest)
    case Else(body) => BodyLabels(body)
    case EndIf => 0
  }

  // Events. `level` is the register behind those of the variables in scope, `block` the index of the current
  // block, and `k` the first unused label.

  function WorkEvents(ws: seq<Work>, level: nat, block: nat, k: nat): seq<Event> {
    if ws == [] then []
    else
      var rest := ws[..|ws| - 1];
      WorkEvents(rest, level, block, k) + PartEvents(ws[|ws| - 1], level, block, k + WorkLabels(rest))
  }

  function PartEvents(w: Work, level: nat, block: nat, k: nat): seq<Event> {
    match w
    case Emits => [EmitOther(0)]
    case Temporary(extra) => [MoveTop(level + extra)]
    case Captures(outward) => if outward <= block then [Capture(block - outward)] else []
    case ShortCircuit(extra, right) =>
      [MoveTop(level + extra), GoTo(Unique(k))] + WorkEvents(right, level, block, k + 1)
      + [MoveTop(level + extra), Place(Unique(k))]
  }

  function Events(ss: seq<Statement>, level: nat, block: nat, k: nat): seq<Event>
    decreases ss, 0
  {
    if ss == [] then []
    else
      var rest := ss[..|ss| - 1];
      Events(rest, level, block, k) + EventsOf(ss[|ss| - 1], level + Declared(rest), block, k + Labels(rest))
  }

  function EventsOf(st: Statement, level: nat, block: nat, k: nat): seq<Event>
    decreases st, 1
  {
    match st
    case Simple(work) => WorkEvents(work, level, block, k) + [MoveTop(level)]
    case Declares(work, count) => WorkEvents(work, level, block, k) + [MoveTop(level + count)]
    case Do(body) => [Enter] + BodyEvents(body, level, block + 1, k) + [Exit(level)]
    case While(condition, body) =>
      TestHead(condition, level, block, k, k + 1) + BodyEvents(body, level, block + 1, k + 2 + WorkLabels(condition))
      + [GoTo(Unique(k)), Place(Break), Exit(level), Place(Unique(k + 1))]
    case Repeat(statements, until) =>
      [Enter, Enter, Place(Unique(k))] + LoopEvents(statements, until, level, block + 2, k + 1)
      + [GoTo(Unique(k)), Exit(level), Place(Break), Exit(level)]
    case For(generic, control, names, body) =>
      ForHead(generic, control, names, level, block, k) + BodyEvents(body, level + 3 + names, block + 2, k + 1 + WorkLabels(control))
      + ForTail(generic, level, k)
    case If(arms) => ArmEvents(arms, level, block, k, k + 1, k + 2)
    case LabelHere(name) => [Place(Named(name))]
    case GotoLabel(name) => [GoTo(Named(name))]
    case BreakLoop => [GoTo(Break)]
  }

  /** A test behind the label `placed` that jumps to the label `skip` if it fails. */
  function TestHead(condition: seq<Work>, level: nat, block: nat, placed: nat, skip: nat): seq<Event> {
    [Place(Unique(placed))] + WorkEvents(condition, level, block, skip + 1) + [MoveTop(level), GoTo(Unique(skip)), Enter]
  }

  /** The control values stay on the register stack, below the variables. */
  function ForHead(generic: bool, control: seq<Work>, names: nat, level: nat, block: nat, k: nat): seq<Event> {
    (WorkEvents(control, level, block, k + 1) + [MoveTop(level + 3), EmitOther(0)])
    + ([Enter, Enter] + ([MoveTop(level + 3 + names)] + if generic then [GoTo(Unique(k))] else []))
  }

  /** They are popped behind the end of the outer block. */
  function ForTail(generic: bool, level: nat, k: nat): seq<Event> {
    [Exit(level + 3)] + ((if generic then [Place(Unique(k))] else []) + [EmitOther(0), Place(Break), Exit(level + 3), MoveTop(level)])
  }

  /** The statements of a `repeat` and its condition, in one scope. */
  function LoopEvents(ss: seq<Statement>, until: seq<Work>, level: nat, block: nat, k: nat): seq<Event>
    decreases ss, 1
  {
    var end := level + Declared(ss);
    Events(ss, level, block, k) + WorkEvents(until, end, block, k + Labels(ss)) + [MoveTop(end)]
  }

  /** Labels at the end of a block are behind an inner block with the other statements, unless there is a
      `return`. */
  function BodyEvents(b: Body, level: nat, block: nat, k: nat): seq<Event>
    decreases b, 1
  {
    match b.values
    case Some(work) => LoopEvents(b.statements, work, level, block, k)
    case None =>
      var n := Trailing(b.statements);
      assert n == |b.statements| ==> b.statements[..n] == b.statements;
      [Enter] + Events(b.statements[..n], level, block + 1, k) + [Exit(level)] + LabelEvents(b.statements[n..])
  }

  /** Where the labels at the end of the statements begin. */
  function Trailing(ss: seq<Statement>): (n: nat)
    ensures n <= |ss| && forall i :: n <= i < |ss| ==> ss[i].LabelHere?
  {
    if ss != [] && ss[|ss| - 1].LabelHere? then Trailing(ss[..|ss| - 1]) else |ss|
  }

  function LabelEvents(ss: seq<Statement>): seq<Event>
    requires forall i :: 0 <= i < |ss| ==> ss[i].LabelHere?
  {
    seq(|ss|, i requires 0 <= i < |ss| => Place(Named(ss[i].name)))
  }

  /** `end` is the label behind the whole statement, `next` the one that the test before jumps to. */
  function ArmEvents(arms: Arms, level: nat, block: nat, end: nat, next: nat, k: nat): seq<Event>
    decreases arms, 1
  {
    match arms
    case Arm(condition, body, rest) =>
      OneArm(condition, body, rest.EndIf?, level, block, end, next, k)
      + ArmEvents(rest, level, block, end, k, k + 1 + WorkLabels(condition) + BodyLabels(body))
    case Else(body) => [Place(Unique(next)), Enter] + BodyEvents(body, level, block + 1, k) + [Exit(level), Place(Unique(end))]
    case EndIf => [Place(Unique(next)), Place(Unique(end))]
  }

  function OneArm(condition: seq<Work>, body: Body, last: bool, level: nat, block: nat, end: nat, next: nat, k: nat): seq<Event>
    decreases body, 2
  {
    TestHead(condition, level, block, next, k) + BodyEvents(body, level, block + 1, k + 1 + WorkLabels(condition))
    + ((if last then [] else [GoTo(Unique(end))]) + [Exit(level)])
  }
}
