/** Whether the upvalues that a running function uses lie below its frame, in every run of one thread: captures, calls,
    returns and uses. */
module UpValueRuns {
  /** A cell of a captured variable. */
  datatype Cell = Open(slot: nat) | Closed

  /** A Lua function that runs or waits: where its part of the stack begins, and the cells of its closure. */
  datatype Frame = Frame(bottom: nat, cells: set<nat>)

  datatype State = State(cells: seq<Cell>, frames: seq<Frame>)

  datatype Event =
    | Capture(slot: nat) | Call(bottom: nat, cells: set<nat>) | TailCall(cells: set<nat>) | CloseFrom(slot: nat) | Return | Use(cell: nat)

  datatype Outcome = Next(state: State) | Fails

  ghost predicate Within(s: State, cells: set<nat>) {
    forall c :: c in cells ==> c < |s.cells|
  }

  /** A function captures and closes variables in its own part of the stack, calls closures that exist, above its
      own bottom, and uses the upvalues of its own closure. */
  ghost predicate Possible(s: State, e: Event) {
    s.frames != []
    && var f := s.frames[|s.frames| - 1];
       match e
       case Capture(slot) => f.bottom <= slot
       case Call(bottom, cells) => f.bottom <= bottom && Within(s, cells)
       case TailCall(cells) => Within(s, cells)
       case CloseFrom(slot) => f.bottom <= slot
       case Return => true
       case Use(c) => c in f.cells && c < |s.cells|
  }

  function CloseCell(c: Cell, bottom: nat): Cell {
    if c.Open? && c.slot >= bottom then Closed else c
  }

  function CloseCells(cells: seq<Cell>, bottom: nat): (r: seq<Cell>)
    ensures |r| == |cells| && forall c :: 0 <= c < |r| ==> r[c] == CloseCell(cells[c], bottom)
  {
    seq(|cells|, c requires 0 <= c < |cells| => CloseCell(cells[c], bottom))
  }

  function Step(s: State, e: Event): Outcome
    requires s.frames != [] && (e.Use? ==> e.cell < |s.cells|)
  {
    var n := |s.frames| - 1;
    var f := s.frames[n];
    match e
    case Capture(slot) => Next(if Open(slot) in s.cells then s else s.(cells := s.cells + [Open(slot)]))
    case Call(bottom, cells) => Next(s.(frames := s.frames + [Frame(bottom, cells)]))
    case TailCall(cells) => Next(State(CloseCells(s.cells, f.bottom), s.frames[..n] + [Frame(f.bottom, cells)]))
    case CloseFrom(slot) => Next(s.(cells := CloseCells(s.cells, slot)))
    case Return => Next(State(CloseCells(s.cells, f.bottom), s.frames[..n]))
    case Use(c) => if s.cells[c].Open? && s.cells[c].slot >= f.bottom then Fails else Next(s)
  }

  /** Only a return, a tail call and an operation that closes change a cell, and only an open one from their own bottom on, which
      they close. Captures add one open cell for each slot. */
  lemma ClosesExactly(s: State, e: Event, c: nat)
    requires Possible(s, e) && c < |s.cells| && Step(s, e).Next?
    ensures var f, cells := s.frames[|s.frames| - 1], Step(s, e).state.cells;
            var closes := s.cells[c].Open?
                          && ((e.CloseFrom? && s.cells[c].slot >= e.slot) || ((e.Return? || e.TailCall?) && s.cells[c].slot >= f.bottom));
            c < |cells| && cells[c] == (if closes then Closed else s.cells[c])
            && (e.Capture? ==> Open(e.slot) in cells && |cells| == |s.cells| + if Open(e.slot) in s.cells then 0 else 1)
            && (!e.Capture? ==> |cells| == |s.cells|)
  {
  }

  /** The open cells lie below the bottom. */
  ghost predicate Below(s: State, cells: set<nat>, bottom: nat) {
    forall c :: c in cells && c < |s.cells| && s.cells[c].Open? ==> s.cells[c].slot < bottom
  }

  /** A call leaves the captured variables of the closure below the new frame. */
  ghost predicate Sound(s: State, e: Event) {
    e.Call? ==> Below(s, e.cells, e.bottom)
  }

  /** Of every function that runs or waits. */
  ghost predicate AllBelow(s: State) {
    forall k :: 0 <= k < |s.frames| ==> Within(s, s.frames[k].cells) && Below(s, s.frames[k].cells, s.frames[k].bottom)
  }

  lemma StepBelow(s: State, e: Event)
    requires AllBelow(s) && Possible(s, e) && Sound(s, e)
    ensures Step(s, e).Next? && AllBelow(Step(s, e).state)
  {
    var s', n := Step(s, e).state, |s.frames| - 1;
    match e {
      case TailCall(cells) =>
        forall k | 0 <= k < |s'.frames| ensures Within(s', s'.frames[k].cells) && Below(s', s'.frames[k].cells, s'.frames[k].bottom) {
          assert k < n ==> s'.frames[k] == s.frames[k];
        }
      case _ =>
        forall k | 0 <= k < |s'.frames| ensures Within(s', s'.frames[k].cells) && Below(s', s'.frames[k].cells, s'.frames[k].bottom) {
          assert k < |s.frames| ==> s'.frames[k] == s.frames[k];
        }
    }
  }

  // Runs.

  function Run(s: State, es: seq<Event>): Outcome
    decreases |es|
  {
    if es == [] then Next(s)
    else if s.frames == [] || (es[0].Use? && es[0].cell >= |s.cells|) then Next(s)
    else match Step(s, es[0])
      case Next(s') => Run(s', es[1..])
      case Fails => Fails
  }

  /** All events are possible where they happen. */
  ghost predicate AllPossible(s: State, es: seq<Event>)
    decreases |es|
  {
    es != [] ==> Possible(s, es[0]) && (Step(s, es[0]).Next? ==> AllPossible(Step(s, es[0]).state, es[1..]))
  }

  ghost predicate AllSound(s: State, es: seq<Event>)
    decreases |es|
  {
    es != [] && s.frames != [] && (es[0].Use? ==> es[0].cell < |s.cells|) ==>
      Sound(s, es[0]) && (Step(s, es[0]).Next? ==> AllSound(Step(s, es[0]).state, es[1..]))
  }

  /** A thread with its first function: nothing is captured here yet, and the other cells are closed or those of other
      threads. */
  function Start(count: nat, cells: set<nat>): State {
    State(seq(count, _ => Closed), [Frame(0, cells)])
  }

  /** No assertion about upvalues fails in any run whose calls are sound, and in every state the open upvalues of every
      function that runs or waits lie below its frame. */
  lemma {:induction false} UsesAreSafe(s: State, es: seq<Event>)
    requires AllBelow(s) && AllPossible(s, es) && AllSound(s, es)
    ensures Run(s, es).Next? && AllBelow(Run(s, es).state)
    decreases |es|
  {
    hide Step, AllBelow, Sound;
    if es != [] {
      StepBelow(s, es[0]);
      UsesAreSafe(Step(s, es[0]).state, es[1..]);
    }
  }

  lemma ThreadsAreSafe(count: nat, cells: set<nat>, es: seq<Event>)
    requires (forall c :: c in cells ==> c < count) && AllPossible(Start(count, cells), es) && AllSound(Start(count, cells), es)
    ensures Run(Start(count, cells), es).Next?
  {
    UsesAreSafe(Start(count, cells), es);
  }

  /** The condition is exact: all upvalues of a closure can be used right behind its call if and only if the call is
      sound. */
  lemma CallDecides(s: State, bottom: nat, cells: set<nat>)
    requires Possible(s, Call(bottom, cells))
    ensures Sound(s, Call(bottom, cells)) <==> forall c :: c in cells ==> Run(s, [Call(bottom, cells), Use(c)]).Next?
  {
    var e, s' := Call(bottom, cells), s.(frames := s.frames + [Frame(bottom, cells)]);
    forall c | c in cells
      ensures Run(s, [e, Use(c)]).Next? <==> !(s.cells[c].Open? && s.cells[c].slot >= bottom)
    {
      assert [e, Use(c)][1..] == [Use(c)] && [Use(c)][1..] == [];
      assert Run(s, [e, Use(c)]) == Run(s', [Use(c)]);
      assert Run(s', []) == Next(s');
    }
  }

  /** A call above all captured variables is sound, whatever the closure. */
  lemma AboveAll(s: State, bottom: nat, cells: set<nat>)
    requires forall c :: 0 <= c < |s.cells| && s.cells[c].Open? ==> s.cells[c].slot < bottom
    ensures Sound(s, Call(bottom, cells))
  {
  }
}
