/** When jumps and the ends of blocks close upvalues: read off the events, without the compiler's state. */
module JumpClosing {
  import opened Values
  import opened Jumps
  import opened JumpHistory
  import opened JumpTheorems
  import opened JumpSteps
  import U = UpValueRuns

  // Reading events.

  /** How many blocks are open behind the events, besides the outermost one. */
  function Nesting(es: seq<Event>): int
    decreases |es|
  {
    if es == [] then 0
    else Nesting(es[..|es| - 1]) + (match es[|es| - 1] case Enter => 1 case Exit(_) => -1 case _ => 0)
  }

  /** The top of the register stack: the one that was told last. */
  function TopBehind(top: nat, es: seq<Event>): nat
    decreases |es|
  {
    if es == [] then top
    else match es[|es| - 1]
      case MoveTop(t) => t
      case Exit(t) => t
      case _ => TopBehind(top, es[..|es| - 1])
  }

  /** From the event `i` on at least so many blocks have been open. */
  predicate Stays(es: seq<Event>, i: nat, depth: int) {
    forall j :: i <= j <= |es| ==> Nesting(es[..j]) >= depth
  }

  /** The event enters the block that is now the one of that depth. */
  predicate Entered(es: seq<Event>, i: nat, depth: nat) {
    i < |es| && es[i].Enter? && Nesting(es[..i]) + 1 == depth && Stays(es, i + 1, depth)
  }

  /** A variable of the block that is now the one of that depth has been captured. */
  ghost predicate Captured(es: seq<Event>, depth: nat) {
    exists i :: CapturedAt(es, i, depth)
  }

  predicate CapturedAt(es: seq<Event>, i: nat, depth: nat) {
    i < |es| && es[i] == Capture(depth) && Stays(es, i, depth)
  }

  /** The event puts the label in the block that is now the one of that depth, and no other one of that name is put anywhere
      behind it. */
  predicate Labelled(es: seq<Event>, i: nat, lab: Label, depth: nat) {
    && i < |es| && es[i] == Place(lab) && Nesting(es[..i]) == depth && Stays(es, i, depth)
    && forall j :: i < j < |es| ==> es[j] != Place(lab)
  }

  // The compiler's state says the same.

  lemma Shorter(es: seq<Event>, j: nat)
    requires j < |es|
    ensures es[..|es| - 1][..j] == es[..j]
  {
  }

  lemma StaysShorter(es: seq<Event>, i: nat, depth: int)
    requires i < |es|
    ensures Stays(es, i, depth) <==> Stays(es[..|es| - 1], i, depth) && Nesting(es) >= depth
  {
    var rest := es[..|es| - 1];
    assert es[..|es|] == es;
    forall j | i <= j < |es| ensures rest[..j] == es[..j] {
      Shorter(es, j);
    }
  }

  lemma LastEvent(s: State, es: seq<Event>) returns (t: State)
    requires es != [] && Perform(s, es).Next?
    ensures Perform(s, es[..|es| - 1]) == Next(t) && Apply(t, es[|es| - 1]) == Perform(s, es)
  {
    assert es[..|es| - 1] + [es[|es| - 1]] == es;
    PerformAppend(s, es[..|es| - 1], [es[|es| - 1]]);
    t := Perform(s, es[..|es| - 1]).state;
    PerformOne(t, es[|es| - 1]);
  }

  lemma {:induction false} DepthAndTop(top: nat, es: seq<Event>)
    requires Perform(Start(top), es).Next?
    ensures var s := Perform(Start(top), es).state; |s.blocks| == Nesting(es) + 1 > 0 && s.top == TopBehind(top, es)
    decreases |es|
  {
    if es != [] {
      var t := LastEvent(Start(top), es);
      DepthAndTop(top, es[..|es| - 1]);
      hide Perform;
    }
  }

  lemma {:induction false} BlockTop(top: nat, es: seq<Event>, i: nat, depth: nat)
    requires Perform(Start(top), es).Next? && Entered(es, i, depth)
    ensures var s := Perform(Start(top), es).state; depth < |s.blocks| && s.blocks[depth].stackBottom == TopBehind(top, es[..i])
    decreases |es|
  {
    var rest := es[..|es| - 1];
    var t := LastEvent(Start(top), es);
    DepthAndTop(top, es);
    DepthAndTop(top, rest);
    assert es[..|es|] == es && Nesting(es) >= depth;
    hide Perform;
    if i < |es| - 1 {
      StaysShorter(es, i + 1, depth);
      Shorter(es, i);
      BlockTop(top, rest, i, depth);
    }
  }

  lemma CapturedMore(es: seq<Event>, depth: nat)
    requires es != [] && Nesting(es) >= depth
    ensures Captured(es, depth) <==> es[|es| - 1] == Capture(depth) || Captured(es[..|es| - 1], depth)
  {
    var rest, n := es[..|es| - 1], |es| - 1;
    assert es[..|es|] == es;
    if es[n] == Capture(depth) {
      assert CapturedAt(es, n, depth);
    }
    if Captured(es, depth) {
      var i: nat :| CapturedAt(es, i, depth);
      if i < n {
        StaysShorter(es, i, depth);
        assert CapturedAt(rest, i, depth);
      }
    }
    if Captured(rest, depth) {
      var i: nat :| CapturedAt(rest, i, depth);
      StaysShorter(es, i, depth);
      assert CapturedAt(es, i, depth);
    }
  }

  lemma NotCaptured(es: seq<Event>, depth: nat)
    requires Nesting(es) < depth
    ensures !Captured(es, depth)
  {
    assert es[..|es|] == es;
  }

  lemma {:induction false} BlockCaptured(top: nat, es: seq<Event>, depth: nat)
    requires Perform(Start(top), es).Next? && depth <= Nesting(es)
    ensures var s := Perform(Start(top), es).state; depth < |s.blocks| && (s.blocks[depth].ownsUpvalues <==> Captured(es, depth))
    decreases |es|
  {
    DepthAndTop(top, es);
    if es != [] {
      var rest := es[..|es| - 1];
    var t := LastEvent(Start(top), es);
      DepthAndTop(top, rest);
      CapturedMore(es, depth);
      hide Perform, Captured;
      if depth <= Nesting(rest) {
        BlockCaptured(top, rest, depth);
      } else {
        NotCaptured(rest, depth);
      }
    }
  }

  lemma {:induction false} FindLast(targets: seq<Target>, k: nat)
    requires k < |targets| && forall j :: k < j < |targets| ==> targets[j].lab != targets[k].lab
    ensures FindTarget(targets, targets[k].lab) == Some(targets[k])
    decreases |targets|
  {
    if k < |targets| - 1 {
      FindLast(targets[..|targets| - 1], k);
    }
  }

  /** The label is the last one of its name, and before all that the blocks within its block have. */
  predicate Standing(s: State, t: Target, k: nat) {
    && k < |s.targets| && s.targets[k] == t && t.instruction <= |s.ops| && (forall j :: k < j < |s.targets| ==> s.targets[j].lab != t.lab)
    && forall b :: t.blockIndex < b < |s.blocks| ==> s.blocks[b].bottomTarget > k
  }

  /** The label, as it was put by that event. */
  function LabelAt(top: nat, es: seq<Event>, i: nat, lab: Label, depth: nat): Target
    requires i <= |es| && Perform(Start(top), es[..i]).Next?
  {
    Target(lab, |Perform(Start(top), es[..i]).state.ops|, TopBehind(top, es[..i]), depth)
  }

  lemma {:induction false} PatchLength(ops: seq<Op>, ps: seq<Pending>, target: nat, top: nat)
    ensures PatchAll(ops, ps, target, top).Ok? ==> |PatchAll(ops, ps, target, top).ops| == |ops|
    decreases |ps|
  {
    if PatchAll(ops, ps, target, top).Ok? && ps != [] {
      var p := ps[0];
      PatchLength(ops[p.instruction := JumpOp(JumpOffset(p.instruction, target).value, if p.close then Some(top) else None)], ps[1..], target, top);
    }
  }

  lemma LabelPut(s: State, lab: Label, s': State)
    requires Apply(s, Place(lab)) == Next(s')
    ensures s.blocks != [] && Standing(s', Target(lab, |s.ops|, s.top, |s.blocks| - 1), |s.targets|)
  {
    PatchLength(s.ops, Resolving(s.pending, |s.blocks| - 1, lab), |s.ops|, s.top);
  }

  lemma StillStanding(s: State, e: Event, s': State, t: Target, k: nat)
    requires Apply(s, e) == Next(s') && e != Place(t.lab) && Standing(s, t, k) && t.blockIndex < |s'.blocks|
    ensures Standing(s', t, k)
  {
    match e {
      case Enter =>
      case Exit(_) => assert s.blocks[|s.blocks| - 1].bottomTarget > k;
      case Place(lab) => PatchLength(s.ops, Resolving(s.pending, |s.blocks| - 1, lab), |s.ops|, s.top);
      case _ =>
    }
  }

  lemma {:induction false} LabelStands(top: nat, es: seq<Event>, i: nat, lab: Label, depth: nat) returns (k: nat)
    requires Perform(Start(top), es).Next? && Labelled(es, i, lab, depth)
    ensures Perform(Start(top), es[..i]).Next? && Standing(Perform(Start(top), es).state, LabelAt(top, es, i, lab, depth), k)
    decreases |es|
  {
    var s := Perform(Start(top), es).state;
    var rest := es[..|es| - 1];
    var t := LastEvent(Start(top), es);
    DepthAndTop(top, es);
    DepthAndTop(top, rest);
    assert es[..|es|] == es && Nesting(es) >= depth;
    hide Perform, Standing, Apply;
    if i < |es| - 1 {
      StaysShorter(es, i, depth);
      Shorter(es, i);
      k := LabelStands(top, rest, i, lab, depth);
      StillStanding(t, es[|es| - 1], s, LabelAt(top, es, i, lab, depth), k);
    } else {
      k := |t.targets|;
      LabelPut(t, lab, s);
    }
  }

  // What is emitted.

  /** Leaving a block other than the outermost one closes the upvalues from the top on at which the block was entered, exactly
      if one of its variables has been captured; otherwise it emits nothing. */
  lemma EndOfBlock(top: nat, es: seq<Event>, i: nat, x: nat)
    requires Perform(Start(top), es).Next? && Nesting(es) > 0 && Entered(es, i, Nesting(es))
    ensures var s, from, captured := Perform(Start(top), es).state, TopBehind(top, es[..i]), Captured(es, Nesting(es));
            match Apply(s, Exit(x))
            case Next(s') => s'.ops == s.ops + (if captured then [JumpOp(0, Some(from))] else []) && (captured ==> from <= 254)
            case Fails(error) => error == Registers && captured && from > 254
            case Panics(panic) => panic == StackOrder && !(captured && from > 254)
  {
    BlockTop(top, es, i, Nesting(es));
    BlockCaptured(top, es, Nesting(es));
    DepthAndTop(top, es);
    hide Perform, Captured, Entered;
  }

  /** A jump back leads to the label, and closes the upvalues from the label's stack top on exactly if the stack is higher now
      and a variable of a block from the label's on has been captured. */
  lemma JumpBack(top: nat, es: seq<Event>, i: nat, lab: Label, depth: nat)
    requires Perform(Start(top), es).Next? && Labelled(es, i, lab, depth)
    ensures Perform(Start(top), es[..i]).Next?
    ensures var s, from, to := Perform(Start(top), es).state, TopBehind(top, es[..i]), |Perform(Start(top), es[..i]).state.ops|;
            var closes := from < TopBehind(top, es) && exists b: nat :: depth <= b <= Nesting(es) && Captured(es, b);
            match Apply(s, GoTo(lab))
            case Next(s') => s' == s.(ops := s.ops + [JumpOp(to - (|s.ops| + 1), if closes then Some(from) else None)])
                             && |s.ops| + 1 - to <= 32767 && (closes ==> from <= 254)
            case Fails(error) => (error == JumpOverflow && |s.ops| + 1 - to > 32767) || (error == Registers && closes && from > 254)
            case Panics(panic) => panic == StackOrder && from > TopBehind(top, es)
  {
    var s := Perform(Start(top), es).state;
    var k := LabelStands(top, es, i, lab, depth);
    FindLast(s.targets, k);
    DepthAndTop(top, es);
    assert es[..|es|] == es;
    AnyCaptured(top, es, depth);
    hide Perform, Captured, Apply;
    JumpFound(s, lab, LabelAt(top, es, i, lab, depth));
  }

  lemma AnyCaptured(top: nat, es: seq<Event>, depth: nat)
    requires Perform(Start(top), es).Next?
    ensures var s := Perform(Start(top), es).state;
            (exists b: nat :: depth <= b <= Nesting(es) && Captured(es, b)) <==> exists b :: depth <= b < |s.blocks| && s.blocks[b].ownsUpvalues
  {
    var s := Perform(Start(top), es).state;
    DepthAndTop(top, es);
    forall b: nat | depth <= b <= Nesting(es) ensures b < |s.blocks| && (s.blocks[b].ownsUpvalues <==> Captured(es, b)) {
      BlockCaptured(top, es, b);
    }
    hide Perform, Captured;
  }

  lemma JumpFound(s: State, lab: Label, t: Target)
    requires FindTarget(s.targets, lab) == Some(t) && t.instruction <= |s.ops| && t.blockIndex < |s.blocks|
    ensures var closes := t.stackTop < s.top && exists b :: t.blockIndex <= b < |s.blocks| && s.blocks[b].ownsUpvalues;
            match Apply(s, GoTo(lab))
            case Next(s') => s' == s.(ops := s.ops + [JumpOp(t.instruction - (|s.ops| + 1), if closes then Some(t.stackTop) else None)])
                             && |s.ops| + 1 - t.instruction <= 32767 && (closes ==> t.stackTop <= 254)
            case Fails(error) => (error == JumpOverflow && |s.ops| + 1 - t.instruction > 32767)
                                 || (error == Registers && closes && t.stackTop > 254)
            case Panics(panic) => panic == StackOrder && t.stackTop > s.top
  {
  }

  /** A jump to a label that is not there yet is always accepted, and waits. */
  lemma JumpAhead(s: State, lab: Label)
    requires s.blocks != [] && forall t :: t in s.targets ==> t.lab != lab
    ensures var p := Pending(lab, |s.ops|, |s.blocks| - 1, s.top, false);
            Apply(s, GoTo(lab)) == Next(s.(ops := s.ops + [JumpOp(0, None)], pending := s.pending + [p]))
  {
  }

  /** Jumps are refused for their distance only if that is more than 32767. */
  lemma OffsetExactly(source: nat, target: nat)
    ensures var distance := target - (source + 1);
            JumpOffset(source, target) == if -32767 <= distance <= 32767 then Some(distance) else None
  {
  }

  // What runs.

  /** The closing operations among those that were emitted, for a function whose registers begin at `base`. */
  function Closings(ops: seq<Op>, base: nat): seq<U.Event> {
    if ops == [] then []
    else (if ops[0].JumpOp? && ops[0].close.Some? then [U.CloseFrom(base + ops[0].close.value)] else []) + Closings(ops[1..], base)
  }

  /** What happens to upvalues when the code of an event runs: a closure is made that captures the register, or the emitted
      operations close. */
  function Happening(s: State, e: Event, s': State, base: nat, register: nat): seq<U.Event>
    requires |s.ops| <= |s'.ops|
  {
    if e.Capture? then [U.Capture(base + register)] else Closings(s'.ops[|s.ops|..], base)
  }

  /** Blocks lie above each other: variables of a block are in registers from its own top on and below those of the blocks
      within it. Jumps are looked at elsewhere. */
  predicate Fits(s: State, e: Event, cells: seq<U.Cell>, base: nat, register: nat) {
    match e
    case GoTo(_) => false
    case Capture(b) => b < |s.blocks| && Inside(s.blocks, b, base, base + register)
    case Enter => forall c :: c in cells && c.Open? ==> c.slot < base + s.top
    case _ => true
  }

  predicate Inside(blocks: seq<Block>, b: nat, base: nat, slot: nat)
    requires b < |blocks|
  {
    base + blocks[b].stackBottom <= slot && forall d :: b < d < |blocks| ==> slot < base + blocks[d].stackBottom
  }

  predicate Owner(blocks: seq<Block>, b: nat, base: nat, slot: nat) {
    b < |blocks| && blocks[b].ownsUpvalues && Inside(blocks, b, base, slot)
  }

  ghost predicate HasOwner(blocks: seq<Block>, base: nat, slot: nat) {
    exists b: nat :: Owner(blocks, b, base, slot)
  }

  /** Every open cell of the function belongs to an open block that is known to own upvalues. */
  ghost predicate Owned(blocks: seq<Block>, cells: seq<U.Cell>, base: nat, bottom: nat) {
    forall i :: 0 <= i < |cells| && cells[i].Open? && cells[i].slot >= base + bottom ==> HasOwner(blocks, base, cells[i].slot)
  }

  /** No open cell of the function from `slot` on. */
  predicate NoneFrom(cells: seq<U.Cell>, slot: nat, base: nat, bottom: nat) {
    forall i :: 0 <= i < |cells| && cells[i].Open? && cells[i].slot >= base + bottom ==> cells[i].slot < slot
  }

  lemma MarkedOwner(blocks: seq<Block>, b: nat, base: nat, slot: nat)
    requires b < |blocks| && HasOwner(blocks, base, slot)
    ensures HasOwner(blocks[b := blocks[b].(ownsUpvalues := true)], base, slot)
  {
    var d: nat :| Owner(blocks, d, base, slot);
    assert Owner(blocks[b := blocks[b].(ownsUpvalues := true)], d, base, slot);
  }

  lemma CaptureOwned(blocks: seq<Block>, b: nat, u: U.State, base: nat, bottom: nat, slot: nat)
    requires u.frames != [] && b < |blocks| && Inside(blocks, b, base, slot) && Owned(blocks, u.cells, base, bottom)
    ensures Owned(blocks[b := blocks[b].(ownsUpvalues := true)], U.Step(u, U.Capture(slot)).state.cells, base, bottom)
  {
    var blocks', cells' := blocks[b := blocks[b].(ownsUpvalues := true)], U.Step(u, U.Capture(slot)).state.cells;
    forall i | 0 <= i < |cells'| && cells'[i].Open? && cells'[i].slot >= base + bottom ensures HasOwner(blocks', base, cells'[i].slot) {
      if i < |u.cells| {
        MarkedOwner(blocks, b, base, u.cells[i].slot);
      } else {
        assert Owner(blocks', b, base, slot);
      }
    }
  }

  lemma EnterOwned(blocks: seq<Block>, last: Block, cells: seq<U.Cell>, base: nat, bottom: nat)
    requires Owned(blocks, cells, base, bottom) && forall c :: c in cells && c.Open? ==> c.slot < base + last.stackBottom
    ensures Owned(blocks + [last], cells, base, bottom)
  {
    forall i | 0 <= i < |cells| && cells[i].Open? && cells[i].slot >= base + bottom ensures HasOwner(blocks + [last], base, cells[i].slot) {
      var d: nat :| Owner(blocks, d, base, cells[i].slot);
      assert Owner(blocks + [last], d, base, cells[i].slot);
    }
  }

  /** The upvalues of the last block are closed, or it has none. */
  lemma ExitOwned(blocks: seq<Block>, cells: seq<U.Cell>, cells': seq<U.Cell>, base: nat, bottom: nat)
    requires blocks != [] && Owned(blocks, cells, base, bottom)
    requires var last := blocks[|blocks| - 1];
             cells' == if last.ownsUpvalues then U.CloseCells(cells, base + last.stackBottom) else cells
    ensures Owned(blocks[..|blocks| - 1], cells', base, bottom) && NoneFrom(cells', base + blocks[|blocks| - 1].stackBottom, base, bottom)
  {
    var n := |blocks| - 1;
    forall i | 0 <= i < |cells'| && cells'[i].Open? && cells'[i].slot >= base + bottom
      ensures HasOwner(blocks[..n], base, cells'[i].slot) && cells'[i].slot < base + blocks[n].stackBottom
    {
      var d: nat :| Owner(blocks, d, base, cells[i].slot);
      assert d < n;
      assert Owner(blocks[..n], d, base, cells[i].slot);
    }
  }

  lemma OneHappens(u: U.State, e: U.Event)
    requires u.frames != [] && (e.Capture? || e.CloseFrom?)
    ensures U.Run(u, [e]) == U.Step(u, e) && U.Step(u, e).Next? && U.Step(u, e).state.frames == u.frames
  {
    assert [e][1..] == [];
  }

  lemma OneClosing(op: Op, base: nat)
    ensures Closings([op], base) == if op.JumpOp? && op.close.Some? then [U.CloseFrom(base + op.close.value)] else []
  {
    assert [op][1..] == [];
  }

  lemma ExitOps(s: State, x: nat, s': State)
    requires Apply(s, Exit(x)) == Next(s')
    ensures |s.blocks| > 1 && s'.blocks == s.blocks[..|s.blocks| - 1] && |s.ops| <= |s'.ops|
    ensures var last := s.blocks[|s.blocks| - 1];
            s'.ops[|s.ops|..] == if last.ownsUpvalues then [JumpOp(0, Some(last.stackBottom))] else []
  {
  }

  lemma ExitHappens(s: State, x: nat, s': State, u: U.State, base: nat, bottom: nat)
    requires Apply(s, Exit(x)) == Next(s') && u.frames != [] && Owned(s.blocks, u.cells, base, bottom)
    ensures |s.ops| <= |s'.ops| && s.blocks != []
    ensures var o := U.Run(u, Closings(s'.ops[|s.ops|..], base));
            o.Next? && o.state.frames == u.frames && Owned(s'.blocks, o.state.cells, base, bottom)
            && NoneFrom(o.state.cells, base + s.blocks[|s.blocks| - 1].stackBottom, base, bottom)
  {
    ExitOps(s, x, s');
    hide Apply, Owned, U.Step, NoneFrom, Closings;
    var last := s.blocks[|s.blocks| - 1];
    var o := U.Run(u, Closings(s'.ops[|s.ops|..], base));
    if last.ownsUpvalues {
      OneClosing(JumpOp(0, Some(last.stackBottom)), base);
      OneHappens(u, U.CloseFrom(base + last.stackBottom));
      assert o == U.Step(u, U.CloseFrom(base + last.stackBottom));
      ClosedCells(u, base + last.stackBottom);
    } else {
      assert Closings([], base) == [] by {
        NoClosings(base);
      }
    }
    ExitOwned(s.blocks, u.cells, o.state.cells, base, bottom);
  }

  lemma NoClosings(base: nat)
    ensures Closings([], base) == []
  {
  }

  lemma ClosedCells(u: U.State, slot: nat)
    requires u.frames != []
    ensures U.Step(u, U.CloseFrom(slot)) == U.Next(u.(cells := U.CloseCells(u.cells, slot)))
  {
  }

  /** New operations of other events close nothing. */
  lemma OtherOps(s: State, e: Event, s': State, base: nat)
    requires Apply(s, e) == Next(s') && !e.Exit? && !e.GoTo?
    ensures |s.ops| <= |s'.ops| && Closings(s'.ops[|s.ops|..], base) == []
  {
    if e.EmitOther? {
      assert s'.ops[|s.ops|..] == [OtherOp(e.id)];
      OneClosing(OtherOp(e.id), base);
    } else if e.Place? {
      PatchLength(s.ops, Resolving(s.pending, |s.blocks| - 1, e.lab), |s.ops|, s.top);
      assert s'.ops[|s.ops|..] == [];
    } else if e.MoveTop? || e.Capture? || e.Enter? {
      assert s'.ops[|s.ops|..] == [];
    }
  }

  lemma EventHappens(s: State, e: Event, s': State, u: U.State, base: nat, bottom: nat, register: nat)
    requires Apply(s, e) == Next(s') && Fits(s, e, u.cells, base, register) && u.frames != [] && Owned(s.blocks, u.cells, base, bottom)
    ensures |s.ops| <= |s'.ops|
    ensures var o := U.Run(u, Happening(s, e, s', base, register));
            o.Next? && o.state.frames == u.frames && Owned(s'.blocks, o.state.cells, base, bottom)
  {
    hide U.Step, U.Run, Owned, Inside, Closings;
    if e.Exit? {
      hide Apply;
      ExitHappens(s, e.stackTop, s', u, base, bottom);
    } else {
      OtherOps(s, e, s', base);
      NothingHappens(u);
      if e.Capture? {
        OneHappens(u, U.Capture(base + register));
        CaptureOwned(s.blocks, e.block, u, base, bottom, base + register);
      } else if e.Enter? {
        EnterOwned(s.blocks, Block(s.top, |s.targets|, false), u.cells, base, bottom);
      }
    }
  }

  lemma NothingHappens(u: U.State)
    ensures U.Run(u, []) == U.Next(u)
  {
  }

  /** The code of the events runs as it is compiled, with the registers that closures capture. */
  function Together(s: State, u: U.State, es: seq<Event>, registers: seq<nat>, base: nat): Option<(State, U.State)>
    requires |registers| == |es|
    decreases |es|
  {
    if es == [] then Some((s, u))
    else match Apply(s, es[0])
      case Next(s') =>
        if |s.ops| > |s'.ops| || !Fits(s, es[0], u.cells, base, registers[0]) then None
        else (match U.Run(u, Happening(s, es[0], s', base, registers[0]))
              case Next(u') => Together(s', u', es[1..], registers[1..], base)
              case Fails => None)
      case _ => None
  }

  lemma {:induction false} TogetherOwned(s: State, u: U.State, es: seq<Event>, registers: seq<nat>, base: nat, bottom: nat)
    requires |registers| == |es| && Together(s, u, es, registers, base).Some?
    requires u.frames != [] && Owned(s.blocks, u.cells, base, bottom)
    ensures var (s', u') := Together(s, u, es, registers, base).value;
            Perform(s, es) == Next(s') && u'.frames == u.frames && Owned(s'.blocks, u'.cells, base, bottom)
    decreases |es|
  {
    if es != [] {
      hide Fits, Happening, U.Run, Owned, Apply;
      var s' := Apply(s, es[0]).state;
      EventHappens(s, es[0], s', u, base, bottom, registers[0]);
      TogetherOwned(s', U.Run(u, Happening(s, es[0], s', base, registers[0])).state, es[1..], registers[1..], base, bottom);
    }
  }

  /** Behind a block no variable in a register from the block's beginning on is still captured: whatever happened before, and
      whichever blocks and closures it had. */
  lemma NoneBehindBlock(top: nat, u: U.State, es: seq<Event>, registers: seq<nat>, base: nat, i: nat, x: nat, s': State)
    requires u.frames != [] && NoneFrom(u.cells, base + top, base, top)
    requires |registers| == |es| && Together(Start(top), u, es, registers, base).Some?
    requires Nesting(es) > 0 && Entered(es, i, Nesting(es))
    requires Apply(Together(Start(top), u, es, registers, base).value.0, Exit(x)) == Next(s')
    ensures var (s, w) := Together(Start(top), u, es, registers, base).value;
            |s.ops| <= |s'.ops|
            && var o := U.Run(w, Closings(s'.ops[|s.ops|..], base));
               o.Next? && NoneFrom(o.state.cells, base + TopBehind(top, es[..i]), base, top)
  {
    hide Perform, Entered, Apply, Together, U.Run;
    var (s, w) := Together(Start(top), u, es, registers, base).value;
    assert Owned(Start(top).blocks, u.cells, base, top);
    TogetherOwned(Start(top), u, es, registers, base, top);
    DepthAndTop(top, es);
    BlockTop(top, es, i, Nesting(es));
    ExitHappens(s, x, s', w, base, top);
  }

  // A jump back that does not close.

  const FIRST := Named("a")
  const SECOND := Named("b")

  function TwoLabels(): seq<Event> {
    [Place(FIRST), MoveTop(1), Place(SECOND), EmitOther(0), Enter, GoTo(FIRST), Exit(1), EmitOther(1), Capture(0), GoTo(SECOND)]
  }

  function Labels(): seq<Target> {
    [Target(FIRST, 0, 0, 0), Target(SECOND, 0, 1, 0)]
  }

  lemma OneMore(s: State, e: Event, s': State, es: seq<Event>)
    requires Apply(s, e) == Next(s')
    ensures Perform(s, [e] + es) == Perform(s', es)
  {
    PerformMore(s, e, es);
  }

  lemma PlaceFirst(s: State, lab: Label, s': State)
    requires s.pending == [] && |s.blocks| == 1 && forall t :: t in s.targets ==> t.lab != lab
    requires s' == s.(targets := s.targets + [Target(lab, |s.ops|, s.top, 0)])
    ensures Apply(s, Place(lab)) == Next(s')
  {
    NoLabel(s.targets, 0, lab);
  }

  lemma {:induction false} NoLabel(targets: seq<Target>, block: nat, lab: Label)
    requires forall t :: t in targets ==> t.lab != lab
    ensures !HasLabel(targets, block, lab)
  {
    if targets != [] {
      NoLabel(targets[..|targets| - 1], block, lab);
    }
  }

  /** `::a:: local x ::b:: if c then goto a end`, as far as the `goto`. */
  lemma ToFirst(es: seq<Event>)
    ensures Perform(Start(0), [Place(FIRST)] + ([MoveTop(1)] + ([Place(SECOND)] + ([EmitOther(0)] + ([Enter] + ([GoTo(FIRST)] + es))))))
            == Perform(State([OtherOp(0), JumpOp(-2, None)], [Block(0, 0, false), Block(1, 2, false)], Labels(), [], 1), es)
  {
    var root := Block(0, 0, false);
    var s1, s2 := State([], [root], [Target(FIRST, 0, 0, 0)], [], 0), State([], [root], [Target(FIRST, 0, 0, 0)], [], 1);
    var s3, s4 := State([], [root], Labels(), [], 1), State([OtherOp(0)], [root], Labels(), [], 1);
    var s5 := State([OtherOp(0)], [root, Block(1, 2, false)], Labels(), [], 1);
    var e6 := [GoTo(FIRST)] + es;
    hide Perform, JumpTarget;
    PlaceFirst(Start(0), FIRST, s1);
    OneMore(Start(0), Place(FIRST), s1, [MoveTop(1)] + ([Place(SECOND)] + ([EmitOther(0)] + ([Enter] + e6))));
    OneMore(s1, MoveTop(1), s2, [Place(SECOND)] + ([EmitOther(0)] + ([Enter] + e6)));
    PlaceFirst(s2, SECOND, s3);
    OneMore(s2, Place(SECOND), s3, [EmitOther(0)] + ([Enter] + e6));
    OneMore(s3, EmitOther(0), s4, [Enter] + e6);
    OneMore(s4, Enter, s5, e6);
    JumpsFirst(s5, es);
  }

  lemma JumpsFirst(s: State, es: seq<Event>)
    requires s == State([OtherOp(0)], [Block(0, 0, false), Block(1, 2, false)], Labels(), [], 1)
    ensures Perform(s, [GoTo(FIRST)] + es) == Perform(s.(ops := [OtherOp(0), JumpOp(-2, None)]), es)
  {
    hide Perform;
    assert Labels()[..1] == [Target(FIRST, 0, 0, 0)] && FindTarget(Labels()[..1], FIRST) == Some(Target(FIRST, 0, 0, 0));
    assert FindTarget(Labels(), FIRST) == Some(Target(FIRST, 0, 0, 0));
    OneMore(s, GoTo(FIRST), s.(ops := [OtherOp(0), JumpOp(-2, None)]), es);
  }

  /** `f = function() return x end goto b`, behind that. */
  lemma ToSecond(es: seq<Event>)
    ensures var ops := [OtherOp(0), JumpOp(-2, None)];
            Perform(State(ops, [Block(0, 0, false), Block(1, 2, false)], Labels(), [], 1),
                    [Exit(1)] + ([EmitOther(1)] + ([Capture(0)] + ([GoTo(SECOND)] + es))))
            == Perform(State(ops + [OtherOp(1), JumpOp(-4, None)], [Block(0, 0, true)], Labels(), [], 1), es)
  {
    var ops, root := [OtherOp(0), JumpOp(-2, None)], Block(0, 0, false);
    var s := State(ops, [root, Block(1, 2, false)], Labels(), [], 1);
    var s1, s2 := State(ops, [root], Labels(), [], 1), State(ops + [OtherOp(1)], [root], Labels(), [], 1);
    var s3, s4 := State(ops + [OtherOp(1)], [Block(0, 0, true)], Labels(), [], 1), State(ops + [OtherOp(1), JumpOp(-4, None)], [Block(0, 0, true)], Labels(), [], 1);
    hide Perform;
    LeavesQuietly(s, s1);
    OneMore(s, Exit(1), s1, [EmitOther(1)] + ([Capture(0)] + ([GoTo(SECOND)] + es)));
    OneMore(s1, EmitOther(1), s2, [Capture(0)] + ([GoTo(SECOND)] + es));
    assert [root][0 := root.(ownsUpvalues := true)] == [Block(0, 0, true)];
    OneMore(s2, Capture(0), s3, [GoTo(SECOND)] + es);
    assert FindTarget(Labels(), SECOND) == Some(Target(SECOND, 0, 1, 0));
    OneMore(s3, GoTo(SECOND), s4, es);
  }

  lemma LeavesQuietly(s: State, s': State)
    requires |s.blocks| == 2 && s.blocks[1] == Block(1, 2, false) && |s.targets| == 2 && s.pending == [] && s.top == 1
    requires s' == s.(blocks := [s.blocks[0]])
    ensures Apply(s, Exit(1)) == Next(s')
  {
    assert s.blocks[..1] == [s.blocks[0]] && s.targets[..2] == s.targets;
    assert MapOutward([], 1, 1, false) == [];
  }

  /** `::a:: local x ::b:: if c then goto a end f = function() return x end goto b`: neither jump closes, as the variable is captured
      behind the first one in the text and does not go out of scope by the second. When the closure has been made and `c` comes true,
      the jump to `a`, behind which `x` is declared anew, leaves the cell of the old `x` open on the register of the new one. (The jump of the `if` itself is
      not among the events.) */
  lemma CapturedLate(u: U.State, base: nat)
    requires u.frames != []
    ensures var o := Perform(Start(0), TwoLabels());
            o.Next? && o.state.ops == [OtherOp(0), JumpOp(-2, None), OtherOp(1), JumpOp(-4, None)] && o.state.targets == Labels()
            && var w := U.Run(u, [U.Capture(base)] + Closings([o.state.ops[3]], base) + Closings([o.state.ops[1]], base));
               w.Next? && U.Open(base) in w.state.cells
  {
    hide Perform, U.Step, U.Run, TwoLabels, Labels;
    LateCode();
    LateRun(u, base);
  }

  function LateOps(): seq<Op> {
    [OtherOp(0), JumpOp(-2, None), OtherOp(1), JumpOp(-4, None)]
  }

  lemma LateEvents()
    ensures TwoLabels() == [Place(FIRST)] + ([MoveTop(1)] + ([Place(SECOND)] + ([EmitOther(0)] + ([Enter] + ([GoTo(FIRST)]
                           + ([Exit(1)] + ([EmitOther(1)] + ([Capture(0)] + ([GoTo(SECOND)] + [])))))))))
  {
  }

  lemma LateCode()
    ensures Perform(Start(0), TwoLabels()) == Next(State(LateOps(), [Block(0, 0, true)], Labels(), [], 1))
  {
    hide Perform, TwoLabels, Labels, Start;
    LateEvents();
    ToFirst([Exit(1)] + ([EmitOther(1)] + ([Capture(0)] + ([GoTo(SECOND)] + []))));
    ToSecond([]);
    assert [OtherOp(0), JumpOp(-2, None)] + [OtherOp(1), JumpOp(-4, None)] == LateOps();
    PerformNone(State(LateOps(), [Block(0, 0, true)], Labels(), [], 1));
  }

  lemma LateRun(u: U.State, base: nat)
    requires u.frames != []
    ensures var w := U.Run(u, [U.Capture(base)] + Closings([JumpOp(-4, None)], base) + Closings([JumpOp(-2, None)], base));
            w.Next? && U.Open(base) in w.state.cells
  {
    hide U.Run, U.Step;
    OneClosing(JumpOp(-2, None), base);
    OneClosing(JumpOp(-4, None), base);
    assert [U.Capture(base)] + [] + [] == [U.Capture(base)];
    OneHappens(u, U.Capture(base));
    CapturedOpen(u, base);
  }

  lemma CapturedOpen(u: U.State, slot: nat)
    requires u.frames != []
    ensures U.Open(slot) in U.Step(u, U.Capture(slot)).state.cells
  {
  }
}
