/** Every jump of a function that compiles is patched once and goes where it should. */
module JumpTheorems {
  import opened Values
  import opened Jumps
  import opened JumpHistory

  // Each event keeps the invariant.

  /** Records do not change when operations are added and blocks stay as they are. */
  lemma RecordsKept(h: History, ops: seq<Op>, ops': seq<Op>)
    requires RecordsOk(h, ops) && |ops| <= |ops'| && ops'[..|ops|] == ops
    ensures RecordsOk(h, ops')
  {
    forall i | 0 <= i < |h.records| ensures RecordOk(h.records[i], ops', h) {
      var r := h.records[i];
      assert RecordOk(r, ops, h);
      assert ops'[r.instruction] == ops'[..|ops|][r.instruction];
    }
  }

  lemma EmitInv(s: State, h: History, op: Op)
    requires Inv(s, h)
    ensures Inv(s.(ops := s.ops + [op]), h)
  {
    hide RecordsOk;
    RecordsKept(h, s.ops, s.ops + [op]);
  }

  lemma CaptureInv(s: State, h: History, b: nat)
    requires Inv(s, h) && b < |s.blocks|
    ensures Inv(s.(blocks := s.blocks[b := s.blocks[b].(ownsUpvalues := true)]), h)
  {
    hide RecordsOk, IdsOk;
  }

  lemma EnterRecord(r: Record, ops: seq<Op>, h: History, h': History, id: BlockId)
    requires RecordOk(r, ops, h) && h' == h.(ids := h.ids + [id], next := h'.next)
    ensures RecordOk(r, ops, h')
  {
    if r.status.Waiting? && r.status.p.blockIndex < |h.ids| {
      var n := r.status.p.blockIndex + 1;
      assert h'.ids[..n] == h.ids[..n];
    }
  }

  lemma EnterIds(h: History, h': History)
    requires IdsOk(h) && h' == h.(ids := h.ids + [h.next], next := h.next + 1)
    ensures IdsOk(h')
  {
  }

  lemma EnterTargets(s: State, h: History, h': History)
    requires TargetsOk(s) && PlacedOk(s, h) && h.ids <= h'.ids && h'.placed == h.placed
    ensures TargetsOk(EnterBlock(s)) && PlacedOk(EnterBlock(s), h')
  {
  }

  lemma EnterInv(s: State, h: History)
    requires Inv(s, h)
    ensures Inv(EnterBlock(s), Remember(s, h, Enter))
  {
    hide RecordOk, IdsOk, TargetsOk, PlacedOk, ByBlock;
    var h' := Remember(s, h, Enter);
    EnterIds(h, h');
    EnterTargets(s, h, h');
    forall i | 0 <= i < |h'.records| ensures RecordOk(h'.records[i], s.ops, h') {
      EnterRecord(h.records[i], s.ops, h, h', h.next);
    }
  }

  // Leaving a block.

  lemma ExitIds(s: State, h: History, top: nat)
    requires Inv(s, h) && |s.blocks| > 1
    ensures IdsOk(Remember(s, h, Exit(top)))
  {
    hide RecordsOk, TargetsOk;
  }

  lemma ExitTargets(s: State, n: nat, ops: seq<Op>, pending: seq<Pending>, top: nat)
    requires TargetsOk(s) && n + 1 == |s.blocks| && |s.ops| <= |ops|
    ensures s.blocks[n].bottomTarget <= |s.targets|
    ensures TargetsOk(State(ops, s.blocks[..n], s.targets[..s.blocks[n].bottomTarget], pending, top))
  {
    var k := s.blocks[n].bottomTarget;
    forall b | 0 <= b < n ensures s.blocks[b].bottomTarget <= k {
      if k < |s.targets| {
        assert s.targets[k].blockIndex >= n;
      }
    }
  }

  lemma ExitRecord(s: State, h: History, top: nat, r: Record)
    requires Inv(s, h) && |s.blocks| > 1 && RecordOk(r, s.ops, h)
    ensures var n := |s.blocks| - 1;
            RecordOk(RecordOutward(r, n, top, s.blocks[n].ownsUpvalues), s.ops, Remember(s, h, Exit(top)))
  {
    var n, h' := |s.blocks| - 1, Remember(s, h, Exit(top));
    var id, owned := h.ids[n], s.blocks[n].ownsUpvalues;
    if r.status.Waiting? {
      var p := r.status.p;
      if p.blockIndex >= n {
        ExitedWaiting(r, p, s.ops, h, h', n, top, owned);
      } else {
        StillWaiting(r, p, s.ops, h, h', n);
      }
    } else {
      hide Inv;
    }
  }

  lemma StillWaiting(r: Record, p: Pending, ops: seq<Op>, h: History, h': History, n: nat)
    requires WaitingOk(r, p, ops, h) && p.blockIndex < n < |h.ids| && h'.ids == h.ids[..n]
    requires forall x :: x in h.owned && x in h.exitTop ==>
               x in h'.owned && x in h'.exitTop && h'.owned[x] == h.owned[x] && h'.exitTop[x] == h.exitTop[x]
    ensures WaitingOk(r, p, ops, h')
  {
    var k := p.blockIndex + 1;
    assert h'.ids[..k] == h.ids[..k];
  }

  lemma LeftOneMore(r: Record, left: seq<BlockId>, close: bool, top: nat, id: BlockId, owned: bool, top': nat, h: History, h': History)
    requires LeftOk(r, left, close, top, h) && id !in left
    requires h'.owned == h.owned[id := owned] && h'.exitTop == h.exitTop[id := top']
    ensures LeftOk(r, [id] + left, close || owned, top', h')
  {
    var left' := [id] + left;
    if close {
      var x :| x in left && h.owned[x];
      assert x in left' && h'.owned[x];
    }
    if owned {
      assert id in left' && h'.owned[id];
    }
  }

  lemma ExitedWaiting(r: Record, p: Pending, ops: seq<Op>, h: History, h': History, n: nat, top: nat, owned: bool)
    requires WaitingOk(r, p, ops, h) && 0 < n == p.blockIndex && n + 1 == |h.ids|
    requires h'.ids == h.ids[..n] && h.ids[n] !in h.owned
    requires h'.owned == h.owned[h.ids[n] := owned] && h'.exitTop == h.exitTop[h.ids[n] := top]
    ensures WaitingOk(r, Outward(p, n, top, owned), ops, h')
  {
    var id, left := h.ids[n], r.path[n + 1..];
    assert id !in left;
    hide LeftOk;
    LeftOneMore(r, left, p.close, p.stackTop, id, owned, top, h, h');
    assert r.path[..n + 1][n] == h.ids[..n + 1][n];
    assert r.path[n..] == [id] + left;
    assert r.path[..n] == r.path[..n + 1][..n] && h.ids[..n] == h.ids[..n + 1][..n];
    assert h'.ids[..n] == h.ids[..n];
  }

  lemma ExitRecords(s: State, h: History, top: nat)
    requires Inv(s, h) && |s.blocks| > 1
    ensures RecordsOk(Remember(s, h, Exit(top)), s.ops)
  {
    hide IdsOk, TargetsOk, RecordOk;
    var h' := Remember(s, h, Exit(top));
    forall i | 0 <= i < |h'.records| ensures RecordOk(h'.records[i], s.ops, h') {
      ExitRecord(s, h, top, h.records[i]);
    }
  }

  lemma OutwardByBlock(ps: seq<Pending>, depth: nat, top: nat, owned: bool)
    requires ByBlock(ps) && depth > 0
    ensures ByBlock(MapOutward(ps, depth, top, owned))
  {
  }

  lemma ExitPlaced(s: State, h: History, s': State, h': History)
    requires TargetsOk(s) && PlacedOk(s, h) && |h.ids| == |s.blocks| > 1
    requires var n := |s.blocks| - 1;
             s.blocks[n].bottomTarget <= |s.targets| ==>
               s'.targets == s.targets[..s.blocks[n].bottomTarget] && h'.ids == h.ids[..n] && h'.placed == h.placed
    ensures PlacedOk(s', h')
  {
  }

  lemma ExitInv(s: State, h: History, top: nat)
    requires Inv(s, h) && |s.blocks| > 1 && ExitBlock(s, top).Next?
    ensures Inv(ExitBlock(s, top).state, Remember(s, h, Exit(top)))
  {
    var s', h' := ExitBlock(s, top).state, Remember(s, h, Exit(top));
    var n := |s.blocks| - 1;
    var owned := s.blocks[n].ownsUpvalues;
    hide RecordsOk, IdsOk, TargetsOk, PlacedOk, ByBlock;
    ExitPlaced(s, h, s', h');
    ExitIds(s, h, top);
    ExitTargets(s, n, s'.ops, s'.pending, top);
    WaitingOutward(h.records, n, top, owned);
    OutwardByBlock(s.pending, n, top, owned);
    ExitRecords(s, h, top);
    RecordsKept(h', s.ops, s'.ops);
  }

  // Jumps and labels.

  lemma GoToRecord(s: State, h: History, lab: Label)
    requires Inv(s, h) && JumpTo(s, lab).Next?
    ensures var s', h' := JumpTo(s, lab).state, Remember(s, h, GoTo(lab));
            RecordOk(h'.records[|h.records|], s'.ops, h')
  {
    hide RecordsOk, IdsOk;
    var found, here := FindTarget(s.targets, lab), |s.ops|;
    var r := Remember(s, h, GoTo(lab)).records[|h.records|];
    if found.None? {
      assert r.path[..|s.blocks|] == h.ids[..|s.blocks|] && r.path[|s.blocks|..] == [];
    } else {
      OffsetUndone(here, found.value.instruction);
    }
  }

  lemma GoToRecords(s: State, h: History, lab: Label)
    requires Inv(s, h) && JumpTo(s, lab).Next?
    ensures RecordsOk(Remember(s, h, GoTo(lab)), JumpTo(s, lab).state.ops)
  {
    GoToRecord(s, h, lab);
    hide TargetsOk, IdsOk, ByBlock, FindTarget, JumpOffset;
    var s', h' := JumpTo(s, lab).state, Remember(s, h, GoTo(lab));
    assert s'.ops[..|s.ops|] == s.ops;
    RecordsKept(h, s.ops, s'.ops);
    hide RecordOk;
    forall i | 0 <= i < |h.records| ensures RecordOk(h'.records[i], s'.ops, h') {
      SameHistory(h.records[i], s'.ops, h, h');
    }
    forall i | 0 <= i < |h.records| ensures h.records[i].instruction < |s.ops| {
      RecordInstruction(h.records[i], s.ops, h);
    }
  }

  lemma RecordInstruction(r: Record, ops: seq<Op>, h: History)
    requires RecordOk(r, ops, h)
    ensures r.instruction < |ops|
  {
  }

  lemma MoreOps(s: State, s': State)
    requires TargetsOk(s) && s'.targets == s.targets && s'.blocks == s.blocks && |s.ops| <= |s'.ops|
    ensures TargetsOk(s')
  {
  }

  lemma ByBlockAppend(ps: seq<Pending>, p: Pending)
    requires ByBlock(ps) && forall q :: q in ps ==> q.blockIndex <= p.blockIndex
    ensures ByBlock(ps + [p])
  {
    assert forall i :: 0 <= i < |ps| ==> ps[i] in ps;
  }

  lemma SameIds(h: History, h': History)
    requires IdsOk(h) && h' == h.(placed := h'.placed, records := h'.records)
    ensures IdsOk(h')
  {
  }

  lemma GoToInv(s: State, h: History, lab: Label)
    requires Inv(s, h) && JumpTo(s, lab).Next?
    ensures Inv(JumpTo(s, lab).state, Remember(s, h, GoTo(lab)))
  {
    hide RecordsOk, JumpOffset, FindTarget, TargetsOk, IdsOk, ByBlock;
    var s', h' := JumpTo(s, lab).state, Remember(s, h, GoTo(lab));
    GoToRecords(s, h, lab);
    WaitingAppend(h.records, h'.records[|h.records|]);
    PendingBlocks(s, h);
    MoreOps(s, s');
    SameIds(h, h');
    if FindTarget(s.targets, lab).None? {
      ByBlockAppend(s.pending, Pending(lab, |s.ops|, |s.blocks| - 1, s.top, false));
    } else {
      assert s'.pending == s.pending;
    }
  }

  lemma SameHistory(r: Record, ops: seq<Op>, h: History, h': History)
    requires RecordOk(r, ops, h) && h' == h.(placed := h'.placed, records := h'.records)
    ensures RecordOk(r, ops, h')
  {
  }

  lemma PendingBlocks(s: State, h: History)
    requires Inv(s, h)
    ensures forall p :: p in s.pending ==> p.blockIndex < |s.blocks|
  {
    forall p | p in s.pending ensures p.blockIndex < |s.blocks| {
      var i := PendingIsWaiting(h.records, p);
      assert RecordOk(h.records[i], s.ops, h);
    }
  }

  lemma PlaceWaiting(r: Record, s: State, h: History, b: nat, lab: Label, ops: seq<Op>)
    requires r.status.Waiting? && WaitingOk(r, r.status.p, s.ops, h) && Resolves(r.status.p, b, lab) && b < |h.ids|
    requires |ops| == |s.ops| && r.status.p.stackTop == s.top && JumpOffset(r.instruction, |s.ops|).Some?
    requires ops[r.instruction] == JumpOp(JumpOffset(r.instruction, |s.ops|).value, if r.status.p.close then Some(s.top) else None)
    ensures RecordOk(RecordResolve(r, b, Target(lab, |s.ops|, s.top, b), h.ids[b]), ops, h)
  {
    OffsetUndone(r.instruction, |s.ops|);
    assert r.path[..b + 1][b] == h.ids[..b + 1][b];
  }

  lemma PlaceOther(r: Record, s: State, h: History, b: nat, lab: Label, ops: seq<Op>)
    requires RecordOk(r, s.ops, h) && !(r.status.Waiting? && Resolves(r.status.p, b, lab)) && b < |h.ids|
    requires |ops| == |s.ops| && ops[r.instruction] == s.ops[r.instruction]
    ensures RecordOk(RecordResolve(r, b, Target(lab, |s.ops|, s.top, b), h.ids[b]), ops, h)
  {
  }

  /** Another record's instruction is not among the resolved ones. */
  lemma NotResolved(s: State, h: History, b: nat, lab: Label, i: nat)
    requires RecordsOk(h, s.ops) && s.pending == WaitingOf(h.records) && i < |h.records|
    requires !(h.records[i].status.Waiting? && Resolves(h.records[i].status.p, b, lab))
    requires forall q :: q in Resolving(s.pending, b, lab) <==> q in s.pending && Resolves(q, b, lab)
    ensures forall p :: p in Resolving(s.pending, b, lab) ==> p.instruction != h.records[i].instruction
  {
    forall p | p in Resolving(s.pending, b, lab) ensures p.instruction != h.records[i].instruction {
      var k := PendingIsWaiting(h.records, p);
      assert RecordOk(h.records[k], s.ops, h);
      assert k != i;
    }
  }

  lemma PlaceRecord(s: State, h: History, lab: Label, ops: seq<Op>, i: nat)
    requires Inv(s, h) && PatchAll(s.ops, Resolving(s.pending, |s.blocks| - 1, lab), |s.ops|, s.top) == Ok(ops)
    requires i < |h.records|
    ensures var b := |s.blocks| - 1;
            RecordOk(RecordResolve(h.records[i], b, Target(lab, |s.ops|, s.top, b), h.ids[b]), ops, h)
  {
    var b, r := |s.blocks| - 1, h.records[i];
    assert RecordOk(r, s.ops, h);
    assert RecordsOk(h, s.ops) && s.pending == WaitingOf(h.records);
    RecordInstruction(r, s.ops, h);
    hide Inv, PatchAll, TargetsOk, IdsOk, Resolving, WaitingOf;
    PendingIncrease(h.records, s.ops, h);
    ResolvingPlaceholders(s.ops, s.pending, b, lab);
    PatchEffect(s.ops, Resolving(s.pending, b, lab), |s.ops|, s.top);
    hide RecordsOk;
    if r.status.Waiting? && Resolves(r.status.p, b, lab) {
      WaitingIsPending(h.records, i);
      assert r.status.p in Resolving(s.pending, b, lab);
      PlaceWaiting(r, s, h, b, lab, ops);
    } else {
      hide RecordOk;
      NotResolved(s, h, b, lab, i);
      PlaceOther(r, s, h, b, lab, ops);
    }
  }

  lemma {:induction false} RemainingOrdered(ps: seq<Pending>, block: nat, lab: Label)
    requires ByBlock(ps)
    ensures ByBlock(Remaining(ps, block, lab))
    ensures forall p :: p in Remaining(ps, block, lab) ==> p in ps
  {
    if ps != [] {
      RemainingOrdered(ps[1..], block, lab);
      assert ps == [ps[0]] + ps[1..];
      var tail := Remaining(ps[1..], block, lab);
      forall i | 0 <= i < |tail| ensures ps[0].blockIndex <= tail[i].blockIndex {
        assert tail[i] in ps[1..];
      }
    }
  }

  lemma PlaceTargets(s: State, s': State, t: Target)
    requires TargetsOk(s) && s.blocks != [] && s'.targets == s.targets + [t] && s'.blocks == s.blocks
    requires |s.ops| == |s'.ops| && t.blockIndex == |s.blocks| - 1 && t.instruction == |s.ops|
    ensures TargetsOk(s')
  {
  }

  lemma PlacePlaced(s: State, h: History, t: Target, id: BlockId, s': State, h': History, lab: Label)
    requires PlacedOk(s, h) && h'.ids == h.ids && t.blockIndex < |h.ids| && id == h.ids[t.blockIndex] && h'.placed == h.placed[t := id]
    requires s'.targets == s.targets + [t]
    ensures PlacedOk(s', h')
  {
  }

  lemma PlaceRecords(s: State, h: History, lab: Label, ops: seq<Op>)
    requires Inv(s, h) && PatchAll(s.ops, Resolving(s.pending, |s.blocks| - 1, lab), |s.ops|, s.top) == Ok(ops)
    ensures RecordsOk(Remember(s, h, Place(lab)), ops) && |ops| == |s.ops|
  {
    hide RecordOk, PatchAll, TargetsOk, IdsOk, ByBlock;
    var h' := Remember(s, h, Place(lab));
    forall i | 0 <= i < |h'.records| ensures RecordOk(h'.records[i], ops, h') {
      PlaceRecord(s, h, lab, ops, i);
      SameHistory(h'.records[i], ops, h, h');
    }
    PendingIncrease(h.records, s.ops, h);
    ResolvingPlaceholders(s.ops, s.pending, |s.blocks| - 1, lab);
    PatchEffect(s.ops, Resolving(s.pending, |s.blocks| - 1, lab), |s.ops|, s.top);
  }

  lemma PlaceInv(s: State, h: History, lab: Label)
    requires Inv(s, h) && JumpTarget(s, lab).Next?
    ensures Inv(JumpTarget(s, lab).state, Remember(s, h, Place(lab)))
  {
    hide RecordsOk, IdsOk, TargetsOk, PlacedOk, ByBlock, HasLabel, PatchAll;
    var s', h' := JumpTarget(s, lab).state, Remember(s, h, Place(lab));
    var b := |s.blocks| - 1;
    var t := Target(lab, |s.ops|, s.top, b);
    WaitingResolve(h.records, b, t, h.ids[b]);
    PlacePlaced(s, h, t, h.ids[b], s', h', lab);
    RemainingOrdered(s.pending, b, lab);
    PlaceRecords(s, h, lab, s'.ops);
    PlaceTargets(s, s', t);
    SameIds(h, h');
  }

  /** Every accepted event keeps the invariant. */
  lemma EventInv(s: State, h: History, e: Event)
    requires Inv(s, h) && Apply(s, e).Next?
    ensures Inv(Apply(s, e).state, Remember(s, h, e))
  {
    hide Inv, JumpTo, JumpTarget, ExitBlock;
    match e {
      case EmitOther(id) => EmitInv(s, h, OtherOp(id));
      case MoveTop(top) => MoveInv(s, h, top);
      case Capture(b) => CaptureInv(s, h, b);
      case Enter => EnterInv(s, h);
      case Exit(top) => ExitInv(s, h, top);
      case GoTo(lab) => GoToInv(s, h, lab);
      case Place(lab) => PlaceInv(s, h, lab);
    }
  }

  lemma MoveInv(s: State, h: History, top: nat)
    requires Inv(s, h)
    ensures Inv(s.(top := top), h)
  {
    hide RecordsOk, IdsOk;
  }

  /** The only assertions that can fail compare stack tops: no placeholder is patched twice, and labels and
      pending jumps are never in blocks further in than the current one. */
  lemma OnlyStackOrderPanics(s: State, h: History, e: Event)
    requires Inv(s, h) && (e.Exit? ==> |s.blocks| > 1) && (e.Capture? ==> e.block < |s.blocks|)
    ensures Apply(s, e).Panics? ==> Apply(s, e).panic == StackOrder
  {
    match e {
      case GoTo(lab) => hide RecordsOk, IdsOk;
      case Place(lab) =>
        hide RecordOk, IdsOk, TargetsOk;
        PendingBlocks(s, h);
        PendingIncrease(h.records, s.ops, h);
        ResolvingPlaceholders(s.ops, s.pending, |s.blocks| - 1, lab);
        PatchEffect(s.ops, Resolving(s.pending, |s.blocks| - 1, lab), |s.ops|, s.top);
        PatchPanics(s.ops, Resolving(s.pending, |s.blocks| - 1, lab), |s.ops|, s.top);
      case _ =>
    }
  }

  lemma {:induction false} PatchPanics(ops: seq<Op>, ps: seq<Pending>, target: nat, top: nat)
    ensures var r := PatchAll(ops, ps, target, top);
            r.Broken? ==> r.panic == StackOrder || r.panic == NotPlaceholder
    decreases |ps|
  {
    if ps != [] && ps[0].stackTop == top && ps[0].instruction < |ops| && JumpOffset(ps[0].instruction, target).Some? {
      var p := ps[0];
      PatchPanics(ops[p.instruction := JumpOp(JumpOffset(p.instruction, target).value, if p.close then Some(top) else None)],
                  ps[1..], target, top);
    }
  }

  // Whole functions.

  /** The state of a function whose outermost block has just been entered. */
  function Start(top: nat): State {
    State([], [Block(top, 0, false)], [], [], top)
  }

  function StartHistory(): History {
    History([0], 1, map[], map[], map[], [])
  }

  function Run(s: State, h: History, es: seq<Event>): Option<(State, History)>
    requires |h.ids| == |s.blocks| > 0
    decreases |es|
  {
    if es == [] then Some((s, h))
    else match Apply(s, es[0])
      case Next(s') =>
        var h' := Remember(s, h, es[0]);
        if |h'.ids| == |s'.blocks| > 0 then Run(s', h', es[1..]) else None
      case _ => None
  }

  function Jumped(es: seq<Event>): seq<Label> {
    if es == [] then [] else (if es[0].GoTo? then [es[0].lab] else []) + Jumped(es[1..])
  }

  function Labels(rs: seq<Record>): (r: seq<Label>)
    ensures |r| == |rs| && forall i :: 0 <= i < |rs| ==> r[i] == rs[i].lab
  {
    seq(|rs|, i requires 0 <= i < |rs| => rs[i].lab)
  }

  lemma RememberLabels(s: State, h: History, e: Event)
    requires |h.ids| == |s.blocks| > 0
    ensures Labels(Remember(s, h, e).records) == Labels(h.records) + if e.GoTo? then [e.lab] else []
  {
    assert |h.ids| > 0;
  }

  lemma {:induction false} RunInv(s: State, h: History, es: seq<Event>)
    requires Inv(s, h) && Run(s, h, es).Some?
    ensures var (s', h') := Run(s, h, es).value;
            Inv(s', h') && Labels(h'.records) == Labels(h.records) + Jumped(es)
    decreases |es|
  {
    hide RecordsOk, IdsOk, TargetsOk, ByBlock, Apply, Remember, Labels;
    if es != [] {
      var s', h' := Apply(s, es[0]).state, Remember(s, h, es[0]);
      EventInv(s, h, es[0]);
      RememberLabels(s, h, es[0]);
      RunInv(s', h', es[1..]);
    }
  }

  /** The end of a function: the outermost block is left, and the final return is emitted. */
  function Close(s: State, top: nat, ret: nat): Outcome {
    match ExitBlock(s, top)
    case Next(s') => Finish(s', ret)
    case o => o
  }

  /** A function that compiles: each of its jumps has been patched, exactly once and to a label of its name
      in a block around it, and leads to an operation of the function. */
  lemma FinishedJumps(top: nat, es: seq<Event>, last: nat, ret: nat)
    requires var r := Run(Start(top), StartHistory(), es);
             r.Some? && |r.value.0.blocks| == 1 && Close(r.value.0, last, ret).Next?
    ensures var (s, h) := Run(Start(top), StartHistory(), es).value;
            var ops := Close(s, last, ret).state.ops;
            && Labels(h.records) == Jumped(es)
            && (forall i, j :: 0 <= i < j < |h.records| ==> h.records[i].instruction < h.records[j].instruction)
            && forall i :: 0 <= i < |h.records| ==>
                 var r := h.records[i];
                 r.status.Resolved? && r.status.target.instruction < |ops|
                 && ResolvedOk(r, r.status.target, r.status.block, r.status.left, r.status.forward, ops, h)
  {
    hide Run, IdsOk, TargetsOk, PlacedOk, ByBlock, ResolvedOk;
    StartInv(top);
    RunInv(Start(top), StartHistory(), es);
    var (s, h) := Run(Start(top), StartHistory(), es).value;
    var ops := Close(s, last, ret).state.ops;
    assert Labels(StartHistory().records) + Jumped(es) == Jumped(es);
    assert s.pending == [] && |ops| > |s.ops| && ops[..|s.ops|] == s.ops;
    ClosedRecords(s, h, ops);
  }

  /** The end is accepted exactly if every jump has found its label, and refused for nothing else. */
  lemma FinishExactly(top: nat, es: seq<Event>, last: nat, ret: nat)
    requires var r := Run(Start(top), StartHistory(), es); r.Some? && |r.value.0.blocks| == 1
    ensures var (s, h) := Run(Start(top), StartHistory(), es).value;
            var all := forall i :: 0 <= i < |h.records| ==> h.records[i].status.Resolved?;
            match Close(s, last, ret)
            case Next(s') => all && s'.ops == s.ops + [OtherOp(ret)]
            case Fails(error) => !all && error == GotoInvalid
            case Panics(_) => false
  {
    StartInv(top);
    RunInv(Start(top), StartHistory(), es);
    hide Run, Close, IdsOk, TargetsOk, PlacedOk, ByBlock, RecordsOk;
    var (s, h) := Run(Start(top), StartHistory(), es).value;
    NoneWaits(h.records);
    CloseExactly(s, last, ret);
  }

  lemma NoneWaits(rs: seq<Record>)
    ensures WaitingOf(rs) == [] <==> forall i :: 0 <= i < |rs| ==> rs[i].status.Resolved?
  {
    forall i | 0 <= i < |rs| && rs[i].status.Waiting? ensures WaitingOf(rs) != [] {
      WaitingIsPending(rs, i);
    }
    if WaitingOf(rs) != [] {
      var i := PendingIsWaiting(rs, WaitingOf(rs)[0]);
    }
  }

  lemma CloseExactly(s: State, last: nat, ret: nat)
    requires |s.blocks| == 1
    ensures Close(s, last, ret) == if s.pending != [] then Fails(GotoInvalid) else Close(s, last, ret)
    ensures s.pending == [] ==> Close(s, last, ret).Next? && Close(s, last, ret).state.ops == s.ops + [OtherOp(ret)]
  {
  }

  lemma ClosedRecords(s: State, h: History, ops: seq<Op>)
    requires RecordsOk(h, s.ops) && WaitingOf(h.records) == [] && |ops| > |s.ops| && ops[..|s.ops|] == s.ops
    ensures RecordsOk(h, ops)
    ensures forall i :: 0 <= i < |h.records| ==>
              var r := h.records[i];
              r.status.Resolved? && r.status.target.instruction < |ops|
              && ResolvedOk(r, r.status.target, r.status.block, r.status.left, r.status.forward, ops, h)
  {
    hide LeftOk;
    RecordsKept(h, s.ops, ops);
    forall i | 0 <= i < |h.records| ensures h.records[i].status.Resolved? && h.records[i].status.target.instruction < |ops| {
      assert RecordOk(h.records[i], s.ops, h);
      if h.records[i].status.Waiting? {
        WaitingIsPending(h.records, i);
      }
    }
  }

  lemma StartInv(top: nat)
    ensures Inv(Start(top), StartHistory())
  {
  }
}
