/** Runs of events, and what one event does to a state in which the register stacks of blocks lie above each
    other. */
module JumpSteps {
  import opened Values
  import opened Jumps
  import opened JumpHistory
  import opened JumpTheorems

  // When placing a label fails.

  /** The jump can be patched: it has the label's stack top, reaches it, and can close upvalues there. */
  predicate Patchable(p: Pending, target: nat, top: nat) {
    p.stackTop == top && JumpOffset(p.instruction, target).Some? && (p.close ==> CloseAt(top).Some?)
  }

  /** The first jump that cannot be patched. */
  ghost predicate Stops(ps: seq<Pending>, target: nat, top: nat, i: nat) {
    i < |ps| && !Patchable(ps[i], target, top) && forall j :: 0 <= j < i ==> Patchable(ps[j], target, top)
  }

  ghost predicate AllPatchable(ps: seq<Pending>, target: nat, top: nat) {
    forall i :: 0 <= i < |ps| ==> Patchable(ps[i], target, top)
  }

  lemma {:induction false} PatchStops(ops: seq<Op>, ps: seq<Pending>, target: nat, top: nat)
    requires Placeholders(ops, ps)
    ensures PatchAll(ops, ps, target, top).Ok? <==> AllPatchable(ps, target, top)
    ensures PatchAll(ops, ps, target, top).Broken? <==> exists i: nat :: Stops(ps, target, top, i) && ps[i].stackTop > top
    decreases |ps|
  {
    if ps != [] {
      var p := ps[0];
      if Patchable(p, target, top) {
        var ops' := ops[p.instruction := JumpOp(JumpOffset(p.instruction, target).value, if p.close then Some(top) else None)];
        PatchStops(ops', ps[1..], target, top);
        StopsLater(ps, target, top);
      } else {
        assert Stops(ps, target, top, 0);
        forall i: nat | Stops(ps, target, top, i) ensures i == 0 {
        }
      }
    }
  }

  lemma StopsLater(ps: seq<Pending>, target: nat, top: nat)
    requires ps != [] && Patchable(ps[0], target, top)
    ensures AllPatchable(ps, target, top) <==> AllPatchable(ps[1..], target, top)
    ensures (exists i: nat :: Stops(ps, target, top, i) && ps[i].stackTop > top)
            <==> exists i: nat :: Stops(ps[1..], target, top, i) && ps[1..][i].stackTop > top
  {
    if i: nat :| Stops(ps, target, top, i) && ps[i].stackTop > top {
      assert ps[1..][i - 1] == ps[i];
      assert Stops(ps[1..], target, top, i - 1);
    }
    if i: nat :| Stops(ps[1..], target, top, i) && ps[1..][i].stackTop > top {
      assert forall j :: 0 < j <= i ==> ps[j] == ps[1..][j - 1];
      assert Stops(ps, target, top, i + 1);
    }
    if AllPatchable(ps[1..], target, top) {
      forall i | 0 <= i < |ps| ensures Patchable(ps[i], target, top) {
        assert i > 0 ==> ps[i] == ps[1..][i - 1];
      }
    }
  }

  /** The pending jumps that a label in the current block resolves. */
  function WaitingFor(s: State, lab: Label): seq<Pending>
    requires s.blocks != []
  {
    Resolving(s.pending, |s.blocks| - 1, lab)
  }

  /** The first jump that cannot be patched has a stack top above that of the label. */
  ghost predicate MeetsTooHigh(s: State, lab: Label)
    requires s.blocks != []
  {
    !HasLabel(s.targets, |s.blocks| - 1, lab)
    && exists i: nat :: Stops(WaitingFor(s, lab), |s.ops|, s.top, i) && WaitingFor(s, lab)[i].stackTop > s.top
  }

  /** When placing a label is an assertion failure, and when it works. */
  lemma PlaceOutcome(s: State, h: History, lab: Label)
    requires Inv(s, h)
    ensures JumpTarget(s, lab).Panics? <==> MeetsTooHigh(s, lab)
    ensures JumpTarget(s, lab).Next? <==> !HasLabel(s.targets, |s.blocks| - 1, lab) && AllPatchable(WaitingFor(s, lab), |s.ops|, s.top)
  {
    PendingBlocks(s, h);
    PendingIncrease(h.records, s.ops, h);
    ResolvingPlaceholders(s.ops, s.pending, |s.blocks| - 1, lab);
    hide Inv, Placeholders, PatchAll, Resolving, HasLabel;
    PatchStops(s.ops, WaitingFor(s, lab), |s.ops|, s.top);
  }

  // Runs.

  function Perform(s: State, es: seq<Event>): Outcome
    decreases |es|
  {
    if es == [] then Next(s)
    else match Apply(s, es[0])
      case Next(s') => Perform(s', es[1..])
      case o => o
  }

  function AndThen(o: Outcome, es: seq<Event>): Outcome {
    if o.Next? then Perform(o.state, es) else o
  }

  lemma {:induction false} PerformAppend(s: State, a: seq<Event>, b: seq<Event>)
    ensures Perform(s, a + b) == AndThen(Perform(s, a), b)
    decreases |a|
  {
    if a == [] {
      assert a + b == b;
    } else {
      assert (a + b)[1..] == a[1..] + b;
      match Apply(s, a[0]) {
        case Next(s') => PerformAppend(s', a[1..], b);
        case _ =>
      }
    }
  }

  lemma PerformNone(s: State)
    ensures Perform(s, []) == Next(s)
  {
  }

  lemma PerformOne(s: State, e: Event)
    ensures Perform(s, [e]) == Apply(s, e)
  {
    assert [e][1..] == [];
  }

  lemma PerformMore(s: State, e: Event, es: seq<Event>)
    ensures Perform(s, [e] + es) == AndThen(Apply(s, e), es)
  {
    assert ([e] + es)[1..] == es;
  }

  // Steady states.

  ghost predicate Reached(s: State) {
    exists h :: Inv(s, h)
  }

  /** A jump that waits is not below its block, and its own label is not a new one. */
  predicate PendingOk(s: State, p: Pending, k: nat) {
    p.blockIndex < |s.blocks| && s.blocks[p.blockIndex].stackBottom <= p.stackTop && (p.lab.Unique? ==> p.lab.id < k)
  }

  /** Where the variables of a block end: at the bottom of the next one. */
  function Ceiling(s: State, b: nat, level: nat): nat
    requires b < |s.blocks|
  {
    if b + 1 < |s.blocks| then s.blocks[b + 1].stackBottom else level
  }

  predicate TargetOk(s: State, t: Target, level: nat, k: nat) {
    t.blockIndex < |s.blocks| && if t.lab.Unique? then t.lab.id < k else t.stackTop <= Ceiling(s, t.blockIndex, level)
  }

  ghost predicate Stacked(s: State, level: nat) {
    && s.blocks != []
    && (forall a, b :: 0 <= a <= b < |s.blocks| ==> s.blocks[a].stackBottom <= s.blocks[b].stackBottom)
    && s.blocks[|s.blocks| - 1].stackBottom <= level <= s.top
  }

  /** `level` is where the variables in scope end, `k` the first unused label. */
  ghost predicate Steady(s: State, level: nat, k: nat) {
    && Reached(s) && Stacked(s, level)
    && (forall p :: p in s.pending ==> PendingOk(s, p, k))
    && forall t :: t in s.targets ==> TargetOk(s, t, level, k)
  }

  lemma StillReached(s: State, e: Event)
    requires Reached(s) && Apply(s, e).Next?
    ensures Reached(Apply(s, e).state)
  {
    hide Inv, Apply, Remember;
    var h :| Inv(s, h);
    EventInv(s, h, e);
  }

  /** Two states with the same blocks, but for upvalues. */
  ghost predicate SameBlocks(s: State, s': State) {
    |s'.blocks| == |s.blocks|
    && forall b :: 0 <= b < |s.blocks| ==>
         s'.blocks[b].stackBottom == s.blocks[b].stackBottom && s'.blocks[b].bottomTarget == s.blocks[b].bottomTarget
  }

  lemma StillSteady(s: State, s': State, level: nat, k: nat)
    requires Stacked(s, level) && Reached(s') && SameBlocks(s, s') && level <= s'.top
    requires forall p :: p in s'.pending ==> PendingOk(s, p, k)
    requires forall t :: t in s'.targets ==> TargetOk(s, t, level, k)
    ensures Steady(s', level, k)
  {
    hide Reached;
  }

  /** Registers, emitted operations and captured variables. */
  lemma PlainStep(s: State, e: Event, level: nat, k: nat)
    requires Steady(s, level, k)
    requires e.EmitOther? || (e.MoveTop? && level <= e.top) || (e.Capture? && e.block < |s.blocks|)
    ensures Apply(s, e).Next?
    ensures var s' := Apply(s, e).state;
            Steady(s', level, k) && SameBlocks(s, s') && s'.targets == s.targets && s'.pending == s.pending
            && |s.ops| <= |s'.ops| && s'.top == if e.MoveTop? then e.top else s.top
  {
    hide Reached, Stacked, TargetOk, PendingOk;
    StillReached(s, e);
    StackedTop(s, level);
    StillSteady(s, Apply(s, e).state, level, k);
  }

  lemma StackedTop(s: State, level: nat)
    requires Stacked(s, level)
    ensures s.blocks != [] && level <= s.top
  {
  }

  /** The variables in scope have grown. */
  lemma Higher(s: State, level: nat, level': nat, k: nat, k': nat)
    requires Steady(s, level, k) && level <= level' <= s.top && k <= k'
    ensures Steady(s, level', k')
  {
    hide Inv;
    forall t | t in s.targets ensures TargetOk(s, t, level', k') {
      assert TargetOk(s, t, level, k);
    }
    forall p | p in s.pending ensures PendingOk(s, p, k') {
      assert PendingOk(s, p, k);
    }
  }

  lemma EnterStep(s: State, level: nat, k: nat)
    requires Steady(s, level, k) && s.top == level
    ensures Apply(s, Enter).Next?
    ensures var s' := Apply(s, Enter).state;
            Steady(s', level, k) && s'.blocks == s.blocks + [Block(level, |s.targets|, false)] && s'.top == s.top
            && s'.targets == s.targets && s'.pending == s.pending && s'.ops == s.ops
  {
    StillReached(s, Enter);
    hide Inv;
    var s' := Apply(s, Enter).state;
    forall t | t in s'.targets ensures TargetOk(s', t, level, k) {
      assert TargetOk(s, t, level, k);
    }
    forall p | p in s'.pending ensures PendingOk(s', p, k) {
      assert PendingOk(s, p, k);
    }
  }

  /** A jump to a label that is still to come. */
  lemma AheadStep(s: State, lab: Label, level: nat, k: nat)
    requires Steady(s, level, k) && FindTarget(s.targets, lab).None? && (lab.Unique? ==> lab.id < k)
    ensures Apply(s, GoTo(lab)).Next?
    ensures var s' := Apply(s, GoTo(lab)).state;
            Steady(s', level, k) && s'.blocks == s.blocks && s'.top == s.top && s'.targets == s.targets
            && s'.pending == s.pending + [Pending(lab, |s.ops|, |s.blocks| - 1, s.top, false)] && |s'.ops| == |s.ops| + 1
  {
    StillReached(s, GoTo(lab));
    hide Reached, FindTarget, TargetOk;
    StillSteady(s, Apply(s, GoTo(lab)).state, level, k);
  }

  /** A jump back. */
  lemma BackStep(s: State, lab: Label, level: nat, k: nat)
    requires Steady(s, level, k) && FindTarget(s.targets, lab).Some? && FindTarget(s.targets, lab).value.stackTop <= s.top
    ensures !Apply(s, GoTo(lab)).Panics?
    ensures Apply(s, GoTo(lab)).Next? ==>
              var s' := Apply(s, GoTo(lab)).state;
              Steady(s', level, k) && s'.blocks == s.blocks && s'.top == s.top && s'.targets == s.targets && s'.pending == s.pending
              && |s'.ops| == |s.ops| + 1
  {
    assert TargetOk(s, FindTarget(s.targets, lab).value, level, k);
    if Apply(s, GoTo(lab)).Next? {
      StillReached(s, GoTo(lab));
      hide Reached, JumpOffset, CloseAt, FindTarget, TargetOk, PendingOk;
      StillSteady(s, Apply(s, GoTo(lab)).state, level, k);
    }
  }

  /** A label of the program, with the register stack at the variables' end: a label before it is not above. */
  lemma NamedStep(s: State, lab: Label, level: nat, k: nat)
    requires Steady(s, level, k) && s.top == level && !lab.Unique?
    ensures !Apply(s, GoTo(lab)).Panics?
    ensures Apply(s, GoTo(lab)).Next? ==>
              var s' := Apply(s, GoTo(lab)).state;
              Steady(s', level, k) && s'.blocks == s.blocks && s'.top == s.top && s'.targets == s.targets
              && (s'.pending == s.pending || s'.pending == s.pending + [Pending(lab, |s.ops|, |s.blocks| - 1, level, false)])
              && |s'.ops| == |s.ops| + 1
  {
    if FindTarget(s.targets, lab).Some? {
      var t := FindTarget(s.targets, lab).value;
      assert TargetOk(s, t, level, k);
      BackStep(s, lab, level, k);
    } else {
      AheadStep(s, lab, level, k);
    }
  }

  lemma {:induction false} ResolvingHas(ps: seq<Pending>, block: nat, lab: Label)
    ensures forall p :: p in Resolving(ps, block, lab) <==> p in ps && Resolves(p, block, lab)
    ensures forall p :: p in Remaining(ps, block, lab) <==> p in ps && !Resolves(p, block, lab)
  {
    if ps != [] {
      ResolvingHas(ps[1..], block, lab);
    }
  }

  /** What a label that can be placed leaves. */
  ghost predicate PlacedAt(s: State, s': State, lab: Label)
    requires s.blocks != []
  {
    && s'.blocks == s.blocks && s'.top == s.top && s'.targets == s.targets + [Target(lab, |s.ops|, s.top, |s.blocks| - 1)]
    && |s'.ops| == |s.ops|
    && forall p :: p in s'.pending <==> p in s.pending && !Resolves(p, |s.blocks| - 1, lab)
  }

  /** A label, of the program at the end of the variables, or of a statement's own anywhere. */
  lemma PlaceStep(s: State, lab: Label, level: nat, k: nat)
    requires Steady(s, level, k) && (if lab.Unique? then lab.id < k else s.top == level)
    ensures Apply(s, Place(lab)).Panics? <==> MeetsTooHigh(s, lab)
    ensures Apply(s, Place(lab)).Next? ==> Steady(Apply(s, Place(lab)).state, level, k) && PlacedAt(s, Apply(s, Place(lab)).state, lab)
  {
    var h :| Inv(s, h);
    PlaceOutcome(s, h, lab);
    if Apply(s, Place(lab)).Next? {
      StillReached(s, Place(lab));
      PlacedSteady(s, Apply(s, Place(lab)).state, lab, level, k);
    }
  }

  lemma PlacedSteady(s: State, s': State, lab: Label, level: nat, k: nat)
    requires Steady(s, level, k) && (if lab.Unique? then lab.id < k else s.top == level) && Reached(s')
    requires JumpTarget(s, lab) == Next(s')
    ensures Steady(s', level, k) && PlacedAt(s, s', lab)
  {
    hide Reached, PatchAll, Resolving, Remaining, HasLabel;
    ResolvingHas(s.pending, |s.blocks| - 1, lab);
    PatchLength(s.ops, WaitingFor(s, lab), |s.ops|, s.top);
    forall t | t in s'.targets ensures TargetOk(s, t, level, k) {
    }
    StillSteady(s, s', level, k);
  }

  lemma {:induction false} PatchLength(ops: seq<Op>, ps: seq<Pending>, target: nat, top: nat)
    ensures var r := PatchAll(ops, ps, target, top);
            r.Ok? ==> |r.ops| == |ops|
    decreases |ps|
  {
    if ps != [] && ps[0].instruction < |ops| && JumpOffset(ps[0].instruction, target).Some? {
      var p := ps[0];
      PatchLength(ops[p.instruction := JumpOp(JumpOffset(p.instruction, target).value, if p.close then Some(top) else None)],
                  ps[1..], target, top);
    }
  }

  /** Nothing that waits for the label is too high. */
  lemma PlaceSafe(s: State, lab: Label, level: nat, k: nat)
    requires Steady(s, level, k) && (if lab.Unique? then lab.id < k else s.top == level)
    requires forall p :: p in s.pending && Resolves(p, |s.blocks| - 1, lab) ==> p.stackTop <= s.top
    ensures !Apply(s, Place(lab)).Panics?
    ensures Apply(s, Place(lab)).Next? ==> Steady(Apply(s, Place(lab)).state, level, k) && PlacedAt(s, Apply(s, Place(lab)).state, lab)
  {
    PlaceStep(s, lab, level, k);
    ResolvingHas(s.pending, |s.blocks| - 1, lab);
    hide Steady, Apply, Resolving;
    var ps := WaitingFor(s, lab);
    forall i | 0 <= i < |ps| ensures ps[i].stackTop <= s.top {
      assert ps[i] in ps;
    }
  }

  /** Where a jump is behind the end of a block. */
  predicate MovedOut(p: Pending, p': Pending, n: nat, top: nat) {
    p'.lab == p.lab && p'.instruction == p.instruction
    && if p.blockIndex < n then p' == p else p'.blockIndex == n - 1 && p'.stackTop == top
  }

  /** The end of a block whose labels and registers go. */
  lemma ExitStep(s: State, level: nat, k: nat)
    requires Steady(s, level, k) && |s.blocks| > 1
    ensures var n := |s.blocks| - 1;
            var top := s.blocks[n].stackBottom;
            && !Apply(s, Exit(top)).Panics?
            && (Apply(s, Exit(top)).Next? ==>
                  var s' := Apply(s, Exit(top)).state;
                  && Steady(s', top, k) && s'.blocks == s.blocks[..n] && s'.top == top && |s.ops| <= |s'.ops|
                  && s.blocks[n].bottomTarget <= |s.targets| && s'.targets == s.targets[..s.blocks[n].bottomTarget]
                  && forall p' :: p' in s'.pending ==> exists p :: p in s.pending && MovedOut(p, p', n, top))
  {
    var n := |s.blocks| - 1;
    var top := s.blocks[n].stackBottom;
    forall p | p in s.pending && p.blockIndex >= n ensures p.stackTop >= top {
      assert PendingOk(s, p, k);
    }
    if Apply(s, Exit(top)).Next? {
      StillReached(s, Exit(top));
      ExitedSteady(s, Apply(s, Exit(top)).state, level, k);
    }
  }

  lemma ExitedSteady(s: State, s': State, level: nat, k: nat)
    requires Steady(s, level, k) && |s.blocks| > 1 && Reached(s')
    requires var n := |s.blocks| - 1;
             var top := s.blocks[n].stackBottom;
             s'.blocks == s.blocks[..n] && s'.top == top && s'.targets == s.targets[..Min(s.blocks[n].bottomTarget, |s.targets|)]
             && s'.pending == MapOutward(s.pending, n, top, s.blocks[n].ownsUpvalues)
    ensures var n := |s.blocks| - 1;
            var top := s.blocks[n].stackBottom;
            && Steady(s', top, k) && s.blocks[n].bottomTarget <= |s.targets|
            && forall p' :: p' in s'.pending ==> exists p :: p in s.pending && MovedOut(p, p', n, top)
  {
    hide Reached, Inv;
    ExitedBottom(s);
    var n := |s.blocks| - 1;
    var top := s.blocks[n].stackBottom;
    forall p' | p' in s'.pending ensures PendingOk(s', p', k) && exists p :: p in s.pending && MovedOut(p, p', n, top) {
      var i :| 0 <= i < |s'.pending| && s'.pending[i] == p';
      ExitedPending(s, s', s.pending[i], p', level, k);
    }
    forall t | t in s'.targets ensures TargetOk(s', t, top, k) {
      var i :| 0 <= i < |s'.targets| && s'.targets[i] == t;
      ExitedTarget(s, s', i, level, k);
    }
  }

  lemma ExitedBottom(s: State)
    requires Reached(s) && s.blocks != []
    ensures TargetsOk(s) && s.blocks[|s.blocks| - 1].bottomTarget <= |s.targets|
  {
  }

  lemma ExitedPending(s: State, s': State, p: Pending, p': Pending, level: nat, k: nat)
    requires Stacked(s, level) && |s.blocks| > 1 && PendingOk(s, p, k)
    requires var n := |s.blocks| - 1;
             s'.blocks == s.blocks[..n] && p' == Outward(p, n, s.blocks[n].stackBottom, s.blocks[n].ownsUpvalues)
    ensures PendingOk(s', p', k) && MovedOut(p, p', |s.blocks| - 1, s.blocks[|s.blocks| - 1].stackBottom)
  {
  }

  lemma ExitedTarget(s: State, s': State, i: nat, level: nat, k: nat)
    requires Stacked(s, level) && |s.blocks| > 1 && TargetsOk(s) && s.blocks[|s.blocks| - 1].bottomTarget <= |s.targets|
    requires var n := |s.blocks| - 1;
             s'.blocks == s.blocks[..n] && i < s.blocks[n].bottomTarget && TargetOk(s, s.targets[i], level, k)
    ensures TargetOk(s', s.targets[i], s.blocks[|s.blocks| - 1].stackBottom, k)
  {
  }
}
