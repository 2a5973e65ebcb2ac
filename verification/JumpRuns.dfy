/** What the code between two points of a function keeps, whatever the statements are. */
module JumpRuns {
  import opened Values
  import opened Jumps
  import opened JumpHistory
  import opened JumpSteps
  import opened JumpSyntax

  // New labels.

  predicate Fresh(t: Target, k: nat) {
    t.lab.Unique? ==> t.lab.id >= k
  }

  /** More labels behind those that were there, none of them with a number below `k`. */
  ghost predicate Prolongs(ts: seq<Target>, ts': seq<Target>, k: nat) {
    |ts| <= |ts'| && ts'[..|ts|] == ts && forall i :: |ts| <= i < |ts'| ==> Fresh(ts'[i], k)
  }

  lemma ProlongsMore(a: seq<Target>, b: seq<Target>, c: seq<Target>, k: nat, k': nat)
    requires Prolongs(a, b, k) && Prolongs(b, c, k') && k <= k'
    ensures Prolongs(a, c, k)
  {
    assert c[..|a|] == c[..|b|][..|a|];
    assert forall i :: |a| <= i < |b| ==> c[i] == c[..|b|][i];
  }

  lemma ProlongsOne(ts: seq<Target>, ts': seq<Target>, t: Target, k: nat)
    requires Prolongs(ts, ts', k) && Fresh(t, k)
    ensures Prolongs(ts, ts' + [t], k)
  {
  }

  lemma ProlongsCut(ts: seq<Target>, ts': seq<Target>, n: nat, k: nat)
    requires Prolongs(ts, ts', k) && |ts| <= n <= |ts'|
    ensures Prolongs(ts, ts'[..n], k)
  {
    assert ts'[..n][..|ts|] == ts'[..|ts|];
  }

  /** A label that has not been placed yet. */
  lemma Unplaced(s: State, level: nat, k: nat, ts: seq<Target>, k': nat, id: nat)
    requires Steady(s, level, k) && Prolongs(s.targets, ts, k') && k <= id < k'
    ensures FindTarget(ts, Unique(id)).None?
  {
    hide Reached, Stacked;
    assert forall t :: t in s.targets && t.lab.Unique? ==> TargetOk(s, t, level, k) && t.lab.id < k;
    forall i | 0 <= i < |ts| ensures ts[i].lab != Unique(id) {
      assert i < |s.targets| ==> ts[i] == ts[..|s.targets|][i];
    }
  }

  /** A label that has been placed is found, whatever follows it. */
  lemma {:induction false} FindPlaced(ts: seq<Target>, t: Target, ts': seq<Target>, k: nat)
    requires Prolongs(ts + [t], ts', k) && t.lab.Unique? && t.lab.id < k
    ensures FindTarget(ts', t.lab) == Some(t)
    decreases |ts'|
  {
    var n := |ts'| - 1;
    if n > |ts| {
      ProlongsCut(ts + [t], ts', n, k);
      FindPlaced(ts, t, ts'[..n], k);
    } else {
      assert ts' == ts + [t];
    }
  }

  // Code without jumps to later statements.

  ghost predicate Quiet(s: State, s': State, k: nat) {
    && SameBlocks(s, s') && |s.ops| <= |s'.ops| && Prolongs(s.targets, s'.targets, k)
    && forall p :: p in s'.pending ==> p in s.pending
  }

  lemma QuietMore(s: State, s1: State, s2: State, k: nat, k': nat)
    requires Quiet(s, s1, k) && Quiet(s1, s2, k') && k <= k'
    ensures Quiet(s, s2, k)
  {
    ProlongsMore(s.targets, s1.targets, s2.targets, k, k');
  }

  lemma PlainQuiet(s: State, e: Event, level: nat, k: nat)
    requires Steady(s, level, k)
    requires e.EmitOther? || (e.MoveTop? && level <= e.top) || (e.Capture? && e.block < |s.blocks|)
    ensures Apply(s, e).Next?
    ensures var s' := Apply(s, e).state;
            Steady(s', level, k) && Quiet(s, s', k) && s'.targets == s.targets && s'.pending == s.pending
            && s'.top == if e.MoveTop? then e.top else s.top
  {
    PlainStep(s, e, level, k);
  }

  /** The operations of expressions: the jumps among them are all theirs. */
  lemma {:induction false} WorkRuns(s: State, ws: seq<Work>, level: nat, block: nat, k: nat)
    requires Steady(s, level, k) && block + 1 == |s.blocks|
    ensures var o := Perform(s, WorkEvents(ws, level, block, k));
            !o.Panics? && (o.Next? ==> Steady(o.state, level, k + WorkLabels(ws)) && Quiet(s, o.state, k))
    decreases ws, 1
  {
    hide Steady, Quiet;
    if ws == [] {
      PerformNone(s);
      QuietSelf(s, k);
    } else {
      var rest, w := ws[..|ws| - 1], ws[|ws| - 1];
      WorkRuns(s, rest, level, block, k);
      PerformAppend(s, WorkEvents(rest, level, block, k), PartEvents(w, level, block, k + WorkLabels(rest)));
      var o := Perform(s, WorkEvents(rest, level, block, k));
      if o.Next? {
        QuietBlocks(s, o.state, k);
        PartRuns(o.state, w, level, block, k + WorkLabels(rest));
        var o' := Perform(o.state, PartEvents(w, level, block, k + WorkLabels(rest)));
        if o'.Next? {
          QuietMore(s, o.state, o'.state, k, k + WorkLabels(rest));
        }
      }
    }
  }

  lemma QuietSelf(s: State, k: nat)
    ensures Quiet(s, s, k)
  {
  }

  lemma QuietBlocks(s: State, s': State, k: nat)
    requires Quiet(s, s', k)
    ensures |s'.blocks| == |s.blocks| && |s.ops| <= |s'.ops|
  {
  }

  lemma {:induction false} PartRuns(s: State, w: Work, level: nat, block: nat, k: nat)
    requires Steady(s, level, k) && block + 1 == |s.blocks|
    ensures var o := Perform(s, PartEvents(w, level, block, k));
            !o.Panics? && (o.Next? ==> Steady(o.state, level, k + PartLabels(w)) && Quiet(s, o.state, k))
    decreases w, 0
  {
    hide Steady, Quiet, Perform, Apply;
    match w {
      case Emits => SingleRuns(s, EmitOther(0), level, k);
      case Temporary(extra) => SingleRuns(s, MoveTop(level + extra), level, k);
      case Captures(outward) =>
        if outward <= block {
          SingleRuns(s, Capture(block - outward), level, k);
        } else {
          PerformNone(s);
          QuietSelf(s, k);
        }
      case ShortCircuit(extra, right) =>
        var head, work := [MoveTop(level + extra), GoTo(Unique(k))], WorkEvents(right, level, block, k + 1);
        var tail := [MoveTop(level + extra), Place(Unique(k))];
        PerformAppend(s, head + work, tail);
        PerformAppend(s, head, work);
        SkipOver(s, level, extra, block, k);
        var o := Perform(s, head);
        if o.Next? {
          WorkRuns(o.state, right, level, block, k + 1);
          var o' := Perform(o.state, work);
          if o'.Next? {
            SkipEnd(s, o.state, o'.state, level, extra, block, k, k + 1 + WorkLabels(right));
          }
        }
    }
  }

  lemma SingleRuns(s: State, e: Event, level: nat, k: nat)
    requires Steady(s, level, k)
    requires e.EmitOther? || (e.MoveTop? && level <= e.top) || (e.Capture? && e.block < |s.blocks|)
    ensures var o := Perform(s, [e]);
            !o.Panics? && (o.Next? ==> Steady(o.state, level, k) && Quiet(s, o.state, k))
  {
    PerformOne(s, e);
    PlainQuiet(s, e, level, k);
  }

  ghost predicate Skipping(s: State, s': State, level: nat, extra: nat, block: nat, k: nat) {
    && SameBlocks(s, s') && |s.ops| < |s'.ops| && s'.targets == s.targets
    && s'.pending == s.pending + [Pending(Unique(k), |s'.ops| - 1, block, level + extra, false)]
  }

  lemma SkipOver(s: State, level: nat, extra: nat, block: nat, k: nat)
    requires Steady(s, level, k) && block + 1 == |s.blocks|
    ensures var o := Perform(s, [MoveTop(level + extra), GoTo(Unique(k))]);
            !o.Panics? && (o.Next? ==> Steady(o.state, level, k + 1) && Skipping(s, o.state, level, extra, block, k))
  {
    assert [MoveTop(level + extra), GoTo(Unique(k))] == [MoveTop(level + extra)] + [GoTo(Unique(k))];
    hide Perform, Apply, Steady, FindTarget;
    PerformMore(s, MoveTop(level + extra), [GoTo(Unique(k))]);
    PlainQuiet(s, MoveTop(level + extra), level, k);
    var s1 := Apply(s, MoveTop(level + extra)).state;
    PerformOne(s1, GoTo(Unique(k)));
    SkipJump(s, s1, level, extra, block, k);
  }

  lemma ProlongsSelf(ts: seq<Target>, k: nat)
    ensures Prolongs(ts, ts, k)
  {
  }

  lemma SteadyTop(s: State, level: nat, k: nat)
    requires Steady(s, level, k)
    ensures s.blocks != [] && level <= s.top
  {
  }

  lemma SkipJump(s: State, s1: State, level: nat, extra: nat, block: nat, k: nat)
    requires block + 1 == |s.blocks| && Quiet(s, s1, k) && Steady(s1, level, k)
    requires s1.targets == s.targets && s1.pending == s.pending && s1.top == level + extra
    ensures var o := Apply(s1, GoTo(Unique(k)));
            !o.Panics? && (o.Next? ==> Steady(o.state, level, k + 1) && Skipping(s, o.state, level, extra, block, k))
  {
    hide Apply, Steady, FindTarget, Prolongs;
    NewUnplaced(s1, level, k);
    JumpToNew(s1, level, k);
  }

  lemma NewUnplaced(s: State, level: nat, k: nat)
    requires Steady(s, level, k)
    ensures FindTarget(s.targets, Unique(k)).None?
  {
    ProlongsSelf(s.targets, k + 1);
    hide Steady, FindTarget, Prolongs;
    Unplaced(s, level, k, s.targets, k + 1, k);
  }

  lemma JumpToNew(s: State, level: nat, k: nat)
    requires Steady(s, level, k) && s.blocks != [] && FindTarget(s.targets, Unique(k)).None?
    ensures var o := Apply(s, GoTo(Unique(k)));
            !o.Panics? && (o.Next? ==>
              && Steady(o.state, level, k + 1) && o.state.blocks == s.blocks && o.state.targets == s.targets && |o.state.ops| == |s.ops| + 1
              && o.state.pending == s.pending + [Pending(Unique(k), |s.ops|, |s.blocks| - 1, s.top, false)])
  {
    SteadyTop(s, level, k);
    hide Apply, Steady, FindTarget;
    Higher(s, level, level, k, k + 1);
    AheadStep(s, Unique(k), level, k + 1);
  }

  lemma SkipEnd(s: State, s1: State, s2: State, level: nat, extra: nat, block: nat, k: nat, k': nat)
    requires Steady(s, level, k) && Skipping(s, s1, level, extra, block, k) && Quiet(s1, s2, k + 1) && Steady(s2, level, k') && k < k'
    requires block + 1 == |s.blocks|
    ensures var o := Perform(s2, [MoveTop(level + extra), Place(Unique(k))]);
            !o.Panics? && (o.Next? ==> Steady(o.state, level, k') && Quiet(s, o.state, k))
  {
    var e1, e2 := MoveTop(level + extra), Place(Unique(k));
    assert [e1, e2] == [e1] + [e2];
    PerformMore(s2, e1, [e2]);
    PlainQuiet(s2, e1, level, k');
    var s3 := Apply(s2, e1).state;
    QuietMore(s1, s2, s3, k + 1, k');
    PerformOne(s3, e2);
    forall p | p in s3.pending && Resolves(p, block, Unique(k)) ensures p.stackTop <= s3.top {
      OldLabel(s, level, k, p);
    }
    hide Apply, Perform;
    PlaceSafe(s3, Unique(k), level, k');
    if Apply(s3, e2).Next? {
      hide Steady;
      SkipQuiet(s, s1, s3, Apply(s3, e2).state, level, extra, block, k);
    }
  }

  lemma SkipQuiet(s: State, s1: State, s3: State, s4: State, level: nat, extra: nat, block: nat, k: nat)
    requires Skipping(s, s1, level, extra, block, k) && Quiet(s1, s3, k + 1) && block + 1 == |s.blocks| == |s3.blocks|
    requires PlacedAt(s3, s4, Unique(k))
    ensures Quiet(s, s4, k)
  {
    ProlongsOne(s.targets, s3.targets, Target(Unique(k), |s3.ops|, s3.top, block), k);
  }

  lemma OldLabel(s: State, level: nat, k: nat, p: Pending)
    requires Steady(s, level, k)
    ensures p in s.pending ==> p.blockIndex < |s.blocks| && (p.lab.Unique? ==> p.lab.id < k)
  {
    assert p in s.pending ==> PendingOk(s, p, k);
  }

  // Inside a statement.

  predicate SameBlock(b: Block, b': Block) {
    b'.stackBottom == b.stackBottom && b'.bottomTarget == b.bottomTarget
  }

  /** A jump of the code since `s0`; in the block of that time it has the stack top `at`. */
  predicate Arose(s0: State, s: State, p: Pending, at: nat, breaks: bool) {
    && |s0.blocks| <= p.blockIndex + 1 && |s0.ops| <= p.instruction < |s.ops|
    && (p.blockIndex + 1 == |s0.blocks| ==> p.stackTop == at && (p.lab.Break? ==> breaks))
  }

  ghost predicate Inside(s0: State, s: State, at: nat, breaks: bool, k: nat) {
    && 0 < |s0.blocks| <= |s.blocks| && (forall b :: 0 <= b < |s0.blocks| ==> SameBlock(s0.blocks[b], s.blocks[b]))
    && (forall b :: |s0.blocks| <= b < |s.blocks| ==> |s0.targets| <= s.blocks[b].bottomTarget)
    && |s0.ops| <= |s.ops| && Prolongs(s0.targets, s.targets, k)
    && (forall p :: p in s0.pending ==> p.blockIndex < |s0.blocks|)
    && forall p :: p in s.pending ==> p in s0.pending || Arose(s0, s, p, at, breaks)
  }

  lemma InsideSelf(s: State, at: nat, breaks: bool, level: nat, k: nat)
    requires Steady(s, level, k)
    ensures Inside(s, s, at, breaks, k)
  {
    hide Reached;
    forall p | p in s.pending ensures p.blockIndex < |s.blocks| {
      assert PendingOk(s, p, k);
    }
  }

  lemma QuietInside(s: State, s0: State, s': State, at: nat, breaks: bool, k: nat, k': nat)
    requires Quiet(s, s0, k) && Inside(s0, s', at, breaks, k') && k <= k' && (forall p :: p in s.pending ==> p.blockIndex < |s.blocks|)
    ensures Inside(s, s', at, breaks, k)
  {
    ProlongsMore(s.targets, s0.targets, s'.targets, k, k');
    forall p | p in s'.pending ensures p in s.pending || Arose(s, s', p, at, breaks) {
      assert p in s0.pending || Arose(s0, s', p, at, breaks);
    }
  }

  lemma InsideQuiet(s0: State, s: State, s': State, at: nat, breaks: bool, k: nat, k': nat)
    requires Inside(s0, s, at, breaks, k) && Quiet(s, s', k') && k <= k'
    ensures Inside(s0, s', at, breaks, k)
  {
    ProlongsMore(s0.targets, s.targets, s'.targets, k, k');
    forall p | p in s'.pending ensures p in s0.pending || Arose(s0, s', p, at, breaks) {
      assert p in s0.pending || Arose(s0, s, p, at, breaks);
    }
  }

  // Inside a block.

  /** A jump of the code since `s` out of the statements in the current block. */
  predicate Leaves(s: State, s': State, p: Pending) {
    p.blockIndex + 1 == |s.blocks| && |s.ops| <= p.instruction < |s'.ops| && (p.lab.Break? ==> p.stackTop <= s'.top)
  }

  ghost predicate Ran(s: State, s': State, k: nat) {
    && SameBlocks(s, s') && |s.ops| <= |s'.ops| && Prolongs(s.targets, s'.targets, k)
    && forall p :: p in s'.pending ==> p in s.pending || Leaves(s, s', p)
  }

  lemma RanQuiet(s: State, s1: State, s2: State, k: nat, k': nat)
    requires Ran(s, s1, k) && Quiet(s1, s2, k') && k <= k' && s1.top <= s2.top
    ensures Ran(s, s2, k)
  {
    ProlongsMore(s.targets, s1.targets, s2.targets, k, k');
    forall p | p in s2.pending ensures p in s.pending || Leaves(s, s2, p) {
      assert p in s.pending || Leaves(s, s1, p);
    }
  }

  lemma InsideRan(s0: State, s: State, s': State, at: nat, breaks: bool, k: nat, k': nat)
    requires Inside(s0, s, at, breaks, k) && Ran(s, s', k') && k <= k' && |s0.blocks| < |s.blocks|
    ensures Inside(s0, s', at, breaks, k)
  {
    ProlongsMore(s0.targets, s.targets, s'.targets, k, k');
    forall p | p in s'.pending ensures p in s0.pending || Arose(s0, s', p, at, breaks) {
      assert p in s.pending || Leaves(s, s', p);
      assert p in s.pending ==> p in s0.pending || Arose(s0, s, p, at, breaks);
    }
  }

  // The events of a statement.

  lemma EnterInside(s0: State, s: State, at: nat, breaks: bool, k0: nat, level: nat, k: nat)
    requires Inside(s0, s, at, breaks, k0) && Steady(s, level, k) && s.top == level
    ensures Apply(s, Enter).Next?
    ensures var s' := Apply(s, Enter).state;
            Inside(s0, s', at, breaks, k0) && Steady(s', level, k) && s'.top == level && s'.targets == s.targets && s'.pending == s.pending
            && s'.blocks == s.blocks + [Block(level, |s.targets|, false)] && s'.ops == s.ops
  {
    EnterStep(s, level, k);
    hide Apply, Steady;
    var s' := Apply(s, Enter).state;
    forall p | p in s'.pending ensures p in s0.pending || Arose(s0, s', p, at, breaks) {
      assert p in s0.pending || Arose(s0, s, p, at, breaks);
    }
  }

  /** A jump to a label that is still to come, or to one of the program. */
  lemma GoInside(s0: State, s: State, lab: Label, at: nat, breaks: bool, k0: nat, level: nat, k: nat)
    requires Inside(s0, s, at, breaks, k0) && Steady(s, level, k)
    requires if lab.Unique? then lab.id < k && FindTarget(s.targets, lab).None? else s.top == level
    requires |s.blocks| == |s0.blocks| ==> s.top == at && (lab.Break? ==> breaks)
    ensures !Apply(s, GoTo(lab)).Panics?
    ensures Apply(s, GoTo(lab)).Next? ==>
              var s' := Apply(s, GoTo(lab)).state;
              Inside(s0, s', at, breaks, k0) && Steady(s', level, k) && s'.blocks == s.blocks && s'.top == s.top && s'.targets == s.targets
              && forall p :: p in s'.pending ==> p in s.pending || p == Pending(lab, |s.ops|, |s.blocks| - 1, s.top, false)
  {
    if lab.Unique? {
      AheadStep(s, lab, level, k);
    } else {
      NamedStep(s, lab, level, k);
    }
    hide Apply, Steady, FindTarget;
    if Apply(s, GoTo(lab)).Next? {
      var s' := Apply(s, GoTo(lab)).state;
      forall p | p in s'.pending ensures p in s0.pending || Arose(s0, s', p, at, breaks) {
        assert p in s.pending || p == Pending(lab, |s.ops|, |s.blocks| - 1, s.top, false);
        assert p in s.pending ==> p in s0.pending || Arose(s0, s, p, at, breaks);
      }
    }
  }

  lemma BackInside(s0: State, s: State, lab: Label, at: nat, breaks: bool, k0: nat, level: nat, k: nat)
    requires Inside(s0, s, at, breaks, k0) && Steady(s, level, k)
    requires FindTarget(s.targets, lab).Some? && FindTarget(s.targets, lab).value.stackTop <= s.top
    ensures !Apply(s, GoTo(lab)).Panics?
    ensures Apply(s, GoTo(lab)).Next? ==>
              var s' := Apply(s, GoTo(lab)).state;
              Inside(s0, s', at, breaks, k0) && Steady(s', level, k) && s'.blocks == s.blocks && s'.top == s.top && s'.targets == s.targets
              && s'.pending == s.pending
  {
    BackStep(s, lab, level, k);
    hide Apply, Steady, FindTarget;
    if Apply(s, GoTo(lab)).Next? {
      var s' := Apply(s, GoTo(lab)).state;
      forall p | p in s'.pending ensures p in s0.pending || Arose(s0, s', p, at, breaks) {
        assert p in s0.pending || Arose(s0, s, p, at, breaks);
      }
    }
  }

  lemma PlaceInside(s0: State, s: State, lab: Label, at: nat, breaks: bool, k0: nat, level: nat, k: nat)
    requires Inside(s0, s, at, breaks, k0) && Steady(s, level, k)
    requires if lab.Unique? then k0 <= lab.id < k else s.top == level
    requires forall p :: p in s.pending && Resolves(p, |s.blocks| - 1, lab) ==> p.stackTop <= s.top
    ensures !Apply(s, Place(lab)).Panics?
    ensures Apply(s, Place(lab)).Next? ==>
              var s' := Apply(s, Place(lab)).state;
              Inside(s0, s', at, breaks, k0) && Steady(s', level, k) && PlacedAt(s, s', lab)
  {
    PlaceSafe(s, lab, level, k);
    hide Apply, Steady;
    if Apply(s, Place(lab)).Next? {
      PlacedInside(s0, s, Apply(s, Place(lab)).state, lab, at, breaks, k0);
    }
  }

  lemma PlacedInside(s0: State, s: State, s': State, lab: Label, at: nat, breaks: bool, k: nat)
    requires Inside(s0, s, at, breaks, k) && (lab.Unique? ==> k <= lab.id) && PlacedAt(s, s', lab)
    ensures Inside(s0, s', at, breaks, k)
  {
    ProlongsOne(s0.targets, s.targets, Target(lab, |s.ops|, s.top, |s.blocks| - 1), k);
    forall p | p in s'.pending ensures p in s0.pending || Arose(s0, s', p, at, breaks) {
      assert p in s0.pending || Arose(s0, s, p, at, breaks);
    }
  }

  /** Behind the end of a block, jumps out of it have the stack top that is left. */
  ghost predicate LeftAt(s: State, s': State, top: nat) {
    && s.blocks != [] && s'.top == top && s'.blocks == s.blocks[..|s.blocks| - 1]
    && s.blocks[|s.blocks| - 1].bottomTarget <= |s.targets| && s'.targets == s.targets[..s.blocks[|s.blocks| - 1].bottomTarget]
    && forall p :: p in s'.pending && p.blockIndex + 1 == |s'.blocks| ==> p.stackTop == top || p in s.pending
  }

  lemma ExitInside(s0: State, s: State, top: nat, at: nat, breaks: bool, k0: nat, level: nat, k: nat)
    requires Inside(s0, s, at, breaks, k0) && Steady(s, level, k) && |s0.blocks| < |s.blocks| && top == s.blocks[|s.blocks| - 1].stackBottom
    requires |s0.blocks| + 1 == |s.blocks| ==>
               top == at && (breaks || forall p :: p in s.pending && p.blockIndex + 1 == |s.blocks| ==> !p.lab.Break?)
    ensures !Apply(s, Exit(top)).Panics?
    ensures Apply(s, Exit(top)).Next? ==>
              var s' := Apply(s, Exit(top)).state;
              Inside(s0, s', at, breaks, k0) && Steady(s', top, k) && LeftAt(s, s', top)
  {
    ExitStep(s, level, k);
    if Apply(s, Exit(top)).Next? {
      SteadyBlocks(s, level, k);
      hide Apply, Steady;
      var s', n := Apply(s, Exit(top)).state, |s.blocks| - 1;
      ProlongsCut(s0.targets, s.targets, s.blocks[n].bottomTarget, k0);
      forall p' | p' in s'.pending ensures p' in s0.pending || Arose(s0, s', p', at, breaks) {
        var p :| p in s.pending && MovedOut(p, p', n, top);
        assert p in s0.pending || Arose(s0, s, p, at, breaks);
      }
    }
  }

  lemma SteadyBlocks(s: State, level: nat, k: nat)
    requires Steady(s, level, k)
    ensures s.blocks != [] && level <= s.top && forall p :: p in s.pending ==> p.blockIndex < |s.blocks|
  {
    forall p | p in s.pending ensures p.blockIndex < |s.blocks| {
      assert PendingOk(s, p, k);
    }
  }
}
