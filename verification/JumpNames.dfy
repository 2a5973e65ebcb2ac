/** Which labels are visible and which jumps wait, by name only: for the events of a function this does not depend on
    registers, operations and upvalues. */
module JumpNames {
  import opened Values
  import opened Jumps
  import opened JumpHistory
  import opened JumpTheorems
  import opened JumpSteps

  /** For each open block the labels in it and the labels that jumps in it wait for. */
  datatype Names = Names(labels: seq<set<Label>>, waits: seq<set<Label>>)

  predicate Open(n: Names) {
    |n.labels| == |n.waits| > 0
  }

  ghost predicate Sees(n: Names, lab: Label) {
    exists b :: 0 <= b < |n.labels| && lab in n.labels[b]
  }

  /** Jumps are followed from the event on at which `adds` is set. Labels of statements are left out. */
  ghost function Follow(n: Names, e: Event, adds: bool): (r: Names)
    requires Open(n)
    ensures Open(r)
  {
    var k := |n.labels| - 1;
    match e
    case Enter => Names(n.labels + [{}], n.waits + [{}])
    case Exit(_) => if k > 0 then Names(n.labels[..k], n.waits[..k][k - 1 := n.waits[k - 1] + n.waits[k]]) else n
    case GoTo(lab) => if adds && !lab.Unique? && !Sees(n, lab) then n.(waits := n.waits[k := n.waits[k] + {lab}]) else n
    case Place(lab) =>
      if lab.Unique? then n else Names(n.labels[k := n.labels[k] + {lab}], n.waits[k := n.waits[k] - {lab}])
    case _ => n
  }

  ghost function FollowAll(n: Names, es: seq<Event>, adds: bool): (r: Names)
    requires Open(n)
    ensures Open(r)
    decreases |es|
  {
    if es == [] then n else FollowAll(Follow(n, es[0], adds), es[1..], adds)
  }

  lemma {:induction false} FollowAppend(n: Names, a: seq<Event>, b: seq<Event>, adds: bool)
    requires Open(n)
    ensures FollowAll(n, a + b, adds) == FollowAll(FollowAll(n, a, adds), b, adds)
    decreases |a|
  {
    if a == [] {
      assert a + b == b;
    } else {
      assert (a + b)[1..] == a[1..] + b;
      FollowAppend(Follow(n, a[0], adds), a[1..], b, adds);
    }
  }

  lemma FollowOne(n: Names, e: Event, adds: bool)
    requires Open(n)
    ensures FollowAll(n, [e], adds) == Follow(n, e, adds)
  {
    assert [e][1..] == [];
  }

  // The names of a state.

  ghost predicate LabelIn(s: State, b: nat, lab: Label) {
    exists t :: t in s.targets && t.lab == lab && t.blockIndex == b
  }

  /** The jump is an operation from `from` on, and before `end` unless all are followed. */
  predicate Within(p: Pending, from: nat, end: nat, adds: bool) {
    from <= p.instruction && (adds || p.instruction < end)
  }

  ghost predicate WaitsIn(s: State, b: nat, lab: Label, from: nat, end: nat, adds: bool) {
    exists p :: p in s.pending && p.lab == lab && p.blockIndex == b && Within(p, from, end, adds)
  }

  ghost predicate Shows(n: Names, s: State, from: nat, end: nat, adds: bool) {
    && |n.labels| == |n.waits| == |s.blocks| > 0
    && (forall b: nat, lab: Label :: b < |s.blocks| ==> (lab in n.labels[b] <==> !lab.Unique? && LabelIn(s, b, lab)))
    && (forall b: nat, lab: Label :: b < |s.blocks| ==> (lab in n.waits[b] <==> !lab.Unique? && WaitsIn(s, b, lab, from, end, adds)))
  }

  /** Jumps that the event may add are followed, or none of them. */
  predicate Followed(s: State, from: nat, end: nat, adds: bool) {
    if adds then from <= |s.ops| else end <= |s.ops|
  }

  lemma MoreEmitted(s: State, e: Event)
    requires Apply(s, e).Next?
    ensures |s.ops| <= |Apply(s, e).state.ops|
  {
    if e.Place? {
      PatchLength(s.ops, Resolving(s.pending, |s.blocks| - 1, e.lab), |s.ops|, s.top);
    }
  }

  lemma ShowsSame(n: Names, s: State, s': State, from: nat, end: nat, adds: bool)
    requires Shows(n, s, from, end, adds) && |s'.blocks| == |s.blocks| && s'.targets == s.targets && s'.pending == s.pending
    ensures Shows(n, s', from, end, adds)
  {
    forall b: nat, lab ensures LabelIn(s', b, lab) <==> LabelIn(s, b, lab)
                       ensures WaitsIn(s', b, lab, from, end, adds) <==> WaitsIn(s, b, lab, from, end, adds)
    {
    }
  }

  lemma ShowsEnter(n: Names, s: State, from: nat, end: nat, adds: bool)
    requires Reached(s) && Shows(n, s, from, end, adds)
    ensures Shows(Follow(n, Enter, adds), EnterBlock(s), from, end, adds)
  {
    ReachedBlocks(s);
    hide Reached;
    var n', s', k := Follow(n, Enter, adds), EnterBlock(s), |s.blocks|;
    forall b: nat, lab | b < |s'.blocks|
      ensures lab in n'.labels[b] <==> !lab.Unique? && LabelIn(s', b, lab)
      ensures lab in n'.waits[b] <==> !lab.Unique? && WaitsIn(s', b, lab, from, end, adds)
    {
      assert LabelIn(s', b, lab) <==> LabelIn(s, b, lab);
      assert WaitsIn(s', b, lab, from, end, adds) <==> WaitsIn(s, b, lab, from, end, adds);
    }
  }

  lemma ReachedBlocks(s: State)
    requires Reached(s)
    ensures s.blocks != [] && TargetsOk(s)
    ensures forall p :: p in s.pending ==> p.blockIndex < |s.blocks| && p.instruction < |s.ops|
  {
    var h :| Inv(s, h);
    PendingBlocks(s, h);
    PendingIncrease(h.records, s.ops, h);
  }

  lemma ShowsExit(n: Names, s: State, top: nat, from: nat, end: nat, adds: bool)
    requires Reached(s) && Shows(n, s, from, end, adds) && Apply(s, Exit(top)).Next?
    ensures Shows(Follow(n, Exit(top), adds), Apply(s, Exit(top)).state, from, end, adds)
  {
    ReachedBlocks(s);
    hide Reached;
    var n', s', k := Follow(n, Exit(top), adds), Apply(s, Exit(top)).state, |s.blocks| - 1;
    forall b: nat, lab | b < k
      ensures lab in n'.labels[b] <==> !lab.Unique? && LabelIn(s', b, lab)
      ensures lab in n'.waits[b] <==> !lab.Unique? && WaitsIn(s', b, lab, from, end, adds)
    {
      ExitLabels(s, s', b, lab);
      ExitWaits(s, s', top, b, lab, from, end, adds);
    }
  }

  lemma ExitLabels(s: State, s': State, b: nat, lab: Label)
    requires TargetsOk(s) && |s.blocks| > 1 && b < |s.blocks| - 1
    requires var first := s.blocks[|s.blocks| - 1].bottomTarget; s'.targets == s.targets[..Min(first, |s.targets|)]
    ensures LabelIn(s', b, lab) <==> LabelIn(s, b, lab)
  {
    if t :| t in s.targets && t.lab == lab && t.blockIndex == b {
      var i :| 0 <= i < |s.targets| && s.targets[i] == t;
      assert s'.targets[i] == t;
    }
    if t :| t in s'.targets && t.lab == lab && t.blockIndex == b {
      assert t in s.targets;
    }
  }

  lemma ExitWaits(s: State, s': State, top: nat, b: nat, lab: Label, from: nat, end: nat, adds: bool)
    requires |s.blocks| > 1 && b < |s.blocks| - 1 && forall p :: p in s.pending ==> p.blockIndex < |s.blocks|
    requires var k := |s.blocks| - 1; s'.pending == MapOutward(s.pending, k, top, s.blocks[k].ownsUpvalues)
    ensures WaitsIn(s', b, lab, from, end, adds)
            <==> WaitsIn(s, b, lab, from, end, adds) || (b + 2 == |s.blocks| && WaitsIn(s, b + 1, lab, from, end, adds))
  {
    if WaitsIn(s', b, lab, from, end, adds) {
      ExitedFrom(s, s', top, b, lab, from, end, adds);
    }
    if WaitsIn(s, b, lab, from, end, adds) {
      ExitedTo(s, s', top, b, b, lab, from, end, adds);
    }
    if b + 2 == |s.blocks| && WaitsIn(s, b + 1, lab, from, end, adds) {
      ExitedTo(s, s', top, b + 1, b, lab, from, end, adds);
    }
  }

  lemma ExitedFrom(s: State, s': State, top: nat, b: nat, lab: Label, from: nat, end: nat, adds: bool)
    requires |s.blocks| > 1 && b < |s.blocks| - 1 && forall p :: p in s.pending ==> p.blockIndex < |s.blocks|
    requires var k := |s.blocks| - 1; s'.pending == MapOutward(s.pending, k, top, s.blocks[k].ownsUpvalues)
    requires WaitsIn(s', b, lab, from, end, adds)
    ensures WaitsIn(s, b, lab, from, end, adds) || (b + 2 == |s.blocks| && WaitsIn(s, b + 1, lab, from, end, adds))
  {
    var p' :| p' in s'.pending && p'.lab == lab && p'.blockIndex == b && Within(p', from, end, adds);
    var i :| 0 <= i < |s'.pending| && s'.pending[i] == p';
    assert p' == Outward(s.pending[i], |s.blocks| - 1, top, s.blocks[|s.blocks| - 1].ownsUpvalues);
    assert s.pending[i] in s.pending;
  }

  /** A jump that waits in block `c` waits in block `b` afterwards. */
  lemma ExitedTo(s: State, s': State, top: nat, c: nat, b: nat, lab: Label, from: nat, end: nat, adds: bool)
    requires |s.blocks| > 1 && b < |s.blocks| - 1 && (c == b || c == b + 1 == |s.blocks| - 1)
    requires var k := |s.blocks| - 1; s'.pending == MapOutward(s.pending, k, top, s.blocks[k].ownsUpvalues)
    requires WaitsIn(s, c, lab, from, end, adds)
    ensures WaitsIn(s', b, lab, from, end, adds)
  {
    var p :| p in s.pending && p.lab == lab && p.blockIndex == c && Within(p, from, end, adds);
    var i :| 0 <= i < |s.pending| && s.pending[i] == p;
    assert s'.pending[i] == Outward(p, |s.blocks| - 1, top, s.blocks[|s.blocks| - 1].ownsUpvalues);
    assert s'.pending[i] in s'.pending;
  }

  lemma SeesLabel(n: Names, s: State, from: nat, end: nat, adds: bool, lab: Label)
    requires TargetsOk(s) && Shows(n, s, from, end, adds) && !lab.Unique?
    ensures Sees(n, lab) <==> FindTarget(s.targets, lab).Some?
  {
    if FindTarget(s.targets, lab).Some? {
      var t := FindTarget(s.targets, lab).value;
      assert LabelIn(s, t.blockIndex, lab);
    }
    if b :| 0 <= b < |n.labels| && lab in n.labels[b] {
      assert LabelIn(s, b, lab);
    }
  }

  lemma ShowsGoTo(n: Names, s: State, lab: Label, from: nat, end: nat, adds: bool)
    requires Reached(s) && Shows(n, s, from, end, adds) && Followed(s, from, end, adds) && Apply(s, GoTo(lab)).Next?
    ensures Shows(Follow(n, GoTo(lab), adds), Apply(s, GoTo(lab)).state, from, end, adds)
  {
    ReachedBlocks(s);
    if !lab.Unique? {
      SeesLabel(n, s, from, end, adds, lab);
    }
    hide Reached, FindTarget, JumpOffset, CloseAt;
    var s' := Apply(s, GoTo(lab)).state;
    if s'.pending == s.pending {
      ShowsSame(n, s, s', from, end, adds);
    } else {
      NewWaits(n, s, s', lab, from, end, adds);
    }
  }

  lemma NewWaits(n: Names, s: State, s': State, lab: Label, from: nat, end: nat, adds: bool)
    requires Shows(n, s, from, end, adds) && Followed(s, from, end, adds) && (lab.Unique? || !Sees(n, lab))
    requires s'.blocks == s.blocks && s'.targets == s.targets
    requires s'.pending == s.pending + [Pending(lab, |s.ops|, |s.blocks| - 1, s.top, false)]
    ensures Shows(Follow(n, GoTo(lab), adds), s', from, end, adds)
  {
    var n', k, p := Follow(n, GoTo(lab), adds), |s.blocks| - 1, Pending(lab, |s.ops|, |s.blocks| - 1, s.top, false);
    assert Within(p, from, end, adds) <==> adds || from <= |s.ops| < end;
    forall b: nat, l: Label | b < |s.blocks|
      ensures l in n'.labels[b] <==> !l.Unique? && LabelIn(s', b, l)
      ensures l in n'.waits[b] <==> !l.Unique? && WaitsIn(s', b, l, from, end, adds)
    {
      assert LabelIn(s', b, l) <==> LabelIn(s, b, l);
      WaitsOneMore(s, s', p, b, l, from, end, adds);
    }
  }

  lemma WaitsOneMore(s: State, s': State, p: Pending, b: nat, lab: Label, from: nat, end: nat, adds: bool)
    requires s'.pending == s.pending + [p]
    ensures WaitsIn(s', b, lab, from, end, adds)
            <==> WaitsIn(s, b, lab, from, end, adds) || (p.lab == lab && p.blockIndex == b && Within(p, from, end, adds))
  {
    assert p in s'.pending;
    if q :| q in s.pending && q.lab == lab && q.blockIndex == b && Within(q, from, end, adds) {
      assert q in s'.pending;
    }
  }

  lemma ShowsPlace(n: Names, s: State, lab: Label, from: nat, end: nat, adds: bool)
    requires Reached(s) && Shows(n, s, from, end, adds) && Apply(s, Place(lab)).Next?
    ensures Shows(Follow(n, Place(lab), adds), Apply(s, Place(lab)).state, from, end, adds)
  {
    var n', s', k := Follow(n, Place(lab), adds), Apply(s, Place(lab)).state, |s.blocks| - 1;
    hide Reached, PatchAll, HasLabel, Resolving;
    ResolvingHas(s.pending, k, lab);
    forall b: nat, l: Label | b < |s.blocks|
      ensures l in n'.labels[b] <==> !l.Unique? && LabelIn(s', b, l)
      ensures l in n'.waits[b] <==> !l.Unique? && WaitsIn(s', b, l, from, end, adds)
    {
      PlaceLabels(s, s', Target(lab, |s.ops|, s.top, k), b, l);
      PlaceWaits(s, s', k, lab, b, l, from, end, adds);
    }
  }

  lemma PlaceLabels(s: State, s': State, t: Target, b: nat, lab: Label)
    requires s'.targets == s.targets + [t]
    ensures LabelIn(s', b, lab) <==> LabelIn(s, b, lab) || (t.lab == lab && t.blockIndex == b)
  {
    assert t in s'.targets;
    if u :| u in s.targets && u.lab == lab && u.blockIndex == b {
      assert u in s'.targets;
    }
  }

  lemma PlaceWaits(s: State, s': State, k: nat, placed: Label, b: nat, lab: Label, from: nat, end: nat, adds: bool)
    requires forall p :: p in s'.pending <==> p in s.pending && !Resolves(p, k, placed)
    ensures WaitsIn(s', b, lab, from, end, adds) <==> WaitsIn(s, b, lab, from, end, adds) && !(b == k && lab == placed)
  {
    if p :| p in s.pending && p.lab == lab && p.blockIndex == b && Within(p, from, end, adds) {
      assert p in s'.pending <==> !(b == k && lab == placed);
    }
    if p :| p in s'.pending && p.lab == lab && p.blockIndex == b && Within(p, from, end, adds) {
      assert p in s.pending;
    }
  }

  lemma ShowsStep(n: Names, s: State, e: Event, from: nat, end: nat, adds: bool)
    requires Reached(s) && Shows(n, s, from, end, adds) && Followed(s, from, end, adds) && Apply(s, e).Next?
    ensures var s' := Apply(s, e).state;
            Reached(s') && Shows(Follow(n, e, adds), s', from, end, adds) && Followed(s', from, end, adds)
  {
    StillReached(s, e);
    MoreEmitted(s, e);
    hide Reached, Shows, JumpTo, JumpTarget, ExitBlock;
    match e {
      case Enter => ShowsEnter(n, s, from, end, adds);
      case Exit(top) => ShowsExit(n, s, top, from, end, adds);
      case GoTo(lab) => ShowsGoTo(n, s, lab, from, end, adds);
      case Place(lab) => ShowsPlace(n, s, lab, from, end, adds);
      case _ => ShowsOther(n, s, e, from, end, adds);
    }
  }

  lemma ShowsOther(n: Names, s: State, e: Event, from: nat, end: nat, adds: bool)
    requires Shows(n, s, from, end, adds) && Apply(s, e).Next? && (e.EmitOther? || e.MoveTop? || e.Capture?)
    ensures Shows(Follow(n, e, adds), Apply(s, e).state, from, end, adds)
  {
    ShowsSame(n, s, Apply(s, e).state, from, end, adds);
  }

  /** In every run the names are those of the state. */
  lemma {:induction false} ShowsAll(n: Names, s: State, es: seq<Event>, from: nat, end: nat, adds: bool)
    requires Reached(s) && Shows(n, s, from, end, adds) && Followed(s, from, end, adds) && Perform(s, es).Next?
    ensures Open(n) && Shows(FollowAll(n, es, adds), Perform(s, es).state, from, end, adds)
    decreases |es|
  {
    hide Reached, Apply, Follow;
    if es != [] {
      ShowsStep(n, s, es[0], from, end, adds);
      hide Shows, Followed;
      ShowsOpen(n, s, from, end, adds);
      ShowsAll(Follow(n, es[0], adds), Apply(s, es[0]).state, es[1..], from, end, adds);
    }
  }

  lemma ShowsOpen(n: Names, s: State, from: nat, end: nat, adds: bool)
    requires Shows(n, s, from, end, adds)
    ensures Open(n)
  {
  }

  ghost function NamesOf(s: State, from: nat, end: nat, adds: bool): Names {
    Names(seq(|s.blocks|, b => set t | t in s.targets && t.blockIndex == b && !t.lab.Unique? :: t.lab),
          seq(|s.blocks|, b => set p | p in s.pending && p.blockIndex == b && !p.lab.Unique? && Within(p, from, end, adds) :: p.lab))
  }

  lemma NamesShown(s: State, from: nat, end: nat, adds: bool)
    requires s.blocks != []
    ensures Shows(NamesOf(s, from, end, adds), s, from, end, adds)
  {
  }
}
