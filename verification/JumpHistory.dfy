/** What becomes of every jump. A history, kept beside the compiler's state, names the blocks and records
    each jump with the blocks it was in. */
module JumpHistory {
  import opened Values
  import opened Jumps

  /** What happens while a function body is compiled; `MoveTop` and `Exit` tell the new top of the register
      stack, and `Capture` that an inner function refers to a variable of a block. */
  datatype Event =
    | EmitOther(id: nat) | MoveTop(top: nat) | Capture(block: nat)
    | Enter | Exit(stackTop: nat) | GoTo(lab: Label) | Place(lab: Label)

  function Apply(s: State, e: Event): Outcome {
    match e
    case EmitOther(id) => Next(s.(ops := s.ops + [OtherOp(id)]))
    case MoveTop(top) => Next(s.(top := top))
    case Capture(b) => if b < |s.blocks| then Next(s.(blocks := s.blocks[b := s.blocks[b].(ownsUpvalues := true)])) else Panics(NoBlock)
    case Enter => Next(EnterBlock(s))
    case Exit(top) => if |s.blocks| > 1 then ExitBlock(s, top) else Panics(NoBlock)
    case GoTo(lab) => JumpTo(s, lab)
    case Place(lab) => JumpTarget(s, lab)
  }

  type BlockId = nat

  datatype Status = Waiting(p: Pending) | Resolved(target: Target, block: BlockId, left: seq<BlockId>, forward: bool)

  /** A jump: the blocks around it from the outermost one on, and the top of the register stack there. */
  datatype Record = Record(instruction: nat, lab: Label, path: seq<BlockId>, top: nat, status: Status)

  /** The identities of the open blocks, and of the closed ones whether they owned upvalues and where the
      register stack ended when they were left; the block that each label was put in; and the jumps. */
  datatype History = History(ids: seq<BlockId>, next: BlockId, owned: map<BlockId, bool>, exitTop: map<BlockId, nat>,
                             placed: map<Target, BlockId>, records: seq<Record>)

  function RecordOutward(r: Record, depth: nat, top: nat, owned: bool): Record
    requires depth > 0
  {
    if r.status.Waiting? then r.(status := Waiting(Outward(r.status.p, depth, top, owned))) else r
  }

  function RecordResolve(r: Record, block: nat, t: Target, id: BlockId): Record {
    if r.status.Waiting? && Resolves(r.status.p, block, t.lab)
    then r.(status := Resolved(t, id, if r.status.p.blockIndex < |r.path| then r.path[r.status.p.blockIndex + 1..] else [], true))
    else r
  }

  function AllOutward(rs: seq<Record>, depth: nat, top: nat, owned: bool): (r: seq<Record>)
    requires depth > 0
    ensures |r| == |rs| && forall i :: 0 <= i < |rs| ==> r[i] == RecordOutward(rs[i], depth, top, owned)
  {
    seq(|rs|, i requires 0 <= i < |rs| => RecordOutward(rs[i], depth, top, owned))
  }

  function AllResolve(rs: seq<Record>, block: nat, t: Target, id: BlockId): (r: seq<Record>)
    ensures |r| == |rs| && forall i :: 0 <= i < |rs| ==> r[i] == RecordResolve(rs[i], block, t, id)
  {
    seq(|rs|, i requires 0 <= i < |rs| => RecordResolve(rs[i], block, t, id))
  }

  /** The history after an event that the compiler accepts. */
  function Remember(s: State, h: History, e: Event): History
    requires |h.ids| == |s.blocks| > 0
  {
    match e
    case Enter => h.(ids := h.ids + [h.next], next := h.next + 1)
    case Exit(top) =>
      var n := |h.ids| - 1;
      var id, owned := h.ids[n], s.blocks[n].ownsUpvalues;
      h.(ids := h.ids[..n], owned := h.owned[id := owned], exitTop := h.exitTop[id := top],
         records := if n > 0 then AllOutward(h.records, n, top, owned) else h.records)
    case GoTo(lab) =>
      var found := FindTarget(s.targets, lab);
      var status := match found
        case None => Waiting(Pending(lab, |s.ops|, |s.blocks| - 1, s.top, false))
        case Some(t) => Resolved(t, if t in h.placed then h.placed[t] else 0, if t.blockIndex < |h.ids| then h.ids[t.blockIndex + 1..] else [], false);
      h.(records := h.records + [Record(|s.ops|, lab, h.ids, s.top, status)])
    case Place(lab) =>
      var t, id := Target(lab, |s.ops|, s.top, |s.blocks| - 1), h.ids[|h.ids| - 1];
      h.(placed := h.placed[t := id], records := AllResolve(h.records, |s.blocks| - 1, t, id))
    case _ => h
  }

  function WaitingOf(rs: seq<Record>): seq<Pending> {
    if rs == [] then []
    else (if rs[0].status.Waiting? then [rs[0].status.p] else []) + WaitingOf(rs[1..])
  }

  // What is true of a record.

  /** The open blocks around the jump are the first ones of its path, and the others have been left. The
      jump closes upvalues if one of them owned any, and its stack top is the one behind the last of them. */
  ghost predicate WaitingOk(r: Record, p: Pending, ops: seq<Op>, h: History) {
    && p.instruction == r.instruction && p.lab == r.lab && r.instruction < |ops| && ops[r.instruction] == PLACEHOLDER
    && p.blockIndex < |h.ids| && p.blockIndex < |r.path| && r.path[..p.blockIndex + 1] == h.ids[..p.blockIndex + 1]
    && LeftOk(r, r.path[p.blockIndex + 1..], p.close, p.stackTop, h)
  }

  ghost predicate LeftOk(r: Record, left: seq<BlockId>, close: bool, top: nat, h: History) {
    && (forall id :: id in left ==> id in h.owned && id in h.exitTop)
    && (close <==> exists id :: id in left && h.owned[id])
    && top == if left == [] then r.top else h.exitTop[left[0]]
  }

  /** The jump leads to its label, which was put in a block around it. A forward jump closes the upvalues from
      the label's stack top on exactly if a block that it leaves owned some, and keeps its stack top. */
  ghost predicate ResolvedOk(r: Record, t: Target, block: BlockId, left: seq<BlockId>, forward: bool, ops: seq<Op>, h: History) {
    && r.instruction < |ops| && ops[r.instruction].JumpOp? && t.lab == r.lab && t.instruction <= |ops|
    && AddOffset(r.instruction + 1, ops[r.instruction].offset) == Some(t.instruction)
    && t.blockIndex < |r.path| && block == r.path[t.blockIndex] && left == r.path[t.blockIndex + 1..]
    && var close := ops[r.instruction].close;
    && if forward then
         && t.instruction > r.instruction
         && close in {None, Some(t.stackTop)} && LeftOk(r, left, close.Some?, t.stackTop, h)
       else
         t.instruction <= r.instruction && t.stackTop <= r.top && (close.Some? ==> close.value == t.stackTop < r.top)
  }

  ghost predicate RecordOk(r: Record, ops: seq<Op>, h: History) {
    match r.status
    case Waiting(p) => WaitingOk(r, p, ops, h)
    case Resolved(t, block, left, forward) => ResolvedOk(r, t, block, left, forward, ops, h)
  }

  ghost predicate IdsOk(h: History) {
    && (forall i, j :: 0 <= i < j < |h.ids| ==> h.ids[i] < h.ids[j])
    && (forall i :: 0 <= i < |h.ids| ==> h.ids[i] < h.next && h.ids[i] !in h.owned)
    && h.owned.Keys == h.exitTop.Keys && (forall id :: id in h.owned ==> id < h.next)
  }

  /** The labels of a block are those from its first label on, up to those of the next block. */
  ghost predicate TargetsOk(s: State) {
    && (forall t :: t in s.targets ==> t.blockIndex < |s.blocks| && t.instruction <= |s.ops|)
    && (forall b :: 0 <= b < |s.blocks| ==> s.blocks[b].bottomTarget <= |s.targets|)
    && (forall b, i :: 0 <= b < |s.blocks| && 0 <= i < |s.targets| ==>
         (s.targets[i].blockIndex >= b <==> i >= s.blocks[b].bottomTarget))
  }

  ghost predicate PlacedOk(s: State, h: History) {
    forall t :: t in s.targets ==> t.blockIndex < |h.ids| && t in h.placed && h.placed[t] == h.ids[t.blockIndex]
  }

  ghost predicate ByBlock(ps: seq<Pending>) {
    forall i, j :: 0 <= i < j < |ps| ==> ps[i].blockIndex <= ps[j].blockIndex
  }

  ghost predicate RecordsOk(h: History, ops: seq<Op>) {
    && (forall i :: 0 <= i < |h.records| ==> RecordOk(h.records[i], ops, h))
    && forall i, j :: 0 <= i < j < |h.records| ==> h.records[i].instruction < h.records[j].instruction
  }

  ghost predicate Inv(s: State, h: History) {
    && |h.ids| == |s.blocks| > 0 && IdsOk(h) && TargetsOk(s) && PlacedOk(s, h)
    && s.pending == WaitingOf(h.records) && ByBlock(s.pending) && RecordsOk(h, s.ops)
  }

  // Waiting records and pending jumps.

  lemma {:induction false} WaitingAppend(rs: seq<Record>, r: Record)
    ensures WaitingOf(rs + [r]) == WaitingOf(rs) + if r.status.Waiting? then [r.status.p] else []
  {
    if rs == [] {
      assert rs + [r] == [r];
    } else {
      assert (rs + [r])[1..] == rs[1..] + [r];
      WaitingAppend(rs[1..], r);
    }
  }

  lemma {:induction false} WaitingOutward(rs: seq<Record>, depth: nat, top: nat, owned: bool)
    requires depth > 0
    ensures WaitingOf(AllOutward(rs, depth, top, owned)) == MapOutward(WaitingOf(rs), depth, top, owned)
  {
    if rs != [] {
      WaitingOutward(rs[1..], depth, top, owned);
      assert AllOutward(rs, depth, top, owned)[1..] == AllOutward(rs[1..], depth, top, owned);
    }
  }

  lemma {:induction false} WaitingResolve(rs: seq<Record>, block: nat, t: Target, id: BlockId)
    ensures WaitingOf(AllResolve(rs, block, t, id)) == Remaining(WaitingOf(rs), block, t.lab)
  {
    if rs != [] {
      WaitingResolve(rs[1..], block, t, id);
      assert AllResolve(rs, block, t, id)[1..] == AllResolve(rs[1..], block, t, id);
      var tail := WaitingOf(rs[1..]);
      if rs[0].status.Waiting? {
        assert WaitingOf(rs)[0] == rs[0].status.p && WaitingOf(rs)[1..] == tail;
      } else {
        assert WaitingOf(rs) == tail;
      }
    }
  }

  lemma {:induction false} WaitingIsPending(rs: seq<Record>, i: nat)
    requires i < |rs| && rs[i].status.Waiting?
    ensures rs[i].status.p in WaitingOf(rs)
  {
    if i > 0 {
      WaitingIsPending(rs[1..], i - 1);
    }
  }

  lemma {:induction false} PendingIsWaiting(rs: seq<Record>, p: Pending) returns (i: nat)
    requires p in WaitingOf(rs)
    ensures i < |rs| && rs[i].status == Waiting(p)
  {
    if rs[0].status == Waiting(p) {
      i := 0;
    } else {
      i := PendingIsWaiting(rs[1..], p);
      i := i + 1;
    }
  }

  /** Pending jumps are in the order of their instructions. */
  lemma {:induction false} PendingIncrease(rs: seq<Record>, ops: seq<Op>, h: History)
    requires forall i :: 0 <= i < |rs| ==> RecordOk(rs[i], ops, h)
    requires forall i, j :: 0 <= i < j < |rs| ==> rs[i].instruction < rs[j].instruction
    ensures Placeholders(ops, WaitingOf(rs))
  {
    if rs != [] {
      PendingIncrease(rs[1..], ops, h);
      if rs[0].status.Waiting? {
        var ps := WaitingOf(rs[1..]);
        forall q | q in ps ensures rs[0].instruction < q.instruction {
          var k := PendingIsWaiting(rs[1..], q);
          assert rs[1..][k] == rs[k + 1] && RecordOk(rs[k + 1], ops, h);
        }
        assert RecordOk(rs[0], ops, h);
      }
    }
  }

  /** Different jumps, each still a placeholder. */
  ghost predicate Placeholders(ops: seq<Op>, ps: seq<Pending>) {
    && (forall i :: 0 <= i < |ps| ==> ps[i].instruction < |ops| && ops[ps[i].instruction] == PLACEHOLDER)
    && forall i, j :: 0 <= i < j < |ps| ==> ps[i].instruction < ps[j].instruction
  }

  lemma {:induction false} ResolvingPlaceholders(ops: seq<Op>, ps: seq<Pending>, block: nat, lab: Label)
    requires Placeholders(ops, ps)
    ensures Placeholders(ops, Resolving(ps, block, lab))
    ensures forall q :: q in Resolving(ps, block, lab) <==> q in ps && Resolves(q, block, lab)
  {
    if ps != [] {
      ResolvingPlaceholders(ops, ps[1..], block, lab);
      assert ps == [ps[0]] + ps[1..];
      var tail := Resolving(ps[1..], block, lab);
      forall i | 0 <= i < |tail| ensures ps[0].instruction < tail[i].instruction {
        assert tail[i] in ps[1..];
      }
    }
  }

  /** What patching does: each of the jumps gets its offset, and closes upvalues if it has to; everything
      else stays. It does not run into a jump that is no placeholder. */
  lemma {:induction false} PatchEffect(ops: seq<Op>, ps: seq<Pending>, target: nat, top: nat)
    requires Placeholders(ops, ps)
    ensures PatchAll(ops, ps, target, top) != Broken(NotPlaceholder)
    ensures PatchAll(ops, ps, target, top).Ok? ==>
              var r := PatchAll(ops, ps, target, top).ops;
              && |r| == |ops|
              && (forall i :: 0 <= i < |ops| && (forall p :: p in ps ==> p.instruction != i) ==> r[i] == ops[i])
              && forall p :: p in ps ==>
                   p.stackTop == top && JumpOffset(p.instruction, target).Some?
                   && r[p.instruction] == JumpOp(JumpOffset(p.instruction, target).value, if p.close then Some(top) else None)
    decreases |ps|
  {
    if ps != [] && ps[0].stackTop == top && JumpOffset(ps[0].instruction, target).Some? {
      var p := ps[0];
      var next := ops[p.instruction := JumpOp(JumpOffset(p.instruction, target).value, if p.close then Some(top) else None)];
      assert Placeholders(next, ps[1..]);
      assert forall q :: q in ps <==> q == p || q in ps[1..] by {
        assert ps == [p] + ps[1..];
      }
      assert forall q :: q in ps[1..] ==> q.instruction != p.instruction;
      hide Placeholders;
      PatchEffect(next, ps[1..], target, top);
    }
  }
}
