/** Code with open jumps as the compiler keeps it: placeholders among the operations, and a list that says
    where they are. */
module Patching {
  import opened Values
  import opened Codegen
  import opened StatementCodegen
  import M = Machine

  datatype PendingJump = PendingJump(instruction: nat, target: Label)

  /** The operations of items; an open jump is a placeholder. */
  ghost function OpsOf(items: seq<Item>): (r: seq<M.Operation>)
    ensures |r| == |items|
    ensures forall i :: 0 <= i < |items| ==> r[i] == if items[i].Emit? then items[i].op else NoClose(0)
  {
    seq(|items|, i requires 0 <= i < |items| => if items[i].Emit? then items[i].op else NoClose(0))
  }

  /** The open jumps of items whose code begins at `base`. */
  ghost function PendOf(items: seq<Item>, base: nat): seq<PendingJump> {
    if items == [] then []
    else (if items[0].Goto? then [PendingJump(base, items[0].target)] else []) + PendOf(items[1..], base + 1)
  }

  lemma OpsConcat(a: seq<Item>, b: seq<Item>)
    ensures OpsOf(a + b) == OpsOf(a) + OpsOf(b)
  {
  }

  lemma OpsEmitted(ops: seq<M.Operation>)
    ensures OpsOf(Emits(ops)) == ops
  {
  }

  lemma PendFirst(items: seq<Item>, base: nat)
    requires items != []
    ensures PendOf(items, base) == FirstJump(items[0], base) + PendOf(items[1..], base + 1)
  {
  }

  lemma PendBoth(a: seq<Item>, b: seq<Item>, base: nat)
    requires a != []
    ensures PendOf(a + b, base) == FirstJump(a[0], base) + PendOf(a[1..] + b, base + 1)
  {
    assert (a + b)[1..] == a[1..] + b && (a + b)[0] == a[0];
    PendFirst(a + b, base);
  }

  ghost function FirstJump(item: Item, base: nat): seq<PendingJump> {
    if item.Goto? then [PendingJump(base, item.target)] else []
  }

  lemma {:induction false} PendConcat(a: seq<Item>, b: seq<Item>, base: nat)
    ensures PendOf(a + b, base) == PendOf(a, base) + PendOf(b, base + |a|)
  {
    if a == [] {
      assert a + b == b;
    } else {
      PendConcat(a[1..], b, base + 1);
      PendFirst(a, base);
      PendBoth(a, b, base);
      hide PendOf;
    }
  }

  lemma {:induction false} PendEmitted(ops: seq<M.Operation>, base: nat)
    ensures PendOf(Emits(ops), base) == []
  {
    if ops != [] {
      assert Emits(ops)[1..] == Emits(ops[1..]);
      PendEmitted(ops[1..], base + 1);
    }
  }

  lemma {:induction false} PendWithin(items: seq<Item>, base: nat)
    ensures forall i :: 0 <= i < |PendOf(items, base)| ==> base <= PendOf(items, base)[i].instruction < base + |items|
  {
    if items != [] {
      PendWithin(items[1..], base + 1);
    }
  }

  predicate Reaches(instruction: nat, target: nat) {
    -MAX_I16 <= target - (instruction + 1) <= MAX_I16
  }

  /** Patching the pending jumps to a label, one after the other. */
  function PatchPending(ops: seq<M.Operation>, ps: seq<PendingJump>, lbl: Label, target: nat): (r: Option<seq<M.Operation>>)
    ensures r.Some? ==> |r.value| == |ops|
    decreases |ps|
  {
    if ps == [] then Some(ops)
    else if ps[0].target != lbl then PatchPending(ops, ps[1..], lbl, target)
    else if ps[0].instruction >= |ops| || !Reaches(ps[0].instruction, target) then None
    else PatchPending(ops[ps[0].instruction := NoClose(target - (ps[0].instruction + 1))], ps[1..], lbl, target)
  }

  function Others(ps: seq<PendingJump>, lbl: Label): seq<PendingJump> {
    if ps == [] then []
    else (if ps[0].target == lbl then [] else [ps[0]]) + Others(ps[1..], lbl)
  }

  /** `Patch` with the code beginning behind other code. */
  ghost function PatchTo(items: seq<Item>, lbl: Label, base: nat, target: nat): (r: seq<Item>)
    ensures |r| == |items|
    ensures forall i :: 0 <= i < |items| ==>
              r[i] == if items[i] == Goto(lbl) then Emit(NoClose(target - (base + i + 1))) else items[i]
  {
    seq(|items|, i requires 0 <= i < |items| => if items[i] == Goto(lbl) then Emit(NoClose(target - (base + i + 1))) else items[i])
  }

  ghost predicate AllReach(items: seq<Item>, lbl: Label, base: nat, target: nat) {
    forall i :: 0 <= i < |items| && items[i] == Goto(lbl) ==> Reaches(base + i, target)
  }

  lemma AllReachTail(items: seq<Item>, lbl: Label, base: nat, target: nat)
    requires items != []
    ensures AllReach(items, lbl, base, target)
            <==> (items[0] == Goto(lbl) ==> Reaches(base, target)) && AllReach(items[1..], lbl, base + 1, target)
  {
    if AllReach(items[1..], lbl, base + 1, target) && (items[0] == Goto(lbl) ==> Reaches(base, target)) {
      forall i | 0 <= i < |items| && items[i] == Goto(lbl) ensures Reaches(base + i, target) {
        if i > 0 {
          assert items[1..][i - 1] == items[i];
          assert Reaches(base + 1 + (i - 1), target);
        }
      }
    }
    if AllReach(items, lbl, base, target) {
      assert items[0] == Goto(lbl) ==> Reaches(base + 0, target);
      forall i | 0 <= i < |items[1..]| && items[1..][i] == Goto(lbl) ensures Reaches(base + 1 + i, target) {
        assert items[i + 1] == items[1..][i] && Reaches(base + (i + 1), target);
      }
    }
  }

  function Op(item: Item): M.Operation {
    if item.Emit? then item.op else NoClose(0)
  }

  lemma PatchedSplit(before: seq<M.Operation>, items: seq<Item>, lbl: Label, target: nat)
    requires items != []
    ensures var patched := PatchTo(items, lbl, |before|, target);
            patched[1..] == PatchTo(items[1..], lbl, |before| + 1, target)
            && before + OpsOf(patched) == before + [Op(patched[0])] + OpsOf(patched[1..])
            && Op(patched[0]) == if items[0] == Goto(lbl) then NoClose(target - (|before| + 1)) else OpsOf(items)[0]
  {
  }

  /** Patching the list patches the items, and fails when one of them cannot reach the target. */
  lemma {:induction false} PatchesItems(before: seq<M.Operation>, items: seq<Item>, lbl: Label, target: nat)
    ensures PatchPending(before + OpsOf(items), PendOf(items, |before|), lbl, target)
            == if AllReach(items, lbl, |before|, target) then Some(before + OpsOf(PatchTo(items, lbl, |before|, target))) else None
    decreases |items|
  {
    if items != [] {
      hide PatchPending, AllReach, Reaches, OpsOf, PatchTo, PendOf;
      var patched := PatchTo(items, lbl, |before|, target);
      PatchedSplit(before, items, lbl, target);
      PatchStep(before, items, lbl, target, Op(patched[0]));
      AllReachTail(items, lbl, |before|, target);
      PatchesItems(before + [Op(patched[0])], items[1..], lbl, target);
    }
  }

  /** The jumps to other labels stay pending. */
  lemma {:induction false} OthersStay(items: seq<Item>, lbl: Label, base: nat, target: nat)
    ensures Others(PendOf(items, base), lbl) == PendOf(PatchTo(items, lbl, base, target), base)
    decreases |items|
  {
    if items != [] {
      OthersStep(items, base, lbl);
      OthersStay(items[1..], lbl, base + 1, target);
      var patched := PatchTo(items, lbl, base, target);
      assert patched[1..] == PatchTo(items[1..], lbl, base + 1, target);
    }
  }

  lemma PatchStep(before: seq<M.Operation>, items: seq<Item>, lbl: Label, target: nat, op: M.Operation)
    requires items != []
    requires op == if items[0] == Goto(lbl) then NoClose(target - (|before| + 1)) else OpsOf(items)[0]
    ensures PatchPending(before + OpsOf(items), PendOf(items, |before|), lbl, target)
            == if items[0] == Goto(lbl) && !Reaches(|before|, target) then None
               else PatchPending(before + [op] + OpsOf(items[1..]), PendOf(items[1..], |before| + 1), lbl, target)
  {
    var ps, rest := PendOf(items, |before|), PendOf(items[1..], |before| + 1);
    var ops := before + OpsOf(items);
    assert ops == before + [OpsOf(items)[0]] + OpsOf(items[1..]);
    if items[0].Goto? {
      assert ps[0] == PendingJump(|before|, items[0].target) && ps[1..] == rest;
      assert ops[|before| := op] == before + [op] + OpsOf(items[1..]);
      hide PendOf, OpsOf;
    } else {
      assert ps == rest;
    }
  }

  lemma OthersStep(items: seq<Item>, base: nat, lbl: Label)
    requires items != []
    ensures Others(PendOf(items, base), lbl)
            == (if items[0].Goto? && items[0].target != lbl then [PendingJump(base, items[0].target)] else [])
               + Others(PendOf(items[1..], base + 1), lbl)
  {
    var ps, rest := PendOf(items, base), PendOf(items[1..], base + 1);
    if items[0].Goto? {
      assert ps[0] == PendingJump(base, items[0].target) && ps[1..] == rest;
    } else {
      assert ps == rest;
    }
  }

  lemma {:induction false} OthersConcat(a: seq<PendingJump>, b: seq<PendingJump>, lbl: Label)
    ensures Others(a + b, lbl) == Others(a, lbl) + Others(b, lbl)
  {
    if a == [] {
      assert a + b == b;
    } else {
      assert (a + b)[1..] == a[1..] + b;
      OthersConcat(a[1..], b, lbl);
    }
  }

  /** Reaching the end of the items, seen from the whole code or from theirs. */
  lemma PatchEndAt(items: seq<Item>, lbl: Label, base: nat)
    ensures PatchTo(items, lbl, base, base + |items|) == Patch(items, lbl, |items|)
    ensures InReach(items, lbl, |items|) <==> AllReach(items, lbl, base, base + |items|)
  {
    if AllReach(items, lbl, base, base + |items|) {
      forall i | 0 <= i < |items| && items[i] == Goto(lbl) ensures -MAX_I16 <= |items| - (i + 1) <= MAX_I16 {
        assert Reaches(base + i, base + |items|);
      }
    }
  }

  /** Code and pending jumps have grown by those of items. */
  ghost predicate Adds(ops: seq<M.Operation>, ps: seq<PendingJump>, items: seq<Item>, ops': seq<M.Operation>, ps': seq<PendingJump>) {
    ops' == ops + OpsOf(items) && ps' == ps + PendOf(items, |ops|)
  }

  lemma AddsNothing(ops: seq<M.Operation>, ps: seq<PendingJump>)
    ensures Adds(ops, ps, [], ops, ps)
  {
  }

  lemma AddsThen(ops: seq<M.Operation>, ps: seq<PendingJump>, a: seq<Item>, ops1: seq<M.Operation>, ps1: seq<PendingJump>,
                 b: seq<Item>, ops2: seq<M.Operation>, ps2: seq<PendingJump>)
    requires Adds(ops, ps, a, ops1, ps1) && Adds(ops1, ps1, b, ops2, ps2)
    ensures Adds(ops, ps, a + b, ops2, ps2)
  {
    OpsConcat(a, b);
    PendConcat(a, b, |ops|);
  }

  lemma AddsEmitted(ops: seq<M.Operation>, ps: seq<PendingJump>, code: seq<M.Operation>)
    ensures Adds(ops, ps, Emits(code), ops + code, ps)
  {
    OpsEmitted(code);
    PendEmitted(code, |ops|);
  }

  lemma AddsGoto(ops: seq<M.Operation>, ps: seq<PendingJump>, lbl: Label)
    ensures Adds(ops, ps, [Goto(lbl)], ops + [NoClose(0)], ps + [PendingJump(|ops|, lbl)])
  {
    assert OpsOf([Goto(lbl)]) == [NoClose(0)];
  }

  /** A placeholder that is no pending jump is patched in place. */
  lemma AddsPatched(ops: seq<M.Operation>, ps: seq<PendingJump>, a: seq<Item>, op: M.Operation, b: seq<Item>,
                    ops': seq<M.Operation>, ps': seq<PendingJump>, op': M.Operation)
    requires Adds(ops, ps, a + [Emit(op)] + b, ops', ps')
    ensures |ops| + |a| < |ops'| && Adds(ops, ps, a + [Emit(op')] + b, ops'[|ops| + |a| := op'], ps')
  {
    var items, items' := a + [Emit(op)] + b, a + [Emit(op')] + b;
    OpsConcat(a + [Emit(op)], b);
    OpsConcat(a + [Emit(op')], b);
    OpsConcat(a, [Emit(op)]);
    OpsConcat(a, [Emit(op')]);
    assert OpsOf([Emit(op)]) == [op] && OpsOf([Emit(op')]) == [op'];
    PendConcat(a + [Emit(op)], b, |ops|);
    PendConcat(a + [Emit(op')], b, |ops|);
    PendConcat(a, [Emit(op)], |ops|);
    PendConcat(a, [Emit(op')], |ops|);
    hide OpsOf, PendOf;
    assert ops' == ops + OpsOf(a) + [op] + OpsOf(b);
  }

  /** Pending jumps are within the code. */
  lemma AddsWithin(ops: seq<M.Operation>, ps: seq<PendingJump>, items: seq<Item>, ops': seq<M.Operation>, ps': seq<PendingJump>)
    requires Adds(ops, ps, items, ops', ps') && forall i :: 0 <= i < |ps| ==> ps[i].instruction < |ops|
    ensures forall i :: 0 <= i < |ps'| ==> ps'[i].instruction < |ops'|
    ensures |ops'| == |ops| + |items|
  {
    PendWithin(items, |ops|);
  }
}
