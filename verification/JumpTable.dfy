/** The blocks, labels and jumps of a function under compilation as fields that are updated in place, as in
    compiler.rs. The methods are proved against the functions in `Jumps`. */
module JumpTables {
  import opened Values
  import J = Jumps
  import H = JumpHistory

  class JumpTable {
    var operations: seq<J.Op>
    var blocks: seq<J.Block>
    var jumpTargets: seq<J.Target>
    var pendingJumps: seq<J.Pending>
    var stackTop: nat

    function Value(): J.State
      reads this
    {
      J.State(operations, blocks, jumpTargets, pendingJumps, stackTop)
    }

    constructor ()
      ensures Value() == J.State([], [], [], [], 0)
    {
      operations, blocks, jumpTargets, pendingJumps, stackTop := [], [], [], [], 0;
    }

    method EnterBlock()
      modifies this`blocks
      ensures Value() == J.EnterBlock(old(Value()))
    {
      blocks := blocks + [J.Block(stackTop, |jumpTargets|, false)];
    }

    /** Pending jumps are looked at from the last one back, up to one of an outer block: they are ordered by block. */
    method ExitBlock(top: nat) returns (failed: Option<J.CompileError>)
      requires blocks != [] && H.ByBlock(pendingJumps) && blocks[|blocks| - 1].bottomTarget <= |jumpTargets|
      requires !J.ExitBlock(Value(), top).Panics?
      modifies this
      ensures J.ExitBlock(old(Value()), top) == if failed.Some? then J.Fails(failed.value) else J.Next(Value())
    {
      var last := blocks[|blocks| - 1];
      blocks := blocks[..|blocks| - 1];
      stackTop := top;
      jumpTargets := jumpTargets[..last.bottomTarget];
      if last.ownsUpvalues && blocks != [] {
        var close := J.CloseAt(last.stackBottom);
        if close.None? {
          return Some(J.Registers);
        }
        operations := operations + [J.JumpOp(0, close.value)];
      }
      if blocks != [] {
        MoveOutward(top, last.ownsUpvalues);
      }
      return None;
    }

    method MoveOutward(top: nat, owned: bool)
      requires blocks != [] && H.ByBlock(pendingJumps)
      modifies this`pendingJumps
      ensures pendingJumps == J.MapOutward(old(pendingJumps), |blocks|, top, owned)
    {
      ghost var was := pendingJumps;
      var i := |pendingJumps|;
      while i > 0
        invariant 0 <= i <= |was| == |pendingJumps|
        invariant forall k :: 0 <= k < |was| ==> pendingJumps[k] == if k < i then was[k] else J.Outward(was[k], |blocks|, top, owned)
      {
        var p := pendingJumps[i - 1];
        if p.blockIndex < |blocks| {
          break;
        }
        i := i - 1;
        pendingJumps := pendingJumps[i := p.(blockIndex := |blocks| - 1, stackTop := top, close := p.close || owned)];
      }
      assert forall k :: 0 <= k < i ==> J.Outward(was[k], |blocks|, top, owned) == was[k] by {
        assert forall k :: 0 <= k < i ==> was[k].blockIndex <= was[i - 1].blockIndex;
      }
    }

    method FindTarget(lab: J.Label) returns (found: Option<J.Target>)
      ensures found == J.FindTarget(jumpTargets, lab)
    {
      var i := |jumpTargets|;
      assert jumpTargets[..i] == jumpTargets;
      while i > 0
        invariant 0 <= i <= |jumpTargets|
        invariant J.FindTarget(jumpTargets[..i], lab) == J.FindTarget(jumpTargets, lab)
      {
        assert jumpTargets[..i][..i - 1] == jumpTargets[..i - 1];
        i := i - 1;
        if jumpTargets[i].lab == lab {
          return Some(jumpTargets[i]);
        }
      }
      return None;
    }

    method AnyOwner(first: nat) returns (any: bool)
      ensures any <==> exists b :: first <= b < |blocks| && blocks[b].ownsUpvalues
    {
      var b := first;
      while b < |blocks|
        invariant forall k :: first <= k < b && k < |blocks| ==> !blocks[k].ownsUpvalues
        decreases |blocks| - b
      {
        if blocks[b].ownsUpvalues {
          return true;
        }
        b := b + 1;
      }
      return false;
    }

    method Jump(lab: J.Label) returns (failed: Option<J.CompileError>)
      requires !J.JumpTo(Value(), lab).Panics?
      modifies this
      ensures J.JumpTo(old(Value()), lab) == if failed.Some? then J.Fails(failed.value) else J.Next(Value())
    {
      var here, block := |operations|, |blocks| - 1;
      var found := FindTarget(lab);
      match found {
        case None =>
          operations := operations + [J.PLACEHOLDER];
          pendingJumps := pendingJumps + [J.Pending(lab, here, block, stackTop, false)];
        case Some(t) =>
          var owner := AnyOwner(t.blockIndex);
          var closes := t.stackTop < stackTop && owner;
          assert closes == (t.stackTop < stackTop && exists b :: t.blockIndex <= b <= block && blocks[b].ownsUpvalues);
          var offset := J.JumpOffset(here, t.instruction);
          if offset.None? {
            return Some(J.JumpOverflow);
          }
          if closes && J.CloseAt(t.stackTop).None? {
            return Some(J.Registers);
          }
          operations := operations + [J.JumpOp(offset.value, if closes then Some(t.stackTop) else None)];
      }
      return None;
    }

    method IsDuplicate(block: nat, lab: J.Label) returns (found: bool)
      ensures found == J.HasLabel(jumpTargets, block, lab)
    {
      var i := |jumpTargets|;
      assert jumpTargets[..i] == jumpTargets;
      while i > 0
        invariant 0 <= i <= |jumpTargets|
        invariant J.HasLabel(jumpTargets[..i], block, lab) == J.HasLabel(jumpTargets, block, lab)
      {
        assert jumpTargets[..i][..i - 1] == jumpTargets[..i - 1];
        i := i - 1;
        if jumpTargets[i].blockIndex < block {
          return false;
        } else if jumpTargets[i].lab == lab {
          return true;
        }
      }
      return false;
    }

    /** Takes the jumps that the new label resolves out of the pending ones. */
    method Retain(block: nat, lab: J.Label) returns (resolving: seq<J.Pending>)
      modifies this`pendingJumps
      ensures resolving == J.Resolving(old(pendingJumps), block, lab)
      ensures pendingJumps == J.Remaining(old(pendingJumps), block, lab)
    {
      var all, kept := pendingJumps, [];
      resolving := [];
      var i := 0;
      while i < |all|
        invariant 0 <= i <= |all|
        invariant resolving == J.Resolving(all[..i], block, lab) && kept == J.Remaining(all[..i], block, lab)
      {
        SplitLast(all[..i], all[i], block, lab);
        assert all[..i + 1] == all[..i] + [all[i]];
        if J.Resolves(all[i], block, lab) {
          resolving := resolving + [all[i]];
        } else {
          kept := kept + [all[i]];
        }
        i := i + 1;
      }
      assert all[..i] == all;
      pendingJumps := kept;
    }

    static lemma {:induction false} SplitLast(ps: seq<J.Pending>, p: J.Pending, block: nat, lab: J.Label)
      ensures J.Resolving(ps + [p], block, lab) == J.Resolving(ps, block, lab) + if J.Resolves(p, block, lab) then [p] else []
      ensures J.Remaining(ps + [p], block, lab) == J.Remaining(ps, block, lab) + if J.Resolves(p, block, lab) then [] else [p]
    {
      if ps == [] {
        assert ps + [p] == [p];
      } else {
        assert (ps + [p])[1..] == ps[1..] + [p];
        SplitLast(ps[1..], p, block, lab);
      }
    }

    method Patch(resolving: seq<J.Pending>, target: nat) returns (failed: Option<J.CompileError>)
      requires !J.PatchAll(operations, resolving, target, stackTop).Broken?
      modifies this`operations
      ensures J.PatchAll(old(operations), resolving, target, stackTop)
              == if failed.Some? then J.Bad(failed.value) else J.Ok(operations)
    {
      var i := 0;
      while i < |resolving|
        invariant 0 <= i <= |resolving|
        invariant J.PatchAll(operations, resolving[i..], target, stackTop) == J.PatchAll(old(operations), resolving, target, stackTop)
      {
        var p := resolving[i];
        assert resolving[i..][1..] == resolving[i + 1..];
        if p.stackTop < stackTop {
          return Some(J.JumpLocal);
        }
        var offset := J.JumpOffset(p.instruction, target);
        if offset.None? {
          return Some(J.JumpOverflow);
        }
        if p.close && J.CloseAt(stackTop).None? {
          return Some(J.Registers);
        }
        operations := operations[p.instruction := J.JumpOp(offset.value, if p.close then Some(stackTop) else None)];
        i := i + 1;
      }
      return None;
    }

    method JumpTarget(lab: J.Label) returns (failed: Option<J.CompileError>)
      requires !J.JumpTarget(Value(), lab).Panics?
      modifies this
      ensures J.JumpTarget(old(Value()), lab) == if failed.Some? then J.Fails(failed.value) else J.Next(Value())
    {
      var here, block := |operations|, |blocks| - 1;
      var duplicate := IsDuplicate(block, lab);
      if duplicate {
        return Some(J.DuplicateLabel);
      }
      jumpTargets := jumpTargets + [J.Target(lab, here, stackTop, block)];
      var resolving := Retain(block, lab);
      failed := Patch(resolving, here);
    }
  }
}
