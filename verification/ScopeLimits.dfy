/** When a variable cannot be used for lack of upvalues: a function has at most 256. */
module ScopeLimits {
  import opened Values
  import opened Scopes
  import opened ScopeTheorems

  /** The function at `k` gets a new upvalue for the name: neither it nor a function within it knows the name, and a function
      around it declares it. */
  ghost predicate NeedsOne(fns: seq<Function>, k: nat, name: string) {
    k < |fns| && Unknown(fns, k, |fns|, name) && Visible(fns[..k], name) != Nowhere
  }

  ghost predicate NoRoom(fns: seq<Function>, name: string) {
    exists k: nat :: NeedsOne(fns, k, name) && |fns[k].upvalues| == 256
  }

  predicate Counted(fns: seq<Function>) {
    forall k :: 0 <= k < |fns| ==> |fns[k].upvalues| <= 256
  }

  /** Handing down fails exactly if a function on the way is full, and leaves none with too many. */
  lemma {:induction false} HandDownFits(fns: seq<Function>, depth: nat, name: string, d: Descriptor)
    requires depth < |fns| && Counted(fns)
    ensures HandDown(fns, depth, name, d).None? <==> exists k :: depth <= k < |fns| && |fns[k].upvalues| == 256
    ensures HandDown(fns, depth, name, d).Some? ==> Counted(HandDown(fns, depth, name, d).value.0)
    decreases |fns| - depth
  {
    if |fns[depth].upvalues| < 256 && depth < |fns| - 1 {
      var next := fns[depth := PushUpValue(fns[depth], name, d)];
      HandDownFits(next, depth + 1, name, Outer(|fns[depth].upvalues|));
      assert forall k :: depth < k < |fns| ==> next[k] == fns[k];
    }
  }

  /** Functions inside of the one that knows the name, and no others. */
  lemma NeededBelow(fns: seq<Function>, depth: nat, name: string)
    requires depth <= |fns| && Unknown(fns, depth, |fns|, name) && Visible(fns[..depth], name) != Nowhere
    requires depth > 0 ==> !UnknownTo(fns[depth - 1], name)
    ensures forall k: nat :: NeedsOne(fns, k, name) <==> depth <= k < |fns|
    ensures NoRoom(fns, name) <==> exists k :: depth <= k < |fns| && |fns[k].upvalues| == 256
  {
    forall k: nat | depth <= k < |fns| ensures NeedsOne(fns, k, name) {
      VisibleThrough(fns, depth, k, name);
    }
    if exists k :: depth <= k < |fns| && |fns[k].upvalues| == 256 {
      var k :| depth <= k < |fns| && |fns[k].upvalues| == 256;
      assert NeedsOne(fns, k, name);
    }
  }

  lemma NoneNeeded(fns: seq<Function>, name: string)
    requires Unknown(fns, 0, |fns|, name) && name != ENV
    ensures forall k: nat :: !NeedsOne(fns, k, name)
  {
    forall k: nat | k < |fns| ensures Visible(fns[..k], name) == Nowhere {
      VisibleThrough(fns, 0, k, name);
      assert fns[..0] == [];
    }
  }

  /** A variable is found exactly if none of the functions that need a new upvalue for it has 256 already. */
  lemma FoundUnlessFull(fns: seq<Function>, name: string)
    requires UpValuesOk(fns) && fns != [] && Counted(fns)
    ensures FindVariable(fns, name).None? <==> NoRoom(fns, name)
    ensures FindVariable(fns, name).Some? ==> Counted(FindVariable(fns, name).value.0)
  {
    SearchPasses(fns, |fns|, name);
    hide UpValuesOk, Unknown, Search, HandDown, Cells, NeedsOne;
    match Search(fns, |fns|, name) {
      case Miss => MissFits(fns, name);
      case EnvironmentHit => EnvironmentFits(fns, name);
      case UpHit(depth, index) => UpFits(fns, depth, index, name);
      case LocalHit(depth, r) => LocalFits(fns, depth, r, name);
    }
  }

  lemma MissFits(fns: seq<Function>, name: string)
    requires UpValuesOk(fns) && fns != [] && Unknown(fns, 0, |fns|, name) && (name == ENV ==> fns[0].upvalues != [])
    ensures !NoRoom(fns, name)
  {
    ChunkUpValues(fns);
    assert name != ENV by {
      assert UnknownTo(fns[0], name);
    }
    NoneNeeded(fns, name);
  }

  lemma EnvironmentFits(fns: seq<Function>, name: string)
    requires fns != [] && Counted(fns) && Unknown(fns, 0, |fns|, name) && name == ENV && fns[0].upvalues == []
    ensures var r := HandUp(fns[0 := PushUpValue(fns[0], name, Environment)], 0, 0, name);
            (r.None? <==> NoRoom(fns, name)) && (r.Some? ==> Counted(r.value.0))
  {
    var next := fns[0 := PushUpValue(fns[0], name, Environment)];
    assert Visible(fns[..0], name) == ChunkEnvironment;
    NeededBelow(fns, 0, name);
    hide Unknown, NeedsOne, NoRoom, HandDown;
    if |fns| > 1 {
      HandDownFits(next, 1, name, Outer(0));
      assert forall k :: 1 <= k < |fns| ==> next[k] == fns[k];
    }
  }

  lemma UpNeeded(fns: seq<Function>, depth: nat, index: nat, name: string)
    requires UpValuesOk(fns) && depth < |fns| && index < |fns[depth].upvalues| && fns[depth].upvalues[index].name == name
    requires FindLocal(fns[depth].locals, name).None? && Unknown(fns, depth + 1, |fns|, name)
    ensures NoRoom(fns, name) <==> exists k :: depth + 1 <= k < |fns| && |fns[k].upvalues| == 256
  {
    hide UpValuesOk, Visible, Cells, NoRoom, Unknown;
    UpHitVisible(fns, depth, index, name);
    assert fns[..|fns|] == fns && !UnknownTo(fns[depth], name);
    NeededBelow(fns, depth + 1, name);
  }

  lemma UpFits(fns: seq<Function>, depth: nat, index: nat, name: string)
    requires UpValuesOk(fns) && Counted(fns) && depth < |fns| && index < |fns[depth].upvalues| && fns[depth].upvalues[index].name == name
    requires FindLocal(fns[depth].locals, name).None? && Unknown(fns, depth + 1, |fns|, name)
    ensures var r := HandUp(fns, depth, index, name); (r.None? <==> NoRoom(fns, name)) && (r.Some? ==> Counted(r.value.0))
  {
    hide UpValuesOk, Unknown, FindLocal, NoRoom, HandDown;
    UpNeeded(fns, depth, index, name);
    if depth < |fns| - 1 {
      HandDownFits(fns, depth + 1, name, Outer(index));
    }
  }

  lemma LocalFits(fns: seq<Function>, depth: nat, r: nat, name: string)
    requires UpValuesOk(fns) && Counted(fns) && depth < |fns| && FindLocal(fns[depth].locals, name) == Some(r)
    requires Unknown(fns, depth + 1, |fns|, name) && Search(fns, |fns|, name) == LocalHit(depth, r)
    ensures var o := FindVariable(fns, name); (o.None? <==> NoRoom(fns, name)) && (o.Some? ==> Counted(o.value.0))
  {
    assert fns[..depth + 1][..depth] == fns[..depth] && Visible(fns[..depth + 1], name) == Register(depth, r);
    NeededBelow(fns, depth + 1, name);
    hide Unknown, NeedsOne, NoRoom, UpValuesOk, HandDown, Search, FindLocal, MarkOwner;
    if depth < |fns| - 1 {
      var marked := fns[depth := fns[depth].(blocks := MarkOwner(fns[depth].blocks, r))];
      HandDownFits(marked, depth + 1, name, ParentLocal(r));
      assert forall k :: depth < k < |fns| ==> marked[k] == fns[k];
    }
  }
}
